# A verified model of go-imapgrab

go-imapgrab backs up IMAP mailboxes to maildirs, downloads only what is missing, and can serve a
backup as a local read-only IMAP server. This project models the parts of it that keep state, in
Dafny, and proves what they are for.

- **The download pipeline** (`Pipeline`, `PipelineSafety`, `PipelineOutcome`, `PipelineProgress`,
  `PipelineFairness`). Fetch, translation, delivery and write-out are goroutines joined by an unbuffered and
  two buffered channels, a start gate and a WaitGroup; the user may interrupt at any time, and any operation
  may fail. The model is a transition system with one program counter per goroutine. Proved: nothing is
  remembered before it lies in `new/`, in every state of every interleaving; a run that returns nil is
  complete, and nil is returned exactly if no error was counted; the pipeline never deadlocks, and every
  weakly fair run returns, with nil if nothing goes wrong.
- **Incremental backup** (`Backup`, `Downloads`, `Ids`, `EmailFields`, `OldmailText`, `OldmailGrammar`,
  `Decimal`). Any
  sequence of runs, each of which may fail, be interrupted or be killed, with a mailbox that grows and
  shrinks in between. The log is also modelled as text, so that what the next run reads is proved to
  be what the last one wrote.
- **The cache of message bodies** (`CacheProtocol`, `CacheCleanRuns`, `CacheFailedReads`,
  `ServerCache`). `fill` locks a message and then the cache, an eviction the cache and then messages.
  The protocol is a transition system over any number of threads; the cache for serialised calls is a
  pair of classes.
- **The sessions of `DownloadFolder`** (`Sessions`, `SessionSafety`, `SessionResults`, `SessionOutcome`,
  `Folders`, `OrderedSets`, `Partitions`, `Interrupts`). Fork, join, deferred clean-up and the collected errors as
  a transition system; folder specifications and the round-robin split as imperative code; all of them
  composed in one theorem on which folders are downloaded.
- **Maildirs** (`Maildirs`, `MaildirSetUps`, `UniqueNames`). Delivery and set-up on a file system that remembers every
  content it ever had.
- **The served mailbox** (`ServedMailbox`) and **the lock with a time limit** (`LockTimeout`).

`Common` and `Sorting` hold what the others share. Code of the program that changes objects in place is
a class or a method with loops here, proved against functions; goroutines are transition systems
(`Enabled` says when a step can happen, `Do` what it does).

## Assumptions

- UIDs are unique within one UIDVALIDITY and never reused (section 2.3.1.1 of RFC 3501); a successful
  listing is complete; a fetch sends a requested message at most once, and each one if it returns nil;
  a number among the fields of a message is the UID it was asked for. These are the conditions `CanAttempt` in
  `Backup` states.
- A channel operation, a file operation, a counter update and an access to `once.called` are atomic. A
  `Write` of a log line happens completely or not at all. `AppendReadableIff` shows why: after a torn line
  that can still be read, the next append makes the whole log unreadable.
- Weak fairness: a goroutine that can move does so some time. For the fetch this means that the server
  answers some time, or that the call fails.
- A read that fails hands over at most what the file holds.
- `rename` is atomic, and nobody else writes to the directories of a backup.

## Where code and documentation differ

The model follows the code.

- README.md:211-222 lets a minus sign negate a specification. The code trims a second minus sign from a
  literal name, so a folder whose name starts with a minus sign cannot be deselected
  (`DocumentedUnlessDoubleMinus`).
- core/srvbackend_message.go:117 registers a message even if its file could not be read. Then a later
  `fill` of that message may wait for the cache while an eviction waits for the message. The deadlock is
  within reach exactly when there are two threads and two messages, and the files together exceed the bound
  (`DeadlockReachableIff`); as long as all reads succeed, there is none, and every `fill` returns (`NeverStuck`,
  `EveryFillReturns`).
- `initMaildir` promises to create what is missing, but does so only if the folder itself is missing. A
  set-up that stops half-way is never repaired (`HalfMadeIsStuck`), and a set-up for which there is a log
  file already wipes that log (`InitMaildir`). The set-up of a folder makes the directory of a folder it lies
  in, which then counts as set up half-way (`SetUpsSucceedIff`); a single worker takes folders in an order in
  which this does not happen (`AscendingSetUpsSucceed`), several workers may not.
- Served UIDs are numbered afresh at every start, under a constant UIDVALIDITY of 1. They are stable only
  as far as `UidIsKeptIff` and `UidsAreFixedIff` say.
- core/interrupt.go:77-82 says it waits without the lock; it holds the lock while it waits.
- In the pipeline an interrupt is noticed between two messages only, and after `once` was called the
  translator may still hand on messages.

## Model

| member | source | states |
|---|---|---|
| PipelineSafety.StepKeepsInv | core/imap_client.go:114-202 | Every step of every goroutine keeps the invariant: the WaitGroup counts the stages under way, the once runs for one goroutine only, stages end only behind drained channels, no message or record is lost, doubled or reordered. |
| PipelineSafety.CrashSafety | core/oldmail.go:127-158 | Wherever a run stops, the log is a prefix of the records of stored messages, and the messages dealt with are a prefix of those fetched, in order. |
| PipelineSafety.CleanRunIsComplete | core/download.go:95-141 | If the call returns nil, every non-nil message of the fetch was stored once and recorded once, in fetch order. |
| PipelineSafety.DoneAtMostOnce | core/imap_client.go:114-155 | The retrieval calls Done at most once although fetch and interrupt race for it, exactly once when its once is spent, and the WaitGroup is never negative. |
| PipelineSafety.InterruptStopsRetrieval | core/imap_client.go:180-199 | Once the session is interrupted, at most the one message the translator is waiting for is still taken from the fetch. |
| PipelineOutcome.SignalStopsRetrieval | core/interrupt.go:63-75 | In a run with a signal, at most one more message is taken from the fetch after it. |
| PipelineOutcome.SignalIsAnError | core/imap_client.go:182-199 | If the translator asks after the signal, the call never returns nil. |
| PipelineOutcome.FailureIsAnError | core/download.go:127-139 | A run in which fetching, delivering, writing, closing or opening failed never returns nil. |
| PipelineOutcome.InterruptIsChannel | core/interrupt.go:63-75 | The interrupt of the pipeline is the channel of an interrupter with room for one signal. |
| PipelineOutcome.RecordIsOfFields | core/deliver.go:52-64 | A message is deliverable if and only if its fields have a place for each value, and what is recorded stands there. |
| PipelineOutcome.ChannelsHold | core/download.go:27-30 | The translator can be twenty messages ahead, the deliverer ten records. |
| PipelineProgress.StepLowers | core/imap_client.go:158-199 | Every step but the spin on the closed channel and the environment lowers a measure of unsent messages, channel contents and program counters. |
| PipelineProgress.CanGoIffEnabled | core/deliver.go:48-67 | The description of when a goroutine can move agrees with the enabled steps, both ways. |
| PipelineProgress.Progress | core/download.go:122-131 | No deadlock: until main has returned, some goroutine has a step that lowers the measure, without the fetch having to fail. |
| PipelineOutcome.NilIffNothingCounted | core/download.go:116-141 | A call that returns gives nil if and only if no step counted an error and the log could be opened. |
| PipelineFairness.WellRunsReturnNil | core/download.go:95-141 | A weakly fair run in which no operation fails and nobody interrupts returns nil. |
| PipelineFairness.FairRunsFinish | core/download.go:95-141 | Every infinite weakly fair run reaches a state in which main has returned. |
| EmailFields.Email.Set | core/email.go:54-91 | A field is refused if and only if its kind is used up or the first other value is no header; the members are what the fields so far amount to. |
| EmailFields.Rfc822FromEmail | core/email.go:106-133 | Succeeds if and only if six fields have one place each for UID, time, header and body and raw strings elsewhere, with "rfc822" in the header in any case; UID, time stamp and body are taken from these places. |
| EmailFields.KindsAddUp | core/email.go:106-112 | The kinds partition the fields, so that an email has exactly six. |
| EmailFields.OrderInsensitive | core/email.go:54-133 | The result does not depend on how the kinds interleave. |
| OldmailText.ReadOldmail | core/oldmail.go:64-109 | The scan loop computes the recursive reading of the text, or fails. |
| OldmailGrammar.LineIsReadIff | core/oldmail.go:84-104 | The parser accepts exactly the lines of a grammar, a carriage return at the end apart, and reads the numbers that stand there. |
| OldmailGrammar.FileIsReadByLine | core/oldmail.go:84-109 | The file is read line by line; a line that does not parse or is too long spoils it. |
| OldmailText.LineIs | core/oldmail.go:145-148 | One printed line: validity, slash, UID, NUL, time stamp, newline. |
| OldmailText.RoundTrip | core/oldmail.go:84-109 | Any list of printed records, negative numbers included, reads back as that list. |
| OldmailText.AppendLaw | core/oldmail.go:113-148 | A finished log followed by more readable text reads as the old records followed by the new ones. |
| OldmailText.AppendReadableIff | core/oldmail.go:117-148 | Appending to a readable log gives a readable log if and only if the old one is empty or ends in a newline. |
| Ids.DetermineMissingUIDs | core/ids.go:23-58 | The loops compute the consistency check and the difference; it fails if and only if a listed message or a record is of another folder than the first listed message. |
| Ids.MissingIsDifference | core/ids.go:46-57 | Exactly the listed UIDs that are not known are missing. |
| Ids.MissingKeepsOrder | core/ids.go:46-57 | Missing UIDs come in the order of the listing. |
| Ids.MissingConcat | core/ids.go:46-57 | The listed messages are taken one by one, repeated ones included. |
| Ids.GetAllMessageUUIDs | core/imap_client.go:223-258 | The listing holds exactly the UIDs answered, in the order and as often as answered, under the validity of the mailbox, and nothing for an empty mailbox. |
| Ids.IdentifiedConcat | core/imap_client.go:244-252 | The answers are taken one by one. |
| Backup.RunIsNew | core/download.go:80-141 | Whatever one run stores or records was on the server and missing from the log, and no UID twice. |
| Backup.HistoryKeepsInv | core/download.go:80-141 | Over any sequence of runs, arrivals and removals: no UID is logged twice, all records carry one validity, whatever is recorded was delivered. |
| Backup.NilMeansComplete | core/download.go:100-141 | After a run that returned nil, every message on the server is recorded and stored. |
| Backup.RerunDoesNothing | core/download.go:103-114 | An immediate rerun stores nothing, records nothing and returns nil. |
| Backup.ValidityChangeIsRefused | core/ids.go:23-45 | With a changed validity nothing is mixed into an old log: the run changes nothing and fails. |
| Backup.ArrivedIsRecorded | core/download.go:100-141 | Mail that arrives is recorded by the next run that returns nil. |
| Backup.RemovedIsNotFetched | core/download.go:100-141 | Mail removed before it was recorded is not recorded later. |
| Downloads.Prepare | core/download.go:80-121 | The phases before the pipeline: when the call refuses, is up to date, crashes on a UID above 2^31-1, or fetches exactly the missing UIDs. |
| Downloads.LogFileFollows | core/oldmail.go:113-158 | The log file after a run reads as the old log followed by the new records, and can be appended to again. |
| Downloads.LogFileStaysTrue | core/oldmail.go:113-158 | Over any history of runs, failures, interrupts and crashes the log file reads as the log of `Backup` and can be appended to. |
| CacheProtocol.RunSane | core/srvbackend_message.go:62-130 | In every interleaving, failed reads included, locks are exclusive and an eviction has exactly the rest of the map to do. |
| CacheProtocol.InsideAlone | core/srvbackend_message.go:62-130 | No two threads are inside `fill` with the same message, none with a message being cleared, and one at a time with the map. |
| CacheProtocol.StuckOnlyInDeadlock | core/srvbackend_message.go:62-130 | While a thread is inside `fill`, some thread inside can move, or an eviction waits for a message whose holder waits for the cache. |
| CacheProtocol.DeadlockIsForever | core/srvbackend_message.go:62-130 | Two threads in that situation never move again, whatever the others do. |
| CacheCleanRuns.NeverStuck | core/srvbackend_message.go:62-130 | If all reads succeed, some thread inside `fill` can always move, despite the opposite lock orders. |
| CacheCleanRuns.AccountsWhenFree | core/srvbackend_message.go:62-130 | If all reads succeed and the cache is unlocked, it lists exactly the filled messages not on their way to registration, `knownBytes` is the sum of their sizes, and it exceeds the bound for a single message only. |
| CacheCleanRuns.CallsUnderwayEnd | core/srvbackend_message.go:62-130 | Failed reads included: without new calls no interleaving takes more steps than the work left. |
| CacheCleanRuns.EveryFillReturns | core/srvbackend_message.go:62-130 | If all reads succeed and no new call comes, the steps are bounded, and when no thread can move every `fill` has returned. |
| CacheCleanRuns.FillFills | core/srvbackend_message.go:104-120 | If all reads succeed, a thread about to return from `fill` leaves its message filled. |
| CacheFailedReads.DeadlockReachableIff | core/srvbackend_message.go:104-120 | If reads may fail, a deadlock can be reached if and only if there are at least two threads and two messages, and the files together exceed the bound. |
| ServerCache.ServerMessage.Clear | core/srvbackend_message.go:122-130 | Clearing empties a message and keeps flags, date and UID. |
| ServerCache.MessageMemory.ClearIfNeeded | core/srvbackend_message.go:62-78 | Full effect of an eviction in any order; the message being registered is never evicted. |
| ServerCache.MessageMemory.Fill | core/srvbackend_message.go:104-120 | A filled message holds its file; what is registered and dropped, also if the read fails. As long as reads succeed, the cache knows exactly the filled messages and the sum of their files' sizes, above the bound for a single message only. |
| ServerCache.MessageMemory.Work | core/srvbackend_message.go:88-102 | A call works on the file's content if the message is filled or the read succeeds. |
| ServerCache.MessageMemory.Serve | core/srvbackend_message.go:88-130 | Transparency for every serialised sequence of calls, any bound and any read failures: what an uncached backend would work on, this one works on. Without failures the accounting holds throughout. |
| SessionSafety.StepKeepsInv | core/core.go:160-218 | Every step keeps the invariant: each session stands where the program counters say, the WaitGroup counts the live workers, every failure is in the list or about to be added. |
| SessionResults.NothingAfterLogout | core/core.go:160-218 | After the logout of a session no call is made on it, but for a second logout of the main one. |
| SessionResults.SecondaryLogsOutOnce | core/core.go:178-215 | When the join returns, each further session was logged out as often as a login was tried: at most once, and exactly once if tried. |
| SessionResults.MainLogsOutLast | core/core.go:167-172 | The main session's logout is the last event and terminates if and only if something failed; a second one happened if and only if the loop stopped at its first turn; a failed login is followed by nothing. |
| SessionResults.NoLaunchAfterFailure | core/core.go:193-214 | From the first error or interrupt main knows of, no further worker is launched: nothing is ever downloaded on a session without a worker. |
| SessionOutcome.StopHasCause | core/core.go:193-214 | The loop gives up only after an interrupt or after something failed. |
| SessionOutcome.NothingFailsMeansAllDone | core/core.go:177-217 | If nobody interrupts and no call fails, the result is nil and every place is started and finished once. |
| SessionOutcome.NothingFailsMeansSelected | core/core.go:160-218 | In that case each selected folder is downloaded exactly once and no other. |
| SessionOutcome.NothingAfterFailedLogin | core/core.go:167-172 | If the first login fails, no other call is made, not even a logout. |
| SessionResults.ErrorsTerminate | core/core.go:172-213 | From the first error in the list on, every session whose logout has not begun is terminated instead of logged out. |
| SessionResults.TerminationHasCause | core/core.go:77-86 | A session is terminated only after something failed. |
| SessionResults.NilMeansNoFailure | core/threading.go:32-56 | The result is nil if and only if no call ever failed and the loop did not give up. |
| SessionResults.NilMeansEverything | core/core.go:197-209 | If the result is nil, the download of every folder of every partition was started once and finished once. |
| SessionResults.EverySelectedFolderOnce | core/core.go:160-218 | Expansion, partition and sessions composed: a call that returns nil has downloaded each selected folder exactly once and no other. |
| SessionResults.RunsAreBounded | core/core.go:160-218 | No interleaving takes more steps than the initial measure. |
| SessionResults.OnlyReturnedIsFinal | core/core.go:177-217 | No interleaving gets stuck before the call has returned. |
| Folders.Include | core/folder.go:81-97 | A positive specification adds exactly the folders it stands for. |
| Folders.Exclude | core/folder.go:58-80 | A negative specification removes exactly the folders it touches, with a second minus sign trimmed from literal names. |
| Folders.ExpandFolders | core/folder.go:45-106 | The strictly ascending list of the available folders whose last touching specification is positive; the others that are selected are reported. |
| Folders.ExpansionIsDetermined | core/ordered_set.go:97-117 | That promise fixes the result, so the iteration order of maps does not matter. |
| Folders.SelectorsAreThese | core/folder.go:26-43 | What `_ALL_`, `_Gmail_`, their negations and literal names select, with the prefixes of Gmail folders word by word. |
| Folders.DocumentedUnlessDoubleMinus | README.md:211-222 | With a given stock of specifications, all lists mean what is documented if and only if none starts with two minus signs. |
| Sorting.BelowIsLexicographic | core/folder.go:103 | The order of the result is the lexicographic one. |
| OrderedSets.OrderedSet.Add | core/ordered_set.go:44-49 | Appends an entry that is absent; the order numbers stay distinct and below the counter. |
| OrderedSets.OrderedSet.Remove | core/ordered_set.go:51-53 | Deletes an entry and keeps the order of the others. |
| OrderedSets.OrderedSet.OrderedEntries | core/ordered_set.go:73-95 | Sorting the map by order numbers gives the list, however the map is iterated. |
| OrderedSets.OrderedSet.Union | core/ordered_set.go:97-106 | The entries that are also in the other set, which the source calls union. |
| OrderedSets.OrderedSet.Exclusion | core/ordered_set.go:108-117 | The entries that are not in the other set. |
| OrderedSets.OrderedSet.Equal | core/ordered_set.go:119-131 | True if and only if both sets have the same entries, although only one direction is looked up. |
| OrderedSets.SetFromSlice | core/ordered_set.go:36-42 | The set of the elements of a slice. |
| OrderedSets.ListsByEntryTime | core/ordered_set.go:44-95 | After any history of adds and removes, the list holds the keys that stay, by the time they entered: a key that is added again after its removal moves to the end. |
| Partitions.PartitionFolders | core/core.go:139-153 | Element k of partition j is folder j + k*n, each partition goes on until the folders end, and n is the wanted number if there are that many folders, else their number. |
| Partitions.EveryFolderHasOnePlace | core/core.go:147-150 | Positions in the list and places in the partitions correspond one to one. |
| Partitions.NoFolderTwice | core/core.go:139-153 | If the folders are distinct, no two workers own the same one. |
| Partitions.SharesAreEven | core/core.go:140-143 | No partition is empty, and sizes differ by at most one. |
| Interrupts.Interrupter.Register | core/interrupt.go:43-49 | The channel stays what everything that happened so far makes of it; a registration is added to that history. |
| Interrupts.Interrupter.Interrupted | core/interrupt.go:63-75 | The answer is no if and only if neither a signal nor a deregistration has come since the last registration, however often it was asked for; a positive answer deregisters. |
| Interrupts.Interrupter.Deregister | core/interrupt.go:51-61 | The channel stays true to the history, to which a deregistration is added. |
| Interrupts.AnswerIsSticky | core/interrupt.go:43-75 | Over every history: the answer is no if and only if nothing but questions came since the last registration. |
| Interrupts.ThreadSafeErrors.Add | core/threading.go:32-41 | Errors are only ever added, nil is not. |
| UniqueNames.NameTellsCount | core/maildir.go:86-88 | The name format can be decoded back to the delivery count, whatever the other parts are. |
| UniqueNames.NameTellsAll | core/maildir.go:75-88 | Time, process, count, random bytes and escaped host name can all be read back from a name. |
| UniqueNames.EscapedIs | core/maildir.go:71-73 | Slashes and colons of the host name become their octal codes, all else stays. |
| UniqueNames.BuildName | core/maildir.go:57-96 | When a name can be made, that it is a single path component, and which parts it carries. |
| UniqueNames.DeliveryCounter.NewUniqueName | core/maildir.go:57-96 | A name differs from every name made before in the process. |
| UniqueNames.DeliveryCounter.Inc | core/threading.go:63-68 | Strictly increasing. |
| Maildirs.FileSystem.DeliverMessage | core/maildir.go:175-200 | At every intermediate content no earlier file is touched and `new/` has at most one more file, the complete message; on success exactly that, on failure `new/` is as before. It succeeds only if nothing went wrong, and then always unless an earlier file carries its count. |
| Maildirs.FileSystem.DeliverAll | core/deliver.go:52-64 | For any list of messages and faults, at every intermediate content `new/` keeps its files and gains only complete messages; delivered and failed ones add up. |
| Maildirs.FileSystem.IsMaildirPath | core/maildir.go:100-109 | The loop decides whether all three parts are there. |
| Maildirs.FileSystem.InitExistingMaildir | core/maildir.go:115-141 | Succeeds with the records of the log, if parts and log are there. |
| Maildirs.FileSystem.InitMaildir | core/maildir.go:146-171 | What each outcome leaves behind, for every operation that may be the first to fail. |
| Maildirs.HalfMadeIsStuck | core/maildir.go:154-170 | After a set-up that stopped half-way a later one succeeds if and only if only the log was missing and a readable log exists. |
| MaildirSetUps.SetUpsSucceedIff | core/maildir.go:146-171 | Folders with log files of their own can all be set up in their order if and only if none comes after a folder that lies in it or is a part of an earlier maildir. |
| MaildirSetUps.AscendingSetUpsSucceed | core/core.go:203-208 | In the ascending order of a single worker all set-ups succeed, unless a folder is a part of another one's maildir. |
| Maildirs.LogIsSharedIff | core/oldmail.go:51-53 | Two folders of one account share a log file if and only if their names agree once separators are dots. |
| ServedMailbox.Mailbox.AddMessages | core/srvbackend_mailbox.go:185-230 | The messages are exactly the entries of both directories that are still there, with their times; an older one has the smaller UID; numbered from 1, seen; or nothing changes. |
| ServedMailbox.Mailbox.Status | core/srvbackend_mailbox.go:56-96 | `UidNext` exceeds every UID, and the flags are those some message has, each once. |
| ServedMailbox.Mailbox.ListMessages | core/srvbackend_mailbox.go:111-128 | Exactly the selected messages that can be read, in ascending order. |
| ServedMailbox.Mailbox.SearchMessages | core/srvbackend_mailbox.go:131-146 | Exactly the matching messages, strictly ascending. |
| ServedMailbox.Mailbox.UpdateMessagesFlags | core/srvbackend_mailbox.go:156-166 | Updates the flags of the selected messages and of no other. |
| ServedMailbox.UidIsRank | core/srvbackend_mailbox.go:205-228 | With distinct times a UID is one more than the number of older messages, whatever the listing order or directory. |
| ServedMailbox.UidIsKeptIff | core/srvbackend_mailbox.go:205-228 | From one start to the next, whatever messages come or go, a UID stays if and only if as many older messages came as went. |
| ServedMailbox.UidSurvivesAdditionsIff | core/srvbackend_mailbox.go:205-228 | With messages added only, a UID stays if and only if no added message is older. |
| ServedMailbox.UidsAreFixedIff | core/srvbackend_mailbox.go:205-208 | The UIDs are determined if and only if no two messages have the same time. |
| LockTimeout.OwnershipIsKept | cli/lock.go:52-78 | In every interleaving the result is taken at most once, the send never blocks, exactly one party is to release a lock that is held, a timeout is reported only when the time is up, and no lock is tried for without its directories. |
| LockTimeout.NothingLeaks | cli/lock.go:60-78 | When nothing is left to do, the lock is released as often as it was obtained; after a timeout the caller never took a result, and what was obtained was released by the goroutine left behind; only an acquirer without an answer stays. |
| LockTimeout.OwnStepsAreBounded | cli/lock.go:60-78 | Whatever other processes do, the goroutines take a bounded number of steps. |

## Left out

- The command line, the keyring, help texts and logging: user interface.
- The go-imap client and server, TLS, operating-system signals, `imap.SeqSet`, matching and fetching on a
  filled message: libraries; they are steps of the environment or parameters.
- Error texts and `oldmail.String`: no decision depends on them.
- Data races on `once.called` and the error counters, as far as they are more than a choice of
  interleaving.
- The unsynchronised assignment of `err` in core/imap_client.go:87-99 and 223-258: the outcome of a listing
  is a parameter.
- The logout of a session whose login failed uses a nil client (core/core.go:77-85); sessions are modelled
  at the interface, where it is a call that may fail.
- The use of a body after `fill` has released the lock of its message: transparency is proved for calls that
  come one after the other.
- Files above 2^31-1 bytes crash the server (core/srvbackend_message.go:113).
- Logs of different folders or accounts that share a file are not part of `Backup`; `LogIsSharedIff` says
  when two folders of one account do.
- Other formats of the messages, such as `time` values before conversion to seconds.
- ServedMailbox.Mailbox.AddMessages: requires at most 2^31-1 messages, because the program crashes on more.
- MaildirSetUps.SetUpsSucceedIff: for folders of one account whose log files differ, below a base directory
  without folders; when two folders share a log is what `LogIsSharedIff` says.
- Interrupts.AnswerIsSticky: requires room for a signal in the channel, as `signalsToWaitFor` gives; `wait`
  blocks until a signal comes and is not modelled.
- Maildirs.FileSystem.InitMaildir: a failing `MkdirAll` is taken to create nothing, although it may leave
  some parent directories; permissions and path cleaning are not modelled.
- Maildirs.FileSystem.DeliverMessage: states what one process does to the files; deliveries to one maildir
  happen one after the other, as in the program.
- Sorting.SortSlice: stands for Go's `sort.Slice` by its promise, not by its algorithm.
