/** Incremental backup of one folder over any number of runs (core/download.go): the log file and the
    files in `new/` persist, the mailbox on the server grows and shrinks, and every run executes the
    pipeline up to wherever it got before it returned, was interrupted or was killed.

    Assumptions about the server, beside a constant UIDVALIDITY (section 2.3.1.1 of RFC 3501): a UID
    is never reused, a successful listing is complete, and a fetch sends each requested message at
    most once, all of them if it returns nil. */
module Backup {
  import opened Common
  import EmailFields
  import opened Pipeline
  import opened PipelineSafety
  import opened Ids

  /** `live` are the messages on the server now, `used` all UIDs it ever gave out. The files in
      `new/` stand for the messages they were extracted from. */
  datatype Disk = Disk(log: seq<Oldmail>, files: seq<Oldmail>)
  datatype Mailbox = Mailbox(validity: int64, live: set<int64>, used: set<int64>)

  /** What the server has to say during one run, and how far the run gets. */
  datatype Attempt = Attempt(listing: seq<UidExt>, mail: seq<Option<Message>>, sig: Interrupt, run: seq<Action>)

  datatype Event =
    | Arrive(uids: set<int64>)
    | Expunge(uids: set<int64>)
    /** The maildir, the folder selection or the listing fails, or the user interrupted before. */
    | GiveUp
    | Download(attempt: Attempt)

  datatype Site = Site(disk: Disk, box: Mailbox)

  function MsgUids(msgs: seq<Message>): set<int64> { set m <- msgs :: m.uid }

  predicate NoMessageTwice(msgs: seq<Message>) {
    forall i, j :: 0 <= i < j < |msgs| ==> msgs[i].uid != msgs[j].uid
  }

  /** A number among the fields of a message is the UID it was asked for. */
  predicate Honest(msgs: seq<Message>) {
    forall m <- msgs, f <- m.fields :: f.Number? ==> f.n as int == m.uid
  }

  /** The record of a message carries its UID. */
  predicate TellsUids(msgs: seq<Message>, validity: int64) {
    forall m <- msgs :: RecordOf(m, validity).Some? ==> RecordOf(m, validity).value.uid == m.uid
  }

  lemma HonestTellsUids(msgs: seq<Message>, validity: int64)
    requires Honest(msgs)
    ensures TellsUids(msgs, validity)
  {
    forall m <- msgs | RecordOf(m, validity).Some? ensures RecordOf(m, validity).value.uid == m.uid {
      EmailFields.ExtractIsAt(m.fields, validity);
      hide EmailFields.Extract;
      var n, t, i, j :| EmailFields.EmailAt(m.fields, n, t, i, j);
      assert m.fields[n] in m.fields;
    }
  }

  predicate Complete(box: Mailbox, listing: seq<UidExt>) {
    OfFolder(listing, box.validity) && Listed(listing) == box.live
  }

  /** The reply to a fetch: each requested message once, in any order, nil values in between. */
  ghost predicate Answers(validity: int64, mail: seq<Option<Message>>, missing: seq<int64>) {
    var all := Sent(mail, |mail|);
    NoMessageTwice(all) && Honest(all) && MsgUids(all) == set u <- missing
  }

  /** UIDs below 1 are refused before anything is fetched, and those that do not fit into an int32
      crash the program, likewise before anything is fetched. */
  predicate Requestable(missing: seq<int64>) { forall u <- missing :: 0 < u <= MAX_INT32 }

  predicate Fetches(disk: Disk, listing: seq<UidExt>) {
    match Determine(disk.log, listing)
    case Err => false
    case Ok(missing) => missing != [] && Requestable(missing)
  }

  ghost predicate CanAttempt(disk: Disk, box: Mailbox, a: Attempt) {
    && Complete(box, a.listing)
    && (Fetches(disk, a.listing) ==>
          && Answers(box.validity, a.mail, Determine(disk.log, a.listing).value)
          && Feasible(Init(box.validity, a.mail, a.sig), a.run))
  }

  /** The disk after a run, and whether the run returned nil. */
  ghost function RunOnce(disk: Disk, box: Mailbox, a: Attempt): (Disk, bool)
    requires CanAttempt(disk, box, a)
  {
    if Fetches(disk, a.listing) then
      var s := After(Init(box.validity, a.mail, a.sig), a.run);
      (Disk(disk.log + s.log, disk.files + Stored(s.handled, s.fold)), s.main == Returned(true))
    else
      (disk, Determine(disk.log, a.listing) == Ok([]))
  }

  ghost predicate Possible(w: Site, e: Event) {
    match e
    case Arrive(uids) => uids !! w.box.used
    case Expunge(_) => true
    case GiveUp => true
    case Download(a) => CanAttempt(w.disk, w.box, a)
  }

  ghost function Next(w: Site, e: Event): Site
    requires Possible(w, e)
  {
    match e
    case Arrive(uids) => w.(box := w.box.(live := w.box.live + uids, used := w.box.used + uids))
    case Expunge(uids) => w.(box := w.box.(live := w.box.live - uids))
    case GiveUp => w
    case Download(a) => w.(disk := RunOnce(w.disk, w.box, a).0)
  }

  ghost predicate Happens(w: Site, history: seq<Event>)
    decreases |history|
  {
    history == [] || (Possible(w, history[0]) && Happens(Next(w, history[0]), history[1..]))
  }

  ghost function Afterwards(w: Site, history: seq<Event>): Site
    requires Happens(w, history)
    decreases |history|
  {
    if history == [] then w else Afterwards(Next(w, history[0]), history[1..])
  }

  // ---------- the invariant ----------

  predicate NoUidTwice(log: seq<Oldmail>) { forall i, j :: 0 <= i < j < |log| ==> log[i].uid != log[j].uid }

  /** No UID is recorded twice, all records carry the validity of the mailbox, and whatever is
      recorded was delivered. */
  predicate Inv(w: Site) {
    && NoUidTwice(w.disk.log)
    && LogOfFolder(w.disk.log, w.box.validity)
    && (forall om <- w.disk.log :: om in w.disk.files)
    && w.box.live <= w.box.used
    && (forall om <- w.disk.files :: om.uid in w.box.used)
  }

  // ---------- what one run adds ----------

  lemma OneMessageMore(msgs: seq<Message>, m: Message, validity: int64)
    requires NoMessageTwice(msgs + [m]) && TellsUids(msgs + [m], validity)
    ensures NoMessageTwice(msgs) && TellsUids(msgs, validity)
    ensures m.uid !in MsgUids(msgs) && MsgUids(msgs + [m]) == MsgUids(msgs) + {m.uid}
    ensures RecordOf(m, validity).Some? ==> RecordOf(m, validity).value.uid == m.uid
  {
    hide RecordOf;
    var more := msgs + [m];
    assert more[|msgs|] == m && forall k :: 0 <= k < |msgs| ==> more[k] == msgs[k];
    assert m in more && forall x <- msgs :: x in more;
  }

  lemma RecordCarriesFold(m: Message, fold: int64)
    ensures RecordOf(m, fold).Some? ==> RecordOf(m, fold).value.uidFolder == fold
  {
  }

  /** What a run stores comes from different messages of the reply. */
  lemma {:induction false} StoredComesFrom(handled: seq<Handled>, fold: int64)
    requires NoMessageTwice(Messages(handled)) && TellsUids(Messages(handled), fold)
    ensures NoUidTwice(Stored(handled, fold)) && LogOfFolder(Stored(handled, fold), fold)
    ensures Uids(Stored(handled, fold)) <= MsgUids(Messages(handled))
  {
    if handled == [] {
    } else {
      var init, last := handled[..|handled| - 1], handled[|handled| - 1];
      OneMessageMore(Messages(init), last.msg, fold);
      RecordCarriesFold(last.msg, fold);
      StoredComesFrom(init, fold);
      hide RecordOf, Messages, MsgUids, NoMessageTwice, TellsUids;
      assert forall om <- Stored(init, fold) :: om.uid in Uids(Stored(init, fold));
    }
  }

  lemma PrefixOfReply(msgs: seq<Message>, all: seq<Message>, validity: int64)
    requires msgs <= all && NoMessageTwice(all) && TellsUids(all, validity)
    ensures NoMessageTwice(msgs) && TellsUids(msgs, validity) && MsgUids(msgs) <= MsgUids(all)
  {
    hide RecordOf;
    assert forall m <- msgs :: m in all;
  }

  lemma {:induction false} SentGrows(mail: seq<Option<Message>>, n: nat)
    requires n <= |mail|
    ensures Sent(mail, n) <= Sent(mail, |mail|)
    decreases |mail| - n
  {
    if n == |mail| {
    } else {
      SentGrows(mail, n + 1);
    }
  }

  /** Wherever the run stops: what it stored and logged are requested messages, none of them twice,
      and the log of the run is a prefix of what it stored. */
  lemma RunAdds(a: Attempt, validity: int64, missing: seq<int64>)
    requires Answers(validity, a.mail, missing) && Feasible(Init(validity, a.mail, a.sig), a.run)
    ensures var s := After(Init(validity, a.mail, a.sig), a.run);
            var stored := Stored(s.handled, s.fold);
            && s.log <= stored && NoUidTwice(stored) && LogOfFolder(stored, validity)
            && Uids(stored) <= set u <- missing
  {
    var s := After(Init(validity, a.mail, a.sig), a.run);
    CrashSafety(validity, a.mail, a.sig, a.run);
    InitInv(validity, a.mail, a.sig);
    RunKeepsConstants(Init(validity, a.mail, a.sig), a.run);
    hide Feasible, After, RecordOf, Honest, TellsUids, NoMessageTwice, NoUidTwice, LogOfFolder;
    hide Messages, Stored, Sent, PipelineSafety.Inv;
    SentGrows(a.mail, s.sent);
    HonestTellsUids(Sent(a.mail, |a.mail|), validity);
    PrefixOfReply(Messages(s.handled), Sent(a.mail, |a.mail|), validity);
    StoredComesFrom(s.handled, validity);
  }

  // ---------- the invariant holds for ever ----------

  lemma Appended(disk: Disk, more: seq<Oldmail>, stored: seq<Oldmail>, validity: int64)
    requires NoUidTwice(disk.log) && LogOfFolder(disk.log, validity) && forall om <- disk.log :: om in disk.files
    requires more <= stored && NoUidTwice(stored) && LogOfFolder(stored, validity)
    requires Uids(stored) !! Uids(disk.log)
    ensures NoUidTwice(disk.log + more) && LogOfFolder(disk.log + more, validity)
    ensures forall om <- disk.log + more :: om in disk.files + stored
  {
    forall i, j | 0 <= i < j < |disk.log + more| ensures (disk.log + more)[i].uid != (disk.log + more)[j].uid {
      if i < |disk.log| && j >= |disk.log| {
        assert disk.log[i].uid in Uids(disk.log) && stored[j - |disk.log|].uid in Uids(stored);
      }
    }
  }

  /** What a run records or stores was missing from the log before. */
  lemma RunIsNew(w: Site, a: Attempt) returns (s: State)
    requires Inv(w) && CanAttempt(w.disk, w.box, a) && Fetches(w.disk, a.listing)
    ensures RunOnce(w.disk, w.box, a) ==
            (Disk(w.disk.log + s.log, w.disk.files + Stored(s.handled, s.fold)), s.main == Returned(true))
    ensures s.log <= Stored(s.handled, s.fold) && NoUidTwice(Stored(s.handled, s.fold))
    ensures LogOfFolder(Stored(s.handled, s.fold), w.box.validity)
    ensures Uids(Stored(s.handled, s.fold)) <= w.box.live - Uids(w.disk.log)
  {
    var missing := Determine(w.disk.log, a.listing).value;
    RunAdds(a, w.box.validity, missing);
    MissingIsDifference(Uids(w.disk.log), a.listing);
    s := After(Init(w.box.validity, a.mail, a.sig), a.run);
    hide Feasible, After, Stored, Init, Answers, Missing, NoUidTwice;
  }

  lemma DownloadKeepsInv(w: Site, a: Attempt)
    requires Inv(w) && CanAttempt(w.disk, w.box, a)
    ensures Inv(Next(w, Download(a)))
  {
    if Fetches(w.disk, a.listing) {
      var s := RunIsNew(w, a);
      var stored := Stored(s.handled, s.fold);
      hide RunOnce, Fetches, CanAttempt, Stored, NoUidTwice, LogOfFolder;
      Appended(w.disk, s.log, stored, w.box.validity);
      assert forall om <- stored :: om.uid in Uids(stored);
    }
  }

  /** The invariant survives every sequence of runs, arrivals and removals. */
  lemma {:induction false} HistoryKeepsInv(w: Site, history: seq<Event>)
    requires Inv(w) && Happens(w, history)
    ensures Inv(Afterwards(w, history))
    decreases |history|
  {
    if history == [] {
    } else {
      match history[0] {
        case Download(a) => DownloadKeepsInv(w, a);
        case Arrive(_) =>
        case Expunge(_) =>
        case GiveUp =>
      }
      hide Inv, Next, Possible;
      HistoryKeepsInv(Next(w, history[0]), history[1..]);
    }
  }

  // ---------- what a run that returns nil means ----------

  lemma {:induction false} RecordedUids(msgs: seq<Message>, validity: int64)
    requires TellsUids(msgs, validity) && forall m <- msgs :: RecordOf(m, validity).Some?
    ensures Uids(AllRecords(msgs, validity)) == MsgUids(msgs)
  {
    hide RecordOf;
    if msgs == [] {
    } else {
      var init, last := msgs[..|msgs| - 1], msgs[|msgs| - 1];
      assert msgs == init + [last];
      RecordedUids(init, validity);
      var om := RecordOf(last, validity).value;
      assert om.uid == last.uid;
      assert Uids(AllRecords(init, validity) + [om]) == Uids(AllRecords(init, validity)) + {om.uid};
      assert MsgUids(init + [last]) == MsgUids(init) + {last.uid};
    }
  }

  lemma CleanLog(a: Attempt, validity: int64, missing: seq<int64>)
    requires Answers(validity, a.mail, missing) && Feasible(Init(validity, a.mail, a.sig), a.run)
    requires After(Init(validity, a.mail, a.sig), a.run).main == Returned(true)
    ensures Uids(After(Init(validity, a.mail, a.sig), a.run).log) == set u <- missing
  {
    CleanRunIsComplete(validity, a.mail, a.sig, a.run);
    hide Feasible, After, Init, RecordOf, AllRecords, Sent, Messages, MsgUids, Honest, TellsUids;
    HonestTellsUids(Sent(a.mail, |a.mail|), validity);
    RecordedUids(Sent(a.mail, |a.mail|), validity);
  }

  lemma UidsOfBoth(a: seq<Oldmail>, b: seq<Oldmail>)
    ensures Uids(a + b) == Uids(a) + Uids(b)
  {
    assert forall om <- a :: om in a + b;
    assert forall om <- b :: om in a + b;
  }

  /** Completeness: after a run that returned nil every message on the server is recorded, and so its
      file lies in `new/`. */
  lemma NilMeansComplete(w: Site, a: Attempt)
    requires Inv(w) && CanAttempt(w.disk, w.box, a) && RunOnce(w.disk, w.box, a).1
    ensures w.box.live <= Uids(RunOnce(w.disk, w.box, a).0.log)
    ensures w.box.live <= Uids(RunOnce(w.disk, w.box, a).0.files)
  {
    MissingIsDifference(Uids(w.disk.log), a.listing);
    if Fetches(w.disk, a.listing) {
      var missing := Determine(w.disk.log, a.listing).value;
      CleanLog(a, w.box.validity, missing);
      var s := After(Init(w.box.validity, a.mail, a.sig), a.run);
      UidsOfBoth(w.disk.log, s.log);
      hide Feasible, After, Stored, Init, Answers, Missing, Uids;
      assert w.box.live <= Uids(w.disk.log) + set u <- missing;
    } else {
      hide Uids;
      assert Listed(a.listing) <= Uids(w.disk.log);
    }
    DownloadKeepsInv(w, a);
    RecordedIsStored(Next(w, Download(a)));
    hide RunOnce, CanAttempt, Inv, Uids;
  }

  lemma RecordedIsStored(w: Site)
    requires Inv(w)
    ensures Uids(w.disk.log) <= Uids(w.disk.files)
  {
  }

  /** An immediate rerun after a run that returned nil delivers nothing, records nothing and returns
      nil again, in whatever order the server lists the mailbox this time. */
  lemma RerunDoesNothing(w: Site, a: Attempt, again: Attempt)
    requires Inv(w) && CanAttempt(w.disk, w.box, a) && RunOnce(w.disk, w.box, a).1
    requires CanAttempt(RunOnce(w.disk, w.box, a).0, w.box, again)
    ensures RunOnce(RunOnce(w.disk, w.box, a).0, w.box, again) == (RunOnce(w.disk, w.box, a).0, true)
  {
    var disk := RunOnce(w.disk, w.box, a).0;
    NilMeansComplete(w, a);
    DownloadKeepsInv(w, a);
    assert Next(w, Download(a)).disk == disk;
    NothingMissing(Site(disk, w.box), again.listing);
    hide CanAttempt, Inv, Determine;
  }

  lemma NothingMissing(w: Site, listing: seq<UidExt>)
    requires Inv(w) && Complete(w.box, listing) && w.box.live <= Uids(w.disk.log)
    ensures Determine(w.disk.log, listing) == Ok([])
  {
    MissingIsDifference(Uids(w.disk.log), listing);
    HeadIn(Missing(Uids(w.disk.log), listing));
    assert listing != [] ==> listing[0] in listing;
  }

  /** A changed UIDVALIDITY is never mixed into the old log: with anything recorded and anything
      listed, the run changes nothing and does not return nil. */
  lemma ValidityChangeIsRefused(w: Site, validity: int64, a: Attempt)
    requires Inv(w) && w.disk.log != [] && w.box.live != {} && validity != w.box.validity
    requires CanAttempt(w.disk, w.box.(validity := validity), a)
    ensures RunOnce(w.disk, w.box.(validity := validity), a) == (w.disk, false)
  {
    assert a.listing != [] && a.listing[0] in a.listing;
    assert w.disk.log[0] in w.disk.log;
  }

  /** Mail that arrives is recorded by the next run that returns nil. */
  lemma ArrivedIsRecorded(w: Site, uids: set<int64>, a: Attempt)
    requires Inv(w) && Possible(w, Arrive(uids)) && CanAttempt(w.disk, Next(w, Arrive(uids)).box, a)
    requires RunOnce(w.disk, Next(w, Arrive(uids)).box, a).1
    ensures uids <= Uids(RunOnce(w.disk, Next(w, Arrive(uids)).box, a).0.log)
  {
    hide RunOnce, CanAttempt, Uids;
    NilMeansComplete(Next(w, Arrive(uids)), a);
  }

  /** Mail that is removed before it was recorded is not recorded later. */
  lemma RemovedIsNotFetched(w: Site, uids: set<int64>, a: Attempt, u: int64)
    requires Inv(w) && CanAttempt(w.disk, Next(w, Expunge(uids)).box, a)
    requires u in uids && u !in Uids(w.disk.log)
    ensures u !in Uids(RunOnce(w.disk, Next(w, Expunge(uids)).box, a).0.log)
  {
    var w' := Next(w, Expunge(uids));
    if Fetches(w.disk, a.listing) {
      var s := RunIsNew(w', a);
      hide RunOnce, CanAttempt, Fetches, Stored;
      UidsOfBoth(w.disk.log, s.log);
      UidsOfPrefix(s.log, Stored(s.handled, s.fold));
    }
  }

  lemma UidsOfPrefix(a: seq<Oldmail>, b: seq<Oldmail>)
    requires a <= b
    ensures Uids(a) <= Uids(b)
  {
    assert forall om <- a :: om in b;
  }
}
