/** What `DownloadFolder` guarantees about its sessions and its result, in terms of the calls it made. */
module SessionResults {
  import opened Sorting
  import opened Folders
  import opened Partitions
  import opened Sessions
  import opened SessionSafety

  // ---------- what a session that was not misused has seen ----------

  datatype Kind = Logins(i: nat) | Logouts(i: nat) | Starts(i: nat, k: nat) | Finishes(i: nat, k: nat)

  predicate Is(e: Event, kind: Kind) {
    match kind
    case Logins(i) => e.Authenticated? && e.i == i
    case Logouts(i) => e.LoggedOut? && e.i == i
    case Starts(i, k) => e.Started? && e.i == i && e.k == k
    case Finishes(i, k) => e.Finished? && e.i == i && e.k == k
  }

  function Count(h: seq<Event>, kind: Kind): nat {
    if h == [] then 0 else Count(h[..|h| - 1], kind) + if Is(h[|h| - 1], kind) then 1 else 0
  }

  function Begun(p: Phase): nat { match p case Busy(k) => k + 1 case Ready(k) => k case Closed(k, _) => k case _ => 0 }
  function Over(p: Phase): nat { match p case Busy(k) => k case Ready(k) => k case Closed(k, _) => k case _ => 0 }

  lemma {:induction false} PhaseCounts(h: seq<Event>, i: nat, k: nat)
    requires !PhaseOf(h, i).Misused?
    ensures Count(h, Logins(i)) == if PhaseOf(h, i).Fresh? then 0 else 1
    ensures Count(h, Logouts(i)) == if PhaseOf(h, i).Closed? then PhaseOf(h, i).times else 0
    ensures Count(h, Starts(i, k)) == if k < Begun(PhaseOf(h, i)) then 1 else 0
    ensures Count(h, Finishes(i, k)) == if k < Over(PhaseOf(h, i)) then 1 else 0
    ensures PhaseOf(h, i).Closed? ==> PhaseOf(h, i).times >= 1
  {
    if h == [] {
    } else {
      PhaseCounts(h[..|h| - 1], i, k);
    }
  }

  lemma {:induction false} LogoutCloses(h: seq<Event>, i: nat, a: nat)
    requires !PhaseOf(h, i).Misused? && a < |h| && Is(h[a], Logouts(i))
    ensures PhaseOf(h, i).Closed?
  {
    if a == |h| - 1 {
    } else {
      LogoutCloses(h[..|h| - 1], i, a);
    }
  }

  lemma {:induction false} ClosedForGood(h: seq<Event>, i: nat, a: nat, b: nat)
    requires !PhaseOf(h, i).Misused? && a < b < |h| && Is(h[a], Logouts(i)) && h[b].i == i
    ensures h[b].LoggedOut? || h[b].Stopped?
  {
    var init := h[..|h| - 1];
    if b < |h| - 1 {
      ClosedForGood(init, i, a, b);
    } else {
      LogoutCloses(init, i, a);
    }
  }

  lemma {:induction false} FailuresAre(h: seq<Event>)
    ensures Failures(h) == 0 <==> forall e <- h :: !Fails(e)
    ensures StopIn(h) >= 0 ==> Failures(h) > 0
  {
    if h == [] {
    } else {
      FailuresAre(h[..|h| - 1]);
      assert h == h[..|h| - 1] + [h[|h| - 1]];
    }
  }

  lemma NeverMisused(s: State, i: nat)
    requires Inv(s) && IsSession(s, i)
    ensures !PhaseOf(s.history, i).Misused?
  {
    assert FitsAt(s, i);
  }

  // ---------- the guarantees ----------

  ghost predicate Reaches(parts: seq<seq<string>>, signalled: bool, run: seq<Action>, s: State) {
    Feasible(Init(parts, signalled), run) && After(Init(parts, signalled), run) == s
  }

  lemma ReachedIsInv(parts: seq<seq<string>>, signalled: bool, run: seq<Action>, s: State)
    requires Reaches(parts, signalled, run, s)
    ensures Inv(s) && s.parts == parts
  {
    InitInv(parts, signalled);
    RunKeepsInv(Init(parts, signalled), run);
    RunKeepsParts(Init(parts, signalled), run);
  }

  /** No call is made on a session after it was logged out, but for the second logout of the main one. */
  lemma NothingAfterLogout(parts: seq<seq<string>>, signalled: bool, run: seq<Action>, s: State, i: nat, a: nat, b: nat)
    requires Reaches(parts, signalled, run, s) && (i == 0 || i < |parts|)
    requires a < b < |s.history| && Is(s.history[a], Logouts(i)) && s.history[b].i == i
    ensures s.history[b].Stopped? || (s.history[b].LoggedOut? && i == 0)
  {
    ReachedIsInv(parts, signalled, run, s);
    NeverMisused(s, i);
    ClosedForGood(s.history, i, a, b);
    if i > 0 && s.history[b].LoggedOut? {
      AtMostOneLogout(s, i);
      TwoCount(s.history, a, b, Logouts(i));
    }
  }

  lemma AtMostOneLogout(s: State, i: nat)
    requires Inv(s) && 0 < i < |s.parts|
    ensures Count(s.history, Logouts(i)) <= 1
  {
    assert FitsAt(s, i);
    PhaseCounts(s.history, i, 0);
  }

  lemma {:induction false} OneCounts(h: seq<Event>, a: nat, kind: Kind)
    requires a < |h| && Is(h[a], kind)
    ensures Count(h, kind) >= 1
  {
    if a == |h| - 1 {
    } else {
      OneCounts(h[..|h| - 1], a, kind);
    }
  }

  lemma {:induction false} TwoCount(h: seq<Event>, a: nat, b: nat, kind: Kind)
    requires a < b < |h| && Is(h[a], kind) && Is(h[b], kind)
    ensures Count(h, kind) >= 2
  {
    if b < |h| - 1 {
      TwoCount(h[..|h| - 1], a, b, kind);
    } else {
      OneCounts(h[..|h| - 1], a, kind);
    }
  }

  /** When the join returns, every further session on which a login was tried, successfully or not, has been
      logged out exactly once. */
  lemma SecondaryLogsOutOnce(parts: seq<seq<string>>, signalled: bool, run: seq<Action>, s: State, i: nat)
    requires Reaches(parts, signalled, run, s) && Joined(s.main) && 0 < i < |parts|
    ensures Count(s.history, Logouts(i)) == Count(s.history, Logins(i)) <= 1
  {
    ReachedIsInv(parts, signalled, run, s);
    assert FitsAt(s, i);
    PhaseCounts(s.history, i, 0);
  }

  /** The main session is logged out last, and once more before only if the loop stopped at its first turn.
      The last logout terminates the connection if and only if something had failed. A failed login is
      followed by nothing. */
  lemma MainLogsOutLast(parts: seq<seq<string>>, signalled: bool, run: seq<Action>, s: State)
    requires Reaches(parts, signalled, run, s) && s.main.Returned?
    ensures s.main.loggedIn ==>
              && LastIsLogout(s.history)
              && Count(s.history, Logouts(0)) == if StopIn(s.history) == 0 then 2 else 1
    ensures !s.main.loggedIn ==> s.history == [Authenticated(0, false)]
  {
    ReachedIsInv(parts, signalled, run, s);
    assert FitsAt(s, 0);
    PhaseCounts(s.history, 0, 0);
  }

  /** The result is nil if and only if no call failed and the loop did not give up. */
  lemma NilMeansNoFailure(parts: seq<seq<string>>, signalled: bool, run: seq<Action>, s: State)
    requires Reaches(parts, signalled, run, s) && s.main.Returned?
    ensures s.main.isNil <==> forall e <- s.history :: !Fails(e)
  {
    ReachedIsInv(parts, signalled, run, s);
    FailuresAre(s.history);
  }

  /** A result of nil means that every folder of every partition was downloaded exactly once. */
  lemma NilMeansEverything(parts: seq<seq<string>>, signalled: bool, run: seq<Action>, s: State, i: nat, k: nat)
    requires Reaches(parts, signalled, run, s) && s.main.Returned? && s.main.isNil
    requires i < |parts| && k < |parts[i]|
    ensures Count(s.history, Starts(i, k)) == 1 && Count(s.history, Finishes(i, k)) == 1
  {
    ReachedIsInv(parts, signalled, run, s);
    FailuresAre(s.history);
    if !s.main.loggedIn {
      FailuresOfOne(s.history);
    }
    assert FitsAt(s, i);
    PhaseCounts(s.history, i, k);
  }

  /** Main knows of an error or an interrupt before its next look at both. */
  predicate Stopping(s: State) { !s.main.Go? && (s.errs > 0 || (s.signalled && !s.main.AskErrors?)) }

  lemma StoppingStays(s: State, a: Action, i: nat)
    requires Stopping(s) && Enabled(s, a) && i < |s.workers| && s.workers[i].Absent?
    ensures Stopping(Do(s, a)) && i < |Do(s, a).workers| && Do(s, a).workers[i].Absent?
  {
  }

  /** From the first error in the list or the first interrupt on, no further worker is launched, and so nothing
      is ever downloaded on a session that has no worker yet. */
  lemma {:induction false} NoLaunchAfterFailure(s: State, run: seq<Action>, i: nat, k: nat)
    requires Inv(s) && Stopping(s) && Feasible(s, run) && i < |s.workers| && s.workers[i].Absent?
    ensures Count(After(s, run).history, Starts(i, k)) == 0
    decreases |run|
  {
    if run == [] {
      assert FitsAt(s, i);
      PhaseCounts(s.history, i, k);
    } else {
      StoppingStays(s, run[0], i);
      StepKeepsInv(s, run[0]);
      hide Inv, Do, Enabled, Stopping;
      NoLaunchAfterFailure(Do(s, run[0]), run[1..], i, k);
    }
  }

  // ---------- logging out and terminating ----------

  predicate MainTerm(m: MainPc, term: bool) { (m.BreakLogout? || m.FinalLogout?) && m.term == term }

  /** No logout is under way that has not seen an error. */
  predicate NoneCalm(s: State) {
    !MainTerm(s.main, false) && forall i :: 0 <= i < |s.workers| ==> s.workers[i] != WorkerPc.Logout(false)
  }

  predicate AllTerminate(es: seq<Event>) { forall e <- es :: e.LoggedOut? ==> e.term }

  lemma CalmStep(s: State, a: Action)
    requires s.errs > 0 && NoneCalm(s) && Enabled(s, a)
    ensures Do(s, a).errs > 0 && NoneCalm(Do(s, a))
    ensures s.history <= Do(s, a).history && AllTerminate(Do(s, a).history[|s.history|..])
  {
  }

  /** From the first error in the list on, every session whose logout has not begun yet is terminated. */
  lemma {:induction false} ErrorsTerminate(s: State, run: seq<Action>)
    requires s.errs > 0 && NoneCalm(s) && Feasible(s, run)
    ensures s.history <= After(s, run).history && AllTerminate(After(s, run).history[|s.history|..])
    decreases |run|
  {
    if run == [] {
    } else {
      CalmStep(s, run[0]);
      hide Do, Enabled, NoneCalm;
      var next := Do(s, run[0]);
      ErrorsTerminate(next, run[1..]);
      var h := After(s, run).history;
      assert h[|s.history|..] == next.history[|s.history|..] + h[|next.history|..];
    }
  }

  /** Whoever is about to terminate a session has seen an error. */
  predicate TermsKnown(s: State) {
    && (MainTerm(s.main, true) ==> Failures(s.history) > 0)
    && forall i :: 0 <= i < |s.workers| && s.workers[i] == WorkerPc.Logout(true) ==> Failures(s.history) > 0
  }

  predicate Justified(h: seq<Event>) {
    forall a :: 0 <= a < |h| && h[a].LoggedOut? && h[a].term ==> Failures(h[..a]) > 0
  }

  lemma JustifiedGrows(h: seq<Event>, es: seq<Event>)
    requires Justified(h) && |es| <= 1 && (Ends(es) ==> Failures(h) > 0)
    ensures Justified(h + es)
  {
    hide Failures;
    forall a | 0 <= a < |h + es| ensures (h + es)[..a] == if a < |h| then h[..a] else h {
    }
  }

  predicate Ends(es: seq<Event>) { es != [] && es[0].LoggedOut? && es[0].term }

  lemma MainTermNeedsError(m: MainPc, ok: bool, n: nat, signalled: bool, bad: bool)
    ensures MainTerm(NextMain(m, ok, n, signalled, bad), true) ==> bad || MainTerm(m, true)
    ensures |MainEvents(m, ok)| <= 1 && (Ends(MainEvents(m, ok)) ==> MainTerm(m, true))
  {
  }

  lemma WorkerTermNeedsError(w: WorkerPc, ok: bool, i: nat, len: nat, bad: bool)
    ensures NextWorker(w, ok, i, len, bad) == WorkerPc.Logout(true) ==> bad
    ensures |WorkerEvents(w, ok, i, len)| <= 1
    ensures Ends(WorkerEvents(w, ok, i, len)) ==> w == WorkerPc.Logout(true)
  {
  }

  lemma JustifiedByMain(s: State, ok: bool)
    requires ErrorsCount(s) && TermsKnown(s) && Justified(s.history) && Enabled(s, Main(ok))
    ensures TermsKnown(DoMain(s, ok)) && Justified(DoMain(s, ok).history)
  {
    hide Failures, Fails, Justified, Tally, NextMain, MainEvents, MainTerm, MainOwes, Ends;
    MainTermNeedsError(s.main, ok, |s.parts|, s.signalled, s.errs > 0);
    HistoryGrows(s.history, MainEvents(s.main, ok), 0);
    JustifiedGrows(s.history, MainEvents(s.main, ok));
  }

  lemma JustifiedByWorker(s: State, i: nat, ok: bool)
    requires ErrorsCount(s) && TermsKnown(s) && Justified(s.history) && Enabled(s, Worker(i, ok))
    ensures TermsKnown(DoWorker(s, i, ok)) && Justified(DoWorker(s, i, ok).history)
  {
    hide Failures, Fails, Justified, Tally, NextWorker, WorkerEvents, MainTerm, WorkerOwes, Ends;
    var es := WorkerEvents(s.workers[i], ok, i, |s.parts[i]|);
    WorkerTermNeedsError(s.workers[i], ok, i, |s.parts[i]|, s.errs > 0);
    HistoryGrows(s.history, es, 0);
    JustifiedGrows(s.history, es);
  }

  lemma JustifiedStep(s: State, a: Action)
    requires ErrorsCount(s) && TermsKnown(s) && Justified(s.history) && Enabled(s, a)
    ensures TermsKnown(Do(s, a)) && Justified(Do(s, a).history)
  {
    hide ErrorsCount, Justified, DoMain, DoWorker;
    match a
    case Main(ok) => JustifiedByMain(s, ok);
    case Worker(i, ok) => JustifiedByWorker(s, i, ok);
    case Signal =>
  }

  lemma {:induction false} RunIsJustified(s: State, run: seq<Action>)
    requires Inv(s) && TermsKnown(s) && Justified(s.history) && Feasible(s, run)
    ensures Justified(After(s, run).history)
    decreases |run|
  {
    if run == [] {
    } else {
      JustifiedStep(s, run[0]);
      StepKeepsInv(s, run[0]);
      hide Inv, Do, Enabled, TermsKnown, Justified;
      RunIsJustified(Do(s, run[0]), run[1..]);
    }
  }

  /** A session is terminated only after something failed. */
  lemma TerminationHasCause(parts: seq<seq<string>>, signalled: bool, run: seq<Action>, s: State, a: nat)
    requires Reaches(parts, signalled, run, s)
    requires a < |s.history| && s.history[a].LoggedOut? && s.history[a].term
    ensures exists b :: 0 <= b < a && Fails(s.history[b])
  {
    InitInv(parts, signalled);
    RunIsJustified(Init(parts, signalled), run);
    FailuresAre(s.history[..a]);
    var e :| e in s.history[..a] && Fails(e);
    var b :| 0 <= b < a && s.history[..a][b] == e;
    assert s.history[b] == e;
  }

  // ---------- from folder specifications to downloads ----------

  predicate Takes(parts: seq<seq<string>>, e: Event, folder: string) {
    e.Started? && e.i < |parts| && e.k < |parts[e.i]| && parts[e.i][e.k] == folder
  }

  /** How often the download of a folder was started, on whatever session. */
  function Attempts(h: seq<Event>, parts: seq<seq<string>>, folder: string): nat {
    if h == [] then 0 else
      Attempts(h[..|h| - 1], parts, folder) + if Takes(parts, h[|h| - 1], folder) then 1 else 0
  }

  lemma {:induction false} AttemptsAtOnePlace(h: seq<Event>, parts: seq<seq<string>>, i: nat, k: nat)
    requires i < |parts| && k < |parts[i]|
    requires forall j: nat, l: nat | j < |parts| && l < |parts[j]| && parts[j][l] == parts[i][k] :: j == i && l == k
    ensures Attempts(h, parts, parts[i][k]) == Count(h, Starts(i, k))
  {
    if h == [] {
    } else {
      AttemptsAtOnePlace(h[..|h| - 1], parts, i, k);
    }
  }

  lemma {:induction false} NoAttempts(h: seq<Event>, parts: seq<seq<string>>, folder: string)
    requires forall j: nat, l: nat | j < |parts| && l < |parts[j]| :: parts[j][l] != folder
    ensures Attempts(h, parts, folder) == 0
  {
    if h == [] {
    } else {
      NoAttempts(h[..|h| - 1], parts, folder);
    }
  }

  /** `DownloadFolder` as a whole: `folders` is what the specifications expand to, `parts` how they are
      dealt out. If it returns nil, it has downloaded each selected folder exactly once and no other. */
  lemma EverySelectedFolderOnce(specs: seq<string>, available: seq<string>, folders: seq<string>, wanted: int,
                                parts: seq<seq<string>>, signalled: bool, run: seq<Action>, s: State, folder: string)
    requires StrictlyAscending(folders, Below)
    requires forall f :: f in folders <==> f in available && Selected(specs, available, f)
    requires RoundRobin(folders, Threads(|folders|, wanted), parts)
    requires Reaches(parts, signalled, run, s) && s.main.Returned? && s.main.isNil
    ensures Attempts(s.history, parts, folder) ==
            if folder in available && Selected(specs, available, folder) then 1 else 0
  {
    hide Selected, Reaches, Deals;
    if folder in folders {
      var p :| 0 <= p < |folders| && folders[p] == folder;
      var i, k := PlaceOf(folders, wanted, parts, p);
      StrictIsDistinct(folders);
      forall j: nat, l: nat | j < |parts| && l < |parts[j]| && parts[j][l] == parts[i][k]
        ensures j == i && l == k
      {
        NoFolderTwice(folders, |parts|, parts, j, l, i, k);
      }
      AttemptsAtOnePlace(s.history, parts, i, k);
      NilMeansEverything(parts, signalled, run, s, i, k);
    } else {
      forall j: nat, l: nat | j < |parts| && l < |parts[j]| ensures parts[j][l] != folder {
        IsAFolder(folders, wanted, parts, j, l);
      }
      NoAttempts(s.history, parts, folder);
    }
  }

  lemma PlaceOf(folders: seq<string>, wanted: int, parts: seq<seq<string>>, p: nat) returns (i: nat, k: nat)
    requires RoundRobin(folders, Threads(|folders|, wanted), parts) && p < |folders|
    ensures i < |parts| && k < |parts[i]| && parts[i][k] == folders[p]
  {
    EveryFolderHasOnePlace(folders, |parts|, parts);
    i, k := p % |parts|, p / |parts|;
  }

  lemma IsAFolder(folders: seq<string>, wanted: int, parts: seq<seq<string>>, j: nat, l: nat)
    requires RoundRobin(folders, Threads(|folders|, wanted), parts) && j < |parts| && l < |parts[j]|
    ensures parts[j][l] in folders
  {
    assert Deals(folders, |parts|, j, parts[j]);
    assert Position(j, l, |parts|) < |folders|;
  }

  lemma StrictIsDistinct(s: seq<string>)
    requires StrictlyAscending(s, Below)
    ensures Distinct(s)
  {
    forall i, j | 0 <= i < j < |s| ensures s[i] != s[j] {
      BelowIsStrict(s[i], s[j]);
    }
  }

  // ---------- it comes to an end ----------

  function RankMain(m: MainPc, n: nat): nat {
    if InLoop(m) then
      10 * (if m.i <= n then n - m.i else 0) +
      match m
      case Top(_) => 20 case Auth(_) => 19 case AuthAdd(_, _) => 18 case AskInterrupt(_) => 17
      case AskErrors(_) => 16 case Go(_) => 15 case BreakBad(_) => 14 case BreakLogout(_, _) => 13
      case BreakAdd(_, _) => 12 case _ => 11
    else
      match m
      case Login => 10 * n + 25 case LoginAdd(_) => 10 * n + 24 case LoginBad => 10 * n + 23
      case List => 10 * n + 22 case ListAdd(_) => 10 * n + 21
      case Wait => 5 case FinalBad => 4 case FinalLogout(_) => 3 case FinalAdd(_) => 2 case Result(_) => 1
      case _ => 0
  }

  function RankWorker(w: WorkerPc, len: nat): nat {
    match w
    case Absent => 3 * len + 7
    case Run(k) => 3 * (if k < len then len - k else 0) + 6
    case In(k) => 3 * (if k < len then len - k else 0) + 5
    case Add(k, _) => 3 * (if k < len then len - k else 0) + 4
    case Bad => 5 case Logout(_) => 4 case LogoutAdd(_) => 3 case Leave => 2 case End => 0
  }

  function WorkLeft(ws: seq<WorkerPc>, parts: seq<seq<string>>): nat
    requires |ws| == |parts|
  {
    if ws == [] then 0 else
      WorkLeft(ws[..|ws| - 1], parts[..|ws| - 1]) + RankWorker(ws[|ws| - 1], |parts[|ws| - 1]|)
  }

  lemma {:induction false} WorkLeftUpdate(ws: seq<WorkerPc>, parts: seq<seq<string>>, i: nat, w: WorkerPc)
    requires |ws| == |parts| && i < |ws|
    ensures WorkLeft(ws[i := w], parts) + RankWorker(ws[i], |parts[i]|)
            == WorkLeft(ws, parts) + RankWorker(w, |parts[i]|)
  {
    var last := |ws| - 1;
    if i == last {
      assert ws[i := w][..last] == ws[..last];
    } else {
      assert ws[i := w][..last] == ws[..last][i := w];
      WorkLeftUpdate(ws[..last], parts[..last], i, w);
    }
  }

  function Measure(s: State): nat
    requires |s.workers| == |s.parts|
  {
    RankMain(s.main, |s.parts|) + WorkLeft(s.workers, s.parts) + if s.signalled then 0 else 1
  }

  lemma RankMainDrops(m: MainPc, ok: bool, n: nat, signalled: bool, bad: bool)
    requires Bounded(m, n) && !m.Returned?
    ensures RankMain(NextMain(m, ok, n, signalled, bad), n) < RankMain(m, n)
  {
  }

  lemma RankWorkerDrops(m: MainPc, w: WorkerPc, ok: bool, i: nat, n: nat, len: nat, bad: bool, stop: int, p: Phase)
    requires Fits(m, i, n, w, len, stop, p) && !w.Absent? && !w.End?
    ensures RankWorker(NextWorker(w, ok, i, len, bad), len) < RankWorker(w, len)
  {
  }

  lemma StepLowers(s: State, a: Action)
    requires Inv(s) && Enabled(s, a)
    ensures Measure(Do(s, a)) < Measure(s)
  {
    match a
    case Main(ok) =>
      RankMainDrops(s.main, ok, |s.parts|, s.signalled, s.errs > 0);
      if s.main.Go? {
        StartsAbsent(s);
        WorkLeftUpdate(s.workers, s.parts, s.main.i, Run(0));
      }
      hide RankMain, NextMain, MainEvents, WorkLeft;
    case Worker(i, ok) =>
      assert FitsAt(s, i);
      RankWorkerDrops(s.main, s.workers[i], ok, i, |s.parts|, |s.parts[i]|, s.errs > 0,
                      StopIn(s.history), PhaseOf(s.history, i));
      WorkLeftUpdate(s.workers, s.parts, i, NextWorker(s.workers[i], ok, i, |s.parts[i]|, s.errs > 0));
      hide RankWorker, NextWorker, WorkerEvents, WorkLeft, Fits;
    case Signal =>
  }

  /** No interleaving goes on for ever: a run is no longer than the measure it starts with. */
  lemma {:induction false} RunsAreBounded(s: State, run: seq<Action>)
    requires Inv(s) && Feasible(s, run)
    ensures |s.workers| == |s.parts| && |run| <= Measure(s)
    decreases |run|
  {
    if run == [] {
    } else {
      StepLowers(s, run[0]);
      StepKeepsInv(s, run[0]);
      hide Inv, Do, Enabled, Measure;
      RunsAreBounded(Do(s, run[0]), run[1..]);
    }
  }

  /** No interleaving gets stuck: if nothing can happen any more, the call has returned. */
  lemma OnlyReturnedIsFinal(parts: seq<seq<string>>, signalled: bool, run: seq<Action>, s: State)
    requires Reaches(parts, signalled, run, s)
    requires forall a: Action :: a.Signal? || !Enabled(s, a)
    ensures s.main.Returned?
  {
    ReachedIsInv(parts, signalled, run, s);
    if !s.main.Returned? {
      assert !Enabled(s, Main(true));
      forall i | 0 <= i < |s.workers| ensures Live(s.workers[i]) == 0 {
        assert !Enabled(s, Worker(i, true));
      }
      TallyIsZero(s.workers, Live);
      assert false;
    }
  }
}
