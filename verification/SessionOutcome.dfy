/** `DownloadFolder` gets its work done unless something keeps it from it. */
module SessionOutcome {
  import opened Sorting
  import opened Folders
  import opened Partitions
  import opened Sessions
  import opened SessionSafety
  import opened SessionResults

  // ---------- the loop stops for a reason only ----------

  predicate Breaking(m: MainPc) { m.BreakBad? || m.BreakLogout? || m.BreakAdd? || m.BreakErr? }

  /** Main leaves its loop early only after an interrupt or a failure. */
  predicate BreakHasCause(s: State) { Breaking(s.main) ==> s.signalled || Failures(s.history) > 0 }

  predicate StopsHaveCause(h: seq<Event>, signalled: bool) {
    forall a :: 0 <= a < |h| && h[a].Stopped? ==> signalled || Failures(h[..a]) > 0
  }

  predicate Stops(es: seq<Event>) { es != [] && es[0].Stopped? }

  lemma StopsGrow(h: seq<Event>, es: seq<Event>, signalled: bool)
    requires StopsHaveCause(h, signalled) && |es| <= 1 && (Stops(es) ==> signalled || Failures(h) > 0)
    ensures StopsHaveCause(h + es, signalled)
  {
    hide Failures;
    forall a | 0 <= a < |h + es| ensures (h + es)[..a] == if a < |h| then h[..a] else h {
    }
  }

  lemma MainBreaksForCause(m: MainPc, ok: bool, n: nat, signalled: bool, bad: bool)
    ensures Breaking(NextMain(m, ok, n, signalled, bad)) ==> signalled || bad || Breaking(m)
    ensures |MainEvents(m, ok)| <= 1 && (Stops(MainEvents(m, ok)) ==> Breaking(m))
  {
  }

  lemma WorkersNeverStop(w: WorkerPc, ok: bool, i: nat, len: nat)
    ensures |WorkerEvents(w, ok, i, len)| <= 1 && !Stops(WorkerEvents(w, ok, i, len))
  {
  }

  lemma CauseKeptByMain(s: State, ok: bool)
    requires ErrorsCount(s) && BreakHasCause(s) && StopsHaveCause(s.history, s.signalled) && Enabled(s, Main(ok))
    ensures BreakHasCause(DoMain(s, ok)) && StopsHaveCause(DoMain(s, ok).history, s.signalled)
  {
    hide Failures, Fails, StopsHaveCause, Tally, NextMain, MainEvents, MainOwes, Stops, Breaking;
    MainBreaksForCause(s.main, ok, |s.parts|, s.signalled, s.errs > 0);
    HistoryGrows(s.history, MainEvents(s.main, ok), 0);
    StopsGrow(s.history, MainEvents(s.main, ok), s.signalled);
  }

  lemma CauseKeptByWorker(s: State, i: nat, ok: bool)
    requires BreakHasCause(s) && StopsHaveCause(s.history, s.signalled) && Enabled(s, Worker(i, ok))
    ensures BreakHasCause(DoWorker(s, i, ok)) && StopsHaveCause(DoWorker(s, i, ok).history, s.signalled)
  {
    hide Failures, Fails, StopsHaveCause, NextWorker, WorkerEvents, Stops, Breaking;
    var es := WorkerEvents(s.workers[i], ok, i, |s.parts[i]|);
    WorkersNeverStop(s.workers[i], ok, i, |s.parts[i]|);
    HistoryGrows(s.history, es, 0);
    StopsGrow(s.history, es, s.signalled);
  }

  lemma CauseStep(s: State, a: Action)
    requires ErrorsCount(s) && BreakHasCause(s) && StopsHaveCause(s.history, s.signalled) && Enabled(s, a)
    ensures BreakHasCause(Do(s, a)) && StopsHaveCause(Do(s, a).history, Do(s, a).signalled)
  {
    match a
    case Main(ok) =>
      CauseKeptByMain(s, ok);
      hide ErrorsCount, BreakHasCause, StopsHaveCause, NextMain, MainEvents;
    case Worker(i, ok) =>
      CauseKeptByWorker(s, i, ok);
      hide ErrorsCount, BreakHasCause, StopsHaveCause, NextWorker, WorkerEvents;
    case Signal =>
  }

  lemma {:induction false} RunHasCause(s: State, run: seq<Action>)
    requires Inv(s) && BreakHasCause(s) && StopsHaveCause(s.history, s.signalled) && Feasible(s, run)
    ensures StopsHaveCause(After(s, run).history, After(s, run).signalled)
    decreases |run|
  {
    if run == [] {
    } else {
      CauseStep(s, run[0]);
      StepKeepsInv(s, run[0]);
      hide Inv, Do, Enabled, BreakHasCause, StopsHaveCause;
      RunHasCause(Do(s, run[0]), run[1..]);
    }
  }

  /** The loop gives up only after an interrupt, or after something failed. */
  lemma StopHasCause(parts: seq<seq<string>>, signalled: bool, run: seq<Action>, s: State, a: nat)
    requires Reaches(parts, signalled, run, s) && a < |s.history| && s.history[a].Stopped?
    ensures s.signalled || exists b :: 0 <= b < a && Fails(s.history[b])
  {
    InitInv(parts, signalled);
    RunHasCause(Init(parts, signalled), run);
    FailuresAre(s.history[..a]);
    if !s.signalled {
      var e :| e in s.history[..a] && Fails(e);
      var b :| 0 <= b < a && s.history[..a][b] == e;
      assert s.history[b] == e;
    }
  }

  lemma {:induction false} SignalIsSeen(s: State, run: seq<Action>)
    requires Feasible(s, run)
    ensures After(s, run).signalled <==> s.signalled || Signal in run
    decreases |run|
  {
    if run == [] {
    } else {
      assert run == [run[0]] + run[1..];
      hide NextMain, NextWorker, MainEvents, WorkerEvents;
      SignalIsSeen(Do(s, run[0]), run[1..]);
    }
  }

  // ---------- nothing comes after a failed login ----------

  /** Main is on its way out. */
  predicate LoginFailed(s: State) {
    && s.history == [Authenticated(0, false)]
    && (s.main == LoginAdd(false) || (s.main.LoginBad? && s.errs > 0) || Failed(s.main))
  }

  predicate FailedLoginStops(s: State) { Authenticated(0, false) in s.history ==> LoginFailed(s) }

  lemma NobodyWorks(s: State, i: nat, ok: bool)
    requires Inv(s) && LoginFailed(s)
    ensures !Enabled(s, Worker(i, ok))
  {
    if i < |s.parts| {
      assert FitsAt(s, i);
    }
  }

  lemma OnlyLoginLogsIn(s: State, ok: bool)
    requires Inv(s) && Enabled(s, Main(ok))
    ensures Authenticated(0, false) in MainEvents(s.main, ok) ==> s.main.Login? && !ok && s.history == []
  {
    assert FitsAt(s, 0);
  }

  lemma FailedLoginStep(s: State, a: Action)
    requires Inv(s) && FailedLoginStops(s) && Enabled(s, a)
    ensures FailedLoginStops(Do(s, a))
  {
    match a
    case Main(ok) =>
      OnlyLoginLogsIn(s, ok);
      hide Inv;
    case Worker(i, ok) =>
      if LoginFailed(s) {
        NobodyWorks(s, i, ok);
      }
      hide Inv;
    case Signal =>
  }

  lemma {:induction false} FailedLoginRun(s: State, run: seq<Action>)
    requires Inv(s) && FailedLoginStops(s) && Feasible(s, run)
    ensures FailedLoginStops(After(s, run))
    decreases |run|
  {
    if run == [] {
    } else {
      FailedLoginStep(s, run[0]);
      StepKeepsInv(s, run[0]);
      hide Inv, Do, Enabled, FailedLoginStops;
      FailedLoginRun(Do(s, run[0]), run[1..]);
    }
  }

  /** If the first login fails, no other call is made, not even a logout. */
  lemma NothingAfterFailedLogin(parts: seq<seq<string>>, signalled: bool, run: seq<Action>, s: State)
    requires Reaches(parts, signalled, run, s) && Authenticated(0, false) in s.history
    ensures s.history == [Authenticated(0, false)]
  {
    InitInv(parts, signalled);
    FailedLoginRun(Init(parts, signalled), run);
  }

  // ---------- what a call achieves that nothing keeps from its work ----------

  /** A call on a session that fails. */
  predicate CallFails(e: Event) { Fails(e) && !e.Stopped? }

  lemma {:induction false} NothingFails(parts: seq<seq<string>>, signalled: bool, run: seq<Action>, s: State, a: nat)
    requires Reaches(parts, signalled, run, s) && !s.signalled && forall e <- s.history :: !CallFails(e)
    requires a < |s.history|
    ensures !Fails(s.history[a])
  {
    hide Reaches;
    if Fails(s.history[a]) {
      assert s.history[a] in s.history;
      StopHasCause(parts, signalled, run, s, a);
      var b :| 0 <= b < a && Fails(s.history[b]);
      NothingFails(parts, signalled, run, s, b);
    }
  }

  lemma FailedLoginShows(h: seq<Event>)
    requires h == [Authenticated(0, false)]
    ensures exists e <- h :: Fails(e)
  {
    assert h[0] in h;
  }

  /** If nobody interrupts and no call fails, the result is nil: the loop goes through to its end, and every folder
      of every partition is downloaded exactly once. */
  lemma NothingFailsMeansAllDone(parts: seq<seq<string>>, run: seq<Action>, s: State)
    requires Reaches(parts, false, run, s) && s.main.Returned?
    requires Signal !in run && forall e <- s.history :: !CallFails(e)
    ensures s.main.loggedIn && s.main.isNil
    ensures forall i: nat, k: nat | i < |parts| && k < |parts[i]| ::
              Count(s.history, Starts(i, k)) == 1 && Count(s.history, Finishes(i, k)) == 1
  {
    SignalIsSeen(Init(parts, false), run);
    hide Reaches;
    forall e <- s.history ensures !Fails(e) {
      var a :| 0 <= a < |s.history| && s.history[a] == e;
      NothingFails(parts, false, run, s, a);
    }
    NilMeansNoFailure(parts, false, run, s);
    MainLogsOutLast(parts, false, run, s);
    if !s.main.loggedIn {
      FailedLoginShows(s.history);
    }
    hide Count;
    forall i: nat, k: nat | i < |parts| && k < |parts[i]|
      ensures Count(s.history, Starts(i, k)) == 1 && Count(s.history, Finishes(i, k)) == 1
    {
      NilMeansEverything(parts, false, run, s, i, k);
    }
  }

  /** `DownloadFolder` as a whole, the other way round: without interrupts and failing calls each selected folder is
      downloaded exactly once and no other one. */
  lemma NothingFailsMeansSelected(specs: seq<string>, available: seq<string>, folders: seq<string>, wanted: int,
                                  parts: seq<seq<string>>, run: seq<Action>, s: State, folder: string)
    requires StrictlyAscending(folders, Below)
    requires forall f :: f in folders <==> f in available && Selected(specs, available, f)
    requires RoundRobin(folders, Threads(|folders|, wanted), parts)
    requires Reaches(parts, false, run, s) && s.main.Returned?
    requires Signal !in run && forall e <- s.history :: !CallFails(e)
    ensures Attempts(s.history, parts, folder) ==
            if folder in available && Selected(specs, available, folder) then 1 else 0
  {
    hide Selected, Reaches, RoundRobin, Attempts;
    NothingFailsMeansAllDone(parts, run, s);
    EverySelectedFolderOnce(specs, available, folders, wanted, parts, false, run, s, folder);
  }
}
