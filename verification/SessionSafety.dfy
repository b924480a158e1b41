/** What holds in every state of every run of `DownloadFolder`. */
module SessionSafety {
  import opened Sessions

  // ---------- counting over the workers ----------

  function Tally(ws: seq<WorkerPc>, f: WorkerPc -> nat): nat {
    if ws == [] then 0 else Tally(ws[..|ws| - 1], f) + f(ws[|ws| - 1])
  }

  lemma {:induction false} TallyUpdate(ws: seq<WorkerPc>, i: nat, w: WorkerPc, f: WorkerPc -> nat)
    requires i < |ws|
    ensures Tally(ws[i := w], f) + f(ws[i]) == Tally(ws, f) + f(w)
  {
    var last := |ws| - 1;
    if i == last {
      assert ws[i := w][..last] == ws[..last];
    } else {
      assert ws[i := w][..last] == ws[..last][i := w];
      TallyUpdate(ws[..last], i, w, f);
    }
  }

  lemma {:induction false} TallyIsZero(ws: seq<WorkerPc>, f: WorkerPc -> nat)
    ensures Tally(ws, f) == 0 <==> forall i :: 0 <= i < |ws| ==> f(ws[i]) == 0
  {
    if ws == [] {
    } else {
      var init := ws[..|ws| - 1];
      TallyIsZero(init, f);
      assert forall i :: 0 <= i < |init| ==> init[i] == ws[i];
    }
  }

  function Live(w: WorkerPc): nat { if w.Absent? || w.End? then 0 else 1 }

  // ---------- the state of a session by the program counters ----------

  predicate Failed(m: MainPc) { (m.Result? || m.Returned?) && !m.loggedIn }
  predicate Before(m: MainPc) { m.Login? || m.LoginAdd? || m.LoginBad? || m.List? || m.ListAdd? }
  predicate Closing(m: MainPc) { m.FinalAdd? || ((m.Result? || m.Returned?) && m.loggedIn) }
  predicate Joined(m: MainPc) { m.FinalBad? || m.FinalLogout? || Closing(m) }

  predicate InLoop(m: MainPc) { !Before(m) && !Failed(m) && !m.Wait? && !Joined(m) }

  predicate WorkFits(w: WorkerPc, i: nat, len: nat, p: Phase) {
    match w
    case Absent => false
    case Run(k) => k <= len && p == Ready(k)
    case In(k) => k < len && p == Busy(k)
    case Add(k, _) => k < len && p == Ready(k + 1)
    case Bad => i > 0 && p == Ready(len)
    case Logout(_) => i > 0 && p == Ready(len)
    case LogoutAdd(_) => i > 0 && p == Closed(len, 1)
    case Leave => p == if i > 0 then Closed(len, 1) else Ready(len)
    case End => p == if i > 0 then Closed(len, 1) else Ready(len)
  }

  /** The loop is about to deal with session `m.i`. */
  predicate LoopFits(m: MainPc, p: Phase)
    requires InLoop(m)
  {
    if m.Top? || m.Auth? then p == (if m.i == 0 then Ready(0) else Fresh) && (m.Auth? ==> m.i > 0)
    else p == if m.BreakAdd? || m.BreakErr? then Closed(0, 1) else Ready(0)
  }

  /** How session `i` stands, whose worker is at `w` with `len` folders, if the loop stopped at `stop`. */
  predicate Fits(m: MainPc, i: nat, n: nat, w: WorkerPc, len: nat, stop: int, p: Phase) {
    if Before(m) || Failed(m) then
      w.Absent? && stop == -1 && p == if i == 0 && !m.Login? then Ready(0) else Fresh
    else if InLoop(m) then
      && stop == -1
      && if i < m.i then WorkFits(w, i, len, p) else
           w.Absent? && if i == m.i then LoopFits(m, p) else p == Fresh
    else if w.Absent? then
      && (0 <= stop <= i || i >= n)
      && p == (if i > 0 then (if stop == i then Closed(0, 1) else Fresh)
               else if Closing(m) then Closed(0, if stop == 0 then 2 else 1)
               else if stop == 0 then Closed(0, 1) else Ready(0))
    else
      && (stop < 0 || i < stop)
      && (Joined(m) ==> w.End?)
      && if i == 0 && Closing(m) then p == Closed(len, 1) else WorkFits(w, i, len, p)
  }

  predicate Bounded(m: MainPc, n: nat) { InLoop(m) ==> m.i < n || (m.Top? && m.i == n) }

  function Then(p: Phase, es: seq<Event>, i: nat): Phase {
    if es == [] || es[0].i != i then p else Advance(p, es[0])
  }

  function StopThen(stop: int, es: seq<Event>): int { if es == [] || !es[0].Stopped? then stop else es[0].i }

  lemma LoopFitsHere(m: MainPc, ok: bool, n: nat, signalled: bool, bad: bool,
                     i: nat, w: WorkerPc, len: nat, stop: int, p: Phase)
    requires Fits(m, i, n, w, len, stop, p) && Bounded(m, n) && (i == 0 || i < n)
    requires InLoop(m) && i == m.i
    ensures Bounded(NextMain(m, ok, n, signalled, bad), n)
    ensures Fits(NextMain(m, ok, n, signalled, bad), i, n, if m.Go? && m.i == i then Run(0) else w, len,
                 StopThen(stop, MainEvents(m, ok)), Then(p, MainEvents(m, ok), i))
  {
  }

  lemma LoopFitsElsewhere(m: MainPc, ok: bool, n: nat, signalled: bool, bad: bool,
                     i: nat, w: WorkerPc, len: nat, stop: int, p: Phase)
    requires Fits(m, i, n, w, len, stop, p) && Bounded(m, n) && (i == 0 || i < n)
    requires InLoop(m) && i != m.i
    ensures Bounded(NextMain(m, ok, n, signalled, bad), n)
    ensures Fits(NextMain(m, ok, n, signalled, bad), i, n, w, len,
                 StopThen(stop, MainEvents(m, ok)), Then(p, MainEvents(m, ok), i))
  {
  }

  lemma DeferredFitsNext(m: MainPc, ok: bool, n: nat, signalled: bool, bad: bool,
                         i: nat, w: WorkerPc, len: nat, stop: int, p: Phase)
    requires Fits(m, i, n, w, len, stop, p) && Bounded(m, n) && (i == 0 || i < n)
    requires !InLoop(m) && (m.Wait? ==> w.Absent? || w.End?)
    ensures Bounded(NextMain(m, ok, n, signalled, bad), n)
    ensures Fits(NextMain(m, ok, n, signalled, bad), i, n, if m.Go? && m.i == i then Run(0) else w, len,
                 StopThen(stop, MainEvents(m, ok)), Then(p, MainEvents(m, ok), i))
  {
  }

  lemma MainFits(m: MainPc, ok: bool, n: nat, signalled: bool, bad: bool,
                 i: nat, w: WorkerPc, len: nat, stop: int, p: Phase)
    requires Fits(m, i, n, w, len, stop, p) && Bounded(m, n) && (i == 0 || i < n)
    requires m.Wait? ==> w.Absent? || w.End?
    ensures Bounded(NextMain(m, ok, n, signalled, bad), n)
    ensures Fits(NextMain(m, ok, n, signalled, bad), i, n, if m.Go? && m.i == i then Run(0) else w, len,
                 StopThen(stop, MainEvents(m, ok)), Then(p, MainEvents(m, ok), i))
  {
    hide Fits, NextMain;
    if InLoop(m) && i == m.i {
      LoopFitsHere(m, ok, n, signalled, bad, i, w, len, stop, p);
    } else if InLoop(m) {
      LoopFitsElsewhere(m, ok, n, signalled, bad, i, w, len, stop, p);
    } else {
      DeferredFitsNext(m, ok, n, signalled, bad, i, w, len, stop, p);
    }
  }

  lemma WorkerFits(m: MainPc, ok: bool, n: nat, bad: bool, i: nat, w: WorkerPc, len: nat, stop: int, p: Phase)
    requires Fits(m, i, n, w, len, stop, p) && !w.Absent? && !w.End?
    ensures Fits(m, i, n, NextWorker(w, ok, i, len, bad), len, stop, Then(p, WorkerEvents(w, ok, i, len), i))
  {
  }

  // ---------- the invariant ----------

  function At(s: State, i: nat): WorkerPc { if i < |s.workers| then s.workers[i] else Absent }
  function Length(s: State, i: nat): nat { if i < |s.parts| then |s.parts[i]| else 0 }

  /** The main session exists even if there is nothing to download. */
  predicate IsSession(s: State, i: nat) { i == 0 || i < |s.parts| }

  predicate FitsAt(s: State, i: nat) {
    Fits(s.main, i, |s.parts|, At(s, i), Length(s, i), StopIn(s.history), PhaseOf(s.history, i))
  }

  ghost predicate SessionsFit(s: State) {
    && |s.workers| == |s.parts| && Bounded(s.main, |s.parts|)
    && forall i: nat | IsSession(s, i) :: FitsAt(s, i)
  }

  /** The WaitGroup counts the workers under way. */
  predicate GroupCounts(s: State) { s.wg == Tally(s.workers, Live) }

  /** Every failure is in the error list, or about to be added. */
  predicate ErrorsCount(s: State) {
    s.errs + MainOwes(s.main) + Tally(s.workers, WorkerOwes) == Failures(s.history)
  }

  /** After the join, the logout of the main session is the last event; it terminates the connection if
      and only if something failed before. Without a login there is nothing but the failed login. */
  predicate EndsWell(m: MainPc, h: seq<Event>) {
    match m
    case Login => h == []
    case LoginAdd(ok) => h == [Authenticated(0, ok)]
    case LoginBad => |h| == 1 && h[0].Authenticated? && h[0].i == 0
    case FinalLogout(term) => term == (Failures(h) > 0)
    case FinalAdd(_) => LastIsLogout(h)
    case Result(loggedIn) => if loggedIn then LastIsLogout(h) else h == [Authenticated(0, false)]
    case Returned(loggedIn, isNil) =>
      && isNil == (Failures(h) == 0)
      && if loggedIn then LastIsLogout(h) else h == [Authenticated(0, false)]
    case _ => true
  }

  predicate LastIsLogout(h: seq<Event>) {
    h != [] && var last := h[|h| - 1];
    last.LoggedOut? && last.i == 0 && last.term == (Failures(h[..|h| - 1]) > 0)
  }

  ghost predicate Inv(s: State) { SessionsFit(s) && GroupCounts(s) && ErrorsCount(s) && EndsWell(s.main, s.history) }

  lemma HistoryGrows(h: seq<Event>, es: seq<Event>, i: nat)
    requires |es| <= 1
    ensures PhaseOf(h + es, i) == Then(PhaseOf(h, i), es, i)
    ensures StopIn(h + es) == StopThen(StopIn(h), es)
    ensures Failures(h + es) == Failures(h) + if es != [] && Fails(es[0]) then 1 else 0
  {
    if es == [] {
      NoMore(h);
    } else {
      assert es == [es[0]];
      OneMore(h, es[0], i);
    }
  }

  lemma WaitingIsOver(s: State, i: nat)
    requires GroupCounts(s) && s.wg == 0
    ensures At(s, i).Absent? || At(s, i).End?
  {
    TallyIsZero(s.workers, Live);
  }

  lemma MainKeepsFit(s: State, ok: bool)
    requires SessionsFit(s) && GroupCounts(s) && Enabled(s, Main(ok))
    ensures SessionsFit(DoMain(s, ok))
  {
    var s' := DoMain(s, ok);
    assert FitsAt(s, 0);
    forall i: nat | IsSession(s, i) ensures FitsAt(s', i) && Bounded(s'.main, |s.parts|) {
      assert FitsAt(s, i);
      if s.main.Wait? {
        WaitingIsOver(s, i);
      }
      HistoryGrows(s.history, MainEvents(s.main, ok), i);
      MainFits(s.main, ok, |s.parts|, s.signalled, s.errs > 0, i, At(s, i), Length(s, i),
               StopIn(s.history), PhaseOf(s.history, i));
      hide Fits, NextMain, MainEvents, PhaseOf, StopIn, Then, StopThen;
    }
    hide Fits, NextMain, MainEvents, PhaseOf, StopIn;
  }

  lemma WorkerKeepsFit(s: State, j: nat, ok: bool)
    requires SessionsFit(s) && Enabled(s, Worker(j, ok))
    ensures SessionsFit(DoWorker(s, j, ok))
  {
    var s' := DoWorker(s, j, ok);
    var es := WorkerEvents(s.workers[j], ok, j, |s.parts[j]|);
    forall i: nat | IsSession(s, i) ensures FitsAt(s', i) {
      assert FitsAt(s, i);
      HistoryGrows(s.history, es, i);
      if i == j {
        WorkerFits(s.main, ok, |s.parts|, s.errs > 0, i, s.workers[i], Length(s, i),
                   StopIn(s.history), PhaseOf(s.history, i));
      }
      hide Fits, NextWorker, PhaseOf, StopIn;
    }
  }

  function FailsNow(es: seq<Event>): nat { if es != [] && Fails(es[0]) then 1 else 0 }

  lemma MainDebt(m: MainPc, ok: bool, n: nat, signalled: bool, bad: bool)
    requires !m.Returned?
    ensures MainOwes(NextMain(m, ok, n, signalled, bad)) + (if m.BreakErr? then 1 else 0)
            == FailsNow(MainEvents(m, ok))
  {
  }

  lemma WorkerDebt(w: WorkerPc, ok: bool, i: nat, len: nat, bad: bool)
    requires !w.Absent? && !w.End?
    ensures WorkerOwes(NextWorker(w, ok, i, len, bad)) == FailsNow(WorkerEvents(w, ok, i, len))
    ensures Live(NextWorker(w, ok, i, len, bad)) + (if w.Leave? then 1 else 0) == Live(w)
  {
  }

  lemma MainKeepsCounts(s: State, ok: bool)
    requires SessionsFit(s) && GroupCounts(s) && ErrorsCount(s) && Enabled(s, Main(ok))
    ensures GroupCounts(DoMain(s, ok)) && ErrorsCount(DoMain(s, ok))
  {
    hide SessionsFit, NextMain, MainOwes, Failures, Fails, Tally;
    HistoryGrows(s.history, MainEvents(s.main, ok), 0);
    hide MainEvents;
    MainDebt(s.main, ok, |s.parts|, s.signalled, s.errs > 0);
    if s.main.Go? {
      StartsAbsent(s);
      TallyUpdate(s.workers, s.main.i, Run(0), Live);
      TallyUpdate(s.workers, s.main.i, Run(0), WorkerOwes);
    }
  }

  lemma StartsAbsent(s: State)
    requires SessionsFit(s) && s.main.Go?
    ensures s.main.i < |s.workers| && s.workers[s.main.i].Absent?
  {
    assert FitsAt(s, s.main.i);
  }

  lemma WorkerKeepsCounts(s: State, i: nat, ok: bool)
    requires GroupCounts(s) && ErrorsCount(s) && Enabled(s, Worker(i, ok))
    ensures GroupCounts(DoWorker(s, i, ok)) && ErrorsCount(DoWorker(s, i, ok))
  {
    var w, len := s.workers[i], |s.parts[i]|;
    HistoryGrows(s.history, WorkerEvents(w, ok, i, len), 0);
    WorkerDebt(w, ok, i, len, s.errs > 0);
    TallyUpdate(s.workers, i, NextWorker(w, ok, i, len, s.errs > 0), Live);
    TallyUpdate(s.workers, i, NextWorker(w, ok, i, len, s.errs > 0), WorkerOwes);
    hide NextWorker, WorkerEvents, WorkerOwes, Live, Failures, Fails, Tally;
  }

  /** Once the workers are gone, the error list is complete but for what main owes it. */
  lemma OnlyMainOwes(s: State)
    requires SessionsFit(s) && ErrorsCount(s) && (Joined(s.main) || Before(s.main) || Failed(s.main))
    ensures s.errs + MainOwes(s.main) == Failures(s.history)
  {
    forall i | 0 <= i < |s.workers| ensures WorkerOwes(s.workers[i]) == 0 {
      assert FitsAt(s, i);
    }
    TallyIsZero(s.workers, WorkerOwes);
  }

  lemma FailuresOfOne(h: seq<Event>)
    requires |h| == 1
    ensures Failures(h) == if Fails(h[0]) then 1 else 0
  {
    assert h[..0] == [];
  }

  lemma StartsWell(m: MainPc, ok: bool, n: nat, signalled: bool, h: seq<Event>, errs: nat)
    requires EndsWell(m, h) && (Before(m) || m.Result?) && errs + MainOwes(m) == Failures(h)
    ensures EndsWell(NextMain(m, ok, n, signalled, errs > 0), h + MainEvents(m, ok))
  {
    if |h| == 1 {
      FailuresOfOne(h);
    }
    NoMore(h);
    hide Failures;
  }

  lemma LogoutIsLast(h: seq<Event>, term: bool, ok: bool)
    requires term == (Failures(h) > 0)
    ensures LastIsLogout(h + [LoggedOut(0, term, ok)])
  {
    assert (h + [LoggedOut(0, term, ok)])[..|h|] == h;
  }

  lemma FinishesWell(m: MainPc, ok: bool, n: nat, signalled: bool, h: seq<Event>, errs: nat)
    requires EndsWell(m, h) && !Before(m) && !m.Result? && !m.Returned?
    requires m.FinalBad? ==> errs == Failures(h)
    ensures EndsWell(NextMain(m, ok, n, signalled, errs > 0), h + MainEvents(m, ok))
  {
    hide Failures;
    if m.FinalLogout? {
      LogoutIsLast(h, m.term, ok);
    } else {
      NoMore(h);
    }
    hide LastIsLogout;
  }

  lemma MainKeepsEnd(s: State, ok: bool)
    requires Inv(s) && Enabled(s, Main(ok))
    ensures EndsWell(DoMain(s, ok).main, DoMain(s, ok).history)
  {
    if Joined(s.main) || Before(s.main) || Failed(s.main) {
      OnlyMainOwes(s);
    }
    hide SessionsFit, GroupCounts, ErrorsCount, EndsWell, NextMain, MainEvents, Failures;
    if Before(s.main) || s.main.Result? {
      StartsWell(s.main, ok, |s.parts|, s.signalled, s.history, s.errs);
    } else {
      FinishesWell(s.main, ok, |s.parts|, s.signalled, s.history, s.errs);
    }
  }

  lemma WorkerKeepsEnd(s: State, i: nat, ok: bool)
    requires Inv(s) && Enabled(s, Worker(i, ok))
    ensures EndsWell(s.main, DoWorker(s, i, ok).history)
  {
    assert FitsAt(s, i);
  }

  lemma StepKeepsInv(s: State, a: Action)
    requires Inv(s) && Enabled(s, a)
    ensures Inv(Do(s, a))
  {
    match a
    case Main(ok) =>
      MainKeepsFit(s, ok);
      MainKeepsCounts(s, ok);
      MainKeepsEnd(s, ok);
      hide SessionsFit, GroupCounts, ErrorsCount, EndsWell, DoMain;
    case Worker(i, ok) =>
      WorkerKeepsFit(s, i, ok);
      WorkerKeepsCounts(s, i, ok);
      WorkerKeepsEnd(s, i, ok);
      hide SessionsFit, GroupCounts, ErrorsCount, EndsWell, DoWorker;
    case Signal =>
      var s' := Do(s, a);
      forall i: nat | IsSession(s, i) ensures FitsAt(s', i) {
        assert FitsAt(s, i);
      }
  }

  lemma InitInv(parts: seq<seq<string>>, signalled: bool)
    ensures Inv(Init(parts, signalled))
  {
    var s := Init(parts, signalled);
    TallyIsZero(s.workers, Live);
    TallyIsZero(s.workers, WorkerOwes);
  }

  lemma {:induction false} RunKeepsInv(s: State, run: seq<Action>)
    requires Inv(s) && Feasible(s, run)
    ensures Inv(After(s, run))
    decreases |run|
  {
    if run == [] {
    } else {
      StepKeepsInv(s, run[0]);
      hide Inv, Do, Enabled;
      RunKeepsInv(Do(s, run[0]), run[1..]);
    }
  }

  lemma RunKeepsParts(s: State, run: seq<Action>)
    requires Feasible(s, run)
    ensures After(s, run).parts == s.parts
    decreases |run|
  {
    if run == [] {
    } else {
      RunKeepsParts(Do(s, run[0]), run[1..]);
    }
  }
}
