/** Every weakly fair run of the pipeline ends: main returns, whatever the server sends, whichever
    operations fail and whenever the user interrupts. */
module PipelineFairness {
  import opened Common
  import opened Pipeline
  import opened PipelineOutcome
  import opened PipelineSafety
  import opened PipelineProgress

  /** An infinite run; when nothing else happens the world pauses. */
  ghost predicate IsRun(states: nat -> State, acts: nat -> Action) {
    forall i: nat :: Enabled(states(i), acts(i)) && states(i + 1) == Do(states(i), acts(i))
  }

  /** At step j the goroutine moves or is blocked. */
  predicate Served(states: nat -> State, acts: nat -> Action, j: nat, g: Goroutine) {
    !CanGo(states(j), g) || Moves(acts(j), g)
  }

  /** Weak fairness: no goroutine stays unblocked for ever without moving. */
  ghost predicate Fair(states: nat -> State, acts: nat -> Action) {
    forall i: nat, g :: ServedAfter(states, acts, i, g)
  }

  ghost predicate ServedAfter(states: nat -> State, acts: nat -> Action, i: nat, g: Goroutine) {
    exists j: nat :: i <= j && Served(states, acts, j, g)
  }

  // ---------- numbers that fall for a while ----------

  predicate FallsAt(f: nat -> int, i: nat) { 0 <= f(i + 1) <= f(i) }

  ghost predicate FallsFrom(f: nat -> int, n: nat) { forall i: nat :: n <= i ==> FallsAt(f, i) }

  lemma {:induction false} StaysBelow(f: nat -> int, n: nat, i: nat)
    requires FallsFrom(f, n) && n <= i && 0 <= f(n)
    ensures 0 <= f(i) <= f(n)
    decreases i
  {
    if n == i {
    } else {
      StaysBelow(f, n, i - 1);
      assert FallsAt(f, i - 1);
    }
  }

  lemma {:induction false} SettlesDown(f: nat -> int, n: nat) returns (m: nat)
    requires FallsFrom(f, n) && 0 <= f(n)
    ensures n <= m && forall i: nat :: m <= i ==> f(i) == f(m)
    decreases f(n)
  {
    if i: nat :| n <= i && f(i) < f(n) {
      StaysBelow(f, n, i);
      m := SettlesDown(f, i);
    } else {
      m := n;
      forall i: nat | m <= i ensures f(i) == f(m) {
        StaysBelow(f, n, i);
      }
    }
  }

  // ---------- steps that leave the work as it is ----------

  /** Only the translator's polling position and the interrupt flag differ. */
  predicate SameButPolling(s: State, s': State) {
    && s' == s.(trans := s'.trans, sig := s'.sig)
    && (s'.trans == s.trans || (Polling(s.trans) && Polling(s'.trans)))
  }

  predicate Polling(t: TransPc) { t.TLoop? || t.TPoll? || t.TRecv? }

  lemma PollStep(s: State, a: Action)
    requires Enabled(s, a) && !s.called && (a.TTest? || a.TAsk? || a.TSpin?)
    requires Work(Do(s, a)) == Work(s)
    ensures SameButPolling(s, Do(s, a))
  {
    hide RecordOf, DoMain, DoFetch, DoDeliv, DoWrite;
  }

  lemma WorldStep(s: State, a: Action)
    requires Enabled(s, a) && By(a).World?
    ensures SameButPolling(s, Do(s, a)) && Do(s, a).trans == s.trans && Measure(Do(s, a)) == Measure(s)
  {
    hide DoMain, DoFetch, DoDeliv, DoWrite, DoHandOver, DoInterrupt;
  }

  lemma IdleStep(s: State, a: Action)
    requires Control(s) && Enabled(s, a) && Work(Do(s, a)) == Work(s)
    ensures Idles(a) && SameButPolling(s, Do(s, a)) && (By(a).World? || !s.called)
    ensures By(a).World? ==> Do(s, a).trans == s.trans && Measure(Do(s, a)) == Measure(s)
    ensures a.TSpin? || By(a).World? || Measure(Do(s, a)) < Measure(s)
  {
    hide Control, Do, SameButPolling, Work, Enabled;
    StepLowers(s, a);
    if By(a).World? {
      WorldStep(s, a);
    } else {
      PollStep(s, a);
    }
  }

  // ---------- the end of a fair run ----------

  lemma {:induction false} ControlAlways(states: nat -> State, acts: nat -> Action, i: nat)
    requires IsRun(states, acts) && Control(states(0))
    ensures Control(states(i))
  {
    hide Control, Do, Enabled;
    if i == 0 {
    } else {
      ControlAlways(states, acts, i - 1);
      assert Enabled(states(i - 1), acts(i - 1)) && states((i - 1) + 1) == Do(states(i - 1), acts(i - 1));
      ControlKept(states(i - 1), acts(i - 1));
    }
  }

  lemma WorkIsNat(s: State)
    requires Control(s)
    ensures 0 <= Work(s) && 0 <= Measure(s)
  {
  }

  /** From some point on no step does any work any more. */
  lemma WorkSettles(states: nat -> State, acts: nat -> Action) returns (n: nat)
    requires IsRun(states, acts) && Control(states(0))
    ensures forall i: nat :: n <= i ==> Work(states(i)) == Work(states(n))
  {
    hide Control, Do, Enabled, Work;
    var work := (i: nat) => Work(states(i));
    forall i: nat ensures FallsAt(work, i) {
      ControlAlways(states, acts, i);
      ControlAlways(states, acts, i + 1);
      assert Enabled(states(i), acts(i)) && states(i + 1) == Do(states(i), acts(i));
      StepLowers(states(i), acts(i));
      WorkIsNat(states(i + 1));
    }
    WorkIsNat(states(0));
    n := SettlesDown(work, 0);
    forall i: nat | n <= i ensures Work(states(i)) == Work(states(n)) {
      assert work(i) == work(n);
    }
  }

  ghost predicate Settled(states: nat -> State, acts: nat -> Action, n: nat) {
    && IsRun(states, acts) && Control(states(0))
    && forall i: nat :: n <= i ==> Work(states(i)) == Work(states(n))
  }

  lemma SettledStep(states: nat -> State, acts: nat -> Action, n: nat, i: nat)
    requires Settled(states, acts, n) && n <= i
    ensures Control(states(i)) && Enabled(states(i), acts(i)) && states(i + 1) == Do(states(i), acts(i))
    ensures Idles(acts(i)) && SameButPolling(states(i), states(i + 1))
    ensures By(acts(i)).World? || !states(i).called
    ensures By(acts(i)).World? ==> Measure(states(i + 1)) == Measure(states(i))
    ensures acts(i).TSpin? || By(acts(i)).World? || Measure(states(i + 1)) < Measure(states(i))
  {
    hide Control, Do, Enabled, Work, Measure, SameButPolling;
    ControlAlways(states, acts, i);
    assert Enabled(states(i), acts(i)) && states(i + 1) == Do(states(i), acts(i));
    assert Work(states(i)) == Work(states(n)) && Work(states(i + 1)) == Work(states(n));
    IdleStep(states(i), acts(i));
  }

  lemma PollingChains(a: State, b: State, c: State)
    requires SameButPolling(a, b) && SameButPolling(b, c)
    ensures SameButPolling(a, c)
  {
  }

  lemma {:induction false} SettledState(states: nat -> State, acts: nat -> Action, n: nat, i: nat)
    requires Settled(states, acts, n) && n <= i
    ensures SameButPolling(states(n), states(i))
    decreases i
  {
    if n == i {
    } else {
      hide Settled, SameButPolling;
      SettledState(states, acts, n, i - 1);
      SettledStep(states, acts, n, i - 1);
      PollingChains(states(n), states(i - 1), states(i));
    }
  }

  /** Blocked or not does not depend on where the translator polls, for the other goroutines. */
  lemma OthersStayReady(s: State, s': State, g: Goroutine)
    requires SameButPolling(s, s') && !g.OfTrans? && CanGo(s, g)
    ensures CanGo(s', g)
  {
  }

  /** Once settled, no goroutine but the translator can go on. */
  lemma OthersBlocked(states: nat -> State, acts: nat -> Action, n: nat, g: Goroutine)
    requires Settled(states, acts, n) && Fair(states, acts) && !g.OfTrans?
    ensures !CanGo(states(n), g)
  {
    hide Settled, CanGo, SameButPolling, Control, Enabled, Do;
    if CanGo(states(n), g) {
      assert ServedAfter(states, acts, n, g);
      var j: nat :| n <= j && Served(states, acts, j, g);
      SettledState(states, acts, n, j);
      OthersStayReady(states(n), states(j), g);
      SettledStep(states, acts, n, j);
      IdlersDoNotMove(acts(j), g);
    }
  }

  lemma IdlersDoNotMove(a: Action, g: Goroutine)
    requires Idles(a) && !g.OfTrans?
    ensures !Moves(a, g)
  {
  }

  /** Once settled before the end, the translator is unblocked for ever and never spins. */
  lemma TranslatorAlone(states: nat -> State, acts: nat -> Action, n: nat)
    requires Settled(states, acts, n) && Fair(states, acts) && !states(n).main.Returned?
    ensures TransReady(states(n)) && !acts(n).TSpin?
  {
    OthersBlocked(states, acts, n, OfMain);
    OthersBlocked(states, acts, n, OfFetch);
    OthersBlocked(states, acts, n, OfDeliv);
    OthersBlocked(states, acts, n, OfWrite);
    SettledStep(states, acts, n, n);
    ControlAlways(states, acts, n);
    hide Settled, Fair, IsRun;
    MainWaits(states(n));
    OnlyTranslatorLeft(states(n));
    SpinOnlyWhenCalled(states(n), acts(n));
    hide Control, Enabled, Do, SameButPolling, FetchReady, DelivReady, WriteReady, TransReady, MainReady;
  }

  lemma StaysSettled(states: nat -> State, acts: nat -> Action, n: nat, i: nat)
    requires Settled(states, acts, n) && n <= i
    ensures Settled(states, acts, i)
  {
    hide Control, Work, IsRun;
    forall j: nat | i <= j ensures Work(states(j)) == Work(states(i)) {
      assert Work(states(j)) == Work(states(n)) && Work(states(i)) == Work(states(n));
    }
  }

  lemma MeasureFalls(states: nat -> State, acts: nat -> Action, n: nat, i: nat)
    requires Settled(states, acts, n) && Fair(states, acts) && n <= i && !states(i).main.Returned?
    ensures TransReady(states(i))
    ensures 0 <= Measure(states(i + 1)) <= Measure(states(i))
    ensures By(acts(i)).World? || Measure(states(i + 1)) < Measure(states(i))
  {
    StaysSettled(states, acts, n, i);
    TranslatorAlone(states, acts, i);
    SettledStep(states, acts, n, i);
    ControlKept(states(i), acts(i));
    WorkIsNat(states(i + 1));
    hide Settled, Fair, Control, Enabled, Do, SameButPolling, Measure, TransReady;
  }

  lemma {:induction false} MeasureStaysBelow(states: nat -> State, acts: nat -> Action, n: nat, i: nat)
    requires Settled(states, acts, n) && Fair(states, acts) && n <= i
    requires forall k: nat :: n <= k < i ==> !states(k).main.Returned?
    ensures Measure(states(i)) <= Measure(states(n))
    decreases i
  {
    hide Settled, Fair, Measure, TransReady;
    if n == i {
    } else {
      MeasureStaysBelow(states, acts, n, i - 1);
      MeasureFalls(states, acts, n, i - 1);
    }
  }

  lemma {:induction false} ReachesReturn(states: nat -> State, acts: nat -> Action, n: nat) returns (k: nat)
    requires Settled(states, acts, n) && Fair(states, acts)
    ensures states(k).main.Returned?
    decreases Measure(states(n))
  {
    hide Settled, Measure, TransReady;
    assert ServedAfter(states, acts, n, OfTrans);
    var j: nat :| n <= j && Served(states, acts, j, OfTrans);
    hide Fair;
    if i: nat :| n <= i <= j && states(i).main.Returned? {
      k := i;
    } else {
      MeasureStaysBelow(states, acts, n, j);
      MeasureFalls(states, acts, n, j);
      MeasureFalls(states, acts, n, n);
      StaysSettled(states, acts, n, j + 1);
      k := ReachesReturn(states, acts, j + 1);
    }
  }

  /** Termination: every weakly fair run from the call of `streamingRetrieval` on returns. */
  lemma FairRunsFinish(fold: int64, mail: seq<Option<Message>>, sig: Interrupt,
                       states: nat -> State, acts: nat -> Action)
    requires IsRun(states, acts) && Fair(states, acts) && states(0) == Init(fold, mail, sig)
    ensures exists n: nat :: states(n).main.Returned?
  {
    InitInv(fold, mail, sig);
    hide Control, IsRun, Fair, Work, Init;
    var n := WorkSettles(states, acts);
    var k := ReachesReturn(states, acts, n);
  }

  lemma {:induction false} WellAlways(states: nat -> State, acts: nat -> Action, i: nat)
    requires IsRun(states, acts) && AllWell(states(0)) && forall j: nat :: !GoesWrong(acts(j))
    ensures AllWell(states(i))
  {
    hide AllWell, Do, Enabled, GoesWrong;
    if i == 0 {
    } else {
      WellAlways(states, acts, i - 1);
      assert Enabled(states(i - 1), acts(i - 1)) && states((i - 1) + 1) == Do(states(i - 1), acts(i - 1));
      WellStep(states(i - 1), acts(i - 1));
    }
  }

  /** A weakly fair run in which no operation fails and nobody interrupts returns nil. */
  lemma WellRunsReturnNil(fold: int64, mail: seq<Option<Message>>, states: nat -> State, acts: nat -> Action)
    requires IsRun(states, acts) && Fair(states, acts) && states(0) == Init(fold, mail, Armed(false))
    requires forall j: nat :: !GoesWrong(acts(j))
    ensures exists n: nat :: states(n).main == Returned(true)
  {
    assert AllWell(states(0));
    hide IsRun, Fair, GoesWrong, Init;
    FairRunsFinish(fold, mail, Armed(false), states, acts);
    var n: nat :| states(n).main.Returned?;
    WellAlways(states, acts, n);
  }
}
