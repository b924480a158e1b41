/** Taking a lock within a time limit, cli/lock.go:52-78: a goroutine acquires the lock and sends the result
    to a channel with one slot; the caller takes the result or the timer, and after a timeout leaves a
    goroutine behind that releases the lock should it still be obtained. Other processes take and release
    the lock as they like. */
module LockTimeout {
  import opened Common

  datatype AcquirerPc = NotStarted | Acquiring | Sending(obtained: bool) | Sent
  datatype CallerPc = MakingDirs | Selecting | DirsFailed | TimedOut | Got(obtained: bool) | Released
  datatype CleanerPc = Absent | Receiving | Unlocking | Ended
  datatype Lock = Free | Other | Mine

  datatype State = State(
    acquirer: AcquirerPc, caller: CallerPc, cleaner: CleanerPc,
    slot: seq<bool>, timer: bool, lock: Lock,
    // How often the lock was obtained and released, and a result taken from the channel.
    obtained: nat, released: nat, taken: nat
  )

  datatype Action =
    | MkdirFails | MkdirWorks
    | Acquire | AcquireFails | Send
    | TakeTimeout | TakeResult | CallerUnlocks
    | CleanerTakes | CleanerUnlocks
    /** The clock and the other processes. */
    | Tick | OtherLocks | OtherUnlocks

  predicate Enabled(s: State, a: Action) {
    match a
    case MkdirFails => s.caller.MakingDirs?
    case MkdirWorks => s.caller.MakingDirs?
    case Acquire => s.acquirer.Acquiring? && s.lock.Free?
    case AcquireFails => s.acquirer.Acquiring?
    case Send => s.acquirer.Sending? && |s.slot| < 1
    case TakeTimeout => s.caller.Selecting? && s.timer
    case TakeResult => s.caller.Selecting? && |s.slot| > 0
    case CallerUnlocks => s.caller == Got(true)
    case CleanerTakes => s.cleaner.Receiving? && |s.slot| > 0
    case CleanerUnlocks => s.cleaner.Unlocking?
    case Tick => s.caller.Selecting? && !s.timer
    case OtherLocks => s.lock.Free?
    case OtherUnlocks => s.lock.Other?
  }

  function Do(s: State, a: Action): State
    requires Enabled(s, a)
  {
    match a
    case MkdirFails => s.(caller := DirsFailed)
    case MkdirWorks => s.(caller := Selecting, acquirer := Acquiring)
    case Acquire => s.(acquirer := Sending(true), lock := Mine, obtained := s.obtained + 1)
    case AcquireFails => s.(acquirer := Sending(false))
    case Send => s.(acquirer := Sent, slot := s.slot + [s.acquirer.obtained])
    case TakeTimeout => s.(caller := TimedOut, cleaner := Receiving)
    case TakeResult => s.(caller := Got(s.slot[0]), slot := s.slot[1..], taken := s.taken + 1)
    case CallerUnlocks => s.(caller := Released, lock := Free, released := s.released + 1)
    case CleanerTakes =>
      s.(cleaner := if s.slot[0] then Unlocking else Ended, slot := s.slot[1..], taken := s.taken + 1)
    case CleanerUnlocks => s.(cleaner := Ended, lock := Free, released := s.released + 1)
    case Tick => s.(timer := true)
    case OtherLocks => s.(lock := Lock.Other)
    case OtherUnlocks => s.(lock := Free)
  }

  predicate Feasible(s: State, run: seq<Action>)
    decreases |run|
  {
    run == [] || (Enabled(s, run[0]) && Feasible(Do(s, run[0]), run[1..]))
  }

  function After(s: State, run: seq<Action>): State
    requires Feasible(s, run)
    decreases |run|
  {
    if run == [] then s else After(Do(s, run[0]), run[1..])
  }

  /** Nothing has happened yet, and this process does not have the lock. */
  predicate IsInit(s: State) {
    s == State(NotStarted, MakingDirs, Absent, [], false, s.lock, 0, 0, 0) && !s.lock.Mine?
  }

  // ---------- who has to release the lock ----------

  /** The places that stand for the obligation to release the lock. */
  function Owners(s: State): nat {
    One(s.acquirer == Sending(true)) + One(s.slot != [] && s.slot[0])
    + One(s.caller == Got(true)) + One(s.cleaner.Unlocking?)
  }

  predicate Inv(s: State) {
    && |s.slot| <= 1
    && (!s.acquirer.Sent? ==> s.slot == [] && s.taken == 0)
    && (s.acquirer.Sent? ==> |s.slot| + s.taken == 1)
    && (s.acquirer.NotStarted? <==> s.caller.MakingDirs? || s.caller.DirsFailed?)
    && (s.cleaner.Absent? <==> !s.caller.TimedOut?)
    && (s.caller.TimedOut? ==> s.timer)
    && s.taken == One(s.caller.Got? || s.caller.Released?) + One(s.cleaner.Unlocking? || s.cleaner.Ended?)
    && Owners(s) == One(s.lock.Mine?)
    && s.obtained == s.released + One(s.lock.Mine?)
    && (s.acquirer.NotStarted? || s.acquirer.Acquiring? ==> s.obtained == 0)
    && s.obtained <= 1
  }

  lemma StepKeepsInv(s: State, a: Action)
    requires Inv(s) && Enabled(s, a)
    ensures Inv(Do(s, a))
  {
  }

  predicate Reaches(start: State, run: seq<Action>, s: State) {
    IsInit(start) && Feasible(start, run) && After(start, run) == s
  }

  lemma ReachedIsInv(start: State, run: seq<Action>, s: State)
    requires Reaches(start, run, s)
    ensures Inv(s)
  {
    assert Inv(start);
    hide Inv;
    RunKeepsInv(start, run);
  }

  lemma {:induction false} RunKeepsInv(s: State, run: seq<Action>)
    requires Inv(s) && Feasible(s, run)
    ensures Inv(After(s, run))
    decreases |run|
  {
    if run == [] {
    } else {
      StepKeepsInv(s, run[0]);
      hide Inv, Do, Enabled;
      RunKeepsInv(Do(s, run[0]), run[1..]);
    }
  }

  // ---------- the guarantees ----------

  lemma {:induction false} TimerNeedsTick(s: State, run: seq<Action>)
    requires Feasible(s, run)
    ensures After(s, run).timer ==> s.timer || Tick in run
    ensures s.caller.DirsFailed? || MkdirFails in run ==> After(s, run).caller.DirsFailed?
    decreases |run|
  {
    if run == [] {
    } else {
      assert run == [run[0]] + run[1..];
      assert Do(s, run[0]).timer ==> s.timer || run[0].Tick?;
      assert s.caller.DirsFailed? || run[0].MkdirFails? ==> Do(s, run[0]).caller.DirsFailed?;
      hide Do, Enabled;
      TimerNeedsTick(Do(s, run[0]), run[1..]);
    }
  }

  /** In every interleaving: the result is taken from the channel at most once, the acquirer never has to
      wait for room in the channel, while this process has the lock exactly one party is to release it, and
      it is obtained at most once and released no more often than obtained. A timeout is reported only when
      the time is up, and no lock is tried for if the directories cannot be made. */
  lemma OwnershipIsKept(start: State, run: seq<Action>, s: State)
    requires Reaches(start, run, s)
    ensures s.taken <= 1
    ensures s.acquirer.Sending? ==> Enabled(s, Send)
    ensures Owners(s) == if s.lock.Mine? then 1 else 0
    ensures s.released <= s.obtained <= 1
    ensures s.caller.TimedOut? ==> Tick in run
    ensures MkdirFails in run ==> s.caller.DirsFailed? && s.obtained == 0
  {
    TimerNeedsTick(start, run);
    ReachedIsInv(start, run, s);
    hide Reaches, Feasible, After;
  }

  /** How the run of a caller that was told of a timeout looks. */
  lemma {:induction false} TimedOutRuns(s: State, run: seq<Action>)
    requires Feasible(s, run)
    ensures TakeTimeout in run ==> After(s, run).caller.TimedOut?
    ensures s.caller.TimedOut? ==> After(s, run).caller.TimedOut?
    ensures s.caller.Got? || s.caller.Released? ==> After(s, run).caller.Got? || After(s, run).caller.Released?
    ensures After(s, run).caller.TimedOut? ==>
              && (s.caller.TimedOut? || TakeTimeout in run)
              && TakeResult !in run && CallerUnlocks !in run
              && (CleanerUnlocks in run <==> After(s, run).released > s.released)
    ensures After(s, run).released >= s.released
    decreases |run|
  {
    if run == [] {
    } else {
      assert run == [run[0]] + run[1..];
      TimedOutStep(s, run[0]);
      hide Do, Enabled;
      TimedOutRuns(Do(s, run[0]), run[1..]);
    }
  }

  lemma TimedOutStep(s: State, a: Action)
    requires Enabled(s, a)
    ensures a.TakeTimeout? ==> Do(s, a).caller.TimedOut?
    ensures Do(s, a).caller.TimedOut? ==> s.caller.TimedOut? || a.TakeTimeout?
    ensures s.caller.TimedOut? ==> Do(s, a).caller.TimedOut?
    ensures a.TakeResult? || a.CallerUnlocks? ==> Do(s, a).caller.Got? || Do(s, a).caller.Released?
    ensures s.caller.Got? || s.caller.Released? ==> Do(s, a).caller.Got? || Do(s, a).caller.Released?
    ensures Do(s, a).released == s.released + One(a.CallerUnlocks? || a.CleanerUnlocks?)
  {
  }

  /** When nothing is left to do, the lock is not this process's any more, and what was obtained has been
      released exactly once: by the goroutine left behind if the caller was told of a timeout, in which case the
      caller never took a result or had anything to release. Only an acquirer that never gets an answer stays. */
  lemma NothingLeaks(start: State, run: seq<Action>, s: State)
    requires Reaches(start, run, s)
    requires forall a: Action :: Enabled(s, a) ==> a.OtherLocks? || a.OtherUnlocks? || a.AcquireFails?
    ensures !s.lock.Mine? && s.obtained == s.released
    ensures s.caller.DirsFailed? || s.caller.TimedOut? || s.caller == Got(false) || s.caller.Released?
    ensures s.acquirer.Acquiring? ==> s.lock.Other? && s.caller.TimedOut?
    ensures s.caller.TimedOut? <==> TakeTimeout in run
    ensures s.caller.TimedOut? ==>
              && TakeResult !in run && CallerUnlocks !in run
              && (CleanerUnlocks in run <==> s.obtained == 1)
              && (s.acquirer.Sent? ==> s.cleaner.Ended?)
  {
    ReachedIsInv(start, run, s);
    TimedOutRuns(start, run);
    hide Reaches, Feasible, After;
    AtTheEnd(s);
  }

  lemma AtTheEnd(s: State)
    requires Inv(s)
    requires forall a: Action :: Enabled(s, a) ==> a.OtherLocks? || a.OtherUnlocks? || a.AcquireFails?
    ensures !s.lock.Mine? && s.obtained == s.released <= 1
    ensures s.caller.DirsFailed? || s.caller.TimedOut? || s.caller == Got(false) || s.caller.Released?
    ensures s.acquirer.Acquiring? ==> s.lock.Other? && s.caller.TimedOut?
    ensures s.caller.TimedOut? && s.acquirer.Sent? ==> s.cleaner.Ended?
  {
    assert !Enabled(s, MkdirWorks) && !Enabled(s, Acquire) && !Enabled(s, Send) && !Enabled(s, TakeTimeout);
    assert !Enabled(s, TakeResult) && !Enabled(s, CallerUnlocks) && !Enabled(s, CleanerTakes);
    assert !Enabled(s, CleanerUnlocks) && !Enabled(s, Tick);
  }

  /** Steps of this process and of the clock that are still possible. */
  function Measure(s: State): nat {
    (match s.acquirer case NotStarted => 3 case Acquiring => 2 case Sending(_) => 1 case Sent => 0)
    + (match s.caller case MakingDirs => 6 case Selecting => 4 case Got(_) => 1 case _ => 0)
    + (match s.cleaner case Receiving => 2 case Unlocking => 1 case _ => 0)
    + One(!s.timer)
  }

  lemma OwnStepsEnd(s: State, a: Action)
    requires Inv(s) && Enabled(s, a) && !a.OtherLocks? && !a.OtherUnlocks?
    ensures Measure(Do(s, a)) < Measure(s)
  {
  }

  function OwnSteps(run: seq<Action>): nat {
    if run == [] then 0 else
      OwnSteps(run[1..]) + One(!run[0].OtherLocks? && !run[0].OtherUnlocks?)
  }

  /** Whatever the other processes do, this one takes a bounded number of steps. */
  lemma {:induction false} OwnStepsAreBounded(s: State, run: seq<Action>)
    requires Inv(s) && Feasible(s, run)
    ensures OwnSteps(run) <= Measure(s)
    decreases |run|
  {
    if run == [] {
    } else {
      StepKeepsInv(s, run[0]);
      if !run[0].OtherLocks? && !run[0].OtherUnlocks? {
        OwnStepsEnd(s, run[0]);
      }
      OwnStepsAreBounded(Do(s, run[0]), run[1..]);
    }
  }
}
