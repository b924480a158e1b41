/** The locking protocol of the message-body cache (core/srvbackend_message.go): any number of
    threads call `fill` on any messages, in every interleaving. `fill` takes the lock of its message
    and then the global lock; an eviction holds the global lock and takes the locks of the other
    messages one by one.

    Messages are numbered, and `bodies` gives the size of the file behind each. A read that fails hands
    over what it has read so far, at most the whole file. A thread holds the locks its program counter
    says it holds. */
module CacheProtocol {

  type Msg = nat
  type Tid = nat

  datatype Pc =
    | Idle
    | LockWait(m: Msg)
    /** Holds the lock of m. */
    | Filling(m: Msg)
    | GlobalWait(m: Msg, size: nat)
    /** Holds the lock of m and the global lock. */
    | Checking(m: Msg, size: nat)
    | Evicting(m: Msg, size: nat, todo: set<Msg>)
    | ClearWait(m: Msg, size: nat, x: Msg, todo: set<Msg>)
    /** Holds the lock of x, too. */
    | Clearing(m: Msg, size: nat, x: Msg, todo: set<Msg>)
    | Deleting(m: Msg, size: nat, x: Msg, todo: set<Msg>)
    | Registering(m: Msg, size: nat)
    | Registered(m: Msg)
    /** Holds the lock of m only. */
    | Leaving(m: Msg)

  predicate HoldsGlobal(p: Pc) {
    p.Checking? || p.Evicting? || p.ClearWait? || p.Clearing? || p.Deleting? || p.Registering? || p.Registered?
  }

  predicate Holds(p: Pc, m: Msg) {
    (!p.Idle? && !p.LockWait? && p.m == m) || (p.Clearing? && p.x == m)
  }

  /** Between reading the file and registering the message. */
  predicate Unregistered(p: Pc) {
    p.GlobalWait? || p.Checking? || p.Evicting? || p.ClearWait? || p.Clearing? || p.Deleting? || p.Registering?
  }

  datatype State = State(
    bodies: seq<nat>, maxBytes: int,
    pcs: seq<Pc>, filled: set<Msg>, messages: set<Msg>, knownBytes: int
  )

  datatype Step =
    | Call(m: Msg) | Lock | Hit | Read | ReadFails(partial: nat) | LockGlobal | Known
    | NoRoom | Room | Next(x: Msg) | LockVictim | Clear | Delete | Evicted | Register | UnlockGlobal | Unlock

  predicate LockFree(s: State, m: Msg) { forall t :: 0 <= t < |s.pcs| ==> !Holds(s.pcs[t], m) }
  predicate GlobalFree(s: State) { forall t :: 0 <= t < |s.pcs| ==> !HoldsGlobal(s.pcs[t]) }

  predicate Enabled(s: State, t: Tid, a: Step) {
    t < |s.pcs| &&
    var p := s.pcs[t];
    match a
    case Call(m) => p.Idle? && m < |s.bodies|
    case Lock => p.LockWait? && LockFree(s, p.m)
    case Hit => p.Filling? && p.m in s.filled
    case Read => p.Filling? && p.m !in s.filled && p.m < |s.bodies|
    case ReadFails(partial) => p.Filling? && p.m !in s.filled && p.m < |s.bodies| && partial <= s.bodies[p.m]
    case LockGlobal => p.GlobalWait? && GlobalFree(s)
    case Known => p.Checking? && p.m in s.messages
    case NoRoom => p.Checking? && p.m !in s.messages && p.size + s.knownBytes > s.maxBytes
    case Room => p.Checking? && p.m !in s.messages && p.size + s.knownBytes <= s.maxBytes
    case Next(x) => p.Evicting? && x in p.todo
    case LockVictim => p.ClearWait? && LockFree(s, p.x)
    case Clear => p.Clearing?
    case Delete => p.Deleting?
    case Evicted => p.Evicting? && p.todo == {}
    case Register => p.Registering?
    case UnlockGlobal => p.Registered?
    case Unlock => p.Leaving?
  }

  function NextPc(s: State, p: Pc, a: Step): Pc {
    match (a, p)
    case (Call(m), _) => LockWait(m)
    case (Lock, LockWait(m)) => Filling(m)
    case (Hit, Filling(m)) => Leaving(m)
    case (Read, Filling(m)) => GlobalWait(m, if m < |s.bodies| then s.bodies[m] else 0)
    case (ReadFails(partial), Filling(m)) => GlobalWait(m, partial)
    case (LockGlobal, GlobalWait(m, size)) => Checking(m, size)
    case (Known, Checking(m, _)) => Registered(m)
    case (NoRoom, Checking(m, size)) => Evicting(m, size, s.messages)
    case (Room, Checking(m, size)) => Registering(m, size)
    case (Next(x), Evicting(m, size, todo)) => ClearWait(m, size, x, todo - {x})
    case (LockVictim, ClearWait(m, size, x, todo)) => Clearing(m, size, x, todo)
    case (Clear, Clearing(m, size, x, todo)) => Deleting(m, size, x, todo)
    case (Delete, Deleting(m, size, _, todo)) => Evicting(m, size, todo)
    case (Evicted, Evicting(m, size, _)) => Registering(m, size)
    case (Register, Registering(m, _)) => Registered(m)
    case (UnlockGlobal, Registered(m)) => Leaving(m)
    case (_, _) => Idle
  }

  function Do(s: State, t: Tid, a: Step): State
    requires Enabled(s, t, a)
  {
    var p := s.pcs[t];
    s.(pcs := s.pcs[t := NextPc(s, p, a)],
       filled := if a.Read? then s.filled + {p.m} else if a.Clear? then s.filled - {p.x} else s.filled,
       messages := if a.Register? then s.messages + {p.m} else if a.Delete? then s.messages - {p.x} else s.messages,
       knownBytes := if a.Register? then s.knownBytes + p.size else if a.Evicted? then 0 else s.knownBytes)
  }

  predicate Feasible(s: State, run: seq<(Tid, Step)>)
    decreases |run|
  {
    run == [] || (Enabled(s, run[0].0, run[0].1) && Feasible(Do(s, run[0].0, run[0].1), run[1..]))
  }

  function After(s: State, run: seq<(Tid, Step)>): State
    requires Feasible(s, run)
    decreases |run|
  {
    if run == [] then s else After(Do(s, run[0].0, run[0].1), run[1..])
  }

  function Init(bodies: seq<nat>, maxBytes: int, threads: nat): State {
    State(bodies, maxBytes, seq(threads, _ => Idle), {}, {}, 0)
  }

  // ---------- what holds in every run ----------

  /** Locks are exclusive, and an eviction works through the map. */
  ghost predicate Exclusive(s: State) {
    && (forall t, u, m :: 0 <= t < u < |s.pcs| && Holds(s.pcs[t], m) ==> !Holds(s.pcs[u], m))
    && (forall t, u :: 0 <= t < u < |s.pcs| && HoldsGlobal(s.pcs[t]) ==> !HoldsGlobal(s.pcs[u]))
  }

  /** What an evicting thread still has to do is what the map holds, the message being dropped apart. */
  predicate TodoMatches(p: Pc, messages: set<Msg>) {
    match p
    case Evicting(m, _, todo) => todo == messages && m !in messages
    case ClearWait(m, _, x, todo) => todo + {x} == messages && x !in todo && m !in messages
    case Clearing(m, _, x, todo) => todo + {x} == messages && x !in todo && m !in messages
    case Deleting(m, _, x, todo) => todo + {x} == messages && x !in todo && m !in messages
    case Registering(m, _) => m !in messages
    case _ => true
  }

  ghost predicate Sane(s: State) {
    && Exclusive(s)
    && (forall t :: 0 <= t < |s.pcs| ==> TodoMatches(s.pcs[t], s.messages))
    && (forall t :: 0 <= t < |s.pcs| && !s.pcs[t].Idle? ==> s.pcs[t].m < |s.bodies|)
    && (forall m <- s.messages :: m < |s.bodies|)
  }

  lemma InitSane(bodies: seq<nat>, maxBytes: int, threads: nat)
    ensures Sane(Init(bodies, maxBytes, threads))
  {
  }

  lemma LocksStayExclusive(s: State, t: Tid, a: Step, i: nat, j: nat, m: Msg)
    requires Exclusive(s) && Enabled(s, t, a) && i < j < |s.pcs| && Holds(Do(s, t, a).pcs[i], m)
    ensures !Holds(Do(s, t, a).pcs[j], m)
  {
  }

  lemma ExclusiveKept(s: State, t: Tid, a: Step)
    requires Exclusive(s) && Enabled(s, t, a)
    ensures Exclusive(Do(s, t, a))
  {
    forall i: nat, j: nat, m: Msg | i < j < |s.pcs| && Holds(Do(s, t, a).pcs[i], m)
      ensures !Holds(Do(s, t, a).pcs[j], m)
    {
      LocksStayExclusive(s, t, a, i, j, m);
    }
    hide Holds;
  }

  lemma SaneKept(s: State, t: Tid, a: Step)
    requires Sane(s) && Enabled(s, t, a)
    ensures Sane(Do(s, t, a))
  {
    ExclusiveKept(s, t, a);
  }

  /** Behind the lock of its message, and before giving it back. */
  predicate Inside(p: Pc) { !p.Idle? && !p.LockWait? }

  /** No two threads are inside with the same message, nobody is inside with a message that is being cleared, and
      one thread at a time looks at the map or changes it. */
  lemma InsideAlone(s: State, t: Tid, u: Tid)
    requires Sane(s) && t < |s.pcs| && u < |s.pcs| && t != u
    ensures Inside(s.pcs[t]) && Inside(s.pcs[u]) ==> s.pcs[t].m != s.pcs[u].m
    ensures s.pcs[t].Clearing? && Inside(s.pcs[u]) ==> s.pcs[u].m != s.pcs[t].x
    ensures s.pcs[t].Checking? || s.pcs[t].Evicting? || s.pcs[t].Deleting? || s.pcs[t].Registering? ==>
              !s.pcs[u].Checking? && !s.pcs[u].Evicting? && !s.pcs[u].Deleting? && !s.pcs[u].Registering?
  {
    assert Inside(s.pcs[t]) ==> Holds(s.pcs[t], s.pcs[t].m);
    assert Inside(s.pcs[u]) ==> Holds(s.pcs[u], s.pcs[u].m);
    assert s.pcs[t].Clearing? ==> Holds(s.pcs[t], s.pcs[t].x);
    assert !(HoldsGlobal(s.pcs[t]) && HoldsGlobal(s.pcs[u]));
  }

  lemma {:induction false} RunSane(s: State, run: seq<(Tid, Step)>)
    requires Sane(s) && Feasible(s, run)
    ensures Sane(After(s, run))
    decreases |run|
  {
    if run == [] {
    } else {
      SaneKept(s, run[0].0, run[0].1);
      hide Sane, Do, Enabled;
      RunSane(Do(s, run[0].0, run[0].1), run[1..]);
    }
  }

  // ---------- deadlock ----------

  /** g evicts and waits for a message whose holder h waits for the global lock. */
  predicate DeadlockedBy(s: State, g: Tid, h: Tid) {
    && g < |s.pcs| && h < |s.pcs|
    && s.pcs[g].ClearWait? && s.pcs[h].GlobalWait? && s.pcs[h].m == s.pcs[g].x
  }

  ghost predicate Deadlocked(s: State) { exists g, h :: DeadlockedBy(s, g, h) }

  /** The two threads never move again. */
  lemma DeadlockIsForever(s: State, g: Tid, h: Tid, t: Tid, a: Step)
    requires DeadlockedBy(s, g, h) && Enabled(s, t, a)
    ensures t != g && t != h && DeadlockedBy(Do(s, t, a), g, h)
  {
    assert Holds(s.pcs[h], s.pcs[g].x) && HoldsGlobal(s.pcs[g]);
  }

  predicate Progressing(s: State, t: Tid, a: Step) { Enabled(s, t, a) && !s.pcs[t].Idle? }

  lemma LockHolderGoesOn(s: State, h: Tid) returns (a: Step)
    requires Sane(s) && h < |s.pcs| && (s.pcs[h].Filling? || s.pcs[h].Leaving?)
    ensures Progressing(s, h, a)
  {
    a := if s.pcs[h].Leaving? then Unlock else if s.pcs[h].m in s.filled then Hit else Read;
  }

  lemma GlobalHolderGoesOn(s: State, g: Tid) returns (t: Tid, a: Step)
    requires Sane(s) && g < |s.pcs| && HoldsGlobal(s.pcs[g])
    ensures Progressing(s, t, a) || Deadlocked(s)
  {
    t, a := g, Clear;
    match s.pcs[g] {
      case Checking(m, size) =>
        a := if m in s.messages then Known else if size + s.knownBytes > s.maxBytes then NoRoom else Room;
      case Evicting(m, size, todo) =>
        if todo == {} {
          a := Evicted;
        } else {
          var x :| x in todo;
          a := Next(x);
        }
      case ClearWait(m, size, x, todo) =>
        if LockFree(s, x) {
          a := LockVictim;
        } else {
          var h :| 0 <= h < |s.pcs| && Holds(s.pcs[h], x);
          if s.pcs[h].GlobalWait? {
            assert DeadlockedBy(s, g, h);
          } else {
            assert s.pcs[h].Filling? || s.pcs[h].Leaving?;
            t := h;
            a := LockHolderGoesOn(s, h);
          }
        }
      case Clearing(_, _, _, _) => a := Clear;
      case Deleting(_, _, _, _) => a := Delete;
      case Registering(_, _) => a := Register;
      case Registered(_) => a := UnlockGlobal;
    }
  }

  /** In every run, whatever reads fail: while some thread is inside `fill`, some such thread can
      take a step, or the state is deadlocked in exactly this way. */
  lemma StuckOnlyInDeadlock(s: State, t: Tid) returns (u: Tid, a: Step)
    requires Sane(s) && t < |s.pcs| && !s.pcs[t].Idle?
    ensures Progressing(s, u, a) || Deadlocked(s)
  {
    if g: Tid :| 0 <= g < |s.pcs| && HoldsGlobal(s.pcs[g]) {
      u, a := GlobalHolderGoesOn(s, g);
    } else if s.pcs[t].GlobalWait? {
      u, a := t, LockGlobal;
    } else if !s.pcs[t].LockWait? {
      u := t;
      a := LockHolderGoesOn(s, t);
    } else if LockFree(s, s.pcs[t].m) {
      u, a := t, Lock;
    } else {
      u :| 0 <= u < |s.pcs| && Holds(s.pcs[u], s.pcs[t].m);
      if s.pcs[u].GlobalWait? {
        a := LockGlobal;
      } else {
        a := LockHolderGoesOn(s, u);
      }
    }
  }
}
