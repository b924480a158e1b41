/** Runs of the cache in which reading a file may fail. `fill` registers the message even then
    (core/srvbackend_message.go, line 117), so that a later `fill` of the same message can hold its
    lock, wait for the global lock and be in the way of an eviction. There is an eviction to be in the way
    of exactly if the files do not fit into the cache together. */
module CacheFailedReads {
  import opened CacheProtocol
  import opened CacheCleanRuns

  lemma {:induction false} OneMore(s: State, run: seq<(Tid, Step)>, t: Tid, a: Step)
    requires Feasible(s, run) && Enabled(After(s, run), t, a)
    ensures Feasible(s, run + [(t, a)]) && After(s, run + [(t, a)]) == Do(After(s, run), t, a)
    decreases |run|
  {
    var more := run + [(t, a)];
    if run != [] {
      hide Do, Enabled;
      assert more[1..] == run[1..] + [(t, a)];
      OneMore(Do(s, run[0].0, run[0].1), run[1..], t, a);
    } else {
      assert more[1..] == [];
    }
  }

  /** A state that some run reaches. */
  ghost predicate Reachable(init: State, s: State) {
    exists run: seq<(Tid, Step)> :: Feasible(init, run) && After(init, run) == s
  }

  lemma StepReaches(init: State, s: State, t: Tid, a: Step) returns (s': State)
    requires Reachable(init, s) && Enabled(s, t, a)
    ensures s' == Do(s, t, a) && Reachable(init, s')
  {
    hide Do, Enabled;
    var run: seq<(Tid, Step)> :| Feasible(init, run) && After(init, run) == s;
    OneMore(init, run, t, a);
    s' := Do(s, t, a);
    assert Feasible(init, run + [(t, a)]) && After(init, run + [(t, a)]) == s';
  }

  /** The state in which only the first two threads do anything. */
  function Two(init: State, p: Pc, q: Pc, filled: set<Msg>, messages: set<Msg>, known: int): State
    requires |init.pcs| >= 2
  {
    init.(pcs := [p, q] + init.pcs[2..], filled := filled, messages := messages, knownBytes := known)
  }

  predicate Fresh(init: State) {
    && |init.pcs| >= 2 && |init.bodies| >= 2
    && forall t :: 0 <= t < |init.pcs| ==> init.pcs[t].Idle?
  }

  predicate HeldByTwo(p: Pc, q: Pc, m: Msg) { Holds(p, m) || Holds(q, m) }

  lemma LocksOfTwo(init: State, p: Pc, q: Pc, filled: set<Msg>, messages: set<Msg>, known: int)
    requires Fresh(init)
    ensures forall m :: LockFree(Two(init, p, q, filled, messages, known), m) <==> !HeldByTwo(p, q, m)
    ensures GlobalFree(Two(init, p, q, filled, messages, known)) <==> !HoldsGlobal(p) && !HoldsGlobal(q)
  {
    var s := Two(init, p, q, filled, messages, known);
    assert s.pcs[0] == p && s.pcs[1] == q;
    assert forall t :: 2 <= t < |s.pcs| ==> s.pcs[t] == init.pcs[t];
  }

  /** A step of thread 0. */
  lemma First(init: State, p: Pc, q: Pc, filled: set<Msg>, messages: set<Msg>, known: int, a: Step)
    requires Fresh(init) && Reachable(init, Two(init, p, q, filled, messages, known))
    requires Enabled(Two(init, p, q, filled, messages, known), 0, a)
    ensures var s := Two(init, p, q, filled, messages, known);
            var s' := Do(s, 0, a);
            s' == Two(init, NextPc(s, p, a), q, s'.filled, s'.messages, s'.knownBytes) && Reachable(init, s')
  {
    var s := Two(init, p, q, filled, messages, known);
    var s' := StepReaches(init, s, 0, a);
    assert s'.pcs == [NextPc(s, p, a), q] + init.pcs[2..];
  }

  /** A step of thread 1. */
  lemma Second(init: State, p: Pc, q: Pc, filled: set<Msg>, messages: set<Msg>, known: int, a: Step)
    requires Fresh(init) && Reachable(init, Two(init, p, q, filled, messages, known))
    requires Enabled(Two(init, p, q, filled, messages, known), 1, a)
    ensures var s := Two(init, p, q, filled, messages, known);
            var s' := Do(s, 1, a);
            s' == Two(init, p, NextPc(s, q, a), s'.filled, s'.messages, s'.knownBytes) && Reachable(init, s')
  {
    var s := Two(init, p, q, filled, messages, known);
    var s' := StepReaches(init, s, 1, a);
    assert s'.pcs == [p, NextPc(s, q, a)] + init.pcs[2..];
  }

  ghost predicate At(init: State, p: Pc, q: Pc, filled: set<Msg>, messages: set<Msg>, known: int)
    requires |init.pcs| >= 2
  {
    Reachable(init, Two(init, p, q, filled, messages, known))
  }

  // ---------- the way into the deadlock ----------

  /** The first `k` messages. */
  function Upto(k: nat): (ms: set<Msg>)
    ensures forall m: Msg :: m in ms <==> m < k
  {
    if k == 0 then {} else Upto(k - 1) + {k - 1}
  }

  /** The size of the first `k` files together. */
  ghost function Size(init: State, k: nat): nat { Total(init.bodies, Upto(k)) }

  lemma SizeOfNext(init: State, k: nat)
    requires k < |init.bodies|
    ensures Size(init, k + 1) == init.bodies[k] + Size(init, k)
    ensures Upto(k) + {k} == Upto(k + 1)
  {
    TotalOfLess(init.bodies, Upto(k + 1), k);
    assert Upto(k + 1) - {k} == Upto(k);
  }

  /** Thread 0 reads all of message 0 before its read fails, and gets the global lock ... */
  lemma ReadFailing(init: State)
    requires Fresh(init) && At(init, Idle, Idle, {}, {}, 0)
    ensures At(init, Checking(0, init.bodies[0]), Idle, {}, {}, 0)
  {
    var size := init.bodies[0];
    First(init, Idle, Idle, {}, {}, 0, Call(0));
    LocksOfTwo(init, LockWait(0), Idle, {}, {}, 0);
    First(init, LockWait(0), Idle, {}, {}, 0, Lock);
    First(init, Filling(0), Idle, {}, {}, 0, ReadFails(size));
    LocksOfTwo(init, GlobalWait(0, size), Idle, {}, {}, 0);
    First(init, GlobalWait(0, size), Idle, {}, {}, 0, LockGlobal);
  }

  /** ... makes room in the empty map, if it has to, ... */
  lemma MakingRoom(init: State)
    requires Fresh(init) && At(init, Checking(0, init.bodies[0]), Idle, {}, {}, 0)
    ensures At(init, Registering(0, init.bodies[0]), Idle, {}, {}, 0)
  {
    var size := init.bodies[0];
    if size > init.maxBytes {
      First(init, Checking(0, size), Idle, {}, {}, 0, NoRoom);
      First(init, Evicting(0, size, {}), Idle, {}, {}, 0, Evicted);
    } else {
      First(init, Checking(0, size), Idle, {}, {}, 0, Room);
    }
  }

  /** ... and registers the message it could not read. */
  lemma RegisteringUnread(init: State)
    requires Fresh(init) && At(init, Registering(0, init.bodies[0]), Idle, {}, {}, 0)
    ensures At(init, Registered(0), Idle, {}, {0}, init.bodies[0])
  {
    assert {} + {0} == {0};
    First(init, Registering(0, init.bodies[0]), Idle, {}, {}, 0, Register);
  }

  lemma Returning(init: State, m: Msg, filled: set<Msg>, messages: set<Msg>, known: int)
    requires Fresh(init) && At(init, Registered(m), Idle, filled, messages, known)
    ensures At(init, Idle, Idle, filled, messages, known)
  {
    First(init, Registered(m), Idle, filled, messages, known, UnlockGlobal);
    First(init, Leaving(m), Idle, filled, messages, known, Unlock);
  }

  /** Thread 0 reads message `m` and waits for the global lock. */
  lemma Reading(init: State, m: Msg, filled: set<Msg>, messages: set<Msg>, known: int)
    requires Fresh(init) && At(init, Idle, Idle, filled, messages, known) && m < |init.bodies| && m !in filled
    ensures At(init, GlobalWait(m, init.bodies[m]), Idle, filled + {m}, messages, known)
  {
    First(init, Idle, Idle, filled, messages, known, Call(m));
    LocksOfTwo(init, LockWait(m), Idle, filled, messages, known);
    First(init, LockWait(m), Idle, filled, messages, known, Lock);
    First(init, Filling(m), Idle, filled, messages, known, Read);
  }

  lemma Fitting(init: State, m: Msg, filled: set<Msg>, messages: set<Msg>, known: int)
    requires Fresh(init) && m < |init.bodies| && m !in messages && init.bodies[m] + known <= init.maxBytes
    requires At(init, GlobalWait(m, init.bodies[m]), Idle, filled, messages, known)
    ensures At(init, Registered(m), Idle, filled, messages + {m}, known + init.bodies[m])
  {
    var size := init.bodies[m];
    LocksOfTwo(init, GlobalWait(m, size), Idle, filled, messages, known);
    First(init, GlobalWait(m, size), Idle, filled, messages, known, LockGlobal);
    First(init, Checking(m, size), Idle, filled, messages, known, Room);
    First(init, Registering(m, size), Idle, filled, messages, known, Register);
  }

  /** The first `k` messages are in the map, all but message 0 filled, and nothing is going on. */
  ghost predicate Holding(init: State, k: nat)
    requires |init.pcs| >= 2
  {
    At(init, Idle, Idle, Upto(k) - {0}, Upto(k), Size(init, k))
  }

  lemma HoldingUnread(init: State)
    requires Fresh(init) && At(init, Idle, Idle, {}, {}, 0)
    ensures Holding(init, 1)
  {
    ReadFailing(init);
    MakingRoom(init);
    RegisteringUnread(init);
    Returning(init, 0, {}, {0}, init.bodies[0]);
    SizeOfNext(init, 0);
    assert Upto(0) == {} && Upto(1) == {0} && Upto(1) - {0} == {};
  }

  lemma HoldingOneMore(init: State, k: nat)
    requires Fresh(init) && Holding(init, k) && 0 < k < |init.bodies| && Size(init, k + 1) <= init.maxBytes
    ensures Holding(init, k + 1)
  {
    var filled := Upto(k) - {0};
    SizeOfNext(init, k);
    assert filled + {k} == Upto(k + 1) - {0};
    Reading(init, k, filled, Upto(k), Size(init, k));
    Fitting(init, k, filled + {k}, Upto(k), Size(init, k));
    Returning(init, k, filled + {k}, Upto(k) + {k}, Size(init, k) + init.bodies[k]);
  }

  /** One message after the other is read, up to the first one that does not fit. */
  lemma {:induction false} HoldingUntilFull(init: State, k: nat) returns (m: nat)
    requires Fresh(init) && Holding(init, k) && 0 < k < |init.bodies| && Size(init, |init.bodies|) > init.maxBytes
    ensures 0 < m < |init.bodies| && Holding(init, m) && Size(init, m + 1) > init.maxBytes
    decreases |init.bodies| - k
  {
    if Size(init, k + 1) > init.maxBytes {
      m := k;
    } else {
      HoldingOneMore(init, k);
      m := HoldingUntilFull(init, k + 1);
    }
  }

  /** With thread 0 waiting for the global lock, thread 1 reads message `m`, ... */
  lemma ReadingOther(init: State, m: Msg, filled: set<Msg>, messages: set<Msg>, known: int)
    requires Fresh(init) && 0 < m < |init.bodies| && m !in filled
    requires At(init, GlobalWait(0, init.bodies[0]), Idle, filled, messages, known)
    ensures At(init, GlobalWait(0, init.bodies[0]), GlobalWait(m, init.bodies[m]), filled + {m}, messages, known)
  {
    var p := GlobalWait(0, init.bodies[0]);
    Second(init, p, Idle, filled, messages, known, Call(m));
    LocksOfTwo(init, p, LockWait(m), filled, messages, known);
    Second(init, p, LockWait(m), filled, messages, known, Lock);
    Second(init, p, Filling(m), filled, messages, known, Read);
  }

  /** ... gets the global lock first, and has to evict message 0. */
  lemma EvictingHeld(init: State, m: Msg, filled: set<Msg>, messages: set<Msg>, known: int)
    requires Fresh(init) && 0 < m < |init.bodies| && 0 in messages && m !in messages
    requires init.bodies[m] + known > init.maxBytes
    requires At(init, GlobalWait(0, init.bodies[0]), GlobalWait(m, init.bodies[m]), filled, messages, known)
    ensures At(init, GlobalWait(0, init.bodies[0]), ClearWait(m, init.bodies[m], 0, messages - {0}),
               filled, messages, known)
  {
    var p, size := GlobalWait(0, init.bodies[0]), init.bodies[m];
    LocksOfTwo(init, p, GlobalWait(m, size), filled, messages, known);
    Second(init, p, GlobalWait(m, size), filled, messages, known, LockGlobal);
    Second(init, p, Checking(m, size), filled, messages, known, NoRoom);
    Second(init, p, Evicting(m, size, messages), filled, messages, known, Next(0));
  }

  lemma DeadlockReached(init: State) returns (s: State)
    requires Fresh(init) && init.filled == {} && init.messages == {} && init.knownBytes == 0
    requires Size(init, |init.bodies|) > init.maxBytes
    ensures Reachable(init, s) && Deadlocked(s)
  {
    assert Feasible(init, []) && After(init, []) == init;
    assert Two(init, Idle, Idle, {}, {}, 0) == init by {
      assert [Idle, Idle] + init.pcs[2..] == init.pcs;
    }
    HoldingUnread(init);
    var m := HoldingUntilFull(init, 1);
    var filled, known := Upto(m) - {0}, Size(init, m);
    SizeOfNext(init, m);
    Reading(init, 0, filled, Upto(m), known);
    ReadingOther(init, m, filled + {0}, Upto(m), known);
    EvictingHeld(init, m, filled + {0} + {m}, Upto(m), known);
    s := Two(init, GlobalWait(0, init.bodies[0]), ClearWait(m, init.bodies[m], 0, Upto(m) - {0}),
             filled + {0} + {m}, Upto(m), known);
    assert DeadlockedBy(s, 1, 0);
  }

  // ---------- no way into it if everything fits ----------

  /** Nothing is ever evicted, and no message counts for more than its file. */
  ghost predicate Roomy(s: State) {
    && NoEviction(s)
    && (forall t :: 0 <= t < |s.pcs| && Unregistered(s.pcs[t]) ==>
          s.pcs[t].m < |s.bodies| && s.pcs[t].size <= s.bodies[s.pcs[t].m])
    && s.knownBytes <= Total(s.bodies, s.messages)
  }

  lemma {:induction false} TotalOfPart(bodies: seq<nat>, part: set<Msg>, all: set<Msg>)
    requires part <= all
    ensures Total(bodies, part) <= Total(bodies, all)
    decreases all
  {
    if x :| x in all - part {
      TotalOfLess(bodies, all, x);
      TotalOfPart(bodies, part, all - {x});
    } else {
      assert forall x <- all :: x !in part ==> x in all - part;
      assert part == all;
    }
  }

  lemma AlwaysRoom(s: State, m: Msg)
    requires Sane(s) && Roomy(s) && m < |s.bodies| && m !in s.messages
    requires Total(s.bodies, Upto(|s.bodies|)) <= s.maxBytes
    ensures s.bodies[m] + s.knownBytes <= s.maxBytes
    ensures Total(s.bodies, s.messages + {m}) == s.bodies[m] + Total(s.bodies, s.messages)
  {
    var more := s.messages + {m};
    TotalOfLess(s.bodies, more, m);
    assert more - {m} == s.messages;
    TotalOfPart(s.bodies, more, Upto(|s.bodies|));
  }

  lemma RoomyKept(s: State, t: Tid, a: Step)
    requires Sane(s) && Roomy(s) && Enabled(s, t, a)
    requires Total(s.bodies, Upto(|s.bodies|)) <= s.maxBytes
    ensures Roomy(Do(s, t, a))
  {
    var p, s' := s.pcs[t], Do(s, t, a);
    if a.NoRoom? || a.Register? {
      AlwaysRoom(s, p.m);
    }
    forall u | 0 <= u < |s.pcs| && u != t ensures s'.pcs[u] == s.pcs[u] {
    }
    assert s'.pcs[t] == NextPc(s, p, a) && !Evictor(p);
  }

  lemma {:induction false} RunStaysRoomy(s: State, run: seq<(Tid, Step)>)
    requires Sane(s) && Roomy(s) && Feasible(s, run)
    requires Total(s.bodies, Upto(|s.bodies|)) <= s.maxBytes
    ensures Roomy(After(s, run))
    decreases |run|
  {
    if run == [] {
    } else {
      RoomyKept(s, run[0].0, run[0].1);
      SaneKept(s, run[0].0, run[0].1);
      hide Sane, Roomy, Enabled, NextPc;
      RunStaysRoomy(Do(s, run[0].0, run[0].1), run[1..]);
    }
  }

  lemma InitRoomy(bodies: seq<nat>, maxBytes: int, threads: nat)
    ensures Roomy(Init(bodies, maxBytes, threads))
  {
  }

  lemma RoomyIsNotDeadlocked(s: State)
    requires Roomy(s)
    ensures !Deadlocked(s)
  {
    forall g: Tid, h: Tid | DeadlockedBy(s, g, h) ensures false {
      assert Evictor(s.pcs[g]);
    }
  }

  /** When reads may fail, a deadlock can be reached if and only if there are two threads and two messages
      to be served, and the files together exceed the bound. */
  lemma DeadlockReachableIff(bodies: seq<nat>, maxBytes: int, threads: nat)
    ensures (exists s :: Reachable(Init(bodies, maxBytes, threads), s) && Deadlocked(s)) <==>
            threads >= 2 && |bodies| >= 2 && Total(bodies, Upto(|bodies|)) > maxBytes
  {
    var init := Init(bodies, maxBytes, threads);
    if threads >= 2 && |bodies| >= 2 && Total(bodies, Upto(|bodies|)) > maxBytes {
      var s := DeadlockReached(init);
    }
    forall s | Reachable(init, s) && Deadlocked(s)
      ensures threads >= 2 && |bodies| >= 2 && Total(bodies, Upto(|bodies|)) > maxBytes
    {
      OnlyIfTooMuch(bodies, maxBytes, threads, s);
    }
  }

  lemma OnlyIfTooMuch(bodies: seq<nat>, maxBytes: int, threads: nat, s: State)
    requires Reachable(Init(bodies, maxBytes, threads), s) && Deadlocked(s)
    ensures threads >= 2 && |bodies| >= 2 && Total(bodies, Upto(|bodies|)) > maxBytes
  {
    var init := Init(bodies, maxBytes, threads);
    var run: seq<(Tid, Step)> :| Feasible(init, run) && After(init, run) == s;
    InitSane(bodies, maxBytes, threads);
    hide Feasible, After, Deadlocked, Sane, Roomy, Total;
    RunSane(init, run);
    RunKeepsSizes(init, run);
    TwoOfEach(s);
    if Total(bodies, Upto(|bodies|)) <= maxBytes {
      InitRoomy(bodies, maxBytes, threads);
      RunStaysRoomy(init, run);
      RoomyIsNotDeadlocked(s);
    }
  }

  lemma TwoOfEach(s: State)
    requires Sane(s) && Deadlocked(s)
    ensures |s.pcs| >= 2 && |s.bodies| >= 2
  {
    var g: Tid, h: Tid :| DeadlockedBy(s, g, h);
    assert TodoMatches(s.pcs[g], s.messages);
    assert s.pcs[g].m != s.pcs[g].x;
  }

  lemma {:induction false} RunKeepsSizes(s: State, run: seq<(Tid, Step)>)
    requires Feasible(s, run)
    ensures After(s, run).bodies == s.bodies && |After(s, run).pcs| == |s.pcs|
    decreases |run|
  {
    if run == [] {
    } else {
      RunKeepsSizes(Do(s, run[0].0, run[0].1), run[1..]);
    }
  }
}
