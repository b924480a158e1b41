/** Runs of the cache in which every file can be read: no deadlock, although `fill` and eviction take
    the locks in opposite orders, and exact accounting. */
module CacheCleanRuns {
  import opened CacheProtocol

  // ---------- sums of body sizes ----------

  ghost function Total(bodies: seq<nat>, ms: set<Msg>): nat
    decreases ms
  {
    if ms == {} then 0 else
      var m :| m in ms;
      (if m < |bodies| then bodies[m] else 0) + Total(bodies, ms - {m})
  }

  lemma {:induction false} TotalOfLess(bodies: seq<nat>, ms: set<Msg>, x: Msg)
    requires x in ms
    ensures Total(bodies, ms) == (if x < |bodies| then bodies[x] else 0) + Total(bodies, ms - {x})
    decreases ms
  {
    var y :| y in ms && Total(bodies, ms) == (if y < |bodies| then bodies[y] else 0) + Total(bodies, ms - {y});
    if x != y {
      TotalOfLess(bodies, ms - {y}, x);
      TotalOfLess(bodies, ms - {x}, y);
      assert (ms - {x}) - {y} == (ms - {y}) - {x};
    }
  }

  // ---------- the invariant of clean runs ----------

  predicate Dropping(p: Pc, m: Msg) { p.Deleting? && p.x == m }

  /** In the map, and not just being dropped from it. */
  predicate Kept(s: State, m: Msg) {
    m in s.messages && forall t :: 0 <= t < |s.pcs| ==> !Dropping(s.pcs[t], m)
  }

  /** A thread on its way to registration has filled its message, and nobody else has it in the map. */
  predicate FilledBy(s: State, p: Pc) {
    Unregistered(p) ==> p.m < |s.bodies| && p.size == s.bodies[p.m] && p.m in s.filled && !Kept(s, p.m)
  }

  /** The filled messages are those in the map and those between fill and registration. */
  ghost predicate FilledAreKnown(s: State) {
    && (forall t :: 0 <= t < |s.pcs| ==> FilledBy(s, s.pcs[t]))
    && (forall m :: Kept(s, m) ==> m in s.filled)
    && (forall m <- s.filled :: Kept(s, m) || Underway(s, m))
  }

  predicate Underway(s: State, m: Msg) {
    exists t :: 0 <= t < |s.pcs| && Unregistered(s.pcs[t]) && s.pcs[t].m == m
  }

  predicate Evictor(p: Pc) { p.Evicting? || p.ClearWait? || p.Clearing? || p.Deleting? }

  predicate NoEviction(s: State) { forall t :: 0 <= t < |s.pcs| ==> !Evictor(s.pcs[t]) }

  /** The byte count is the sum of the registered bodies, and it exceeds the bound only if a single
      body does. */
  ghost predicate Accounted(s: State) {
    && (NoEviction(s) ==> s.knownBytes == Total(s.bodies, s.messages))
    && (NoEviction(s) ==> s.knownBytes <= s.maxBytes || |s.messages| <= 1)
    && (forall t :: 0 <= t < |s.pcs| && s.pcs[t].Registering? ==>
          s.pcs[t].size + s.knownBytes <= s.maxBytes || s.messages == {})
  }

  lemma InitClean(bodies: seq<nat>, maxBytes: int, threads: nat)
    ensures FilledAreKnown(Init(bodies, maxBytes, threads)) && Accounted(Init(bodies, maxBytes, threads))
  {
  }

  lemma KeptAfter(s: State, t: Tid, a: Step, m: Msg)
    requires Sane(s) && Enabled(s, t, a)
    ensures Kept(Do(s, t, a), m) <==>
            if a.Register? && s.pcs[t].m == m then true
            else if a.Clear? && s.pcs[t].x == m then false
            else Kept(s, m)
  {
    var s' := Do(s, t, a);
    forall u | 0 <= u < |s.pcs| && u != t ensures s'.pcs[u] == s.pcs[u] {
    }
    assert s'.pcs[t] == NextPc(s, s.pcs[t], a);
  }

  lemma FilledByKept(s: State, t: Tid, a: Step, u: Tid)
    requires Sane(s) && FilledAreKnown(s) && Enabled(s, t, a) && !a.ReadFails? && u < |s.pcs|
    ensures FilledBy(Do(s, t, a), Do(s, t, a).pcs[u])
  {
    var p := Do(s, t, a).pcs[u];
    if Unregistered(p) {
      KeptAfter(s, t, a, p.m);
      assert FilledBy(s, s.pcs[u]);
      if u != t {
        assert Holds(s.pcs[u], p.m);
      }
    }
  }

  lemma FilledKept(s: State, t: Tid, a: Step)
    requires Sane(s) && FilledAreKnown(s) && Enabled(s, t, a) && !a.ReadFails?
    ensures FilledAreKnown(Do(s, t, a))
  {
    var s' := Do(s, t, a);
    forall u | 0 <= u < |s'.pcs| ensures FilledBy(s', s'.pcs[u]) {
      FilledByKept(s, t, a, u);
    }
    forall m | Kept(s', m) ensures m in s'.filled {
      KeptAfter(s, t, a, m);
      assert FilledBy(s, s.pcs[t]);
    }
    forall m | m in s'.filled ensures Kept(s', m) || Underway(s', m) {
      KeptAfter(s, t, a, m);
      UnderwayAfter(s, t, a, m);
      KnownIsKept(s, t, a);
    }
  }

  lemma KnownIsKept(s: State, t: Tid, a: Step)
    requires Sane(s) && Enabled(s, t, a)
    ensures a.Known? ==> Kept(s, s.pcs[t].m)
  {
  }

  lemma UnderwayAfter(s: State, t: Tid, a: Step, m: Msg)
    requires Enabled(s, t, a)
    ensures Underway(s, m) && !((a.Register? || a.Known?) && s.pcs[t].m == m) ==> Underway(Do(s, t, a), m)
    ensures a.Read? && s.pcs[t].m == m ==> Underway(Do(s, t, a), m)
  {
    var s' := Do(s, t, a);
    if a.Read? && s.pcs[t].m == m {
      assert Unregistered(s'.pcs[t]) && s'.pcs[t].m == m;
    } else if Underway(s, m) {
      var u :| 0 <= u < |s.pcs| && Unregistered(s.pcs[u]) && s.pcs[u].m == m;
      assert u != t ==> s'.pcs[u] == s.pcs[u];
      assert u == t && !a.Register? && !a.Known? ==> Unregistered(s'.pcs[u]) && s'.pcs[u].m == m;
    }
  }

  lemma AccountedKept(s: State, t: Tid, a: Step)
    requires Sane(s) && FilledAreKnown(s) && Accounted(s) && Enabled(s, t, a) && !a.ReadFails?
    ensures Accounted(Do(s, t, a))
  {
    hide LockFree, GlobalFree;
    var s' := Do(s, t, a);
    var p := s.pcs[t];
    EvictionAfter(s, t, a);
    if a.Register? {
      assert FilledBy(s, p);
      assert s'.messages - {p.m} == s.messages;
      TotalOfLess(s.bodies, s'.messages, p.m);
    }
  }

  /** Only the holder of the global lock evicts or registers. */
  lemma EvictionAfter(s: State, t: Tid, a: Step)
    requires Sane(s) && Enabled(s, t, a)
    ensures a.NoRoom? || a.Next? || a.LockVictim? || a.Clear? || a.Delete? ==> !NoEviction(Do(s, t, a))
    ensures !(a.NoRoom? || a.Next? || a.LockVictim? || a.Clear? || a.Delete? || a.Evicted?) ==>
              (NoEviction(Do(s, t, a)) <==> NoEviction(s))
    ensures HoldsGlobal(s.pcs[t]) && !Evictor(s.pcs[t]) ==> NoEviction(s)
    ensures HoldsGlobal(s.pcs[t]) ==>
              forall u :: 0 <= u < |s.pcs| && u != t ==> !Do(s, t, a).pcs[u].Registering?
  {
    var s' := Do(s, t, a);
    assert s'.pcs[t] == NextPc(s, s.pcs[t], a);
    assert forall u :: 0 <= u < |s.pcs| && u != t ==> s'.pcs[u] == s.pcs[u];
  }

  // ---------- the results ----------

  predicate AllReadsSucceed(run: seq<(Tid, Step)>) { forall step <- run :: !step.1.ReadFails? }

  ghost predicate Clean(s: State) { Sane(s) && FilledAreKnown(s) && Accounted(s) }

  lemma {:induction false} CleanKept(s: State, run: seq<(Tid, Step)>)
    requires Clean(s) && Feasible(s, run) && AllReadsSucceed(run)
    ensures Clean(After(s, run))
    decreases |run|
  {
    if run == [] {
    } else {
      assert run[0] in run;
      SaneKept(s, run[0].0, run[0].1);
      FilledKept(s, run[0].0, run[0].1);
      AccountedKept(s, run[0].0, run[0].1);
      hide Sane, FilledAreKnown, Accounted, Do, Enabled;
      CleanKept(Do(s, run[0].0, run[0].1), run[1..]);
    }
  }

  lemma CleanRun(bodies: seq<nat>, maxBytes: int, threads: nat, run: seq<(Tid, Step)>)
    requires Feasible(Init(bodies, maxBytes, threads), run) && AllReadsSucceed(run)
    ensures Clean(After(Init(bodies, maxBytes, threads), run))
  {
    InitSane(bodies, maxBytes, threads);
    InitClean(bodies, maxBytes, threads);
    CleanKept(Init(bodies, maxBytes, threads), run);
  }

  /** The victim an eviction waits for is still in the map, a message underway is not. */
  lemma VictimIsKept(s: State, g: Tid)
    requires Sane(s) && g < |s.pcs| && s.pcs[g].ClearWait?
    ensures Kept(s, s.pcs[g].x)
  {
  }

  lemma UnderwayIsNotKept(s: State, h: Tid)
    requires FilledAreKnown(s) && h < |s.pcs| && Unregistered(s.pcs[h])
    ensures !Kept(s, s.pcs[h].m)
  {
    assert FilledBy(s, s.pcs[h]);
  }

  lemma CleanIsNotDeadlocked(s: State)
    requires Clean(s)
    ensures !Deadlocked(s)
  {
    forall g: Tid, h: Tid | DeadlockedBy(s, g, h) ensures false {
      VictimIsKept(s, g);
      UnderwayIsNotKept(s, h);
    }
  }

  /** Deadlock freedom: in every interleaving of any number of threads in which all reads succeed,
      while some thread is inside `fill`, some such thread can take a step. */
  lemma NeverStuck(bodies: seq<nat>, maxBytes: int, threads: nat, run: seq<(Tid, Step)>, t: Tid)
    returns (u: Tid, a: Step)
    requires Feasible(Init(bodies, maxBytes, threads), run) && AllReadsSucceed(run)
    requires t < |After(Init(bodies, maxBytes, threads), run).pcs|
    requires !After(Init(bodies, maxBytes, threads), run).pcs[t].Idle?
    ensures Progressing(After(Init(bodies, maxBytes, threads), run), u, a)
  {
    var s := After(Init(bodies, maxBytes, threads), run);
    CleanRun(bodies, maxBytes, threads, run);
    CleanIsNotDeadlocked(s);
    u, a := StuckOnlyInDeadlock(s, t);
  }

  /** Accounting: in every such interleaving, whenever the global lock is free the map holds exactly
      the filled messages that are not between fill and registration, `knownBytes` is the sum of
      their sizes, and it exceeds `maxBytes` only while a single message is held. */
  lemma AccountsWhenFree(bodies: seq<nat>, maxBytes: int, threads: nat, run: seq<(Tid, Step)>)
    requires Feasible(Init(bodies, maxBytes, threads), run) && AllReadsSucceed(run)
    requires GlobalFree(After(Init(bodies, maxBytes, threads), run))
    ensures var s := After(Init(bodies, maxBytes, threads), run);
            && (forall m :: m in s.messages <==> m in s.filled && !Underway(s, m))
            && s.knownBytes == Total(s.bodies, s.messages)
            && (s.knownBytes <= s.maxBytes || |s.messages| <= 1)
  {
    var s := After(Init(bodies, maxBytes, threads), run);
    CleanRun(bodies, maxBytes, threads, run);
    forall m ensures m in s.messages <==> m in s.filled && !Underway(s, m) {
      assert m in s.messages <==> Kept(s, m);
      if Underway(s, m) {
        var t :| 0 <= t < |s.pcs| && Unregistered(s.pcs[t]) && s.pcs[t].m == m;
        assert FilledBy(s, s.pcs[t]);
      }
    }
  }

  // ---------- every fill returns ----------

  /** What an eviction still has to clear. */
  function Left(todo: set<Msg>): nat { |todo| }

  /** The steps a thread still has to take, with `n` messages at most to evict. */
  function Rank(p: Pc, n: nat): nat {
    match p
    case Idle => 0
    case LockWait(_) => 4 * n + 12
    case Filling(_) => 4 * n + 11
    case GlobalWait(_, _) => 4 * n + 10
    case Checking(_, _) => 4 * n + 9
    case Evicting(_, _, todo) => 4 * Left(todo) + 5
    case ClearWait(_, _, _, todo) => 4 * Left(todo) + 8
    case Clearing(_, _, _, todo) => 4 * Left(todo) + 7
    case Deleting(_, _, _, todo) => 4 * Left(todo) + 6
    case Registering(_, _) => 4
    case Registered(_) => 3
    case Leaving(_) => 2
  }

  function Work(pcs: seq<Pc>, n: nat): nat {
    if pcs == [] then 0 else Work(pcs[..|pcs| - 1], n) + Rank(pcs[|pcs| - 1], n)
  }

  lemma {:induction false} WorkUpdate(pcs: seq<Pc>, t: Tid, p: Pc, n: nat)
    requires t < |pcs|
    ensures Work(pcs[t := p], n) + Rank(pcs[t], n) == Work(pcs, n) + Rank(p, n)
  {
    hide Rank;
    var last := |pcs| - 1;
    if t == last {
      assert pcs[t := p][..last] == pcs[..last];
    } else {
      assert pcs[t := p][..last] == pcs[..last][t := p];
      WorkUpdate(pcs[..last], t, p, n);
    }
  }

  lemma {:induction false} MapIsSmall(messages: set<Msg>, n: nat)
    requires forall m <- messages :: m < n
    ensures |messages| <= n
  {
    if n == 0 {
      assert messages == {};
    } else {
      MapIsSmall(messages - {n - 1}, n - 1);
      assert |messages| <= |messages - {n - 1}| + 1;
    }
  }

  lemma OneLess(todo: set<Msg>, x: Msg)
    requires x in todo
    ensures Left(todo - {x}) == Left(todo) - 1
  {
  }

  lemma PcDrops(s: State, t: Tid, a: Step, n: nat)
    requires Enabled(s, t, a) && !a.Call? && Left(s.messages) <= n
    ensures Rank(NextPc(s, s.pcs[t], a), n) < Rank(s.pcs[t], n)
  {
    hide LockFree, GlobalFree, Left;
    if a.Next? {
      OneLess(s.pcs[t].todo, a.x);
    }
  }

  lemma RankDrops(s: State, t: Tid, a: Step)
    requires Sane(s) && Enabled(s, t, a) && !a.Call?
    ensures Rank(NextPc(s, s.pcs[t], a), |s.bodies|) < Rank(s.pcs[t], |s.bodies|)
  {
    hide Enabled, NextPc, Rank;
    MapIsSmall(s.messages, |s.bodies|);
    PcDrops(s, t, a, |s.bodies|);
  }

  predicate NoNewCalls(run: seq<(Tid, Step)>) { forall step <- run :: !step.1.Call? }

  /** Failed reads included: without new calls, no interleaving goes on for longer than the work left. */
  lemma {:induction false} CallsUnderwayEnd(s: State, run: seq<(Tid, Step)>)
    requires Sane(s) && Feasible(s, run) && NoNewCalls(run)
    ensures |run| <= Work(s.pcs, |s.bodies|)
    decreases |run|
  {
    if run == [] {
    } else {
      var t, a := run[0].0, run[0].1;
      assert run[0] in run;
      RankDrops(s, t, a);
      WorkUpdate(s.pcs, t, NextPc(s, s.pcs[t], a), |s.bodies|);
      SaneKept(s, t, a);
      hide Sane, Enabled, NextPc, Rank, Work;
      CallsUnderwayEnd(Do(s, t, a), run[1..]);
    }
  }

  /** Every `fill` returns: if all reads succeed and no new call comes, the threads go on for a bounded
      number of steps, and when none of them can go on, all of them are done. */
  lemma EveryFillReturns(bodies: seq<nat>, maxBytes: int, threads: nat, run: seq<(Tid, Step)>, s: State,
                         rest: seq<(Tid, Step)>)
    requires Feasible(Init(bodies, maxBytes, threads), run) && AllReadsSucceed(run)
    requires s == After(Init(bodies, maxBytes, threads), run)
    requires Feasible(s, rest) && AllReadsSucceed(rest) && NoNewCalls(rest)
    ensures |rest| <= Work(s.pcs, |s.bodies|)
    ensures (forall u: Tid, a: Step :: !Progressing(After(s, rest), u, a)) ==>
              forall t: Tid | t < |After(s, rest).pcs| :: After(s, rest).pcs[t].Idle?
  {
    CleanRun(bodies, maxBytes, threads, run);
    CallsUnderwayEnd(s, rest);
    CleanKept(s, rest);
    var s' := After(s, rest);
    hide Feasible, After, Sane, FilledAreKnown, Accounted, Work, Progressing;
    CleanIsNotDeadlocked(s');
    if t: Tid :| t < |s'.pcs| && !s'.pcs[t].Idle? {
      var u, a := StuckOnlyInDeadlock(s', t);
    }
  }

  // ---------- a fill that returns has filled its message ----------

  predicate Done(p: Pc) { p.Registered? || p.Leaving? }

  ghost predicate DoneAreFilled(s: State) {
    forall t :: 0 <= t < |s.pcs| && Done(s.pcs[t]) ==> s.pcs[t].m in s.filled
  }

  /** Nobody clears a message that another thread, or the evicting one itself, holds. */
  lemma ClearsNobodys(s: State, t: Tid, u: Tid)
    requires Sane(s) && t < |s.pcs| && u < |s.pcs| && s.pcs[t].Clearing? && Done(s.pcs[u])
    ensures s.pcs[u].m != s.pcs[t].x
  {
    if u != t {
      InsideAlone(s, t, u);
    }
  }

  lemma DoneStep(s: State, t: Tid, a: Step)
    requires Sane(s) && FilledAreKnown(s) && DoneAreFilled(s) && Enabled(s, t, a) && !a.ReadFails?
    ensures DoneAreFilled(Do(s, t, a))
  {
    var s' := Do(s, t, a);
    assert FilledBy(s, s.pcs[t]);
    forall u | 0 <= u < |s'.pcs| && Done(s'.pcs[u]) ensures s'.pcs[u].m in s'.filled {
      if u != t && a.Clear? {
        ClearsNobodys(s, t, u);
      }
    }
  }

  lemma {:induction false} DoneRun(s: State, run: seq<(Tid, Step)>)
    requires Clean(s) && DoneAreFilled(s) && Feasible(s, run) && AllReadsSucceed(run)
    ensures DoneAreFilled(After(s, run))
    decreases |run|
  {
    if run == [] {
    } else {
      assert run[0] in run;
      SaneKept(s, run[0].0, run[0].1);
      FilledKept(s, run[0].0, run[0].1);
      AccountedKept(s, run[0].0, run[0].1);
      DoneStep(s, run[0].0, run[0].1);
      hide Sane, FilledAreKnown, Accounted, Do, Enabled, DoneAreFilled;
      DoneRun(Do(s, run[0].0, run[0].1), run[1..]);
    }
  }

  /** If all reads succeed, a thread that is about to return from `fill` leaves its message filled. */
  lemma FillFills(bodies: seq<nat>, maxBytes: int, threads: nat, run: seq<(Tid, Step)>, s: State, t: Tid)
    requires Feasible(Init(bodies, maxBytes, threads), run) && AllReadsSucceed(run)
    requires s == After(Init(bodies, maxBytes, threads), run) && t < |s.pcs| && s.pcs[t].Leaving?
    ensures s.pcs[t].m in s.filled
  {
    InitSane(bodies, maxBytes, threads);
    InitClean(bodies, maxBytes, threads);
    DoneRun(Init(bodies, maxBytes, threads), run);
  }
}
