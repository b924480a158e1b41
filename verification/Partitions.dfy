/** The round-robin split of folders over download threads, core/core.go:139-153. */
module Partitions {
  import opened Sorting

  /** Never more threads than folders; a number that is not positive asks for one thread per folder. */
  function Threads(folders: nat, wanted: int): nat {
    if wanted > folders || wanted <= 0 then folders else wanted
  }

  /** The position in the list of folders of element `k` of partition `j`. */
  function Position(j: nat, k: nat, n: nat): nat { j + k * n }

  /** A partition holds every `n`-th folder, beginning with folder `j` and ending only with the list. */
  ghost predicate Deals(folders: seq<string>, n: nat, j: nat, part: seq<string>) {
    && |folders| <= Position(j, |part|, n)
    && forall k: nat | k < |part| ::
         Position(j, k, n) < |folders| && part[k] == folders[Position(j, k, n)]
  }

  ghost predicate RoundRobin(folders: seq<string>, n: nat, parts: seq<seq<string>>) {
    |parts| == n && forall j: nat | j < n :: Deals(folders, n, j, parts[j])
  }

  method PartitionFolders(folders: seq<string>, wanted: int) returns (parts: seq<seq<string>>)
    ensures RoundRobin(folders, Threads(|folders|, wanted), parts)
    ensures |parts| == if 0 < wanted <= |folders| then wanted else |folders|
  {
    var n := Threads(|folders|, wanted);
    parts := seq(n, _ => []);
    for i := 0 to |folders|
      invariant RoundRobin(folders[..i], n, parts)
    {
      forall j: nat | j < n
        ensures Deals(folders[..i + 1], n, j, if j == i % n then parts[j] + [folders[i]] else parts[j])
      {
        DealOne(folders, n, j, parts[j], i);
      }
      hide Deals;
      parts := parts[i % n := parts[i % n] + [folders[i]]];
    }
    assert folders[..|folders|] == folders;
  }

  lemma DealOne(folders: seq<string>, n: nat, j: nat, part: seq<string>, i: nat)
    requires i < |folders| && j < n && Deals(folders[..i], n, j, part)
    ensures Deals(folders[..i + 1], n, j, if j == i % n then part + [folders[i]] else part)
  {
    var s := |part|;
    if s > 0 {
      assert Position(j, s - 1, n) < i;
    }
    NextIs(i, n, j, s);
    hide Position;
    var now := if j == i % n then part + [folders[i]] else part;
    forall k: nat | k < |now|
      ensures Position(j, k, n) < i + 1 && now[k] == folders[Position(j, k, n)]
    {
      if k < s {
        assert part[k] == folders[..i][Position(j, k, n)];
      }
    }
  }

  lemma NextIs(i: nat, n: nat, j: nat, s: nat)
    requires j < n && i <= Position(j, s, n) && (s > 0 ==> Position(j, s - 1, n) < i)
    ensures j == i % n ==> i == Position(j, s, n) && i + 1 <= Position(j, s + 1, n)
    ensures j != i % n ==> i + 1 <= Position(j, s, n)
  {
    if j == i % n {
      Between(i, n, j, s, i / n);
    } else if i == Position(j, s, n) {
      PlaceOfPosition(n, j, s);
    }
  }

  lemma Between(i: nat, n: nat, j: nat, s: nat, q: nat)
    requires i == Position(j, q, n) <= Position(j, s, n) && (s > 0 ==> Position(j, s - 1, n) < i) && n > 0
    ensures q == s
  {
    if q < s {
      Multiples(n, q, s - 1);
    } else if q > s {
      Multiples(n, s + 1, q);
    }
  }

  lemma Multiples(n: nat, a: nat, b: nat)
    requires a <= b
    ensures a * n <= b * n
  {
  }

  lemma PlaceOfPosition(n: nat, j: nat, k: nat)
    requires j < n
    ensures Position(j, k, n) % n == j && Position(j, k, n) / n == k
  {
    var x := Position(j, k, n);
    assert x == (x / n) * n + x % n;
    if x / n < k {
      Multiples(n, x / n + 1, k);
    } else if x / n > k {
      Multiples(n, k + 1, x / n);
    }
  }

  /** Nothing is lost and nothing is dealt twice: folder `i` is element `i / n` of partition `i % n`, and every
      element of a partition comes from a position of its own. */
  lemma EveryFolderHasOnePlace(folders: seq<string>, n: nat, parts: seq<seq<string>>)
    requires RoundRobin(folders, n, parts) && (n == 0 ==> folders == [])
    ensures forall i: nat | i < |folders| ::
              i / n < |parts[i % n]| && parts[i % n][i / n] == folders[i]
    ensures forall j: nat, k: nat | j < n && k < |parts[j]| ::
              Position(j, k, n) < |folders| && Position(j, k, n) % n == j && Position(j, k, n) / n == k
  {
    forall i: nat | i < |folders|
      ensures i / n < |parts[i % n]| && parts[i % n][i / n] == folders[i]
    {
      IsDealt(folders, n, parts[i % n], i);
    }
    forall j: nat, k: nat | j < n && k < |parts[j]|
      ensures Position(j, k, n) < |folders| && Position(j, k, n) % n == j && Position(j, k, n) / n == k
    {
      assert Deals(folders, n, j, parts[j]);
      PlaceOfPosition(n, j, k);
    }
  }

  lemma IsDealt(folders: seq<string>, n: nat, part: seq<string>, i: nat)
    requires i < |folders| && n > 0 && Deals(folders, n, i % n, part)
    ensures i / n < |part| && part[i / n] == folders[i]
  {
    assert i == Position(i % n, i / n, n);
    if i / n >= |part| {
      Multiples(n, |part|, i / n);
    }
  }

  /** No two workers own the same folder, and none owns one twice. */
  lemma NoFolderTwice(folders: seq<string>, n: nat, parts: seq<seq<string>>, j: nat, k: nat, j': nat, k': nat)
    requires RoundRobin(folders, n, parts) && Distinct(folders)
    requires j < n && k < |parts[j]| && j' < n && k' < |parts[j']| && parts[j][k] == parts[j'][k']
    ensures j == j' && k == k'
  {
    EveryFolderHasOnePlace(folders, n, parts);
    assert Deals(folders, n, j, parts[j]) && Deals(folders, n, j', parts[j']);
    hide Position;
  }

  /** Of `total` folders, one partition reaches to the end and another one does not go beyond it. */
  lemma NotTwoMore(total: nat, n: nat, j: nat, s: nat, j': nat, s': nat)
    requires j' < n && total <= Position(j', s', n) && s > 0 && Position(j, s - 1, n) < total
    ensures s <= s' + 1
  {
    if s > s' + 1 {
      Multiples(n, s' + 1, s - 1);
    }
  }

  lemma NoneIdle(total: nat, n: nat, j: nat, s: nat)
    requires j < n <= total <= Position(j, s, n)
    ensures s > 0
  {
  }

  /** No worker is idle, and none has more than one folder more than another. */
  lemma SharesAreEven(folders: seq<string>, wanted: int, parts: seq<seq<string>>, j: nat, j': nat)
    requires RoundRobin(folders, Threads(|folders|, wanted), parts) && j < |parts| && j' < |parts|
    ensures 1 <= |parts[j]| <= |parts[j']| + 1
  {
    var n, s, s' := |parts|, |parts[j]|, |parts[j']|;
    assert Deals(folders, n, j, parts[j]) && Deals(folders, n, j', parts[j']);
    hide Position;
    NoneIdle(|folders|, n, j, s);
    assert Position(j, s - 1, n) < |folders|;
    NotTwoMore(|folders|, n, j, s, j', s');
  }
}
