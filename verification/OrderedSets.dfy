/** The ordered set of core/ordered_set.go: a map from entries to order numbers. It behaves like a list
    without repetitions, in which an entry that is removed and added again moves to the end. */
module OrderedSets {
  import opened Sorting

  function Appended(s: seq<string>, key: string): seq<string> { if key in s then s else s + [key] }

  function Without(s: seq<string>, key: string): seq<string> {
    if s == [] then [] else
      Without(s[..|s| - 1], key) + if s[|s| - 1] == key then [] else [s[|s| - 1]]
  }

  /** `orderHelper`. */
  datatype Entry = Entry(value: string, order: nat)

  predicate Earlier(a: Entry, b: Entry) { a.order < b.order }

  function Values(entries: seq<Entry>): seq<string> {
    seq(|entries|, k requires 0 <= k < |entries| => entries[k].value)
  }

  class OrderedSet {
    var data: map<string, nat>
    var orderCount: nat
    ghost var Contents: seq<string>

    /** The order numbers are pairwise distinct, below the counter, and ascend along the list. */
    ghost predicate Valid()
      reads this
    {
      && Distinct(Contents)
      && (forall key :: key in data <==> key in Contents)
      && (forall key <- data :: data[key] < orderCount)
      && AscendingIn(data, Contents)
    }

    constructor ()
      ensures Valid() && Contents == []
    {
      data, orderCount, Contents := map[], 0, [];
    }

    method Add(key: string)
      requires Valid()
      modifies this
      ensures Valid() && Contents == Appended(old(Contents), key)
    {
      if key !in data {
        data := data[key := orderCount];
        orderCount := orderCount + 1;
        Contents := Contents + [key];
      }
    }

    method Remove(key: string)
      requires Valid()
      modifies this
      ensures Valid() && Contents == Without(old(Contents), key)
    {
      WithoutIs(Contents, key);
      WithoutKeepsOrder(Contents, key, data);
      data := data - {key};
      Contents := Without(Contents, key);
    }

    predicate Has(key: string)
      requires Valid()
      reads this
      ensures Has(key) <==> key in Contents
    {
      key in data
    }

    /** However the map is iterated, the entries come out in the order of the list. */
    method OrderedEntries() returns (entries: seq<string>)
      requires Valid()
      ensures entries == Contents
    {
      var order: seq<Entry>, rest := [], data.Keys;
      while rest != {}
        invariant rest <= data.Keys && Distinct(order)
        invariant forall e :: e in order <==> e.value in data.Keys - rest && e.order == data[e.value]
        decreases rest
      {
        var key :| key in rest;
        order := order + [Entry(key, data[key])];
        rest := rest - {key};
      }
      var sorted := SortSlice(order, Earlier);
      SortedEntries(Contents, data, order, sorted);
      entries := Values(sorted);
    }

    /** Keep only the entries that are also in the other set. The map is iterated in any order. */
    method Union(other: OrderedSet) returns (result: OrderedSet)
      requires Valid() && other.Valid()
      ensures fresh(result) && result.Valid()
      ensures forall key :: key in result.Contents <==> key in Contents && key in other.Contents
    {
      result := new OrderedSet();
      var rest := data.Keys;
      while rest != {}
        invariant fresh(result) && result.Valid() && rest <= data.Keys
        invariant forall key :: key in result.Contents <==> key in data.Keys - rest && key in other.Contents
        decreases rest
      {
        var entry :| entry in rest;
        if other.Has(entry) {
          result.Add(entry);
        }
        rest := rest - {entry};
      }
    }

    /** Keep only the entries that are not in the other set. */
    method Exclusion(other: OrderedSet) returns (result: OrderedSet)
      requires Valid() && other.Valid()
      ensures fresh(result) && result.Valid()
      ensures forall key :: key in result.Contents <==> key in Contents && key !in other.Contents
    {
      result := new OrderedSet();
      var rest := data.Keys;
      while rest != {}
        invariant fresh(result) && result.Valid() && rest <= data.Keys
        invariant forall key :: key in result.Contents <==> key in data.Keys - rest && key !in other.Contents
        decreases rest
      {
        var entry :| entry in rest;
        if !other.Has(entry) {
          result.Add(entry);
        }
        rest := rest - {entry};
      }
    }

    /** The program compares sizes and then looks up in one direction only. */
    method Equal(other: OrderedSet) returns (same: bool)
      requires Valid() && other.Valid()
      ensures same <==> forall key :: key in Contents <==> key in other.Contents
    {
      assert (forall key :: key in Contents <==> key in other.Contents) <==> data.Keys == other.data.Keys;
      if |data| != |other.data| {
        return false;
      }
      var rest := data.Keys;
      while rest != {}
        invariant rest <= data.Keys && data.Keys - rest <= other.data.Keys
        decreases rest
      {
        var entry :| entry in rest;
        if !other.Has(entry) {
          return false;
        }
        rest := rest - {entry};
      }
      SubsetOfSameSize(data.Keys, other.data.Keys);
      same := true;
    }
  }

  /** `setFromSlice`. */
  method SetFromSlice(slice: seq<string>) returns (s: OrderedSet)
    ensures fresh(s) && s.Valid()
    ensures forall key :: key in s.Contents <==> key in slice
  {
    s := new OrderedSet();
    for i := 0 to |slice|
      invariant fresh(s) && s.Valid()
      invariant forall key :: key in s.Contents <==> key in slice[..i]
    {
      s.Add(slice[i]);
      assert slice[..i + 1] == slice[..i] + [slice[i]];
    }
    assert slice[..|slice|] == slice;
  }

  lemma SubsetOfSameSize<T>(a: set<T>, b: set<T>)
    requires a <= b && |a| == |b|
    ensures a == b
  {
    assert |b - a| == |b| - |a|;
  }

  // ---------- the order numbers sort the entries into the list ----------

  ghost function EntriesOf(contents: seq<string>, data: map<string, nat>): seq<Entry>
    requires AscendingIn(data, contents)
  {
    seq(|contents|, k requires 0 <= k < |contents| => Entry(contents[k], data[contents[k]]))
  }

  lemma SortedEntries(contents: seq<string>, data: map<string, nat>, order: seq<Entry>, sorted: seq<Entry>)
    requires AscendingIn(data, contents) && forall key <- data :: key in contents
    requires Distinct(order) && forall e :: e in order <==> e.value in data && e.order == data[e.value]
    requires multiset(sorted) == multiset(order) && Ascending(sorted, Earlier)
    ensures Values(sorted) == contents
  {
    DistinctStays(order, sorted);
    SameElements(order, sorted);
    forall i, j | 0 <= i < j < |sorted| ensures Earlier(sorted[i], sorted[j]) {
      assert sorted[i] in sorted && sorted[j] in sorted;
      OrderIsInjective(contents, data, sorted[i].value, sorted[j].value);
    }
    var entries := EntriesOf(contents, data);
    forall e | e in sorted ensures e in entries {
      var k :| 0 <= k < |contents| && contents[k] == e.value;
      assert entries[k] == e;
    }
    AscendingIsUnique(sorted, entries, Earlier);
  }

  lemma OrderIsInjective(contents: seq<string>, data: map<string, nat>, a: string, b: string)
    requires AscendingIn(data, contents) && a in contents && b in contents && a != b
    ensures data[a] != data[b]
  {
    var i :| 0 <= i < |contents| && contents[i] == a;
    var j :| 0 <= j < |contents| && contents[j] == b;
  }

  lemma {:induction false} WithoutIs(s: seq<string>, key: string)
    requires Distinct(s)
    ensures Distinct(Without(s, key))
    ensures forall x :: x in Without(s, key) <==> x in s && x != key
  {
    if s == [] {
    } else {
      var init, last := s[..|s| - 1], s[|s| - 1];
      WithoutIs(init, key);
      assert s == init + [last];
      assert last !in init by {
        assert forall k :: 0 <= k < |init| ==> init[k] == s[k];
      }
      var rest := Without(init, key);
      assert forall k :: 0 <= k < |rest| ==> rest[k] in rest;
    }
  }

  ghost predicate AscendingIn(data: map<string, nat>, s: seq<string>) {
    && (forall x <- s :: x in data)
    && (forall i, j :: 0 <= i < j < |s| ==> data[s[i]] < data[s[j]])
  }

  lemma WithoutKeepsOrder(s: seq<string>, key: string, data: map<string, nat>)
    requires AscendingIn(data, s)
    ensures AscendingIn(data, Without(s, key))
  {
    WithoutKeepsRanks(s, key, x => if x in data then data[x] else 0);
    var rest := Without(s, key);
    assert forall k :: 0 <= k < |rest| ==> rest[k] in rest;
  }

  // ---------- any history of adds and removes ----------

  datatype Op = Adding(key: string) | Removing(key: string)

  function Replayed(ops: seq<Op>): seq<string> {
    if ops == [] then [] else
      var before := Replayed(ops[..|ops| - 1]);
      match ops[|ops| - 1]
      case Adding(key) => Appended(before, key)
      case Removing(key) => Without(before, key)
  }

  /** When the key entered for the stay that still lasts: its first addition after its last removal.
      Nothing if it was never added, or is removed. */
  function EnteredAt(ops: seq<Op>, key: string): int {
    if ops == [] then -1 else
      var before, last := EnteredAt(ops[..|ops| - 1], key), ops[|ops| - 1];
      if last.key != key then before
      else if last.Removing? then -1
      else if before == -1 then |ops| - 1
      else before
  }

  /** The entries are the keys that stay, by the time they entered: a key that is removed and added again
      moves to the end, one that is added twice does not move. */
  lemma {:induction false} ListsByEntryTime(ops: seq<Op>)
    ensures forall key :: key in Replayed(ops) <==> EnteredAt(ops, key) >= 0
    ensures forall key :: -1 <= EnteredAt(ops, key) < |ops|
    ensures StrictlyAscending(Replayed(ops), (a, b) => EnteredAt(ops, a) < EnteredAt(ops, b))
  {
    if ops == [] {
    } else {
      var init, last := ops[..|ops| - 1], ops[|ops| - 1];
      ListsByEntryTime(init);
      StaysDistinct(init);
      var before, now := Replayed(init), Replayed(ops);
      WithoutIs(before, last.key);
      forall i, j | 0 <= i < j < |now| ensures EnteredAt(ops, now[i]) < EnteredAt(ops, now[j]) {
        if last.Removing? {
          WithoutKeepsRanks(before, last.key, key => EnteredAt(init, key));
        }
        assert now[i] in now && now[j] in now;
      }
    }
  }

  lemma {:induction false} StaysDistinct(ops: seq<Op>)
    ensures Distinct(Replayed(ops))
  {
    if ops == [] {
    } else {
      StaysDistinct(ops[..|ops| - 1]);
      WithoutIs(Replayed(ops[..|ops| - 1]), ops[|ops| - 1].key);
    }
  }

  lemma {:induction false} WithoutKeepsRanks(s: seq<string>, key: string, rank: string -> int)
    requires StrictlyAscending(s, (a, b) => rank(a) < rank(b))
    ensures StrictlyAscending(Without(s, key), (a, b) => rank(a) < rank(b))
    ensures forall x <- Without(s, key) :: x in s
  {
    if s == [] {
    } else {
      var init, last := s[..|s| - 1], s[|s| - 1];
      assert forall k :: 0 <= k < |init| ==> init[k] == s[k];
      WithoutKeepsRanks(init, key, rank);
      var rest := Without(init, key);
      forall k | 0 <= k < |rest| ensures rank(rest[k]) < rank(last) {
        assert rest[k] in init;
      }
      assert forall x <- init :: x in s;
    }
  }
}
