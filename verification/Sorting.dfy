/** Go's `sort.Slice` and `sort.Strings`, by what they promise: an ascending rearrangement. */
module Sorting {
  import opened Common

  /** `less` is a strict weak order. */
  ghost predicate Order<T(!new)>(less: (T, T) -> bool) {
    && (forall x, y :: less(x, y) ==> !less(y, x))
    && (forall x, y, z :: !less(y, x) && !less(z, y) ==> !less(z, x))
  }

  predicate Ascending<T>(s: seq<T>, less: (T, T) -> bool) {
    forall i, j :: 0 <= i < j < |s| ==> !less(s[j], s[i])
  }

  function Insert<T>(x: T, s: seq<T>, less: (T, T) -> bool): seq<T> {
    if s == [] || less(x, s[0]) then [x] + s else [s[0]] + Insert(x, s[1..], less)
  }

  lemma {:induction false} InsertAdds<T>(x: T, s: seq<T>, less: (T, T) -> bool)
    ensures multiset(Insert(x, s, less)) == multiset(s) + multiset{x}
  {
    if s == [] || less(x, s[0]) {
    } else {
      InsertAdds(x, s[1..], less);
      assert s == [s[0]] + s[1..];
    }
  }

  lemma {:induction false} InsertKeeps<T(!new)>(x: T, s: seq<T>, less: (T, T) -> bool)
    requires Order(less) && Ascending(s, less)
    ensures Ascending(Insert(x, s, less), less)
  {
    if s == [] || less(x, s[0]) {
    } else {
      InsertKeeps(x, s[1..], less);
      InsertAdds(x, s[1..], less);
      var rest := Insert(x, s[1..], less);
      forall k | 0 <= k < |rest| ensures !less(rest[k], s[0]) {
        assert rest[k] in multiset(rest);
        assert rest[k] == x || rest[k] in s[1..];
      }
    }
  }

  method SortSlice<T(!new)>(s: seq<T>, less: (T, T) -> bool) returns (r: seq<T>)
    requires Order(less)
    ensures Ascending(r, less) && multiset(r) == multiset(s)
  {
    r := [];
    for i := 0 to |s|
      invariant Ascending(r, less) && multiset(r) == multiset(s[..i])
    {
      InsertKeeps(s[i], r, less);
      InsertAdds(s[i], r, less);
      r := Insert(s[i], r, less);
      assert s[..i + 1] == s[..i] + [s[i]];
    }
    assert s[..|s|] == s;
  }

  lemma SameElements<T>(a: seq<T>, b: seq<T>)
    requires multiset(a) == multiset(b)
    ensures |a| == |b| && forall x :: x in a <==> x in b
  {
    assert |a| == |multiset(a)| == |multiset(b)| == |b|;
    assert forall x :: x in a <==> x in multiset(a);
    assert forall x :: x in b <==> x in multiset(b);
  }

  // ---------- strings ----------

  /** Go compares strings byte by byte; a proper prefix comes first. */
  predicate Below(a: string, b: string) {
    if b == "" then false
    else if a == "" then true
    else a[0] < b[0] || (a[0] == b[0] && Below(a[1..], b[1..]))
  }

  /** At their first difference a has the smaller character, or a ends there. */
  predicate DiffersAt(a: string, b: string, k: nat) {
    k <= |a| && k < |b| && a[..k] == b[..k] && (k == |a| || a[k] < b[k])
  }

  lemma {:induction false} BelowIsLexicographic(a: string, b: string)
    ensures Below(a, b) <==> exists k: nat :: DiffersAt(a, b, k)
  {
    if a == "" || b == "" || a[0] != b[0] {
      assert DiffersAt(a, b, 0) <==> Below(a, b);
    } else {
      BelowIsLexicographic(a[1..], b[1..]);
      if k: nat :| DiffersAt(a[1..], b[1..], k) {
        assert a[..k + 1] == [a[0]] + a[1..][..k] && b[..k + 1] == [b[0]] + b[1..][..k];
        assert DiffersAt(a, b, k + 1);
      }
      if k: nat :| DiffersAt(a, b, k) {
        assert k > 0 && a[1..][..k - 1] == a[..k][1..] && b[1..][..k - 1] == b[..k][1..];
        assert DiffersAt(a[1..], b[1..], k - 1);
      }
    }
  }

  lemma {:induction false} BelowIsStrict(a: string, b: string)
    ensures !(Below(a, b) && Below(b, a))
    ensures a != b ==> Below(a, b) || Below(b, a)
  {
    if a != "" && b != "" {
      BelowIsStrict(a[1..], b[1..]);
      SameTails(a, b);
    }
  }

  lemma BelowChains(a: string, b: string, c: string)
    requires !Below(b, a) && !Below(c, b)
    ensures !Below(c, a)
  {
    if a != "" && b != "" && c != "" && a[0] == b[0] && b[0] == c[0] {
      BelowChains(a[1..], b[1..], c[1..]);
    }
  }

  lemma BelowIsOrder()
    ensures Order(Below)
  {
    forall x: string, y: string ensures Below(x, y) ==> !Below(y, x) {
      BelowIsStrict(x, y);
    }
    forall x: string, y: string, z: string | !Below(y, x) && !Below(z, y) ensures !Below(z, x) {
      BelowChains(x, y, z);
    }
  }

  method SortStrings(s: seq<string>) returns (r: seq<string>)
    ensures multiset(r) == multiset(s) && Ascending(r, Below)
    ensures Distinct(s) ==> StrictlyAscending(r, Below)
  {
    BelowIsOrder();
    r := SortSlice(s, Below);
    if Distinct(s) {
      DistinctStays(s, r);
      forall i, j | 0 <= i < j < |r| ensures Below(r[i], r[j]) {
        BelowIsStrict(r[i], r[j]);
      }
    }
  }

  // ---------- lists without repetitions ----------

  predicate Distinct<T(==)>(s: seq<T>) { forall i, j :: 0 <= i < j < |s| ==> s[i] != s[j] }

  predicate StrictlyAscending<T>(s: seq<T>, less: (T, T) -> bool) {
    forall i, j :: 0 <= i < j < |s| ==> less(s[i], s[j])
  }

  lemma DistinctStays<T>(s: seq<T>, r: seq<T>)
    requires multiset(s) == multiset(r) && Distinct(s)
    ensures Distinct(r)
  {
    forall i, j | 0 <= i < j < |r| ensures r[i] != r[j] {
      if r[i] == r[j] {
        TwiceCounted(r, i, j);
        OnceCounted(s, r[i]);
      }
    }
  }

  lemma TwiceCounted<T>(r: seq<T>, i: nat, j: nat)
    requires i < j < |r| && r[i] == r[j]
    ensures multiset(r)[r[i]] >= 2
  {
    assert r == r[..i] + [r[i]] + r[i + 1..j] + [r[j]] + r[j + 1..];
  }

  lemma {:induction false} OnceCounted<T>(s: seq<T>, x: T)
    requires Distinct(s)
    ensures multiset(s)[x] <= 1
  {
    if s == [] {
    } else {
      var init := s[..|s| - 1];
      assert s == init + [s[|s| - 1]];
      OnceCounted(init, x);
      if s[|s| - 1] == x {
        assert x !in init;
      }
    }
  }

  /** An ascending list without repetitions is determined by its elements. */
  lemma {:induction false} AscendingIsUnique<T(!new)>(a: seq<T>, b: seq<T>, less: (T, T) -> bool)
    requires Order(less) && StrictlyAscending(a, less) && StrictlyAscending(b, less)
    requires forall x :: x in a <==> x in b
    ensures a == b
  {
    HeadIn(a);
    HeadIn(b);
    if a == [] {
    } else {
      FirstIsLeast(a, b[0], less);
      FirstIsLeast(b, a[0], less);
      forall x ensures x in a[1..] <==> x in b[1..] {
        RestIsOther(a, x, less);
        RestIsOther(b, x, less);
      }
      AscendingIsUnique(a[1..], b[1..], less);
      SameTails(a, b);
    }
  }

  lemma SameTails<T>(a: seq<T>, b: seq<T>)
    requires a != [] && b != []
    ensures a[0] == b[0] && a[1..] == b[1..] ==> a == b
  {
    assert a == [a[0]] + a[1..] && b == [b[0]] + b[1..];
  }

  lemma FirstIsLeast<T>(s: seq<T>, x: T, less: (T, T) -> bool)
    requires StrictlyAscending(s, less) && x in s
    ensures s[0] == x || less(s[0], x)
  {
  }

  lemma RestIsOther<T(!new)>(s: seq<T>, x: T, less: (T, T) -> bool)
    requires Order(less) && StrictlyAscending(s, less) && s != []
    ensures x in s[1..] <==> x in s && x != s[0]
  {
    assert !less(s[0], s[0]);
    assert s == [s[0]] + s[1..];
  }
}
