/** Extracting an email from the formatted fields of a server reply (core/email.go). The reference
    definition below looks at the kinds of fields only; the field collector and its loop are proved
    to agree with it. */
module EmailFields {
  import opened Common

  const EXPECTED_FIELDS := 6
  const HEADER_MARK := "rfc822"

  // ---------- the reference definition ----------

  function NumberIn(field: Field): seq<uint32> { if field.Number? then [field.n] else [] }
  function MomentIn(field: Field): seq<int64> { if field.Moment? then [field.unix] else [] }
  function OtherIn(field: Field): seq<string> { if field.Other? then [field.text] else [] }

  function Numbers(fields: seq<Field>): seq<uint32> {
    if fields == [] then [] else Numbers(fields[..|fields| - 1]) + NumberIn(fields[|fields| - 1])
  }

  function Moments(fields: seq<Field>): seq<int64> {
    if fields == [] then [] else Moments(fields[..|fields| - 1]) + MomentIn(fields[|fields| - 1])
  }

  function Others(fields: seq<Field>): seq<string> {
    if fields == [] then [] else Others(fields[..|fields| - 1]) + OtherIn(fields[|fields| - 1])
  }

  function Raws(fields: seq<Field>): nat {
    if fields == [] then 0
    else Raws(fields[..|fields| - 1]) + if fields[|fields| - 1].Raw? then 1 else 0
  }

  lemma KindsOfOneMore(fields: seq<Field>, field: Field)
    ensures Numbers(fields + [field]) == Numbers(fields) + NumberIn(field)
    ensures Moments(fields + [field]) == Moments(fields) + MomentIn(field)
    ensures Others(fields + [field]) == Others(fields) + OtherIn(field)
  {
    assert (fields + [field])[..|fields|] == fields;
  }

  function Lower(c: char): char { if 'A' <= c <= 'Z' then c - 'A' + 'a' else c }

  predicate MarkAt(text: string, k: nat)
    requires k + |HEADER_MARK| <= |text|
  {
    forall j :: 0 <= j < |HEADER_MARK| ==> Lower(text[k + j]) == HEADER_MARK[j]
  }

  /** "contains rfc822 ignoring case": no character outside ASCII has r, f or c as lower case. */
  predicate IsHeader(text: string) {
    exists k :: 0 <= k <= |text| - |HEADER_MARK| && MarkAt(text, k)
  }

  /** One number, one time, two raw strings, and two others: the header and the body. */
  predicate IsEmail(fields: seq<Field>) {
    && |Numbers(fields)| == 1 && |Moments(fields)| == 1 && Raws(fields) == 2
    && |Others(fields)| == 2 && IsHeader(Others(fields)[0])
  }

  function Extract(fields: seq<Field>, uidFolder: int64): Result<(string, Oldmail)> {
    if IsEmail(fields) then
      Ok((Others(fields)[1], Oldmail(uidFolder, Numbers(fields)[0], Moments(fields)[0])))
    else
      Err
  }

  lemma {:induction false} KindsAddUp(fields: seq<Field>)
    ensures |fields| == |Numbers(fields)| + |Moments(fields)| + |Others(fields)| + Raws(fields)
  {
    if fields == [] {
    } else {
      KindsAddUp(fields[..|fields| - 1]);
    }
  }

  // ---------- the collector ----------

  /** `email`: what has been collected so far. */
  class Email {
    var uid: int64
    var timestamp: int64
    var rfc822: string
    var setUID: bool
    var setTimestamp: bool
    var setRFC822: bool
    var seenHeader: bool

    constructor ()
      ensures Holds([])
    {
      setUID, setTimestamp, setRFC822, seenHeader := false, false, false, false;
      rfc822 := "";
    }

    /** The members are what the fields seen so far amount to. */
    ghost predicate Holds(fields: seq<Field>)
      reads this
    {
      && Numbers(fields) == (if setUID then [uid] else [])
      && Moments(fields) == (if setTimestamp then [timestamp] else [])
      && (setRFC822 ==> seenHeader)
      && |Others(fields)| == (if setRFC822 then 2 else if seenHeader then 1 else 0)
      && (seenHeader ==> IsHeader(Others(fields)[0]))
      && (setRFC822 ==> Others(fields)[1] == rfc822)
    }

    /** A field is refused exactly when its kind is used up or the header is not one. */
    method Set(value: Field, ghost seen: seq<Field>) returns (ok: bool)
      requires Holds(seen)
      modifies this
      ensures ok <==>
              match value
              case Number(_) => Numbers(seen) == []
              case Moment(_) => Moments(seen) == []
              case Raw(_) => true
              case Other(text) => |Others(seen)| < 2 && (Others(seen) == [] ==> IsHeader(text))
      ensures ok ==> Holds(seen + [value])
    {
      KindsOfOneMore(seen, value);
      hide Numbers, Moments, Others, IsHeader;
      match value {
        case Number(n) =>
          if setUID { return false; }
          uid, setUID := n, true;
        case Moment(t) =>
          if setTimestamp { return false; }
          timestamp, setTimestamp := t, true;
        case Raw(_) =>
        case Other(text) =>
          if !seenHeader {
            if !IsHeader(text) { return false; }
            seenHeader := true;
            return true;
          }
          if setRFC822 { return false; }
          rfc822, setRFC822 := text, true;
      }
      return true;
    }

    predicate Validate()
      reads this
    {
      setUID && setTimestamp && setRFC822
    }
  }

  lemma {:induction false} KindsGrow(fields: seq<Field>, n: nat)
    requires n <= |fields|
    ensures Numbers(fields[..n]) <= Numbers(fields) && Moments(fields[..n]) <= Moments(fields)
    ensures Others(fields[..n]) <= Others(fields)
    decreases |fields|
  {
    if n < |fields| {
      var shorter := fields[..|fields| - 1];
      assert shorter[..n] == fields[..n];
      KindsGrow(shorter, n);
    } else {
      assert fields[..n] == fields;
    }
  }

  /** A refused field means that the whole reply is not an email. */
  lemma RefusedSpoils(fields: seq<Field>, n: nat)
    requires n < |fields|
    requires match fields[n]
             case Number(_) => Numbers(fields[..n]) != []
             case Moment(_) => Moments(fields[..n]) != []
             case Raw(_) => false
             case Other(text) =>
               |Others(fields[..n])| >= 2 || (Others(fields[..n]) == [] && !IsHeader(text))
    ensures !IsEmail(fields)
  {
    assert fields[..n + 1][..n] == fields[..n];
    KindsGrow(fields, n + 1);
  }

  // ---------- where the values come from ----------

  /** The six letters, in upper or lower case. */
  predicate MarkedAt(text: string, k: nat) {
    && k + 6 <= |text| && text[k] in {'r', 'R'} && text[k + 1] in {'f', 'F'} && text[k + 2] in {'c', 'C'}
    && text[k + 3] == '8' && text[k + 4] == '2' && text[k + 5] == '2'
  }

  /** Six fields: the UID at n, the time at t, the header at i and the body behind it at j, and raw strings at the
      other two places. */
  ghost predicate EmailAt(fields: seq<Field>, n: int, t: int, i: int, j: int) {
    && |fields| == 6 && 0 <= n < 6 && 0 <= t < 6 && 0 <= i < j < 6
    && fields[n].Number? && fields[t].Moment? && fields[i].Other? && fields[j].Other?
    && (forall k :: 0 <= k < 6 && k != n && k != t && k != i && k != j ==> fields[k].Raw?)
    && exists k :: MarkedAt(fields[i].text, k)
  }

  lemma MarkIs(text: string, k: nat)
    ensures MarkedAt(text, k) <==> k + |HEADER_MARK| <= |text| && MarkAt(text, k)
  {
    assert HEADER_MARK == ['r', 'f', 'c', '8', '2', '2'];
    if k + |HEADER_MARK| <= |text| && MarkAt(text, k) {
      assert Lower(text[k + 0]) == HEADER_MARK[0] && Lower(text[k + 1]) == HEADER_MARK[1];
      assert Lower(text[k + 2]) == HEADER_MARK[2] && Lower(text[k + 3]) == HEADER_MARK[3];
      assert Lower(text[k + 4]) == HEADER_MARK[4] && Lower(text[k + 5]) == HEADER_MARK[5];
    }
    if MarkedAt(text, k) {
      forall m | 0 <= m < |HEADER_MARK| ensures Lower(text[k + m]) == HEADER_MARK[m] {
        assert m == 0 || m == 1 || m == 2 || m == 3 || m == 4 || m == 5;
      }
    }
  }

  lemma HeaderIs(text: string)
    ensures IsHeader(text) <==> exists k :: MarkedAt(text, k)
  {
    if IsHeader(text) {
      var k :| 0 <= k <= |text| - |HEADER_MARK| && MarkAt(text, k);
      MarkIs(text, k);
    }
    if k: nat :| MarkedAt(text, k) {
      MarkIs(text, k);
    }
  }

  lemma {:induction false} NoneOfKind(fields: seq<Field>)
    ensures Numbers(fields) == [] <==> forall f <- fields :: !f.Number?
    ensures Moments(fields) == [] <==> forall f <- fields :: !f.Moment?
    ensures Others(fields) == [] <==> forall f <- fields :: !f.Other?
  {
    if fields == [] {
    } else {
      NoneOfKind(fields[..|fields| - 1]);
      assert fields == fields[..|fields| - 1] + [fields[|fields| - 1]];
    }
  }

  lemma {:induction false} NumberOf(fields: seq<Field>) returns (n: nat)
    requires |Numbers(fields)| == 1
    ensures n < |fields| && fields[n].Number? && Numbers(fields) == [fields[n].n]
    ensures forall k :: 0 <= k < |fields| && k != n ==> !fields[k].Number?
  {
    var init, last := fields[..|fields| - 1], fields[|fields| - 1];
    if last.Number? {
      n := |init|;
      NoneOfKind(init);
      assert forall k :: 0 <= k < |init| ==> fields[k] in init;
    } else {
      n := NumberOf(init);
      assert forall k :: 0 <= k < |init| ==> init[k] == fields[k];
    }
  }

  lemma {:induction false} MomentOf(fields: seq<Field>) returns (t: nat)
    requires |Moments(fields)| == 1
    ensures t < |fields| && fields[t].Moment? && Moments(fields) == [fields[t].unix]
    ensures forall k :: 0 <= k < |fields| && k != t ==> !fields[k].Moment?
  {
    var init, last := fields[..|fields| - 1], fields[|fields| - 1];
    if last.Moment? {
      t := |init|;
      NoneOfKind(init);
      assert forall k :: 0 <= k < |init| ==> fields[k] in init;
    } else {
      t := MomentOf(init);
      assert forall k :: 0 <= k < |init| ==> init[k] == fields[k];
    }
  }

  lemma {:induction false} LastOther(fields: seq<Field>) returns (j: nat)
    requires Others(fields) != []
    ensures j < |fields| && fields[j].Other? && Others(fields) == Others(fields[..j]) + [fields[j].text]
    ensures forall k :: j < k < |fields| ==> !fields[k].Other?
  {
    var init, last := fields[..|fields| - 1], fields[|fields| - 1];
    if last.Other? {
      j := |init|;
    } else {
      j := LastOther(init);
      assert init[..j] == fields[..j] && forall k :: 0 <= k < |init| ==> init[k] == fields[k];
    }
  }

  lemma OthersOf(fields: seq<Field>) returns (i: nat, j: nat)
    requires |Others(fields)| == 2
    ensures i < j < |fields| && fields[i].Other? && fields[j].Other?
    ensures Others(fields) == [fields[i].text, fields[j].text]
    ensures forall k :: 0 <= k < |fields| && k != i && k != j ==> !fields[k].Other?
  {
    j := LastOther(fields);
    var init := fields[..j];
    i := LastOther(init);
    NoneOfKind(init[..i]);
    assert forall k :: 0 <= k < j ==> init[k] == fields[k];
    assert forall k :: 0 <= k < i ==> fields[k] in init[..i];
  }

  lemma EmailIsSomewhere(fields: seq<Field>) returns (n: nat, t: nat, i: nat, j: nat)
    requires IsEmail(fields)
    ensures EmailAt(fields, n, t, i, j)
    ensures Numbers(fields) == [fields[n].n] && Moments(fields) == [fields[t].unix]
    ensures Others(fields) == [fields[i].text, fields[j].text]
  {
    hide Numbers, Moments, Others, Raws, MarkedAt;
    KindsAddUp(fields);
    n := NumberOf(fields);
    t := MomentOf(fields);
    i, j := OthersOf(fields);
    HeaderIs(fields[i].text);
  }

  lemma {:induction false} CountsOfKinds(fields: seq<Field>, n: nat, t: nat, i: nat, j: nat)
    requires forall k :: 0 <= k < |fields| ==> (fields[k].Number? <==> k == n) && (fields[k].Moment? <==> k == t)
    requires forall k :: 0 <= k < |fields| ==> (fields[k].Other? <==> k == i || k == j)
    requires i < j
    ensures |Numbers(fields)| == One(n < |fields|) && |Moments(fields)| == One(t < |fields|)
    ensures |Others(fields)| == One(i < |fields|) + One(j < |fields|)
  {
    if fields == [] {
    } else {
      CountsOfKinds(fields[..|fields| - 1], n, t, i, j);
    }
  }

  /** The values are those of the fields, and there is one place only for each of them. */
  lemma EmailIsThere(fields: seq<Field>, n: int, t: int, i: int, j: int, uidFolder: int64)
    requires EmailAt(fields, n, t, i, j)
    ensures Extract(fields, uidFolder) == Ok((fields[j].text, Oldmail(uidFolder, fields[n].n, fields[t].unix)))
  {
    CountsOfKinds(fields, n, t, i, j);
    KindsAddUp(fields);
    hide Numbers, Moments, Others, Raws, MarkedAt;
    var n' := NumberOf(fields);
    var t' := MomentOf(fields);
    var i', j' := OthersOf(fields);
    HeaderIs(fields[i].text);
  }

  lemma ExtractIsAt(fields: seq<Field>, uidFolder: int64)
    ensures Extract(fields, uidFolder).Ok? <==> exists n, t, i, j :: EmailAt(fields, n, t, i, j)
    ensures forall n, t, i, j :: EmailAt(fields, n, t, i, j) ==>
              Extract(fields, uidFolder) == Ok((fields[j].text, Oldmail(uidFolder, fields[n].n, fields[t].unix)))
  {
    hide Numbers, Moments, Others, Raws, IsHeader, MarkedAt;
    if IsEmail(fields) {
      var n, t, i, j := EmailIsSomewhere(fields);
    }
    forall n, t, i, j | EmailAt(fields, n, t, i, j)
      ensures Extract(fields, uidFolder) == Ok((fields[j].text, Oldmail(uidFolder, fields[n].n, fields[t].unix)))
    {
      EmailIsThere(fields, n, t, i, j, uidFolder);
    }
  }

  /** `rfc822FromEmail`: succeeds exactly if there is one place for each value among six fields, and takes the UID,
      the time stamp and the body from there. */
  method Rfc822FromEmail(fields: seq<Field>, uidFolder: int64) returns (r: Result<(string, Oldmail)>)
    ensures r == Extract(fields, uidFolder)
    ensures r.Ok? <==> exists n, t, i, j :: EmailAt(fields, n, t, i, j)
    ensures forall n, t, i, j :: EmailAt(fields, n, t, i, j) ==>
              r == Ok((fields[j].text, Oldmail(uidFolder, fields[n].n, fields[t].unix)))
  {
    ExtractIsAt(fields, uidFolder);
    KindsAddUp(fields);
    hide Numbers, Moments, Others, Raws, IsHeader, EmailAt;
    if |fields| != EXPECTED_FIELDS { return Err; }
    var email := new Email();
    for i := 0 to |fields|
      invariant email.Holds(fields[..i])
    {
      var ok := email.Set(fields[i], fields[..i]);
      if !ok {
        RefusedSpoils(fields, i);
        return Err;
      }
      assert fields[..i] + [fields[i]] == fields[..i + 1];
    }
    assert fields[..|fields|] == fields;
    if !email.Validate() { return Err; }
    return Ok((email.rfc822, Oldmail(uidFolder, email.uid, email.timestamp)));
  }

  // ---------- order does not matter ----------

  lemma Count<T>(s: seq<T>, t: seq<T>, x: T)
    requires |t| <= 1
    ensures multiset(s + t)[x] == multiset(s)[x] + if t == [x] then 1 else 0
  {
    assert multiset(s + t) == multiset(s) + multiset(t);
    assert t != [] ==> t == [t[0]];
  }

  lemma CountLast<T>(s: seq<T>, x: T)
    requires s != []
    ensures multiset(s)[x] == multiset(s[..|s| - 1])[x] + if s[|s| - 1] == x then 1 else 0
  {
    assert s == s[..|s| - 1] + [s[|s| - 1]];
  }

  lemma {:induction false} NumbersAsMultiset(fields: seq<Field>, n: uint32)
    ensures multiset(Numbers(fields))[n] == multiset(fields)[Number(n)]
  {
    if fields == [] {
    } else {
      var init, last := fields[..|fields| - 1], fields[|fields| - 1];
      NumbersAsMultiset(init, n);
      Count(Numbers(init), NumberIn(last), n);
      CountLast(fields, Number(n));
    }
  }

  lemma {:induction false} MomentsAsMultiset(fields: seq<Field>, t: int64)
    ensures multiset(Moments(fields))[t] == multiset(fields)[Moment(t)]
  {
    if fields == [] {
    } else {
      var init, last := fields[..|fields| - 1], fields[|fields| - 1];
      MomentsAsMultiset(init, t);
      Count(Moments(init), MomentIn(last), t);
      CountLast(fields, Moment(t));
    }
  }

  lemma SameMultiset<T>(a: seq<T>, b: seq<T>)
    requires multiset(a) == multiset(b)
    ensures |a| == |b| && (|a| == 1 ==> a == b)
  {
    assert |a| == |multiset(a)| == |multiset(b)| == |b|;
    if |a| == 1 {
      assert a[0] in multiset(b);
    }
  }

  /** However the kinds of fields interleave, the result is the same: it is enough that the two
      replies hold the same fields and give the header and body in the same order. */
  lemma OrderInsensitive(a: seq<Field>, b: seq<Field>, uidFolder: int64)
    requires multiset(a) == multiset(b) && Others(a) == Others(b)
    ensures Extract(a, uidFolder) == Extract(b, uidFolder)
  {
    hide Numbers, Moments, Others, Raws, IsHeader;
    forall n: uint32 ensures multiset(Numbers(a))[n] == multiset(Numbers(b))[n] {
      NumbersAsMultiset(a, n);
      NumbersAsMultiset(b, n);
    }
    SameMultiset(Numbers(a), Numbers(b));
    forall t: int64 ensures multiset(Moments(a))[t] == multiset(Moments(b))[t] {
      MomentsAsMultiset(a, t);
      MomentsAsMultiset(b, t);
    }
    SameMultiset(Moments(a), Moments(b));
    SameMultiset(a, b);
    KindsAddUp(a);
    KindsAddUp(b);
  }
}
