/** Decimal integers as `fmt` prints them with `%d` and scans them back. */
module Decimal {
  import opened Common

  predicate IsDigit(c: char) { '0' <= c <= '9' }

  ghost predicate AllDigits(s: string) { forall k :: 0 <= k < |s| ==> IsDigit(s[k]) }

  function Digit(d: nat): char
    requires d < 10
  {
    '0' + d as char
  }

  function PrintNat(n: nat): string {
    if n < 10 then [Digit(n)] else PrintNat(n / 10) + [Digit(n % 10)]
  }

  function Print(i: int): string {
    if i < 0 then "-" + PrintNat(-i) else PrintNat(i)
  }

  function Value(s: string): nat
    requires AllDigits(s)
  {
    if s == "" then 0 else 10 * Value(s[..|s| - 1]) + (s[|s| - 1] - '0') as nat
  }

  /** The length of the longest prefix of digits. */
  function DigitRun(s: string): (n: nat)
    ensures n <= |s| && AllDigits(s[..n])
    ensures n < |s| ==> !IsDigit(s[n])
  {
    if s == "" || !IsDigit(s[0]) then 0 else
      var n := DigitRun(s[1..]);
      assert s[..n + 1] == [s[0]] + s[1..][..n];
      n + 1
  }

  function SignLength(s: string): (n: nat)
    ensures n <= |s|
  {
    if s != "" && (s[0] == '-' || s[0] == '+') then 1 else 0
  }

  /** Scan an optional sign and at least one digit, and return what follows. */
  function Scan(s: string): Option<(int, string)> {
    var sign := SignLength(s);
    var n := DigitRun(s[sign..]);
    if n == 0 then None else
      var v: int := Value(s[sign..][..n]);
      Some((if sign == 1 && s[0] == '-' then -v else v, s[sign..][n..]))
  }

  lemma Slices(s: string, t: string, k: nat)
    requires k <= |s|
    ensures (s + t)[..k] == s[..k] && (s + t)[k..] == s[k..] + t
  {
  }

  lemma {:induction false} PrintNatValue(n: nat)
    ensures PrintNat(n) != "" && AllDigits(PrintNat(n)) && Value(PrintNat(n)) == n
  {
    if n < 10 {
    } else {
      PrintNatValue(n / 10);
      assert PrintNat(n)[..|PrintNat(n)| - 1] == PrintNat(n / 10);
    }
  }

  lemma {:induction false} DigitRunIs(s: string, n: nat)
    requires n <= |s| && (forall k :: 0 <= k < n ==> IsDigit(s[k])) && (n < |s| ==> !IsDigit(s[n]))
    ensures DigitRun(s) == n
  {
    if n == 0 {
    } else {
      DigitRunIs(s[1..], n - 1);
    }
  }

  lemma ScanDigits(sign: string, body: string, rest: string)
    requires sign == "" || sign == "-" || sign == "+"
    requires body != "" && AllDigits(body) && (rest == "" || !IsDigit(rest[0]))
    ensures Scan(sign + (body + rest)) ==
            Some((if sign == "-" then -(Value(body) as int) else Value(body), rest))
  {
    hide Value;
    DigitRunIs(body + rest, |body|);
    hide DigitRun;
    var s := sign + (body + rest);
    assert s[|sign|..] == body + rest;
    assert (body + rest)[..|body|] == body;
    assert (body + rest)[|body|..] == rest;
  }

  /** Scanning reads a printed number back and stops right behind it. */
  lemma ScanPrinted(i: int, rest: string)
    requires rest == "" || !IsDigit(rest[0])
    ensures Scan(Print(i) + rest) == Some((i, rest))
  {
    hide PrintNat, Scan, Value;
    var n: nat := if i < 0 then -i else i;
    PrintNatValue(n);
    if i < 0 {
      ScanDigits("-", PrintNat(n), rest);
      Concats("-", PrintNat(n), rest);
    } else {
      ScanDigits("", PrintNat(n), rest);
      Concats(PrintNat(n) + rest, "", "");
    }
  }

  lemma RunExtends(t: string, more: string)
    requires DigitRun(t) < |t|
    ensures DigitRun(t + more) == DigitRun(t)
  {
    var n := DigitRun(t);
    assert forall k :: 0 <= k < n ==> t[k] == t[..n][k];
    DigitRunIs(t + more, n);
  }

  /** A number that is followed by something is scanned the same whatever comes after that. */
  lemma ScanExtends(s: string, more: string)
    requires Scan(s).Some? && Scan(s).value.1 != ""
    ensures Scan(s + more) == Some((Scan(s).value.0, Scan(s).value.1 + more))
  {
    var sign := SignLength(s);
    Slices(s, more, sign);
    RunExtends(s[sign..], more);
    Slices(s[sign..], more, DigitRun(s[sign..]));
    hide DigitRun, Value;
  }

  /** Scanning never swallows a character that is neither sign nor digit. */
  lemma ScanKeeps(s: string, c: char)
    requires Scan(s).Some? && c in s && !IsDigit(c) && c != '-' && c != '+'
    ensures c in Scan(s).value.1
  {
    var t := s[SignLength(s)..];
    var k :| 0 <= k < |s| && s[k] == c;
    assert t[k - SignLength(s)] == c;
    assert t[DigitRun(t)..][k - SignLength(s) - DigitRun(t)] == c;
  }

  lemma PrintHasOnly(i: int, c: char)
    requires !IsDigit(c) && c != '-'
    ensures c !in Print(i)
  {
    PrintNatValue(if i < 0 then -i else i);
  }

  /** Numbers are printed in base ten, the leading digit first, without leading zeros. */
  lemma PrintIs(n: int, d: nat)
    requires n >= 0 && d < 10
    ensures Print(d) == ["0123456789"[d]]
    ensures n > 0 ==> Print(10 * n + d) == Print(n) + ["0123456789"[d]]
    ensures n > 0 ==> Print(-n) == "-" + Print(n)
  {
    assert (10 * n + d) / 10 == n && (10 * n + d) % 10 == d;
    DigitIs(d);
  }

  lemma DigitIs(d: nat)
    requires d < 10
    ensures Digit(d) == "0123456789"[d]
  {
    assert d == 0 || d == 1 || d == 2 || d == 3 || d == 4 || d == 5 || d == 6 || d == 7 || d == 8 || d == 9;
  }
}
