/** Unique file names for deliveries, core/maildir.go:41-96, and the counter behind them,
    core/threading.go:58-75. */
module UniqueNames {
  import opened Common
  import Decimal

  type byte = n: int | 0 <= n < 256

  /** The clock, the process and the random source at the time of one call. */
  datatype Moment = Moment(seconds: int, micros: nat, pid: nat)

  // ---------- the text of a name ----------

  function ReplaceAll(s: string, c: char, sub: string): string {
    if s == "" then "" else (if s[0] == c then sub else [s[0]]) + ReplaceAll(s[1..], c, sub)
  }

  function Escaped(hostname: string): string {
    ReplaceAll(ReplaceAll(hostname, '/', "\\057"), ':', "\\072")
  }

  function HexDigit(d: nat): char
    requires d < 16
  {
    "0123456789abcdef"[d]
  }

  function Hex(bytes: seq<byte>): string {
    if bytes == [] then "" else [HexDigit(bytes[0] / 16), HexDigit(bytes[0] % 16)] + Hex(bytes[1..])
  }

  function Name(now: Moment, count: int, hex: string, host: string): string {
    Decimal.Print(now.seconds) + ".M" + Decimal.Print(now.micros) + "P" + Decimal.Print(now.pid)
    + "Q" + Decimal.Print(count) + "R" + hex + "." + host
  }

  // ---------- a name can be decoded ----------

  /** Scan a number and the letters behind it. */
  function Skip(s: string, mark: string): Option<(int, string)> {
    match Decimal.Scan(s)
    case None => None
    case Some((n, rest)) => if mark <= rest then Some((n, rest[|mark|..])) else None
  }

  /** The delivery count in a name. */
  function CountIn(name: string): Option<int> {
    match Skip(name, ".M")
    case None => None
    case Some((_, s1)) =>
      match Skip(s1, "P")
      case None => None
      case Some((_, s2)) =>
        match Skip(s2, "Q")
        case None => None
        case Some((_, s3)) =>
          match Skip(s3, "R")
          case None => None
          case Some((count, _)) => Some(count)
  }

  lemma SkipPrinted(i: int, mark: string, rest: string)
    requires mark != "" && !Decimal.IsDigit(mark[0])
    ensures Skip(Decimal.Print(i) + (mark + rest), mark) == Some((i, rest))
  {
    Decimal.ScanPrinted(i, mark + rest);
    hide Decimal.Print, Decimal.Scan;
  }

  /** A name, read from the left. */
  function Nested(now: Moment, count: int, rest: string): string {
    Decimal.Print(now.seconds) + (".M" + (Decimal.Print(now.micros) + ("P" + (Decimal.Print(now.pid)
    + ("Q" + (Decimal.Print(count) + ("R" + rest)))))))
  }

  lemma NameNests(now: Moment, count: int, hex: string, host: string)
    ensures Name(now, count, hex, host) == Nested(now, count, hex + ("." + host))
  {
    hide Decimal.Print;
  }

  /** The name format is unambiguous as far as the counter, whatever the other parts are. */
  lemma NameTellsCount(now: Moment, count: int, hex: string, host: string)
    ensures CountIn(Name(now, count, hex, host)) == Some(count)
  {
    hide Skip, Decimal.Print, Name;
    NameNests(now, count, hex, host);
    var s4 := hex + ("." + host);
    var s3 := Decimal.Print(count) + ("R" + s4);
    var s2 := Decimal.Print(now.pid) + ("Q" + s3);
    var s1 := Decimal.Print(now.micros) + ("P" + s2);
    SkipPrinted(now.seconds, ".M", s1);
    SkipPrinted(now.micros, "P", s2);
    SkipPrinted(now.pid, "Q", s3);
    SkipPrinted(count, "R", s4);
  }

  // ---------- all of a name can be decoded ----------

  datatype NameParts = NameParts(seconds: int, micros: int, pid: int, count: int, bytes: seq<byte>, host: string)

  function HexValue(c: char): Option<nat> {
    if '0' <= c <= '9' then Some((c - '0') as nat)
    else if 'a' <= c <= 'f' then Some((c - 'a') as nat + 10)
    else None
  }

  /** The bytes up to the next dot, and what is behind it. */
  function Unhex(s: string): Option<(seq<byte>, string)> {
    if s == "" then None
    else if s[0] == '.' then Some(([], s[1..]))
    else if |s| == 1 || HexValue(s[0]).None? || HexValue(s[1]).None? then None
    else
      match Unhex(s[2..])
      case None => None
      case Some((bytes, rest)) =>
        if 16 * HexValue(s[0]).value + HexValue(s[1]).value < 256
        then Some(([16 * HexValue(s[0]).value + HexValue(s[1]).value] + bytes, rest)) else None
  }

  function Decoded(name: string): Option<NameParts> {
    match Skip(name, ".M")
    case None => None
    case Some((seconds, s1)) =>
      match Skip(s1, "P")
      case None => None
      case Some((micros, s2)) =>
        match Skip(s2, "Q")
        case None => None
        case Some((pid, s3)) =>
          match Skip(s3, "R")
          case None => None
          case Some((count, s4)) =>
            match Unhex(s4)
            case None => None
            case Some((bytes, host)) => Some(NameParts(seconds, micros, pid, count, bytes, host))
  }

  lemma HexDigitValue(d: nat)
    requires d < 16
    ensures HexValue(HexDigit(d)) == Some(d)
  {
    var digits := "0123456789abcdef";
    assert digits[0] == '0' && digits[9] == '9' && digits[10] == 'a' && digits[15] == 'f';
  }

  /** Two more digits in front. */
  lemma UnhexMore(b: byte, tail: string, bytes: seq<byte>, rest: string)
    requires Unhex(tail) == Some((bytes, rest))
    ensures Unhex([HexDigit(b / 16), HexDigit(b % 16)] + tail) == Some(([b] + bytes, rest))
  {
    HexDigitValue(b / 16);
    HexDigitValue(b % 16);
    NoDot(b / 16);
    var s := [HexDigit(b / 16), HexDigit(b % 16)] + tail;
    assert s[0] == HexDigit(b / 16) && s[1] == HexDigit(b % 16) && s[2..] == tail;
    hide HexDigit, HexValue;
  }

  lemma NoDot(d: nat)
    requires d < 16
    ensures HexDigit(d) != '.'
  {
    HexDigitValue(d);
  }

  lemma {:induction false} UnhexHex(bytes: seq<byte>, rest: string)
    ensures Unhex(Hex(bytes) + ("." + rest)) == Some((bytes, rest))
  {
    hide HexDigit, HexValue;
    if bytes == [] {
      assert Hex(bytes) + ("." + rest) == "." + rest && ("." + rest)[1..] == rest;
    } else {
      UnhexHex(bytes[1..], rest);
      hide Unhex;
      UnhexMore(bytes[0], Hex(bytes[1..]) + ("." + rest), bytes[1..], rest);
      Concats([HexDigit(bytes[0] / 16), HexDigit(bytes[0] % 16)], Hex(bytes[1..]), "." + rest);
      assert [bytes[0]] + bytes[1..] == bytes;
    }
  }

  /** Every part of a name can be read back from it: the time, the process, the count, all random bytes and the host
      name in its escaped form. */
  lemma NameTellsAll(now: Moment, count: int, bytes: seq<byte>, host: string)
    ensures Decoded(Name(now, count, Hex(bytes), host)) ==
            Some(NameParts(now.seconds, now.micros, now.pid, count, bytes, host))
  {
    hide Skip, Decimal.Print, Name, Hex, Unhex;
    NameNests(now, count, Hex(bytes), host);
    var s4 := Hex(bytes) + ("." + host);
    var s3 := Decimal.Print(count) + ("R" + s4);
    var s2 := Decimal.Print(now.pid) + ("Q" + s3);
    var s1 := Decimal.Print(now.micros) + ("P" + s2);
    SkipPrinted(now.seconds, ".M", s1);
    SkipPrinted(now.micros, "P", s2);
    SkipPrinted(now.pid, "Q", s3);
    SkipPrinted(count, "R", s4);
    UnhexHex(bytes, host);
  }

  lemma FirstOfBoth(s: string, t: string)
    requires s != ""
    ensures s + t != "" && (s + t)[0] == s[0] && (s + t)[1..] == s[1..] + t
  {
  }

  lemma ReplaceAllFirst(s: string, c: char, sub: string)
    requires s != ""
    ensures ReplaceAll(s, c, sub) == (if s[0] == c then sub else [s[0]]) + ReplaceAll(s[1..], c, sub)
  {
  }

  lemma {:induction false} ReplaceAllConcat(s: string, t: string, c: char, sub: string)
    ensures ReplaceAll(s + t, c, sub) == ReplaceAll(s, c, sub) + ReplaceAll(t, c, sub)
  {
    if s == "" {
      assert s + t == t;
    } else {
      FirstOfBoth(s, t);
      ReplaceAllFirst(s, c, sub);
      ReplaceAllFirst(s + t, c, sub);
      ReplaceAllConcat(s[1..], t, c, sub);
      hide ReplaceAll;
      Concats(if s[0] == c then sub else [s[0]], ReplaceAll(s[1..], c, sub), ReplaceAll(t, c, sub));
    }
  }

  lemma {:induction false} ReplaceAllNone(s: string, c: char, sub: string)
    requires c !in s
    ensures ReplaceAll(s, c, sub) == s
  {
    if s == "" {
    } else {
      assert s == [s[0]] + s[1..];
      ReplaceAllNone(s[1..], c, sub);
    }
  }

  lemma ReplaceAllOne(x: char, c: char, sub: string)
    ensures ReplaceAll([x], c, sub) == if x == c then sub else [x]
  {
    assert [x][1..] == "";
    ReplaceAllFirst([x], c, sub);
  }

  lemma EscapedOne(c: char)
    ensures Escaped([c]) == if c == '/' then "\\057" else if c == ':' then "\\072" else [c]
    ensures Escaped("") == ""
  {
    ReplaceAllOne(c, '/', "\\057");
    ReplaceAllOne(c, ':', "\\072");
    ReplaceAllNone("\\057", ':', "\\072");
    ReplaceAllNone("", '/', "\\057");
    ReplaceAllNone("", ':', "\\072");
    hide ReplaceAll;
  }

  /** What escaping makes of each character: slashes and colons become their octal codes, and all else stays. */
  lemma EscapedIs(s: string, c: char, t: string)
    ensures Escaped(s + [c] + t) ==
            Escaped(s) + (if c == '/' then "\\057" else if c == ':' then "\\072" else [c]) + Escaped(t)
    ensures Escaped("") == ""
  {
    hide Escaped;
    EscapedConcat(s + [c], t);
    EscapedConcat(s, [c]);
    EscapedOne(c);
  }

  lemma EscapedConcat(s: string, t: string)
    ensures Escaped(s + t) == Escaped(s) + Escaped(t)
  {
    hide ReplaceAll;
    ReplaceAllConcat(s, t, '/', "\\057");
    ReplaceAllConcat(ReplaceAll(s, '/', "\\057"), ReplaceAll(t, '/', "\\057"), ':', "\\072");
  }

  // ---------- which characters a name holds ----------

  lemma {:induction false} ReplaceAllHolds(s: string, c: char, sub: string, d: char)
    requires d !in sub
    ensures d in ReplaceAll(s, c, sub) <==> d in s && d != c
  {
    if s == "" {
    } else {
      ReplaceAllHolds(s[1..], c, sub, d);
      assert s == [s[0]] + s[1..];
    }
  }

  lemma {:induction false} HexHolds(bytes: seq<byte>, d: char)
    requires d !in "0123456789abcdef"
    ensures d !in Hex(bytes)
  {
    if bytes == [] {
    } else {
      HexHolds(bytes[1..], d);
    }
  }

  lemma InBoth(s: string, t: string, d: char)
    ensures d in s + t <==> d in s || d in t
  {
  }

  lemma NumberAndMark(n: int, mark: string, rest: string, d: char)
    requires d !in mark && !Decimal.IsDigit(d) && d != '-'
    ensures d in Decimal.Print(n) + (mark + rest) <==> d in rest
  {
    Decimal.PrintHasOnly(n, d);
    InBoth(mark, rest, d);
    InBoth(Decimal.Print(n), mark + rest, d);
    hide *;
  }

  lemma NameHolds(now: Moment, count: int, hex: string, host: string, d: char)
    requires d == '/' || d == ' '
    ensures d in Name(now, count, hex, host) <==> d in hex || d in host
  {
    hide Name, Decimal.Print;
    NameNests(now, count, hex, host);
    var s4 := hex + ("." + host);
    var s3 := Decimal.Print(count) + ("R" + s4);
    var s2 := Decimal.Print(now.pid) + ("Q" + s3);
    var s1 := Decimal.Print(now.micros) + ("P" + s2);
    InBoth(".", host, d);
    InBoth(hex, "." + host, d);
    NumberAndMark(count, "R", s4, d);
    NumberAndMark(now.pid, "Q", s3, d);
    NumberAndMark(now.micros, "P", s2, d);
    NumberAndMark(now.seconds, ".M", s1, d);
  }

  lemma EscapedHolds(hostname: string, d: char)
    requires d == '/' || d == ' '
    ensures d in Escaped(hostname) <==> d == ' ' && ' ' in hostname
  {
    ReplaceAllHolds(hostname, '/', "\\057", d);
    ReplaceAllHolds(ReplaceAll(hostname, '/', "\\057"), ':', "\\072", d);
  }

  /** A name is a single path component, and has a space only if the host name has one. */
  lemma NameIsComponent(now: Moment, count: int, bytes: seq<byte>, hostname: string)
    ensures '/' !in Name(now, count, Hex(bytes), Escaped(hostname))
    ensures ' ' in Name(now, count, Hex(bytes), Escaped(hostname)) <==> ' ' in hostname
  {
    HexHolds(bytes, '/');
    HexHolds(bytes, ' ');
    EscapedHolds(hostname, '/');
    EscapedHolds(hostname, ' ');
    NameHolds(now, count, Hex(bytes), Escaped(hostname), '/');
    NameHolds(now, count, Hex(bytes), Escaped(hostname), ' ');
    hide *;
  }

  // ---------- the counter and the names of one process ----------

  ghost predicate CountedUpTo(names: set<string>, count: nat) {
    forall name <- names :: CountIn(name).Some? && CountIn(name).value <= count
  }

  lemma NewCountIsNewName(names: set<string>, count: nat, name: string)
    requires CountedUpTo(names, count) && CountIn(name) == Some(count + 1)
    ensures name !in names && CountedUpTo(names + {name}, count + 1)
  {
    hide CountIn;
  }

  lemma CountMayGrow(names: set<string>, count: nat)
    requires CountedUpTo(names, count)
    ensures CountedUpTo(names, count + 1)
  {
    hide CountIn;
  }

  class DeliveryCounter {
    var count: nat
    ghost var Names: set<string>

    /** No name carries a count that is still to come. */
    ghost predicate Valid()
      reads this
    {
      CountedUpTo(Names, count)
    }

    constructor ()
      ensures Valid() && count == 0 && Names == {}
    {
      count, Names := 0, {};
    }

    method Inc() returns (now: nat)
      modifies this`count
      ensures now == count == old(count) + 1
    {
      count := count + 1;
      now := count;
    }

    /** A name differs from every name handed out before in this process. */
    method NewUniqueName(given: string, lookup: Result<string>, random: Result<seq<byte>>, now: Moment)
      returns (r: Result<string>)
      requires Valid()
      modifies this
      ensures Valid() && count == old(count) + 1
      ensures r.Ok? <==> CanName(given, lookup, random)
      ensures r.Ok? ==> r.value !in old(Names) && '/' !in r.value && CountIn(r.value) == Some(count)
      ensures r.Ok? ==> Decoded(r.value) == Some(PartsOf(count, given, lookup, random, now))
      ensures Names == old(Names) + if r.Ok? then {r.value} else {}
    {
      hide CountIn, CanName, CountedUpTo, Skip, Decoded, PartsOf;
      var localCount := Inc();
      r := BuildName(localCount, given, lookup, random, now);
      CountMayGrow(Names, localCount - 1);
      if r.Ok? {
        NewCountIsNewName(Names, localCount - 1, r.value);
        Names := Names + {r.value};
      }
    }
  }

  /** A name needs a host name without spaces, looked up only if none is given, and random bytes. */
  predicate CanName(given: string, lookup: Result<string>, random: Result<seq<byte>>) {
    (given != "" || lookup.Ok?) && random.Ok? && ' ' !in (if given != "" then given else lookup.value)
  }

  /** What a name is to tell. */
  function PartsOf(count: nat, given: string, lookup: Result<string>, random: Result<seq<byte>>, now: Moment): NameParts
    requires CanName(given, lookup, random)
  {
    var hostname := if given != "" then given else lookup.value;
    NameParts(now.seconds, now.micros, now.pid, count, random.value, Escaped(hostname))
  }

  /** `newUniqueName` behind the counter. */
  method BuildName(count: nat, given: string, lookup: Result<string>, random: Result<seq<byte>>, now: Moment)
    returns (r: Result<string>)
    ensures r.Ok? <==> CanName(given, lookup, random)
    ensures r.Ok? ==> '/' !in r.value && CountIn(r.value) == Some(count)
    ensures r.Ok? ==> Decoded(r.value) == Some(PartsOf(count, given, lookup, random, now))
  {
    var hostname := given;
    if hostname == "" {
      if lookup.Err? { return Err; }
      hostname := lookup.value;
    }
    if random.Err? { return Err; }
    var filename := Name(now, count, Hex(random.value), Escaped(hostname));
    NameIsComponent(now, count, random.value, hostname);
    NameTellsCount(now, count, Hex(random.value), Escaped(hostname));
    NameTellsAll(now, count, random.value, Escaped(hostname));
    hide Name, Escaped, Hex, CountIn, Decoded;
    if ' ' in filename { return Err; }
    r := Ok(filename);
  }
}
