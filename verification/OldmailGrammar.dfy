/** Which lines the log reader accepts, core/oldmail.go:84-104: the parser against a grammar. */
module OldmailGrammar {
  import opened Common
  import opened OldmailText
  import Decimal

  predicate Spaces(s: string) { forall c <- s :: IsSpace(c) }

  /** An optional sign and at least one digit. */
  ghost predicate Numeral(s: string, n: int) {
    exists sign, digits :: IsNumeral(s, sign, digits, n)
  }

  ghost predicate IsNumeral(s: string, sign: string, digits: string, n: int) {
    && s == sign + digits && (sign == "" || sign == "+" || sign == "-") && digits != "" && Decimal.AllDigits(digits)
    && n == if sign == "-" then -(Decimal.Value(digits) as int) else Decimal.Value(digits)
  }

  /** A number with space in front. */
  ghost predicate FieldText(s: string, n: int) {
    exists space, num :: s == space + num && Spaces(space) && Numeral(num, n)
  }

  /** Three fields, the separators directly behind the first two, and space at the end. */
  ghost predicate RecordText(s: string, om: Oldmail) { exists a, b, c, end :: IsRecord(s, a, b, c, end, om) }

  ghost predicate IsRecord(s: string, a: string, b: string, c: string, end: string, om: Oldmail) {
    && s == a + ("/" + (b + ("_" + (c + end))))
    && FieldText(a, om.uidFolder) && FieldText(b, om.uid) && FieldText(c, om.timestamp) && Spaces(end)
  }

  // ---------- space ----------

  lemma {:induction false} SkipSplit(s: string) returns (space: string)
    ensures s == space + SkipSpaces(s) && Spaces(space)
    ensures SkipSpaces(s) != "" ==> !IsSpace(SkipSpaces(s)[0])
  {
    if s != "" && IsSpace(s[0]) {
      var more := SkipSplit(s[1..]);
      space := [s[0]] + more;
      hide IsSpace;
      assert s == [s[0]] + s[1..];
      Concats([s[0]], more, SkipSpaces(s[1..]));
    } else {
      space := "";
      Concats(s, "", "");
    }
  }

  lemma {:induction false} SkipOver(space: string, t: string)
    requires Spaces(space) && (t == "" || !IsSpace(t[0]))
    ensures SkipSpaces(space + t) == t
  {
    hide IsSpace;
    if space == "" {
      assert space + t == t;
    } else {
      assert space[0] in space && (space + t)[0] == space[0] && (space + t)[1..] == space[1..] + t;
      SkipOver(space[1..], t);
    }
  }

  lemma AllSpace(s: string)
    ensures SkipSpaces(s) == "" <==> Spaces(s)
  {
    hide IsSpace;
    if Spaces(s) {
      SkipOver(s, "");
      assert s + "" == s;
    } else {
      var space := SkipSplit(s);
      assert SkipSpaces(s) == "" ==> space + "" == s && s == space;
    }
  }

  // ---------- one number ----------

  lemma ScanSplit(s: string) returns (num: string)
    requires Decimal.Scan(s).Some?
    ensures s == num + Decimal.Scan(s).value.1 && Numeral(num, Decimal.Scan(s).value.0)
    ensures Decimal.Scan(s).value.1 != "" ==> !Decimal.IsDigit(Decimal.Scan(s).value.1[0])
  {
    var sign := Decimal.SignLength(s);
    var n := Decimal.DigitRun(s[sign..]);
    num := s[..sign + n];
    var digits := s[sign..][..n];
    assert s == num + s[sign + n..] && s[sign..][n..] == s[sign + n..];
    assert num == s[..sign] + digits;
    assert sign == 1 ==> s[..sign] == [s[0]];
    assert IsNumeral(num, s[..sign], digits, Decimal.Scan(s).value.0);
  }

  lemma ScanOver(num: string, n: int, rest: string)
    requires Numeral(num, n) && (rest == "" || !Decimal.IsDigit(rest[0]))
    ensures Decimal.Scan(num + rest) == Some((n, rest))
    ensures num != "" && !IsSpace(num[0])
  {
    hide Decimal.Scan, Decimal.Value;
    var sign, digits :| IsNumeral(num, sign, digits, n);
    Decimal.ScanDigits(sign, digits, rest);
    Concats(sign, digits, rest);
    assert Decimal.IsDigit(digits[0]) && (sign != "" ==> num[0] == sign[0]);
  }

  // ---------- one field ----------

  lemma FieldSplit(s: string) returns (f: string)
    requires ScanField(s).Some?
    ensures s == f + ScanField(s).value.1 && FieldText(f, ScanField(s).value.0)
  {
    hide Decimal.Scan, IsSpace, Numeral;
    var space := SkipSplit(s);
    var num := ScanSplit(SkipSpaces(s));
    f := space + num;
    Concats(space, num, ScanField(s).value.1);
  }

  lemma FieldOver(f: string, n: int64, rest: string)
    requires FieldText(f, n) && (rest == "" || !Decimal.IsDigit(rest[0]))
    ensures ScanField(f + rest) == Some((n, rest))
  {
    var space, num :| f == space + num && Spaces(space) && Numeral(num, n);
    hide Decimal.Scan, IsSpace, Numeral;
    ScanOver(num, n, rest);
    assert (num + rest)[0] == num[0];
    SkipOver(space, num + rest);
    Concats(space, num, rest);
  }

  lemma FieldBeforeSplit(s: string, mark: char) returns (f: string)
    requires ScanFieldBefore(s, mark).Some?
    ensures s == f + ([mark] + ScanFieldBefore(s, mark).value.1) && FieldText(f, ScanFieldBefore(s, mark).value.0)
  {
    f := FieldSplit(s);
    hide ScanField, FieldText;
    var rest := ScanField(s).value.1;
    assert rest == [mark] + rest[1..];
  }

  lemma FieldBeforeOver(f: string, n: int64, mark: char, rest: string)
    requires FieldText(f, n) && !Decimal.IsDigit(mark)
    ensures ScanFieldBefore(f + ([mark] + rest), mark) == Some((n, rest))
  {
    FieldOver(f, n, [mark] + rest);
    hide ScanField, FieldText;
    assert ([mark] + rest)[1..] == rest;
  }

  // ---------- one line ----------

  lemma RecordSplit(s: string)
    requires ScanFields(s).Some?
    ensures RecordText(s, ScanFields(s).value)
  {
    hide ScanFieldBefore, ScanField, SkipSpaces, FieldText, Spaces;
    var a := FieldBeforeSplit(s, '/');
    var s1 := ScanFieldBefore(s, '/').value.1;
    var b := FieldBeforeSplit(s1, '_');
    var s2 := ScanFieldBefore(s1, '_').value.1;
    var c := FieldSplit(s2);
    var end := ScanField(s2).value.1;
    AllSpace(end);
    assert IsRecord(s, a, b, c, end, ScanFields(s).value);
  }

  lemma EndIsNoDigit(end: string)
    requires Spaces(end)
    ensures end == "" || !Decimal.IsDigit(end[0])
  {
    assert end != "" ==> end[0] in end;
  }

  lemma RecordOver(s: string, om: Oldmail)
    requires RecordText(s, om)
    ensures ScanFields(s) == Some(om)
  {
    hide ScanFieldBefore, ScanField, SkipSpaces, FieldText, Spaces;
    var a, b, c, end :| IsRecord(s, a, b, c, end, om);
    EndIsNoDigit(end);
    AllSpace(end);
    FieldOver(c, om.timestamp, end);
    FieldBeforeOver(b, om.uid, '_', c + end);
    FieldBeforeOver(a, om.uidFolder, '/', b + ("_" + (c + end)));
  }

  /** The parser accepts exactly the lines of the grammar, a carriage return at the end apart, and reads the three
      numbers that stand there. A number that is no 64-bit integer is refused. */
  lemma LineIsReadIff(line: string, om: Oldmail)
    ensures ParseLine(line) == Some(om) <==> RecordText(Replace(DropCR(line), '\0', '_'), om)
  {
    hide ScanFields, RecordText, Replace, DropCR;
    var s := Replace(DropCR(line), NUL, '_');
    if ScanFields(s).Some? {
      RecordSplit(s);
    }
    if RecordText(s, om) {
      RecordOver(s, om);
    }
  }

  lemma CarriageReturnIsDropped(s: string)
    ensures DropCR(s + "\r") == s
    ensures DropCR("") == "" && (s != "" && s[|s| - 1] != '\r' ==> DropCR(s) == s)
  {
  }

  // ---------- line by line ----------

  function Then(om: Option<Oldmail>, rest: Result<seq<Oldmail>>): Result<seq<Oldmail>> {
    match om
    case None => Err
    case Some(record) => Prepend([record], rest)
  }

  /** The file is read line by line; a line that does not parse spoils it, and so does one that is too long for the
      scanner, whether it is the last one or not. */
  lemma FileIsReadByLine(line: string, rest: string)
    requires '\n' !in line
    ensures Read("") == Ok([])
    ensures Read(line + ("\n" + rest)) == if |line| < 65536 then Then(ParseLine(line), Read(rest)) else Err
    ensures line != "" ==> Read(line) == if |line| < 65536 then Then(ParseLine(line), Ok([])) else Err
  {
    hide ParseLine;
    var s := line + ("\n" + rest);
    LineLengthIs(s, |line|);
    LineLengthIs(line, |line|);
    assert s[..|line|] == line && s[|line| + 1..] == rest;
    assert line[..|line|] == line;
    hide LineLength;
  }
}
