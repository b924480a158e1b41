/** The oldmail log as text (core/oldmail.go): one line `<validity>/<uid>NUL<time stamp>` per
    record, written by appending and read back line by line. */
module OldmailText {
  import opened Common
  import Decimal

  const NUL: char := '\0'
  /** Longest token `bufio.Scanner` accepts before it gives up. */
  const MAX_TOKEN := 65536

  // ---------- printing ----------

  function Replace(s: string, from: char, to: char): (r: string)
    ensures |r| == |s|
    ensures forall k :: 0 <= k < |s| ==> r[k] == if s[k] == from then to else s[k]
  {
    seq(|s|, k requires 0 <= k < |s| => if s[k] == from then to else s[k])
  }

  /** The three numbers as `%d/%d_%d` prints them. */
  function Fields(om: Oldmail): string {
    Decimal.Print(om.uidFolder) + "/" + Decimal.Print(om.uid) + "_" + Decimal.Print(om.timestamp)
  }

  function PrintLine(om: Oldmail): string { Replace(Fields(om) + "\n", '_', NUL) }

  function PrintAll(oms: seq<Oldmail>): string {
    if oms == [] then "" else PrintLine(oms[0]) + PrintAll(oms[1..])
  }

  // ---------- parsing ----------

  /** What `fmt` counts as space, the newline apart. */
  predicate IsSpace(c: char) {
    c in {'\t', '\r', ' ', '\U{b}', '\U{c}', '\U{85}', '\U{a0}', '\U{1680}', '\U{2028}', '\U{2029}',
          '\U{202f}', '\U{205f}', '\U{3000}'} || '\U{2000}' <= c <= '\U{200a}'
  }

  function SkipSpaces(s: string): string {
    if s != "" && IsSpace(s[0]) then SkipSpaces(s[1..]) else s
  }

  /** One `%d`: leading space is skipped, and a number that does not fit an int is an error. */
  function ScanField(s: string): Option<(int64, string)> {
    match Decimal.Scan(SkipSpaces(s))
    case None => None
    case Some((n, rest)) =>
      if -0x8000_0000_0000_0000 <= n < 0x8000_0000_0000_0000 then Some((n, rest)) else None
  }

  function ScanFieldBefore(s: string, mark: char): Option<(int64, string)> {
    match ScanField(s)
    case None => None
    case Some((n, rest)) => if rest != "" && rest[0] == mark then Some((n, rest[1..])) else None
  }

  /** `Sscanf` with the format `%d/%d_%d\n` on text without newlines: the newline of the format
      matches trailing space and the end of the text, anything else behind it is an error. */
  function ScanFields(s: string): Option<Oldmail> {
    match ScanFieldBefore(s, '/')
    case None => None
    case Some((folder, s1)) =>
      match ScanFieldBefore(s1, '_')
      case None => None
      case Some((uid, s2)) =>
        match ScanField(s2)
        case None => None
        case Some((stamp, s3)) =>
          if SkipSpaces(s3) == "" then Some(Oldmail(folder, uid, stamp)) else None
  }

  function DropCR(line: string): string {
    if line != "" && line[|line| - 1] == '\r' then line[..|line| - 1] else line
  }

  function ParseLine(line: string): Option<Oldmail> { ScanFields(Replace(DropCR(line), NUL, '_')) }

  function LineLength(s: string): (n: nat)
    ensures n <= |s| && '\n' !in s[..n]
    ensures n < |s| ==> s[n] == '\n'
  {
    if s == "" || s[0] == '\n' then 0 else
      var n := LineLength(s[1..]);
      assert s[..n + 1] == [s[0]] + s[1..][..n];
      n + 1
  }

  function AfterLine(s: string): string {
    if LineLength(s) < |s| then s[LineLength(s) + 1..] else ""
  }

  function Prepend(oms: seq<Oldmail>, r: Result<seq<Oldmail>>): Result<seq<Oldmail>> {
    match r
    case Err => Err
    case Ok(more) => Ok(oms + more)
  }

  /** What the log file says, by recursion over its lines. */
  function Read(content: string): Result<seq<Oldmail>>
    decreases |content|
  {
    if content == "" then Ok([])
    else if LineLength(content) >= MAX_TOKEN then Err
    else
      match ParseLine(content[..LineLength(content)])
      case None => Err
      case Some(om) => Prepend([om], Read(AfterLine(content)))
  }

  /** `readOldmail`: the scan loop. A missing file and failures of the file operations are
      parameters. */
  method ReadOldmail(file: Option<string>, openFails: bool, readFails: bool, closeFails: bool)
    returns (r: Result<seq<Oldmail>>)
    ensures r == if file.None? || openFails || readFails || closeFails then Err else Read(file.value)
  {
    hide ParseLine, LineLength;
    if file.None? || openFails { return Err; }
    var rest, oldmails := file.value, [];
    assert forall m :: oldmails + m == m;
    while rest != ""
      invariant Read(file.value) == Prepend(oldmails, Read(rest))
      decreases |rest|
    {
      if LineLength(rest) >= MAX_TOKEN { return Err; }
      var scanned := ParseLine(rest[..LineLength(rest)]);
      if scanned.None? { return Err; }
      ghost var before := oldmails;
      oldmails := oldmails + [scanned.value];
      assert forall m :: before + ([scanned.value] + m) == oldmails + m;
      rest := AfterLine(rest);
    }
    assert oldmails + [] == oldmails;
    if readFails || closeFails { return Err; }
    return Ok(oldmails);
  }

  // ---------- one line reads back ----------

  lemma PrintedLength(n: nat, digits: nat)
    requires n < Pow10(digits)
    ensures |Decimal.PrintNat(n)| <= if digits == 0 then 1 else digits
  {
    if n < 10 {
    } else {
      PrintedLength(n / 10, digits - 1);
    }
  }

  function Pow10(k: nat): nat { if k == 0 then 1 else 10 * Pow10(k - 1) }

  lemma FieldIsShort(i: int64)
    ensures |Decimal.Print(i)| <= 20
    ensures '\n' !in Decimal.Print(i) && NUL !in Decimal.Print(i) && '\r' !in Decimal.Print(i)
  {
    assert Pow10(5) == 10_0000 && Pow10(10) == 100_0000_0000 && Pow10(15) == 1_000_000_000_000_000;
    assert Pow10(19) == 10_000_000_000_000_000_000;
    var n: int := i;
    PrintedLength(if n < 0 then -n else n, 19);
    Decimal.PrintHasOnly(n, '\n');
    Decimal.PrintHasOnly(n, NUL);
    Decimal.PrintHasOnly(n, '\r');
  }

  lemma PrintedField(i: int64, rest: string)
    requires rest == "" || !Decimal.IsDigit(rest[0])
    ensures ScanField(Decimal.Print(i) + rest) == Some((i, rest))
  {
    var n: int := i;
    Decimal.ScanPrinted(n, rest);
    Decimal.PrintNatValue(if n < 0 then -n else n);
    hide Decimal.Scan;
    assert !IsSpace(Decimal.Print(i)[0]);
    assert SkipSpaces(Decimal.Print(i) + rest) == Decimal.Print(i) + rest;
  }

  lemma FieldsScan(om: Oldmail)
    ensures ScanFields(Fields(om)) == Some(om)
  {
    var a, b, c := Decimal.Print(om.uidFolder), Decimal.Print(om.uid), Decimal.Print(om.timestamp);
    assert Fields(om) == a + ("/" + (b + ("_" + c)));
    PrintedField(om.uidFolder, "/" + (b + ("_" + c)));
    assert ("/" + (b + ("_" + c)))[1..] == b + ("_" + c);
    PrintedField(om.uid, "_" + c);
    assert ("_" + c)[1..] == c;
    assert c == c + "";
    PrintedField(om.timestamp, "");
  }

  /** The text of one record holds no newline, no NUL and no carriage return, and is short. */
  lemma FieldsAreClean(om: Oldmail)
    ensures '\n' !in Fields(om) && NUL !in Fields(om) && '\r' !in Fields(om)
    ensures 0 < |Fields(om)| < MAX_TOKEN && '/' in Fields(om)
  {
    FieldIsShort(om.uidFolder);
    FieldIsShort(om.uid);
    FieldIsShort(om.timestamp);
    assert Fields(om)[|Decimal.Print(om.uidFolder)|] == '/';
  }

  function PrintBody(om: Oldmail): string { Replace(Fields(om), '_', NUL) }

  lemma LineIsBodyAndNewline(om: Oldmail)
    ensures PrintLine(om) == PrintBody(om) + "\n"
    ensures '\n' !in PrintBody(om) && 0 < |PrintBody(om)| < MAX_TOKEN
    ensures Replace(PrintBody(om), NUL, '_') == Fields(om)
    ensures PrintBody(om)[|PrintBody(om)| - 1] != '\r'
  {
    FieldsAreClean(om);
  }

  lemma {:induction false} LineLengthIs(s: string, n: nat)
    requires n <= |s| && (forall k :: 0 <= k < n ==> s[k] != '\n') && (n < |s| ==> s[n] == '\n')
    ensures LineLength(s) == n
  {
    if n == 0 {
    } else {
      LineLengthIs(s[1..], n - 1);
    }
  }

  /** `DropCR` finds nothing to drop from a printed line. */
  lemma BodyParses(om: Oldmail)
    ensures ParseLine(PrintBody(om)) == Some(om)
  {
    hide ScanFields, Replace, PrintBody, Fields;
    LineIsBodyAndNewline(om);
    FieldsScan(om);
  }

  lemma ReadLineThen(body: string, om: Oldmail, rest: string)
    requires '\n' !in body && |body| < MAX_TOKEN && ParseLine(body) == Some(om)
    ensures Read(body + ("\n" + rest)) == Prepend([om], Read(rest))
  {
    hide ParseLine;
    var s := body + ("\n" + rest);
    LineLengthIs(s, |body|);
    hide LineLength;
    assert s[..|body|] == body && s[|body| + 1..] == rest;
  }

  lemma ReadPrintedLine(om: Oldmail, rest: string)
    ensures Read(PrintLine(om) + rest) == Prepend([om], Read(rest))
  {
    hide ParseLine, PrintBody, PrintLine, Read;
    var body := PrintBody(om);
    LineIsBodyAndNewline(om);
    BodyParses(om);
    assert (body + "\n") + rest == body + ("\n" + rest);
    ReadLineThen(body, om, rest);
  }

  /** The line of a record, as the file format has it. */
  lemma LineIs(om: Oldmail)
    ensures PrintLine(om) == Decimal.Print(om.uidFolder) + "/" + Decimal.Print(om.uid) + "\0"
                             + Decimal.Print(om.timestamp) + "\n"
  {
    NoSeparator(om.uidFolder);
    NoSeparator(om.uid);
    NoSeparator(om.timestamp);
    var a, b, c := Decimal.Print(om.uidFolder), Decimal.Print(om.uid), Decimal.Print(om.timestamp);
    hide Decimal.Print;
    var line := a + "/" + b + "_" + c + "\n";
    var text := a + "/" + b + "\0" + c + "\n";
    assert |text| == |line| && Fields(om) + "\n" == line;
    forall k | 0 <= k < |line| ensures text[k] == if line[k] == '_' then NUL else line[k] {
    }
  }

  lemma NoSeparator(i: int)
    ensures '_' !in Decimal.Print(i)
  {
    Decimal.PrintHasOnly(i, '_');
  }

  // ---------- the laws of the log ----------

  /** Round trip: printed records read back, whatever integers they hold. */
  lemma {:induction false} RoundTrip(oms: seq<Oldmail>)
    ensures Read(PrintAll(oms)) == Ok(oms)
  {
    if oms == [] {
    } else {
      ReadPrintedLine(oms[0], PrintAll(oms[1..]));
      RoundTrip(oms[1..]);
      assert [oms[0]] + oms[1..] == oms;
    }
  }

  predicate EndsLine(content: string) { content == "" || content[|content| - 1] == '\n' }

  /** Text behind a finished line leaves that line as it was. */
  lemma FirstLineStays(content: string, more: string)
    requires LineLength(content) < |content|
    ensures LineLength(content + more) == LineLength(content)
    ensures (content + more)[..LineLength(content)] == content[..LineLength(content)]
    ensures AfterLine(content + more) == AfterLine(content) + more
  {
    hide LineLength;
    var n := LineLength(content);
    assert forall k :: 0 <= k < n ==> content[k] == content[..n][k];
    LineLengthIs(content + more, n);
    Decimal.Slices(content, more, n);
    Decimal.Slices(content, more, n + 1);
  }

  lemma ReadFirstLine(content: string, more: string) returns (om: Oldmail)
    requires Read(content).Ok? && LineLength(content) < |content|
    ensures Read(content) == Prepend([om], Read(AfterLine(content)))
    ensures Read(content + more) == Prepend([om], Read(AfterLine(content) + more))
  {
    FirstLineStays(content, more);
    om := ParseLine(content[..LineLength(content)]).value;
  }

  lemma FinishedLine(content: string)
    requires LineLength(content) < |content|
    ensures |AfterLine(content)| < |content| && (EndsLine(AfterLine(content)) <==> EndsLine(content))
  {
  }

  lemma LastLine(content: string)
    requires content != ""
    ensures EndsLine(content) ==> LineLength(content) < |content|
    ensures LineLength(content) == |content| ==> '\n' !in content && content[..|content|] == content
  {
    assert content[..|content|] == content;
    assert content[|content| - 1] in content;
  }

  lemma Glue(om: Oldmail, mid: seq<Oldmail>, end: seq<Oldmail>)
    ensures Prepend([om], Ok(mid + end)) == Ok(([om] + mid) + end)
  {
    assert [om] + (mid + end) == ([om] + mid) + end;
  }

  /** Append law: a readable log whose last line is finished, followed by any readable text, is
      read as the old records followed by the new ones. */
  lemma {:induction false} AppendLaw(content: string, more: string)
    requires Read(content).Ok? && EndsLine(content) && Read(more).Ok?
    ensures Read(content + more) == Ok(Read(content).value + Read(more).value)
    decreases |content|
  {
    if content == "" {
      assert content + more == more && [] + Read(more).value == Read(more).value;
    } else {
      LastLine(content);
      FinishedLine(content);
      var om := ReadFirstLine(content, more);
      AppendLaw(AfterLine(content), more);
      hide Read;
      Glue(om, Read(AfterLine(content)).value, Read(more).value);
    }
  }

  lemma SkipSpacesExtends(s: string, more: string)
    requires SkipSpaces(s) != ""
    ensures SkipSpaces(s + more) == SkipSpaces(s) + more
  {
    if IsSpace(s[0]) {
      assert (s + more)[1..] == s[1..] + more;
      SkipSpacesExtends(s[1..], more);
    }
  }

  lemma SkipSpacesKeeps(s: string, c: char)
    requires c in s && !IsSpace(c)
    ensures c in SkipSpaces(s)
  {
  }

  lemma FieldNeedsText()
    ensures forall s :: ScanField(s).Some? ==> SkipSpaces(s) != ""
  {
  }

  lemma FieldBeforeExtends(s: string, mark: char, more: string)
    requires ScanFieldBefore(s, mark).Some?
    ensures ScanFieldBefore(s + more, mark) ==
            Some((ScanFieldBefore(s, mark).value.0, ScanFieldBefore(s, mark).value.1 + more))
  {
    SkipSpacesExtends(s, more);
    Decimal.ScanExtends(SkipSpaces(s), more);
    var rest := ScanField(s).value.1;
    assert (rest + more)[1..] == rest[1..] + more;
  }

  /** A complete record with a second record on the same line does not parse. */
  lemma TwoRecordsOnALine(s: string, more: string)
    requires ScanFields(s).Some? && '/' in more
    ensures ScanFields(s + more).None?
  {
    assert !IsSpace('/');
    FieldNeedsText();
    hide Decimal.Scan, IsSpace, SkipSpaces;
    FieldBeforeExtends(s, '/', more);
    var s1 := ScanFieldBefore(s, '/').value.1;
    FieldBeforeExtends(s1, '_', more);
    var s2 := ScanFieldBefore(s1, '_').value.1;
    SkipSpacesExtends(s2, more);
    if ScanField(s2 + more).Some? {
      assert '/' in SkipSpaces(s2) + more;
      Decimal.ScanKeeps(SkipSpaces(s2) + more, '/');
      SkipSpacesKeeps(ScanField(s2 + more).value.1, '/');
    }
  }

  lemma ReplaceConcat(s: string, t: string, from: char, to: char)
    ensures Replace(s + t, from, to) == Replace(s, from, to) + Replace(t, from, to)
  {
  }

  lemma DropCRSplits(line: string) returns (cr: string)
    ensures line == DropCR(line) + cr
  {
    cr := line[|DropCR(line)|..];
  }

  lemma NothingDropped(line: string, body: string)
    requires body != "" && body[|body| - 1] != '\r'
    ensures DropCR(line + body) == line + body
  {
    assert (line + body)[|line + body| - 1] == body[|body| - 1];
  }

  lemma ReplacedTail(start: string, mid: string, end: string)
    ensures Replace((start + mid) + end, NUL, '_')
         == Replace(start, NUL, '_') + (Replace(mid, NUL, '_') + Replace(end, NUL, '_'))
  {
    hide Replace;
    assert (start + mid) + end == start + (mid + end);
    ReplaceConcat(start, mid + end, NUL, '_');
    ReplaceConcat(mid, end, NUL, '_');
  }

  lemma InTail(s: string, t: string, c: char)
    requires c in t
    ensures c in s + t
  {
    var k :| 0 <= k < |t| && t[k] == c;
    assert (s + t)[|s| + k] == c;
  }

  lemma UnfinishedLineSpoilsRecord(line: string, body: string, fields: string)
    requires ParseLine(line).Some?
    requires body != "" && body[|body| - 1] != '\r' && Replace(body, NUL, '_') == fields && '/' in fields
    ensures ParseLine(line + body).None?
  {
    hide ScanFields, Replace, DropCR;
    var cr := DropCRSplits(line);
    NothingDropped(line, body);
    ReplacedTail(DropCR(line), cr, body);
    InTail(Replace(cr, NUL, '_'), fields, '/');
    TwoRecordsOnALine(Replace(DropCR(line), NUL, '_'), Replace(cr, NUL, '_') + fields);
  }

  lemma BadFirstLine(line: string, more: string)
    requires ParseLine(line).None? && '\n' !in line
    ensures Read(line + ("\n" + more)).Err?
  {
    hide ParseLine;
    LineLengthIs(line + ("\n" + more), |line|);
    assert (line + ("\n" + more))[..|line|] == line;
  }

  lemma UnfinishedLineSpoils(line: string, oms: seq<Oldmail>)
    requires ParseLine(line).Some? && '\n' !in line && oms != []
    ensures Read(line + PrintAll(oms)).Err?
  {
    var body, more := PrintBody(oms[0]), PrintAll(oms[1..]);
    hide ParseLine, PrintBody, PrintLine, Read, Fields;
    LineIsBodyAndNewline(oms[0]);
    FieldsAreClean(oms[0]);
    assert PrintAll(oms) == (body + "\n") + more;
    hide PrintAll;
    UnfinishedLineSpoilsRecord(line, body, Fields(oms[0]));
    NoNewline(line, body);
    BadFirstLine(line + body, more);
    Reassociate(line, body, "\n", more);
  }

  lemma NoNewline(s: string, t: string)
    requires '\n' !in s && '\n' !in t
    ensures '\n' !in s + t
  {
  }

  lemma Reassociate(s: string, t: string, u: string, v: string)
    ensures s + ((t + u) + v) == (s + t) + (u + v)
  {
  }

  /** An appended record reads back exactly when the log was empty or ended in a newline. */
  lemma {:induction false} AppendReadableIff(content: string, oms: seq<Oldmail>)
    requires Read(content).Ok? && oms != []
    ensures Read(content + PrintAll(oms)).Ok? <==> EndsLine(content)
    ensures EndsLine(content) ==> Read(content + PrintAll(oms)) == Ok(Read(content).value + oms)
    decreases |content|
  {
    RoundTrip(oms);
    if EndsLine(content) {
      AppendLaw(content, PrintAll(oms));
    } else {
      LastLine(content);
      if LineLength(content) == |content| {
        UnfinishedLineSpoils(content, oms);
      } else {
        FinishedLine(content);
        var om := ReadFirstLine(content, PrintAll(oms));
        AppendReadableIff(AfterLine(content), oms);
      }
    }
  }
}
