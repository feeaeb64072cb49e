/** Reading the memory= limit of the [wsl2] section from .wslconfig text. */
module WslMemory {
  import opened Text
  import opened StateFile

  // ---------- What a line says ----------

  function IndexOf(s: string, c: char): (i: nat)
    ensures i <= |s| && c !in s[..i] && (i < |s| ==> s[i] == c)
  {
    if s == "" || s[0] == c then 0
    else
      var i := 1 + IndexOf(s[1..], c);
      assert s[..i] == [s[0]] + s[1..][..i - 1];
      i
  }

  /** A line without its comment and surrounding white space. */
  function Strip(raw: string): string {
    var line := TrimSpace(raw);
    var hash := IndexOf(line, '#');
    if hash < |line| then TrimSpace(line[..hash]) else line
  }

  predicate IsHeader(line: string) {
    |line| >= 2 && line[0] == '[' && line[|line| - 1] == ']'
  }

  predicate OpensWsl2(header: string)
    requires IsHeader(header)
  {
    EqualFold(TrimSpace(header[1..|header| - 1]), "wsl2")
  }

  function DigitRun(s: string): (j: nat)
    ensures j <= |s| && AllDigits(s[..j]) && (j < |s| ==> !IsDigit(s[j]))
  {
    if s == "" || !IsDigit(s[0]) then 0
    else
      var j := 1 + DigitRun(s[1..]);
      assert s[..j] == [s[0]] + s[1..][..j - 1];
      j
  }

  /** Bytes in a unit; None for a name that is no unit, the empty one included. */
  function UnitSize(name: string): Option<nat> {
    if name == "tb" || name == "t" then Some(0x100_0000_0000)
    else if name == "gb" || name == "g" then Some(0x4000_0000)
    else if name == "mb" || name == "m" then Some(0x10_0000)
    else if name == "kb" || name == "k" then Some(0x400)
    else None
  }

  /** The number of bytes a memory value names: digits and a unit, and no more than fits 64 bits. */
  function Amount(val: string): Option<nat> {
    var j := DigitRun(val);
    var num := Value(val[..j]);
    match UnitSize(Map(TrimSpace(val[j..]), AsciiLower))
    case Some(unit) => if j > 0 && num * unit <= MAX_UINT64 then Some(num * unit) else None
    case None => None
  }

  /** The limit a line sets, if it is a well-formed memory= line. */
  function Limit(line: string): Option<nat> {
    var i := IndexOf(line, '=');
    if i < |line| && EqualFold(TrimSpace(line[..i]), "memory") then Amount(TrimSpace(line[i + 1..])) else None
  }

  // ---------- What the text says ----------

  datatype Line = Header(wsl2: bool) | Memory(bytes: nat) | Other

  function Classify(line: string): Line {
    if IsHeader(line) then Header(OpensWsl2(line))
    else match Limit(line)
      case Some(bytes) => Memory(bytes)
      case None => Other
  }

  function Lines(raws: seq<string>): (lines: seq<Line>)
    ensures |lines| == |raws|
  {
    if raws == [] then [] else [Classify(Strip(raws[0]))] + Lines(raws[1..])
  }

  lemma {:induction false} LineAt(raws: seq<string>, n: nat)
    requires n < |raws|
    ensures Lines(raws)[n] == Classify(Strip(raws[n]))
  {
    if n > 0 {
      LineAt(raws[1..], n - 1);
    }
  }

  /** The nearest header before line i opens the wsl2 section. */
  ghost predicate InWsl2(lines: seq<Line>, i: nat)
    requires i <= |lines|
  {
    exists h :: 0 <= h < i && lines[h] == Header(true) && forall k :: h < k < i ==> !lines[k].Header?
  }

  ghost predicate SetsLimit(lines: seq<Line>, i: nat)
    requires i < |lines|
  {
    lines[i].Memory? && InWsl2(lines, i)
  }

  /** The answer is the limit of the first line in the wsl2 section that sets one, if any does. */
  ghost predicate Answers(lines: seq<Line>, answer: Option<nat>) {
    match answer
    case None => forall i :: 0 <= i < |lines| ==> !SetsLimit(lines, i)
    case Some(v) =>
      exists i :: 0 <= i < |lines| && SetsLimit(lines, i) && lines[i] == Memory(v)
        && forall k :: 0 <= k < i ==> !SetsLimit(lines, k)
  }

  ghost predicate TextAnswers(data: string, answer: Option<nat>) {
    Answers(Lines(Split(data, '\n')), answer)
  }

  // ---------- The parser ----------

  /** Multiplication of two uint64 values. */
  function Mul64(a: nat, b: nat): nat {
    a * b % (MAX_UINT64 + 1)
  }

  lemma ProductGrows(a: nat, b: nat, unit: nat)
    requires a <= b
    ensures a * unit <= b * unit
  {
    assert (b - a) * unit >= 0;
  }

  lemma QuotientGuards(max: nat, num: nat, unit: nat)
    requires unit > 0
    ensures num <= max / unit <==> num * unit <= max
  {
    var q := max / unit;
    assert q * unit <= max < (q + 1) * unit;
    if num <= q {
      ProductGrows(num, q, unit);
    } else {
      ProductGrows(q + 1, num, unit);
    }
  }

  /** The guard by division passes exactly when the product fits 64 bits, and the multiplication is then exact. */
  lemma FitsExactlyWhen(num: nat, unit: nat)
    requires unit > 0
    ensures num <= MAX_UINT64 / unit <==> num * unit <= MAX_UINT64
    ensures num * unit <= MAX_UINT64 ==> Mul64(num, unit) == num * unit
  {
    QuotientGuards(MAX_UINT64, num, unit);
  }

  lemma ValueAtMostProduct(num: nat, unit: nat)
    requires unit > 0
    ensures num <= num * unit
  {
  }

  lemma {:induction false} DigitRunIs(s: string, j: nat)
    requires j <= |s| && AllDigits(s[..j]) && (j < |s| ==> !IsDigit(s[j]))
    ensures DigitRun(s) == j
  {
    if j > 0 {
      assert s[..j][0] == s[0];
      assert s[1..][..j - 1] == s[..j][1..];
      DigitRunIs(s[1..], j - 1);
    }
  }

  method ParseAmount(val: string) returns (amount: Option<nat>)
    ensures amount == Amount(val)
    ensures amount.Some? ==> amount.value <= MAX_UINT64
  {
    var j := 0;
    while j < |val| && '0' <= val[j] <= '9'
      invariant j <= |val| && AllDigits(val[..j])
    {
      j := j + 1;
    }
    DigitRunIs(val, j);
    var num := Value(val[..j]);
    var unit := UnitSize(Map(TrimSpace(val[j..]), AsciiLower));
    if unit.Some? {
      FitsExactlyWhen(num, unit.value);
      ValueAtMostProduct(num, unit.value);
    }
    if j == 0 || num > MAX_UINT64 || unit.None? || num > MAX_UINT64 / unit.value {
      return None;
    }
    return Some(Mul64(num, unit.value));
  }

  lemma NextLine(lines: seq<Line>, n: nat)
    requires n < |lines|
    ensures InWsl2(lines, n + 1) <==> if lines[n].Header? then lines[n].wsl2 else InWsl2(lines, n)
  {
    if InWsl2(lines, n + 1) {
      var h :| 0 <= h < n + 1 && lines[h] == Header(true) && forall k :: h < k < n + 1 ==> !lines[k].Header?;
      assert lines[n].Header? ==> !(h < n);
    }
  }

  method ParseLimit(text: string) returns (limit: Option<nat>)
    ensures limit == Limit(text)
    ensures limit.Some? ==> limit.value <= MAX_UINT64
  {
    var cut := IndexOf(text, '=');
    if cut == |text| || !EqualFold(TrimSpace(text[..cut]), "memory") {
      return None;
    }
    limit := ParseAmount(TrimSpace(text[cut + 1..]));
  }

  /** What a line says, read as the loop body of the parser reads it. */
  method ParseLine(raws: seq<string>, n: nat) returns (line: Line)
    requires n < |raws|
    ensures line == Lines(raws)[n]
    ensures line.Memory? ==> line.bytes <= MAX_UINT64
  {
    LineAt(raws, n);
    var text := TrimSpace(raws[n]);
    var hash := IndexOf(text, '#');
    if hash < |text| {
      text := TrimSpace(text[..hash]);
    }
    if IsHeader(text) {
      return Header(OpensWsl2(text));
    }
    var limit := ParseLimit(text);
    return if limit.Some? then Memory(limit.value) else Other;
  }

  lemma FirstLimitAnswers(lines: seq<Line>, n: nat)
    requires n < |lines| && SetsLimit(lines, n) && forall k :: 0 <= k < n ==> !SetsLimit(lines, k)
    ensures Answers(lines, Some(lines[n].bytes))
  {
  }

  /** The specification has one answer. */
  lemma AnswerIsUnique(lines: seq<Line>, a: Option<nat>, b: Option<nat>)
    requires Answers(lines, a) && Answers(lines, b)
    ensures a == b
  {
    if a.Some? && b.Some? {
      var i :| 0 <= i < |lines| && SetsLimit(lines, i) && lines[i] == Memory(a.value)
        && forall k :: 0 <= k < i ==> !SetsLimit(lines, k);
      var j :| 0 <= j < |lines| && SetsLimit(lines, j) && lines[j] == Memory(b.value)
        && forall k :: 0 <= k < j ==> !SetsLimit(lines, k);
      assert i == j;
    }
  }

  /** The answer read off from the front, given whether the lines start inside the section. */
  function Scan(lines: seq<Line>, inside: bool): Option<nat> {
    if lines == [] then None
    else match lines[0]
      case Header(wsl2) => Scan(lines[1..], wsl2)
      case Memory(bytes) => if inside then Some(bytes) else Scan(lines[1..], inside)
      case Other => Scan(lines[1..], inside)
  }

  function Inside(lines: seq<Line>, inside: bool): bool {
    if lines == [] then inside
    else Inside(lines[1..], if lines[0].Header? then lines[0].wsl2 else inside)
  }

  lemma {:induction false} ScanAnswers(lines: seq<Line>, n: nat)
    requires n <= |lines| && forall k :: 0 <= k < n ==> !SetsLimit(lines, k)
    ensures Answers(lines, Scan(lines[n..], InWsl2(lines, n)))
    decreases |lines| - n
  {
    if n < |lines| {
      var rest := lines[n..];
      NextLine(lines, n);
      assert rest[0] == lines[n] && rest[1..] == lines[n + 1..];
      if SetsLimit(lines, n) {
        FirstLimitAnswers(lines, n);
      } else {
        ScanAnswers(lines, n + 1);
      }
    }
  }

  lemma {:induction false} InsideIsInWsl2(lines: seq<Line>, n: nat)
    requires n <= |lines|
    ensures Inside(lines[n..], InWsl2(lines, n)) <==> InWsl2(lines, |lines|)
    decreases |lines| - n
  {
    if n < |lines| {
      NextLine(lines, n);
      assert lines[n..][0] == lines[n] && lines[n..][1..] == lines[n + 1..];
      InsideIsInWsl2(lines, n + 1);
    }
  }

  lemma ScanIsTheAnswer(lines: seq<Line>, answer: Option<nat>)
    ensures Answers(lines, answer) <==> answer == Scan(lines, false)
    ensures Inside(lines, false) <==> InWsl2(lines, |lines|)
  {
    assert lines[0..] == lines && !InWsl2(lines, 0);
    ScanAnswers(lines, 0);
    InsideIsInWsl2(lines, 0);
    if Answers(lines, answer) {
      AnswerIsUnique(lines, answer, Scan(lines, false));
    }
  }

  lemma {:induction false} ScanConcat(a: seq<Line>, b: seq<Line>, inside: bool)
    ensures Scan(a + b, inside) == if Scan(a, inside).Some? then Scan(a, inside) else Scan(b, Inside(a, inside))
  {
    if a == [] {
      assert a + b == b;
    } else {
      assert (a + b)[1..] == a[1..] + b;
      ScanConcat(a[1..], b, if a[0].Header? then a[0].wsl2 else inside);
    }
  }

  method ParseWslMemory(data: string) returns (bytes: nat, found: bool)
    ensures TextAnswers(data, if found then Some(bytes) else None)
    ensures bytes <= MAX_UINT64
    ensures !found ==> bytes == 0
  {
    var raws := Split(data, '\n');
    ghost var lines := Lines(raws);
    var inWsl2 := false;
    assert lines[0..] == lines;
    for n := 0 to |raws|
      invariant Scan(lines[n..], inWsl2) == Scan(lines, false)
    {
      assert lines[n..][0] == lines[n] && lines[n..][1..] == lines[n + 1..];
      var line := ParseLine(raws, n);
      if line.Header? {
        inWsl2 := line.wsl2;
        continue;
      }
      if !inWsl2 || line.Other? {
        continue;
      }
      ScanIsTheAnswer(lines, Some(line.bytes));
      return line.bytes, true;
    }
    ScanIsTheAnswer(lines, None);
    return 0, false;
  }

  // ---------- Lines outside the section ----------

  lemma ScanSkips(a: seq<Line>, x: Line, b: seq<Line>)
    requires !x.Header? && !Inside(a, false)
    ensures Scan(a + [x] + b, false) == Scan(a + b, false)
  {
    assert a + [x] + b == a + ([x] + b);
    ScanConcat(a, [x] + b, false);
    ScanConcat(a, b, false);
    assert ([x] + b)[1..] == b;
  }

  /** A line outside the section, no header itself, can be put in or left out: the answer stays. */
  lemma OutsideLineNeverMatters(a: seq<Line>, x: Line, b: seq<Line>, answer: Option<nat>)
    requires !x.Header? && !InWsl2(a, |a|)
    ensures Answers(a + [x] + b, answer) <==> Answers(a + b, answer)
  {
    ScanIsTheAnswer(a, None);
    ScanIsTheAnswer(a + [x] + b, answer);
    ScanIsTheAnswer(a + b, answer);
    ScanSkips(a, x, b);
  }

  lemma {:induction false} LinesOfConcat(a: seq<string>, b: seq<string>)
    ensures Lines(a + b) == Lines(a) + Lines(b)
  {
    if a == [] {
      assert a + b == b;
    } else {
      assert (a + b)[1..] == a[1..] + b;
      LinesOfConcat(a[1..], b);
    }
  }

  /** A text: lines without newlines, joined by newlines. */
  ghost predicate IsText(data: string, raws: seq<string>) {
    raws != [] && NoneHas(raws, '\n') && data == Join(raws, '\n')
  }

  /** In a text: a line that stands outside the wsl2 section, and is no header, can be put in anywhere there, or
      taken out, without changing the limit the text sets. */
  lemma OutsideNeverMatters(a: seq<string>, x: string, b: seq<string>, with: string, without: string,
                            answer: Option<nat>)
    requires IsText(with, a + [x] + b) && IsText(without, a + b)
    requires !Classify(Strip(x)).Header? && !InWsl2(Lines(a), |a|)
    ensures TextAnswers(with, answer) <==> TextAnswers(without, answer)
  {
    SplitJoin(a + [x] + b, '\n');
    SplitJoin(a + b, '\n');
    LinesOfConcat(a, b);
    LinesOfConcat(a + [x], b);
    LinesOfConcat(a, [x]);
    assert [x][1..] == [] && Lines([x]) == [Classify(Strip(x))];
    OutsideLineNeverMatters(Lines(a), Classify(Strip(x)), Lines(b), answer);
  }

  // ---------- Comments ----------

  lemma FirstComment(text: string, comment: string)
    requires '#' !in text
    ensures Strip(text + "#" + comment) == TrimSpace(text)
  {
    var whole := text + "#" + comment;
    TrimLeftAppend(text, "#" + comment);
    assert text + ("#" + comment) == whole;
    var left := TrimLeft(text, IsSpace);
    TrimLeftWithin(text);
    TrimRightKeeps(left, '#', comment);
    assert TrimLeft(whole, IsSpace) == left + "#" + comment;
    var line := TrimSpace(whole);
    assert left + "#" <= line;
    assert line[|left|] == (left + "#")[|left|] && line[..|left|] == left;
    IndexOfIs(line, '#', |left|);
    TrimLeftTwice(text);
  }

  lemma CommentIsStripped(raw: string, comment: string)
    ensures Strip(raw + "#" + comment) == Strip(raw)
  {
    var i := IndexOf(raw, '#');
    if i < |raw| {
      var text, first := raw[..i], raw[i + 1..];
      assert raw == text + "#" + first && raw + "#" + comment == text + "#" + (first + "#" + comment);
      FirstComment(text, first);
      FirstComment(text, first + "#" + comment);
    } else {
      assert raw[..i] == raw;
      FirstComment(raw, comment);
      TrimLeftWithin(raw);
      TrimRightWithin(TrimLeft(raw, IsSpace));
    }
  }

  lemma {:induction false} LinesOfStripped(a: seq<string>, b: seq<string>)
    requires |a| == |b| && forall i :: 0 <= i < |a| ==> Strip(a[i]) == Strip(b[i])
    ensures Lines(a) == Lines(b)
  {
    if a != [] {
      assert Strip(a[0]) == Strip(b[0]);
      assert forall i :: 0 <= i < |a| - 1 ==> a[1..][i] == a[i + 1] && b[1..][i] == b[i + 1];
      LinesOfStripped(a[1..], b[1..]);
    }
  }

  /** Texts whose lines agree without comments and surrounding white space set the same limit. */
  lemma StrippedTextsAgree(a: string, b: string, answer: Option<nat>)
    requires |Split(a, '\n')| == |Split(b, '\n')|
    requires forall i :: 0 <= i < |Split(a, '\n')| ==> Strip(Split(a, '\n')[i]) == Strip(Split(b, '\n')[i])
    ensures TextAnswers(a, answer) <==> TextAnswers(b, answer)
  {
    LinesOfStripped(Split(a, '\n'), Split(b, '\n'));
  }

  /** A comment appended to any line of any text never changes the limit the text sets. */
  lemma CommentNeverMatters(data: string, i: nat, comment: string, answer: Option<nat>)
    requires i < |Split(data, '\n')| && '\n' !in comment
    ensures
      var raws := Split(data, '\n');
      TextAnswers(Join(raws[i := raws[i] + "#" + comment], '\n'), answer) <==> TextAnswers(data, answer)
  {
    var raws := Split(data, '\n');
    var noted := raws[i := raws[i] + "#" + comment];
    JoinSplit(data, '\n');
    assert '\n' !in raws[i];
    assert NoneHas(noted, '\n');
    SplitJoin(noted, '\n');
    CommentIsStripped(raws[i], comment);
    StrippedTextsAgree(Join(noted, '\n'), data, answer);
  }

  lemma TrimLeftAppend(s: string, tail: string)
    requires tail != "" && !IsSpace(tail[0])
    ensures TrimLeft(s + tail, IsSpace) == TrimLeft(s, IsSpace) + tail
  {
    if s == "" {
      assert s + tail == tail;
    } else {
      assert (s + tail)[1..] == s[1..] + tail;
    }
  }

  lemma TrimLeftWithin(s: string)
    requires '#' !in s
    ensures '#' !in TrimLeft(s, IsSpace)
  {
  }

  lemma TrimRightWithin(s: string)
    requires '#' !in s
    ensures '#' !in TrimRight(s, IsSpace)
  {
  }

  lemma TrimLeftTwice(s: string)
    ensures TrimLeft(TrimLeft(s, IsSpace), IsSpace) == TrimLeft(s, IsSpace)
  {
  }

  lemma {:induction false} TrimRightKeeps(s: string, c: char, tail: string)
    requires !IsSpace(c)
    ensures s + [c] <= TrimRight(s + [c] + tail, IsSpace)
    decreases |tail|
  {
    var whole := s + [c] + tail;
    if tail != "" {
      assert whole[..|whole| - 1] == s + [c] + tail[..|tail| - 1];
      TrimRightKeeps(s, c, tail[..|tail| - 1]);
    }
  }

  lemma {:induction false} IndexOfIs(s: string, c: char, k: nat)
    requires k < |s| && s[k] == c && c !in s[..k]
    ensures IndexOf(s, c) == k
  {
    if k > 0 {
      assert s[..k][0] == s[0];
      assert s[1..][..k - 1] == s[..k][1..];
      IndexOfIs(s[1..], c, k - 1);
    }
  }

  // ---------- Printing then parsing ----------

  function Printed(n: nat, unit: string): string {
    "[wsl2]\nmemory=" + Decimal(n) + unit
  }

  /** Bytes in a unit, in any letter case. */
  function Unit(name: string): Option<nat> {
    UnitSize(Map(name, AsciiLower))
  }

  lemma AmountOfPrinted(n: nat, unit: string)
    requires Unit(unit).Some?
    ensures Amount(Decimal(n) + unit) ==
              (if n * Unit(unit).value <= MAX_UINT64 then Some(n * Unit(unit).value) else None)
  {
    var digits := Decimal(n);
    var val := digits + unit;
    UnitIsPlain(unit);
    assert val[..|digits|] == digits && val[|digits|..] == unit && val[|digits|] == unit[0];
    DigitRunIs(val, |digits|);
    DecimalValue(n);
    TrimmedStays(unit, IsSpace);
  }

  /** No white space, newline or comment sign. */
  predicate Plain(s: string) {
    forall i :: 0 <= i < |s| ==> !IsSpace(s[i]) && s[i] != '#'
  }

  lemma PlainStrips(line: string)
    requires Plain(line)
    ensures '\n' !in line && Strip(line) == line
  {
    assert IsSpace('\n');
    TrimmedStays(line, IsSpace);
  }

  lemma UnitIsPlain(unit: string)
    requires Unit(unit).Some?
    ensures unit != "" && Plain(unit) && !IsDigit(unit[0])
  {
    var lower := Map(unit, AsciiLower);
    assert forall i :: 0 <= i < |lower| ==> lower[i] in {'t', 'g', 'm', 'k', 'b'};
    forall i | 0 <= i < |unit|
      ensures !IsSpace(unit[i]) && unit[i] != '#' && !IsDigit(unit[i])
    {
      assert lower[i] == AsciiLower(unit[i]);
    }
  }

  lemma DigitsArePlain(digits: string)
    requires AllDigits(digits)
    ensures Plain(digits)
  {
    forall i | 0 <= i < |digits|
      ensures !IsSpace(digits[i]) && digits[i] != '#'
    {
      assert IsDigit(digits[i]);
    }
  }

  lemma PlainConcat(a: string, b: string)
    requires Plain(a) && Plain(b)
    ensures Plain(a + b)
  {
  }

  lemma MemoryLineIsPlain(n: nat, unit: string)
    requires Unit(unit).Some?
    ensures Plain(Decimal(n) + unit) && Plain("memory=" + (Decimal(n) + unit))
  {
    UnitIsPlain(unit);
    DigitsArePlain(Decimal(n));
    PlainConcat(Decimal(n), unit);
    PlainConcat("memory=", Decimal(n) + unit);
  }

  lemma PrintedLines(n: nat, unit: string)
    requires Unit(unit).Some?
    ensures Split(Printed(n, unit), '\n') == ["[wsl2]", "memory=" + (Decimal(n) + unit)]
  {
    var second := "memory=" + (Decimal(n) + unit);
    MemoryLineIsPlain(n, unit);
    PlainStrips(second);
    assert Printed(n, unit) == "[wsl2]" + ['\n'] + second;
    SplitFirst("[wsl2]", '\n', second);
  }

  lemma TwoLineAnswer(line: Line)
    requires !line.Header?
    ensures Answers([Header(true), line], if line.Memory? then Some(line.bytes) else None)
  {
    var lines := [Header(true), line];
    assert lines[0] == Header(true) && lines[1] == line;
    assert InWsl2(lines, 1);
    assert !SetsLimit(lines, 0);
    if line.Memory? {
      assert SetsLimit(lines, 1);
    }
  }

  /** n followed by a unit, in any letter case, is read back as n units exactly when that many bytes fit 64 bits. */
  lemma PrintedIsReadBack(n: nat, unit: string)
    requires Unit(unit).Some?
    ensures
      var bytes := n * Unit(unit).value;
      TextAnswers(Printed(n, unit), if bytes <= MAX_UINT64 then Some(bytes) else None)
  {
    var val := Decimal(n) + unit;
    var second := "memory=" + val;
    PrintedLines(n, unit);
    MemoryLineIsPlain(n, unit);
    HeaderOpens();
    PlainStrips(second);
    LimitOfMemoryLine(val);
    AmountOfPrinted(n, unit);
    assert second[0] == 'm';
    TwoLineAnswer(Classify(second));
    assert Lines(["[wsl2]", second]) == [Header(true), Classify(second)];
  }

  lemma HeaderOpens()
    ensures Classify(Strip("[wsl2]")) == Header(true)
  {
    var header := "[wsl2]";
    PlainStrips(header);
    assert header[1..|header| - 1] == "wsl2";
    TrimmedStays("wsl2", IsSpace);
  }

  lemma LimitOfMemoryLine(val: string)
    requires Trimmed(val, IsSpace)
    ensures Limit("memory=" + val) == Amount(val)
  {
    var line := "memory=" + val;
    assert line[6] == '=' && line[..6] == "memory" && line[7..] == val;
    IndexOfIs(line, '=', 6);
    TrimmedStays("memory", IsSpace);
    TrimmedStays(val, IsSpace);
  }

  // ---------- In numbers ----------

  /** A letter, in either case, with or without a b, and how many bytes it stands for. */
  predicate IsUnit(unit: string, size: nat) {
    && 1 <= |unit| <= 2 && (|unit| == 2 ==> unit[1] == 'b' || unit[1] == 'B')
    && (|| (size == 1024 && (unit[0] == 'k' || unit[0] == 'K'))
        || (size == 1048576 && (unit[0] == 'm' || unit[0] == 'M'))
        || (size == 1073741824 && (unit[0] == 'g' || unit[0] == 'G'))
        || (size == 1099511627776 && (unit[0] == 't' || unit[0] == 'T')))
  }

  lemma SizeOfLetter(c: char)
    ensures c == 'k' ==> UnitSize([c, 'b']) == UnitSize([c]) == Some(1024)
    ensures c == 'm' ==> UnitSize([c, 'b']) == UnitSize([c]) == Some(1048576)
    ensures c == 'g' ==> UnitSize([c, 'b']) == UnitSize([c]) == Some(1073741824)
    ensures c == 't' ==> UnitSize([c, 'b']) == UnitSize([c]) == Some(1099511627776)
  {
  }

  lemma LowerOfTwo(a: char, b: char)
    ensures Map([a, b], AsciiLower) == [AsciiLower(a), AsciiLower(b)] && Map([a], AsciiLower) == [AsciiLower(a)]
  {
    assert [a, b][1..] == [b] && [b][1..] == [];
  }

  lemma UnitsInNumbers(unit: string, size: nat)
    requires IsUnit(unit, size)
    ensures Unit(unit) == Some(size)
  {
    SizeOfLetter(AsciiLower(unit[0]));
    if |unit| == 2 {
      assert unit == [unit[0], unit[1]];
      LowerOfTwo(unit[0], unit[1]);
    } else {
      assert unit == [unit[0]];
      LowerOfTwo(unit[0], 'b');
    }
  }

  /** "memory=8GB" is 8 x 1073741824 bytes, and so on for every unit, as far as 64 bits go. */
  lemma LimitsInNumbers(n: nat, unit: string, size: nat)
    requires IsUnit(unit, size)
    ensures TextAnswers("[wsl2]\nmemory=" + Decimal(n) + unit,
                        if n * size <= 18446744073709551615 then Some(n * size) else None)
  {
    UnitsInNumbers(unit, size);
    PrintedIsReadBack(n, unit);
  }

  /** Of the ASCII words these are all the units there are. */
  lemma OnlyTheseAreUnits(unit: string, size: nat)
    requires IsAscii(unit)
    ensures Unit(unit) == Some(size) <==> IsUnit(unit, size)
  {
    if IsUnit(unit, size) {
      UnitsInNumbers(unit, size);
    }
    if Unit(unit) == Some(size) {
      var lower := Map(unit, AsciiLower);
      assert 1 <= |unit| <= 2 && lower[0] == AsciiLower(unit[0]);
      assert |unit| == 2 ==> lower[1] == AsciiLower(unit[1]) == 'b';
      SizeOfLetter(lower[0]);
      LetterInEitherCase(unit[0]);
      if |unit| == 2 {
        assert lower == [lower[0], 'b'];
        LetterInEitherCase(unit[1]);
      } else {
        assert lower == [lower[0]];
      }
    }
  }

  lemma LetterInEitherCase(c: char)
    requires c as int < 0x80
    ensures AsciiLower(c) == 'k' ==> c == 'k' || c == 'K'
    ensures AsciiLower(c) == 'm' ==> c == 'm' || c == 'M'
    ensures AsciiLower(c) == 'g' ==> c == 'g' || c == 'G'
    ensures AsciiLower(c) == 't' ==> c == 't' || c == 'T'
    ensures AsciiLower(c) == 'b' ==> c == 'b' || c == 'B'
  {
  }

  /** White space may stand between the number and its unit, and after it; without a digit in front there is no
      limit. */
  lemma AmountIsFree(n: nat, b: string, unit: string)
    requires AllSpace(b) && Unit(unit).Some?
    ensures Amount(Decimal(n) + (b + unit)) == Amount(Decimal(n) + unit)
    ensures Amount(b + unit) == None
  {
    var digits := Decimal(n);
    var val := digits + (b + unit);
    UnitIsPlain(unit);
    assert val[..|digits|] == digits && val[|digits|..] == b + unit;
    assert b != "" ==> (b + unit)[0] == b[0] && IsSpace(b[0]);
    assert !IsDigit((b + unit)[0]) && val[|digits|] == (b + unit)[0];
    DigitRunIs(val, |digits|);
    TrimmedPlain(unit);
    assert b + unit + "" == b + unit;
    TrimSpaceDrops(b, unit, "");
    AmountOfPrinted(n, unit);
    DecimalValue(n);
    assert (b + unit)[..0] == "";
    DigitRunIs(b + unit, 0);
  }

  lemma BareAmount(n: nat)
    ensures Amount(Decimal(n)) == None
  {
    var val := Decimal(n);
    assert val[..|val|] == val && val[|val|..] == "";
    DigitRunIs(val, |val|);
    assert Map(TrimSpace(""), AsciiLower) == "";
  }

  lemma BareLine(n: nat)
    ensures Limit("memory=" + Decimal(n)) == None
  {
    DigitsArePlain(Decimal(n));
    TrimmedPlain(Decimal(n));
    LimitOfMemoryLine(Decimal(n));
    BareAmount(n);
  }

  lemma BareLineIsPlain(n: nat)
    ensures Plain("memory=" + Decimal(n))
  {
    DigitsArePlain(Decimal(n));
    PlainConcat("memory=", Decimal(n));
  }

  /** A number alone sets no limit. */
  lemma BareNumberSetsNothing(n: nat)
    ensures TextAnswers("[wsl2]\nmemory=" + Decimal(n), None)
  {
    var second := "memory=" + Decimal(n);
    BareLineIsPlain(n);
    PlainStrips(second);
    BareLine(n);
    TwoLineText(second);
    assert "[wsl2]\nmemory=" + Decimal(n) == "[wsl2]\n" + second;
  }

  lemma TrimmedPlain(val: string)
    requires Plain(val)
    ensures Trimmed(val, IsSpace)
  {
  }

  lemma TwoLinesSplit(second: string)
    requires '\n' !in second
    ensures Split("[wsl2]\n" + second, '\n') == ["[wsl2]", second]
  {
    assert "[wsl2]\n" + second == "[wsl2]" + ['\n'] + second;
    SplitFirst("[wsl2]", '\n', second);
  }

  lemma TwoLinesRead(second: string)
    requires Strip(second) == second
    ensures Lines(["[wsl2]", second]) == [Header(true), Classify(second)]
  {
    HeaderOpens();
    var raws := ["[wsl2]", second];
    assert raws[1..] == [second] && [second][1..] == [];
  }

  /** A memory line that sets no limit, alone in its section. */
  lemma TwoLineText(second: string)
    requires second != "" && second[0] == 'm' && '\n' !in second && Strip(second) == second && Limit(second).None?
    ensures TextAnswers("[wsl2]\n" + second, None)
  {
    TwoLinesSplit(second);
    TwoLinesRead(second);
    assert Classify(second) == Other;
    TwoLineAnswer(Other);
  }

  // ---------- White space and letter case ----------

  /** A header opens the section if its name is wsl2 in any letter case, with white space around it or not; of the
      ASCII names no other does. */
  lemma HeaderOpensExactlyWhen(a: string, name: string, d: string)
    requires AllSpace(a) && AllSpace(d) && name != "" && Trimmed(name, IsSpace) && IsAscii(name)
    ensures Classify("[" + (a + name + d) + "]") == Header(SameButCase(name, "wsl2"))
  {
    var inner := a + name + d;
    var line := "[" + inner + "]";
    assert line[1..|line| - 1] == inner;
    TrimSpaceDrops(a, name, d);
    if SameButCase(name, "wsl2") {
      CaseFolds(name, "wsl2");
    } else if EqualFold(name, "wsl2") {
      FoldedAsciiDiffersInCaseOnly(name, "wsl2");
    }
  }

  /** A memory line says the same in any letter case of its key, and with any white space around key and value. */
  lemma MemoryLineIsFree(a: string, key: string, b: string, c: string, val: string, d: string)
    requires AllSpace(a) && AllSpace(b) && AllSpace(c) && AllSpace(d)
    requires SameButCase(key, "memory") && val != "" && Trimmed(val, IsSpace) && '#' !in val
    ensures
      var line := key + b + "=" + c + val;
      && Strip(a + line + d) == line
      && Limit(line) == Amount(val) == Limit("memory=" + val)
  {
    var line := key + b + "=" + c + val;
    KeyIsPlain(key);
    assert line[0] == key[0] && line[|line| - 1] == val[|val| - 1];
    TrimSpaceDrops(a, line, d);
    NoHash(key, b, c, val);
    var i := |key| + |b|;
    assert line[i] == '=' && line[..i] == key + b && line[i + 1..] == c + val;
    NoEquals(key, b);
    IndexOfIs(line, '=', i);
    assert "" + key + b == key + b && c + val + "" == c + val;
    TrimSpaceDrops("", key, b);
    TrimSpaceDrops(c, val, "");
    CaseFolds(key, "memory");
    LimitOfMemoryLine(val);
  }

  lemma KeyIsPlain(key: string)
    requires SameButCase(key, "memory")
    ensures key != "" && Trimmed(key, IsSpace) && '#' !in key && '=' !in key
  {
  }

  lemma NoEquals(key: string, b: string)
    requires AllSpace(b) && '=' !in key
    ensures '=' !in key + b
  {
    assert !IsSpace('=');
  }

  lemma NoHash(key: string, b: string, c: string, val: string)
    requires AllSpace(b) && AllSpace(c) && '#' !in key && '#' !in val
    ensures '#' !in key + b + "=" + c + val
    ensures IndexOf(key + b + "=" + c + val, '#') == |key + b + "=" + c + val|
  {
    var line := key + b + "=" + c + val;
    assert !IsSpace('#') && '#' !in b && '#' !in c && '#' !in line;
  }
}
