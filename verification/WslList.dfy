/** Decoding and parsing the output of `wsl --list --quiet`.  Text is a sequence of Unicode scalar values. */
module WslList {
  import opened Text

  type Byte = b: int | 0 <= b < 256
  type Unit = u: int | 0 <= u < 0x1_0000

  const REPLACEMENT: char := 0xFFFD as char

  function ToChar(n: int): char
    requires 0 <= n < 0xD800 || 0xE000 <= n < 0x11_0000
  {
    n as char
  }

  // ---------- Decoding ----------

  predicate HighSurrogate(u: Unit) {
    0xD800 <= u < 0xDC00
  }

  predicate LowSurrogate(u: Unit) {
    0xDC00 <= u < 0xE000
  }

  function UnitOf(low: int, high: int): Unit
    requires 0 <= low < 256 && 0 <= high < 256
  {
    low + 256 * high
  }

  function PairOf(high: int, low: int): char
    requires 0xD800 <= high < 0xDC00 <= low < 0xE000
  {
    ToChar(0x1_0000 + (high - 0xD800) * 0x400 + (low - 0xDC00))
  }

  /** Little-endian 16-bit units; an odd last byte is dropped. */
  function Units(data: seq<Byte>): seq<Unit> {
    if |data| < 2 then [] else [UnitOf(data[0], data[1])] + Units(data[2..])
  }

  /** utf16.Decode: a surrogate pair is one character, a lone surrogate is replaced. */
  function DecodeUtf16(units: seq<Unit>): string {
    if units == [] then ""
    else if |units| >= 2 && HighSurrogate(units[0]) && LowSurrogate(units[1]) then
      [PairOf(units[0], units[1])] + DecodeUtf16(units[2..])
    else if HighSurrogate(units[0]) || LowSurrogate(units[0]) then [REPLACEMENT] + DecodeUtf16(units[1..])
    else [ToChar(units[0])] + DecodeUtf16(units[1..])
  }

  predicate Continuation(b: Byte) {
    0x80 <= b < 0xC0
  }

  /** Length of the well-formed UTF-8 sequence the data starts with, or 0 (section 4 of RFC 3629). */
  function SequenceLength(data: seq<Byte>): nat
    requires data != []
  {
    var b := data[0];
    if b < 0x80 then 1
    else if |data| >= 2 && 0xC2 <= b < 0xE0 && Continuation(data[1]) then 2
    else if
      && |data| >= 3 && 0xE0 <= b < 0xF0 && Continuation(data[1]) && Continuation(data[2])
      && (b == 0xE0 ==> data[1] >= 0xA0) && (b == 0xED ==> data[1] < 0xA0)
    then 3
    else if
      && |data| >= 4 && 0xF0 <= b < 0xF5 && Continuation(data[1]) && Continuation(data[2]) && Continuation(data[3])
      && (b == 0xF0 ==> data[1] >= 0x90) && (b == 0xF4 ==> data[1] < 0x90)
    then 4
    else 0
  }

  /** The character of a lead byte's payload bits followed by up to three continuation bytes. */
  function CharOf(payload: int, rest: seq<Byte>): char
    requires 1 <= |rest| <= 3 && 0 <= payload
    requires Continuation(rest[0])
    requires |rest| > 1 ==> Continuation(rest[1])
    requires |rest| > 2 ==> Continuation(rest[2])
    requires |rest| == 1 ==> payload < 0x20
    requires |rest| == 2 ==> payload < 0x10 && (payload == 0xD ==> rest[0] < 0xA0)
    requires |rest| == 3 ==> payload < 5 && (payload == 4 ==> rest[0] < 0x90) && (payload == 0 ==> rest[0] >= 0x90)
  {
    var b: int, c: int, d: int :=
      rest[0], if |rest| > 1 then rest[1] else 0x80, if |rest| > 2 then rest[2] else 0x80;
    if |rest| == 1 then ToChar(payload * 64 + (b - 0x80))
    else if |rest| == 2 then ToChar(payload * 4096 + (b - 0x80) * 64 + (c - 0x80))
    else ToChar(payload * 262144 + (b - 0x80) * 4096 + (c - 0x80) * 64 + (d - 0x80))
  }

  function DecodeUtf8(data: seq<Byte>): string {
    if data == [] then ""
    else
      var lead: int, n := data[0], SequenceLength(data);
      if n == 1 then [ToChar(lead)] + DecodeUtf8(data[1..])
      else if n == 2 then [CharOf(lead - 0xC0, data[1..2])] + DecodeUtf8(data[2..])
      else if n == 3 then [CharOf(lead - 0xE0, data[1..3])] + DecodeUtf8(data[3..])
      else if n == 4 then [CharOf(lead - 0xF0, data[1..4])] + DecodeUtf8(data[4..])
      else [REPLACEMENT] + DecodeUtf8(data[1..])
  }

  predicate StartsWithBom(data: seq<Byte>) {
    |data| >= 2 && data[0] == 0xFF && data[1] == 0xFE
  }

  predicate LooksLikeUtf16(data: seq<Byte>) {
    |data| >= 2 && (StartsWithBom(data) || 0 in data)
  }

  function Decoded(data: seq<Byte>): string {
    if LooksLikeUtf16(data) then DecodeUtf16(Units(if StartsWithBom(data) then data[2..] else data))
    else DecodeUtf8(data)
  }

  lemma {:induction false} UnitsSnoc(data: seq<Byte>, low: Byte, high: Byte)
    requires |data| % 2 == 0
    ensures Units(data + [low, high]) == Units(data) + [UnitOf(low, high)]
  {
    if data == [] {
      assert (data + [low, high])[2..] == [];
    } else {
      UnitsSnoc(data[2..], low, high);
      assert (data + [low, high])[2..] == data[2..] + [low, high];
    }
  }

  lemma {:induction false} UnitsIgnoreOddByte(data: seq<Byte>)
    requires |data| % 2 == 1
    ensures Units(data) == Units(data[..|data| - 1])
  {
    if |data| > 1 {
      UnitsIgnoreOddByte(data[2..]);
      assert data[..|data| - 1][2..] == data[2..][..|data[2..]| - 1];
    }
  }

  lemma NextUnit(body: seq<Byte>, i: nat)
    requires i % 2 == 0 && i + 1 < |body|
    ensures Units(body[..i + 2]) == Units(body[..i]) + [UnitOf(body[i], body[i + 1])]
  {
    UnitsSnoc(body[..i], body[i], body[i + 1]);
    assert body[..i + 2] == body[..i] + [body[i], body[i + 1]];
  }

  lemma AllUnits(body: seq<Byte>, i: nat)
    requires i % 2 == 0 && i <= |body| <= i + 1
    ensures Units(body[..i]) == Units(body)
  {
    if i == |body| {
      assert body[..i] == body;
    } else {
      UnitsIgnoreOddByte(body);
    }
  }

  method DecodeWslOutput(data: seq<Byte>) returns (text: string)
    ensures text == Decoded(data)
  {
    if |data| >= 2 && ((data[0] == 0xFF && data[1] == 0xFE) || 0 in data) {
      var u16: seq<Unit> := [];
      var start := 0;
      if data[0] == 0xFF && data[1] == 0xFE {
        start := 2;
      }
      ghost var body := data[start..];
      var i := start;
      while i + 1 < |data|
        invariant start <= i <= |data| && (i - start) % 2 == 0
        invariant u16 == Units(body[..i - start])
      {
        NextUnit(body, i - start);
        u16 := u16 + [UnitOf(data[i], data[i + 1])];
        i := i + 2;
      }
      AllUnits(body, i - start);
      return DecodeUtf16(u16);
    }
    return DecodeUtf8(data);
  }

  // ---------- Parsing ----------

  predicate NulOrReturn(c: char) {
    c as int == 0 || c == '\r'
  }

  function Clean(line: string): string {
    TrimSpace(Trim(line, NulOrReturn))
  }

  function CleanLines(lines: seq<string>): seq<string> {
    if lines == [] then []
    else (if Clean(lines[0]) == "" then [] else [Clean(lines[0])]) + CleanLines(lines[1..])
  }

  /** The distro names in the output. */
  function Names(data: seq<Byte>): seq<string> {
    CleanLines(Split(Decoded(data), '\n'))
  }

  lemma {:induction false} CleanLinesSnoc(lines: seq<string>, line: string)
    ensures CleanLines(lines + [line]) == CleanLines(lines) + if Clean(line) == "" then [] else [Clean(line)]
  {
    if lines != [] {
      assert (lines + [line])[1..] == lines[1..] + [line];
      CleanLinesSnoc(lines[1..], line);
    }
  }

  method ParseListOutput(data: seq<Byte>) returns (out: seq<string>)
    ensures out == Names(data)
  {
    var text := DecodeWslOutput(data);
    var lines := Split(text, '\n');
    out := [];
    for i := 0 to |lines|
      invariant out == CleanLines(lines[..i])
    {
      CleanLinesSnoc(lines[..i], lines[i]);
      assert lines[..i] + [lines[i]] == lines[..i + 1];
      var line := TrimSpace(Trim(lines[i], NulOrReturn));
      if line == "" {
        continue;
      }
      out := out + [line];
    }
    assert lines[..|lines|] == lines;
  }
}
