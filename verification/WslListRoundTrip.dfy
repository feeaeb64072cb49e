/** Every encoding wsl.exe may use for a list of distro names is read back as that list. */
module WslListRoundTrip {
  import opened Text
  import opened WslList

  // ---------- Encoders ----------

  /** UTF-16 (section 2.1 of RFC 2781). */
  function EncodeUtf16(s: string): seq<Unit> {
    if s == "" then []
    else
      var n := s[0] as int;
      (if n < 0x1_0000 then [n] else [0xD800 + (n - 0x1_0000) / 0x400, 0xDC00 + (n - 0x1_0000) % 0x400])
      + EncodeUtf16(s[1..])
  }

  function LittleEndian(units: seq<Unit>): seq<Byte> {
    if units == [] then [] else [units[0] % 256, units[0] / 256] + LittleEndian(units[1..])
  }

  /** UTF-8 (section 3 of RFC 3629). */
  function EncodeChar(c: char): (bytes: seq<Byte>)
    ensures bytes != []
  {
    var n := c as int;
    if n < 0x80 then [n]
    else if n < 0x800 then [0xC0 + n / 64, 0x80 + n % 64]
    else if n < 0x1_0000 then [0xE0 + n / 4096, 0x80 + n / 64 % 64, 0x80 + n % 64]
    else [0xF0 + n / 262144, 0x80 + n / 4096 % 64, 0x80 + n / 64 % 64, 0x80 + n % 64]
  }

  function EncodeUtf8(s: string): seq<Byte> {
    if s == "" then [] else EncodeChar(s[0]) + EncodeUtf8(s[1..])
  }

  const BOM: seq<Byte> := [0xFF, 0xFE]

  // ---------- Decoding undoes encoding ----------

  lemma {:induction false} Utf16RoundTrip(s: string)
    ensures DecodeUtf16(EncodeUtf16(s)) == s
  {
    if s != "" {
      var units, rest := EncodeUtf16(s), EncodeUtf16(s[1..]);
      Utf16RoundTrip(s[1..]);
      if s[0] as int < 0x1_0000 {
        assert units[1..] == rest;
      } else {
        assert units[2..] == rest;
      }
    }
  }

  lemma {:induction false} UnitsRoundTrip(units: seq<Unit>)
    ensures Units(LittleEndian(units)) == units
  {
    if units != [] {
      UnitsRoundTrip(units[1..]);
      assert LittleEndian(units)[2..] == LittleEndian(units[1..]);
    }
  }

  lemma ThreeByteBits(n: nat)
    requires n < 0x1_0000
    ensures n / 4096 * 4096 + n / 64 % 64 * 64 + n % 64 == n && n / 4096 < 0x10
    ensures n >= 0x800 && n / 4096 == 0 ==> n / 64 % 64 >= 0x20
    ensures n / 4096 == 0xD && n / 64 % 64 >= 0x20 ==> 0xD800 <= n < 0xE000
  {
  }

  lemma FourByteBits(n: nat)
    requires 0x1_0000 <= n < 0x11_0000
    ensures n / 262144 * 262144 + n / 4096 % 64 * 4096 + n / 64 % 64 * 64 + n % 64 == n
    ensures n / 262144 < 5
    ensures n / 262144 == 0 ==> n / 4096 % 64 >= 0x10
    ensures n / 262144 == 4 ==> n / 4096 % 64 < 0x10
  {
  }

  lemma ThreeBytesDecode(c: char, rest: seq<Byte>)
    requires 0x800 <= c as int < 0x1_0000
    ensures DecodeUtf8(EncodeChar(c) + rest) == [c] + DecodeUtf8(rest)
  {
    var bytes := EncodeChar(c);
    var data := bytes + rest;
    ThreeByteBits(c as int);
    assert data[0] == bytes[0] && data[1] == bytes[1] && data[2] == bytes[2];
    assert SequenceLength(data) == 3;
    assert data[1..3] == bytes[1..] && data[3..] == rest;
  }

  lemma FourBytesDecode(c: char, rest: seq<Byte>)
    requires 0x1_0000 <= c as int
    ensures DecodeUtf8(EncodeChar(c) + rest) == [c] + DecodeUtf8(rest)
  {
    var bytes := EncodeChar(c);
    var data := bytes + rest;
    FourByteBits(c as int);
    assert data[0] == bytes[0] && data[1] == bytes[1] && data[2] == bytes[2] && data[3] == bytes[3];
    assert SequenceLength(data) == 4;
    assert data[1..4] == bytes[1..] && data[4..] == rest;
  }

  lemma EncodedCharDecodes(c: char, rest: seq<Byte>)
    ensures DecodeUtf8(EncodeChar(c) + rest) == [c] + DecodeUtf8(rest)
  {
    var n := c as int;
    var bytes := EncodeChar(c);
    var data := bytes + rest;
    assert data[|bytes|..] == rest;
    if n < 0x80 {
    } else if n < 0x800 {
      assert SequenceLength(data) == 2;
      assert data[1..2] == bytes[1..];
    } else if n < 0x1_0000 {
      ThreeBytesDecode(c, rest);
    } else {
      FourBytesDecode(c, rest);
    }
  }

  lemma {:induction false} Utf8RoundTrip(s: string)
    ensures DecodeUtf8(EncodeUtf8(s)) == s
  {
    if s != "" {
      Utf8RoundTrip(s[1..]);
      EncodedCharDecodes(s[0], EncodeUtf8(s[1..]));
    }
  }

  // ---------- Which encoding is recognised ----------

  lemma {:induction false} Utf8HasNoNul(s: string)
    requires forall i :: 0 <= i < |s| ==> s[i] as int != 0
    ensures forall i :: 0 <= i < |EncodeUtf8(s)| ==> 0 < EncodeUtf8(s)[i] < 0xF8
  {
    if s != "" {
      assert s[0] as int != 0;
      Utf8HasNoNul(s[1..]);
    }
  }

  lemma Utf16BomExactlyWhen(s: string)
    requires s != ""
    ensures StartsWithBom(LittleEndian(EncodeUtf16(s))) <==> s[0] as int == 0xFEFF
  {
    var units := EncodeUtf16(s);
    assert LittleEndian(units)[0] == units[0] % 256 && LittleEndian(units)[1] == units[0] / 256;
  }

  /** A newline is an ASCII character: its high byte in UTF-16 is zero. */
  lemma {:induction false} NewlineShowsUtf16(s: string)
    requires '\n' in s
    ensures 0 in LittleEndian(EncodeUtf16(s))
  {
    var units := EncodeUtf16(s);
    var bytes := LittleEndian(units);
    if s[0] == '\n' {
      assert bytes[1] == 0;
    } else {
      NewlineShowsUtf16(s[1..]);
      var rest := LittleEndian(EncodeUtf16(s[1..]));
      var i :| 0 <= i < |rest| && rest[i] == 0;
      LittleEndianSplits(units[..|units| - |EncodeUtf16(s[1..])|], EncodeUtf16(s[1..]));
      assert units == units[..|units| - |EncodeUtf16(s[1..])|] + EncodeUtf16(s[1..]);
      assert bytes[|bytes| - |rest| + i] == 0;
    }
  }

  lemma {:induction false} LittleEndianSplits(a: seq<Unit>, b: seq<Unit>)
    ensures LittleEndian(a + b) == LittleEndian(a) + LittleEndian(b)
  {
    if a == [] {
      assert a + b == b;
    } else {
      assert (a + b)[1..] == a[1..] + b;
      LittleEndianSplits(a[1..], b);
    }
  }

  // ---------- Lines ----------

  /** A distro name: not empty, no newline, no NUL, no white space at either end. */
  predicate IsName(name: string) {
    && name != "" && '\n' !in name && Trimmed(name, IsSpace)
    && forall i :: 0 <= i < |name| ==> name[i] as int != 0
  }

  /** The names, each on a line of its own. */
  function Listing(names: seq<string>): string {
    if names == [] then "" else names[0] + "\r\n" + Listing(names[1..])
  }

  predicate AllNames(names: seq<string>) {
    forall i :: 0 <= i < |names| ==> IsName(names[i])
  }

  lemma TrimRightOnce(s: string, c: char, cut: char -> bool)
    requires cut(c)
    ensures TrimRight(s + [c], cut) == TrimRight(s, cut)
  {
    assert (s + [c])[..|s|] == s;
  }

  lemma CleanLine(name: string)
    requires IsName(name)
    ensures Clean(name + "\r") == name
  {
    var line := name + "\r";
    assert IsSpace('\r') && name[0] as int != 0 && name[|name| - 1] as int != 0;
    assert TrimLeft(line, NulOrReturn) == line;
    TrimRightOnce(name, '\r', NulOrReturn);
    TrimmedStays(name, NulOrReturn);
    TrimmedStays(name, IsSpace);
  }

  lemma FirstLineParses(name: string, rest: string)
    requires IsName(name)
    ensures CleanLines(Split(name + "\r\n" + rest, '\n')) == [name] + CleanLines(Split(rest, '\n'))
  {
    var first := name + "\r";
    assert name + "\r\n" + rest == first + ['\n'] + rest;
    SplitFirst(first, '\n', rest);
    CleanLine(name);
    var lines := [first] + Split(rest, '\n');
    assert lines[0] == first && lines[1..] == Split(rest, '\n');
  }

  lemma {:induction false} ListingParses(names: seq<string>)
    requires AllNames(names)
    ensures CleanLines(Split(Listing(names), '\n')) == names
  {
    if names == [] {
      assert Clean("") == "";
    } else {
      assert IsName(names[0]);
      FirstLineParses(names[0], Listing(names[1..]));
      ListingParses(names[1..]);
    }
  }

  lemma {:induction false} ListingHasNoNul(names: seq<string>)
    requires AllNames(names)
    ensures forall i :: 0 <= i < |Listing(names)| ==> Listing(names)[i] as int != 0
  {
    if names != [] {
      assert IsName(names[0]);
      ListingHasNoNul(names[1..]);
    }
  }

  // ---------- The three encodings ----------

  function InUtf16(names: seq<string>): seq<Byte> {
    LittleEndian(EncodeUtf16(Listing(names)))
  }

  lemma Utf16Reads(text: string)
    ensures DecodeUtf16(Units(LittleEndian(EncodeUtf16(text)))) == text
  {
    UnitsRoundTrip(EncodeUtf16(text));
    Utf16RoundTrip(text);
  }

  /** UTF-16LE with a byte order mark is always read back exactly. */
  lemma MarkedUtf16RoundTrips(names: seq<string>)
    requires AllNames(names)
    ensures Names([0xFF, 0xFE] + InUtf16(names)) == names
  {
    assert (BOM + InUtf16(names))[2..] == InUtf16(names);
    Utf16Reads(Listing(names));
    ListingParses(names);
  }

  /** UTF-8 is always read back exactly: it has no zero byte and never starts like the mark. */
  lemma Utf8ListRoundTrips(names: seq<string>)
    requires AllNames(names)
    ensures Names(EncodeUtf8(Listing(names))) == names
  {
    var text := Listing(names);
    ListingHasNoNul(names);
    Utf8HasNoNul(text);
    assert Decoded(EncodeUtf8(text)) == text by {
      Utf8RoundTrip(text);
    }
    ListingParses(names);
  }

  /** Without the mark, UTF-16LE is read back exactly unless the first name starts with U+FEFF, which is then
      taken for the mark. */
  lemma BareUtf16RoundTripsExactlyWhen(names: seq<string>)
    requires AllNames(names)
    ensures Names(InUtf16(names)) == names <==> names == [] || names[0][0] as int != 0xFEFF
  {
    var text, data := Listing(names), InUtf16(names);
    ListingParses(names);
    Utf16Reads(text);
    if names == [] {
      assert data == [] && Decoded(data) == "";
    } else {
      assert IsName(names[0]);
      assert text[0] == names[0][0] && text[|names[0]| + 1] == '\n';
      NewlineShowsUtf16(text);
      Utf16BomExactlyWhen(text);
      if names[0][0] as int == 0xFEFF {
        LeadingMarkIsLost(names);
      }
    }
  }

  lemma LeadingMarkIsLost(names: seq<string>)
    requires AllNames(names) && names != [] && names[0][0] as int == 0xFEFF
    ensures Names(InUtf16(names)) != names
  {
    var text, data := Listing(names), InUtf16(names);
    var tail := text[1..];
    assert IsName(names[0]);
    Utf16BomExactlyWhen(text);
    assert EncodeUtf16(text) == [0xFEFF] + EncodeUtf16(tail);
    assert data[2..] == LittleEndian(EncodeUtf16(tail));
    Utf16Reads(tail);
    assert Decoded(data) == tail;
    var first, rest := names[0][1..] + "\r", Listing(names[1..]);
    assert tail == first + ['\n'] + rest;
    SplitFirst(first, '\n', rest);
    ListingParses(names[1..]);
    var short := Clean(first);
    assert |short| < |names[0]| by {
      TrimRightOnce(names[0][1..], '\r', NulOrReturn);
      CleanShortens(names[0][1..]);
    }
  }

  lemma CleanShortens(s: string)
    ensures |Clean(s + "\r")| <= |s|
  {
    var line := s + "\r";
    if TrimLeft(line, NulOrReturn) == line {
      TrimRightOnce(s, '\r', NulOrReturn);
      TrimRightShortens(s, NulOrReturn);
    } else {
      TrimLeftStrictlyShortens(line, NulOrReturn);
      TrimRightShortens(TrimLeft(line, NulOrReturn), NulOrReturn);
    }
    TrimShortens(Trim(line, NulOrReturn), IsSpace);
  }

  lemma TrimLeftStrictlyShortens(s: string, cut: char -> bool)
    requires TrimLeft(s, cut) != s
    ensures |TrimLeft(s, cut)| < |s|
  {
    TrimLeftShortens(s[1..], cut);
  }

  // ---------- Blank lines ----------

  /** Nothing but white space, or nothing but NULs and carriage returns. */
  predicate IsBlank(line: string) {
    AllSpace(line) || forall i :: 0 <= i < |line| ==> line[i] as int == 0 || line[i] as int == 13
  }

  lemma {:induction false} TrimsAway(line: string, cut: char -> bool)
    requires forall i :: 0 <= i < |line| ==> cut(line[i])
    ensures TrimLeft(line, cut) == ""
  {
    if line != "" {
      assert cut(line[0]);
      TrimsAway(line[1..], cut);
    }
  }

  lemma {:induction false} TrimLeftIsEnd(s: string, cut: char -> bool) returns (n: nat)
    ensures n <= |s| && TrimLeft(s, cut) == s[n..]
  {
    if s != "" && cut(s[0]) {
      n := TrimLeftIsEnd(s[1..], cut);
      n := n + 1;
    } else {
      n := 0;
    }
  }

  lemma {:induction false} TrimRightIsStart(s: string, cut: char -> bool) returns (n: nat)
    ensures n <= |s| && TrimRight(s, cut) == s[..n]
  {
    if s != "" && cut(s[|s| - 1]) {
      n := TrimRightIsStart(s[..|s| - 1], cut);
    } else {
      n := |s|;
    }
  }

  lemma BlankIsNothing(line: string)
    requires IsBlank(line)
    ensures Clean(line) == ""
  {
    if AllSpace(line) {
      var n := TrimLeftIsEnd(line, NulOrReturn);
      var k := TrimRightIsStart(line[n..], NulOrReturn);
      TrimsAway(line[n..][..k], IsSpace);
    } else {
      TrimsAway(line, NulOrReturn);
    }
  }

  /** NULs and carriage returns around a name are not part of it, nor is white space inside of those. */
  lemma PaddingIsTrimmed(a: string, b: string, name: string, c: string, d: string)
    requires IsName(name) && AllSpace(b) && AllSpace(c) && '\r' !in b && '\r' !in c
    requires forall i :: 0 <= i < |a| ==> a[i] as int == 0 || a[i] as int == 13
    requires forall i :: 0 <= i < |d| ==> d[i] as int == 0 || d[i] as int == 13
    ensures Clean(a + (b + name + c) + d) == name
  {
    var inner := b + name + c;
    assert name[0] as int != 0 && name[|name| - 1] as int != 0 && IsSpace('\r');
    assert b != "" ==> b[0] != '\r' && IsSpace(b[0]);
    assert c != "" ==> c[|c| - 1] != '\r' && IsSpace(c[|c| - 1]);
    assert inner[0] == (if b != "" then b[0] else name[0]);
    assert inner[|inner| - 1] == (if c != "" then c[|c| - 1] else name[|name| - 1]);
    TrimDrops(a, inner, d, NulOrReturn);
    TrimSpaceDrops(b, name, c);
  }

  /** The lines that are names, in order. */
  function NamesAmong(lines: seq<string>): seq<string> {
    if lines == [] then [] else (if IsName(lines[0]) then [lines[0]] else []) + NamesAmong(lines[1..])
  }

  /** In a listing with blank lines anywhere, exactly the names are found, in order. */
  lemma {:induction false} BlankLinesAreSkipped(lines: seq<string>)
    requires forall i :: 0 <= i < |lines| ==> '\n' !in lines[i] && (IsName(lines[i]) || IsBlank(lines[i]))
    ensures CleanLines(Split(Listing(lines), '\n')) == NamesAmong(lines)
  {
    if lines == [] {
      assert Clean("") == "";
    } else {
      var line, rest := lines[0] + "\r", Listing(lines[1..]);
      assert Listing(lines) == line + ['\n'] + rest;
      SplitFirst(line, '\n', rest);
      assert Clean(line) == if IsName(lines[0]) then lines[0] else "" by {
        if IsName(lines[0]) {
          CleanLine(lines[0]);
        } else {
          assert IsSpace('\r') && NulOrReturn('\r');
          BlankIsNothing(line);
        }
      }
      assert lines[0] != "" || !IsName(lines[0]);
      var all := [line] + Split(rest, '\n');
      assert all[0] == line && all[1..] == Split(rest, '\n');
      BlankLinesAreSkipped(lines[1..]);
    }
  }

  // ---------- Known bytes ----------

  /** A surrogate pair, a lone surrogate, two and four bytes of UTF-8, and a byte that is none. */
  lemma KnownBytes()
    ensures DecodeUtf16([0xD83D, 0xDE00]) == [0x1F600 as char] && DecodeUtf16([0xD83D]) == [0xFFFD as char]
    ensures DecodeUtf16([0xDE00]) == [0xFFFD as char]
    ensures DecodeUtf8([0xC3, 0xA9]) == [0xE9 as char] && DecodeUtf8([0xFF]) == [0xFFFD as char]
    ensures DecodeUtf8([0xF0, 0x9F, 0x98, 0x80]) == [0x1F600 as char]
    ensures Units([0x41, 0x00, 0x42]) == [0x41]
  {
    assert [0xC3, 0xA9][2..] == [] && [0xF0, 0x9F, 0x98, 0x80][4..] == [] && [0x41, 0x00, 0x42][2..] == [0x42];
    assert [0xD83D, 0xDE00][2..] == [] && [0xFF][1..] == [] && [0xDE00][1..] == [] && [0xD83D][1..] == [];
  }
}
