/** Standard base64 (section 4 of RFC 4648) as encoding/base64 writes and reads it: line breaks are skipped, and
    the unused bits of a padded group are not checked. */
module Base64 {
  import opened StateFile

  type Byte = b: int | 0 <= b < 256
  type Sextet = v: int | 0 <= v < 64

  function CharOf(v: Sextet): char {
    if v < 26 then ('A' as int + v) as char
    else if v < 52 then ('a' as int + (v - 26)) as char
    else if v < 62 then ('0' as int + (v - 52)) as char
    else if v == 62 then '+'
    else '/'
  }

  function ValueOf(c: char): Option<Sextet> {
    if 'A' <= c <= 'Z' then Some(c as int - 'A' as int)
    else if 'a' <= c <= 'z' then Some(c as int - 'a' as int + 26)
    else if '0' <= c <= '9' then Some(c as int - '0' as int + 52)
    else if c == '+' then Some(62)
    else if c == '/' then Some(63)
    else None
  }

  lemma CharOfIsRead(v: Sextet)
    ensures ValueOf(CharOf(v)) == Some(v)
    ensures CharOf(v) != '=' && CharOf(v) != '\r' && CharOf(v) != '\n' && 0x2B <= CharOf(v) as int < 0x7B
  {
  }

  // The bits of a group, high to low.

  function Top(a: Byte): Sextet { a / 4 }

  function Upper(a: Byte, b: Byte): Sextet { a % 4 * 16 + b / 16 }

  function Lower(b: Byte, c: Byte): Sextet { b % 16 * 4 + c / 64 }

  function Low(c: Byte): Sextet { c % 64 }

  function First(v: Sextet, w: Sextet): Byte { v * 4 + w / 16 }

  function Second(w: Sextet, x: Sextet): Byte { w % 16 * 16 + x / 4 }

  function Third(x: Sextet, y: Sextet): Byte { x % 4 * 64 + y }

  lemma BitsRoundTrip(a: Byte, b: Byte, c: Byte)
    ensures First(Top(a), Upper(a, b)) == a
    ensures Second(Upper(a, b), Lower(b, c)) == b
    ensures Third(Lower(b, c), Low(c)) == c
  {
  }

  function Encode(data: seq<Byte>): string {
    if data == [] then ""
    else if |data| == 1 then [CharOf(Top(data[0])), CharOf(Upper(data[0], 0)), '=', '=']
    else if |data| == 2 then
      [CharOf(Top(data[0])), CharOf(Upper(data[0], data[1])), CharOf(Lower(data[1], 0)), '=']
    else
      [CharOf(Top(data[0])), CharOf(Upper(data[0], data[1])), CharOf(Lower(data[1], data[2])), CharOf(Low(data[2]))]
      + Encode(data[3..])
  }

  function WithoutBreaks(s: string): string {
    if s == "" then ""
    else (if s[0] == '\r' || s[0] == '\n' then "" else [s[0]]) + WithoutBreaks(s[1..])
  }

  /** Groups of four; only the last may be padded.  None is a corrupt input. */
  function DecodeGroups(s: string): Option<seq<Byte>> {
    if s == "" then Some([])
    else if |s| < 4 then None
    else
      var v, w, x, y := ValueOf(s[0]), ValueOf(s[1]), ValueOf(s[2]), ValueOf(s[3]);
      if v.None? || w.None? then None
      else if s[2] == '=' then
        if s[3] == '=' && |s| == 4 then Some([First(v.value, w.value)]) else None
      else if x.None? then None
      else if s[3] == '=' then
        if |s| == 4 then Some([First(v.value, w.value), Second(w.value, x.value)]) else None
      else if y.None? then None
      else match DecodeGroups(s[4..])
        case Some(rest) =>
          Some([First(v.value, w.value), Second(w.value, x.value), Third(x.value, y.value)] + rest)
        case None => None
  }

  function Decode(s: string): Option<seq<Byte>> {
    DecodeGroups(WithoutBreaks(s))
  }

  // ---------- Round trip ----------

  predicate Printable(s: string) {
    forall i :: 0 <= i < |s| ==> 0x2B <= s[i] as int < 0x7B
  }

  lemma {:induction false} EncodeIsPrintable(data: seq<Byte>)
    ensures Printable(Encode(data))
    ensures data != [] ==> Encode(data) != ""
  {
    if |data| >= 3 {
      CharOfIsRead(Top(data[0]));
      CharOfIsRead(Upper(data[0], data[1]));
      CharOfIsRead(Lower(data[1], data[2]));
      CharOfIsRead(Low(data[2]));
      EncodeIsPrintable(data[3..]);
    }
  }

  lemma {:induction false} PrintableHasNoBreaks(s: string)
    requires Printable(s)
    ensures WithoutBreaks(s) == s
  {
    if s != "" {
      assert 0x2B <= s[0] as int;
      PrintableHasNoBreaks(s[1..]);
    }
  }

  lemma PaddedPairReads(v: Sextet, w: Sextet)
    ensures DecodeGroups([CharOf(v), CharOf(w), '=', '=']) == Some([First(v, w)])
  {
    CharOfIsRead(v);
    CharOfIsRead(w);
  }

  lemma OneByteRoundTrips(a: Byte)
    ensures DecodeGroups(Encode([a])) == Some([a])
  {
    BitsRoundTrip(a, 0, 0);
    PaddedPairReads(Top(a), Upper(a, 0));
  }

  lemma TwoBytesRoundTrip(a: Byte, b: Byte)
    ensures DecodeGroups(Encode([a, b])) == Some([a, b])
  {
    BitsRoundTrip(a, b, 0);
    CharOfIsRead(Top(a));
    CharOfIsRead(Upper(a, b));
    CharOfIsRead(Lower(b, 0));
    assert Encode([a, b]) == [CharOf(Top(a)), CharOf(Upper(a, b)), CharOf(Lower(b, 0)), '='];
  }

  lemma {:induction false} GroupsRoundTrip(data: seq<Byte>)
    ensures DecodeGroups(Encode(data)) == Some(data)
  {
    if |data| == 1 {
      assert data == [data[0]];
      OneByteRoundTrips(data[0]);
    } else if |data| == 2 {
      assert data == [data[0], data[1]];
      TwoBytesRoundTrip(data[0], data[1]);
    } else if |data| >= 3 {
      GroupsRoundTrip(data[3..]);
      GroupRoundTrips(data[0], data[1], data[2], Encode(data[3..]));
      assert data == [data[0], data[1], data[2]] + data[3..];
    }
  }

  lemma GroupRoundTrips(a: Byte, b: Byte, c: Byte, rest: string)
    requires DecodeGroups(rest).Some?
    ensures
      DecodeGroups([CharOf(Top(a)), CharOf(Upper(a, b)), CharOf(Lower(b, c)), CharOf(Low(c))] + rest)
      == Some([a, b, c] + DecodeGroups(rest).value)
  {
    var s := [CharOf(Top(a)), CharOf(Upper(a, b)), CharOf(Lower(b, c)), CharOf(Low(c))] + rest;
    BitsRoundTrip(a, b, c);
    CharOfIsRead(Top(a));
    CharOfIsRead(Upper(a, b));
    CharOfIsRead(Lower(b, c));
    CharOfIsRead(Low(c));
    assert s[4..] == rest;
  }

  lemma DecodeEncode(data: seq<Byte>)
    ensures Decode(Encode(data)) == Some(data)
  {
    EncodeIsPrintable(data);
    PrintableHasNoBreaks(Encode(data));
    GroupsRoundTrip(data);
  }

  // ---------- The standard's own words ----------

  const UPPER := "ABCDEFGHIJKLMNOPQRSTUVWXYZ"
  const LOWER := "abcdefghijklmnopqrstuvwxyz"
  const DIGITS := "0123456789"

  lemma Upper26(v: nat)
    requires v < 26
    ensures UPPER[v] as int == 'A' as int + v
  {
  }

  lemma Lower26(v: nat)
    requires v < 26
    ensures LOWER[v] as int == 'a' as int + v
  {
  }

  lemma Digits10(v: nat)
    requires v < 10
    ensures DIGITS[v] as int == '0' as int + v
  {
  }

  /** The alphabet of table 1 in section 4 of RFC 4648. */
  lemma AlphabetIsStandard(v: Sextet)
    ensures v < 26 ==> CharOf(v) == UPPER[v]
    ensures 26 <= v < 52 ==> CharOf(v) == LOWER[v - 26]
    ensures 52 <= v < 62 ==> CharOf(v) == DIGITS[v - 52]
    ensures CharOf(62) == '+' && CharOf(63) == '/'
  {
    if v < 26 {
      Upper26(v);
    } else if v < 52 {
      Lower26(v - 26);
    } else if v < 62 {
      Digits10(v - 52);
    }
  }

  /** A character is read as the value it is written for, and no other character is read. */
  lemma OnlyTheAlphabetIsRead(c: char, v: Sextet)
    ensures ValueOf(c) == Some(v) <==> CharOf(v) == c
  {
    CharOfIsRead(v);
  }

  /** Section 10 of RFC 4648: "f", "fo", "foo" and "foob". */
  lemma TestVectors()
    ensures Encode([0x66]) == "Zg==" && Encode([0x66, 0x6F]) == "Zm8=" && Encode([0x66, 0x6F, 0x6F]) == "Zm9v"
    ensures Encode([0x66, 0x6F, 0x6F, 0x62]) == "Zm9vYg=="
  {
    assert [0x66, 0x6F, 0x6F][3..] == [] && [0x66, 0x6F, 0x6F, 0x62][3..] == [0x62];
  }

  /** A padded group of four. */
  lemma LastGroup(s: string)
    requires DecodeGroups(s).Some? && |s| >= 4 && (s[2] == '=' || s[3] == '=')
    ensures |s| == 4 && ValueOf(s[0]).Some? && ValueOf(s[1]).Some? && s[3] == '='
    ensures s[2] == '=' || ValueOf(s[2]).Some?
    ensures |DecodeGroups(s).value| == if s[2] == '=' then 1 else 2
  {
    assert ValueOf('=').None?;
  }

  lemma FullGroup(s: string)
    requires DecodeGroups(s).Some? && |s| >= 4 && s[2] != '=' && s[3] != '='
    ensures DecodeGroups(s[4..]).Some? && |DecodeGroups(s).value| == 3 + |DecodeGroups(s[4..]).value|
    ensures ValueOf(s[0]).Some? && ValueOf(s[1]).Some? && ValueOf(s[2]).Some? && ValueOf(s[3]).Some?
  {
  }

  /** Where a character may stand: one of the alphabet anywhere, padding in the last two places. */
  predicate MayStand(s: string, i: nat)
    requires i < |s|
  {
    ValueOf(s[i]).Some? || (s[i] == '=' && i >= |s| - 2)
  }

  /** What is decoded is in the alphabet but for padding, and comes in groups of four, three bytes each but for the
      last. */
  lemma {:induction false} DecodedIsWellFormed(s: string)
    requires DecodeGroups(s).Some?
    ensures |s| % 4 == 0 && |DecodeGroups(s).value| <= |s| / 4 * 3 < |DecodeGroups(s).value| + 3
    ensures forall i: nat :: i < |s| ==> MayStand(s, i)
  {
    if s == "" {
    } else if s[2] == '=' || s[3] == '=' {
      LastGroup(s);
    } else {
      FullGroup(s);
      DecodedIsWellFormed(s[4..]);
      forall i: nat | i < |s|
        ensures MayStand(s, i)
      {
        if i >= 4 {
          assert MayStand(s[4..], i - 4) && s[i] == s[4..][i - 4];
        }
      }
    }
  }

  lemma {:induction false} OnlyBreaksAreSkipped(s: string, c: char)
    requires c in s && c != '\r' && c != '\n'
    ensures c in WithoutBreaks(s)
  {
    if s[0] != c {
      assert c in s[1..];
      OnlyBreaksAreSkipped(s[1..], c);
    }
  }

  /** A text with any other character is corrupt. */
  lemma OnlyTheAlphabetDecodes(s: string, c: char)
    requires Decode(s).Some? && c in s && c != '\r' && c != '\n'
    ensures c == '=' || ValueOf(c).Some?
  {
    OnlyBreaksAreSkipped(s, c);
    var t := WithoutBreaks(s);
    DecodedIsWellFormed(t);
    var i: nat :| i < |t| && t[i] == c;
    assert MayStand(t, i);
  }
}
