/** The string functions the parsers use.  A character is a Unicode scalar value. */
module Text {
  import opened StateFile

  /** White space as Unicode and Go's unicode.IsSpace define it. */
  predicate IsSpace(c: char) {
    var n := c as int;
    || 0x09 <= n <= 0x0D || n == 0x20 || n == 0x85 || n == 0xA0 || n == 0x1680
    || 0x2000 <= n <= 0x200A || n == 0x2028 || n == 0x2029 || n == 0x202F || n == 0x205F || n == 0x3000
  }

  /** The pieces of s between occurrences of sep; always at least one. */
  function Split(s: string, sep: char): (pieces: seq<string>)
    ensures |pieces| >= 1
    ensures sep !in s ==> pieces == [s]
  {
    if s == "" then [""]
    else
      var rest := Split(s[1..], sep);
      assert [s[0]] + s[1..] == s;
      if s[0] == sep then [""] + rest else [[s[0]] + rest[0]] + rest[1..]
  }

  /** A piece that ends at a separator is the first piece of the whole. */
  lemma {:induction false} SplitFirst(piece: string, sep: char, rest: string)
    requires sep !in piece
    ensures Split(piece + [sep] + rest, sep) == [piece] + Split(rest, sep)
  {
    var s := piece + [sep] + rest;
    if piece == "" {
      assert s[1..] == rest;
    } else {
      assert s[1..] == piece[1..] + [sep] + rest;
      SplitFirst(piece[1..], sep, rest);
      assert [piece[0]] + piece[1..] == piece;
    }
  }

  /** The pieces with sep between them. */
  function Join(pieces: seq<string>, sep: char): string
    requires pieces != []
  {
    if |pieces| == 1 then pieces[0] else pieces[0] + [sep] + Join(pieces[1..], sep)
  }

  predicate NoneHas(pieces: seq<string>, sep: char) {
    forall i :: 0 <= i < |pieces| ==> sep !in pieces[i]
  }

  lemma {:induction false} SplitJoin(pieces: seq<string>, sep: char)
    requires pieces != [] && NoneHas(pieces, sep)
    ensures Split(Join(pieces, sep), sep) == pieces
  {
    if |pieces| > 1 {
      SplitFirst(pieces[0], sep, Join(pieces[1..], sep));
      SplitJoin(pieces[1..], sep);
    }
  }

  /** Every text is its pieces, joined. */
  lemma {:induction false} JoinSplit(s: string, sep: char)
    ensures NoneHas(Split(s, sep), sep) && Join(Split(s, sep), sep) == s
  {
    if s != "" {
      var rest := Split(s[1..], sep);
      JoinSplit(s[1..], sep);
      assert sep !in rest[0];
      if s[0] == sep {
        assert ([""] + rest)[1..] == rest;
      } else if |rest| > 1 {
        assert ([[s[0]] + rest[0]] + rest[1..])[1..] == rest[1..];
        assert [s[0]] + rest[0] + [sep] + Join(rest[1..], sep) == [s[0]] + Join(rest, sep);
      }
    }
  }

  function TrimLeft(s: string, cut: char -> bool): string {
    if s != "" && cut(s[0]) then TrimLeft(s[1..], cut) else s
  }

  function TrimRight(s: string, cut: char -> bool): string {
    if s != "" && cut(s[|s| - 1]) then TrimRight(s[..|s| - 1], cut) else s
  }

  function Trim(s: string, cut: char -> bool): string {
    TrimRight(TrimLeft(s, cut), cut)
  }

  function TrimSpace(s: string): string {
    Trim(s, IsSpace)
  }

  lemma TrimShortens(s: string, cut: char -> bool)
    ensures |Trim(s, cut)| <= |s|
  {
    TrimLeftShortens(s, cut);
    TrimRightShortens(TrimLeft(s, cut), cut);
  }

  lemma TrimLeftShortens(s: string, cut: char -> bool)
    ensures |TrimLeft(s, cut)| <= |s|
  {
  }

  lemma TrimRightShortens(s: string, cut: char -> bool)
    ensures |TrimRight(s, cut)| <= |s|
  {
  }

  /** Nothing to cut at either end. */
  predicate Trimmed(s: string, cut: char -> bool) {
    s != "" ==> !cut(s[0]) && !cut(s[|s| - 1])
  }

  lemma TrimmedStays(s: string, cut: char -> bool)
    requires Trimmed(s, cut)
    ensures Trim(s, cut) == s
  {
  }

  /** The lower-case form of a character when that is an ASCII letter, and the character itself otherwise. */
  function AsciiLower(c: char): char {
    if 'A' <= c <= 'Z' then (c as int + 32) as char
    else if c as int == 0x212A then 'k'
    else if c as int == 0x130 then 'i'
    else c
  }

  /** Simple case folding wherever an ASCII letter is involved, which U+017F and U+212A also fold to. */
  function Fold(c: char): char {
    if 'A' <= c <= 'Z' then (c as int + 32) as char
    else if c as int == 0x212A then 'k'
    else if c as int == 0x17F then 's'
    else c
  }

  function Map(s: string, f: char -> char): (r: string)
    ensures |r| == |s|
    ensures forall i :: 0 <= i < |s| ==> r[i] == f(s[i])
  {
    if s == "" then "" else [f(s[0])] + Map(s[1..], f)
  }

  /** strings.EqualFold, for a word of ASCII characters on one side. */
  predicate EqualFold(s: string, word: string) {
    Map(s, Fold) == Map(word, Fold)
  }

  // ---------- White space and letter case, in other words ----------

  /** The characters with the property White_Space. */
  lemma SpacesInNumbers(c: char)
    ensures IsSpace(c) <==>
              c as int in [9, 10, 11, 12, 13, 32, 133, 160, 5760, 8192, 8193, 8194, 8195, 8196, 8197, 8198, 8199,
                           8200, 8201, 8202, 8232, 8233, 8239, 8287, 12288]
  {
  }

  /** Beside the letters only the Kelvin sign and the long s fold to an ASCII letter, and only the Kelvin sign and the
      dotted capital I are lowered to one. */
  lemma SpecialLetters(c: char)
    requires c as int >= 0x80
    ensures Fold(c) as int < 0x80 <==> c as int in [0x212A, 0x17F]
    ensures AsciiLower(c) as int < 0x80 <==> c as int in [0x212A, 0x130]
    ensures c as int == 0x212A ==> Fold(c) == AsciiLower(c) == 'k'
    ensures c as int == 0x17F ==> Fold(c) == 's'
    ensures c as int == 0x130 ==> AsciiLower(c) == 'i'
  {
  }

  predicate AllSpace(s: string) {
    forall i :: 0 <= i < |s| ==> IsSpace(s[i])
  }

  predicate AllCut(s: string, cut: char -> bool) {
    forall i :: 0 <= i < |s| ==> cut(s[i])
  }

  lemma {:induction false} TrimLeftDrops(a: string, s: string, cut: char -> bool)
    requires AllCut(a, cut)
    ensures TrimLeft(a + s, cut) == TrimLeft(s, cut)
  {
    if a == "" {
      assert a + s == s;
    } else {
      assert cut(a[0]) && (a + s)[1..] == a[1..] + s;
      TrimLeftDrops(a[1..], s, cut);
    }
  }

  lemma {:induction false} TrimRightDrops(s: string, d: string, cut: char -> bool)
    requires AllCut(d, cut)
    ensures TrimRight(s + d, cut) == TrimRight(s, cut)
    decreases |d|
  {
    if d == "" {
      assert s + d == s;
    } else {
      var n := |d| - 1;
      assert cut(d[n]) && (s + d)[..|s + d| - 1] == s + d[..n];
      TrimRightDrops(s, d[..n], cut);
    }
  }

  /** Trimming takes exactly what is to be cut off both ends. */
  lemma TrimDrops(a: string, s: string, d: string, cut: char -> bool)
    requires AllCut(a, cut) && AllCut(d, cut) && s != "" && Trimmed(s, cut)
    ensures Trim(a + s + d, cut) == s
  {
    assert a + s + d == a + (s + d);
    TrimLeftDrops(a, s + d, cut);
    assert TrimLeft(s + d, cut) == s + d;
    TrimRightDrops(s, d, cut);
    assert TrimRight(s, cut) == s;
  }

  lemma TrimSpaceDrops(a: string, s: string, d: string)
    requires AllSpace(a) && AllSpace(d) && s != "" && Trimmed(s, IsSpace)
    ensures TrimSpace(a + s + d) == s
  {
    TrimDrops(a, s, d, IsSpace);
  }

  /** The same letter in the same or the other case, or the same character. */
  predicate InEitherCase(a: char, b: char) {
    || a == b
    || ('a' <= a <= 'z' && a as int == b as int + 32)
    || ('a' <= b <= 'z' && b as int == a as int + 32)
  }

  /** The same text but for the case of its ASCII letters. */
  predicate SameButCase(a: string, b: string) {
    |a| == |b| && forall i :: 0 <= i < |a| ==> InEitherCase(a[i], b[i])
  }

  lemma CaseFolds(a: string, b: string)
    requires SameButCase(a, b)
    ensures EqualFold(a, b)
  {
    forall i | 0 <= i < |a|
      ensures Map(a, Fold)[i] == Map(b, Fold)[i]
    {
      assert InEitherCase(a[i], b[i]);
    }
  }

  predicate IsAscii(s: string) {
    forall i :: 0 <= i < |s| ==> s[i] as int < 0x80
  }

  lemma FoldedAsciiDiffersInCaseOnly(a: string, b: string)
    requires IsAscii(a) && IsAscii(b) && EqualFold(a, b)
    ensures SameButCase(a, b)
  {
    forall i | 0 <= i < |a|
      ensures InEitherCase(a[i], b[i])
    {
      assert Map(a, Fold)[i] == Map(b, Fold)[i];
      assert a[i] as int < 0x80 && b[i] as int < 0x80;
    }
  }

  // ---------- Decimal numbers ----------

  const MAX_UINT64: nat := 0xFFFF_FFFF_FFFF_FFFF

  predicate IsDigit(c: char) {
    '0' <= c <= '9'
  }

  predicate AllDigits(s: string) {
    forall i :: 0 <= i < |s| ==> IsDigit(s[i])
  }

  function Value(digits: string): nat
    requires AllDigits(digits)
  {
    if digits == "" then 0
    else 10 * Value(digits[..|digits| - 1]) + (digits[|digits| - 1] as int - '0' as int)
  }

  /** The decimal digits of n, without leading zeros. */
  function Decimal(n: nat): (digits: string)
    ensures digits != "" && AllDigits(digits)
  {
    var last := [('0' as int + n % 10) as char];
    if n < 10 then last else Decimal(n / 10) + last
  }

  lemma {:induction false} DecimalValue(n: nat)
    ensures Value(Decimal(n)) == n
  {
    var last := [('0' as int + n % 10) as char];
    if n < 10 {
      assert last[..0] == "";
    } else {
      DecimalValue(n / 10);
      assert Decimal(n)[..|Decimal(n)| - 1] == Decimal(n / 10);
    }
  }

  /** strconv.ParseUint in base 10: None is an error. */
  function ParseUint(s: string): (r: Option<nat>)
    ensures r.Some? ==> r.value <= MAX_UINT64
  {
    if s != "" && AllDigits(s) && Value(s) <= MAX_UINT64 then Some(Value(s)) else None
  }

  /** strconv.Atoi with 64-bit integers: an optional sign and digits. */
  function Atoi(s: string): Option<int> {
    var signed := s != "" && (s[0] == '+' || s[0] == '-');
    var digits := if signed then s[1..] else s;
    if digits == "" || !AllDigits(digits) then None
    else
      var sign := if signed && s[0] == '-' then -1 else 1;
      var n := sign * Value(digits);
      if -0x8000_0000_0000_0000 <= n <= 0x7FFF_FFFF_FFFF_FFFF then Some(n) else None
  }

  lemma DecimalParses(n: nat)
    ensures ParseUint(Decimal(n)) == if n <= MAX_UINT64 then Some(n) else None
    ensures Atoi(Decimal(n)) == if n <= 0x7FFF_FFFF_FFFF_FFFF then Some(n) else None
  {
    DecimalValue(n);
    assert IsDigit(Decimal(n)[0]);
  }

  /** strconv.Atoi takes a sign, and nothing but digits after it. */
  lemma SignedDecimalParses(n: nat)
    requires n <= 9223372036854775807
    ensures Atoi("+" + Decimal(n)) == Some(n)
    ensures Atoi("-" + Decimal(n)).Some? && Atoi("-" + Decimal(n)).value == 0 - n
    ensures Atoi("") == None && Atoi("+") == None && Atoi("-") == None
  {
    DecimalValue(n);
    assert ("+" + Decimal(n))[1..] == Decimal(n) && ("-" + Decimal(n))[1..] == Decimal(n);
    assert "+"[1..] == "" && "-"[1..] == "";
  }
}
