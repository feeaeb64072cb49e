/** Signing a release checksum with imgtool and checking it in the installer.  Ed25519 is an abstract scheme. */
module Signing {
  import opened StateFile
  import opened Text
  import opened Base64

  const SEED_SIZE: nat := 32
  const KEY_SIZE: nat := 32
  const SIGNATURE_SIZE: nat := 64
  const DIGEST_CHARS: nat := 64

  type Bytes = seq<Byte>

  datatype Scheme = Scheme(
    publicKey: Bytes -> Bytes, sign: (Bytes, string) -> Bytes, verify: (Bytes, string, Bytes) -> bool)

  /** What section 5.1 of RFC 8032 guarantees. */
  ghost predicate Correct(scheme: Scheme) {
    forall seed: Bytes, msg: string {:trigger scheme.sign(seed, msg)} :: |seed| == SEED_SIZE ==>
      && |scheme.publicKey(seed)| == KEY_SIZE
      && |scheme.sign(seed, msg)| == SIGNATURE_SIZE
      && scheme.verify(scheme.publicKey(seed), msg, scheme.sign(seed, msg))
  }

  // ---------- imgtool ----------

  /** decode: base64 of exactly `size` bytes, white space around it ignored. */
  function DecodeSized(s: string, size: nat): Option<Bytes> {
    match Decode(TrimSpace(s))
    case Some(b) => if |b| == size then Some(b) else None
    case None => None
  }

  /** imgtool pubkey */
  function PublicKeyText(scheme: Scheme, seed: string): Option<string> {
    match DecodeSized(seed, SEED_SIZE)
    case Some(raw) => Some(Encode(scheme.publicKey(raw)))
    case None => None
  }

  /** imgtool sign: the content of the signature file. */
  function SignatureText(scheme: Scheme, key: string, msg: string): Option<string> {
    if key == "" then None
    else match DecodeSized(key, SEED_SIZE)
      case Some(seed) => Some(Encode(scheme.sign(seed, msg)) + "\n")
      case None => None
  }

  /** imgtool verify */
  predicate ToolAccepts(scheme: Scheme, key: string, msg: string, sigText: string) {
    key != "" &&
    match DecodeSized(key, KEY_SIZE)
    case None => false
    case Some(pub) =>
      match Decode(TrimSpace(sigText))
      case None => false
      case Some(sig) => |sig| == SIGNATURE_SIZE && scheme.verify(pub, msg, sig)
  }

  // ---------- The installer ----------

  datatype Verdict = Valid | BadKey | BadKeySize | BadSignature | BadSignatureSize | Mismatch

  function VerifySignature(scheme: Scheme, msg: string, sigText: string, key: string): Verdict {
    match Decode(TrimSpace(key))
    case None => BadKey
    case Some(pub) =>
      if |pub| != KEY_SIZE then BadKeySize
      else match Decode(TrimSpace(sigText))
        case None => BadSignature
        case Some(sig) =>
          if |sig| != SIGNATURE_SIZE then BadSignatureSize
          else if scheme.verify(pub, msg, sig) then Valid
          else Mismatch
  }

  predicate IsHex(c: char) {
    IsDigit(c) || 'a' <= c <= 'f' || 'A' <= c <= 'F'
  }

  predicate AllHex(s: string) {
    forall i :: 0 <= i < |s| ==> IsHex(s[i])
  }

  /** The part of s before its first white space. */
  function Word(s: string): string {
    if s == "" || IsSpace(s[0]) then "" else [s[0]] + Word(s[1..])
  }

  /** The digest in a checksum file: its first field, 64 hexadecimal digits, in lower case. */
  function ParseChecksum(content: string): (digest: Option<string>)
    ensures digest.Some? ==> |digest.value| == DIGEST_CHARS
  {
    var field := Word(TrimLeft(content, IsSpace));
    if |field| == DIGEST_CHARS && AllHex(field) then Some(Map(field, AsciiLower)) else None
  }

  // ---------- What is published is accepted ----------

  lemma EncodeTrims(data: Bytes, tail: string)
    requires tail == "" || tail == "\n"
    ensures Decode(TrimSpace(Encode(data) + tail)) == Some(data)
  {
    var s := Encode(data);
    EncodeIsPrintable(data);
    DecodeEncode(data);
    assert s != "" ==> !IsSpace(s[0]) && !IsSpace(s[|s| - 1]);
    TrimmedStays(s, IsSpace);
    assert s + "" == s;
    if tail == "\n" {
      assert IsSpace('\n');
      if s == "" {
        assert s + tail == "\n" && TrimLeft("\n", IsSpace) == "";
      } else {
        assert TrimLeft(s + tail, IsSpace) == s + tail && TrimLeft(s, IsSpace) == s;
        assert (s + tail)[..|s|] == s;
      }
    }
  }

  /** What imgtool signs with a seed, the installer and imgtool accept under the public key imgtool prints. */
  lemma PublishedIsAccepted(scheme: Scheme, seedText: string, msg: string)
    requires Correct(scheme)
    requires seedText != "" && DecodeSized(seedText, SEED_SIZE).Some?
    ensures
      var key := PublicKeyText(scheme, seedText);
      var sig := SignatureText(scheme, seedText, msg);
      && key.Some? && sig.Some?
      && VerifySignature(scheme, msg, sig.value, key.value) == Valid
      && ToolAccepts(scheme, key.value, msg, sig.value)
  {
    var seed := DecodeSized(seedText, SEED_SIZE).value;
    EncodeTrims(scheme.publicKey(seed), "");
    EncodeTrims(scheme.sign(seed, msg), "\n");
    assert Encode(scheme.publicKey(seed)) + "" == Encode(scheme.publicKey(seed));
    EncodeIsPrintable(scheme.publicKey(seed));
    assert |scheme.sign(seed, msg)| == SIGNATURE_SIZE;
  }

  /** imgtool verify and the installer accept exactly the same inputs. */
  lemma ToolAndInstallerAgree(scheme: Scheme, key: string, msg: string, sigText: string)
    ensures ToolAccepts(scheme, key, msg, sigText) <==> VerifySignature(scheme, msg, sigText, key) == Valid
  {
    if key == "" {
      assert TrimSpace("") == "" && Decode("") == Some([]);
    }
  }

  /** A line as sha256sum prints it is read as its digest, in lower case; so is one in capitals. */
  lemma ChecksumLineIsRead(digest: string, name: string)
    requires |digest| == DIGEST_CHARS && AllHex(digest)
    ensures ParseChecksum(digest + "  " + name + "\n") == Some(Map(digest, AsciiLower))
    ensures ParseChecksum(digest + "  " + name + "\n") == ParseChecksum(Map(digest, AsciiLower) + "  " + name + "\n")
  {
    LineWord(digest, name);
    var lower := Map(digest, AsciiLower);
    forall i | 0 <= i < |lower|
      ensures IsHex(lower[i]) && AsciiLower(lower[i]) == lower[i]
    {
      assert IsHex(digest[i]);
    }
    LineWord(lower, name);
    assert Map(lower, AsciiLower) == lower;
  }

  lemma LineWord(field: string, name: string)
    requires AllHex(field) && field != ""
    ensures Word(TrimLeft(field + "  " + name + "\n", IsSpace)) == field
  {
    var line := field + "  " + name + "\n";
    assert IsHex(field[0]) && line[0] == field[0];
    assert line == field + (" " + (" " + name + "\n"));
    WordBefore(field, " " + (" " + name + "\n"));
  }

  lemma {:induction false} WordBefore(field: string, rest: string)
    requires AllHex(field) && rest != "" && IsSpace(rest[0])
    ensures Word(field + rest) == field
  {
    if field == "" {
      assert field + rest == rest;
    } else {
      assert IsHex(field[0]);
      assert (field + rest)[1..] == field[1..] + rest;
      WordBefore(field[1..], rest);
    }
  }

  // ---------- And nothing else is ----------

  /** There are a key and a signature of the right sizes behind the texts, and the signature is one of the message. */
  ghost predicate Genuine(scheme: Scheme, msg: string, sigText: string, key: string) {
    exists pub: Bytes, raw: Bytes ::
      && Decode(TrimSpace(key)) == Some(pub) && |pub| == 32
      && Decode(TrimSpace(sigText)) == Some(raw) && |raw| == 64
      && scheme.verify(pub, msg, raw)
  }

  /** imgtool signs with, and derives a public key from, any text that is base64 of 32 bytes, and nothing else; the
      signature file ends with one newline. */
  lemma ToolTakesExactlySeeds(scheme: Scheme, key: string, msg: string)
    ensures
      var seed := Decode(TrimSpace(key));
      && (SignatureText(scheme, key, msg).Some? <==> key != "" && seed.Some? && |seed.value| == 32)
      && (SignatureText(scheme, key, msg).Some? ==>
            SignatureText(scheme, key, msg).value == Encode(scheme.sign(seed.value, msg)) + "\n")
      && (PublicKeyText(scheme, key).Some? <==> seed.Some? && |seed.value| == 32)
      && (PublicKeyText(scheme, key).Some? ==> PublicKeyText(scheme, key).value == Encode(scheme.publicKey(seed.value)))
  {
  }

  /** The installer and imgtool accept exactly the genuine signatures. */
  lemma AcceptedExactlyWhenGenuine(scheme: Scheme, msg: string, sigText: string, key: string)
    ensures VerifySignature(scheme, msg, sigText, key) == Valid <==> Genuine(scheme, msg, sigText, key)
    ensures ToolAccepts(scheme, key, msg, sigText) <==> Genuine(scheme, msg, sigText, key)
  {
    ToolAndInstallerAgree(scheme, key, msg, sigText);
    if VerifySignature(scheme, msg, sigText, key) == Valid {
      var pub, raw := Decode(TrimSpace(key)).value, Decode(TrimSpace(sigText)).value;
      assert scheme.verify(pub, msg, raw);
    }
  }

  lemma {:induction false} TrimLeftSplits(s: string) returns (space: string)
    ensures AllSpace(space) && s == space + TrimLeft(s, IsSpace)
  {
    if s != "" && IsSpace(s[0]) {
      var rest := TrimLeftSplits(s[1..]);
      space := [s[0]] + rest;
      assert s == [s[0]] + s[1..];
    } else {
      space := "";
    }
  }

  lemma {:induction false} WordSplits(s: string) returns (rest: string)
    ensures s == Word(s) + rest && (rest == "" || IsSpace(rest[0]))
  {
    if s == "" || IsSpace(s[0]) {
      rest := s;
    } else {
      rest := WordSplits(s[1..]);
      assert s == [s[0]] + s[1..];
    }
  }

  /** A digest that is read is 64 hexadecimal digits in lower case, and stands, in either case, at the start of the
      text with nothing but white space around it. */
  lemma DigestIsTheFirstField(content: string) returns (space: string, field: string, rest: string)
    ensures content == space + field + rest && AllSpace(space) && (rest == "" || IsSpace(rest[0]))
    ensures ParseChecksum(content).Some? <==> |field| == 64 && AllHex(field)
    ensures ParseChecksum(content).Some? ==>
              var digest := ParseChecksum(content).value;
              |digest| == 64 && forall i :: 0 <= i < 64 ==>
                digest[i] in "0123456789abcdef" && (digest[i] == field[i] || digest[i] as int == field[i] as int + 32)
  {
    space := TrimLeftSplits(content);
    field := Word(TrimLeft(content, IsSpace));
    rest := WordSplits(TrimLeft(content, IsSpace));
    assert content == space + field + rest;
    if ParseChecksum(content).Some? {
      var digest := ParseChecksum(content).value;
      forall i | 0 <= i < 64
        ensures digest[i] in "0123456789abcdef" && (digest[i] == field[i] || digest[i] as int == field[i] as int + 32)
      {
        assert IsHex(field[i]) && digest[i] == AsciiLower(field[i]);
        HexLetters(digest[i]);
      }
    }
  }

  lemma HexLetters(c: char)
    requires IsDigit(c) || 'a' <= c <= 'f'
    ensures c in "0123456789abcdef"
  {
    var hex := "0123456789abcdef";
    if IsDigit(c) {
      assert hex[c as int - '0' as int] == c;
    } else {
      assert hex[c as int - 'a' as int + 10] == c;
    }
  }

  lemma FoldedHex(c: char, h: char)
    requires IsHex(h)
    ensures Fold(c) == Fold(h) <==> InEitherCase(c, h)
  {
  }

  /** Nothing but another case of it is taken for a hexadecimal digest. */
  lemma FoldedHexDiffersInCaseOnly(a: string, hex: string)
    requires AllHex(hex)
    ensures Map(a, Fold) == Map(hex, Fold) <==> SameButCase(a, hex)
  {
    if Map(a, Fold) == Map(hex, Fold) {
      assert |a| == |hex|;
      forall i | 0 <= i < |a|
        ensures InEitherCase(a[i], hex[i])
      {
        assert IsHex(hex[i]) && Map(a, Fold)[i] == Map(hex, Fold)[i];
        FoldedHex(a[i], hex[i]);
      }
    }
    if SameButCase(a, hex) {
      forall i | 0 <= i < |a|
        ensures Map(a, Fold)[i] == Map(hex, Fold)[i]
      {
        assert IsHex(hex[i]) && InEitherCase(a[i], hex[i]);
        FoldedHex(a[i], hex[i]);
      }
    }
  }
}
