/** The image cache as the installer runs it, on releases as imgtool publishes them. */
module ImageCacheProofs {
  import opened StateFile
  import opened Text
  import opened Signing
  import opened Disk
  import opened ImageCache

  /** The program's own environment is lawful as soon as its JSON codec is. */
  lemma InstallerEnvIsLawful(scheme: Scheme, key: string, sha256: string -> string, encodeMeta: Meta -> string,
                             decodeMeta: string -> Option<Meta>, tag: string, baseUrl: string, now: string)
    requires forall m :: decodeMeta(encodeMeta(m)) == Some(m)
    ensures Lawful(InstallerEnv(scheme, key, sha256, encodeMeta, decodeMeta, tag, baseUrl, now))
  {
    var env := InstallerEnv(scheme, key, sha256, encodeMeta, decodeMeta, tag, baseUrl, now);
    forall content
      ensures env.digestOf(content) != Some("")
    {
      assert env.digestOf(content) == ParseChecksum(content);
    }
  }

  /** A release published as the build does it, a sha256sum line and imgtool's signature over it, is offered to
      an installer with the matching key, and its tarball then matches: whatever the letter case of the digest. */
  lemma PublishedReleaseIsOffered(env: Env, scheme: Scheme, seedText: string, digest: string, arch: string, tar: string,
                                  key: string, encodeMeta: Meta -> string, decodeMeta: string -> Option<Meta>)
    requires Correct(scheme)
    requires seedText != "" && DecodeSized(seedText, SEED_SIZE).Some?
    requires PublicKeyText(scheme, seedText) == Some(key)
    requires env == InstallerEnv(scheme, key, env.sha256, encodeMeta, decodeMeta, env.tag, env.baseUrl, env.now)
    requires |digest| == DIGEST_CHARS && AllHex(digest) && env.sha256(tar) == digest
    ensures
      var checksum := digest + "  " + Asset(arch) + "\n";
      var signature := SignatureText(scheme, seedText, checksum);
      && signature.Some?
      && Release(env, Body(checksum), Body(signature.value)) == Some(Map(digest, AsciiLower))
      && Matches(env, tar, checksum)
  {
    var checksum := digest + "  " + Asset(arch) + "\n";
    PublishedIsAccepted(scheme, seedText, checksum);
    ChecksumLineIsRead(digest, Asset(arch));
    HexCase(digest);
  }

  lemma HexCase(digest: string)
    requires AllHex(digest)
    ensures Map(Map(digest, AsciiLower), Fold) == Map(digest, Fold)
  {
    var a, b := Map(Map(digest, AsciiLower), Fold), Map(digest, Fold);
    forall i | 0 <= i < |digest|
      ensures a[i] == b[i]
    {
      assert IsHex(digest[i]);
    }
  }

  // ---------- What the installer never accepts ----------

  /** For the installer a checksum file is signed exactly when there is a genuine signature of it under the key, and a
      release whose signature is not genuine is never offered. */
  lemma OnlyGenuineReleasesAreOffered(scheme: Scheme, key: string, sha256: string -> string, encodeMeta: Meta -> string,
                                      decodeMeta: string -> Option<Meta>, tag: string, baseUrl: string, now: string,
                                      checksum: string, signature: string)
    ensures
      var env := InstallerEnv(scheme, key, sha256, encodeMeta, decodeMeta, tag, baseUrl, now);
      && (env.signed(checksum, signature) <==> Genuine(scheme, checksum, signature, key))
      && (Release(env, Body(checksum), Body(signature)).Some? ==> Genuine(scheme, checksum, signature, key))
  {
    AcceptedExactlyWhenGenuine(scheme, checksum, signature, key);
  }

  /** So a cache the installer calls sound, as EnsureWithKey leaves it, has a checksum file with a genuine signature
      whose first field is the hash of the tarball and the digest returned, but for letter case. */
  lemma SoundMeansGenuine(scheme: Scheme, key: string, sha256: string -> string, encodeMeta: Meta -> string,
                          decodeMeta: string -> Option<Meta>, tag: string, baseUrl: string, now: string,
                          files: Files, p: Places, digest: string)
    returns (space: string, field: string, rest: string)
    requires Sound(InstallerEnv(scheme, key, sha256, encodeMeta, decodeMeta, tag, baseUrl, now), files, p, digest)
    ensures p.tar in files && p.checksum in files && p.signature in files
    ensures Genuine(scheme, files[p.checksum], files[p.signature], key)
    ensures files[p.checksum] == space + field + rest && AllSpace(space) && (rest == "" || IsSpace(rest[0]))
    ensures |field| == 64 && SameButCase(sha256(files[p.tar]), field) && SameButCase(digest, field)
  {
    var env := InstallerEnv(scheme, key, sha256, encodeMeta, decodeMeta, tag, baseUrl, now);
    AcceptedExactlyWhenGenuine(scheme, files[p.checksum], files[p.signature], key);
    space, field, rest := DigestIsTheFirstField(files[p.checksum]);
    var read := ParseChecksum(files[p.checksum]).value;
    FirstFieldInEitherCase(field, read, sha256(files[p.tar]));
    FirstFieldInEitherCase(field, read, digest);
  }

  lemma CaseOfHex(c: char, h: char)
    requires IsHex(h) && (c == h || c as int == h as int + 32) && c in "0123456789abcdef"
    ensures Fold(c) == Fold(h)
  {
    var hex := "0123456789abcdef";
    var i :| 0 <= i < |hex| && hex[i] == c;
  }

  lemma FirstFieldInEitherCase(field: string, read: string, other: string)
    requires |field| == |read| == 64 && AllHex(field)
    requires forall i :: 0 <= i < 64 ==>
               read[i] in "0123456789abcdef" && (read[i] == field[i] || read[i] as int == field[i] as int + 32)
    requires Map(other, Fold) == Map(read, Fold)
    ensures SameButCase(other, field)
  {
    forall i | 0 <= i < 64
      ensures Map(read, Fold)[i] == Map(field, Fold)[i]
    {
      assert IsHex(field[i]);
      CaseOfHex(read[i], field[i]);
    }
    assert Map(read, Fold) == Map(field, Fold);
    FoldedHexDiffersInCaseOnly(other, field);
  }

  // ---------- Names ----------

  /** Where everything is kept, where it comes from, and what is written down about it. */
  lemma NamesAndPlaces(env: Env, root: Path, digest: string)
    ensures
      var p, dir := PlacesFor(root, "amd64"), root + ["cache", "images"];
      && p.tar == dir + ["dockup-amd64.tar.gz"] && p.checksum == dir + ["dockup-amd64.tar.gz.sha256"]
      && p.signature == dir + ["dockup-amd64.tar.gz.sig"] && p.meta == dir + ["image-amd64.json"]
      && p.tarPart == dir + ["dockup-amd64.tar.gz.part"] && p.checksumPart == dir + ["dockup-amd64.tar.gz.sha256.part"]
      && p.signaturePart == dir + ["dockup-amd64.tar.gz.sig.part"] && p.metaTmp == dir + ["image-amd64.json.tmp"]
    ensures
      var q, dir := PlacesFor(root, "arm64"), root + ["cache", "images"];
      && q.tar == dir + ["dockup-arm64.tar.gz"] && q.checksum == dir + ["dockup-arm64.tar.gz.sha256"]
      && q.signature == dir + ["dockup-arm64.tar.gz.sig"] && q.meta == dir + ["image-arm64.json"]
    ensures Requests(env, "amd64") == [env.baseUrl + "/" + "dockup-amd64.tar.gz" + ".sha256",
                                       env.baseUrl + "/" + "dockup-amd64.tar.gz" + ".sig",
                                       env.baseUrl + "/" + "dockup-amd64.tar.gz"]
    ensures MetaOf(env, "amd64", digest) ==
              Meta(env.tag, "amd64", digest, env.baseUrl + "/" + "dockup-amd64.tar.gz", env.now)
  {
    AssetNames();
    LastSegments(root, "amd64");
    LastSegments(root, "arm64");
    assert "dockup-amd64.tar.gz" + ".sha256" == "dockup-amd64.tar.gz.sha256";
    assert "dockup-amd64.tar.gz" + ".sig" == "dockup-amd64.tar.gz.sig";
    assert "dockup-amd64.tar.gz" + ".part" == "dockup-amd64.tar.gz.part";
    assert "dockup-amd64.tar.gz.sha256" + ".part" == "dockup-amd64.tar.gz.sha256.part";
    assert "dockup-amd64.tar.gz.sig" + ".part" == "dockup-amd64.tar.gz.sig.part";
    assert "image-" + "amd64" + ".json" == "image-amd64.json";
    assert "image-amd64.json" + ".tmp" == "image-amd64.json.tmp";
    assert "dockup-arm64.tar.gz" + ".sha256" == "dockup-arm64.tar.gz.sha256";
    assert "dockup-arm64.tar.gz" + ".sig" == "dockup-arm64.tar.gz.sig";
    assert "image-" + "arm64" + ".json" == "image-arm64.json";
  }

  lemma AssetNames()
    ensures Asset("amd64") == "dockup-amd64.tar.gz" && Asset("arm64") == "dockup-arm64.tar.gz"
  {
  }

  lemma LastSegments(root: Path, arch: string)
    ensures
      var p, dir := PlacesFor(root, arch), root + ["cache", "images"];
      && p.tarPart == dir + [Asset(arch) + ".part"]
      && p.checksumPart == dir + [Asset(arch) + ".sha256" + ".part"]
      && p.signaturePart == dir + [Asset(arch) + ".sig" + ".part"]
      && p.metaTmp == dir + ["image-" + arch + ".json" + ".tmp"]
  {
    var dir := root + ["cache", "images"];
    assert CacheDir(root) == dir;
    WithSuffixOfLast(dir, Asset(arch), ".part");
    WithSuffixOfLast(dir, Asset(arch) + ".sha256", ".part");
    WithSuffixOfLast(dir, Asset(arch) + ".sig", ".part");
    WithSuffixOfLast(dir, "image-" + arch + ".json", ".tmp");
  }

  lemma WithSuffixOfLast(dir: Path, name: string, suffix: string)
    ensures WithSuffix(dir + [name], suffix) == dir + [name + suffix]
  {
    assert (dir + [name])[..|dir|] == dir;
  }
}
