/** The signed image cache: four files per architecture, replaced one by one with the metadata last, and checked
    again each time they are used. */
module ImageCache {
  import opened StateFile
  import opened Text
  import opened Signing
  import opened Disk

  datatype Paths = Paths(dir: Path, tar: Path, checksum: Path, signature: Path, meta: Path)

  datatype Meta = Meta(tag: string, arch: string, sha256: string, source: string, downloadedAt: string)

  /** What the cache depends on: whether a checksum file is signed, the digest it names, sha256 in hexadecimal,
      a form of digests without letter case, the JSON codec of the metadata, the release this binary belongs to,
      where it is published, and the time of day.  InstallerEnv below is the one the program runs with. */
  datatype Env = Env(
    signed: (string, string) -> bool, digestOf: string -> Option<string>,
    sha256: string -> string, caseless: string -> string,
    encodeMeta: Meta -> string, decodeMeta: string -> Option<Meta>, tag: string, baseUrl: string, now: string)
  {
    predicate SameDigest(a: string, b: string) {
      caseless(a) == caseless(b)
    }
  }

  /** The installer's own checks, under a public key. */
  function InstallerEnv(scheme: Scheme, key: string, sha256: string -> string, encodeMeta: Meta -> string,
                        decodeMeta: string -> Option<Meta>, tag: string, baseUrl: string, now: string): Env
  {
    Env((msg, sig) => VerifySignature(scheme, msg, sig, key) == Valid, content => ParseChecksum(content),
        sha256, s => Map(s, Fold), encodeMeta, decodeMeta, tag, baseUrl, now)
  }

  /** Metadata written is read back, and a checksum file never names an empty digest. */
  ghost predicate Lawful(env: Env) {
    && (forall m :: env.decodeMeta(env.encodeMeta(m)) == Some(m))
    && (forall content :: env.digestOf(content) != Some(""))
  }

  predicate KnownArch(arch: string) {
    arch == "amd64" || arch == "arm64"
  }

  function Asset(arch: string): string {
    "dockup-" + arch + ".tar.gz"
  }

  function CacheDir(root: Path): Path {
    root + ["cache", "images"]
  }

  function PathsFor(root: Path, arch: string): Paths {
    var dir := CacheDir(root);
    var tar := Asset(arch);
    Paths(dir, dir + [tar], dir + [tar + ".sha256"], dir + [tar + ".sig"], dir + ["image-" + arch + ".json"])
  }

  function WithSuffix(p: Path, suffix: string): Path
    requires p != []
  {
    p[..|p| - 1] + [p[|p| - 1] + suffix]
  }

  /** The eight files of one architecture: the cache and the temporary files of a download. */
  datatype Places = Places(
    tar: Path, checksum: Path, signature: Path, meta: Path,
    tarPart: Path, checksumPart: Path, signaturePart: Path, metaTmp: Path)

  function PlacesFor(root: Path, arch: string): Places {
    var p := PathsFor(root, arch);
    Places(p.tar, p.checksum, p.signature, p.meta,
           WithSuffix(p.tar, ".part"), WithSuffix(p.checksum, ".part"), WithSuffix(p.signature, ".part"),
           WithSuffix(p.meta, ".tmp"))
  }

  /** No two of the files share a path. */
  predicate Distinct(p: Places) {
    && p.tar !in {p.checksum, p.signature, p.meta, p.tarPart, p.checksumPart, p.signaturePart, p.metaTmp}
    && p.checksum !in {p.signature, p.meta, p.tarPart, p.checksumPart, p.signaturePart, p.metaTmp}
    && p.signature !in {p.meta, p.tarPart, p.checksumPart, p.signaturePart, p.metaTmp}
    && p.meta !in {p.tarPart, p.checksumPart, p.signaturePart, p.metaTmp}
    && p.tarPart !in {p.checksumPart, p.signaturePart, p.metaTmp}
    && p.checksumPart !in {p.signaturePart, p.metaTmp}
    && p.signaturePart != p.metaTmp
  }

  lemma PlacesAreDistinct(root: Path, arch: string)
    requires KnownArch(arch)
    ensures Distinct(PlacesFor(root, arch))
  {
    var p, n := PlacesFor(root, arch), |CacheDir(root)|;
    assert |arch| == 5;
    assert |p.tar[n]| == 19 && |p.checksum[n]| == 26 && |p.signature[n]| == 23 && |p.meta[n]| == 16;
    assert |p.tarPart[n]| == 24 && |p.checksumPart[n]| == 31 && |p.signaturePart[n]| == 28 && |p.metaTmp[n]| == 20;
  }

  // ---------- Checking ----------

  /** VerifyChecksumFile: the content hashes to the digest in the checksum file. */
  predicate Matches(env: Env, tar: string, checksum: string) {
    match env.digestOf(checksum)
    case None => false
    case Some(digest) => env.SameDigest(env.sha256(tar), digest)
  }

  /** verifyCache: the metadata of the cached image, if the four files pass every check. */
  function Cached(env: Env, files: Files, p: Places, arch: string): Option<Meta> {
    if p.tar !in files || p.checksum !in files || p.signature !in files || p.meta !in files then None
    else match env.decodeMeta(files[p.meta])
      case None => None
      case Some(meta) =>
        if meta.tag != env.tag || meta.arch != arch || meta.sha256 == "" then None
        else if !env.signed(files[p.checksum], files[p.signature]) then None
        else match env.digestOf(files[p.checksum])
          case None => None
          case Some(digest) =>
            if env.SameDigest(digest, meta.sha256) && Matches(env, files[p.tar], files[p.checksum]) then Some(meta)
            else None
  }

  datatype Outcome =
    | Ready(tar: Path, cached: bool, size: nat, sha256: string)
    | Failed

  // ---------- Downloading ----------

  function Url(env: Env, arch: string): string {
    env.baseUrl + "/" + Asset(arch)
  }

  /** The release a server answers with: a checksum file and its valid signature. */
  function Release(env: Env, checksum: Answer, signature: Answer): Option<string> {
    if checksum.Broken? || signature.Broken? then None
    else if !env.signed(checksum.content, signature.content) then None
    else env.digestOf(checksum.content)
  }

  /** The temporary files of the checksum and its signature. */
  function SmallParts(p: Places): set<Path> {
    {p.checksumPart, p.signaturePart}
  }

  /** The requests for a release, in order. */
  function Requests(env: Env, arch: string): (urls: seq<string>)
    ensures |urls| == 3
  {
    [Url(env, arch) + ".sha256", Url(env, arch) + ".sig", Url(env, arch)]
  }

  /** So many requests were made, in that order, and the failed ones were counted. */
  twostate predicate Asked(net: Network, env: Env, arch: string)
    reads net
  {
    && old(net.used) <= net.used <= old(net.used) + 3
    && net.urls == old(net.urls) + Requests(env, arch)[..net.used - old(net.used)]
    && old(net.failures) <= net.failures
  }

  method FetchBoth(disk: Disk, net: Network, env: Env, p: Places, arch: string) returns (ok: bool)
    requires Distinct(p)
    modifies disk, net
    ensures ok ==>
              && net.used == old(net.used) + 2
              && net.answers(old(net.used)).Body? && net.answers(old(net.used) + 1).Body?
              && p.checksumPart in disk.files && p.signaturePart in disk.files
              && disk.files[p.checksumPart] == net.answers(old(net.used)).content
              && disk.files[p.signaturePart] == net.answers(old(net.used) + 1).content
    ensures old(net.used) < net.used <= old(net.used) + 2 && Asked(net, env, arch)
    ensures ok ==> net.failures == old(net.failures)
    ensures !ok && net.failures == old(net.failures) ==>
              net.answers(old(net.used)).Broken? || net.answers(old(net.used) + 1).Broken?
    ensures disk.faults == old(disk.faults)
    ensures SameBut(disk.files, old(disk.files), SmallParts(p))
    ensures Grew(old(disk.trace), disk.trace, old(disk.files), SmallParts(p))
  {
    ok := net.Fetch(Url(env, arch) + ".sha256", p.checksumPart, disk);
    if ok {
      label checksum:
      ok := net.Fetch(Url(env, arch) + ".sig", p.signaturePart, disk);
      GrewTwice(old(disk.trace), old@checksum(disk.trace), disk.trace, old(disk.files), old@checksum(disk.files),
                SmallParts(p));
    }
  }

  method RemoveBoth(disk: Disk, p: Places, first: Path, second: Path) returns (ok: bool)
    requires Distinct(p)
    requires (first, second) in {(p.checksumPart, p.signaturePart), (p.signaturePart, p.checksumPart)}
    modifies disk
    ensures disk.faults == old(disk.faults) ==> p.checksumPart !in disk.files && p.signaturePart !in disk.files
    ensures old(disk.faults) <= disk.faults
    ensures SameBut(disk.files, old(disk.files), SmallParts(p))
    ensures Grew(old(disk.trace), disk.trace, old(disk.files), SmallParts(p))
  {
    ok := disk.Remove(first);
    ok := disk.Remove(second);
  }

  method FetchVerifiedChecksum(disk: Disk, net: Network, env: Env, p: Places, arch: string)
    returns (digest: Option<string>)
    requires Distinct(p)
    modifies disk, net
    ensures digest.Some? ==>
              && net.used == old(net.used) + 2
              && digest == Release(env, net.answers(old(net.used)), net.answers(old(net.used) + 1))
              && p.checksumPart in disk.files && p.signaturePart in disk.files
              && env.signed(disk.files[p.checksumPart], disk.files[p.signaturePart])
              && env.digestOf(disk.files[p.checksumPart]) == digest
              && disk.files[p.checksumPart] == net.answers(old(net.used)).content
              && disk.faults == old(disk.faults) && net.failures == old(net.failures)
    ensures digest.None? && net.failures == old(net.failures) ==>
              Release(env, net.answers(old(net.used)), net.answers(old(net.used) + 1)).None?
    ensures digest.None? && disk.faults == old(disk.faults) ==>
              p.checksumPart !in disk.files && p.signaturePart !in disk.files
    ensures old(disk.faults) <= disk.faults
    ensures old(net.used) < net.used <= old(net.used) + 2 && Asked(net, env, arch)
    ensures SameBut(disk.files, old(disk.files), SmallParts(p))
    ensures Grew(old(disk.trace), disk.trace, old(disk.files), SmallParts(p))
  {
    var ok := FetchBoth(disk, net, env, p, arch);
    if ok {
      if env.signed(disk.files[p.checksumPart], disk.files[p.signaturePart]) {
        digest := env.digestOf(disk.files[p.checksumPart]);
        if digest.Some? {
          return;
        }
      }
    }
    digest := None;
    label failed:
    ok := RemoveBoth(disk, p, p.checksumPart, p.signaturePart);
    GrewTwice(old(disk.trace), old@failed(disk.trace), disk.trace, old(disk.files), old@failed(disk.files),
              SmallParts(p));
  }

  // ---------- Committing ----------

  /** Every place of the cache but its metadata, and the temporary files. */
  function Payload(p: Places): set<Path> {
    {p.tar, p.checksum, p.signature, p.tarPart, p.checksumPart, p.signaturePart, p.metaTmp}
  }

  /** What a crash during a commit can leave: a tarball, if any, of the new release, and the old metadata, if any. */
  ghost predicate MidCommit(env: Env, files: Files, before: Files, p: Places, digest: string) {
    && (p.tar in files ==> env.SameDigest(env.sha256(files[p.tar]), digest))
    && (p.meta in files ==> p.meta in before && files[p.meta] == before[p.meta])
  }

  /** installFile: remove the destination, then rename. */
  method InstallFile(disk: Disk, src: Path, dst: Path, env: Env, p: Places, ghost before: Files, digest: string)
    returns (ok: bool)
    requires src != dst && Distinct(p)
    requires (src == p.tarPart && dst == p.tar) || (src == p.checksumPart && dst == p.checksum)
          || (src == p.signaturePart && dst == p.signature)
    requires p.meta in disk.files ==> p.meta in before && disk.files[p.meta] == before[p.meta]
    requires dst != p.tar ==> MidCommit(env, disk.files, before, p, digest)
    requires dst == p.tar && src in disk.files ==> env.SameDigest(env.sha256(disk.files[src]), digest)
    modifies disk
    ensures ok ==> src in old(disk.files) && dst in disk.files && disk.files[dst] == old(disk.files)[src]
    ensures ok ==> MidCommit(env, disk.files, before, p, digest)
    ensures SameBut(disk.files, old(disk.files), {src, dst})
    ensures disk.faults >= old(disk.faults) && (!ok ==> disk.faults > old(disk.faults))
    ensures old(disk.trace) <= disk.trace
    ensures forall i :: |old(disk.trace)| <= i < |disk.trace| ==>
              disk.trace[i] == old(disk.files) || MidCommit(env, disk.trace[i], before, p, digest)
    ensures disk.files == old(disk.files) || MidCommit(env, disk.files, before, p, digest)
  {
    ok := disk.Remove(dst);
    if ok {
      ok := disk.Rename(src, dst);
    }
  }

  /** writeMeta: write a temporary file, remove the old metadata, rename. */
  method WriteMeta(disk: Disk, env: Env, p: Places, meta: Meta, ghost before: Files, ghost digest: string)
    returns (ok: bool)
    requires Distinct(p) && MidCommit(env, disk.files, before, p, digest)
    modifies disk
    ensures ok ==> p.meta in disk.files && disk.files[p.meta] == env.encodeMeta(meta)
    ensures !ok ==> MidCommit(env, disk.files, before, p, digest)
    ensures SameBut(disk.files, old(disk.files), {p.meta, p.metaTmp})
    ensures disk.faults >= old(disk.faults) && (!ok ==> disk.faults > old(disk.faults))
    ensures old(disk.trace) <= disk.trace
    ensures forall i :: |old(disk.trace)| <= i < |disk.trace| ==>
              (ok && disk.trace[i] == disk.files) || MidCommit(env, disk.trace[i], before, p, digest)
  {
    ok := disk.Write(p.metaTmp, env.encodeMeta(meta));
    if !ok {
      return;
    }
    ok := disk.Remove(p.meta);
    if !ok {
      var removed := disk.Remove(p.metaTmp);
      return;
    }
    ok := disk.Rename(p.metaTmp, p.meta);
  }

  /** The four cache files are the same. */
  ghost predicate SameCache(a: Files, b: Files, p: Places) {
    && (p.tar in a <==> p.tar in b) && (p.tar in a ==> a[p.tar] == b[p.tar])
    && (p.checksum in a <==> p.checksum in b) && (p.checksum in a ==> a[p.checksum] == b[p.checksum])
    && (p.signature in a <==> p.signature in b) && (p.signature in a ==> a[p.signature] == b[p.signature])
    && (p.meta in a <==> p.meta in b) && (p.meta in a ==> a[p.meta] == b[p.meta])
  }

  /** Every new state has the cache of before, or that of after, or is in mid-commit. */
  ghost predicate OldNewOrMid(earlier: seq<Files>, later: seq<Files>, env: Env, before: Files, after: Files,
                              p: Places, digest: string)
  {
    && earlier <= later
    && forall i :: |earlier| <= i < |later| ==>
         || SameCache(later[i], before, p)
         || SameCache(later[i], after, p)
         || MidCommit(env, later[i], before, p, digest)
  }

  function MetaOf(env: Env, arch: string, digest: string): Meta {
    Meta(env.tag, arch, digest, Url(env, arch), env.now)
  }

  method InstallPayload(disk: Disk, env: Env, p: Places, digest: string) returns (ok: bool)
    requires Distinct(p)
    requires p.tarPart in disk.files && p.checksumPart in disk.files && p.signaturePart in disk.files
    requires env.SameDigest(env.sha256(disk.files[p.tarPart]), digest)
    modifies disk
    ensures ok ==>
              && p.tar in disk.files && disk.files[p.tar] == old(disk.files[p.tarPart])
              && p.checksum in disk.files && disk.files[p.checksum] == old(disk.files[p.checksumPart])
              && p.signature in disk.files && disk.files[p.signature] == old(disk.files[p.signaturePart])
              && MidCommit(env, disk.files, old(disk.files), p, digest)
    ensures !ok ==> SameCache(disk.files, old(disk.files), p) || MidCommit(env, disk.files, old(disk.files), p, digest)
    ensures disk.faults >= old(disk.faults) && (!ok ==> disk.faults > old(disk.faults))
    ensures old(disk.trace) <= disk.trace
    ensures forall i :: |old(disk.trace)| <= i < |disk.trace| ==>
              || SameCache(disk.trace[i], old(disk.files), p)
              || MidCommit(env, disk.trace[i], old(disk.files), p, digest)
  {
    ghost var before := disk.files;
    ok := InstallFile(disk, p.tarPart, p.tar, env, p, before, digest);
    if !ok {
      return;
    }
    ok := InstallFile(disk, p.checksumPart, p.checksum, env, p, before, digest);
    if !ok {
      return;
    }
    ok := InstallFile(disk, p.signaturePart, p.signature, env, p, before, digest);
  }

  /** Replaces the cached release by the downloaded one: three installs, then the metadata. */
  method CommitRelease(disk: Disk, env: Env, p: Places, arch: string, digest: string) returns (ok: bool)
    requires Distinct(p)
    requires p.tarPart in disk.files && p.checksumPart in disk.files && p.signaturePart in disk.files
    requires env.SameDigest(env.sha256(disk.files[p.tarPart]), digest)
    modifies disk
    ensures ok ==>
              && p.tar in disk.files && disk.files[p.tar] == old(disk.files[p.tarPart])
              && p.checksum in disk.files && disk.files[p.checksum] == old(disk.files[p.checksumPart])
              && p.signature in disk.files && disk.files[p.signature] == old(disk.files[p.signaturePart])
              && p.meta in disk.files && disk.files[p.meta] == env.encodeMeta(MetaOf(env, arch, digest))
    ensures disk.faults >= old(disk.faults) && (!ok ==> disk.faults > old(disk.faults))
    ensures OldNewOrMid(old(disk.trace), disk.trace, env, old(disk.files), disk.files, p, digest)
    ensures !ok ==> SameCache(disk.files, old(disk.files), p) || MidCommit(env, disk.files, old(disk.files), p, digest)
  {
    ghost var before := disk.files;
    ok := InstallPayload(disk, env, p, digest);
    if ok {
      ok := WriteMeta(disk, env, p, MetaOf(env, arch, digest), before, digest);
    }
  }

  // ---------- Ensure ----------

  /** The tarball on disk hashes to the digest in the checksum file, that file's signature verifies under the
      key, and `sha256` is that digest up to letter case. */
  ghost predicate Sound(env: Env, files: Files, p: Places, sha256: string) {
    && p.tar in files && p.checksum in files && p.signature in files
    && env.signed(files[p.checksum], files[p.signature])
    && var digest := env.digestOf(files[p.checksum]);
       digest.Some? && env.SameDigest(env.sha256(files[p.tar]), digest.value) && env.SameDigest(digest.value, sha256)
  }

  /** A crash leaves the cache of before, that of after, or a mid-commit state of the release on offer. */
  ghost predicate CrashSafe(earlier: seq<Files>, later: seq<Files>, env: Env, before: Files, after: Files,
                            p: Places, remote: Option<string>)
  {
    && earlier <= later
    && forall i :: |earlier| <= i < |later| ==>
         || SameCache(later[i], before, p)
         || SameCache(later[i], after, p)
         || (remote.Some? && MidCommit(env, later[i], before, p, remote.value))
  }

  /** verifyCache accepts exactly the sound caches whose metadata is of this release and architecture and names
      their digest. */
  lemma CachedExactlyWhen(env: Env, files: Files, p: Places, arch: string)
    ensures
      Cached(env, files, p, arch).Some? <==>
        && p.meta in files && env.decodeMeta(files[p.meta]).Some?
        && var meta := env.decodeMeta(files[p.meta]).value;
           meta.tag == env.tag && meta.arch == arch && meta.sha256 != "" && Sound(env, files, p, meta.sha256)
  {
  }

  /** The old metadata names the digest of the release on offer. */
  ghost predicate AlreadyNames(env: Env, before: Files, p: Places, digest: string) {
    && p.meta in before && env.decodeMeta(before[p.meta]).Some?
    && env.SameDigest(env.decodeMeta(before[p.meta]).value.sha256, digest)
  }

  /** While one release replaces another with a different digest, every state in mid-commit is rejected. */
  lemma MidCommitIsRejected(env: Env, files: Files, before: Files, p: Places, arch: string, digest: string)
    requires MidCommit(env, files, before, p, digest) && !AlreadyNames(env, before, p, digest)
    ensures Cached(env, files, p, arch).None?
  {
    CachedExactlyWhen(env, files, p, arch);
  }

  ghost predicate OldNewOrRejected(earlier: seq<Files>, later: seq<Files>, env: Env, before: Files, after: Files,
                                   p: Places, arch: string)
  {
    forall i :: |earlier| <= i < |later| ==>
      || SameCache(later[i], before, p)
      || SameCache(later[i], after, p)
      || Cached(env, later[i], p, arch).None?
  }

  /** Over a whole refresh to a different release, a crash leaves the old cache, the new one, or one that is
      not accepted: never a mixed set that passes. */
  lemma CrashLeavesOldNewOrNone(earlier: seq<Files>, later: seq<Files>, env: Env, before: Files, after: Files,
                                p: Places, arch: string, remote: Option<string>)
    requires CrashSafe(earlier, later, env, before, after, p, remote)
    requires remote.Some? ==> !AlreadyNames(env, before, p, remote.value)
    ensures OldNewOrRejected(earlier, later, env, before, after, p, arch)
  {
    forall i | |earlier| <= i < |later| && !SameCache(later[i], before, p) && !SameCache(later[i], after, p)
      ensures Cached(env, later[i], p, arch).None?
    {
      MidCommitIsRejected(env, later[i], before, p, arch, remote.value);
    }
  }

  /** The server answers with the tarball the checksum names. */
  predicate TarOffered(env: Env, answer: Answer, checksum: string) {
    answer.Body? && Matches(env, answer.content, checksum)
  }

  method FetchTar(disk: Disk, net: Network, env: Env, p: Places, arch: string) returns (ok: bool)
    requires Distinct(p) && p.checksumPart in disk.files
    modifies disk, net
    ensures ok ==> p.tarPart in disk.files && p.checksumPart in disk.files
    ensures ok ==> Matches(env, disk.files[p.tarPart], disk.files[p.checksumPart])
    ensures ok ==>
              && TarOffered(env, net.answers(old(net.used)), old(disk.files)[p.checksumPart])
              && disk.files[p.tarPart] == net.answers(old(net.used)).content
    ensures !ok && net.failures == old(net.failures) ==>
              !TarOffered(env, net.answers(old(net.used)), old(disk.files)[p.checksumPart])
    ensures net.urls == old(net.urls) + [Url(env, arch)] && old(net.failures) <= net.failures
    ensures net.used == old(net.used) + 1 && disk.faults == old(disk.faults)
    ensures SameBut(disk.files, old(disk.files), {p.tarPart})
    ensures Grew(old(disk.trace), disk.trace, old(disk.files), {p.tarPart})
  {
    ok := net.Fetch(Url(env, arch), p.tarPart, disk);
    if ok {
      ok := Matches(env, disk.files[p.tarPart], disk.files[p.checksumPart]);
    }
  }

  /** Downloads, verifies and stores the tarball of the release whose checksum and signature are at hand. */
  method Refresh(disk: Disk, net: Network, env: Env, p: Places, arch: string, digest: string) returns (ok: bool)
    requires Distinct(p) && p.checksumPart in disk.files && p.signaturePart in disk.files
    requires env.signed(disk.files[p.checksumPart], disk.files[p.signaturePart])
    requires env.digestOf(disk.files[p.checksumPart]) == Some(digest)
    modifies disk, net
    ensures net.used == old(net.used) + 1
    ensures net.urls == old(net.urls) + [Url(env, arch)] && old(net.failures) <= net.failures
    ensures disk.faults >= old(disk.faults)
    ensures ok ==> Sound(env, disk.files, p, digest)
    ensures ok ==>
              && TarOffered(env, net.answers(old(net.used)), old(disk.files)[p.checksumPart])
              && disk.files[p.tar] == net.answers(old(net.used)).content
    ensures !ok && disk.faults == old(disk.faults) && net.failures == old(net.failures) ==>
              !TarOffered(env, net.answers(old(net.used)), old(disk.files)[p.checksumPart])
    ensures ok && Lawful(env) ==> Cached(env, disk.files, p, arch) == Some(MetaOf(env, arch, digest))
    ensures !ok && disk.faults == old(disk.faults) ==> SameCache(disk.files, old(disk.files), p)
    ensures CrashSafe(old(disk.trace), disk.trace, env, old(disk.files), disk.files, p, Some(digest))
    ensures !ok ==> SameCache(disk.files, old(disk.files), p) || MidCommit(env, disk.files, old(disk.files), p, digest)
  {
    ok := FetchTar(disk, net, env, p, arch);
    if ok {
      label fetched:
      ok := CommitRelease(disk, env, p, arch, digest);
      assert SameCache(old@fetched(disk.files), old(disk.files), p);
    }
  }

  method RemoveParts(disk: Disk, p: Places)
    requires Distinct(p)
    modifies disk
    ensures disk.faults == old(disk.faults) ==> disk.files.Keys !! {p.tarPart, p.checksumPart, p.signaturePart}
    ensures old(disk.faults) <= disk.faults
    ensures SameBut(disk.files, old(disk.files), {p.tarPart, p.checksumPart, p.signaturePart})
    ensures Grew(old(disk.trace), disk.trace, old(disk.files), {p.tarPart, p.checksumPart, p.signaturePart})
  {
    var ok := disk.Remove(p.tarPart);
    ok := RemoveBoth(disk, p, p.signaturePart, p.checksumPart);
  }

  function SizeOf(files: Files, p: Path): nat {
    if p in files then |files[p]| else 0
  }

  lemma CrashSafeThroughout(h0: seq<Files>, h1: seq<Files>, h2: seq<Files>, h3: seq<Files>,
                            f0: Files, f1: Files, f2: Files, f3: Files, env: Env, p: Places, remote: Option<string>)
    requires Distinct(p)
    requires Grew(h0, h1, f0, SmallParts(p)) && SameBut(f1, f0, SmallParts(p))
    requires CrashSafe(h1, h2, env, f1, f2, p, remote)
    requires Grew(h2, h3, f2, SmallParts(p) + {p.tarPart}) && SameBut(f3, f2, SmallParts(p) + {p.tarPart})
    ensures CrashSafe(h0, h3, env, f0, f3, p, remote)
  {
    forall i | |h0| <= i < |h3|
      ensures || SameCache(h3[i], f0, p)
              || SameCache(h3[i], f3, p)
              || (remote.Some? && MidCommit(env, h3[i], f0, p, remote.value))
    {
      if i < |h1| {
        assert h3[i] == h2[i] == h1[i];
      } else if i < |h2| {
        assert h3[i] == h2[i];
      }
    }
  }

  lemma GrewIsCrashSafe(h0: seq<Files>, h1: seq<Files>, env: Env, f0: Files, f1: Files, p: Places,
                        remote: Option<string>)
    requires Distinct(p) && Grew(h0, h1, f0, SmallParts(p))
    ensures CrashSafe(h0, h1, env, f0, f1, p, remote)
  {
  }

  /** The checks read only the four cache files. */
  lemma SameCacheSameVerdict(env: Env, a: Files, b: Files, p: Places, arch: string, sha256: string)
    requires SameCache(a, b, p)
    ensures Cached(env, a, p, arch) == Cached(env, b, p, arch)
    ensures Sound(env, a, p, sha256) <==> Sound(env, b, p, sha256)
  {
  }

  /** The download, commit and clean-up of a release that differs from the cached one; `f0` and `h0` are the
      files and the history from before its checksum was fetched. */
  method RefreshAndClean(disk: Disk, net: Network, env: Env, p: Places, arch: string, digest: string,
                         ghost f0: Files, ghost h0: seq<Files>)
    returns (ok: bool)
    requires Distinct(p) && p.checksumPart in disk.files && p.signaturePart in disk.files
    requires env.signed(disk.files[p.checksumPart], disk.files[p.signaturePart])
    requires env.digestOf(disk.files[p.checksumPart]) == Some(digest)
    requires Grew(h0, disk.trace, f0, SmallParts(p)) && SameBut(disk.files, f0, SmallParts(p))
    modifies disk, net
    ensures net.used == old(net.used) + 1
    ensures net.urls == old(net.urls) + [Url(env, arch)] && old(net.failures) <= net.failures
    ensures disk.faults >= old(disk.faults)
    ensures ok ==> Sound(env, disk.files, p, digest)
    ensures ok ==>
              && TarOffered(env, net.answers(old(net.used)), old(disk.files)[p.checksumPart])
              && disk.files[p.tar] == net.answers(old(net.used)).content
    ensures !ok && disk.faults == old(disk.faults) && net.failures == old(net.failures) ==>
              !TarOffered(env, net.answers(old(net.used)), old(disk.files)[p.checksumPart])
    ensures ok && Lawful(env) ==> Cached(env, disk.files, p, arch) == Some(MetaOf(env, arch, digest))
    ensures disk.faults == old(disk.faults) ==>
              && p.tarPart !in disk.files && p.checksumPart !in disk.files && p.signaturePart !in disk.files
              && (!ok ==> SameCache(disk.files, f0, p))
    ensures CrashSafe(h0, disk.trace, env, f0, disk.files, p, Some(digest))
  {
    ok := Refresh(disk, net, env, p, arch, digest);
    label refreshed:
    RemoveParts(disk, p);
    assert SameCache(disk.files, old@refreshed(disk.files), p);
    SameCacheSameVerdict(env, disk.files, old@refreshed(disk.files), p, arch, digest);
    CrashSafeThroughout(h0, old(disk.trace), old@refreshed(disk.trace), disk.trace,
                        f0, old(disk.files), old@refreshed(disk.files), disk.files, env, p, Some(digest));
  }

  /** The cache already holds the release on offer: only the parts go. */
  method KeepCache(disk: Disk, env: Env, p: Places, arch: string, meta: Meta, ghost f0: Files, ghost h0: seq<Files>)
    requires Distinct(p) && Cached(env, f0, p, arch) == Some(meta)
    requires Grew(h0, disk.trace, f0, SmallParts(p)) && SameBut(disk.files, f0, SmallParts(p))
    modifies disk
    ensures SameCache(disk.files, f0, p) && Cached(env, disk.files, p, arch) == Some(meta)
    ensures SameBut(disk.files, old(disk.files), SmallParts(p))
    ensures Sound(env, disk.files, p, meta.sha256)
    ensures forall remote :: CrashSafe(h0, disk.trace, env, f0, disk.files, p, remote)
  {
    var removed := RemoveBoth(disk, p, p.signaturePart, p.checksumPart);
    assert SameCache(disk.files, f0, p);
    SameCacheSameVerdict(env, disk.files, f0, p, arch, meta.sha256);
    GrewTwice(h0, old(disk.trace), disk.trace, f0, old(disk.files), SmallParts(p));
    forall remote
      ensures CrashSafe(h0, disk.trace, env, f0, disk.files, p, remote)
    {
      GrewIsCrashSafe(h0, disk.trace, env, f0, disk.files, p, remote);
    }
  }

  /** What the server offers for the next two requests. */
  function Offer(env: Env, answers: nat -> Answer, next: nat): Option<string> {
    Release(env, answers(next), answers(next + 1))
  }

  /** The release on offer has the digest of the cached one. */
  predicate Unchanged(env: Env, offer: Option<string>, meta: Option<Meta>) {
    meta.Some? && offer.Some? && env.SameDigest(offer.value, meta.value.sha256)
  }

  /** The answers cannot make up for the cache: no signed release, or a changed one without its tarball. */
  predicate Hopeless(env: Env, answers: nat -> Answer, next: nat, meta: Option<Meta>) {
    var offer := Offer(env, answers, next);
    || offer.None?
    || (!Unchanged(env, offer, meta) && !TarOffered(env, answers(next + 2), answers(next).content))
  }

  /** A file is there in both or in neither, and is the same. */
  ghost predicate SameFile(a: Files, b: Files, p: Path) {
    (p in a <==> p in b) && (p in a ==> a[p] == b[p])
  }

  /** A result that is not a hit is of the release on offer: the cached one if that is unchanged, and otherwise the
      tarball the server answered with. */
  ghost predicate FromOffer(env: Env, answers: nat -> Answer, next: nat, files: Files, p: Places, meta: Option<Meta>,
                            res: Outcome)
    requires res.Ready?
  {
    var offer := Offer(env, answers, next);
    && offer.Some? && env.SameDigest(offer.value, res.sha256)
    && (res.cached <==> Unchanged(env, offer, meta))
    && (!res.cached ==>
          answers(next + 2).Body? && p.tar in files && files[p.tar] == answers(next + 2).content)
  }

  /** The part of EnsureWithKey after a missed cache or for a refresh; `meta` is what verifyCache said. */
  method Download(disk: Disk, net: Network, env: Env, p: Places, arch: string, meta: Option<Meta>)
    returns (res: Outcome)
    requires Distinct(p) && meta == Cached(env, disk.files, p, arch)
    modifies disk, net
    ensures old(net.used) < net.used && Asked(net, env, arch)
    ensures res.Ready? ==> Sound(env, disk.files, p, res.sha256)
    ensures res.Ready? ==> res.tar == p.tar && res.size == SizeOf(disk.files, p.tar)
    ensures res.Ready? ==> FromOffer(env, net.answers, old(net.used), disk.files, p, meta, res)
    ensures res.Ready? ==> (res.cached <==> net.used <= old(net.used) + 2)
    ensures disk.faults == old(disk.faults) && net.failures == old(net.failures) ==>
              (res.Failed? <==> Hopeless(env, net.answers, old(net.used), meta))
    ensures res.Ready? && Lawful(env) ==>
              var now := Cached(env, disk.files, p, arch);
              now.Some? && now.value.sha256 == res.sha256
    ensures res.Ready? && !res.cached && Lawful(env) ==>
              Cached(env, disk.files, p, arch) == Some(MetaOf(env, arch, res.sha256))
    ensures Unchanged(env, Offer(env, net.answers, old(net.used)), meta) ==>
              net.used <= old(net.used) + 2 && SameCache(disk.files, old(disk.files), p)
    ensures net.used > old(net.used) + 2 ==> Offer(env, net.answers, old(net.used)).Some?
    ensures net.used <= old(net.used) + 2 ==> SameFile(disk.files, old(disk.files), p.tarPart)
    ensures res.Failed? && net.used <= old(net.used) + 2 && net.failures == old(net.failures) ==>
              Offer(env, net.answers, old(net.used)).None?
    ensures res.Failed? && disk.faults == old(disk.faults) ==>
              && SameCache(disk.files, old(disk.files), p)
              && p.checksumPart !in disk.files && p.signaturePart !in disk.files
              && (net.used > old(net.used) + 2 ==> p.tarPart !in disk.files)
    ensures CrashSafe(old(disk.trace), disk.trace, env, old(disk.files), disk.files, p,
                      Offer(env, net.answers, old(net.used)))
  {
    ghost var before, history := disk.files, disk.trace;
    var digest := FetchVerifiedChecksum(disk, net, env, p, arch);
    if digest.None? {
      GrewIsCrashSafe(history, disk.trace, env, before, disk.files, p, Offer(env, net.answers, old(net.used)));
      assert SameCache(disk.files, before, p);
      return Failed;
    }
    if meta.Some? && env.SameDigest(digest.value, meta.value.sha256) {
      KeepCache(disk, env, p, arch, meta.value, before, history);
      return Ready(p.tar, true, SizeOf(disk.files, p.tar), meta.value.sha256);
    }
    var ok := RefreshAndClean(disk, net, env, p, arch, digest.value, before, history);
    return if ok then Ready(p.tar, false, SizeOf(disk.files, p.tar), digest.value) else Failed;
  }

  method EnsureWithKey(disk: Disk, net: Network, env: Env, root: Path, arch: string, refresh: bool)
    returns (res: Outcome)
    modifies disk, net
    ensures arch !in {"amd64", "arm64"} ==>
              res.Failed? && disk.files == old(disk.files) && net.used == old(net.used)
    ensures arch in {"amd64", "arm64"} ==> KnownArch(arch)
    // The checksum, its signature and, for a signed release only, the tarball are requested, in this order.
    ensures Asked(net, env, arch)
    ensures net.used > old(net.used) + 2 ==> Offer(env, net.answers, old(net.used)).Some?
    // Soundness, from any files and any answers.
    ensures res.Ready? ==>
              && Sound(env, disk.files, PlacesFor(root, arch), res.sha256)
              && res.tar == PlacesFor(root, arch).tar && res.size == SizeOf(disk.files, res.tar)
              && (res.cached <==> net.used <= old(net.used) + 2)
    // What is not a hit comes from the release on offer.
    ensures
      var meta := Cached(env, old(disk.files), PlacesFor(root, arch), arch);
      res.Ready? && (refresh || meta.None?) ==>
        FromOffer(env, net.answers, old(net.used), disk.files, PlacesFor(root, arch), meta, res)
    // While the disk obeys, it fails exactly when there is no hit and the answers do not help.
    ensures KnownArch(arch) && disk.faults == old(disk.faults) && net.failures == old(net.failures) ==>
              var meta := Cached(env, old(disk.files), PlacesFor(root, arch), arch);
              res.Failed? <==> (refresh || meta.None?) && Hopeless(env, net.answers, old(net.used), meta)
    // A success is a hit next time.
    ensures res.Ready? && Lawful(env) ==>
              var meta := Cached(env, disk.files, PlacesFor(root, arch), arch);
              meta.Some? && meta.value.sha256 == res.sha256
    // What is fetched is recorded with the release, the place and the time it came from.
    ensures res.Ready? && !res.cached && Lawful(env) ==>
              Cached(env, disk.files, PlacesFor(root, arch), arch) == Some(MetaOf(env, arch, res.sha256))
    // A hit uses neither the network nor the disk.
    ensures KnownArch(arch) && !refresh && Cached(env, old(disk.files), PlacesFor(root, arch), arch).Some? ==>
              && res.Ready? && res.cached && net.used == old(net.used) && disk.files == old(disk.files)
              && res.sha256 == Cached(env, old(disk.files), PlacesFor(root, arch), arch).value.sha256
    // A refresh against an unchanged release fetches no tarball and keeps the cache.
    ensures
      var meta := Cached(env, old(disk.files), PlacesFor(root, arch), arch);
      Unchanged(env, Offer(env, net.answers, old(net.used)), meta) ==>
        net.used <= old(net.used) + 2 && SameCache(disk.files, old(disk.files), PlacesFor(root, arch))
    // A failed download or check leaves the cache as it was and no part of what it fetched.
    ensures res.Failed? && KnownArch(arch) && disk.faults == old(disk.faults) ==>
              var p := PlacesFor(root, arch);
              && SameCache(disk.files, old(disk.files), p)
              && p.checksumPart !in disk.files && p.signaturePart !in disk.files
              && (net.used > old(net.used) + 2 ==> p.tarPart !in disk.files)
    // The tarball's part is not touched until the tarball is requested.
    ensures net.used <= old(net.used) + 2 ==> SameFile(disk.files, old(disk.files), PlacesFor(root, arch).tarPart)
    // So a part left by an earlier crash outlives a failure exactly when the server offers no signed release.
    ensures res.Failed? && KnownArch(arch) && disk.faults == old(disk.faults) && net.failures == old(net.failures) ==>
              var part := PlacesFor(root, arch).tarPart;
              part in disk.files <==> part in old(disk.files) && Offer(env, net.answers, old(net.used)).None?
    // Whatever happens, a crash at any point leaves one of these.
    ensures CrashSafe(old(disk.trace), disk.trace, env, old(disk.files), disk.files, PlacesFor(root, arch),
                      Offer(env, net.answers, old(net.used)))
    // Against a release with another digest, that is the old cache, the new one, or one that is not accepted.
    ensures
      var offer := Offer(env, net.answers, old(net.used));
      (offer.Some? ==> !AlreadyNames(env, old(disk.files), PlacesFor(root, arch), offer.value)) ==>
        OldNewOrRejected(old(disk.trace), disk.trace, env, old(disk.files), disk.files, PlacesFor(root, arch), arch)
  {
    if arch != "amd64" && arch != "arm64" {
      return Failed;
    }
    var p := PlacesFor(root, arch);
    PlacesAreDistinct(root, arch);
    var meta := Cached(env, disk.files, p, arch);
    if meta.Some? && !refresh {
      return Ready(p.tar, true, SizeOf(disk.files, p.tar), meta.value.sha256);
    }
    ghost var before, history, offer := disk.files, disk.trace, Offer(env, net.answers, net.used);
    res := Download(disk, net, env, p, arch, meta);
    if offer.Some? ==> !AlreadyNames(env, before, p, offer.value) {
      CrashLeavesOldNewOrNone(history, disk.trace, env, before, disk.files, p, arch, offer);
    }
  }

  /** The case: a disk that holds nothing but such a part, and a server that breaks off every answer. */
  method StalePartOutlivesFailure(env: Env, root: Path, arch: string, refresh: bool, part: string)
    returns (res: Outcome, left: bool)
    requires KnownArch(arch)
    ensures res.Failed? && left
  {
    var tarPart := PlacesFor(root, arch).tarPart;
    PlacesAreDistinct(root, arch);
    var disk := new Disk(map[tarPart := part]);
    var net := new Network(n => Broken);
    res := EnsureWithKey(disk, net, env, root, arch, refresh);
    left := tarPart in disk.files && disk.files[tarPart] == part;
  }

  /** After a success, asking again without refresh is served from the cache: same digest, no request. */
  method EnsureTwice(disk: Disk, net: Network, env: Env, root: Path, arch: string, refresh: bool)
    returns (first: Outcome, second: Outcome, ghost between: nat)
    requires Lawful(env)
    modifies disk, net
    ensures first.Ready? ==>
              second.Ready? && second.cached && second.sha256 == first.sha256 && net.used == between
  {
    first := EnsureWithKey(disk, net, env, root, arch, refresh);
    between := net.used;
    second := EnsureWithKey(disk, net, env, root, arch, false);
  }
}
