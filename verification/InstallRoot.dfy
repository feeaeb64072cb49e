/** Where dockup is installed: the config's paths, the distro directory, uninstall, and the image cache that
    outlives it.  Paths are absolute. */
module InstallRoot {
  import opened StateFile
  import opened Disk
  import opened ImageCache
  import opened ConfigFile

  /** What does not change: the default root, the location older versions used, and the normal form of a path, if it
      has one. */
  datatype Setting = Setting(root: Path, legacy: Path, norm: Path -> Option<Path>)

  const DISTRO := "distro"
  const VHDX := "ext4.vhdx"

  // ---------- Choosing the root ----------

  /** A configured path in its normal form, if it has one; normalizing may refuse it. */
  function Resolved(raw: Path, norm: Path -> Option<Path>): Option<Path> {
    if raw == [] then None else norm(raw)
  }

  /** The current path, then the default one, then the location older versions used. */
  function RootOf(c: Config, m: Setting): Path {
    match (Resolved(c.currentPath, m.norm), Resolved(c.defaultPath, m.norm))
    case (Some(p), _) => p
    case (None, Some(p)) => p
    case (None, None) => m.legacy
  }

  /** InstallRoot: what config.json says, or the defaults if it cannot be used. */
  function Root(f: File, readable: bool, m: Setting): Path {
    RootOf(LoadOrDefaults(f, readable, m.root), m)
  }

  /** DistroDir: root\distro, unless only the root itself holds a virtual disk. */
  function DistroDir(root: Path, files: Files): Path {
    if root + [DISTRO, VHDX] in files then root + [DISTRO]
    else if root + [VHDX] in files then root
    else root + [DISTRO]
  }

  method ChooseRoot(f: File, readable: bool, m: Setting) returns (root: Path)
    ensures root == Root(f, readable, m)
  {
    var c := LoadOrDefaults(f, readable, m.root);
    var candidates := [c.currentPath, c.defaultPath];
    for i := 0 to 2
      invariant i >= 1 ==> Resolved(c.currentPath, m.norm).None?
      invariant i >= 2 ==> Resolved(c.defaultPath, m.norm).None?
    {
      if candidates[i] == [] {
        continue;
      }
      var p := m.norm(candidates[i]);
      if p.Some? {
        return p.value;
      }
    }
    return m.legacy;
  }

  // ---------- config.json over whole runs ----------

  /** How config.json behaves for one command: whether it can be read, and what becomes of the save. */
  datatype Luck = Luck(readable: bool, write: Write)

  datatype Step =
    | FirstRun(luck: Luck)
    | SetupDone(dir: Path, luck: Luck)
    | SetupFailed(luck: Luck)
    | DistroGone(luck: Luck)
    | Uninstalled(luck: Luck)
    | SetAutostart(on: bool, luck: Luck)
    | SetContextPrev(name: string, luck: Luck)

  predicate StepAllowed(s: Step) {
    s.SetupDone? ==> s.dir != []
  }

  /** The config a command saves, if it saves one.  Setup and the context commands go on with the defaults when
      config.json cannot be used; the others then leave it alone. */
  function ToSave(f: File, s: Step, root: Path): Option<Config> {
    var loaded := Load(f, s.luck.readable, root);
    var c := LoadOrDefaults(f, s.luck.readable, root);
    match s
    case FirstRun(_) => if f.Missing? then Some(Defaults(root)) else None
    case SetupDone(dir, _) => Some(c.(defaultPath := dir, currentPath := dir))
    case SetupFailed(_) => Some(c.(currentPath := []))
    case DistroGone(_) => if loaded.Some? && c.currentPath != [] then Some(c.(currentPath := [])) else None
    case Uninstalled(_) =>
      if loaded.Some? then Some(c.(currentPath := [], autostart := false, contextPrev := "")) else None
    case SetAutostart(on, _) => if loaded.Some? then Some(c.(autostart := on)) else None
    case SetContextPrev(name, _) => Some(c.(contextPrev := name))
  }

  function Apply(f: File, s: Step, root: Path): File {
    match ToSave(f, s, root)
    case Some(c) => Save(f, c, root, s.luck.write)
    case None => f
  }

  function After(f: File, run: seq<Step>, root: Path): File
    decreases |run|
  {
    if run == [] then f else After(Apply(f, run[0], root), run[1..], root)
  }

  /** The current path is empty or the default one. */
  predicate Settled(f: File) {
    f.Saved? ==> f.config.defaultPath != [] && f.config.currentPath in {[], f.config.defaultPath}
  }

  /** Whatever fails on the way, config.json is settled, missing or torn. */
  lemma {:induction false} RunsSettle(f: File, run: seq<Step>, root: Path)
    requires root != [] && Settled(f) && forall i :: 0 <= i < |run| ==> StepAllowed(run[i])
    ensures Settled(After(f, run, root))
    decreases |run|
  {
    if run != [] {
      assert StepAllowed(run[0]);
      RunsSettle(Apply(f, run[0], root), run[1..], root);
    }
  }

  /** config.json is torn at the end only if a save of the run was cut short. */
  lemma {:induction false} TornOnlyByCutShort(f: File, run: seq<Step>, root: Path)
    requires !f.Torn? && After(f, run, root).Torn?
    ensures exists i :: 0 <= i < |run| && run[i].luck.write.CutShort?
    decreases |run|
  {
    if !run[0].luck.write.CutShort? {
      TornOnlyByCutShort(Apply(f, run[0], root), run[1..], root);
      var i :| 0 <= i < |run[1..]| && run[1..][i].luck.write.CutShort?;
      assert run[i + 1].luck.write.CutShort?;
    }
  }

  /** The uninstall's save is cut short in a config.json that names a root of its own. */
  predicate LosesRoot(f: File, luck: Luck, root: Path) {
    f.Saved? && luck.readable && luck.write.CutShort? && f.config.defaultPath != root
  }

  /** Uninstalling keeps the root of a settled config.json, and with it the way to the cache, however paths are
      normalized, unless its save is cut short and the root is not the default one; and if normalizing changes no
      path, it loses it then. */
  lemma UninstallKeepsRootExactlyWhen(f: File, luck: Luck, m: Setting)
    requires m.root != [] && Settled(f)
    ensures !LosesRoot(f, luck, m.root) ==> Root(Apply(f, Uninstalled(luck), m.root), true, m) == Root(f, true, m)
    ensures (forall p :: m.norm(p) == Some(p)) ==>
              (Root(Apply(f, Uninstalled(luck), m.root), true, m) == Root(f, true, m) <==> !LosesRoot(f, luck, m.root))
  {
    if forall p :: m.norm(p) == Some(p) {
      assert m.norm(m.root) == Some(m.root);
      if f.Saved? {
        assert m.norm(f.config.currentPath) == Some(f.config.currentPath);
        assert m.norm(f.config.defaultPath) == Some(f.config.defaultPath);
      }
    }
  }

  /** A config.json that is settled or not: with saves that succeed and paths that normalizing leaves alone, the root
      is kept for settled ones and no others. */
  lemma WrittenUninstallKeepsRootExactlyWhen(c: Config, m: Setting)
    requires m.root != [] && c.defaultPath != [] && forall p :: m.norm(p) == Some(p)
    ensures Root(Apply(Saved(c), Uninstalled(Luck(true, Written)), m.root), true, m) == Root(Saved(c), true, m)
            <==> Settled(Saved(c))
  {
    assert m.norm(c.currentPath) == Some(c.currentPath) && m.norm(c.defaultPath) == Some(c.defaultPath);
  }

  /** From the first run on, after any commands and any failures, an uninstall keeps the root unless its own save is
      cut short in a config.json with a root of its own. */
  lemma UninstallAlwaysKeepsRoot(run: seq<Step>, luck: Luck, m: Setting)
    requires m.root != [] && forall i :: 0 <= i < |run| ==> StepAllowed(run[i])
    ensures
      var f := After(Missing, run, m.root);
      !LosesRoot(f, luck, m.root) ==> Root(Apply(f, Uninstalled(luck), m.root), true, m) == Root(f, true, m)
  {
    RunsSettle(Missing, run, m.root);
    UninstallKeepsRootExactlyWhen(After(Missing, run, m.root), luck, m);
  }

  // ---------- Files ----------

  predicate Under(dir: Path, p: Path) {
    dir <= p
  }

  /** os.RemoveAll */
  function Without(files: Files, dir: Path): Files {
    map p | p in files && !Under(dir, p) :: files[p]
  }

  ghost predicate SameUnder(a: Files, b: Files, dir: Path) {
    forall p :: Under(dir, p) ==> (p in a <==> p in b) && (p in a ==> a[p] == b[p])
  }

  lemma SegmentUnder(dir: Path, p: Path, k: nat)
    requires k < |dir|
    ensures Under(dir, p) ==> k < |p| && p[k] == dir[k]
  {
  }

  lemma CacheIsApart(root: Path, p: Path)
    requires Under(CacheDir(root), p)
    ensures !Under(root + [DISTRO], p) && p != root + [VHDX] && p != root + ["rootfs"]
  {
    SegmentUnder(CacheDir(root), p, |root|);
    SegmentUnder(root + [DISTRO], p, |root|);
  }

  /** What unregistering deletes. */
  function DiskOf(registered: Option<Path>): set<Path> {
    if registered.Some? then {registered.value + [VHDX]} else {}
  }

  /** WSL does not have the distro inside the image cache. */
  predicate SparesCache(registered: Option<Path>, root: Path) {
    registered.None? || !Under(CacheDir(root), registered.value + [VHDX])
  }

  /** A distro where dockup puts it, or where older versions did, has its disk outside the cache. */
  lemma OwnDiskIsSpared(root: Path)
    ensures SparesCache(Some(root + [DISTRO]), root) && SparesCache(Some(root), root)
  {
    if Under(CacheDir(root), root + [DISTRO] + [VHDX]) {
      CacheIsApart(root, root + [DISTRO] + [VHDX]);
    }
    if Under(CacheDir(root), root + [VHDX]) {
      CacheIsApart(root, root + [VHDX]);
    }
  }

  /** Bytes in the files at these paths. */
  ghost function Bytes(files: Files, paths: set<Path>): nat
    requires paths <= files.Keys
  {
    if paths == {} then 0
    else
      var p :| p in paths;
      |files[p]| + Bytes(files, paths - {p})
  }

  lemma {:induction false} BytesWithout(files: Files, paths: set<Path>, p: Path)
    requires paths <= files.Keys && p in paths
    ensures Bytes(files, paths) == |files[p]| + Bytes(files, paths - {p})
    decreases paths
  {
    var q :| q in paths && Bytes(files, paths) == |files[q]| + Bytes(files, paths - {q});
    if p != q {
      BytesWithout(files, paths - {q}, p);
      BytesWithout(files, paths - {p}, q);
      assert paths - {q} - {p} == paths - {p} - {q};
    }
  }

  function FilesUnder(files: Files, dir: Path): set<Path> {
    set p | p in files && Under(dir, p)
  }

  class Machine {
    var config: File
    var files: Files
    const m: Setting

    constructor (config: File, files: Files, m: Setting)
      ensures this.config == config && this.files == files && this.m == m
    {
      this.config, this.files, this.m := config, files, m;
    }

    /** os.RemoveAll, which may fail after removing some of the files. */
    method RemoveAll(dir: Path) returns (ok: bool)
      modifies this`files
      ensures SameBut(files, old(files), FilesUnder(old(files), dir)) && files.Keys <= old(files).Keys
      ensures ok ==> FilesUnder(files, dir) == {}
    {
      ok := *;
      var gone: set<Path> := *;
      if ok {
        files := Without(files, dir);
      } else {
        files := files - (gone * FilesUnder(files, dir));
      }
    }

    method RemoveDirRetry(dir: Path) returns (ok: bool)
      modifies this`files
      ensures SameBut(files, old(files), FilesUnder(old(files), dir)) && files.Keys <= old(files).Keys
      ensures ok ==> FilesUnder(files, dir) == {}
    {
      for i := 0 to 10
        invariant SameBut(files, old(files), FilesUnder(old(files), dir)) && files.Keys <= old(files).Keys
      {
        ok := RemoveAll(dir);
        if ok {
          return;
        }
      }
      return false;
    }

    /** os.Remove of one file, if it can be removed. */
    method RemoveFile(p: Path) returns (ok: bool)
      modifies this`files
      ensures files == if ok then old(files) - {p} else old(files)
    {
      ok := *;
      if ok {
        files := files - {p};
      }
    }

    /** Removes what unregistering leaves of the distro; `clean` tells whether it could. */
    method RemoveRest(root: Path, distroDir: Path) returns (clean: bool)
      requires distroDir == root || distroDir == root + [DISTRO]
      modifies this`files
      ensures SameUnder(files, old(files), CacheDir(root)) && files.Keys <= old(files).Keys
      ensures SameBut(files, old(files), if distroDir == root then {root + [VHDX], root + ["rootfs"]}
                                         else FilesUnder(old(files), distroDir))
      ensures clean ==> distroDir + [VHDX] !in files
      ensures clean && distroDir != root ==> FilesUnder(files, distroDir) == {}
      ensures clean && distroDir == root ==> root + ["rootfs"] !in files
    {
      forall p | Under(CacheDir(root), p)
        ensures !Under(root + [DISTRO], p) && p != root + [VHDX] && p != root + ["rootfs"]
      {
        CacheIsApart(root, p);
      }
      if distroDir != root {
        clean := RemoveDirRetry(distroDir);
        assert clean && distroDir + [VHDX] in files ==> distroDir + [VHDX] in FilesUnder(files, distroDir);
      } else {
        var disk := RemoveFile(root + [VHDX]);
        var rootfs := RemoveFile(root + ["rootfs"]);
        clean := disk && rootfs;
      }
    }

    /** Uninstall once it is confirmed.  `registered` is where WSL has the distro, if it has it; unregistering deletes
        its virtual disk there.  `seen` says whether config.json can be read when the root is chosen.  Only a failure
        to unregister ends it; `clean` tells whether all else could be removed. */
    method Uninstall(registered: Option<Path>, unregisters: bool, seen: bool, luck: Luck)
      returns (ok: bool, clean: bool)
      modifies this
      ensures ok <==> registered.None? || unregisters
      ensures !ok ==> !clean && config == old(config) && files == old(files)
      ensures ok ==> config == Apply(old(config), Uninstalled(luck), m.root)
      ensures
        var root := Root(old(config), seen, m);
        var distroDir := DistroDir(root, old(files));
        var disk := DiskOf(registered);
        var rest := if distroDir == root then {root + [VHDX], root + ["rootfs"]} else FilesUnder(old(files), distroDir);
        && files.Keys <= old(files).Keys && SameBut(files, old(files), disk + rest)
        && (SparesCache(registered, root) ==> SameUnder(files, old(files), CacheDir(root)))
        && (ok ==> files.Keys !! disk)
        && (clean && distroDir != root ==> FilesUnder(files, distroDir) == {})
        && (clean && distroDir == root ==> files.Keys !! rest)
    {
      var root := ChooseRoot(config, seen, m);
      var distroDir := DistroDir(root, files);
      if registered.Some? {
        if !unregisters {
          return false, false;
        }
        files := files - {registered.value + [VHDX]};
      }
      clean := RemoveRest(root, distroDir);
      var loaded := Load(config, luck.readable, m.root);
      if loaded.Some? {
        var c := loaded.value.(currentPath := [], autostart := false, contextPrev := "");
        config := Save(config, c, m.root, luck.write);
      }
      return true, clean;
    }

    method DirSize(dir: Path) returns (total: nat)
      ensures total == Bytes(files, FilesUnder(files, dir))
    {
      var todo := FilesUnder(files, dir);
      total := 0;
      while todo != {}
        invariant todo <= files.Keys
        invariant total + Bytes(files, todo) == Bytes(files, FilesUnder(files, dir))
        decreases todo
      {
        var p :| p in todo;
        BytesWithout(files, todo, p);
        if |files[p]| > 0 {
          total := total + |files[p]|;
        }
        todo := todo - {p};
      }
    }

    method CacheExists(root: Path) returns (found: bool)
      ensures found <==> exists p :: p in files && Under(CacheDir(root), p) && |files[p]| > 0
    {
      var todo := FilesUnder(files, CacheDir(root));
      while todo != {}
        invariant todo <= FilesUnder(files, CacheDir(root))
        invariant forall p :: p in FilesUnder(files, CacheDir(root)) && p !in todo ==> |files[p]| == 0
        decreases todo
      {
        var p :| p in todo;
        if |files[p]| > 0 {
          return true;
        }
        todo := todo - {p};
      }
      return false;
    }

    /** Clear: exactly the cache goes and its size is reported, or some of it stays and nothing is reported. */
    method Clear(root: Path) returns (size: nat, ok: bool)
      modifies this`files
      ensures ok ==> size == Bytes(old(files), FilesUnder(old(files), CacheDir(root)))
      ensures ok ==> FilesUnder(files, CacheDir(root)) == {}
      ensures !ok ==> size == 0
      ensures SameBut(files, old(files), FilesUnder(old(files), CacheDir(root))) && files.Keys <= old(files).Keys
    {
      size := DirSize(CacheDir(root));
      ok := RemoveAll(CacheDir(root));
      if !ok {
        size := 0;
      }
    }

    /** uninstall, then prune; `seen` and `later` say whether each can read config.json when it chooses the root.
        The cache is found as it was, whatever else of the uninstall failed, unless its save was cut short in a
        config.json with a root of its own. */
    method UninstallThenPrune(registered: Option<Path>, unregisters: bool, seen: bool, luck: Luck, later: bool)
      returns (root: Path, freed: nat, ok: bool, left: bool)
      requires m.root != [] && Settled(config)
      modifies this
      ensures
        var lost := (registered.None? || unregisters) && LosesRoot(old(config), luck, m.root);
        seen && later && !lost ==>
          && root == Root(old(config), true, m)
          && (SparesCache(registered, root) && ok ==>
                freed == Bytes(old(files), FilesUnder(old(files), CacheDir(root))) && !left)
    {
      ghost var before := files;
      UninstallKeepsRootExactlyWhen(config, luck, m);
      var done, clean := Uninstall(registered, unregisters, seen, luck);
      root := ChooseRoot(config, later, m);
      ghost var kept := files;
      if SameUnder(kept, before, CacheDir(root)) {
        assert FilesUnder(kept, CacheDir(root)) == FilesUnder(before, CacheDir(root));
        SameBytes(kept, before, FilesUnder(kept, CacheDir(root)));
      }
      freed, ok := Clear(root);
      left := CacheExists(root);
      assert forall p :: p in files && Under(CacheDir(root), p) ==> p in FilesUnder(files, CacheDir(root));
    }
  }

  /** The case: an install in a place of its own, an uninstall whose save is cut short, and a prune that looks in the
      default place, finds no cache, and leaves the one there is. */
  method TornSaveLosesTheCache(image: string) returns (root: Path, found: bool, there: bool)
    requires image != ""
    ensures root == ["C:", "dockup"] && !found && there
  {
    var own, tar := ["D:", "x"], CacheDir(["D:", "x"]) + ["dockup-amd64.tar.gz"];
    var m := Setting(["C:", "dockup"], ["C:", "dockup", "wsl"], p => Some(p));
    var machine := new Machine(Saved(Config(own, own, false, "")), map[tar := image], m);
    assert tar[0] == "D:" && CacheDir(["C:", "dockup"])[0] == "C:";
    var ok, clean := machine.Uninstall(None, true, true, Luck(true, CutShort));
    root := ChooseRoot(machine.config, true, m);
    found := machine.CacheExists(root);
    there := tar in machine.files && machine.files[tar] == image;
  }

  lemma {:induction false} SameBytes(a: Files, b: Files, paths: set<Path>)
    requires paths <= a.Keys && paths <= b.Keys && forall p :: p in paths ==> a[p] == b[p]
    ensures Bytes(a, paths) == Bytes(b, paths)
    decreases paths
  {
    if paths != {} {
      var p :| p in paths;
      BytesWithout(a, paths, p);
      BytesWithout(b, paths, p);
      SameBytes(a, b, paths - {p});
    }
  }

  // ---------- In so many words ----------

  /** The distro lives in a directory of its own under the root, unless only the root itself has its disk. */
  lemma DistroDirExactlyWhen(root: Path, files: Files)
    ensures DistroDir(root, files) == root <==>
              root + ["ext4.vhdx"] in files && root + ["distro", "ext4.vhdx"] !in files
    ensures DistroDir(root, files) in {root, root + ["distro"]}
  {
    assert |root + ["distro"]| == |root| + 1;
  }

  /** After a setup into a directory, saved, that is the root, whatever there was before, and the other settings are
      those there were, if they could be read. */
  lemma SetupChoosesTheRoot(f: File, dir: Path, readable: bool, m: Setting)
    requires m.root != [] && dir != [] && m.norm(dir).Some?
    ensures
      var g := Apply(f, SetupDone(dir, Luck(readable, Written)), m.root);
      && Root(g, true, m) == m.norm(dir).value
      && g.Saved? && g.config.defaultPath == dir && g.config.currentPath == dir
      && (f.Saved? && readable ==>
            g.config.autostart == f.config.autostart && g.config.contextPrev == f.config.contextPrev)
  {
  }

  /** What each of the other commands saves, when it can read and save. */
  lemma StepsSave(c: Config, on: bool, name: string, root: Path)
    requires c.defaultPath != []
    ensures
      var luck := Luck(true, Written);
      && Apply(Saved(c), Uninstalled(luck), root) == Saved(Config(c.defaultPath, [], false, ""))
      && Apply(Saved(c), SetupFailed(luck), root) == Saved(Config(c.defaultPath, [], c.autostart, c.contextPrev))
      && Apply(Saved(c), DistroGone(luck), root) == Saved(Config(c.defaultPath, [], c.autostart, c.contextPrev))
      && Apply(Saved(c), SetAutostart(on, luck), root) == Saved(Config(c.defaultPath, c.currentPath, on, c.contextPrev))
      && Apply(Saved(c), SetContextPrev(name, luck), root)
           == Saved(Config(c.defaultPath, c.currentPath, c.autostart, name))
      && Apply(Saved(c), FirstRun(luck), root) == Saved(c)
      && Apply(Missing, FirstRun(luck), root) == Saved(Config(root, [], false, ""))
  {
    if c.currentPath == [] {
      assert c == Config(c.defaultPath, [], c.autostart, c.contextPrev);
    }
  }

  /** Doctor does not write a config.json that has no path to be cleared, so that cannot tear it. */
  lemma NothingToClear(f: File, luck: Luck, root: Path)
    requires f.Saved? ==> f.config.currentPath == []
    ensures Apply(f, DistroGone(luck), root) == f
  {
  }

  /** A config.json that cannot be used is left alone by uninstall, doctor, autostart and the first run; setup and the
      context commands write it anew from the defaults. */
  lemma UnusableConfig(f: File, s: Step, name: string, root: Path)
    requires root != [] && Load(f, s.luck.readable, root).None?
    ensures s.DistroGone? || s.Uninstalled? || s.SetAutostart? || s.FirstRun? ==> Apply(f, s, root) == f
    ensures s.luck.write.Written? ==>
              Apply(f, SetContextPrev(name, s.luck), root) == Saved(Config(root, [], false, name))
  {
  }

  /** The root: the current path if it has a normal form, else the default path, else the old location; and the
      built-in default if config.json cannot be used. */
  lemma RootInWords(c: Config, m: Setting)
    requires m.root != [] && c.defaultPath != []
    ensures c.currentPath != [] && m.norm(c.currentPath).Some? ==>
              Root(Saved(c), true, m) == m.norm(c.currentPath).value
    ensures (c.currentPath == [] || m.norm(c.currentPath).None?) && m.norm(c.defaultPath).Some? ==>
              Root(Saved(c), true, m) == m.norm(c.defaultPath).value
    ensures (c.currentPath == [] || m.norm(c.currentPath).None?) && m.norm(c.defaultPath).None? ==>
              Root(Saved(c), true, m) == m.legacy
    ensures m.norm(m.root).Some? ==>
              Root(Torn, true, m) == Root(Missing, true, m) == Root(Saved(c), false, m) == m.norm(m.root).value
  {
  }
}
