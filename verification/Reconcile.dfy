/** ReconcileDistro: the install record is dropped only when WSL confirms that the distro is gone. */
module Reconcile {
  import opened StateFile
  import opened Text
  import opened Disk
  import opened ConfigFile
  import WslList
  import WslListRoundTrip

  const DISTRO_NAME := "dockup"

  predicate IsDistro(name: string) {
    EqualFold(TrimSpace(name), DISTRO_NAME)
  }

  ghost predicate Listed(names: seq<string>) {
    exists i :: 0 <= i < |names| && IsDistro(names[i])
  }

  /** The WSL API denies the distro or, where it gives no answer, the list was read and does not show it. */
  ghost predicate ConfirmedAbsent(api: Option<bool>, output: Option<seq<WslList.Byte>>) {
    || api == Some(false)
    || (api.None? && output.Some? && !Listed(WslList.Names(output.value)))
  }

  method Lists(names: seq<string>) returns (listed: bool)
    ensures listed <==> Listed(names)
  {
    for i := 0 to |names|
      invariant forall k :: 0 <= k < i ==> !IsDistro(names[k])
    {
      if IsDistro(names[i]) {
        return true;
      }
    }
    return false;
  }

  /** Whether config.json can be read, what becomes of its save, and whether the transaction on state.json is
      committed. */
  datatype Luck = Luck(readable: bool, write: Write, committed: bool)

  /** The install record: the flag in state.json and the path in config.json. */
  datatype Install = Install(installed: bool, config: File)

  /** One check: the WSL API's answer if it gave one, what `wsl --list` printed if it printed anything, and how the
      files behave. */
  datatype Check = Check(api: Option<bool>, output: Option<seq<WslList.Byte>>, luck: Luck)

  function ClearedConfig(f: File, root: Path, luck: Luck): File {
    var loaded := Load(f, luck.readable, root);
    if loaded.Some? && loaded.value.currentPath != [] then Save(f, loaded.value.(currentPath := []), root, luck.write)
    else f
  }

  ghost function Checked(r: Install, root: Path, c: Check): Install {
    if !ConfirmedAbsent(c.api, c.output) then r
    else Install(r.installed && !c.luck.committed, ClearedConfig(r.config, root, c.luck))
  }

  class Record {
    var installed: bool
    var config: File
    const root: Path

    constructor (installed: bool, config: File, root: Path)
      ensures this.installed == installed && this.config == config && this.root == root
    {
      this.installed, this.config, this.root := installed, config, root;
    }

    ghost function State(): Install
      reads this
    {
      Install(installed, config)
    }

    method Clear(luck: Luck)
      modifies this
      ensures State() == Install(old(installed) && !luck.committed, ClearedConfig(old(config), root, luck))
    {
      var loaded := Load(config, luck.readable, root);
      if loaded.Some? {
        var c := loaded.value;
        if c.currentPath != [] {
          config := Save(config, c.(currentPath := []), root, luck.write);
        }
      }
      if luck.committed && installed {
        installed := false;
      }
    }

    /** `blind` is the error of a list that could not be read. */
    method ReconcileDistro(c: Check) returns (present: bool, blind: bool)
      modifies this
      ensures present <==> !ConfirmedAbsent(c.api, c.output)
      ensures blind <==> c.api.None? && c.output.None?
      ensures blind ==> present
      ensures State() == Checked(old(State()), root, c)
    {
      if c.api.Some? {
        if c.api.value {
          return true, false;
        }
        Clear(c.luck);
        return false, false;
      }
      if c.output.None? {
        return true, true;
      }
      var names := WslList.ParseListOutput(c.output.value);
      var listed := Lists(names);
      if listed {
        return true, false;
      }
      Clear(c.luck);
      return false, false;
    }
  }

  ghost function After(r: Install, root: Path, checks: seq<Check>): Install
    decreases |checks|
  {
    if checks == [] then r else After(Checked(r, root, checks[0]), root, checks[1..])
  }

  ghost predicate DropsFlag(c: Check) {
    ConfirmedAbsent(c.api, c.output) && c.luck.committed
  }

  /** The check confirms the absence and gets at config.json, for better or worse. */
  ghost predicate TouchesConfig(c: Check) {
    ConfirmedAbsent(c.api, c.output) && c.luck.readable && !c.luck.write.Untouched?
  }

  /** The first check to do so. */
  ghost predicate FirstTouch(checks: seq<Check>, i: nat) {
    && i < |checks| && TouchesConfig(checks[i])
    && forall k :: 0 <= k < i ==> !TouchesConfig(checks[k])
  }

  lemma FlagStep(r: Install, root: Path, c: Check)
    ensures Checked(r, root, c).installed <==> r.installed && !DropsFlag(c)
  {
  }

  lemma NoneDropsTail(checks: seq<Check>)
    requires checks != []
    ensures (forall i :: 0 <= i < |checks| ==> !DropsFlag(checks[i])) <==>
              !DropsFlag(checks[0]) && forall i :: 0 <= i < |checks[1..]| ==> !DropsFlag(checks[1..][i])
  {
    var rest := checks[1..];
    assert forall i :: 0 <= i < |rest| ==> rest[i] == checks[i + 1];
    assert forall i :: 0 < i < |checks| ==> checks[i] == rest[i - 1];
  }

  /** Over any checks the flag is lost if and only if one of them confirmed the absence and was committed; what one of
      them had to leave, a later one drops. */
  lemma {:induction false} FlagIsDroppedExactlyWhen(r: Install, root: Path, checks: seq<Check>)
    ensures
      After(r, root, checks).installed <==> r.installed && forall i :: 0 <= i < |checks| ==> !DropsFlag(checks[i])
    decreases |checks|
  {
    if checks != [] {
      FlagIsDroppedExactlyWhen(Checked(r, root, checks[0]), root, checks[1..]);
      FlagStep(r, root, checks[0]);
      NoneDropsTail(checks);
    }
  }

  /** There is no path to be dropped: nothing is written. */
  lemma {:induction false} NothingToDrop(r: Install, root: Path, checks: seq<Check>)
    requires r.config.Saved? ==> r.config.config.currentPath == []
    ensures After(r, root, checks).config == r.config
    decreases |checks|
  {
    if checks != [] {
      NothingToDrop(Checked(r, root, checks[0]), root, checks[1..]);
    }
  }

  lemma FirstTouchLater(checks: seq<Check>, i: nat)
    requires checks != [] && !TouchesConfig(checks[0]) && FirstTouch(checks, i)
    ensures i > 0 && FirstTouch(checks[1..], i - 1)
  {
    assert forall k :: 0 <= k < i - 1 ==> checks[1..][k] == checks[k + 1];
  }

  function WithoutPath(c: Config, root: Path, write: Write): File {
    if write.CutShort? then Torn else Saved(WithDefaults(c, root).(currentPath := []))
  }

  lemma TouchedAtOnce(r: Install, root: Path, checks: seq<Check>)
    requires r.config.Saved? && r.config.config.currentPath != []
    requires checks != [] && TouchesConfig(checks[0])
    ensures After(r, root, checks).config == WithoutPath(r.config.config, root, checks[0].luck.write) != r.config
  {
    NothingToDrop(Checked(r, root, checks[0]), root, checks[1..]);
  }

  /** Over any checks the path is lost if and only if one of them confirmed the absence and got at config.json.  What
      the first of those did is what remains: only the path is gone if its save was done, and all of the settings
      are if it was cut short. */
  lemma {:induction false} PathIsDroppedExactlyWhen(r: Install, root: Path, checks: seq<Check>)
    requires r.config.Saved? && r.config.config.currentPath != []
    ensures After(r, root, checks).config == r.config <==> forall i :: 0 <= i < |checks| ==> !TouchesConfig(checks[i])
    ensures forall i: nat :: FirstTouch(checks, i) ==>
              After(r, root, checks).config == WithoutPath(r.config.config, root, checks[i].luck.write)
    decreases |checks|
  {
    if checks != [] {
      var rest := checks[1..];
      if TouchesConfig(checks[0]) {
        TouchedAtOnce(r, root, checks);
        assert forall i: nat :: FirstTouch(checks, i) ==> i == 0;
      } else {
        PathIsDroppedExactlyWhen(Checked(r, root, checks[0]), root, rest);
        assert forall i :: 0 < i < |checks| ==> checks[i] == rest[i - 1];
        assert forall i :: 0 <= i < |rest| ==> rest[i] == checks[i + 1];
        forall i: nat | FirstTouch(checks, i)
          ensures After(r, root, checks).config == WithoutPath(r.config.config, root, checks[i].luck.write)
        {
          FirstTouchLater(checks, i);
        }
      }
    }
  }

  /** With no answer from the API, `output` alone confirms that the distro is gone. */
  ghost predicate AbsentBy(output: seq<WslList.Byte>) {
    ConfirmedAbsent(None, Some(output))
  }

  /** Whatever encoding wsl.exe prints in, the list confirms absence exactly when the distro is not on it. */
  lemma ListDecidesInEveryEncoding(names: seq<string>)
    requires WslListRoundTrip.AllNames(names)
    ensures AbsentBy(WslListRoundTrip.BOM + WslListRoundTrip.InUtf16(names)) <==> !Listed(names)
    ensures AbsentBy(WslListRoundTrip.EncodeUtf8(WslListRoundTrip.Listing(names))) <==> !Listed(names)
    ensures names == [] || names[0][0] as int != 0xFEFF ==>
              (AbsentBy(WslListRoundTrip.InUtf16(names)) <==> !Listed(names))
  {
    WslListRoundTrip.MarkedUtf16RoundTrips(names);
    WslListRoundTrip.Utf8ListRoundTrips(names);
    WslListRoundTrip.BareUtf16RoundTripsExactlyWhen(names);
  }

  /** Of the ASCII names exactly dockup is the distro, in any letter case and with any white space around it. */
  lemma DistroIsCalledDockup(a: string, name: string, d: string)
    requires AllSpace(a) && AllSpace(d) && name != "" && Trimmed(name, IsSpace) && IsAscii(name)
    ensures IsDistro(a + name + d) <==> SameButCase(name, "dockup")
  {
    TrimSpaceDrops(a, name, d);
    if SameButCase(name, "dockup") {
      CaseFolds(name, "dockup");
    } else if EqualFold(name, "dockup") {
      FoldedAsciiDiffersInCaseOnly(name, "dockup");
    }
  }
}
