/** The docker CLI context named "dockup": created, made current, given up again, while the user may change
    contexts at any time.  A docker command may fail, and then changes nothing. */
module DockerContext {
  import opened ConfigFile
  import opened Text

  const NAME := "dockup"
  const DEFAULT := "default"
  const PIPE_PREFIX := "\\\\.\\pipe\\"
  const SCHEME := "npipe://"
  const HOST_PREFIX := "npipe:////./pipe/"

  predicate HasPrefix(s: string, prefix: string) {
    prefix <= s
  }

  /** The docker host of a pipe path. */
  function Host(pipe: string): string {
    var p := TrimSpace(pipe);
    if HasPrefix(p, SCHEME) then p
    else HOST_PREFIX + if HasPrefix(p, PIPE_PREFIX) then p[|PIPE_PREFIX|..] else p
  }

  lemma TrimLeftEnds(s: string)
    ensures TrimLeft(s, IsSpace) != "" ==> !IsSpace(TrimLeft(s, IsSpace)[0])
  {
  }

  lemma TrimRightEnds(s: string)
    ensures TrimRight(s, IsSpace) <= s
    ensures TrimRight(s, IsSpace) != "" ==> !IsSpace(TrimRight(s, IsSpace)[|TrimRight(s, IsSpace)| - 1])
  {
  }

  lemma TrimSpaceEnds(s: string)
    ensures Trimmed(TrimSpace(s), IsSpace)
  {
    TrimLeftEnds(s);
    TrimRightEnds(TrimLeft(s, IsSpace));
  }

  /** A docker host is its own host, so a context can be described by either. */
  lemma HostIsIdempotent(pipe: string)
    ensures Host(Host(pipe)) == Host(pipe)
    ensures HasPrefix(Host(pipe), SCHEME)
  {
    var p, h := TrimSpace(pipe), Host(pipe);
    TrimSpaceEnds(pipe);
    assert HOST_PREFIX[..|SCHEME|] == SCHEME;
    assert h != "" && h[0] == 'n';
    assert !IsSpace(h[|h| - 1]);
    TrimmedStays(h, IsSpace);
  }

  // ---------- What the commands do ----------

  /** The contexts besides `default`, the current one, the previous name in config.json, and, for the record, the
      context that was current before the latest `context use` run from outside dockup. */
  datatype Cli = Cli(contexts: map<string, string>, current: string, prev: string, before: string)

  /** Which of the steps of a command would succeed; whether config.json can be read when it starts, and what becomes
      of its save. */
  datatype Luck = Luck(
    cli: bool, shows: bool, inspects: bool, removes: bool, creates: bool, uses: bool, probes: bool,
    readable: bool, write: Write)

  predicate Exists(c: Cli, name: string) {
    name == DEFAULT || name in c.contexts
  }

  predicate IsName(name: string) {
    name != "" && Trimmed(name, IsSpace)
  }

  predicate Valid(c: Cli) {
    Exists(c, c.current) && forall name :: name in c.contexts ==> IsName(name)
  }

  /** docker context rm -f: a removed current context falls back to the default one. */
  function Dropped(c: Cli, name: string): Cli {
    c.(contexts := c.contexts - {name}, current := if c.current == name then DEFAULT else c.current)
  }

  datatype Done = Done(cli: Cli, ok: bool, wrote: bool)

  function EnsureStep(c: Cli, pipe: string, luck: Luck): Done {
    var found := luck.inspects && NAME in c.contexts;
    if !luck.cli then Done(c, false, false)
    else if found && c.contexts[NAME] == Host(pipe) then Done(c, true, false)
    else if found && !luck.removes then Done(c, false, false)
    else
      var d := if found then Dropped(c, NAME) else c;
      if luck.creates && NAME !in d.contexts then Done(d.(contexts := d.contexts[NAME := Host(pipe)]), true, true)
      else Done(d, false, false)
  }

  function UseStep(c: Cli, pipe: string, luck: Luck): Done {
    var d := EnsureStep(c, pipe, luck);
    if d.ok && luck.uses then Done(d.cli.(current := NAME), true, d.wrote) else Done(d.cli, false, d.wrote)
  }

  /** The saved name a command starts with. */
  function Known(c: Cli, luck: Luck): string {
    if luck.readable then c.prev else ""
  }

  /** The saved name after a save: a config.json cut short holds none. */
  function PrevAfter(c: Cli, name: string, write: Write): string {
    match write case Written => name case Untouched => c.prev case CutShort => ""
  }

  /** What `context show` tells. */
  function Shown(c: Cli, luck: Luck): string {
    if luck.shows then c.current else ""
  }

  function ContextUseStep(c: Cli, pipe: string, luck: Luck): Done {
    var prev := if Shown(c, luck) != NAME then Shown(c, luck) else "";
    var d := UseStep(c, pipe, luck);
    if !luck.cli || !d.ok then Done(d.cli, false, d.wrote)
    else
      var kept := if prev != "" && prev != Known(c, luck) then PrevAfter(c, prev, luck.write) else c.prev;
      Done(d.cli.(prev := kept, before := if c.current != NAME then c.current else c.before), true, d.wrote)
  }

  function OffTarget(c: Cli, luck: Luck): string {
    var target := TrimSpace(Known(c, luck));
    if target == "" || target == NAME || !(luck.probes && Exists(c, target)) then DEFAULT else target
  }

  function ContextOffStep(c: Cli, luck: Luck): Cli {
    if !luck.cli || Shown(c, luck) != NAME || !luck.uses then c
    else
      var prev := if Known(c, luck) != "" then PrevAfter(c, "", luck.write) else c.prev;
      c.(current := OffTarget(c, luck), prev := prev)
  }

  function RemoveStep(c: Cli, pipe: string, luck: Luck): Cli {
    if luck.cli && luck.inspects && NAME in c.contexts && c.contexts[NAME] == Host(pipe) && luck.removes
    then Dropped(c, NAME)
    else c
  }

  class Docker {
    var contexts: map<string, string>
    var current: string
    var prev: string
    ghost var before: string

    ghost function State(): Cli
      reads this
    {
      Cli(contexts, current, prev, before)
    }

    method RemoveContext(name: string)
      modifies this
      ensures State() == Dropped(old(State()), name)
    {
      contexts := contexts - {name};
      if current == name {
        current := DEFAULT;
      }
    }

    method SavePrev(name: string, write: Write)
      modifies this
      ensures State() == old(State()).(prev := PrevAfter(old(State()), name, write))
    {
      match write
      case Written => prev := name;
      case Untouched =>
      case CutShort => prev := "";
    }

    method Ensure(pipe: string, luck: Luck) returns (wrote: bool, ok: bool)
      modifies this
      ensures Done(State(), ok, wrote) == EnsureStep(old(State()), pipe, luck)
    {
      wrote, ok := false, false;
      if !luck.cli {
        return;
      }
      var want := Host(pipe);
      if luck.inspects && NAME in contexts {
        if contexts[NAME] == want {
          return false, true;
        }
        if !luck.removes {
          return;
        }
        RemoveContext(NAME);
      }
      if !luck.creates || NAME in contexts {
        return;
      }
      contexts := contexts[NAME := want];
      return true, true;
    }

    method Use(pipe: string, luck: Luck) returns (ghost wrote: bool, ok: bool)
      modifies this
      ensures Done(State(), ok, wrote) == UseStep(old(State()), pipe, luck)
    {
      var w;
      w, ok := Ensure(pipe, luck);
      wrote := w;
      if ok && luck.uses {
        current := NAME;
      } else {
        ok := false;
      }
    }

    method ContextUse(pipe: string, luck: Luck) returns (ok: bool)
      modifies this
      ensures
        var d := ContextUseStep(old(State()), pipe, luck);
        State() == d.cli && ok == d.ok
    {
      if !luck.cli {
        return false;
      }
      var known := if luck.readable then prev else "";
      var shown := if luck.shows then current else "";
      var from := "";
      if shown != "" && shown != NAME {
        from := shown;
      }
      ghost var was := current;
      ghost var wrote;
      wrote, ok := Use(pipe, luck);
      if !ok {
        return;
      }
      if was != NAME {
        before := was;
      }
      if from != "" && from != known {
        SavePrev(from, luck.write);
      }
    }

    method ContextOff(luck: Luck)
      modifies this
      ensures State() == ContextOffStep(old(State()), luck)
    {
      if !luck.cli || !luck.shows || current != NAME {
        return;
      }
      var known := if luck.readable then prev else "";
      var target := TrimSpace(known);
      if target == "" || target == NAME || !luck.probes || !(target == DEFAULT || target in contexts) {
        target := DEFAULT;
      }
      if !luck.uses {
        return;
      }
      current := target;
      if known != "" {
        SavePrev("", luck.write);
      }
    }

    method Remove(pipe: string, luck: Luck)
      modifies this
      ensures State() == RemoveStep(old(State()), pipe, luck)
    {
      if !luck.cli || !luck.inspects || NAME !in contexts || contexts[NAME] != Host(pipe) || !luck.removes {
        return;
      }
      RemoveContext(NAME);
    }
  }

  // ---------- What they promise ----------

  /** Ensure that succeeds leaves the context on the configured host; a second one then writes nothing; and the
      user's choice of context survives, except that a context that had to be rebuilt is no longer current. */
  lemma EnsureIsIdempotent(c: Cli, pipe: string, luck: Luck, again: Luck)
    requires EnsureStep(c, pipe, luck).ok && again.cli && again.inspects
    ensures
      var d := EnsureStep(c, pipe, luck);
      && NAME in d.cli.contexts && d.cli.contexts[NAME] == Host(pipe)
      && EnsureStep(d.cli, pipe, again) == Done(d.cli, true, false)
      && (d.cli.current == c.current <==> c.current != NAME || NAME !in c.contexts || !d.wrote)
  {
  }

  /** The saved name, if any, is the context that was current before the latest `context use` from outside. */
  ghost predicate Remembers(c: Cli) {
    c.prev != "" ==> c.prev == c.before && IsName(c.prev) && c.prev != NAME
  }

  datatype Event =
    | ContextUse(pipe: string, luck: Luck)
    | ContextOff(luck: Luck)
    | Setup(pipe: string, luck: Luck)
    | Uninstall(pipe: string, luck: Luck)
    | Forget                  // another command cuts config.json short, or rewrites it from the defaults
    | Switch(name: string)
    | Add(name: string, host: string)
    | Drop(name: string)

  predicate Enabled(c: Cli, e: Event) {
    match e
    case Switch(name) => Exists(c, name)
    case Add(name, _) => IsName(name) && name != DEFAULT
    case _ => true
  }

  function Apply(c: Cli, e: Event): Cli {
    match e
    case ContextUse(pipe, luck) => ContextUseStep(c, pipe, luck).cli
    case ContextOff(luck) => ContextOffStep(c, luck)
    case Setup(pipe, luck) => EnsureStep(c, pipe, luck).cli
    case Uninstall(pipe, luck) =>
      RemoveStep(c, pipe, luck).(prev := if luck.readable then PrevAfter(c, "", luck.write) else c.prev)
    case Forget => c.(prev := "")
    case Switch(name) => c.(current := name)
    case Add(name, host) => c.(contexts := c.contexts[name := host])
    case Drop(name) => Dropped(c, name)
  }

  /** What `context use` needs: docker at hand, and a context on the wanted host, found, rebuilt or new. */
  predicate CanUse(c: Cli, pipe: string, luck: Luck) {
    && luck.cli && luck.uses
    && if NAME in c.contexts
       then luck.inspects && (c.contexts[NAME] == Host(pipe) || (luck.removes && luck.creates))
       else luck.creates
  }

  lemma UseSucceedsExactlyWhen(c: Cli, pipe: string, luck: Luck)
    ensures ContextUseStep(c, pipe, luck).ok <==> CanUse(c, pipe, luck)
    ensures CanUse(c, pipe, luck) ==>
              var d := ContextUseStep(c, pipe, luck).cli;
              d.current == NAME && NAME in d.contexts && d.contexts[NAME] == Host(pipe)
  {
  }

  /** A step keeps the promise exactly when it is no successful `context use` from outside dockup, or docker told
      the current context and config.json was written, or nothing, or the right name, was saved already. */
  lemma RemembersExactlyWhen(c: Cli, e: Event)
    requires Valid(c) && Remembers(c) && Enabled(c, e)
    ensures Remembers(Apply(c, e)) <==>
              || !e.ContextUse? || !CanUse(c, e.pipe, e.luck) || c.current == NAME
              || (e.luck.shows && !e.luck.write.Untouched?) || c.prev == "" || c.prev == c.current
  {
    assert IsName(DEFAULT) && IsName(NAME);
    if e.ContextUse? {
      UseSucceedsExactlyWhen(c, e.pipe, e.luck);
    }
  }

  /** After a successful `context use` from outside dockup, the name saved is the context left if and only if docker
      told it and the save was done, or it was saved already and this call left it so: a save cut short forgets it, and
      off then goes to the default context. */
  lemma UseSavesExactlyWhen(c: Cli, pipe: string, luck: Luck)
    requires Valid(c) && CanUse(c, pipe, luck) && c.current != NAME
    ensures
      var d := ContextUseStep(c, pipe, luck).cli;
      && (d.prev == c.current <==>
            if luck.shows && !(luck.readable && c.prev == c.current)
            then luck.write.Written? || (luck.write.Untouched? && c.prev == c.current)
            else c.prev == c.current)
      && (d.prev == "" ==> OffTarget(d, luck) == DEFAULT)
  {
    assert IsName(DEFAULT) && IsName(NAME);
    UseSucceedsExactlyWhen(c, pipe, luck);
  }

  lemma StepKeepsValid(c: Cli, e: Event)
    requires Valid(c) && Enabled(c, e)
    ensures Valid(Apply(c, e))
  {
    assert IsName(NAME);
  }

  /** When docker does not tell the current context, an older saved name stays and is no longer the right one. */
  lemma UnreadContextLeavesStaleName(pipe: string)
    ensures
      var c := Cli(map["a" := "x", "b" := "y"], "b", "a", "a");
      var luck := Luck(true, false, true, true, true, true, true, true, Written);
      && Valid(c) && Remembers(c)
      && ContextUseStep(c, pipe, luck).ok && !Remembers(ContextUseStep(c, pipe, luck).cli)
  {
    var c := Cli(map["a" := "x", "b" := "y"], "b", "a", "a");
    assert IsName("a") && IsName("b");
    assert NAME !in c.contexts;
  }

  /** `context off` goes back to that context if it still exists, else to the default one, and forgets it. */
  lemma OffRestores(c: Cli, luck: Luck)
    requires Valid(c) && Remembers(c) && c.current == NAME
    requires luck.cli && luck.shows && luck.uses && luck.probes && luck.readable
    ensures
      var d := ContextOffStep(c, luck);
      && d.current == (if c.prev != "" && Exists(c, c.before) then c.before else DEFAULT)
      && (d.prev == "" <==> c.prev == "" || !luck.write.Untouched?) && d.contexts == c.contexts
  {
    TrimmedStays(c.prev, IsSpace);
  }

  predicate Legal(c: Cli, run: seq<Event>)
    decreases |run|
  {
    run == [] || (Enabled(c, run[0]) && Legal(Apply(c, run[0]), run[1..]))
  }

  function After(c: Cli, run: seq<Event>): Cli
    decreases |run|
  {
    if run == [] then c else After(Apply(c, run[0]), run[1..])
  }

  /** Over any run of setups, uses, offs, uninstalls, config.json cut short by other commands and outside changes, in
      which every `context use` could read the current context and got at config.json. */
  lemma {:induction false} RunRemembers(c: Cli, run: seq<Event>)
    requires Valid(c) && Remembers(c) && Legal(c, run)
    requires forall i :: 0 <= i < |run| && run[i].ContextUse? ==> run[i].luck.shows && !run[i].luck.write.Untouched?
    ensures Valid(After(c, run)) && Remembers(After(c, run))
    decreases |run|
  {
    if run != [] {
      StepKeepsValid(c, run[0]);
      RemembersExactlyWhen(c, run[0]);
      RunRemembers(Apply(c, run[0]), run[1..]);
    }
  }

  // ---------- In so many words ----------

  /** `\\\\.\\pipe\\x` and plain `x` are npipe:////./pipe/x, and a docker host stays as it is. */
  lemma HostsInWords(name: string)
    requires name != "" && Trimmed(name, IsSpace)
    ensures Host("\\\\.\\pipe\\" + name) == "npipe:////./pipe/" + name
    ensures Host("npipe://" + name) == "npipe://" + name
    ensures !("npipe://" <= name) && !("\\\\.\\pipe\\" <= name) ==> Host(name) == "npipe:////./pipe/" + name
  {
    var pipe, host := "\\\\.\\pipe\\" + name, "npipe://" + name;
    assert pipe[0] == '\\' && pipe[|pipe| - 1] == name[|name| - 1];
    assert host[0] == 'n' && host[|host| - 1] == name[|name| - 1];
    TrimmedStays(pipe, IsSpace);
    TrimmedStays(host, IsSpace);
    TrimmedStays(name, IsSpace);
    assert pipe[|PIPE_PREFIX|..] == name && PIPE_PREFIX <= pipe && host[..|SCHEME|] == SCHEME;
  }

  predicate SameContext(a: Cli, b: Cli, name: string) {
    (name in a.contexts <==> name in b.contexts) && (name in a.contexts ==> a.contexts[name] == b.contexts[name])
  }

  /** Setup and uninstall touch no context but the one called dockup, and uninstall that only if it is ours: one of
      that name on another host stays. */
  lemma OnlyOurContextIsTouched(c: Cli, pipe: string, luck: Luck)
    ensures
      var d, e := EnsureStep(c, pipe, luck).cli, RemoveStep(c, pipe, luck);
      && d.prev == e.prev == c.prev
      && forall name :: name != "dockup" ==>
           && SameContext(d, c, name) && SameContext(e, c, name)
    ensures
      var e := RemoveStep(c, pipe, luck);
      var ours := "dockup" in c.contexts && c.contexts["dockup"] == Host(pipe);
      if ours && luck.cli && luck.inspects && luck.removes
      then "dockup" !in e.contexts && e.current == (if c.current == "dockup" then "default" else c.current)
      else e == c
  {
  }

  /** Off does nothing unless dockup is current and docker says so; and it never changes which contexts there are. */
  lemma OffElsewhereDoesNothing(c: Cli, luck: Luck)
    ensures ContextOffStep(c, luck).contexts == c.contexts
    ensures c.current != "dockup" || !luck.shows || !luck.cli || !luck.uses ==> ContextOffStep(c, luck) == c
  {
  }
}
