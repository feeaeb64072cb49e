/** config.json.  It is written in place: a save cut short leaves a file that cannot be parsed, and most callers
    discard the error and go on with the defaults. */
module ConfigFile {
  import opened StateFile
  import opened Disk

  /** The settings that matter here; the empty path stands for an empty value. */
  datatype Config = Config(defaultPath: Path, currentPath: Path, autostart: bool, contextPrev: string)

  datatype File = Missing | Torn | Saved(config: Config)

  /** What becomes of a write: it is done, or the file could not be opened, or it was truncated and not filled. */
  datatype Write = Written | Untouched | CutShort

  function Defaults(root: Path): Config {
    Config(root, [], false, "")
  }

  function WithDefaults(c: Config, root: Path): Config {
    if c.defaultPath == [] then c.(defaultPath := root) else c
  }

  /** Load: None is an error.  `readable` is false when an existing file cannot be read this time. */
  function Load(f: File, readable: bool, root: Path): Option<Config> {
    match f
    case Missing => Some(Defaults(root))
    case Torn => None
    case Saved(c) => if readable then Some(WithDefaults(c, root)) else None
  }

  /** What callers that discard the error go on with. */
  function LoadOrDefaults(f: File, readable: bool, root: Path): Config {
    match Load(f, readable, root)
    case Some(c) => c
    case None => Defaults(root)
  }

  function Save(f: File, c: Config, root: Path, write: Write): File {
    match write
    case Written => Saved(WithDefaults(c, root))
    case Untouched => f
    case CutShort => Torn
  }

  /** Nothing but an empty default path is filled in. */
  lemma DefaultsFillInOnlyThePath(c: Config, root: Path)
    ensures WithDefaults(c, root) == Config(if c.defaultPath == [] then root else c.defaultPath,
                                            c.currentPath, c.autostart, c.contextPrev)
    ensures Load(Missing, false, root) == Some(Config(root, [], false, ""))
  {
  }

  /** What is saved is read back; after a cut-short save the settings are the defaults again. */
  lemma SaveThenLoad(f: File, c: Config, root: Path, write: Write)
    requires root != []
    ensures
      var g := Save(f, c, root, write);
      && (write.Written? ==> Load(g, true, root) == Some(WithDefaults(c, root)))
      && (write.Untouched? ==> g == f)
      && (write.CutShort? ==> Load(g, true, root).None? && LoadOrDefaults(g, true, root) == Defaults(root))
  {
  }
}
