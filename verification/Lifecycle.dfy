/** The state.json transactions of setup, uninstall, restore, daemon start and stop, doctor, distro
    reconciliation and mirror recording, and everything they do around them, interleaved at will.

    A transaction has two steps: its edit is made under the lock, which is when processes are spawned or killed, and
    it is committed, or aborted, when the state has been saved, or could not be.  Only one is under way at a time;
    WholeSystem shows that the lock file sees to that.  What a command does outside the lock, a lock-free read or a
    wait, is a step of its own, remembered as a job. */
module Lifecycle {
  import opened StateFile

  predicate ValidArch(arch: string) {
    arch == "amd64" || arch == "arm64"
  }

  /** One edit made under the lock; `live` is the answer processAlive gives. */
  datatype Tx =
    | Reset
    | SetupDone(arch: string, at: string, snapshot: Snapshot)
    | SaveSnapshot(snapshot: Snapshot)
    | ClearInstalled
    | Start(pid: nat, at: string, pipeAlive: bool, live: set<nat>)
    | ClearDaemon
    | Stop(live: set<nat>)
    | ClearStale(seen: nat)
    | RecordMirror(me: nat, served: bool)

  /** None: the edit is refused, and WithLock discards whatever it had changed. */
  function Edit(tx: Tx, s: State): Option<State> {
    match tx
    case Reset => Some(ZERO)
    case SetupDone(arch, at, snapshot) =>
      Some(s.(installed := true, arch := arch, setupAt := at, snapshot := snapshot))
    case SaveSnapshot(snapshot) => Some(s.(snapshot := snapshot))
    case ClearInstalled => Some(s.(installed := false))
    case Start(pid, at, pipeAlive, live) =>
      if !s.installed then None
      else if pipeAlive && s.daemon.pid == 0 then None
      else if s.daemon.pid != 0 && s.daemon.pid in live then None
      else Some(s.(daemon := Daemon(pid, at, false)))
    case ClearDaemon => Some(s.(daemon := NO_DAEMON))
    case Stop(live) =>
      if s.daemon.pid == 0 then None
      else if s.daemon.pid !in live then None
      else Some(s.(daemon := NO_DAEMON))
    case ClearStale(seen) => Some(if s.daemon.pid == seen then s.(daemon := NO_DAEMON) else s)
    case RecordMirror(me, served) =>
      Some(if s.daemon.pid == me then s.(daemon := s.daemon.(mirror := served)) else s)
  }

  /** What a command still has to do after a step outside the lock. */
  datatype Job =
    | AwaitPipe(pid: nat)
    | WarmUp(pid: nat)
    | DoctorRead(pid: nat, startedAt: string)
    | MirrorCheck(pid: nat, served: bool)
    | MirrorRecord(pid: nat, served: bool)

  /** A call of WithLock by one of the commands, with the answers it got. */
  datatype Call =
    | SetupReset
    | SetupCommit(arch: string, at: string, snapshot: Snapshot)
    | Uninstall
    | Restore(snapshot: Snapshot)
    | Reconcile
    | Launch(pid: nat, at: string, pipeAlive: bool, live: set<nat>)
    | Timeout(pid: nat)
    | WarmFail(pid: nat)
    | StopDaemon(live: set<nat>)
    | DoctorClear(pid: nat, at: string)
    | SaveMirror(pid: nat, served: bool)

  function TxOf(call: Call): Tx {
    match call
    case SetupReset | Uninstall => Reset
    case SetupCommit(arch, at, snapshot) => SetupDone(arch, at, snapshot)
    case Restore(snapshot) => SaveSnapshot(snapshot)
    case Reconcile => ClearInstalled
    case Launch(pid, at, pipeAlive, live) => Start(pid, at, pipeAlive, live)
    case Timeout(_) | WarmFail(_) => ClearDaemon
    case StopDaemon(live) => Stop(live)
    case DoctorClear(pid, _) => ClearStale(pid)
    case SaveMirror(pid, served) => RecordMirror(pid, served)
  }

  /** The job a call belongs to. */
  function JobsOf(call: Call): set<Job> {
    match call
    case Timeout(pid) => {AwaitPipe(pid)}
    case WarmFail(pid) => {WarmUp(pid)}
    case DoctorClear(pid, at) => {DoctorRead(pid, at)}
    case SaveMirror(pid, served) => {MirrorRecord(pid, served)}
    case _ => {}
  }

  /** `pending` is the transaction under way.  `reports` is what each child's ServeEx reported about the mirror;
      `missed` are the children whose lock-free read did not find them recorded, `dropped` those that did but could
      not save, `settled` those whose report was recorded, `recorded` the start time each pid was recorded with. */
  datatype World = World(
    state: State, live: set<nat>, born: set<nat>, pending: Option<Call>, jobs: set<Job>,
    reports: map<nat, bool>, missed: set<nat>, dropped: set<nat>, settled: set<nat>, recorded: map<nat, string>)

  const INIT := World(ZERO, {}, {}, None, {}, map[], {}, {}, {}, map[])

  datatype Event =
    | Enter(call: Call)                  // the edit is made
    | Commit | Abort                     // the new state is saved, or not
    | GiveUp(call: Call)                 // no lock, or no state to be loaded
    | PipeUp(pid: nat) | WarmOk(pid: nat)
    | DoctorLook
    | Report(pid: nat, served: bool) | CheckRecord(pid: nat, served: bool)
    | Die(pid: nat)

  /** A command has come to this call, and the answers are right. */
  predicate Ready(w: World, call: Call) {
    && JobsOf(call) <= w.jobs
    && match call
       case SetupCommit(arch, _, _) => ValidArch(arch)
       case Launch(pid, _, _, live) => pid != 0 && pid !in w.born && live == w.live
       case StopDaemon(live) => live == w.live
       case SaveMirror(pid, _) => pid in w.live
       case _ => true
  }

  predicate Enabled(w: World, e: Event) {
    match e
    case Enter(call) => w.pending.None? && Ready(w, call) && Edit(TxOf(call), w.state).Some?
    case Commit | Abort => w.pending.Some?
    case GiveUp(call) => Ready(w, call)
    case PipeUp(pid) => AwaitPipe(pid) in w.jobs
    case WarmOk(pid) => WarmUp(pid) in w.jobs
    case DoctorLook => w.state.daemon.pid != 0
    case Report(pid, _) => pid in w.live && pid !in w.reports
    case CheckRecord(pid, served) => pid in w.live && MirrorCheck(pid, served) in w.jobs
    case Die(pid) => pid in w.live
  }

  function Entered(w: World, call: Call): World {
    var u := w.(pending := Some(call), jobs := w.jobs - JobsOf(call));
    match call
    case Launch(pid, _, _, _) => u.(live := w.live + {pid}, born := w.born + {pid})
    case WarmFail(_) | StopDaemon(_) => u.(live := w.live - {w.state.daemon.pid})
    case _ => u
  }

  function Committed(w: World): World {
    if w.pending.None? || Edit(TxOf(w.pending.value), w.state).None? then w
    else
      var u := w.(state := Edit(TxOf(w.pending.value), w.state).value, pending := None);
      match w.pending.value
      case Launch(pid, at, _, _) => u.(jobs := w.jobs + {AwaitPipe(pid)}, recorded := w.recorded[pid := at])
      case SaveMirror(pid, _) =>
        u.(settled := if w.state.daemon.pid == pid then w.settled + {pid} else w.settled)
      case _ => u
  }

  /** A call that came to nothing; of the reports, one less can be recorded. */
  function Failed(w: World, call: Call): World {
    if call.SaveMirror? then w.(dropped := w.dropped + {call.pid}) else w
  }

  function Aborted(w: World): World {
    if w.pending.None? then w else Failed(w, w.pending.value).(pending := None)
  }

  function Apply(w: World, e: Event): World
    requires Enabled(w, e)
  {
    match e
    case Enter(call) => Entered(w, call)
    case Commit => Committed(w)
    case Abort => Aborted(w)
    case GiveUp(call) => Failed(w, call).(jobs := w.jobs - JobsOf(call))
    case PipeUp(pid) => w.(jobs := w.jobs - {AwaitPipe(pid)} + {WarmUp(pid)})
    case WarmOk(pid) => w.(jobs := w.jobs - {WarmUp(pid)})
    case DoctorLook => w.(jobs := w.jobs + {DoctorRead(w.state.daemon.pid, w.state.daemon.startedAt)})
    case Report(pid, served) =>
      w.(reports := w.reports[pid := served], jobs := w.jobs + {MirrorCheck(pid, served)})
    case CheckRecord(pid, served) =>
      var jobs := w.jobs - {MirrorCheck(pid, served)};
      if w.state.daemon.pid == pid
      then w.(jobs := jobs + {MirrorRecord(pid, served)})
      else w.(jobs := jobs, missed := w.missed + {pid})
    case Die(pid) => w.(live := w.live - {pid})
  }

  predicate Legal(w: World, run: seq<Event>)
    decreases |run|
  {
    run == [] || (Enabled(w, run[0]) && Legal(Apply(w, run[0]), run[1..]))
  }

  function After(w: World, run: seq<Event>): World
    requires Legal(w, run)
    decreases |run|
  {
    if run == [] then w else After(Apply(w, run[0]), run[1..])
  }
}
