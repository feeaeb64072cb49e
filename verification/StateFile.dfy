/** The record dockup keeps in state.json.  Times are opaque texts. */
module StateFile {

  datatype Option<+T> = None | Some(value: T)

  datatype Daemon = Daemon(pid: nat, startedAt: string, mirror: bool)

  datatype Snapshot = Snapshot(at: string, manual: seq<string>)

  datatype State = State(installed: bool, arch: string, setupAt: string, daemon: Daemon, snapshot: Snapshot)

  const NO_DAEMON := Daemon(0, "", false)
  const NO_SNAPSHOT := Snapshot("", [])
  const ZERO := State(false, "", "", NO_DAEMON, NO_SNAPSHOT)
}
