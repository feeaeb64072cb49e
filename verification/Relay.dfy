/** One bridged connection (bridgeConn): the handler, the two copiers and the shutdown killer run
    concurrently around one child process, a two-slot result channel and two timers.

    A bridge is a state, the actors' moves are events, and a run is any sequence of enabled events,
    so every interleaving is covered.  Bytes are characters; time is in milliseconds. */
module Relay {

  const GRACE_MS: nat := 60_000
  const INSIST_MS: nat := 10_000
  const CHANNEL_SLOTS: nat := 2

  const GATEWAY_ERROR: string :=
    "HTTP/1.0 500 Internal Server Error\r\nContent-Length: 0\r\nConnection: close\r\n\r\n"

  datatype Result = StdinDone | StdoutDone(n: nat)

  /** Program counter of the handler, named after what it does next. */
  datatype Handler =
    | Spawning
    | First
    | Grace(deadline: nat)
    | Killing
    | Waiting
    | Insist(deadline: nat)
    | Verdict
    | Replying
    | ClosingGone
    | ClosingClient
    | Returned

  datatype Stdin = InIdle | InRead | InWrite(chunk: string) | InClose | InSend | InDone

  datatype Stdout = OutIdle | OutRead | OutWrite(chunk: string, sent: nat) | OutSend | OutDone

  datatype Killer = KillerIdle | Selecting | Slaying | KillerDone

  datatype Process = NotStarted | Alive | Exited(ok: bool)

  /** The child process and what it has written to its stdout so far. */
  datatype Child = Child(process: Process, killed: bool, waited: bool, output: string, stdoutOpen: bool)

  /** Client to backend: bytes read from the client, bytes handed on. */
  datatype Upstream = Upstream(pc: Stdin, clientRead: string, procIn: string, fault: bool, stdinOpen: bool)

  /** Backend to client.  `taken` bytes were read from the backend, `copied` is io.Copy's count;
      `received` is all the client was given, `errSent` of it from the error reply. */
  datatype Downstream = Downstream(
    pc: Stdout, taken: nat, copied: nat, fault: bool, cutShort: bool, received: string, errSent: nat)

  /** The result channel and what the handler has received from it. */
  datatype Results = Results(done: seq<Result>, gotStdin: bool, outN: int)

  datatype Clocks = Clocks(now: nat, firstAt: nat, slow: nat, returnedAt: nat)

  datatype Flags = Flags(
    spawnFailed: bool, cancelled: bool, shutdownSeen: bool, graceExpired: bool, replied: bool, gone: bool,
    clientOpen: bool)

  datatype Bridge = Bridge(
    handler: Handler, killer: Killer, child: Child, up: Upstream, down: Downstream,
    results: Results, clocks: Clocks, flags: Flags, reply: string)

  /** A bridge about to spawn its child; `reply` is what it serves when the backend dies before output. */
  function Begin(reply: string): Bridge {
    Bridge(Spawning, KillerIdle,
           Child(NotStarted, false, false, "", true),
           Upstream(InIdle, "", "", false, true),
           Downstream(OutIdle, 0, 0, false, false, "", 0),
           Results([], false, -1),
           Clocks(0, 0, 0, 0),
           Flags(false, false, false, false, false, false, true),
           reply)
  }

  const INIT: Bridge := Begin(GATEWAY_ERROR)

  // ---------- Events ----------

  datatype WorldEvent =
    | Tick(d: nat)              // time passes
    | Cancel                    // shutdown is requested
    | Emit(bs: string)          // the backend writes to its stdout
    | CloseStdout               // the backend closes its stdout
    | Exit(ok: bool)            // the backend exits; once killed, never successfully

  datatype HandlerEvent =
    | PipeFail | SpawnFail | Spawn
    | TakeFirst | TakeInGrace | GraceTimeout
    | Kill | Wait
    | TakeInInsist | InsistTimeout
    | Decide | ReplySome(k: nat) | ReplyEnd
    | CloseGone | CloseClient

  datatype StdinEvent =
    | ReadClient(bs: string) | ReadClientEnd | HandOn | HandOnFail(k: nat) | CloseProcStdin | SendStdin

  datatype StdoutEvent =
    | ReadBackend(k: nat) | ReadEof | ReadFault | ReadClosed
    | Deliver(k: nat) | DeliverEnd | DeliverFail | SendStdout

  datatype KillerEvent = SeeCancel | Slay | SeeGone

  datatype Event =
    | World(w: WorldEvent) | Handle(h: HandlerEvent) | CopyIn(i: StdinEvent) | CopyOut(o: StdoutEvent)
    | Reap(k: KillerEvent)

  /** A backend or client that is slow is the only thing time may pass over without a timer:
      the handler's own steps take no time, and a due timer or a ready result is not postponed. */
  predicate MayTick(s: Bridge, d: nat) {
    match s.handler
    case Spawning | Waiting | Replying | Returned => true
    case First => s.results.done == []
    case Grace(deadline) => s.results.done == [] && s.clocks.now + d <= deadline
    case Insist(deadline) => s.results.done == [] && s.clocks.now + d <= deadline
    case _ => false
  }

  predicate WorldEnabled(s: Bridge, e: WorldEvent) {
    match e
    case Tick(d) => MayTick(s, d)
    case Cancel => true
    case Emit(_) => s.child.process.Alive? && s.child.stdoutOpen
    case CloseStdout => s.child.process.Alive?
    case Exit(ok) => s.child.process.Alive? && (s.child.killed ==> !ok)
  }

  function WorldApply(s: Bridge, e: WorldEvent): Bridge {
    match e
    case Tick(d) =>
      var slow := if s.handler == Waiting || s.handler == Replying then s.clocks.slow + d else s.clocks.slow;
      s.(clocks := s.clocks.(now := s.clocks.now + d, slow := slow))
    case Cancel => s.(flags := s.flags.(cancelled := true))
    case Emit(bs) => s.(child := s.child.(output := s.child.output + bs))
    case CloseStdout => s.(child := s.child.(stdoutOpen := false))
    case Exit(ok) => s.(child := s.child.(process := Exited(ok), stdoutOpen := false))
  }

  predicate HandlerEnabled(s: Bridge, e: HandlerEvent) {
    match e
    case PipeFail | SpawnFail | Spawn => s.handler == Spawning
    case TakeFirst => s.handler == First && s.results.done != []
    case TakeInGrace => s.handler.Grace? && s.results.done != []
    case GraceTimeout => s.handler.Grace? && s.clocks.now >= s.handler.deadline
    case Kill => s.handler == Killing
    case Wait => s.handler == Waiting && s.child.process.Exited?
    case TakeInInsist => s.handler.Insist? && s.results.done != []
    case InsistTimeout => s.handler.Insist? && s.clocks.now >= s.handler.deadline
    case Decide => s.handler == Verdict
    case ReplySome(k) => s.handler == Replying && 0 < k && s.down.errSent + k <= |s.reply|
    case ReplyEnd => s.handler == Replying
    case CloseGone => s.handler == ClosingGone
    case CloseClient => s.handler == ClosingClient
  }

  /** Receives the next result; only the stdout one sets outN. */
  function Note(rs: Results): Results
    requires rs.done != []
  {
    match rs.done[0]
    case StdinDone => Results(rs.done[1..], true, rs.outN)
    case StdoutDone(n) => Results(rs.done[1..], rs.gotStdin, n)
  }

  function KillChild(c: Child): Child {
    c.(killed := c.killed || c.process.Alive?)
  }

  function ReplyMore(d: Downstream, reply: string, k: nat): Downstream
    requires d.errSent + k <= |reply|
  {
    d.(received := d.received + reply[d.errSent..d.errSent + k], errSent := d.errSent + k)
  }

  function HandlerApply(s: Bridge, e: HandlerEvent): Bridge
    requires HandlerEnabled(s, e)
  {
    match e
    case PipeFail => s.(handler := ClosingClient)
    case SpawnFail => s.(handler := Replying, flags := s.flags.(spawnFailed := true, replied := true))
    case Spawn =>
      s.(handler := First, killer := Selecting,
         child := s.child.(process := Alive), up := s.up.(pc := InRead), down := s.down.(pc := OutRead))
    case TakeFirst =>
      var next := if s.results.done[0].StdinDone? then Grace(s.clocks.now + GRACE_MS) else Killing;
      s.(handler := next, results := Note(s.results))
    case TakeInGrace => s.(handler := Killing, results := Note(s.results))
    case GraceTimeout => s.(handler := Killing, flags := s.flags.(graceExpired := true))
    case Kill => s.(handler := Waiting, child := KillChild(s.child))
    case Wait =>
      var next := if s.results.outN < 0 then Insist(s.clocks.now + INSIST_MS) else Verdict;
      s.(handler := next, child := s.child.(waited := true))
    case TakeInInsist => s.(handler := Verdict, results := Note(s.results))
    case InsistTimeout => s.(handler := Verdict)
    case Decide =>
      var reply := !s.flags.cancelled && s.child.process == Exited(false) && s.results.outN == 0;
      s.(handler := if reply then Replying else ClosingGone,
         flags := s.flags.(shutdownSeen := s.flags.cancelled, replied := reply))
    case ReplySome(k) =>
      s.(down := ReplyMore(s.down, s.reply, k))
    case ReplyEnd => s.(handler := if s.flags.spawnFailed then ClosingClient else ClosingGone)
    case CloseGone => s.(handler := ClosingClient, flags := s.flags.(gone := true))
    case CloseClient =>
      s.(handler := Returned, flags := s.flags.(clientOpen := false),
         clocks := s.clocks.(returnedAt := s.clocks.now))
  }

  predicate StdinEnabled(s: Bridge, e: StdinEvent) {
    match e
    case ReadClient(bs) => s.up.pc == InRead && s.flags.clientOpen && bs != ""
    case ReadClientEnd => s.up.pc == InRead
    case HandOn => s.up.pc.InWrite? && !s.child.waited
    case HandOnFail(k) => s.up.pc.InWrite? && k < |s.up.pc.chunk| && (s.child.waited ==> k == 0)
    case CloseProcStdin => s.up.pc == InClose
    case SendStdin => s.up.pc == InSend && |s.results.done| < CHANNEL_SLOTS
  }

  function StdinApply(s: Bridge, e: StdinEvent): Bridge
    requires StdinEnabled(s, e)
  {
    match e
    case ReadClient(bs) => s.(up := s.up.(clientRead := s.up.clientRead + bs, pc := InWrite(bs)))
    case ReadClientEnd => s.(up := s.up.(pc := InClose))
    case HandOn => s.(up := s.up.(procIn := s.up.procIn + s.up.pc.chunk, pc := InRead))
    case HandOnFail(k) =>
      s.(up := s.up.(procIn := s.up.procIn + s.up.pc.chunk[..k], fault := true, pc := InClose))
    case CloseProcStdin => s.(up := s.up.(stdinOpen := false, pc := InSend))
    case SendStdin => Send(s, StdinDone).(up := s.up.(pc := InDone))
  }

  /** done <- r; the first result to arrive starts the teardown clock. */
  function Send(s: Bridge, r: Result): Bridge {
    var first := s.up.pc != InDone && s.down.pc != OutDone;
    s.(results := s.results.(done := s.results.done + [r]),
       clocks := s.clocks.(firstAt := if first then s.clocks.now else s.clocks.firstAt))
  }

  predicate StdoutEnabled(s: Bridge, e: StdoutEvent) {
    match e
    case ReadBackend(k) => s.down.pc == OutRead && !s.child.waited && 0 < k && s.down.taken + k <= |s.child.output|
    case ReadEof => s.down.pc == OutRead && !s.child.waited && !s.child.stdoutOpen && s.down.taken == |s.child.output|
    case ReadFault => s.down.pc == OutRead && !s.child.waited
    case ReadClosed => s.down.pc == OutRead && s.child.waited
    case Deliver(k) => s.down.pc.OutWrite? && s.flags.clientOpen && 0 < k && s.down.pc.sent + k <= |s.down.pc.chunk|
    case DeliverEnd => s.down.pc.OutWrite? && s.down.pc.sent == |s.down.pc.chunk|
    case DeliverFail => s.down.pc.OutWrite? && s.down.pc.sent < |s.down.pc.chunk|
    case SendStdout => s.down.pc == OutSend && |s.results.done| < CHANNEL_SLOTS
  }

  function StdoutApply(s: Bridge, e: StdoutEvent): Bridge
    requires StdoutEnabled(s, e)
  {
    match e
    case ReadBackend(k) =>
      s.(down := s.down.(taken := s.down.taken + k, pc := OutWrite(s.child.output[s.down.taken..s.down.taken + k], 0)))
    case ReadEof => s.(down := s.down.(pc := OutSend))
    case ReadFault => s.(down := s.down.(pc := OutSend, fault := true))
    case ReadClosed => s.(down := s.down.(pc := OutSend, cutShort := true))
    case Deliver(k) => s.(down := DeliverMore(s.down, k))
    case DeliverEnd => s.(down := s.down.(copied := s.down.copied + s.down.pc.sent, pc := OutRead))
    case DeliverFail => s.(down := s.down.(copied := s.down.copied + s.down.pc.sent, pc := OutSend, fault := true))
    case SendStdout => Send(s, StdoutDone(s.down.copied)).(down := s.down.(pc := OutDone))
  }

  function DeliverMore(d: Downstream, k: nat): Downstream
    requires d.pc.OutWrite? && d.pc.sent + k <= |d.pc.chunk|
  {
    var OutWrite(chunk, sent) := d.pc;
    d.(received := d.received + chunk[sent..sent + k], pc := OutWrite(chunk, sent + k))
  }

  predicate KillerEnabled(s: Bridge, e: KillerEvent) {
    match e
    case SeeCancel => s.killer == Selecting && s.flags.cancelled
    case Slay => s.killer == Slaying
    case SeeGone => s.killer == Selecting && s.flags.gone
  }

  function KillerApply(s: Bridge, e: KillerEvent): Bridge {
    match e
    case SeeCancel => s.(killer := Slaying)
    case Slay => s.(child := KillChild(s.child), killer := KillerDone)
    case SeeGone => s.(killer := KillerDone)
  }

  predicate Enabled(s: Bridge, e: Event) {
    match e
    case World(w) => WorldEnabled(s, w)
    case Handle(h) => HandlerEnabled(s, h)
    case CopyIn(i) => StdinEnabled(s, i)
    case CopyOut(o) => StdoutEnabled(s, o)
    case Reap(k) => KillerEnabled(s, k)
  }

  function Apply(s: Bridge, e: Event): Bridge
    requires Enabled(s, e)
  {
    match e
    case World(w) => WorldApply(s, w)
    case Handle(h) => HandlerApply(s, h)
    case CopyIn(i) => StdinApply(s, i)
    case CopyOut(o) => StdoutApply(s, o)
    case Reap(k) => KillerApply(s, k)
  }

  /** Every event of the run is enabled when it happens. */
  predicate Legal(s: Bridge, run: seq<Event>)
    decreases |run|
  {
    run == [] || (Enabled(s, run[0]) && Legal(Apply(s, run[0]), run[1..]))
  }

  function After(s: Bridge, run: seq<Event>): Bridge
    requires Legal(s, run)
    decreases |run|
  {
    if run == [] then s else After(Apply(s, run[0]), run[1..])
  }
}
