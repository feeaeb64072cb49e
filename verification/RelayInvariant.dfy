/** What every step of a bridge keeps, under any interleaving. */
module RelayInvariant {
  import opened Relay

  ghost predicate Started(s: Bridge) {
    !s.child.process.NotStarted?
  }

  /** Backend bytes the client has been given so far. */
  function Delivered(s: Bridge): nat {
    s.down.copied + if s.down.pc.OutWrite? then s.down.pc.sent else 0
  }

  ghost predicate BeforeVerdict(s: Bridge) {
    s.handler in {First, Killing, Waiting, Verdict} || s.handler.Grace? || s.handler.Insist?
  }

  /** The goroutines exist exactly when the child was spawned. */
  ghost predicate Phases(s: Bridge) {
    && (Started(s) <==> s.up.pc != InIdle)
    && (Started(s) <==> s.down.pc != OutIdle)
    && (Started(s) <==> s.killer != KillerIdle)
    && (Started(s) ==> !s.flags.spawnFailed && s.handler != Spawning)
    && (!Started(s) ==>
          && s.handler in {Spawning, Replying, ClosingClient, Returned}
          && s.results.done == [] && !s.results.gotStdin && s.results.outN == -1
          && !s.child.killed && !s.child.waited && !s.flags.gone && !s.flags.graceExpired
          && s.child.output == "" && s.down.copied == 0
          && s.flags.replied == s.flags.spawnFailed
          && (s.handler == Spawning ==> !s.flags.replied && s.clocks.slow == 0)
          && (s.handler == Replying ==> s.flags.replied))
  }

  /** The channel holds exactly the results sent and not yet received; outN is the stdout one, -1 until then. */
  ghost predicate Channel(s: Bridge) {
    var pendingIn := s.up.pc == InDone && !s.results.gotStdin;
    var pendingOut := s.down.pc == OutDone && s.results.outN == -1;
    var out := StdoutDone(s.down.copied);
    && (s.results.gotStdin ==> s.up.pc == InDone)
    && (s.results.outN == -1 || (s.results.outN == s.down.copied && s.down.pc == OutDone))
    && (if pendingIn && pendingOut then s.results.done == [StdinDone, out] || s.results.done == [out, StdinDone]
        else if pendingIn then s.results.done == [StdinDone]
        else if pendingOut then s.results.done == [out]
        else s.results.done == [])
  }

  ghost predicate Control(s: Bridge) {
    Started(s) ==>
      && (s.handler == First ==> !s.results.gotStdin && s.results.outN == -1)
      && (s.handler.Grace? ==> s.results.gotStdin && s.results.outN == -1)
      && (s.handler == First || s.handler.Grace? ==> !s.flags.graceExpired)
      && (s.handler == First || s.handler.Grace? || s.handler in {Killing, Waiting} <==> !s.child.waited)
      && (s.flags.graceExpired ==> s.results.gotStdin)
      && (s.handler in {Killing, Waiting} || s.child.waited ==> s.results.outN >= 0 || s.flags.graceExpired)
      && (s.handler.Insist? ==> s.results.outN == -1)
      && (s.child.waited ==> s.child.process.Exited?)
      && (s.handler == Waiting && s.child.process.Alive? ==> s.child.killed)
      && (BeforeVerdict(s) ==> !s.flags.replied)
      && (!BeforeVerdict(s) ==>
            (s.flags.replied <==> !s.flags.shutdownSeen && s.child.process == Exited(false) && s.results.outN == 0))
      && (s.handler == Replying ==> s.flags.replied)
      && (s.flags.gone <==> s.handler in {ClosingClient, Returned})
  }

  ghost predicate Output(s: Bridge) {
    && s.down.taken <= |s.child.output| && s.down.copied <= s.down.taken
    && (s.child.process.Exited? ==> !s.child.stdoutOpen)
    && (s.down.cutShort ==> s.flags.graceExpired)
    && (s.down.pc == OutRead ==> s.down.copied == s.down.taken)
    && (s.down.pc.OutWrite? ==>
          && s.down.pc.sent <= |s.down.pc.chunk|
          && s.down.copied + |s.down.pc.chunk| == s.down.taken
          && s.down.pc.chunk == s.child.output[s.down.copied..s.down.taken])
    && (s.down.pc in {OutSend, OutDone} && !s.down.fault && !s.down.cutShort ==>
          s.down.copied == |s.child.output| && !s.child.stdoutOpen)
  }

  ghost predicate Client(s: Bridge) {
    && s.down.errSent <= |s.reply|
    && (s.down.errSent > 0 ==> s.flags.replied)
    && (s.flags.replied ==> Delivered(s) == 0)
    && Delivered(s) <= |s.child.output|
    && s.down.received == s.child.output[..Delivered(s)] + s.reply[..s.down.errSent]
    && (s.flags.clientOpen <==> s.handler != Returned)
  }

  ghost predicate Input(s: Bridge) {
    && (s.up.pc == InRead ==> s.up.procIn == s.up.clientRead)
    && (s.up.pc.InWrite? ==> s.up.pc.chunk != "" && s.up.clientRead == s.up.procIn + s.up.pc.chunk)
    && (s.up.pc in {InClose, InSend, InDone} ==>
          s.up.procIn <= s.up.clientRead && (!s.up.fault ==> s.up.procIn == s.up.clientRead))
    && (s.up.pc in {InSend, InDone} <==> !s.up.stdinOpen)
    && (s.up.pc == InIdle ==> s.up.clientRead == s.up.procIn == "")
  }

  ghost predicate Kills(s: Bridge) {
    && (s.child.killed ==> s.flags.cancelled || s.flags.graceExpired || s.down.pc == OutDone)
    && (s.killer == Slaying ==> s.flags.cancelled)
    && (s.killer == KillerDone ==> s.child.killed || s.child.process.Exited?)
  }

  ghost predicate SomeResult(s: Bridge) {
    s.up.pc == InDone || s.down.pc == OutDone
  }

  /** Time since the first result: at most the two timers, plus what Wait and the error reply took. */
  ghost predicate Clock(s: Bridge) {
    && (Started(s) && !SomeResult(s) ==> s.clocks.slow == 0 && s.handler == First)
    && (s.flags.graceExpired ==> s.clocks.now >= s.clocks.firstAt + GRACE_MS)
    && (s.handler.Insist? ==> s.handler.deadline >= s.clocks.firstAt + GRACE_MS + INSIST_MS)
    && (s.child.waited && !s.handler.Insist? && s.results.outN == -1 ==>
          s.clocks.now >= s.clocks.firstAt + GRACE_MS + INSIST_MS)
    && (Started(s) && SomeResult(s) ==>
          match s.handler
          case First => s.clocks.now == s.clocks.firstAt && s.clocks.slow == 0
          case Grace(deadline) => s.clocks.now <= deadline == s.clocks.firstAt + GRACE_MS && s.clocks.slow == 0
          case Killing | Waiting => s.clocks.now <= s.clocks.firstAt + GRACE_MS + s.clocks.slow
          case Insist(deadline) => s.clocks.now <= deadline <= s.clocks.firstAt + GRACE_MS + INSIST_MS + s.clocks.slow
          case Returned => s.clocks.returnedAt <= s.clocks.firstAt + GRACE_MS + INSIST_MS + s.clocks.slow
          case _ => s.clocks.now <= s.clocks.firstAt + GRACE_MS + INSIST_MS + s.clocks.slow)
  }

  ghost predicate Wiring(s: Bridge) {
    Phases(s) && Channel(s) && Control(s) && Kills(s)
  }

  ghost predicate Data(s: Bridge) {
    Output(s) && Client(s) && Input(s)
  }

  ghost predicate Inv(s: Bridge) {
    Wiring(s) && Data(s) && Clock(s)
  }

  lemma InitInv(reply: string)
    ensures Inv(Begin(reply))
  {
  }

  lemma EmitKeepsData(s: Bridge, bs: string)
    requires Inv(s) && WorldEnabled(s, Emit(bs))
    ensures Data(WorldApply(s, Emit(bs)))
  {
    var d := Delivered(s);
    assert (s.child.output + bs)[..d] == s.child.output[..d];
    assert s.down.pc.OutWrite? ==>
        (s.child.output + bs)[s.down.copied..s.down.taken] == s.child.output[s.down.copied..s.down.taken];
  }

  lemma TickKeepsWiring(s: Bridge, d: nat)
    requires Inv(s) && WorldEnabled(s, Tick(d))
    ensures Wiring(WorldApply(s, Tick(d))) && Clock(WorldApply(s, Tick(d)))
  {
  }

  lemma ExitKeepsWiring(s: Bridge, ok: bool)
    requires Inv(s) && WorldEnabled(s, Exit(ok))
    ensures Wiring(WorldApply(s, Exit(ok))) && Clock(WorldApply(s, Exit(ok)))
  {
  }

  lemma CancelKeepsWiring(s: Bridge)
    requires Inv(s)
    ensures Wiring(WorldApply(s, Cancel)) && Clock(WorldApply(s, Cancel))
  {
  }

  lemma EmitKeepsWiring(s: Bridge, bs: string)
    requires Inv(s) && WorldEnabled(s, Emit(bs))
    ensures Wiring(WorldApply(s, Emit(bs))) && Clock(WorldApply(s, Emit(bs)))
  {
  }

  lemma CloseKeepsWiring(s: Bridge)
    requires Inv(s) && WorldEnabled(s, CloseStdout)
    ensures Wiring(WorldApply(s, CloseStdout)) && Clock(WorldApply(s, CloseStdout))
  {
  }

  lemma WorldKeepsWiring(s: Bridge, e: WorldEvent)
    requires Inv(s) && WorldEnabled(s, e)
    ensures Wiring(WorldApply(s, e)) && Clock(WorldApply(s, e))
  {
    match e
    case Tick(d) => TickKeepsWiring(s, d);
    case Exit(ok) => ExitKeepsWiring(s, ok);
    case Cancel => CancelKeepsWiring(s);
    case Emit(bs) => EmitKeepsWiring(s, bs);
    case CloseStdout => CloseKeepsWiring(s);
  }

  lemma WorldKeepsData(s: Bridge, e: WorldEvent)
    requires Inv(s) && WorldEnabled(s, e)
    ensures Data(WorldApply(s, e))
  {
    if e.Emit? {
      EmitKeepsData(s, e.bs);
    }
  }

  lemma HandlerKeepsControl(s: Bridge, e: HandlerEvent)
    requires Inv(s) && HandlerEnabled(s, e)
    ensures Control(HandlerApply(s, e)) && Kills(HandlerApply(s, e))
  {
  }

  lemma HandlerKeepsWiring(s: Bridge, e: HandlerEvent)
    requires Inv(s) && HandlerEnabled(s, e)
    ensures Wiring(HandlerApply(s, e))
  {
    HandlerKeepsControl(s, e);
  }

  lemma ReplyKeepsData(s: Bridge, k: nat)
    requires Inv(s) && HandlerEnabled(s, ReplySome(k))
    ensures Data(HandlerApply(s, ReplySome(k)))
  {
    var n := s.down.errSent;
    assert s.reply[..n] + s.reply[n..n + k] == s.reply[..n + k];
  }

  lemma HandlerKeepsOutput(s: Bridge, e: HandlerEvent)
    requires Inv(s) && HandlerEnabled(s, e) && !e.ReplySome?
    ensures Output(HandlerApply(s, e)) && Input(HandlerApply(s, e))
  {
  }

  lemma HandlerKeepsData(s: Bridge, e: HandlerEvent)
    requires Inv(s) && HandlerEnabled(s, e)
    ensures Data(HandlerApply(s, e))
  {
    if !e.ReplySome? {
      HandlerKeepsOutput(s, e);
    } else {
      ReplyKeepsData(s, e.k);
    }
  }

  lemma HandlerKeepsClock(s: Bridge, e: HandlerEvent)
    requires Inv(s) && HandlerEnabled(s, e)
    ensures Clock(HandlerApply(s, e))
  {
  }

  lemma StdinKeepsWiring(s: Bridge, e: StdinEvent)
    requires Inv(s) && StdinEnabled(s, e)
    ensures Wiring(StdinApply(s, e)) && Clock(StdinApply(s, e))
  {
  }

  lemma StdinKeepsData(s: Bridge, e: StdinEvent)
    requires Inv(s) && StdinEnabled(s, e)
    ensures Data(StdinApply(s, e))
  {
  }

  lemma StdoutKeepsWiring(s: Bridge, e: StdoutEvent)
    requires Inv(s) && StdoutEnabled(s, e)
    ensures Wiring(StdoutApply(s, e)) && Clock(StdoutApply(s, e))
  {
  }

  lemma SliceOfSlice(whole: string, start: nat, end: nat, from: nat, k: nat)
    requires start <= end <= |whole| && from + k <= end - start
    ensures whole[start..end][from..from + k] == whole[start + from..start + from + k]
    ensures whole[..start + from] + whole[start + from..start + from + k] == whole[..start + from + k]
  {
    var a, b := whole[start..end][from..from + k], whole[start + from..start + from + k];
    assert |a| == |b| && forall i :: 0 <= i < k ==> a[i] == b[i];
  }

  lemma DeliverKeepsData(s: Bridge, k: nat)
    requires Inv(s) && StdoutEnabled(s, Deliver(k))
    ensures Data(StdoutApply(s, Deliver(k)))
  {
    var d := Delivered(s);
    assert !s.flags.replied;
    assert s.down.errSent == 0 && s.reply[..0] == "";
    SliceOfSlice(s.child.output, s.down.copied, s.down.taken, s.down.pc.sent, k);
    assert s.down.pc.chunk[s.down.pc.sent..s.down.pc.sent + k] == s.child.output[d..d + k];
    assert s.down.received == s.child.output[..d] by {
      assert s.child.output[..d] + "" == s.child.output[..d];
    }
    var t := StdoutApply(s, Deliver(k));
    assert Delivered(t) == d + k && t.down.received == s.child.output[..d + k];
    assert t.down.received == t.child.output[..d + k] + t.reply[..t.down.errSent];
  }

  lemma StdoutKeepsData(s: Bridge, e: StdoutEvent)
    requires Inv(s) && StdoutEnabled(s, e)
    ensures Data(StdoutApply(s, e))
  {
    if e.Deliver? {
      DeliverKeepsData(s, e.k);
    }
  }

  lemma KillerKeeps(s: Bridge, e: KillerEvent)
    requires Inv(s) && KillerEnabled(s, e)
    ensures Inv(KillerApply(s, e))
  {
  }

  lemma StepKeeps(s: Bridge, e: Event)
    requires Inv(s) && Enabled(s, e)
    ensures Inv(Apply(s, e))
  {
    match e
    case World(w) => WorldKeepsWiring(s, w); WorldKeepsData(s, w);
    case Handle(h) => HandlerKeepsWiring(s, h); HandlerKeepsData(s, h); HandlerKeepsClock(s, h);
    case CopyIn(i) => StdinKeepsWiring(s, i); StdinKeepsData(s, i);
    case CopyOut(o) => StdoutKeepsWiring(s, o); StdoutKeepsData(s, o);
    case Reap(k) => KillerKeeps(s, k);
  }

  lemma StepKeepsReply(s: Bridge, e: Event)
    requires Enabled(s, e)
    ensures Apply(s, e).reply == s.reply
  {
  }

  /** No step changes the reply text. */
  lemma {:induction false} RunKeeps(s: Bridge, run: seq<Event>)
    requires Inv(s) && Legal(s, run)
    ensures Inv(After(s, run)) && After(s, run).reply == s.reply
    decreases |run|
  {
    if run != [] {
      StepKeeps(s, run[0]);
      StepKeepsReply(s, run[0]);
      RunKeeps(Apply(s, run[0]), run[1..]);
    }
  }

  lemma Reached(reply: string, run: seq<Event>)
    requires Legal(Begin(reply), run)
    ensures Inv(After(Begin(reply), run)) && After(Begin(reply), run).reply == reply
  {
    InitInv(reply);
    RunKeeps(Begin(reply), run);
  }

  /** A run can be extended by any event enabled at its end. */
  lemma {:induction false} Extend(s: Bridge, run: seq<Event>, e: Event)
    requires Legal(s, run) && Enabled(After(s, run), e)
    ensures Legal(s, run + [e]) && After(s, run + [e]) == Apply(After(s, run), e)
    decreases |run|
  {
    if run == [] {
      assert [e][1..] == [];
    } else {
      Extend(Apply(s, run[0]), run[1..], e);
      assert (run + [e])[1..] == run[1..] + [e];
    }
  }
}
