/** What the bridge promises its client, its backend and the daemon, over all runs. */
module RelayTheorems {
  import opened Relay
  import opened RelayInvariant

  /** The client is given either a prefix of the backend's output, or a prefix of the gateway error
      and not one backend byte. */
  lemma OneVoice(run: seq<Event>)
    requires Legal(INIT, run)
    ensures
      var s := After(INIT, run);
      || (s.down.received <= s.child.output && s.down.errSent == 0)
      || (s.down.received <= GATEWAY_ERROR && Delivered(s) == 0 && s.flags.replied)
  {
    Reached(GATEWAY_ERROR, run);
    var s := After(INIT, run);
    assert s.reply[..0] == "" && s.child.output[..0] == "";
    assert s.child.output[..Delivered(s)] + "" == s.child.output[..Delivered(s)];
    assert "" + s.reply[..s.down.errSent] == s.reply[..s.down.errSent];
  }

  /** Past the verdict, the error was tried exactly when the spawn failed, or the stdout copier is done
      with no byte delivered, Wait failed and no shutdown had been requested by then. */
  lemma ErrorExactlyWhen(run: seq<Event>)
    requires Legal(INIT, run)
    ensures
      var s := After(INIT, run);
      && (s.flags.replied ==>
            || s.flags.spawnFailed
            || (s.down.pc == OutDone && s.down.copied == 0 && s.results.outN == 0
                && s.child.process == Exited(false) && !s.flags.shutdownSeen))
      && (s.handler == Returned && Started(s) ==>
            (s.flags.replied <==> s.results.outN == 0 && s.child.process == Exited(false) && !s.flags.shutdownSeen))
      && (s.handler == Returned && !Started(s) ==> (s.flags.replied <==> s.flags.spawnFailed))
  {
    Reached(GATEWAY_ERROR, run);
  }

  lemma OutputClosesEmpty() returns (run: seq<Event>)
    ensures World(Exit(true)) !in run && World(Cancel) !in run && World(CloseStdout) in run
    ensures Legal(INIT, run)
    ensures
      var s := After(INIT, run);
      && s.handler == First && s.child.process == Alive && s.child.output == "" && s.down.pc == OutSend
      && s.down.copied == 0 && s.results == INIT.results && s.flags == INIT.flags && !s.down.fault
  {
    run := [];
    run := Then(run, Handle(Spawn));
    run := Then(run, World(CloseStdout));
    run := Then(run, CopyOut(ReadEof));
  }

  lemma EmptyAnswerArrives() returns (run: seq<Event>)
    ensures World(Exit(true)) !in run && World(Cancel) !in run && World(CloseStdout) in run
    ensures Legal(INIT, run)
    ensures
      var s := After(INIT, run);
      && s.handler == Killing && s.child.process == Alive && s.child.output == "" && s.results.outN == 0
      && s.flags == INIT.flags && !s.down.fault
  {
    run := OutputClosesEmpty();
    run := Then(run, CopyOut(SendStdout));
    run := Then(run, Handle(TakeFirst));
  }

  lemma EmptyAnswerIsKilled() returns (run: seq<Event>)
    ensures World(Exit(true)) !in run && World(Cancel) !in run && World(CloseStdout) in run
    ensures Legal(INIT, run)
    ensures
      var s := After(INIT, run);
      && s.handler == Waiting && s.child.process == Exited(false) && s.child.killed && s.child.output == ""
      && s.results.outN == 0 && s.flags == INIT.flags && !s.down.fault
  {
    run := EmptyAnswerArrives();
    run := Then(run, Handle(Kill));
    run := Then(run, World(Exit(false)));
  }

  /** A backend that closes its output without a byte and without failing is killed by the handler before
      it exits, and its client is sent the 500: "died before output" is then the handler's own doing. */
  lemma CleanEmptyAnswerCanBecomeAnError() returns (run: seq<Event>)
    ensures World(Exit(true)) !in run && World(Cancel) !in run && World(CloseStdout) in run
    ensures Legal(INIT, run)
    ensures
      var s := After(INIT, run);
      && s.flags.replied && s.child.killed && s.child.output == ""
      && !s.flags.cancelled && !s.flags.graceExpired && !s.down.fault
  {
    run := EmptyAnswerIsKilled();
    run := Then(run, Handle(Wait));
    run := Then(run, Handle(Decide));
  }

  /** The child has not succeeded and cannot any more. */
  ghost predicate Doomed(c: Child) {
    c.process == Exited(false) || (c.process.Alive? && c.killed)
  }

  /** The child's fate only goes forward. */
  ghost predicate Follows(c: Child, d: Child) {
    && !d.process.NotStarted?
    && (c.process.Exited? ==> d.process == c.process)
    && (Doomed(c) ==> Doomed(d))
  }

  lemma HandlerKeepsFate(s: Bridge, e: HandlerEvent)
    requires Inv(s) && Started(s) && HandlerEnabled(s, e)
    ensures Follows(s.child, HandlerApply(s, e).child)
  {
  }

  lemma OthersKeepFate(s: Bridge, e: Event)
    requires Started(s) && Enabled(s, e) && !e.Handle?
    ensures Follows(s.child, Apply(s, e).child)
  {
  }

  lemma StepKeepsFate(s: Bridge, e: Event)
    requires Inv(s) && Started(s) && Enabled(s, e)
    ensures Follows(s.child, Apply(s, e).child)
  {
    match e
    case Handle(h) => HandlerKeepsFate(s, h);
    case _ => OthersKeepFate(s, e);
  }

  lemma {:induction false} RunKeepsFate(s: Bridge, run: seq<Event>)
    requires Inv(s) && Started(s) && Legal(s, run)
    ensures Inv(After(s, run)) && Follows(s.child, After(s, run).child)
    decreases |run|
  {
    if run != [] {
      StepKeeps(s, run[0]);
      StepKeepsFate(s, run[0]);
      RunKeepsFate(Apply(s, run[0]), run[1..]);
    }
  }

  /** An exchange that ends without a byte from the backend, and without a shutdown, is answered with the error
      exactly when the backend had not yet exited successfully at the moment the handler went to kill it: whether
      it had failed or was only slow to exit makes no difference. */
  lemma EmptyAnswerIsAnErrorExactlyWhen(s: Bridge, post: seq<Event>)
    requires Inv(s) && s.handler == Killing && Legal(s, [Handle(Kill)] + post)
    ensures
      var t := After(s, [Handle(Kill)] + post);
      t.handler == Returned && t.results.outN == 0 && !t.flags.shutdownSeen ==>
        (t.flags.replied <==> s.child.process != Exited(true))
  {
    var run := [Handle(Kill)] + post;
    assert run[1..] == post;
    StepKeeps(s, Handle(Kill));
    RunKeepsFate(Apply(s, Handle(Kill)), post);
  }

  lemma Then(run: seq<Event>, e: Event) returns (longer: seq<Event>)
    requires Legal(INIT, run) && Enabled(After(INIT, run), e)
    ensures longer == run + [e] && Legal(INIT, longer)
    ensures After(INIT, longer) == Apply(After(INIT, run), e)
  {
    Extend(INIT, run, e);
    longer := run + [e];
  }

  /** The process is only ever killed once its output has been relayed, unless shutdown was requested or
      the grace period ran out; and then a client that keeps reading gets the whole output, to its end. */
  lemma NoTruncation(run: seq<Event>)
    requires Legal(INIT, run)
    ensures
      var s := After(INIT, run);
      && (s.child.killed ==> s.flags.cancelled || s.flags.graceExpired || s.down.pc == OutDone)
      && (s.handler == Returned && Started(s) && !s.flags.graceExpired && !s.down.fault ==>
            && !s.child.stdoutOpen
            && (s.flags.replied ==> s.child.output == "")
            && (!s.flags.replied ==> s.down.received == s.child.output))
  {
    Reached(GATEWAY_ERROR, run);
    var s := After(INIT, run);
    assert s.child.output[..|s.child.output|] == s.child.output;
    assert s.reply[..0] == "";
  }

  /** The backend's stdin is closed by the copier only after every byte read from the client was handed on,
      unless a write to the backend failed; the backend never sees a byte the client did not send. */
  lemma StdinHandedOn(run: seq<Event>)
    requires Legal(INIT, run)
    ensures
      var s := After(INIT, run);
      && s.up.procIn <= s.up.clientRead
      && (!s.up.stdinOpen && !s.up.fault ==> s.up.procIn == s.up.clientRead)
  {
    Reached(GATEWAY_ERROR, run);
  }

  /** A send on the two-slot channel never blocks, a copier that has sent is finished, outN is -1 exactly
      while the stdout result is unreceived, and the last wait can only deliver that result. */
  lemma SendsNeverBlock(run: seq<Event>, i: StdinEvent, o: StdoutEvent)
    requires Legal(INIT, run)
    ensures
      var s := After(INIT, run);
      && |s.results.done| <= 2
      && (s.up.pc == InSend ==> StdinEnabled(s, SendStdin))
      && (s.down.pc == OutSend ==> StdoutEnabled(s, SendStdout))
      && (s.up.pc == InDone ==> !StdinEnabled(s, i))
      && (s.down.pc == OutDone ==> !StdoutEnabled(s, o))
      && (s.results.outN == -1 <==> s.down.pc != OutDone || StdoutDone(s.down.copied) in s.results.done)
      && (s.handler.Insist? ==> s.results.done == [] || s.results.done == [StdoutDone(s.down.copied)])
  {
    Reached(GATEWAY_ERROR, run);
  }

  /** After the first result the handler returns within the two timers, plus the time spent in Wait and in
      writing the error; by then the process has been waited for, `gone` and the client are closed. */
  lemma BoundedTeardown(run: seq<Event>)
    requires Legal(INIT, run)
    ensures
      var s := After(INIT, run);
      s.handler == Returned ==>
        && !s.flags.clientOpen
        && (Started(s) ==>
              && s.child.waited && s.child.process.Exited? && s.flags.gone
              && s.clocks.returnedAt <= s.clocks.firstAt + 60_000 + 10_000 + s.clocks.slow)
  {
    Reached(GATEWAY_ERROR, run);
    assert Inv(After(INIT, run));
  }

  /** The timers run in full: the grace period is called expired only 60 s after the first result, and the handler
      goes on without the stdout result only after insisting for 10 s more. */
  lemma TimersRunInFull(run: seq<Event>)
    requires Legal(INIT, run)
    ensures
      var s := After(INIT, run);
      && (s.flags.graceExpired ==> s.clocks.now >= s.clocks.firstAt + 60_000)
      && (s.handler == Returned && Started(s) && s.down.pc != OutDone ==>
            s.clocks.now >= s.clocks.firstAt + 60_000 + 10_000)
  {
    Reached(GATEWAY_ERROR, run);
  }

  /** A shutdown reaps every bridge in flight: the killer can always go on, and when it is done the child has
      exited or was killed. */
  lemma ShutdownReaps(run: seq<Event>)
    requires Legal(INIT, run)
    ensures
      var s := After(INIT, run);
      && (Started(s) && s.flags.cancelled && s.killer != KillerDone ==>
            Enabled(s, Reap(SeeCancel)) || Enabled(s, Reap(Slay)))
      && (s.killer == KillerDone ==> s.child.killed || s.child.process.Exited?)
  {
    Reached(GATEWAY_ERROR, run);
  }

  /** Handler steps left, at most. */
  function HandlerRank(s: Bridge): nat {
    match s.handler
    case Spawning => 10 + |s.reply|
    case First => 9 + |s.reply|
    case Grace(_) => 8 + |s.reply|
    case Killing => 7 + |s.reply|
    case Waiting => 6 + |s.reply|
    case Insist(_) => 5 + |s.reply|
    case Verdict => 4 + |s.reply|
    case Replying => 3 + if s.down.errSent <= |s.reply| then |s.reply| - s.down.errSent else 0
    case ClosingGone => 2
    case ClosingClient => 1
    case Returned => 0
  }

  function HandlerSteps(run: seq<Event>): nat {
    if run == [] then 0 else (if run[0].Handle? then 1 else 0) + HandlerSteps(run[1..])
  }

  lemma HandlerRankDrops(s: Bridge, e: HandlerEvent)
    requires Inv(s) && HandlerEnabled(s, e)
    ensures HandlerRank(HandlerApply(s, e)) < HandlerRank(s)
  {
  }

  lemma OthersKeepHandlerRank(s: Bridge, e: Event)
    requires Enabled(s, e) && !e.Handle?
    ensures Apply(s, e).handler == s.handler && Apply(s, e).down.errSent == s.down.errSent
    ensures Apply(s, e).reply == s.reply
  {
  }

  /** The handler takes boundedly many steps, whatever the other actors do. */
  lemma {:induction false} HandlerStepsAreBounded(s: Bridge, run: seq<Event>)
    requires Inv(s) && Legal(s, run)
    ensures HandlerSteps(run) + HandlerRank(After(s, run)) <= HandlerRank(s)
    decreases |run|
  {
    if run != [] {
      var t := Apply(s, run[0]);
      if run[0].Handle? {
        HandlerRankDrops(s, run[0].h);
      } else {
        OthersKeepHandlerRank(s, run[0]);
      }
      StepKeeps(s, run[0]);
      HandlerStepsAreBounded(t, run[1..]);
    }
  }

  /** Once a result has been sent the handler is never stuck: it can step, or time can run to its timer,
      or it waits for a child it has killed and that can exit. */
  lemma NeverStuck(s: Bridge) returns (e: Event)
    requires Inv(s) && Started(s) && SomeResult(s) && s.handler != Returned
    ensures Enabled(s, e)
    ensures
      || e.Handle?
      || (s.handler.Grace? && e == World(Tick(s.handler.deadline - s.clocks.now)))
      || (s.handler.Insist? && e == World(Tick(s.handler.deadline - s.clocks.now)))
      || (s.handler == Waiting && s.child.killed && e.World? && e.w.Exit?)
  {
    e := match s.handler
      case First => Handle(TakeFirst)
      case Grace(deadline) =>
        if s.results.done != [] then Handle(TakeInGrace)
        else if s.clocks.now >= deadline then Handle(GraceTimeout) else World(Tick(deadline - s.clocks.now))
      case Killing => Handle(Kill)
      case Waiting => if s.child.process.Exited? then Handle(Wait) else World(Exit(false))
      case Insist(deadline) =>
        if s.results.done != [] then Handle(TakeInInsist)
        else if s.clocks.now >= deadline then Handle(InsistTimeout) else World(Tick(deadline - s.clocks.now))
      case Verdict => Handle(Decide)
      case Replying => Handle(ReplyEnd)
      case ClosingGone => Handle(CloseGone)
      case _ => Handle(CloseClient);
  }

  /** Steps the other three goroutines have left once the handler has returned. */
  function DrainRank(s: Bridge): nat {
    (match s.up.pc case InWrite(_) => 4 case InRead => 4 case InClose => 2 case InSend => 1 case _ => 0)
    + (match s.down.pc case OutWrite(_, _) => 3 case OutRead => 2 case OutSend => 1 case _ => 0)
    + (match s.killer case Selecting => 2 case Slaying => 1 case _ => 0)
  }

  ghost predicate Drained(s: Bridge, t: Bridge) {
    && t.handler == Returned && t.down.received == s.down.received && t.up.procIn == s.up.procIn
  }

  lemma StdinDrains(s: Bridge, e: StdinEvent)
    requires Inv(s) && s.handler == Returned && StdinEnabled(s, e)
    ensures Drained(s, StdinApply(s, e)) && DrainRank(StdinApply(s, e)) < DrainRank(s)
  {
    if e.HandOnFail? {
      assert s.up.pc.chunk[..0] == "" && s.up.procIn + "" == s.up.procIn;
    }
  }

  lemma StdoutDrains(s: Bridge, e: StdoutEvent)
    requires Inv(s) && s.handler == Returned && StdoutEnabled(s, e)
    ensures Drained(s, StdoutApply(s, e)) && DrainRank(StdoutApply(s, e)) < DrainRank(s)
  {
  }

  /** After the handler has returned no copier can read, relay or hand on another byte: each remaining move
      brings the goroutines closer to their end. */
  lemma DrainAdvances(s: Bridge, e: Event)
    requires Inv(s) && s.handler == Returned && Enabled(s, e)
    ensures
      var t := Apply(s, e);
      && Drained(s, t)
      && (if e.World? then DrainRank(t) == DrainRank(s) else DrainRank(t) < DrainRank(s))
  {
    match e
    case CopyIn(i) => StdinDrains(s, i);
    case CopyOut(o) => StdoutDrains(s, o);
    case _ =>
  }

  /** Nothing leaks: until all three goroutines have ended, one of them can move. */
  lemma DrainNeverStuck(s: Bridge) returns (e: Event)
    requires Inv(s) && s.handler == Returned && DrainRank(s) > 0
    ensures Enabled(s, e) && !e.World? && !e.Handle?
  {
    e := match s.up.pc
      case InRead => CopyIn(ReadClientEnd)
      case InWrite(_) => CopyIn(HandOnFail(0))
      case InClose => CopyIn(CloseProcStdin)
      case InSend => CopyIn(SendStdin)
      case _ =>
        match s.down.pc
        case OutRead => CopyOut(ReadClosed)
        case OutWrite(chunk, sent) => CopyOut(if sent == |chunk| then DeliverEnd else DeliverFail)
        case OutSend => CopyOut(SendStdout)
        case _ => Reap(if s.killer == Slaying then Slay else SeeGone);
  }
}
