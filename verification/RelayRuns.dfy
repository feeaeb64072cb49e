/** What a bridge gets done: whole exchanges from the first byte to the return, and the same from any state it can be
    in.  The numbers are milliseconds. */
module RelayRuns {
  import opened Relay
  import opened RelayInvariant

  lemma Then(s: Bridge, run: seq<Event>, e: Event) returns (longer: seq<Event>)
    requires Legal(s, run) && Enabled(After(s, run), e)
    ensures longer == run + [e] && Legal(s, longer) && After(s, longer) == Apply(After(s, run), e)
  {
    Extend(s, run, e);
    longer := run + [e];
  }

  lemma {:induction false} Concat(s: Bridge, a: seq<Event>, b: seq<Event>)
    requires Legal(s, a) && Legal(After(s, a), b)
    ensures Legal(s, a + b) && After(s, a + b) == After(After(s, a), b)
    decreases |a|
  {
    if a == [] {
      assert a + b == b;
    } else {
      assert (a + b)[1..] == a[1..] + b;
      Concat(Apply(s, a[0]), a[1..], b);
    }
  }

  // ---------- From any state ----------

  ghost predicate OnlyCopiesOut(run: seq<Event>) {
    forall i :: 0 <= i < |run| ==> run[i].CopyOut?
  }

  lemma FinishChunk(s: Bridge) returns (run: seq<Event>)
    requires Inv(s) && s.down.pc.OutWrite? && s.flags.clientOpen
    ensures Legal(s, run) && OnlyCopiesOut(run)
    ensures
      var t := After(s, run);
      && t == s.(down := t.down) && t.down.fault == s.down.fault
      && t.down.pc == OutRead && t.down.taken == s.down.taken
  {
    run := [];
    var left := |s.down.pc.chunk| - s.down.pc.sent;
    if left > 0 {
      run := Then(s, run, CopyOut(Deliver(left)));
    }
    run := Then(s, run, CopyOut(DeliverEnd));
  }

  lemma NextChunk(s: Bridge) returns (run: seq<Event>)
    requires Inv(s) && s.down.pc == OutRead && s.flags.clientOpen && !s.child.waited
    ensures Legal(s, run) && OnlyCopiesOut(run)
    ensures
      var t := After(s, run);
      && t == s.(down := t.down) && t.down.fault == s.down.fault
      && t.down.pc == OutRead && t.down.taken == |s.child.output|
  {
    run := [];
    var left := |s.child.output| - s.down.taken;
    if left > 0 {
      run := Then(s, run, CopyOut(ReadBackend(left)));
      StepKeeps(s, CopyOut(ReadBackend(left)));
      var more := FinishChunk(After(s, run));
      Concat(s, run, more);
      run := run + more;
    }
  }

  /** While the stdout copier is at work and the child is not waited for, a client that reads can be given all the
      backend has written, by steps of the copier alone and without a fault. */
  lemma OutputCanBeDelivered(s: Bridge) returns (run: seq<Event>)
    requires Inv(s) && Started(s) && !s.child.waited && (s.down.pc == OutRead || s.down.pc.OutWrite?)
    ensures Legal(s, run) && OnlyCopiesOut(run)
    ensures
      var t := After(s, run);
      && t.down.received == t.child.output == s.child.output
      && t.down.pc == OutRead && t.down.fault == s.down.fault && t.handler == s.handler
  {
    run := [];
    if s.down.pc.OutWrite? {
      run := FinishChunk(s);
      RunKeeps(s, run);
    }
    var more := NextChunk(After(s, run));
    Concat(s, run, more);
    run := run + more;
    RunKeeps(s, run);
    var t := After(s, run);
    assert t.child.output[..|t.child.output|] == t.child.output && t.reply[..0] == "";
    assert t.child.output + "" == t.child.output;
  }

  /** And whatever a client sends while the stdin copier is at work can be handed on in the same way. */
  lemma InputCanBeHandedOn(s: Bridge, bs: string) returns (run: seq<Event>)
    requires Inv(s) && Started(s) && !s.child.waited && s.up.pc == InRead && s.flags.clientOpen && bs != ""
    ensures Legal(s, run)
    ensures
      var t := After(s, run);
      && t.up.procIn == t.up.clientRead == s.up.clientRead + bs
      && t.up.pc == InRead && t.up.fault == s.up.fault && t.handler == s.handler
  {
    run := Then(s, [], CopyIn(ReadClient(bs)));
    run := Then(s, run, CopyIn(HandOn));
  }

  /** A read from the backend that fails ends the copy, and the bytes that got through are sent as its result. */
  lemma ReadFaultEndsTheCopy(s: Bridge)
    requires Inv(s) && s.down.pc == OutRead && !s.child.waited
    ensures
      var run := [CopyOut(ReadFault), CopyOut(SendStdout)];
      Legal(s, run) && After(s, run).results.done == s.results.done + [StdoutDone(s.down.copied)]
  {
    var run := Then(s, [], CopyOut(ReadFault));
    run := Then(s, run, CopyOut(SendStdout));
    assert run == [CopyOut(ReadFault), CopyOut(SendStdout)];
  }

  /** So does a write to the client that fails. */
  lemma WriteFaultEndsTheCopy(s: Bridge)
    requires Inv(s) && s.down.pc.OutWrite? && s.down.pc.sent < |s.down.pc.chunk|
    ensures
      var run := [CopyOut(DeliverFail), CopyOut(SendStdout)];
      && Legal(s, run)
      && After(s, run).results.done == s.results.done + [StdoutDone(s.down.copied + s.down.pc.sent)]
  {
    var run := Then(s, [], CopyOut(DeliverFail));
    run := Then(s, run, CopyOut(SendStdout));
    assert run == [CopyOut(DeliverFail), CopyOut(SendStdout)];
  }

  /** And a write to the backend that fails, which closes its stdin. */
  lemma InputFaultEndsTheCopy(s: Bridge)
    requires Inv(s) && s.up.pc.InWrite?
    ensures
      var run := [CopyIn(HandOnFail(0)), CopyIn(CloseProcStdin), CopyIn(SendStdin)];
      && Legal(s, run) && After(s, run).results.done == s.results.done + [StdinDone]
      && !After(s, run).up.stdinOpen && After(s, run).up.procIn == s.up.procIn
  {
    var run := Then(s, [], CopyIn(HandOnFail(0)));
    assert s.up.pc.chunk[..0] == "" && s.up.procIn + "" == s.up.procIn;
    run := Then(s, run, CopyIn(CloseProcStdin));
    run := Then(s, run, CopyIn(SendStdin));
    assert run == [CopyIn(HandOnFail(0)), CopyIn(CloseProcStdin), CopyIn(SendStdin)];
  }

  // ---------- Stages of an exchange ----------

  lemma RequestGoesIn(s: Bridge, req: string) returns (run: seq<Event>)
    requires s.up.pc == InRead && s.flags.clientOpen && !s.child.waited && req != "" && s.results.done == []
    requires s.down.pc == OutRead && s.up.clientRead == s.up.procIn == ""
    ensures Legal(s, run)
    ensures After(s, run) == s.(up := Upstream(InDone, req, req, s.up.fault, false),
                                results := s.results.(done := [StdinDone]),
                                clocks := s.clocks.(firstAt := s.clocks.now))
  {
    run := Then(s, [], CopyIn(ReadClient(req)));
    run := Then(s, run, CopyIn(HandOn));
    run := Then(s, run, CopyIn(ReadClientEnd));
    run := Then(s, run, CopyIn(CloseProcStdin));
    run := Then(s, run, CopyIn(SendStdin));
  }

  lemma AnswerComesBack(s: Bridge, ans: string) returns (run: seq<Event>)
    requires s.child.process.Alive? && s.child.stdoutOpen && !s.child.waited && s.flags.clientOpen && ans != ""
    requires s.down == Downstream(OutRead, 0, 0, false, false, "", 0) && s.child.output == ""
    ensures Legal(s, run)
    ensures After(s, run) == s.(child := s.child.(output := ans),
                                down := Downstream(OutRead, |ans|, |ans|, false, false, ans, 0))
  {
    run := Then(s, [], World(Emit(ans)));
    assert After(s, run).child.output == ans;
    run := Then(s, run, CopyOut(ReadBackend(|ans|)));
    assert ans[0..|ans|] == ans;
    run := Then(s, run, CopyOut(Deliver(|ans|)));
    run := Then(s, run, CopyOut(DeliverEnd));
  }

  lemma BackendEnds(s: Bridge, ok: bool) returns (run: seq<Event>)
    requires s.child.process.Alive? && !s.child.waited && !s.child.killed && s.results.done == [StdinDone]
    requires s.down.pc == OutRead && s.down.taken == |s.child.output| && s.up.pc == InDone
    ensures Legal(s, run)
    ensures After(s, run) == s.(child := s.child.(process := Exited(ok), stdoutOpen := false),
                                down := s.down.(pc := OutDone),
                                results := s.results.(done := [StdinDone, StdoutDone(s.down.copied)]))
  {
    run := Then(s, [], World(Exit(ok)));
    run := Then(s, run, CopyOut(ReadEof));
    run := Then(s, run, CopyOut(SendStdout));
  }

  lemma HandlerTakesBoth(s: Bridge) returns (run: seq<Event>)
    requires s.handler == First && s.child.process.Exited? && s.down.copied > 0
    requires s.results == Results([StdinDone, StdoutDone(s.down.copied)], false, -1)
    ensures Legal(s, run)
    ensures After(s, run) == s.(handler := Verdict, child := s.child.(waited := true),
                                results := Results([], true, s.down.copied))
  {
    run := Then(s, [], Handle(TakeFirst));
    run := Then(s, run, Handle(TakeInGrace));
    run := Then(s, run, Handle(Kill));
    run := Then(s, run, Handle(Wait));
  }

  lemma HandlerLeaves(s: Bridge) returns (run: seq<Event>)
    requires s.handler == Verdict && !s.flags.cancelled && s.results.outN != 0
    ensures Legal(s, run)
    ensures After(s, run) == s.(handler := Returned,
                                flags := s.flags.(shutdownSeen := false, replied := false, gone := true,
                                                  clientOpen := false),
                                clocks := s.clocks.(returnedAt := s.clocks.now))
  {
    run := Then(s, [], Handle(Decide));
    run := Then(s, run, Handle(CloseGone));
    run := Then(s, run, Handle(CloseClient));
  }

  lemma Spawns() returns (run: seq<Event>)
    ensures Legal(INIT, run)
    ensures After(INIT, run) == INIT.(handler := First, killer := Selecting,
                                      child := INIT.child.(process := Alive),
                                      up := INIT.up.(pc := InRead), down := INIT.down.(pc := OutRead))
  {
    run := Then(INIT, [], Handle(Spawn));
  }

  // ---------- Whole exchanges ----------

  /** A request of any bytes and an answer of any bytes: both arrive whole, nothing is killed, and the bridge is gone
      the moment the backend is. */
  lemma ExchangeIsRelayed(req: string, ans: string) returns (run: seq<Event>)
    requires req != "" && ans != ""
    ensures Legal(INIT, run)
    ensures
      var s := After(INIT, run);
      && s.handler == Returned && s.clocks.returnedAt == 0
      && s.up.clientRead == s.up.procIn == req && !s.up.stdinOpen && !s.up.fault
      && s.child.output == s.down.received == ans && !s.down.fault
      && !s.child.killed && !s.flags.replied && !s.flags.graceExpired && !s.flags.clientOpen
  {
    run := Spawns();
    var more := RequestGoesIn(After(INIT, run), req);
    Concat(INIT, run, more);
    run := run + more;
    more := AnswerComesBack(After(INIT, run), ans);
    Concat(INIT, run, more);
    run := run + more;
    more := BackendEnds(After(INIT, run), true);
    Concat(INIT, run, more);
    run := run + more;
    more := HandlerTakesBoth(After(INIT, run));
    Concat(INIT, run, more);
    run := run + more;
    more := HandlerLeaves(After(INIT, run));
    Concat(INIT, run, more);
    run := run + more;
  }

  lemma ReplyIsWritten(s: Bridge) returns (run: seq<Event>)
    requires s.handler == Replying && s.flags.spawnFailed && s.down.errSent == 0 && s.down.received == ""
    requires s.reply != ""
    ensures Legal(s, run)
    ensures
      var t := After(s, run);
      && t.handler == Returned && t.flags.replied == s.flags.replied && !t.flags.clientOpen
      && t.down.received == s.reply
  {
    run := Then(s, [], Handle(ReplySome(|s.reply|)));
    assert s.reply[0..|s.reply|] == s.reply && "" + s.reply == s.reply;
    run := Then(s, run, Handle(ReplyEnd));
    run := Then(s, run, Handle(CloseClient));
  }

  /** A spawn that fails: the client is given this error, whole. */
  lemma ErrorIsRelayed() returns (run: seq<Event>)
    ensures Legal(INIT, run)
    ensures
      var s := After(INIT, run);
      && s.handler == Returned && s.flags.replied && !s.flags.clientOpen
      && s.down.received ==
           "HTTP/1.0 500 Internal Server Error\r\nContent-Length: 0\r\nConnection: close\r\n\r\n"
  {
    run := Then(INIT, [], Handle(SpawnFail));
    var more := ReplyIsWritten(After(INIT, run));
    Concat(INIT, run, more);
    run := run + more;
  }

  lemma GraceRunsOut(s: Bridge) returns (run: seq<Event>)
    requires s.handler == First && s.results == Results([StdinDone], false, -1) && s.child.process.Alive?
    requires !s.child.killed
    ensures Legal(s, run)
    ensures After(s, run) == s.(handler := Waiting, child := s.child.(killed := true),
                                results := Results([], true, -1), flags := s.flags.(graceExpired := true),
                                clocks := s.clocks.(now := s.clocks.now + 60_000))
  {
    run := Then(s, [], Handle(TakeFirst));
    run := Then(s, run, World(Tick(60_000)));
    run := Then(s, run, Handle(GraceTimeout));
    run := Then(s, run, Handle(Kill));
  }

  lemma InsistRunsOut(s: Bridge) returns (run: seq<Event>)
    requires s.handler == Waiting && s.results == Results([], true, -1) && s.child.process.Alive? && s.child.killed
    ensures Legal(s, run)
    ensures After(s, run) == s.(handler := Verdict,
                                child := s.child.(process := Exited(false), stdoutOpen := false, waited := true),
                                clocks := s.clocks.(now := s.clocks.now + 10_000))
  {
    run := Then(s, [], World(Exit(false)));
    run := Then(s, run, Handle(Wait));
    run := Then(s, run, World(Tick(10_000)));
    run := Then(s, run, Handle(InsistTimeout));
  }

  lemma ClientStopsReading(s: Bridge, ans: string) returns (run: seq<Event>)
    requires s.child.process.Alive? && s.child.stdoutOpen && !s.child.waited && ans != ""
    requires s.down == Downstream(OutRead, 0, 0, false, false, "", 0) && s.child.output == ""
    ensures Legal(s, run)
    ensures After(s, run) == s.(child := s.child.(output := ans),
                                down := Downstream(OutWrite(ans, 0), |ans|, 0, false, false, "", 0))
  {
    run := Then(s, [], World(Emit(ans)));
    assert After(s, run).child.output == ans;
    run := Then(s, run, CopyOut(ReadBackend(|ans|)));
    assert ans[0..|ans|] == ans;
  }

  /** Both timers are reached: a client that has sent its request and then reads nothing keeps the bridge for exactly
      sixty and ten seconds, and is not sent the error. */
  lemma StuckClientIsLeftAfterBothTimers(req: string, ans: string) returns (run: seq<Event>)
    requires req != "" && ans != ""
    ensures Legal(INIT, run)
    ensures
      var s := After(INIT, run);
      && s.handler == Returned && s.clocks.firstAt == 0 && s.clocks.returnedAt == 70_000
      && s.child.killed && s.flags.graceExpired && !s.flags.replied && s.down.received == ""
  {
    run := Spawns();
    var more := RequestGoesIn(After(INIT, run), req);
    Concat(INIT, run, more);
    run := run + more;
    more := ClientStopsReading(After(INIT, run), ans);
    Concat(INIT, run, more);
    run := run + more;
    more := GraceRunsOut(After(INIT, run));
    Concat(INIT, run, more);
    run := run + more;
    more := InsistRunsOut(After(INIT, run));
    Concat(INIT, run, more);
    run := run + more;
    more := HandlerLeaves(After(INIT, run));
    Concat(INIT, run, more);
    run := run + more;
  }

  lemma ShutdownSlays(s: Bridge) returns (run: seq<Event>)
    requires s.child.process.Alive? && !s.child.killed && s.killer == Selecting
    ensures Legal(s, run)
    ensures After(s, run) == s.(killer := KillerDone, flags := s.flags.(cancelled := true),
                                child := s.child.(process := Exited(false), killed := true, stdoutOpen := false))
  {
    run := Then(s, [], World(Cancel));
    run := Then(s, run, Reap(SeeCancel));
    run := Then(s, run, Reap(Slay));
    run := Then(s, run, World(Exit(false)));
  }

  lemma StdoutEndsFirst(s: Bridge) returns (run: seq<Event>)
    requires s.handler == First && s.results == Results([], false, -1) && s.child.process.Exited? && !s.child.waited
    requires s.down.pc == OutRead && s.down.taken == |s.child.output| && !s.child.stdoutOpen && s.up.pc == InRead
    ensures Legal(s, run)
    ensures After(s, run) == s.(handler := Verdict, child := s.child.(waited := true),
                                down := s.down.(pc := OutDone), results := Results([], false, s.down.copied),
                                clocks := s.clocks.(firstAt := s.clocks.now))
  {
    run := Then(s, [], CopyOut(ReadEof));
    run := Then(s, run, CopyOut(SendStdout));
    run := Then(s, run, Handle(TakeFirst));
    run := Then(s, run, Handle(Kill));
    run := Then(s, run, Handle(Wait));
  }

  /** A bridge in flight at a shutdown: its child is killed at once, and its client is told nothing. */
  lemma ShutdownIsQuiet() returns (run: seq<Event>)
    ensures Legal(INIT, run)
    ensures
      var s := After(INIT, run);
      && s.handler == Returned && s.clocks.returnedAt == 0 && s.child.killed && s.child.waited
      && s.child.process == Exited(false) && s.results.outN == 0
      && !s.flags.replied && s.flags.shutdownSeen && s.down.received == ""
  {
    run := Spawns();
    var more := ShutdownSlays(After(INIT, run));
    Concat(INIT, run, more);
    run := run + more;
    more := StdoutEndsFirst(After(INIT, run));
    Concat(INIT, run, more);
    run := run + more;
    run := Then(INIT, run, Handle(Decide));
    run := Then(INIT, run, Handle(CloseGone));
    run := Then(INIT, run, Handle(CloseClient));
  }
}
