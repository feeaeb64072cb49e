/** ServeEx and the goroutines serveListener starts: which pipes are opened, in which order they are served, and
    that all of it ends. */
module Listeners {
  import opened StateFile

  datatype Which = Main | Mirror | Tcp

  datatype Listener = Unopened | Open | Closed

  /** An accept loop; Launching has accepted a client and is about to start its bridge. */
  datatype Loop = Unserved | Accepting | Launching | Ended

  /** What ServeEx does next; Leaving runs its deferred calls in order. */
  datatype Pc =
    | OpenMain | OpenMirror | Callback | ServeMain | ServeMirror | OpenTcp | Blocked
    | Leaving(step: nat)
    | Returned

  /** The arguments that matter: does the pipe differ from docker's own, is TCP on, is the port valid. */
  datatype Args = Args(ownPipe: bool, useTcp: bool, portOk: bool)

  datatype Each<T> = Each(main: T, mirror: T, tcp: T)
  {
    function Of(w: Which): T {
      match w case Main => main case Mirror => mirror case Tcp => tcp
    }

    function With(w: Which, t: T): Each<T> {
      match w case Main => this.(main := t) case Mirror => this.(mirror := t) case Tcp => this.(tcp := t)
    }
  }

  datatype Server = Server(
    args: Args, pc: Pc, cancelled: bool, requested: bool, listeners: Each<Listener>, loops: Each<Loop>,
    reported: Option<bool>, accepted: nat, bridges: nat, failed: bool)

  function Begin(args: Args): Server {
    var bad := args.useTcp && !args.portOk;
    Server(args, if bad then Returned else OpenMain, false, false,
           Each(Unopened, Unopened, Unopened),
           Each(Unserved, Unserved, Unserved),
           None, 0, 0, bad)
  }

  datatype Event =
    | Cancel                                   // the caller ends the context
    | Opens(ok: bool)                          // the next listen call of ServeEx
    | Advance                                  // ServeEx's next other step
    | Accept(w: Which)                         // a client connects
    | AcceptFails(w: Which)
    | Launch(w: Which)                         // go bridgeConn
    | CloseOnCancel(w: Which)                  // serveListener's closing goroutine

  predicate Enabled(s: Server, e: Event) {
    match e
    case Cancel => true
    case Opens(_) =>
      s.pc == OpenMain || (s.pc == OpenMirror && s.args.ownPipe) || (s.pc == OpenTcp && s.args.useTcp)
    case Advance =>
      match s.pc {
        case OpenMirror => !s.args.ownPipe
        case OpenTcp => !s.args.useTcp
        case Blocked => s.cancelled
        case Callback | ServeMain | ServeMirror | Leaving(_) => true
        case _ => false
      }
    case Accept(w) => s.loops.Of(w) == Accepting && s.listeners.Of(w) == Open
    case AcceptFails(w) => s.loops.Of(w) == Accepting
    case Launch(w) => s.loops.Of(w) == Launching
    case CloseOnCancel(w) => s.loops.Of(w) != Unserved && s.cancelled
  }

  function Close(s: Server, w: Which): Server {
    if s.listeners.Of(w) == Open then s.(listeners := s.listeners.With(w, Closed)) else s
  }

  function Serve(s: Server, w: Which): Server {
    s.(loops := s.loops.With(w, Accepting))
  }

  function Apply(s: Server, e: Event): Server
    requires Enabled(s, e)
  {
    match e
    case Cancel => s.(cancelled := true, requested := true)
    case Opens(ok) =>
      (match s.pc
       case OpenMain =>
         if ok then s.(listeners := s.listeners.With(Main, Open), pc := OpenMirror)
         else s.(pc := Returned, failed := true)
       case OpenMirror =>
         s.(listeners := if ok then s.listeners.With(Mirror, Open) else s.listeners, pc := Callback)
       case _ =>
         if ok then Serve(s.(listeners := s.listeners.With(Tcp, Open), pc := Blocked), Tcp)
         else s.(pc := Leaving(0), failed := true))
    case Advance =>
      (match s.pc
       case OpenMirror => s.(pc := Callback)
       case Callback => s.(reported := Some(s.listeners.Of(Mirror) == Open), pc := ServeMain)
       case ServeMain => Serve(s, Main).(pc := ServeMirror)
       case ServeMirror => (if s.listeners.Of(Mirror) == Open then Serve(s, Mirror) else s).(pc := OpenTcp)
       case OpenTcp => s.(pc := Blocked)
       case Blocked => s.(pc := Leaving(0))
       case Leaving(step) =>
         if step == 0 then Close(s, Tcp).(pc := Leaving(1))
         else if step == 1 then Close(s, Mirror).(pc := Leaving(2))
         else if step == 2 then s.(cancelled := true, pc := Leaving(3))
         else Close(s, Main).(pc := Returned)
       case _ => s)
    case Accept(w) => s.(accepted := s.accepted + 1, loops := s.loops.With(w, Launching))
    case AcceptFails(w) => if s.cancelled then s.(loops := s.loops.With(w, Ended)) else s
    case Launch(w) => s.(bridges := s.bridges + 1, loops := s.loops.With(w, Accepting))
    case CloseOnCancel(w) => Close(s, w)
  }

  // ---------- What every run keeps ----------

  /** One listener and its accept loop. */
  ghost predicate Consistent(s: Server, w: Which) {
    && (s.loops.Of(w) != Unserved ==> s.reported.Some? && s.listeners.Of(w) != Unopened)
    && (s.loops.Of(w) == Ended ==> s.cancelled)
    && (s.listeners.Of(w) == Closed ==> s.loops.Of(w) != Unserved || s.pc.Leaving? || s.pc == Returned)
    && (s.listeners.Of(w) == Closed ==> s.cancelled || s.pc.Leaving? || s.pc == Returned)
    && (s.pc == Returned ==> s.listeners.Of(w) != Open)
  }

  /** How far ServeEx has come. */
  ghost predicate Progress(s: Server) {
    && (s.pc in {OpenMain, OpenMirror, Callback} ==> s.reported.None?)
    && (s.pc in {ServeMain, ServeMirror, OpenTcp, Blocked} || s.pc.Leaving? ==> s.reported.Some?)
    && (s.reported.Some? ==> (s.reported.value <==> s.listeners.mirror != Unopened))
    && (s.pc == OpenMain ==> s.listeners.main == Unopened)
    && (s.pc == OpenMain || s.pc == OpenMirror ==> s.listeners.mirror == Unopened)
    && (s.pc != OpenMain && s.pc != Returned ==> s.listeners.main != Unopened)
    && (s.listeners.tcp != Unopened ==> s.pc == Blocked || s.pc.Leaving? || s.pc == Returned)
    && (s.pc in {OpenMain, OpenMirror, Callback, ServeMain} ==> s.loops.main == Unserved)
    && (s.pc in {OpenMain, OpenMirror, Callback, ServeMain, ServeMirror} ==> s.loops.mirror == Unserved)
    && (s.pc in {OpenMain, OpenMirror, Callback, ServeMain, ServeMirror, OpenTcp} ==> s.loops.tcp == Unserved)
  }

  /** Why and how it leaves. */
  ghost predicate Leaves(s: Server) {
    && (s.pc.Leaving? && s.pc.step >= 1 ==> s.listeners.tcp != Open)
    && (s.pc.Leaving? && s.pc.step >= 2 ==> s.listeners.mirror != Open)
    && (s.pc.Leaving? && s.pc.step >= 3 ==> s.cancelled)
    && (s.pc == Returned && s.reported.Some? ==> s.cancelled)
    && (s.pc.Leaving? || s.pc == Returned ==> s.failed || s.requested)
    && (s.cancelled ==> s.requested || s.pc.Leaving? || s.pc == Returned)
  }

  /** Clients accepted whose bridge is not started yet. */
  function Waiting(l: Each<Loop>): nat {
    (if l.main == Launching then 1 else 0) + (if l.mirror == Launching then 1 else 0)
    + (if l.tcp == Launching then 1 else 0)
  }

  ghost predicate Inv(s: Server) {
    && Counted(s)
    && Consistent(s, Main) && Consistent(s, Mirror) && Consistent(s, Tcp)
    && Progress(s) && Leaves(s)
  }

  predicate Legal(s: Server, run: seq<Event>)
    decreases |run|
  {
    run == [] || (Enabled(s, run[0]) && Legal(Apply(s, run[0]), run[1..]))
  }

  function After(s: Server, run: seq<Event>): Server
    requires Legal(s, run)
    decreases |run|
  {
    if run == [] then s else After(Apply(s, run[0]), run[1..])
  }

  lemma AdvanceKeepsProgress(s: Server)
    requires Inv(s) && Enabled(s, Advance)
    ensures Progress(Apply(s, Advance))
  {
  }

  lemma StepKeepsProgress(s: Server, e: Event)
    requires Inv(s) && Enabled(s, e)
    ensures Progress(Apply(s, e))
  {
    if e.Advance? {
      AdvanceKeepsProgress(s);
    }
  }

  lemma StepKeepsLeaves(s: Server, e: Event)
    requires Inv(s) && Enabled(s, e)
    ensures Leaves(Apply(s, e))
  {
  }

  lemma OpenKeepsConsistent(s: Server, ok: bool, w: Which)
    requires Inv(s) && Enabled(s, Opens(ok))
    ensures Consistent(Apply(s, Opens(ok)), w)
  {
  }

  lemma AdvanceKeepsConsistent(s: Server, w: Which)
    requires Inv(s) && Enabled(s, Advance)
    ensures Consistent(Apply(s, Advance), w)
  {
  }

  lemma StepKeepsConsistent(s: Server, e: Event, w: Which)
    requires Inv(s) && Enabled(s, e)
    ensures Consistent(Apply(s, e), w)
  {
    match e
    case Opens(ok) => OpenKeepsConsistent(s, ok, w);
    case Advance => AdvanceKeepsConsistent(s, w);
    case _ =>
  }

  ghost predicate Counted(s: Server) {
    s.accepted == s.bridges + Waiting(s.loops)
  }

  lemma ServeKeepsWaiting(l: Each<Loop>, w: Which)
    requires l.Of(w) == Unserved
    ensures Waiting(l.With(w, Accepting)) == Waiting(l)
  {
  }

  lemma OpenKeepsCount(s: Server, ok: bool)
    requires Inv(s) && Enabled(s, Opens(ok))
    ensures Counted(Apply(s, Opens(ok)))
  {
    if s.pc == OpenTcp {
      ServeKeepsWaiting(s.loops, Tcp);
    }
  }

  lemma AdvanceKeepsCount(s: Server)
    requires Inv(s) && Enabled(s, Advance)
    ensures Counted(Apply(s, Advance))
  {
    if s.pc == ServeMain {
      ServeKeepsWaiting(s.loops, Main);
    } else if s.pc == ServeMirror {
      ServeKeepsWaiting(s.loops, Mirror);
    }
  }

  lemma StepKeepsCount(s: Server, e: Event)
    requires Inv(s) && Enabled(s, e)
    ensures Counted(Apply(s, e))
  {
    match e
    case Opens(ok) => OpenKeepsCount(s, ok);
    case Advance => AdvanceKeepsCount(s);
    case _ =>
  }

  lemma StepKeeps(s: Server, e: Event)
    requires Inv(s) && Enabled(s, e)
    ensures Inv(Apply(s, e))
  {
    StepKeepsProgress(s, e);
    StepKeepsLeaves(s, e);
    StepKeepsCount(s, e);
    StepKeepsConsistent(s, e, Main);
    StepKeepsConsistent(s, e, Mirror);
    StepKeepsConsistent(s, e, Tcp);
  }

  lemma {:induction false} RunKeeps(s: Server, run: seq<Event>)
    requires Inv(s) && Legal(s, run)
    ensures Inv(After(s, run))
    decreases |run|
  {
    if run != [] {
      StepKeeps(s, run[0]);
      RunKeeps(Apply(s, run[0]), run[1..]);
    }
  }

  lemma AcceptMeansReported(s: Server, w: Which)
    requires Inv(s) && Enabled(s, Accept(w))
    ensures s.reported.Some? && (s.reported.value <==> s.listeners.mirror != Unopened)
  {
  }

  lemma ReturnedMeansClosed(s: Server, w: Which)
    requires Inv(s) && s.pc == Returned
    ensures !Enabled(s, Accept(w)) && s.listeners.Of(w) != Open && (s.failed || s.requested)
    ensures s.loops.Of(w) != Unserved ==> s.cancelled
  {
  }

  lemma BeginInv(args: Args)
    ensures Inv(Begin(args))
  {
    var s := Begin(args);
    assert s.pc == OpenMain || (s.pc == Returned && s.failed);
    assert Progress(s);
  }

  /** A client can be accepted only after the callback has reported whether the mirror is up.  Every accepted client
      has its bridge, but for those whose loop is just about to start one.  ServeEx returns without error only when
      its caller cancelled; when it has returned, nothing it opened is open and what it serves has been told to
      stop. */
  ghost predicate Promised(s: Server, w: Which) {
    && Counted(s) && Waiting(s.loops) <= 3
    && (Enabled(s, Accept(w)) ==> s.reported.Some? && (s.reported.value <==> s.listeners.mirror != Unopened))
    && (s.loops.Of(w) != Unserved && !s.cancelled && !s.pc.Leaving? && s.pc != Returned ==> s.listeners.Of(w) == Open)
    && (s.pc == Returned ==>
          && !Enabled(s, Accept(w))
          && s.listeners.Of(w) != Open
          && (s.failed || s.requested)
          && (s.loops.Of(w) != Unserved ==> s.cancelled))
  }

  lemma InvPromises(s: Server, w: Which)
    requires Inv(s)
    ensures Promised(s, w)
  {
    if Enabled(s, Accept(w)) {
      AcceptMeansReported(s, w);
    }
    if s.pc == Returned {
      ReturnedMeansClosed(s, w);
    }
  }

  lemma ServeExPromises(args: Args, run: seq<Event>, w: Which)
    requires Legal(Begin(args), run)
    ensures Promised(After(Begin(args), run), w)
  {
    BeginInv(args);
    RunKeeps(Begin(args), run);
    InvPromises(After(Begin(args), run), w);
  }

  // ---------- After the return ----------

  function LoopRank(l: Loop): nat {
    match l case Launching => 2 case Accepting => 1 case _ => 0
  }

  /** Steps the accept loops have left. */
  function Rank(l: Each<Loop>): nat {
    LoopRank(l.main) + LoopRank(l.mirror) + LoopRank(l.tcp)
  }

  predicate IsLoopStep(e: Event) {
    e.Accept? || e.AcceptFails? || e.Launch?
  }

  function LoopSteps(run: seq<Event>): nat {
    if run == [] then 0 else (if IsLoopStep(run[0]) then 1 else 0) + LoopSteps(run[1..])
  }

  lemma LateStep(s: Server, e: Event)
    requires Inv(s) && s.pc == Returned && Enabled(s, e)
    ensures Apply(s, e).pc == Returned
    ensures
      var before, after := Rank(s.loops), Rank(Apply(s, e).loops);
      if IsLoopStep(e) then after == before - 1 else Apply(s, e).loops == s.loops
  {
  }

  /** After the return no client is accepted any more.  A loop waiting in Accept is moved by nothing but the failure
      of that Accept, which ends it, and a loop about to start a bridge by nothing but starting it; both are possible
      at once. */
  lemma LoopsEnd(s: Server, w: Which, e: Event)
    requires Inv(s) && s.pc == Returned && Enabled(s, e)
    ensures !e.Accept?
    ensures s.loops.Of(w) == Accepting ==>
              && Enabled(s, AcceptFails(w)) && Apply(s, AcceptFails(w)).loops.Of(w) == Ended
              && (Apply(s, e).loops.Of(w) != Accepting <==> e == AcceptFails(w))
    ensures s.loops.Of(w) == Launching ==>
              && Enabled(s, Launch(w)) && Apply(s, Launch(w)).loops.Of(w) == Accepting
              && (Apply(s, e).loops.Of(w) != Launching <==> e == Launch(w))
  {
    assert s.listeners.Of(w) != Open;
  }

  /** So however the run goes on, the loops together take at most six more steps, and when none is left to take
      every accepted client has its bridge and every loop has ended. */
  lemma {:induction false} LoopStepsAreBounded(s: Server, run: seq<Event>)
    requires Inv(s) && s.pc == Returned && Legal(s, run)
    ensures
      var t := After(s, run);
      && LoopSteps(run) + Rank(t.loops) == Rank(s.loops) <= 6
      && (Rank(t.loops) == 0 ==>
            && t.bridges == t.accepted
            && forall w: Which :: t.loops.Of(w) in {Unserved, Ended})
    decreases |run|
  {
    if run != [] {
      StepKeeps(s, run[0]);
      LateStep(s, run[0]);
      LoopStepsAreBounded(Apply(s, run[0]), run[1..]);
    }
  }

  // ---------- What it gets done ----------

  lemma {:induction false} Extend(s: Server, run: seq<Event>, e: Event)
    requires Legal(s, run) && Enabled(After(s, run), e)
    ensures Legal(s, run + [e]) && After(s, run + [e]) == Apply(After(s, run), e)
    decreases |run|
  {
    if run == [] {
      assert [e][1..] == [];
    } else {
      Extend(Apply(s, run[0]), run[1..], e);
      assert (run + [e])[1..] == run[1..] + [e];
    }
  }

  lemma Then(s: Server, run: seq<Event>, e: Event) returns (longer: seq<Event>)
    requires Legal(s, run) && Enabled(After(s, run), e)
    ensures longer == run + [e] && Legal(s, longer) && After(s, longer) == Apply(After(s, run), e)
  {
    Extend(s, run, e);
    longer := run + [e];
  }

  predicate Usable(args: Args) {
    !args.useTcp || args.portOk
  }

  lemma PipesOpen(args: Args, free: bool) returns (run: seq<Event>)
    requires Usable(args)
    ensures Legal(Begin(args), run)
    ensures
      var s := After(Begin(args), run);
      var mirror := if args.ownPipe && free then Open else Unopened;
      s == Begin(args).(pc := Callback, listeners := Each(Open, mirror, Unopened))
  {
    var s := Begin(args);
    run := Then(s, [], Opens(true));
    if args.ownPipe {
      run := Then(s, run, Opens(free));
    } else {
      run := Then(s, run, Advance);
    }
  }

  lemma PipesServe(s: Server) returns (run: seq<Event>)
    requires s.pc == Callback && s.listeners.main == Open && s.loops == Each(Unserved, Unserved, Unserved)
    ensures Legal(s, run)
    ensures
      var up := s.listeners.mirror == Open;
      After(s, run) == s.(pc := OpenTcp, reported := Some(up),
                          loops := Each(Accepting, if up then Accepting else Unserved, Unserved))
  {
    run := Then(s, [], Advance);
    run := Then(s, run, Advance);
    run := Then(s, run, Advance);
  }

  lemma {:induction false} Concat(s: Server, a: seq<Event>, b: seq<Event>)
    requires Legal(s, a) && Legal(After(s, a), b)
    ensures Legal(s, a + b) && After(s, a + b) == After(After(s, a), b)
    decreases |a|
  {
    if a == [] {
      assert a + b == b;
    } else {
      assert (a + b)[1..] == a[1..] + b;
      Concat(Apply(s, a[0]), a[1..], b);
    }
  }

  /** With its own pipe to be had, ServeEx serves it; the mirror if docker's pipe is another and free, of which it
      tells the callback; and TCP if that is on and to be had.  A mirror that is taken is no failure. */
  lemma ServesWhatThereIs(args: Args, free: bool) returns (run: seq<Event>)
    requires Usable(args)
    ensures Legal(Begin(args), run)
    ensures
      var s := After(Begin(args), run);
      && s.pc == Blocked && !s.failed
      && s.loops.main == Accepting && s.listeners.main == Open
      && (s.loops.mirror == Accepting <==> args.ownPipe && free) && s.reported == Some(args.ownPipe && free)
      && (s.loops.tcp == Accepting <==> args.useTcp)
  {
    run := PipesOpen(args, free);
    var more := PipesServe(After(Begin(args), run));
    Concat(Begin(args), run, more);
    run := run + more;
    if args.useTcp {
      run := Then(Begin(args), run, Opens(true));
    } else {
      run := Then(Begin(args), run, Advance);
    }
  }

  /** A client that comes then gets its bridge, and the next one can come. */
  lemma ClientGetsItsBridge(s: Server, w: Which) returns (run: seq<Event>)
    requires s.loops.Of(w) == Accepting && s.listeners.Of(w) == Open
    ensures Legal(s, run)
    ensures
      var t := After(s, run);
      t.bridges == s.bridges + 1 && t.accepted == s.accepted + 1 && Enabled(t, Accept(w))
  {
    run := Then(s, [], Accept(w));
    run := Then(s, run, Launch(w));
  }

  /** A failing Accept while it serves is tried again, not taken for the end. */
  lemma FailedAcceptIsRetried(s: Server, w: Which)
    requires s.loops.Of(w) == Accepting && s.listeners.Of(w) == Open && !s.cancelled
    ensures Enabled(s, AcceptFails(w)) && Enabled(Apply(s, AcceptFails(w)), Accept(w))
  {
  }

  /** It fails at once for a TCP port out of range, and when its own pipe or the TCP address is not to be had; only
      then. */
  lemma FailsExactlyWhen(args: Args, s: Server, e: Event)
    ensures Begin(args).failed <==> args.useTcp && !args.portOk
    ensures Begin(args).failed ==> Begin(args).pc == Returned
    ensures Enabled(s, e) && !s.failed ==>
              (Apply(s, e).failed <==> e == Opens(false) && s.pc != OpenMirror)
  {
  }

  /** Once cancelled, what it serves can be closed at once, and then its loop ends at the next failing Accept. */
  lemma CancelClosesAtOnce(s: Server, w: Which)
    requires s.loops.Of(w) == Accepting && s.cancelled
    ensures Enabled(s, CloseOnCancel(w))
    ensures
      var t := Apply(s, CloseOnCancel(w));
      && t.listeners.Of(w) != Open && !Enabled(t, Accept(w))
      && Enabled(t, AcceptFails(w)) && Apply(t, AcceptFails(w)).loops.Of(w) == Ended
  {
  }

  lemma StopsServing(s: Server) returns (run: seq<Event>)
    requires s.pc == Blocked
    ensures Legal(s, run)
    ensures
      var t := After(s, run);
      && t.pc == Leaving(3) && t.listeners.tcp != Open && t.listeners.mirror != Open
      && t.cancelled && t.requested && t.failed == s.failed
  {
    run := Then(s, [], Cancel);
    run := Then(s, run, Advance);
    run := Then(s, run, Advance);
    run := Then(s, run, Advance);
    run := Then(s, run, Advance);
  }

  /** Cancelled, it returns, with everything closed. */
  lemma CancelEndsIt(s: Server) returns (run: seq<Event>)
    requires s.pc == Blocked
    ensures Legal(s, run)
    ensures
      var t := After(s, run);
      && t.pc == Returned && t.failed == s.failed
      && t.listeners.main != Open && t.listeners.mirror != Open && t.listeners.tcp != Open
  {
    run := StopsServing(s);
    run := Then(s, run, Advance);
  }
}
