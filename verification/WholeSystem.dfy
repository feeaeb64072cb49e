/** The commands of Lifecycle at work on the store of StateStore: any number of processes, each crashing anywhere,
    whose transactions are the commands' calls and whose lock-free reads find whatever state.json holds.  Every run
    is a run of Lifecycle, so what is proved there holds of state.json. */
module WholeSystem {
  import opened StateFile
  import S = StateStore
  import P = StateStoreProofs
  import L = Lifecycle
  import LP = LifecycleProofs

  /** The state in `world` is not used: View takes it from the store. */
  datatype Sys = Sys(store: S.Store, world: L.World)

  ghost const INIT: Sys := Sys(S.INIT, L.INIT)

  /** The world as a reader of state.json sees it now. */
  ghost function View(s: Sys): L.World {
    if S.Load(s.store).Some? then s.world.(state := S.Load(s.store).value) else s.world
  }

  datatype Event =
    | Disk(d: S.Event)                 // the steps of WithLock, Load and Save that only touch the store
    | Edit(p: nat, call: L.Call)       // a holder makes its edit
    | Commit(p: nat)                   // it renames the new state into place
    | Fail(p: nat)                     // or it cannot save it
    | Crash(p: nat)
    | Outside(l: L.Event)              // what commands do without the lock

  ghost predicate OnlyDisk(e: S.Event) {
    !e.RunEdit? && !e.Rename? && !e.SaveFail? && !e.Crash?
  }

  predicate WithoutLock(e: L.Event) {
    !e.Enter? && !e.Commit? && !e.Abort?
  }

  /** What an event does to the store. */
  ghost function StoreEvent(e: Event): Option<S.Event> {
    match e
    case Disk(d) => Some(d)
    case Edit(p, call) => Some(S.RunEdit(p, LP.EditOf(L.TxOf(call))))
    case Commit(p) => Some(S.Rename(p))
    case Fail(p) => Some(S.SaveFail(p))
    case Crash(p) => Some(S.Crash(p))
    case Outside(_) => None
  }

  ghost predicate Enabled(s: Sys, e: Event) {
    && (StoreEvent(e).Some? ==> S.Enabled(s.store, StoreEvent(e).value))
    && match e
       case Disk(d) => OnlyDisk(d)
       case Edit(_, call) => L.Ready(View(s), call)
       case Outside(l) => WithoutLock(l) && L.Enabled(View(s), l)
       case _ => true
  }

  /** A holder between its edit and the end of its save. */
  ghost predicate Saving(pc: S.Pc) {
    pc.Opening? || pc.Filling? || pc.Renaming?
  }

  ghost function Apply(s: Sys, e: Event): Sys
    requires Enabled(s, e)
  {
    var store := if StoreEvent(e).Some? then S.Apply(s.store, StoreEvent(e).value) else s.store;
    var world := match e
      case Disk(_) => s.world
      case Edit(p, call) =>
        var loaded := S.At(s.store, p).base;
        if L.Edit(L.TxOf(call), loaded).Some? then L.Entered(View(s).(state := loaded), call) else s.world
      case Commit(_) => L.Committed(View(s))
      case Fail(_) => L.Aborted(View(s))
      case Crash(p) => if Saving(S.At(s.store, p)) then L.Aborted(View(s)) else s.world
      case Outside(l) => L.Apply(View(s), l);
    Sys(store, world)
  }

  ghost predicate Legal(s: Sys, run: seq<Event>)
    decreases |run|
  {
    run == [] || (Enabled(s, run[0]) && Legal(Apply(s, run[0]), run[1..]))
  }

  ghost function After(s: Sys, run: seq<Event>): Sys
    requires Legal(s, run)
    decreases |run|
  {
    if run == [] then s else After(Apply(s, run[0]), run[1..])
  }

  /** Live holders finish within the expiry age, and a stale lock is removed in one step with its stat. */
  ghost predicate Timely(s: Sys, run: seq<Event>)
    requires Legal(s, run)
    decreases |run|
  {
    run == [] ||
    (&& (StoreEvent(run[0]).Some? ==>
           P.ShortHolders(s.store, StoreEvent(run[0]).value) && P.AtomicExpiry(s.store, StoreEvent(run[0]).value))
     && Timely(Apply(s, run[0]), run[1..]))
  }

  // ---------- Simulation ----------

  /** The transaction under way is that of the one process that is saving. */
  ghost predicate Linked(s: Sys) {
    && (forall p :: Saving(S.At(s.store, p)) ==>
          && s.world.pending.Some?
          && S.At(s.store, p).edit == LP.EditOf(L.TxOf(s.world.pending.value)))
    && (s.world.pending.Some? ==> exists p :: Saving(S.At(s.store, p)))
  }

  ghost predicate Sim(s: Sys) {
    P.StaleMeansDead(s.store) && P.Serial(s.store) && P.Tickets(s.store) && Linked(s)
  }

  /** The event of Lifecycle an event is, if it is one. */
  ghost function Move(s: Sys, e: Event): Option<L.Event> {
    match e
    case Disk(_) => None
    case Edit(p, call) =>
      if S.At(s.store, p).Editing? && L.Edit(L.TxOf(call), S.At(s.store, p).base).Some? then Some(L.Enter(call))
      else None
    case Commit(_) => Some(L.Commit)
    case Fail(_) => Some(L.Abort)
    case Crash(p) => if Saving(S.At(s.store, p)) then Some(L.Abort) else None
    case Outside(l) => Some(l)
  }

  /** Nobody else is saving beside a process in the critical section. */
  lemma Alone(s: S.Store, p: nat, q: nat)
    requires P.Protected(s) && S.Critical(S.At(s, p)) && Saving(S.At(s, q))
    ensures p == q
  {
  }

  lemma SameView(s: Sys, t: Sys)
    requires t.store.file == s.store.file && P.Serial(s.store)
    requires t.world == s.world || t.world == View(s)
    ensures View(t) == View(s)
  {
  }

  lemma StoreKeeps(s: S.Store, e: S.Event)
    requires P.StaleMeansDead(s) && P.Serial(s) && P.Tickets(s)
    requires S.Enabled(s, e) && P.ShortHolders(s, e) && P.AtomicExpiry(s, e)
    ensures P.StaleMeansDead(S.Apply(s, e)) && P.Serial(S.Apply(s, e)) && P.Tickets(S.Apply(s, e))
  {
    P.TimelyStep(s, e);
    P.StepKeepsSerial(s, e);
    P.StepKeepsTickets(s, e);
  }

  lemma DiskKeepsSaving(s: S.Store, d: S.Event, p: nat)
    requires OnlyDisk(d) && S.Enabled(s, d)
    ensures
      var t := S.Apply(s, d);
      && (Saving(S.At(t, p)) <==> Saving(S.At(s, p)))
      && (Saving(S.At(t, p)) ==> S.At(t, p).edit == S.At(s, p).edit)
      && t.file == s.file
  {
    assert d.Tick? || p != d.p ==> S.At(S.Apply(s, d), p) == S.At(s, p);
  }

  lemma DiskSimulates(s: Sys, d: S.Event)
    requires Sim(s) && Enabled(s, Disk(d))
    ensures View(Apply(s, Disk(d))) == View(s) && Linked(Apply(s, Disk(d)))
  {
    var t := Apply(s, Disk(d));
    forall p
      ensures Saving(S.At(t.store, p)) <==> Saving(S.At(s.store, p))
      ensures Saving(S.At(t.store, p)) ==> S.At(t.store, p).edit == S.At(s.store, p).edit
    {
      DiskKeepsSaving(s.store, d, p);
    }
    DiskKeepsSaving(s.store, d, 0);
    if s.world.pending.Some? {
      var p :| Saving(S.At(s.store, p));
      assert Saving(S.At(t.store, p));
    }
  }

  lemma EditSimulates(s: Sys, p: nat, call: L.Call)
    requires Sim(s) && Enabled(s, Edit(p, call))
    ensures
      var t, move := Apply(s, Edit(p, call)), Move(s, Edit(p, call));
      && Linked(t)
      && (if move.Some? then L.Enabled(View(s), move.value) && L.Apply(View(s), move.value) == View(t)
          else View(t) == View(s))
  {
    var t := Apply(s, Edit(p, call));
    assert P.HolderUpToDate(S.At(s.store, p), P.Replay(s.store.log).value);
    assert View(s).state == S.At(s.store, p).base;
    if s.world.pending.Some? {
      var q :| Saving(S.At(s.store, q));
      Alone(s.store, p, q);
    }
    forall q
      ensures q != p ==> !Saving(S.At(t.store, q))
    {
      assert q != p ==> S.At(t.store, q) == S.At(s.store, q);
      if q != p && Saving(S.At(s.store, q)) {
        Alone(s.store, p, q);
      }
    }
    if L.Edit(L.TxOf(call), S.At(s.store, p).base).Some? {
      assert Saving(S.At(t.store, p));
    }
  }

  lemma CommitSimulates(s: Sys, p: nat)
    requires Sim(s) && Enabled(s, Commit(p))
    ensures
      var t := Apply(s, Commit(p));
      Linked(t) && L.Enabled(View(s), L.Commit) && L.Apply(View(s), L.Commit) == View(t)
  {
    var t := Apply(s, Commit(p));
    assert Saving(S.At(s.store, p));
    assert P.HolderUpToDate(S.At(s.store, p), P.Replay(s.store.log).value);
    assert L.Edit(L.TxOf(s.world.pending.value), View(s).state) == Some(S.At(s.store, p).next);
    NobodySaves(s, p, t);
  }

  lemma NobodySaves(s: Sys, p: nat, t: Sys)
    requires Sim(s) && Saving(S.At(s.store, p)) && !Saving(S.At(t.store, p))
    requires forall q :: q != p ==> S.At(t.store, q) == S.At(s.store, q)
    ensures forall q :: !Saving(S.At(t.store, q))
  {
    forall q
      ensures !Saving(S.At(t.store, q))
    {
      if q != p && Saving(S.At(s.store, q)) {
        Alone(s.store, p, q);
      }
    }
  }

  lemma FailSimulates(s: Sys, e: Event)
    requires Sim(s) && Enabled(s, e) && (e.Fail? || (e.Crash? && Saving(S.At(s.store, e.p))))
    ensures
      var t := Apply(s, e);
      Linked(t) && L.Enabled(View(s), L.Abort) && L.Apply(View(s), L.Abort) == View(t)
  {
    var t := Apply(s, e);
    assert Saving(S.At(s.store, e.p));
    NobodySaves(s, e.p, t);
  }

  lemma CrashSimulates(s: Sys, p: nat)
    requires Sim(s) && Enabled(s, Crash(p)) && !Saving(S.At(s.store, p))
    ensures Linked(Apply(s, Crash(p))) && View(Apply(s, Crash(p))) == View(s)
  {
    var t := Apply(s, Crash(p));
    assert forall q :: q != p ==> S.At(t.store, q) == S.At(s.store, q);
    if s.world.pending.Some? {
      var q :| Saving(S.At(s.store, q));
      assert Saving(S.At(t.store, q));
    }
  }

  lemma OutsideSimulates(s: Sys, l: L.Event)
    requires Sim(s) && Enabled(s, Outside(l))
    ensures
      var t := Apply(s, Outside(l));
      Linked(t) && L.Enabled(View(s), l) && L.Apply(View(s), l) == View(t)
  {
    var t := Apply(s, Outside(l));
    assert t.world.pending == s.world.pending && t.world.state == View(s).state;
  }

  lemma StepSimulates(s: Sys, e: Event)
    requires Sim(s) && Enabled(s, e)
    ensures
      var t, move := Apply(s, e), Move(s, e);
      && Linked(t)
      && (if move.Some? then L.Enabled(View(s), move.value) && L.Apply(View(s), move.value) == View(t)
          else View(t) == View(s))
  {
    match e
    case Disk(d) => DiskSimulates(s, d);
    case Edit(p, call) => EditSimulates(s, p, call);
    case Commit(p) => CommitSimulates(s, p);
    case Fail(_) => FailSimulates(s, e);
    case Crash(p) =>
      if Saving(S.At(s.store, p)) {
        FailSimulates(s, e);
      } else {
        CrashSimulates(s, p);
      }
    case Outside(l) => OutsideSimulates(s, l);
  }

  lemma {:induction false} RunSimulates(s: Sys, run: seq<Event>) returns (moves: seq<L.Event>)
    requires Sim(s) && Legal(s, run) && Timely(s, run)
    ensures Sim(After(s, run))
    ensures L.Legal(View(s), moves) && L.After(View(s), moves) == View(After(s, run))
    decreases |run|
  {
    if run == [] {
      return [];
    }
    var e := run[0];
    var t, move := Apply(s, e), Move(s, e);
    StepSimulates(s, e);
    if StoreEvent(e).Some? {
      StoreKeeps(s.store, StoreEvent(e).value);
    }
    moves := RunSimulates(t, run[1..]);
    if move.Some? {
      var rest := moves;
      moves := [move.value] + rest;
      assert moves[1..] == rest;
    }
  }

  /** Every run of the whole system, crashes included, is a run of the commands; state.json can always be read, and
      holds the state of that run. */
  lemma EveryRunIsALifecycleRun(run: seq<Event>) returns (moves: seq<L.Event>)
    requires Legal(INIT, run) && Timely(INIT, run)
    ensures
      var s := After(INIT, run);
      && L.Legal(L.INIT, moves) && L.After(L.INIT, moves) == View(s)
      && S.Load(s.store) == Some(View(s).state)
  {
    assert P.StaleMeansDead(S.INIT) && P.Serial(S.INIT) && P.Tickets(S.INIT) && Linked(INIT);
    assert View(INIT) == L.INIT;
    moves := RunSimulates(INIT, run);
  }

  /** So at every moment: the mirror flag in state.json is the recorded daemon's own report, agrees with it as
      MirrorAgreesExactlyWhen says, and an install found there has a valid architecture. */
  lemma StateJsonIsTrue(run: seq<Event>)
    requires Legal(INIT, run) && Timely(INIT, run)
    ensures
      var s := After(INIT, run);
      var loaded := S.Load(s.store);
      && loaded.Some?
      && var d := loaded.value.daemon;
         var w := s.world;
         && (d.mirror ==> d.pid in w.reports && w.reports[d.pid])
         && (d.pid in w.reports && !LP.Reporting(w, d.pid) ==>
               (d.mirror == w.reports[d.pid] <==>
                  (d.pid !in w.missed && d.pid !in w.dropped) || !w.reports[d.pid]))
         && (d.pid != 0 ==> d.pid in w.recorded && w.recorded[d.pid] == d.startedAt)
         && (loaded.value.installed ==> loaded.value.arch in {"amd64", "arm64"})
  {
    var moves := EveryRunIsALifecycleRun(run);
    LP.MirrorIsTheDaemonsOwnReport(moves);
    LP.MirrorAgreesExactlyWhen(moves);
    LP.RunKeeps(L.INIT, moves);
  }

  /** And a start that is about to rename its new state into place never overwrites the record of a live daemon. */
  lemma SavedStartsOverwriteNobody(run: seq<Event>, p: nat)
    requires Legal(INIT, run) && Timely(INIT, run)
    requires
      var s := After(INIT, run);
      S.At(s.store, p).Renaming? && s.world.pending.Some? && s.world.pending.value.Launch?
    ensures
      var s := After(INIT, run);
      && S.Load(s.store).Some?
      && (S.Load(s.store).value.daemon.pid == 0 || S.Load(s.store).value.daemon.pid !in s.world.live)
  {
    var moves := EveryRunIsALifecycleRun(run);
    LP.StartNeverOverwritesLive(moves);
  }

  /** Every commit is seen by the next reader as what its call is to leave: after an uninstall there is nothing. */
  lemma ReadersSeeWhatIsLeft(run: seq<Event>, p: nat)
    requires Legal(INIT, run) && Timely(INIT, run) && Enabled(After(INIT, run), Commit(p))
    ensures
      var s := After(INIT, run);
      var t := Apply(s, Commit(p));
      && s.world.pending.Some? && S.Load(s.store).Some?
      && S.Load(t.store) == Some(LP.Left(s.world.pending.value, S.Load(s.store).value))
  {
    var s := After(INIT, run);
    assert P.StaleMeansDead(S.INIT) && P.Serial(S.INIT) && P.Tickets(S.INIT) && Linked(INIT);
    var moves := RunSimulates(INIT, run);
    assert View(INIT) == L.INIT;
    CommitSimulates(s, p);
    LP.CallsLeaveWhatTheyShould(moves);
    StoreKeeps(s.store, S.Rename(p));
  }

  // ---------- The system does something ----------

  lemma {:induction false} Extend(s: Sys, run: seq<Event>, e: Event)
    requires Legal(s, run) && Timely(s, run) && Enabled(After(s, run), e)
    requires StoreEvent(e).Some? ==> !StoreEvent(e).value.Tick? && !StoreEvent(e).value.Expire?
    ensures Legal(s, run + [e]) && Timely(s, run + [e])
    ensures After(s, run + [e]) == Apply(After(s, run), e)
    decreases |run|
  {
    if run == [] {
      assert [e][1..] == [];
    } else {
      Extend(Apply(s, run[0]), run[1..], e);
      assert (run + [e])[1..] == run[1..] + [e];
    }
  }

  lemma Then(run: seq<Event>, e: Event) returns (longer: seq<Event>)
    requires Legal(INIT, run) && Timely(INIT, run) && Enabled(After(INIT, run), e)
    requires StoreEvent(e).Some? ==> !StoreEvent(e).value.Tick? && !StoreEvent(e).value.Expire?
    ensures Legal(INIT, longer) && Timely(INIT, longer) && After(INIT, longer) == Apply(After(INIT, run), e)
  {
    Extend(INIT, run, e);
    longer := run + [e];
  }

  const INSTALLED := ZERO.(installed := true, arch := "amd64")

  lemma SetupTakesTheLock() returns (run: seq<Event>)
    ensures Legal(INIT, run) && Timely(INIT, run)
    ensures
      var s := After(INIT, run);
      S.At(s.store, 0).Loading? && s.store.file.Absent? && s.world == L.INIT
  {
    run := Then([], Disk(S.Begin(0)));
    run := Then(run, Disk(S.Create(0)));
  }

  lemma SetupMakesItsEdit() returns (run: seq<Event>)
    ensures Legal(INIT, run) && Timely(INIT, run)
    ensures
      var s := After(INIT, run);
      && S.At(s.store, 0).Opening? && S.At(s.store, 0).next == INSTALLED
      && s.world == L.INIT.(pending := Some(L.SetupCommit("amd64", "", NO_SNAPSHOT))) && s.store.file.Absent?
  {
    var call := L.SetupCommit("amd64", "", NO_SNAPSHOT);
    run := SetupTakesTheLock();
    run := Then(run, Disk(S.LoadOk(0)));
    assert L.Ready(View(After(INIT, run)), call);
    run := Then(run, Edit(0, call));
  }

  lemma SetupFillsTheFile() returns (run: seq<Event>)
    ensures Legal(INIT, run) && Timely(INIT, run)
    ensures
      var s := After(INIT, run);
      && S.At(s.store, 0).Renaming? && s.store.tmp == S.Whole(INSTALLED)
      && s.world == L.INIT.(pending := Some(L.SetupCommit("amd64", "", NO_SNAPSHOT))) && s.store.file.Absent?
  {
    run := SetupMakesItsEdit();
    run := Then(run, Disk(S.OpenTmp(0)));
    run := Then(run, Disk(S.FillTmp(0)));
  }

  lemma SetupCommits() returns (run: seq<Event>)
    ensures Legal(INIT, run) && Timely(INIT, run)
    ensures
      var s := After(INIT, run);
      S.At(s.store, 0).Releasing? && s.store.file == S.Whole(INSTALLED) && s.world.pending.None?
  {
    run := SetupFillsTheFile();
    assert View(After(INIT, run)).state == ZERO;
    run := Then(run, Commit(0));
  }

  /** The first setup: its transaction runs from the lock to the renamed file. */
  lemma SetupReachesTheDisk() returns (run: seq<Event>)
    ensures Legal(INIT, run) && Timely(INIT, run)
    ensures
      var s := After(INIT, run);
      && S.Load(s.store) == Some(INSTALLED)
      && S.At(s.store, 0).Idle? && s.store.lock.None? && s.world.pending.None?
  {
    run := SetupCommits();
    run := Then(run, Disk(S.Release(0)));
  }
}
