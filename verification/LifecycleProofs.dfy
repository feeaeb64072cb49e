/** What every interleaving of the lifecycle commands keeps. */
module LifecycleProofs {
  import opened StateFile
  import opened Lifecycle
  import StateStore
  import StateStoreProofs

  ghost predicate ArchOk(s: State) {
    s.installed ==> ValidArch(s.arch)
  }

  ghost predicate Pids(w: World) {
    && (w.state.daemon.pid == 0 ==> w.state.daemon == NO_DAEMON)
    && 0 !in w.born && w.live <= w.born && w.reports.Keys <= w.born && w.recorded.Keys <= w.born
    && (w.state.daemon.pid != 0 ==>
          && w.state.daemon.pid in w.recorded
          && w.recorded[w.state.daemon.pid] == w.state.daemon.startedAt)
  }

  /** The transaction under way can be committed; a start has a child nobody knows of, over no live daemon, and
      what a stop or a failed warm-up is about to erase is the record of the daemon it killed. */
  ghost predicate UnderWay(w: World) {
    w.pending.Some? ==>
      && Edit(TxOf(w.pending.value), w.state).Some?
      && match w.pending.value
         case SetupCommit(arch, _, _) => ValidArch(arch)
         case Launch(pid, _, _, _) => pid in w.born && pid !in w.recorded && w.state.daemon.pid !in w.live
         case WarmFail(_) | StopDaemon(_) => w.state.daemon.pid !in w.live
         case DoctorClear(pid, at) => pid in w.recorded && w.recorded[pid] == at
         case SaveMirror(pid, served) => pid in w.recorded && pid in w.reports && w.reports[pid] == served
         case _ => true
  }

  ghost predicate Jobs(w: World) {
    && (forall p, at :: DoctorRead(p, at) in w.jobs ==> p in w.recorded && w.recorded[p] == at)
    && (forall p, b :: MirrorCheck(p, b) in w.jobs ==> p in w.reports && w.reports[p] == b)
    && (forall p, b :: MirrorRecord(p, b) in w.jobs ==> p in w.recorded && p in w.reports && w.reports[p] == b)
  }

  /** A child's report is still on its way to the record. */
  ghost predicate Reporting(w: World, p: nat) {
    && p in w.reports
    && (|| MirrorCheck(p, w.reports[p]) in w.jobs
        || MirrorRecord(p, w.reports[p]) in w.jobs
        || w.pending == Some(SaveMirror(p, w.reports[p])))
  }

  /** The mirror flag is the recorded daemon's own report once that was saved, and false before. */
  ghost predicate Mirror(w: World) {
    var d := w.state.daemon;
    && (d.pid == 0 ==> !d.mirror)
    && (d.pid in w.settled ==> d.pid in w.reports && d.mirror == w.reports[d.pid])
    && (d.pid !in w.settled ==> !d.mirror)
    && (d.pid != 0 && d.pid in w.reports ==>
          d.pid in w.missed || d.pid in w.dropped || d.pid in w.settled || Reporting(w, d.pid))
    && (w.pending.Some? && w.pending.value.Launch? && w.pending.value.pid in w.reports ==>
          w.pending.value.pid in w.missed || Reporting(w, w.pending.value.pid))
  }

  /** Nothing has become of a child's report yet. */
  ghost predicate Open(w: World, p: nat) {
    p !in w.missed && p !in w.dropped && p !in w.settled
  }

  /** Each child's report is dealt with once. */
  ghost predicate ReportsOnce(w: World) {
    && w.settled <= w.reports.Keys && w.missed <= w.reports.Keys && w.dropped <= w.reports.Keys
    && w.settled <= w.recorded.Keys && w.dropped <= w.recorded.Keys
    && w.settled !! w.missed && w.settled !! w.dropped
    && (forall p, b :: MirrorRecord(p, b) in w.jobs ==> Open(w, p) && w.pending != Some(SaveMirror(p, b)))
    && (forall p, b :: MirrorCheck(p, b) in w.jobs ==>
          Open(w, p) && MirrorRecord(p, b) !in w.jobs && w.pending != Some(SaveMirror(p, b)))
    && (w.pending.Some? && w.pending.value.SaveMirror? ==> Open(w, w.pending.value.pid))
  }

  ghost predicate Inv(w: World) {
    ArchOk(w.state) && Pids(w) && UnderWay(w) && Jobs(w) && Mirror(w) && ReportsOnce(w)
  }

  lemma EnterKeepsPids(w: World, call: Call)
    requires Inv(w) && Enabled(w, Enter(call))
    ensures ArchOk(Apply(w, Enter(call)).state) && Pids(Apply(w, Enter(call))) && UnderWay(Apply(w, Enter(call)))
  {
  }

  lemma CommitKeepsPids(w: World)
    requires Inv(w) && Enabled(w, Commit)
    ensures ArchOk(Apply(w, Commit).state) && Pids(Apply(w, Commit)) && UnderWay(Apply(w, Commit))
  {
  }

  lemma GiveUpKeepsPids(w: World, call: Call)
    requires Inv(w) && Enabled(w, GiveUp(call))
    ensures ArchOk(Apply(w, GiveUp(call)).state) && Pids(Apply(w, GiveUp(call))) && UnderWay(Apply(w, GiveUp(call)))
  {
  }

  lemma StepKeepsPids(w: World, e: Event)
    requires Inv(w) && Enabled(w, e)
    ensures ArchOk(Apply(w, e).state) && Pids(Apply(w, e)) && UnderWay(Apply(w, e))
  {
    match e
    case Enter(call) => EnterKeepsPids(w, call);
    case Commit => CommitKeepsPids(w);
    case GiveUp(call) => GiveUpKeepsPids(w, call);
    case _ =>
  }

  lemma EnterKeepsJobs(w: World, call: Call)
    requires Inv(w) && Enabled(w, Enter(call))
    ensures Jobs(Apply(w, Enter(call)))
  {
  }

  lemma CommitKeepsJobs(w: World)
    requires Inv(w) && Enabled(w, Commit)
    ensures Jobs(Apply(w, Commit))
  {
  }

  lemma GiveUpKeepsJobs(w: World, call: Call)
    requires Inv(w) && Enabled(w, GiveUp(call))
    ensures Jobs(Apply(w, GiveUp(call)))
  {
  }

  lemma StepKeepsJobs(w: World, e: Event)
    requires Inv(w) && Enabled(w, e)
    ensures Jobs(Apply(w, e))
  {
    match e
    case Enter(call) => EnterKeepsJobs(w, call);
    case Commit => CommitKeepsJobs(w);
    case GiveUp(call) => GiveUpKeepsJobs(w, call);
    case _ =>
  }

  lemma EnterKeepsMirror(w: World, call: Call)
    requires Inv(w) && Enabled(w, Enter(call))
    ensures Mirror(Apply(w, Enter(call)))
  {
  }

  lemma CommitKeepsMirror(w: World)
    requires Inv(w) && Enabled(w, Commit)
    ensures Mirror(Apply(w, Commit))
  {
  }

  lemma GiveUpKeepsMirror(w: World, call: Call)
    requires Inv(w) && Enabled(w, GiveUp(call))
    ensures Mirror(Apply(w, GiveUp(call)))
  {
  }

  lemma StepKeepsMirror(w: World, e: Event)
    requires Inv(w) && Enabled(w, e)
    ensures Mirror(Apply(w, e))
  {
    match e
    case Enter(call) => EnterKeepsMirror(w, call);
    case Commit => CommitKeepsMirror(w);
    case GiveUp(call) => GiveUpKeepsMirror(w, call);
    case _ =>
  }

  lemma EnterKeepsReportsOnce(w: World, call: Call)
    requires Inv(w) && Enabled(w, Enter(call))
    ensures ReportsOnce(Apply(w, Enter(call)))
  {
  }

  lemma CommitKeepsReportsOnce(w: World)
    requires Inv(w) && Enabled(w, Commit)
    ensures ReportsOnce(Apply(w, Commit))
  {
  }

  lemma GiveUpKeepsReportsOnce(w: World, call: Call)
    requires Inv(w) && Enabled(w, GiveUp(call))
    ensures ReportsOnce(Apply(w, GiveUp(call)))
  {
  }

  lemma StepKeepsReportsOnce(w: World, e: Event)
    requires Inv(w) && Enabled(w, e)
    ensures ReportsOnce(Apply(w, e))
  {
    match e
    case Enter(call) => EnterKeepsReportsOnce(w, call);
    case Commit => CommitKeepsReportsOnce(w);
    case GiveUp(call) => GiveUpKeepsReportsOnce(w, call);
    case _ =>
  }

  lemma StepKeeps(w: World, e: Event)
    requires Inv(w) && Enabled(w, e)
    ensures Inv(Apply(w, e))
  {
    StepKeepsPids(w, e);
    StepKeepsJobs(w, e);
    StepKeepsMirror(w, e);
    StepKeepsReportsOnce(w, e);
  }

  lemma {:induction false} RunKeeps(w: World, run: seq<Event>)
    requires Inv(w) && Legal(w, run)
    ensures Inv(After(w, run))
    decreases |run|
  {
    if run != [] {
      StepKeeps(w, run[0]);
      RunKeeps(Apply(w, run[0]), run[1..]);
    }
  }

  lemma InitInv()
    ensures Inv(INIT)
  {
  }

  // ---------- What the invariant is for ----------

  /** Mirror true means the recorded daemon itself reported a served mirror; an install has a valid arch. */
  lemma MirrorIsTheDaemonsOwnReport(run: seq<Event>)
    requires Legal(INIT, run)
    ensures
      var w := After(INIT, run);
      var d := w.state.daemon;
      && (d.mirror ==> d.pid in w.reports && w.reports[d.pid])
      && (w.state.installed ==> w.state.arch in {"amd64", "arm64"})
  {
    RunKeeps(INIT, run);
  }

  /** Once the recorded daemon's report is dealt with, the flag agrees with it if and only if the daemon's
      lock-free look found itself recorded and its save then went through, or there was no mirror to record. */
  lemma MirrorAgreesExactlyWhen(run: seq<Event>)
    requires Legal(INIT, run)
    ensures
      var w := After(INIT, run);
      var d := w.state.daemon;
      d.pid in w.reports && !Reporting(w, d.pid) ==>
        (d.mirror == w.reports[d.pid] <==> (d.pid !in w.missed && d.pid !in w.dropped) || !w.reports[d.pid])
  {
    RunKeeps(INIT, run);
  }

  // ---------- What each call is for ----------

  /** What a call is to leave of the state before it. */
  function Left(call: Call, s: State): State {
    var noDaemon := Daemon(0, "", false);
    match call
    case SetupReset | Uninstall => State(false, "", "", noDaemon, Snapshot("", []))
    case SetupCommit(arch, at, snapshot) => State(true, arch, at, s.daemon, snapshot)
    case Restore(snapshot) => State(s.installed, s.arch, s.setupAt, s.daemon, snapshot)
    case Reconcile => State(false, s.arch, s.setupAt, s.daemon, s.snapshot)
    case Launch(pid, at, _, _) => State(s.installed, s.arch, s.setupAt, Daemon(pid, at, false), s.snapshot)
    case Timeout(_) | WarmFail(_) | StopDaemon(_) => State(s.installed, s.arch, s.setupAt, noDaemon, s.snapshot)
    case DoctorClear(pid, at) =>
      if s.daemon.pid == pid then State(s.installed, s.arch, s.setupAt, noDaemon, s.snapshot) else s
    case SaveMirror(pid, served) =>
      if s.daemon.pid == pid
      then State(s.installed, s.arch, s.setupAt, Daemon(pid, s.daemon.startedAt, served), s.snapshot)
      else s
  }

  /** Over every run: a call that is committed leaves that, one that is aborted leaves the state alone; an uninstall
      leaves nothing at all. */
  lemma CallsLeaveWhatTheyShould(run: seq<Event>)
    requires Legal(INIT, run) && After(INIT, run).pending.Some?
    ensures
      var w := After(INIT, run);
      var call := w.pending.value;
      && Committed(w).state == Left(call, w.state) && Committed(w).pending.None?
      && Aborted(w).state == w.state && Aborted(w).pending.None?
      && Committed(w).live == Aborted(w).live == w.live
      && (call.Launch? ==> AwaitPipe(call.pid) in Committed(w).jobs)
      && (call.SaveMirror? ==> call.pid in Aborted(w).dropped)
  {
    RunKeeps(INIT, run);
  }

  /** A command that has come to a call makes its edit, unless it is a start without an install, over a foreground
      that answers, or over a live daemon, or a stop without a live daemon.  Only a start brings a process to life,
      and only a stop or a failed warm-up kills one: the recorded daemon. */
  lemma CallsAreRefusedExactlyWhen(w: World, call: Call)
    requires Inv(w) && w.pending.None? && Ready(w, call)
    ensures Enabled(w, Enter(call)) <==>
              match call
              case Launch(_, _, pipeAlive, _) =>
                w.state.installed && (if w.state.daemon.pid == 0 then !pipeAlive else w.state.daemon.pid !in w.live)
              case StopDaemon(_) => w.state.daemon.pid in w.live
              case _ => true
    ensures Entered(w, call).state == w.state && Entered(w, call).pending == Some(call)
    ensures Entered(w, call).live ==
              match call
              case Launch(pid, _, _, _) => w.live + {pid}
              case WarmFail(_) | StopDaemon(_) => w.live - {w.state.daemon.pid}
              case _ => w.live
  {
  }

  lemma {:induction false} Snoc(w: World, run: seq<Event>, e: Event)
    ensures Legal(w, run + [e]) <==> Legal(w, run) && Enabled(After(w, run), e)
    ensures Legal(w, run + [e]) ==> After(w, run + [e]) == Apply(After(w, run), e)
    decreases |run|
  {
    if run == [] {
      assert [e][1..] == [];
    } else if Enabled(w, run[0]) {
      Snoc(Apply(w, run[0]), run[1..], e);
      assert (run + [e])[1..] == run[1..] + [e];
    }
  }

  lemma Then(run: seq<Event>, e: Event) returns (longer: seq<Event>)
    requires Legal(INIT, run) && Enabled(After(INIT, run), e)
    ensures longer == run + [e] && Legal(INIT, longer)
    ensures After(INIT, longer) == Apply(After(INIT, run), e)
  {
    Snoc(INIT, run, e);
    longer := run + [e];
  }

  lemma Installed() returns (run: seq<Event>)
    ensures Legal(INIT, run) && After(INIT, run) == INIT.(state := ZERO.(installed := true, arch := "amd64"))
  {
    run := Then([], Enter(SetupCommit("amd64", "", NO_SNAPSHOT)));
    run := Then(run, Commit);
  }

  /** From any state with an install and no daemon: a child is spawned and recorded. */
  lemma Started(run: seq<Event>, pid: nat) returns (longer: seq<Event>)
    requires Legal(INIT, run) && pid != 0
    requires
      var w := After(INIT, run);
      && w.pending.None? && pid !in w.born
      && w.state.installed && (w.state.daemon.pid == 0 || w.state.daemon.pid !in w.live)
    ensures Legal(INIT, longer)
    ensures
      var w := After(INIT, run);
      After(INIT, longer) == w.(
        state := w.state.(daemon := Daemon(pid, "", false)), live := w.live + {pid}, born := w.born + {pid},
        jobs := w.jobs + {AwaitPipe(pid)}, recorded := w.recorded[pid := ""])
  {
    var w := After(INIT, run);
    longer := Then(run, Enter(Launch(pid, "", false, w.live)));
    longer := Then(longer, Commit);
    assert w.jobs - {} == w.jobs;
  }

  lemma DaemonServes() returns (run: seq<Event>)
    ensures Legal(INIT, run)
    ensures
      var w := After(INIT, run);
      && w.state == ZERO.(installed := true, arch := "amd64", daemon := Daemon(1, "", false))
      && w.live == {1} && w.pending.None? && w.born == {1}
      && MirrorRecord(1, true) in w.jobs && w.reports == map[1 := true] && w.missed == w.dropped == w.settled == {}
  {
    run := Installed();
    run := Started(run, 1);
    run := Then(run, PipeUp(1));
    run := Then(run, WarmOk(1));
    run := Then(run, Report(1, true));
    run := Then(run, CheckRecord(1, true));
  }

  /** A daemon comes up, is found recorded, and its mirror is saved. */
  lemma MirrorIsSaved() returns (run: seq<Event>)
    ensures Legal(INIT, run)
    ensures
      var w := After(INIT, run);
      && w.state == State(true, "amd64", "", Daemon(1, "", true), Snapshot("", [])) && w.live == {1}
      && w.pending.None?
  {
    run := DaemonServes();
    run := Then(run, Enter(SaveMirror(1, true)));
    run := Then(run, Commit);
  }

  /** And a stop ends it, with its record. */
  lemma DaemonComesUpAndIsStopped() returns (run: seq<Event>)
    ensures Legal(INIT, run)
    ensures
      var w := After(INIT, run);
      && w.state == State(true, "amd64", "", Daemon(0, "", false), Snapshot("", [])) && w.live == {}
      && w.pending.None?
  {
    run := MirrorIsSaved();
    run := Then(run, Enter(StopDaemon({1})));
    run := Then(run, Commit);
  }

  /** A child that reports before its parent has saved its pid finds another pid recorded and gives up: its
      served mirror is never recorded. */
  lemma EarlyReportIsLost() returns (run: seq<Event>)
    ensures Legal(INIT, run)
    ensures
      var w := After(INIT, run);
      && w.state.daemon == Daemon(1, "", false) && 1 in w.live && 1 in w.reports && w.reports[1]
      && !Reporting(w, 1) && 1 in w.missed
  {
    run := Installed();
    run := Then(run, Enter(Launch(1, "", false, {})));
    run := Then(run, Report(1, true));
    run := Then(run, CheckRecord(1, true));
    run := Then(run, Commit);
  }

  /** A child that finds itself recorded but then gets no lock loses its report as well. */
  lemma UnsavedReportIsLost() returns (run: seq<Event>)
    ensures Legal(INIT, run)
    ensures
      var w := After(INIT, run);
      && w.state.daemon == Daemon(1, "", false) && 1 in w.live && 1 in w.reports && w.reports[1]
      && !Reporting(w, 1) && 1 !in w.missed && 1 in w.dropped
  {
    run := Installed();
    run := Started(run, 1);
    run := Then(run, Report(1, true));
    run := Then(run, CheckRecord(1, true));
    run := Then(run, GiveUp(SaveMirror(1, true)));
  }

  lemma FirstChildDiesUnanswered() returns (run: seq<Event>)
    ensures Legal(INIT, run)
    ensures
      var w := After(INIT, run);
      && w.state == State(true, "amd64", "", Daemon(1, "", false), Snapshot("", [])) && w.live == {} && w.born == {1}
      && w.pending.None? && w.jobs == {AwaitPipe(1)} && w.recorded == map[1 := ""]
  {
    run := Installed();
    run := Started(run, 1);
    run := Then(run, Die(1));
  }

  /** Doctor finds the dead child's record, reads it, and clears it. */
  lemma DoctorClearsStaleRecord() returns (run: seq<Event>)
    ensures Legal(INIT, run)
    ensures
      var w := After(INIT, run);
      && w.state == State(true, "amd64", "", Daemon(0, "", false), Snapshot("", [])) && w.pending.None?
      && w.jobs == {AwaitPipe(1)}
  {
    run := FirstChildDiesUnanswered();
    run := Then(run, DoctorLook);
    run := Then(run, Enter(DoctorClear(1, "")));
    run := Then(run, Commit);
  }

  /** Two starts: the first child dies unanswered, the second is recorded, then the first start's timeout clears
      the record of the second, which goes on living. */
  lemma TimeoutDisownsAnothersDaemon() returns (run: seq<Event>)
    ensures Legal(INIT, run)
    ensures
      var w := After(INIT, run);
      w.state.daemon == NO_DAEMON && 2 in w.live && 2 in w.recorded
  {
    run := FirstChildDiesUnanswered();
    run := Started(run, 2);
    run := Then(run, Enter(Timeout(1)));
    run := Then(run, Commit);
  }

  /** Start records a new pid only over none or over a dead one, whatever happened while it held the lock. */
  lemma StartNeverOverwritesLive(run: seq<Event>)
    requires Legal(INIT, run) && After(INIT, run).pending.Some? && After(INIT, run).pending.value.Launch?
    ensures
      var w := After(INIT, run);
      && Enabled(w, Commit) && Apply(w, Commit).state.daemon.pid == w.pending.value.pid
      && (w.state.daemon.pid == 0 || w.state.daemon.pid !in w.live)
  {
    RunKeeps(INIT, run);
  }

  /** Doctor's repair either changes nothing or clears the very record it had read, started at the same time:
      never a newer one. */
  lemma DoctorClearsOnlyWhatItRead(run: seq<Event>, pid: nat, at: string)
    requires Legal(INIT, run) && After(INIT, run).pending == Some(DoctorClear(pid, at))
    ensures
      var w := After(INIT, run);
      var t := Committed(w);
      || t.state == w.state
      || (w.state.daemon.pid == pid && w.state.daemon.startedAt == at && t.state == w.state.(daemon := NO_DAEMON))
  {
    RunKeeps(INIT, run);
  }

  /** The ways a daemon that goes on living is meant to lose its record: a reset, its own start giving up on it,
      doctor clearing what it read. */
  ghost predicate Disowns(call: Call, pid: nat) {
    call.SetupReset? || call.Uninstall? || call == Timeout(pid) || (call.DoctorClear? && call.pid == pid)
  }

  /** A recorded daemon that is alive before and after a step loses its record to the commit of one of these or of
      the timeout of another start, and to nothing else. */
  lemma LiveDaemonKeepsItsRecordExactlyWhen(w: World, e: Event)
    requires Inv(w) && Enabled(w, e)
    requires w.state.daemon.pid in w.live && w.state.daemon.pid in Apply(w, e).live
    ensures
      var pid := w.state.daemon.pid;
      Apply(w, e).state.daemon.pid == pid <==>
        !(e == Commit && (Disowns(w.pending.value, pid) || (w.pending.value.Timeout? && w.pending.value.pid != pid)))
  {
  }

  /** A start is saved. */
  predicate Saves(w: World, e: Event) {
    e == Commit && w.pending.Some? && w.pending.value.Launch?
  }

  /** The pid of the last start that was saved; `last` is that of the starts before the run. */
  function LastSaved(w: World, run: seq<Event>, last: nat): nat
    requires Legal(w, run)
    decreases |run|
  {
    if run == [] then last
    else LastSaved(Apply(w, run[0]), run[1..], if Saves(w, run[0]) then w.pending.value.pid else last)
  }

  lemma RecordStep(w: World, e: Event)
    requires Inv(w) && Enabled(w, e)
    ensures Apply(w, e).state.daemon.pid in {0, if Saves(w, e) then w.pending.value.pid else w.state.daemon.pid}
  {
  }

  /** Whatever happens, the record is empty or that of the last start saved. */
  lemma {:induction false} RecordIsTheLastSaved(w: World, run: seq<Event>, last: nat)
    requires Inv(w) && Legal(w, run) && w.state.daemon.pid in {0, last}
    ensures After(w, run).state.daemon.pid in {0, LastSaved(w, run, last)}
    decreases |run|
  {
    if run != [] {
      var next := if Saves(w, run[0]) then w.pending.value.pid else last;
      StepKeeps(w, run[0]);
      RecordStep(w, run[0]);
      RecordIsTheLastSaved(Apply(w, run[0]), run[1..], next);
    }
  }

  /** No start is saved in the run. */
  predicate NoSaves(w: World, run: seq<Event>)
    requires Legal(w, run)
    decreases |run|
  {
    run == [] || (!Saves(w, run[0]) && NoSaves(Apply(w, run[0]), run[1..]))
  }

  lemma {:induction false} NoSaveKeepsLast(w: World, run: seq<Event>, last: nat)
    requires Legal(w, run) && NoSaves(w, run)
    ensures LastSaved(w, run, last) == last
    decreases |run|
  {
    if run != [] {
      NoSaveKeepsLast(Apply(w, run[0]), run[1..], last);
    }
  }

  lemma TimeoutStep(w: World, pid: nat)
    requires Inv(w) && w.pending == Some(Timeout(pid))
    ensures Committed(w).state.daemon == NO_DAEMON
    ensures Some(Committed(w).state) == Edit(ClearStale(pid), w.state) <==> w.state.daemon.pid in {0, pid}
    ensures w.state.daemon.pid != 0 ==> w.state.daemon.pid in w.born
  {
  }

  /** The timeout of a start does what a compare-and-clear like doctor's would do exactly when the record, at that
      moment, is the start's own or none: otherwise it erases the record of another daemon, that of the last start
      saved. */
  lemma TimeoutErasesAnothersExactlyWhen(run: seq<Event>, pid: nat)
    requires Legal(INIT, run) && After(INIT, run).pending == Some(Timeout(pid))
    ensures
      var w := After(INIT, run);
      var t := Committed(w);
      var saved := LastSaved(INIT, run, 0);
      && t.state.daemon == NO_DAEMON
      && (Some(t.state) == Edit(ClearStale(pid), w.state) <==> w.state.daemon.pid in {0, pid})
      && (w.state.daemon.pid !in {0, pid} ==> saved != pid && w.state.daemon.pid == saved && saved in w.born)
  {
    RunKeeps(INIT, run);
    RecordIsTheLastSaved(INIT, run, 0);
    TimeoutStep(After(INIT, run), pid);
  }

  /** If no start was saved after its own, a start that times out, or whose warm-up fails, finds its own record or
      none. */
  lemma OwnRecordWithoutLaterSave(pre: seq<Event>, post: seq<Event>, pid: nat)
    requires Legal(INIT, pre) && Saves(After(INIT, pre), Commit) && After(INIT, pre).pending.value.pid == pid
    requires
      var w := Committed(After(INIT, pre));
      Legal(w, post) && NoSaves(w, post)
    ensures
      var w := Committed(After(INIT, pre));
      After(w, post).state.daemon.pid in {0, pid}
  {
    RunKeeps(INIT, pre);
    StepKeeps(After(INIT, pre), Commit);
    var w := Committed(After(INIT, pre));
    RecordIsTheLastSaved(w, post, pid);
    NoSaveKeepsLast(w, post, pid);
  }

  /** A start whose warm-up fails kills whatever daemon is recorded.  That is its own child if and only if the record
      is its own; otherwise it ends the daemon of the last start saved, and its own child goes on without a
      record. */
  lemma WarmFailKillsItsOwnExactlyWhen(run: seq<Event>, pid: nat)
    requires Legal(INIT, run) && Enabled(After(INIT, run), Enter(WarmFail(pid)))
    ensures
      var w := After(INIT, run);
      var t := Entered(w, WarmFail(pid));
      var saved := LastSaved(INIT, run, 0);
      && Committed(t).state.daemon == NO_DAEMON
      && (pid in w.live ==> (pid !in t.live <==> w.state.daemon.pid == pid))
      && (w.state.daemon.pid !in {0, pid} ==> saved == w.state.daemon.pid && saved !in t.live)
      && t.live == w.live - {w.state.daemon.pid}
  {
    RunKeeps(INIT, run);
    RecordIsTheLastSaved(INIT, run, 0);
  }

  lemma FirstChildOutlivesReset() returns (run: seq<Event>)
    ensures Legal(INIT, run)
    ensures
      var w := After(INIT, run);
      && w.state.installed && w.state.daemon == NO_DAEMON && w.live == {1} && w.born == {1}
      && w.pending.None? && w.jobs == {WarmUp(1)}
  {
    run := Installed();
    run := Started(run, 1);
    run := Then(run, PipeUp(1));
    run := Then(run, Enter(SetupReset));
    run := Then(run, Commit);
    run := Then(run, Enter(SetupCommit("amd64", "", NO_SNAPSHOT)));
    run := Then(run, Commit);
  }

  /** The case: the failed warm-up of the first start kills the second daemon, and the first child goes on. */
  lemma WarmFailKillsAnothersDaemon() returns (run: seq<Event>)
    ensures Legal(INIT, run)
    ensures
      var w := After(INIT, run);
      w.state.daemon == NO_DAEMON && w.live == {1} && 2 in w.recorded
  {
    run := FirstChildOutlivesReset();
    run := Started(run, 2);
    run := Then(run, Enter(WarmFail(1)));
    run := Then(run, Commit);
  }

  /** A stop gets to its edit if and only if the recorded daemon is alive, and kills it then.  The record goes with
      the commit; if that fails, the record of the killed daemon stays.  A stop that finds the daemon dead does
      nothing at all: its "stale pid repaired" branch repairs nothing. */
  lemma StopWritesExactlyWhenAlive(w: World)
    requires Inv(w) && w.pending.None?
    ensures Enabled(w, Enter(StopDaemon(w.live))) <==> w.state.daemon.pid in w.live
    ensures
      var t := Entered(w, StopDaemon(w.live));
      w.state.daemon.pid in w.live ==>
        && t.live == w.live - {w.state.daemon.pid} && t.state == w.state
        && Committed(t).state == w.state.(daemon := NO_DAEMON) != w.state
        && Aborted(t) == w.(live := t.live)
  {
    assert w.jobs - {} == w.jobs;
  }

  // ---------- On the real store ----------

  ghost function EditOf(tx: Tx): StateStore.Edit {
    s => Edit(tx, s)
  }

  /** setup checks its architecture before anything else. */
  predicate Checked(tx: Tx) {
    tx.SetupDone? ==> ValidArch(tx.arch)
  }

  /** Any number of processes running these transactions under the lock, crashing anywhere: every Load finds an
      install record with a valid architecture, or none. */
  lemma EveryLoadHasValidArch(run: seq<StateStore.Event>)
    requires StateStore.Legal(StateStore.INIT, run)
    requires StateStoreProofs.HoldersShort(StateStore.INIT, run)
    requires StateStoreProofs.ExpiryAtomic(StateStore.INIT, run)
    requires
      var log := StateStore.After(StateStore.INIT, run).log;
      forall i :: 0 <= i < |log| ==> exists tx :: Checked(tx) && log[i].edit == EditOf(tx)
    ensures
      var loaded := StateStore.Load(StateStore.After(StateStore.INIT, run));
      loaded.Some? && (loaded.value.installed ==> loaded.value.arch in {"amd64", "arm64"})
  {
    StateStoreProofs.StateJsonIsSerial(run);
    var log := StateStore.After(StateStore.INIT, run).log;
    var good := (s: State) => s.installed ==> ValidArch(s.arch);
    StateStoreProofs.EditsKeep(log, good);
  }

  // ---------- The stale stop ----------

  /** A stop can meet a stale pid, and then is refused. */
  lemma StaleStopIsReached() returns (run: seq<Event>)
    ensures Legal(INIT, run)
    ensures
      var w := After(INIT, run);
      && w.state.daemon.pid == 1 && 1 !in w.live
      && w.pending.None? && Ready(w, StopDaemon(w.live)) && Edit(TxOf(StopDaemon(w.live)), w.state).None?
  {
    run := FirstChildDiesUnanswered();
  }

  lemma {:induction false} ReplayPrefix(log: seq<StateStore.Entry>, i: nat)
    requires StateStoreProofs.Replay(log).Some? && i < |log|
    ensures
      var before := StateStoreProofs.Replay(log[..i]);
      before.Some? && log[i].edit(before.value).Some?
    decreases |log|
  {
    var n := |log| - 1;
    if i < n {
      ReplayPrefix(log[..n], i);
      assert log[..n][..i] == log[..i];
    }
  }

  /** Over any run of the real store: a stop that was committed, as its i-th transaction, found a live daemon in
      the state it loaded.  So no stop ever removed a stale pid from state.json. */
  lemma CommittedStopsMetALiveDaemon(run: seq<StateStore.Event>, i: nat, live: set<nat>)
    requires StateStore.Legal(StateStore.INIT, run)
    requires StateStoreProofs.HoldersShort(StateStore.INIT, run)
    requires StateStoreProofs.ExpiryAtomic(StateStore.INIT, run)
    requires
      var log := StateStore.After(StateStore.INIT, run).log;
      i < |log| && log[i].edit == EditOf(Stop(live))
    ensures
      var before := StateStoreProofs.Replay(StateStore.After(StateStore.INIT, run).log[..i]);
      before.Some? && before.value.daemon.pid != 0 && before.value.daemon.pid in live
  {
    StateStoreProofs.StateJsonIsSerial(run);
    ReplayPrefix(StateStore.After(StateStore.INIT, run).log, i);
  }

  /** Any locked call of a process, from an idle store to the point where it has loaded the state. */
  lemma LoadedCall(s: StateStore.Store, p: nat) returns (run: seq<StateStore.Event>)
    requires StateStore.At(s, p).Idle? && s.lock.None? && s.file.Whole?
    ensures run == [StateStore.Begin(p), StateStore.Create(p), StateStore.LoadOk(p)] && StateStore.Legal(s, run)
    ensures
      var t := StateStore.After(s, run);
      && StateStore.At(t, p).Editing? && StateStore.At(t, p).base == s.file.state
      && t.file == s.file && t.tmp == s.tmp && t.log == s.log
  {
    run := StateStoreProofs.Then(s, [], StateStore.Begin(p));
    run := StateStoreProofs.Then(s, run, StateStore.Create(p));
    run := StateStoreProofs.Then(s, run, StateStore.LoadOk(p));
  }

  /** The whole call: a stop that finds its daemon dead takes the lock, fails, gives the lock back, and leaves
      state.json, its temporary file and every later Load as they were. */
  lemma StaleStopWritesNothing(s: StateStore.Store, p: nat, live: set<nat>)
    requires StateStore.At(s, p).Idle? && s.lock.None?
    requires s.file.Whole? && s.file.state.daemon.pid !in live
    ensures
      var stop := StateStore.RunEdit(p, EditOf(Stop(live)));
      var run := [StateStore.Begin(p), StateStore.Create(p), StateStore.LoadOk(p), stop, StateStore.Release(p)];
      && StateStore.Legal(s, run)
      && var t := StateStore.After(s, run);
         && StateStore.At(t, p).Idle? && t.lock.None?
         && t.file == s.file && t.tmp == s.tmp && t.log == s.log && StateStore.Load(t) == StateStore.Load(s)
  {
    var stop := StateStore.RunEdit(p, EditOf(Stop(live)));
    var run := LoadedCall(s, p);
    run := StateStoreProofs.Then(s, run, stop);
    run := StateStoreProofs.Then(s, run, StateStore.Release(p));
    assert run == [StateStore.Begin(p), StateStore.Create(p), StateStore.LoadOk(p), stop, StateStore.Release(p)];
  }
}
