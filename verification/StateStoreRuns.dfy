/** What one call of WithLock gets done, and how long it waits.  The numbers are milliseconds. */
module StateStoreRuns {
  import opened StateFile
  import opened StateStore
  import opened StateStoreProofs

  // ---------- A call that gets the lock ----------

  lemma TakesTheLock(s: Store, p: nat) returns (run: seq<Event>)
    requires At(s, p).Idle? && s.lock.None? && !s.file.Torn?
    ensures Legal(s, run)
    ensures
      var t := After(s, run);
      && At(t, p).Editing? && Some(At(t, p).base) == Load(s)
      && t.lock.Some? && t.lock.value.owner == p && t.lock.value.mtime == t.now == s.now
      && t.file == s.file && t.tmp == s.tmp && t.log == s.log
      && forall q :: q != p ==> At(t, q) == At(s, q)
  {
    run := Then(s, [], Begin(p));
    run := Then(s, run, Create(p));
    run := Then(s, run, LoadOk(p));
  }

  lemma SavesTheState(s: Store, p: nat) returns (run: seq<Event>)
    requires At(s, p).Opening?
    ensures Legal(s, run)
    ensures
      var t := After(s, run);
      && At(t, p).Idle? && t.lock.None? && t.file == Whole(At(s, p).next) && t.tmp.Absent?
      && t.log == s.log + [Entry(At(s, p).ticket, At(s, p).edit)] && t.now == s.now
      && forall q :: q != p ==> At(t, q) == At(s, q)
  {
    run := Then(s, [], OpenTmp(p));
    run := Then(s, run, FillTmp(p));
    run := Then(s, run, Rename(p));
    run := Then(s, run, Release(p));
  }

  lemma {:induction false} Concat(s: Store, a: seq<Event>, b: seq<Event>)
    requires Legal(s, a) && Legal(After(s, a), b)
    ensures Legal(s, a + b) && After(s, a + b) == After(After(s, a), b)
    decreases |a|
  {
    if a == [] {
      assert a + b == b;
    } else {
      assert (a + b)[1..] == a[1..] + b;
      Concat(Apply(s, a[0]), a[1..], b);
    }
  }

  /** A call whose lock is free makes its edit of what a reader would find, and a reader then finds that; a call whose
      edit fails leaves everything as it was.  Either way the lock is free again and nobody else is touched. */
  lemma CallMakesItsEdit(s: Store, p: nat, edit: Edit) returns (run: seq<Event>)
    requires At(s, p).Idle? && s.lock.None? && Load(s).Some?
    ensures Legal(s, run)
    ensures
      var t, next := After(s, run), edit(Load(s).value);
      && At(t, p).Idle? && t.lock.None? && t.now == s.now
      && Load(t) == (if next.Some? then next else Load(s))
      && (next.None? ==> t.file == s.file && t.tmp == s.tmp && t.log == s.log)
      && (forall q :: q != p ==> At(t, q) == At(s, q))
  {
    run := TakesTheLock(s, p);
    run := Then(s, run, RunEdit(p, edit));
    var u := After(s, run);
    var more;
    if edit(Load(s).value).Some? {
      more := SavesTheState(u, p);
    } else {
      more := Then(u, [], Release(p));
    }
    Concat(s, run, more);
    run := run + more;
  }

  /** Whatever goes wrong, a holder can always finish by steps of its own, and leaves the lock free. */
  lemma HolderCanFinish(s: Store, p: nat) returns (run: seq<Event>)
    requires Critical(At(s, p))
    ensures Legal(s, run) && |run| <= 2
    ensures At(After(s, run), p).Idle? && After(s, run).lock.None? && After(s, run).file == s.file
  {
    run := [];
    match At(s, p) {
      case Loading(_) => run := Then(s, run, LoadFail(p));
      case Editing(_, _) => run := Then(s, run, RunEdit(p, _ => None));
      case Releasing(_, _) =>
      case _ => run := Then(s, run, SaveFail(p));
    }
    run := Then(s, run, Release(p));
  }

  // ---------- A call that waits ----------

  /** When a caller that waits for the lock stops waiting. */
  ghost function DeadlineOf(pc: Pc): Option<nat> {
    match pc
    case Creating(d) => Some(d)
    case Statting(d) => Some(d)
    case Expiring(d, _) => Some(d)
    case Deciding(d) => Some(d)
    case Sleeping(d, _) => Some(d)
    case _ => None
  }

  lemma {:induction false} DeadlineStays(s: Store, run: seq<Event>, p: nat, deadline: nat)
    requires Legal(s, run) && Begin(p) !in run
    requires DeadlineOf(At(s, p)) in {None, Some(deadline)}
    ensures DeadlineOf(At(After(s, run), p)) in {None, Some(deadline)}
    decreases |run|
  {
    if run != [] {
      var t := Apply(s, run[0]);
      assert run[0] in run && run[0] != Begin(p);
      assert run[0].Tick? || run[0].p != p ==> At(t, p) == At(s, p);
      DeadlineStays(t, run[1..], p, deadline);
    }
  }

  /** A call gives up only once it has been kept waiting for more than fifteen seconds. */
  lemma GivesUpOnlyLate(s: Store, run: seq<Event>, p: nat)
    requires Enabled(s, Begin(p)) && Legal(Apply(s, Begin(p)), run) && Begin(p) !in run
    requires Enabled(After(Apply(s, Begin(p)), run), GiveUp(p))
    ensures After(Apply(s, Begin(p)), run).now > s.now + 15_000
  {
    DeadlineStays(Apply(s, Begin(p)), run, p, s.now + 15_000);
  }

  /** Until then a caller that finds the lock taken tries again a tenth of a second later, and gets it if it is free
      by then; and once that time is over it gives up at its next try. */
  lemma WaiterTriesAgain(s: Store, p: nat)
    requires At(s, p).Deciding?
    ensures Enabled(s, GiveUp(p)) <==> s.now > At(s, p).deadline
    ensures Enabled(s, Nap(p)) <==> s.now <= At(s, p).deadline
    ensures s.now <= At(s, p).deadline && s.lock.None? ==>
              var run := [Nap(p), Tick(100), Wake(p), Create(p)];
              Legal(s, run) && At(After(s, run), p).Loading?
  {
    if s.now <= At(s, p).deadline && s.lock.None? {
      var run := Then(s, [], Nap(p));
      run := Then(s, run, Tick(100));
      run := Then(s, run, Wake(p));
      run := Then(s, run, Create(p));
      assert run == [Nap(p), Tick(100), Wake(p), Create(p)];
    }
  }

  /** A caller that finds the lock taken by another, and not stale, waits; it cannot take it. */
  lemma TakenMeansWaiting(s: Store, p: nat)
    requires At(s, p).Creating? && s.lock.Some? && s.now <= s.lock.value.mtime + 30_000
    requires s.now <= At(s, p).deadline
    ensures !Enabled(s, Create(p))
    ensures
      var run := [CreateFail(p), StatFresh(p)];
      && Legal(s, run) && At(After(s, run), p) == Deciding(At(s, p).deadline)
      && !Enabled(Apply(s, CreateFail(p)), StatStale(p)) && !Enabled(After(s, run), GiveUp(p))
      && After(s, run).lock == s.lock
  {
    var run := Then(s, [], CreateFail(p));
    run := Then(s, run, StatFresh(p));
    assert run == [CreateFail(p), StatFresh(p)];
  }

  lemma {:induction false} LockKeepsItsTime(s: Store, run: seq<Event>, ticket: nat, since: nat)
    requires Legal(s, run) && ticket < s.tickets
    requires s.lock.Some? && s.lock.value.ticket == ticket ==> s.lock.value.mtime == since
    ensures
      var t := After(s, run);
      t.lock.Some? && t.lock.value.ticket == ticket ==> t.lock.value.mtime == since
    decreases |run|
  {
    if run != [] {
      LockKeepsItsTime(Apply(s, run[0]), run[1..], ticket, since);
    }
  }

  /** A lock file is found stale only if it was made more than thirty seconds ago, and then always. */
  lemma StaleExactlyAfterThirtySeconds(s: Store, run: seq<Event>, q: nat, p: nat)
    requires Enabled(s, Create(q)) && Legal(Apply(s, Create(q)), run)
    requires
      var t := After(Apply(s, Create(q)), run);
      && At(t, p).Statting? && t.lock.Some? && t.lock.value.ticket == s.tickets
    ensures
      var t := After(Apply(s, Create(q)), run);
      && (Enabled(t, StatStale(p)) <==> t.now > s.now + 30_000)
      && (Enabled(t, StatFresh(p)) <==> t.now <= s.now + 30_000)
  {
    LockKeepsItsTime(Apply(s, Create(q)), run, s.tickets, s.now);
  }
}
