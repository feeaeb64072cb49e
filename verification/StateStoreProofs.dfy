/** When the lock file really excludes, and what state.json holds then. */
module StateStoreProofs {
  import opened StateFile
  import opened StateStore

  // ---------- The lock ----------

  /** Every process in the critical section owns the lock file it created. */
  ghost predicate Protected(s: Store) {
    forall p :: Critical(At(s, p)) ==>
      s.lock.Some? && s.lock.value.owner == p && s.lock.value.ticket == At(s, p).ticket
  }

  /** A removal of the lock file is fair when no other process in the critical section owns that file. */
  ghost predicate Fair(s: Store, e: Event) {
    (e.Expire? || e.Release?) && s.lock.Some? && s.lock.value.owner != e.p ==> !Critical(At(s, s.lock.value.owner))
  }

  ghost predicate AlwaysProtected(s: Store, run: seq<Event>)
    requires Legal(s, run)
    decreases |run|
  {
    Protected(s) && (run == [] || AlwaysProtected(Apply(s, run[0]), run[1..]))
  }

  ghost predicate AlwaysFair(s: Store, run: seq<Event>)
    requires Legal(s, run)
    decreases |run|
  {
    run == [] || (Fair(s, run[0]) && AlwaysFair(Apply(s, run[0]), run[1..]))
  }

  lemma FairKeepsProtected(s: Store, e: Event)
    requires Protected(s) && Enabled(s, e) && Fair(s, e)
    ensures Protected(Apply(s, e))
  {
    var t := Apply(s, e);
    forall p | Critical(At(t, p))
      ensures t.lock.Some? && t.lock.value.owner == p && t.lock.value.ticket == At(t, p).ticket
    {
      assert e.Tick? || p != e.p ==> At(t, p) == At(s, p);
    }
  }

  lemma UnfairBreaksProtected(s: Store, e: Event)
    requires Enabled(s, e) && !Fair(s, e)
    ensures !Protected(Apply(s, e))
  {
    var t := Apply(s, e);
    var q := s.lock.value.owner;
    assert At(t, q) == At(s, q) && t.lock.None?;
  }

  /** Over any run the lock file guards every holder if and only if no step removes the file of another live
      holder. */
  lemma {:induction false} GuardedExactlyWhenFair(s: Store, run: seq<Event>)
    requires Protected(s) && Legal(s, run)
    ensures AlwaysProtected(s, run) <==> AlwaysFair(s, run)
    decreases |run|
  {
    if run != [] {
      var t := Apply(s, run[0]);
      if Fair(s, run[0]) {
        FairKeepsProtected(s, run[0]);
        GuardedExactlyWhenFair(t, run[1..]);
      } else {
        UnfairBreaksProtected(s, run[0]);
      }
    }
  }

  /** A step that is not fair lets another process in beside the live holder: any process not busy with the lock
      gets into the critical section at its first try.  With SerialEquivalence this says what exclusion needs:
      fair steps are enough for it, and the first one that is not lets it fail. */
  lemma UnfairLetsAnotherIn(s: Store, e: Event, p: nat)
    requires Enabled(s, e) && !Fair(s, e) && At(Apply(s, e), p).Idle?
    ensures
      var t := Apply(s, e);
      var q := s.lock.value.owner;
      && Legal(t, [Begin(p), Create(p)]) && p != q
      && Critical(At(After(t, [Begin(p), Create(p)]), p))
      && Critical(At(After(t, [Begin(p), Create(p)]), q))
  {
    var t := Apply(s, e);
    var q := s.lock.value.owner;
    assert At(t, q) == At(s, q) && t.lock.None?;
    var run := Then(t, [], Begin(p));
    run := Then(t, run, Create(p));
    assert run == [Begin(p), Create(p)];
  }

  // ---------- Serial equivalence ----------

  /** The state after the logged edits, one after the other, from the zero state; None if one of them fails. */
  ghost function Replay(log: seq<Entry>): Option<State> {
    if log == [] then Some(ZERO)
    else match Replay(log[..|log| - 1])
      case None => None
      case Some(base) => log[|log| - 1].edit(base)
  }

  /** What a holder has at each point is what the log leads to. */
  ghost predicate HolderUpToDate(pc: Pc, current: State) {
    match pc
    case Editing(_, base) => base == current
    case Opening(_, edit, next) => edit(current) == Some(next)
    case Filling(_, edit, next) => edit(current) == Some(next)
    case Renaming(_, edit, next) => edit(current) == Some(next)
    case _ => true
  }

  ghost predicate LogOrdered(s: Store) {
    && (forall i, j :: 0 <= i < j < |s.log| ==> s.log[i].ticket < s.log[j].ticket)
    && (forall i :: 0 <= i < |s.log| ==> s.log[i].ticket < s.tickets)
  }

  ghost predicate Serial(s: Store) {
    && Protected(s)
    && Replay(s.log).Some?
    && s.file == (if s.log == [] then Absent else Whole(Replay(s.log).value))
    && (forall p :: HolderUpToDate(At(s, p), Replay(s.log).value))
    && (forall p :: At(s, p).Renaming? ==> s.tmp == Whole(At(s, p).next))
  }

  /** A holder that has not committed has a later ticket than every commit. */
  ghost predicate Tickets(s: Store) {
    && LogOrdered(s)
    && (s.lock.Some? ==> s.lock.value.ticket < s.tickets)
    && (forall p :: Critical(At(s, p)) && !(At(s, p).Releasing? && At(s, p).committed) ==>
          forall i :: 0 <= i < |s.log| ==> s.log[i].ticket < At(s, p).ticket)
  }

  /** The commit: what is renamed into place is what the longer log leads to, and nobody else is at work. */
  lemma RenameKeepsSerial(s: Store, p: nat)
    requires Serial(s) && Enabled(s, Rename(p))
    ensures Serial(Apply(s, Rename(p)))
  {
    FairKeepsProtected(s, Rename(p));
    var t := Apply(s, Rename(p));
    assert t.log[..|t.log| - 1] == s.log;
    assert HolderUpToDate(At(s, p), Replay(s.log).value);
    forall q
      ensures HolderUpToDate(At(t, q), Replay(t.log).value)
      ensures At(t, q).Renaming? ==> t.tmp == Whole(At(t, q).next)
    {
      assert q != p ==> At(t, q) == At(s, q);
    }
  }

  lemma StepKeepsSerial(s: Store, e: Event)
    requires Serial(s) && Enabled(s, e) && Fair(s, e)
    ensures Serial(Apply(s, e))
  {
    if e.Rename? {
      RenameKeepsSerial(s, e.p);
      return;
    }
    FairKeepsProtected(s, e);
    var t := Apply(s, e);
    forall p
      ensures HolderUpToDate(At(t, p), Replay(t.log).value)
      ensures At(t, p).Renaming? ==> t.tmp == Whole(At(t, p).next)
    {
      assert HolderUpToDate(At(s, p), Replay(s.log).value);
      if !e.Tick? {
        assert HolderUpToDate(At(s, e.p), Replay(s.log).value);
        assert p != e.p ==> At(t, p) == At(s, p);
      }
    }
  }

  /** Only the committing process is in the critical section, so nobody is overtaken. */
  lemma RenameKeepsTickets(s: Store, p: nat)
    requires Protected(s) && Tickets(s) && Enabled(s, Rename(p))
    ensures Tickets(Apply(s, Rename(p)))
  {
    var t := Apply(s, Rename(p));
    assert Critical(At(s, p));
    forall q
      ensures Critical(At(t, q)) ==> q == p
    {
      assert q != p ==> At(t, q) == At(s, q);
    }
  }

  lemma StepKeepsTickets(s: Store, e: Event)
    requires Protected(s) && Tickets(s) && Enabled(s, e) && Fair(s, e)
    ensures Tickets(Apply(s, e))
  {
    if e.Rename? {
      RenameKeepsTickets(s, e.p);
      return;
    }
    var t := Apply(s, e);
    forall p | Critical(At(t, p)) && !(At(t, p).Releasing? && At(t, p).committed)
      ensures forall i :: 0 <= i < |t.log| ==> t.log[i].ticket < At(t, p).ticket
    {
      assert e.Tick? || p != e.p ==> At(t, p) == At(s, p);
    }
  }

  /** In a run whose removals are all fair: state.json is always the committed edits applied in lock order
      (absent while there are none), so edits that fail, or whose process crashes before the rename,
      contribute nothing; at most one process is in the critical section; and no reader, at any moment, sees
      anything but the zero state or the latest committed one. */
  lemma {:induction false} SerialEquivalence(s: Store, run: seq<Event>)
    requires Serial(s) && Tickets(s) && Legal(s, run) && AlwaysFair(s, run)
    ensures
      var t := After(s, run);
      && Serial(t) && Tickets(t)
      && Load(t) == Replay(t.log) && Load(t).Some?
      && (forall p, q :: Critical(At(t, p)) && Critical(At(t, q)) ==> p == q)
      && s.log <= t.log
    decreases |run|
  {
    if run != [] {
      StepKeepsSerial(s, run[0]);
      StepKeepsTickets(s, run[0]);
      SerialEquivalence(Apply(s, run[0]), run[1..]);
    }
  }

  /** A property of the state that every edit of the run keeps holds of every state ever read. */
  lemma {:induction false} EditsKeep(log: seq<Entry>, good: State -> bool)
    requires good(ZERO) && Replay(log).Some?
    requires forall i, base, next :: 0 <= i < |log| && good(base) && log[i].edit(base) == Some(next) ==> good(next)
    ensures good(Replay(log).value)
  {
    if log != [] {
      var before := log[..|log| - 1];
      EditsKeep(before, good);
      assert log[|log| - 1].edit(Replay(before).value) == Some(Replay(log).value);
    }
  }

  // ---------- When removals are fair ----------

  /** No live holder keeps its lock for longer than the expiry age. */
  ghost predicate ShortHolders(s: Store, e: Event) {
    e.Tick? ==>
      forall p :: Critical(At(s, p)) && s.lock.Some? ==> s.now + e.d <= s.lock.value.mtime + STALE_MS
  }

  /** The file an expiry removes is the one it found stale, as if stat and remove were one step. */
  ghost predicate AtomicExpiry(s: Store, e: Event) {
    e.Expire? && s.lock.Some? && At(s, e.p).Expiring? ==> s.lock.value.ticket == At(s, e.p).seen
  }

  ghost predicate HoldersShort(s: Store, run: seq<Event>)
    requires Legal(s, run)
    decreases |run|
  {
    run == [] || (ShortHolders(s, run[0]) && HoldersShort(Apply(s, run[0]), run[1..]))
  }

  ghost predicate ExpiryAtomic(s: Store, run: seq<Event>)
    requires Legal(s, run)
    decreases |run|
  {
    run == [] || (AtomicExpiry(s, run[0]) && ExpiryAtomic(Apply(s, run[0]), run[1..]))
  }

  /** A lock seen stale belongs to nobody in the critical section. */
  ghost predicate StaleMeansDead(s: Store) {
    && Protected(s)
    && (s.lock.Some? ==> s.lock.value.ticket < s.tickets)
    && (forall p :: Critical(At(s, p)) ==> s.now <= s.lock.value.mtime + STALE_MS)
    && (forall p :: At(s, p).Expiring? ==> At(s, p).seen < s.tickets)
    && (forall p :: At(s, p).Expiring? && s.lock.Some? && s.lock.value.ticket == At(s, p).seen ==>
          !Critical(At(s, s.lock.value.owner)))
  }

  lemma TimelyStep(s: Store, e: Event)
    requires StaleMeansDead(s) && Enabled(s, e) && ShortHolders(s, e) && AtomicExpiry(s, e)
    ensures Fair(s, e) && StaleMeansDead(Apply(s, e))
  {
    if e.Release? {
      assert Critical(At(s, e.p));
    }
    FairKeepsProtected(s, e);
    var t := Apply(s, e);
    forall p
      ensures Critical(At(t, p)) ==> t.now <= t.lock.value.mtime + STALE_MS
      ensures At(t, p).Expiring? ==> At(t, p).seen < t.tickets
      ensures At(t, p).Expiring? && t.lock.Some? && t.lock.value.ticket == At(t, p).seen ==>
                !Critical(At(t, t.lock.value.owner))
    {
      assert e.Tick? || p != e.p ==> At(t, p) == At(s, p);
      if t.lock.Some? {
        var q := t.lock.value.owner;
        assert e.Tick? || q != e.p ==> At(t, q) == At(s, q);
      }
    }
  }

  /** If live holders finish within the expiry age, and a stale lock is removed in one step with its stat, the
      lock excludes over every run, whoever crashes. */
  lemma {:induction false} TimelyRunsExclude(s: Store, run: seq<Event>)
    requires StaleMeansDead(s) && Legal(s, run) && HoldersShort(s, run) && ExpiryAtomic(s, run)
    ensures AlwaysFair(s, run) && AlwaysProtected(s, run)
    decreases |run|
  {
    if run != [] {
      TimelyStep(s, run[0]);
      TimelyRunsExclude(Apply(s, run[0]), run[1..]);
    }
  }

  /** From the empty directory, whoever crashes and wherever: under the two assumptions at most one live
      process is in the critical section, and every Load at every moment returns the committed edits applied
      in lock order to the zero state. */
  lemma StateJsonIsSerial(run: seq<Event>)
    requires Legal(INIT, run) && HoldersShort(INIT, run) && ExpiryAtomic(INIT, run)
    ensures
      var t := After(INIT, run);
      && (forall p, q :: Critical(At(t, p)) && Critical(At(t, q)) ==> p == q)
      && Load(t) == Replay(t.log) && Load(t).Some?
      && LogOrdered(t)
  {
    assert StaleMeansDead(INIT) && Serial(INIT) && Tickets(INIT);
    TimelyRunsExclude(INIT, run);
    SerialEquivalence(INIT, run);
  }

  /** A run can be extended by any event enabled at its end. */
  lemma {:induction false} Extend(s: Store, run: seq<Event>, e: Event)
    requires Legal(s, run) && Enabled(After(s, run), e)
    ensures Legal(s, run + [e]) && After(s, run + [e]) == Apply(After(s, run), e)
    ensures HoldersShort(s, run) && ShortHolders(After(s, run), e) ==> HoldersShort(s, run + [e])
    ensures ExpiryAtomic(s, run) && AtomicExpiry(After(s, run), e) ==> ExpiryAtomic(s, run + [e])
    ensures AlwaysFair(s, run) && Fair(After(s, run), e) ==> AlwaysFair(s, run + [e])
    decreases |run|
  {
    if run == [] {
      assert [e][1..] == [];
    } else {
      Extend(Apply(s, run[0]), run[1..], e);
      assert (run + [e])[1..] == run[1..] + [e];
    }
  }

  lemma Then(s: Store, run: seq<Event>, e: Event) returns (longer: seq<Event>)
    requires Legal(s, run) && Enabled(After(s, run), e)
    ensures longer == run + [e] && Legal(s, longer)
    ensures After(s, longer) == Apply(After(s, run), e)
    ensures HoldersShort(s, run) && ShortHolders(After(s, run), e) ==> HoldersShort(s, longer)
    ensures ExpiryAtomic(s, run) && AtomicExpiry(After(s, run), e) ==> ExpiryAtomic(s, longer)
    ensures AlwaysFair(s, run) && Fair(After(s, run), e) ==> AlwaysFair(s, longer)
  {
    Extend(s, run, e);
    longer := run + [e];
  }

  /** A lock left by a crash holds nobody up for good: once it is stale, any caller still trying gets the lock. */
  lemma StaleLockIsRecovered(s: Store, p: nat)
    requires At(s, p).Creating? && Stale(s)
    ensures
      var run := [CreateFail(p), StatStale(p), Expire(p), Create(p)];
      && Legal(s, run) && Critical(At(After(s, run), p))
      && (Protected(s) && StaleMeansDead(s) ==> AlwaysFair(s, run))
  {
    var s2 := Apply(Apply(s, CreateFail(p)), StatStale(p));
    if Protected(s) && StaleMeansDead(s) {
      var q := s.lock.value.owner;
      assert q != p ==> At(s2, q) == At(s, q);
      assert Fair(s2, Expire(p));
    }
    var run := Then(s, [], CreateFail(p));
    run := Then(s, run, StatStale(p));
    run := Then(s, run, Expire(p));
    run := Then(s, run, Create(p));
    assert run == [CreateFail(p), StatStale(p), Expire(p), Create(p)];
  }

  // ---------- Neither assumption can be dropped ----------

  lemma DeadLock() returns (run: seq<Event>)
    ensures Legal(INIT, run) && HoldersShort(INIT, run)
    ensures
      var s := After(INIT, run);
      && Stale(s) && s.lock.value.owner == 0 && s.pcs == map[0 := Crashed]
  {
    run := Then(INIT, [], Begin(0));
    run := Then(INIT, run, Create(0));
    run := Then(INIT, run, Crash(0));
    run := Then(INIT, run, Tick(STALE_MS + 1));
  }

  lemma TwoSeeStale() returns (run: seq<Event>)
    ensures Legal(INIT, run) && HoldersShort(INIT, run)
    ensures
      var s := After(INIT, run);
      && At(s, 1).Expiring? && At(s, 2).Expiring? && At(s, 0).Crashed? && s.lock.Some?
  {
    run := DeadLock();
    run := Then(INIT, run, Begin(1));
    run := Then(INIT, run, CreateFail(1));
    run := Then(INIT, run, StatStale(1));
    run := Then(INIT, run, Begin(2));
    run := Then(INIT, run, CreateFail(2));
    run := Then(INIT, run, StatStale(2));
  }

  /** Process 0 crashes with the lock; 1 and 2 both find it stale.  With stat and remove as two steps, 2 then
      removes the lock 1 has just taken, and both are in the critical section, no live holder being slow. */
  lemma SplitExpiryBreaksExclusion() returns (run: seq<Event>)
    ensures Legal(INIT, run) && HoldersShort(INIT, run)
    ensures Critical(At(After(INIT, run), 1)) && Critical(At(After(INIT, run), 2))
  {
    run := TwoSeeStale();
    run := Then(INIT, run, Expire(1));
    run := Then(INIT, run, Create(1));
    run := Then(INIT, run, Expire(2));
    run := Then(INIT, run, Create(2));
  }

  /** A live holder slower than the expiry age loses its lock to the next caller, with no race at all. */
  lemma SlowHolderBreaksExclusion() returns (run: seq<Event>)
    ensures Legal(INIT, run) && ExpiryAtomic(INIT, run)
    ensures Critical(At(After(INIT, run), 0)) && Critical(At(After(INIT, run), 1))
  {
    run := Then(INIT, [], Begin(0));
    run := Then(INIT, run, Create(0));
    run := Then(INIT, run, Tick(STALE_MS + 1));
    run := Then(INIT, run, Begin(1));
    run := Then(INIT, run, CreateFail(1));
    run := Then(INIT, run, StatStale(1));
    run := Then(INIT, run, Expire(1));
    run := Then(INIT, run, Create(1));
  }
}
