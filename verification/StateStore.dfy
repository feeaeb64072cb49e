/** WithLock, Save and Load: a read-modify-write of state.json under a lock file, by any number of processes
    that may crash at any point.  Stat of the lock and its removal are two steps, as in the source.
    Time is in milliseconds. */
module StateStore {
  import opened StateFile

  const STALE_MS: nat := 30_000
  const DEADLINE_MS: nat := 15_000
  const RETRY_MS: nat := 100

  /** The edit a caller passes to WithLock; None is an error, whose edits are discarded. */
  type Edit = State -> Option<State>

  /** A file: a write in progress, or one cut short by a crash, leaves it torn. */
  datatype Content = Absent | Torn | Whole(state: State)

  /** The lock file; the ticket tells one creation of it from another. */
  datatype Lock = Lock(owner: nat, ticket: nat, mtime: nat)

  /** What a process does next.  From Loading to Releasing it is in the critical section. */
  datatype Pc =
    | Idle
    | Creating(deadline: nat)
    | Statting(deadline: nat)
    | Expiring(deadline: nat, seen: nat)
    | Deciding(deadline: nat)
    | Sleeping(deadline: nat, until: nat)
    | Loading(ticket: nat)
    | Editing(ticket: nat, base: State)
    | Opening(ticket: nat, edit: Edit, next: State)
    | Filling(ticket: nat, edit: Edit, next: State)
    | Renaming(ticket: nat, edit: Edit, next: State)
    | Releasing(ticket: nat, committed: bool)
    | Crashed

  datatype Entry = Entry(ticket: nat, edit: Edit)

  /** `log` lists the edits committed so far, with the ticket of the lock each was made under. */
  datatype Store = Store(
    now: nat, lock: Option<Lock>, file: Content, tmp: Content, pcs: map<nat, Pc>, tickets: nat, log: seq<Entry>)

  ghost const INIT: Store := Store(0, None, Absent, Absent, map[], 0, [])

  ghost function At(s: Store, p: nat): Pc {
    if p in s.pcs then s.pcs[p] else Idle
  }

  ghost predicate Critical(pc: Pc) {
    pc.Loading? || pc.Editing? || pc.Opening? || pc.Filling? || pc.Renaming? || pc.Releasing?
  }

  datatype Event =
    | Tick(d: nat)
    | Begin(p: nat)
    | Create(p: nat) | CreateFail(p: nat)
    | StatStale(p: nat) | StatFresh(p: nat)
    | Expire(p: nat)
    | GiveUp(p: nat) | Nap(p: nat) | Wake(p: nat)
    | LoadOk(p: nat) | LoadFail(p: nat)
    | RunEdit(p: nat, edit: Edit)
    | OpenTmp(p: nat) | FillTmp(p: nat) | Rename(p: nat) | SaveFail(p: nat)
    | Release(p: nat)
    | Crash(p: nat)

  ghost predicate Stale(s: Store) {
    s.lock.Some? && s.now > s.lock.value.mtime + STALE_MS
  }

  ghost predicate Enabled(s: Store, e: Event) {
    match e
    case Tick(d) => true
    case Begin(p) => At(s, p).Idle?
    case Create(p) => At(s, p).Creating? && s.lock.None?
    case CreateFail(p) => At(s, p).Creating?
    case StatStale(p) => At(s, p).Statting? && Stale(s)
    case StatFresh(p) => At(s, p).Statting? && !Stale(s)
    case Expire(p) => At(s, p).Expiring?
    case GiveUp(p) => At(s, p).Deciding? && s.now > At(s, p).deadline
    case Nap(p) => At(s, p).Deciding? && s.now <= At(s, p).deadline
    case Wake(p) => At(s, p).Sleeping? && s.now >= At(s, p).until
    case LoadOk(p) => At(s, p).Loading? && !s.file.Torn?
    case LoadFail(p) => At(s, p).Loading?
    case RunEdit(p, edit) => At(s, p).Editing?
    case OpenTmp(p) => At(s, p).Opening?
    case FillTmp(p) => At(s, p).Filling?
    case Rename(p) => At(s, p).Renaming? && !s.tmp.Absent?
    case SaveFail(p) => At(s, p).Opening? || At(s, p).Filling? || At(s, p).Renaming?
    case Release(p) => At(s, p).Releasing?
    case Crash(p) => !At(s, p).Crashed?
  }

  ghost function Goto(s: Store, p: nat, pc: Pc): Store {
    s.(pcs := s.pcs[p := pc])
  }

  ghost function Apply(s: Store, e: Event): Store
    requires Enabled(s, e)
  {
    match e
    case Tick(d) => s.(now := s.now + d)
    case Begin(p) => Goto(s, p, Creating(s.now + DEADLINE_MS))
    case Create(p) =>
      Goto(s, p, Loading(s.tickets)).(lock := Some(Lock(p, s.tickets, s.now)), tickets := s.tickets + 1)
    case CreateFail(p) => Goto(s, p, Statting(At(s, p).deadline))
    case StatStale(p) => Goto(s, p, Expiring(At(s, p).deadline, s.lock.value.ticket))
    case StatFresh(p) => Goto(s, p, Deciding(At(s, p).deadline))
    case Expire(p) => Goto(s, p, Creating(At(s, p).deadline)).(lock := None)
    case GiveUp(p) => Goto(s, p, Idle)
    case Nap(p) => Goto(s, p, Sleeping(At(s, p).deadline, s.now + RETRY_MS))
    case Wake(p) => Goto(s, p, Creating(At(s, p).deadline))
    case LoadOk(p) => Goto(s, p, Editing(At(s, p).ticket, if s.file.Whole? then s.file.state else ZERO))
    case LoadFail(p) => Goto(s, p, Releasing(At(s, p).ticket, false))
    case RunEdit(p, edit) =>
      (match edit(At(s, p).base)
       case None => Goto(s, p, Releasing(At(s, p).ticket, false))
       case Some(next) => Goto(s, p, Opening(At(s, p).ticket, edit, next)))
    case OpenTmp(p) => Goto(s, p, Filling(At(s, p).ticket, At(s, p).edit, At(s, p).next)).(tmp := Torn)
    case FillTmp(p) =>
      Goto(s, p, Renaming(At(s, p).ticket, At(s, p).edit, At(s, p).next)).(tmp := Whole(At(s, p).next))
    case Rename(p) =>
      Goto(s, p, Releasing(At(s, p).ticket, true))
      .(file := s.tmp, tmp := Absent, log := s.log + [Entry(At(s, p).ticket, At(s, p).edit)])
    case SaveFail(p) => Goto(s, p, Releasing(At(s, p).ticket, false))
    case Release(p) => Goto(s, p, Idle).(lock := None)
    case Crash(p) => Goto(s, p, Crashed)
  }

  ghost predicate Legal(s: Store, run: seq<Event>)
    decreases |run|
  {
    run == [] || (Enabled(s, run[0]) && Legal(Apply(s, run[0]), run[1..]))
  }

  ghost function After(s: Store, run: seq<Event>): Store
    requires Legal(s, run)
    decreases |run|
  {
    if run == [] then s else After(Apply(s, run[0]), run[1..])
  }

  /** What a reader without the lock gets: None is a parse error. */
  ghost function Load(s: Store): Option<State> {
    match s.file
    case Absent => Some(ZERO)
    case Torn => None
    case Whole(state) => Some(state)
  }
}
