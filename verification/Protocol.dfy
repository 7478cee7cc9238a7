/** The slot ownership protocol of one device+OS group, as a transition system.

  Independent processes share a directory of numbered slots.  Nothing central
  coordinates them: each slot has a lock file that is flock()ed, the group has
  one allocation lock, and a slot may carry an expiring lease.  A state below
  is what the kernel and the file system know, plus the local state of every
  live process; an event is one step of one process (or the clock). */
module Protocol {
  import opened Wrappers

  type Pid = nat
  type Slot = nat
  type Inode = nat

  datatype Lease = Lease(key: string, expires: int)

  /** Who holds a flock, and the slot path its descriptor was opened through. */
  datatype Holder = Holder(pid: Pid, slot: Slot)

  /** shutting-down.json: the pid that wrote it and when. */
  datatype Marker = Marker(pid: Pid, started: int)

  /** What a process runs: `with`/`acquire`, `lease`, `preboot`'s claim by
      number, reap's --max eviction, reap's per-slot pass, `release`. */
  datatype Job =
    | With
    | LeaseCall(key: string)
    | Preboot
    | Evict
    | Reap
    | Release(key: string)

  datatype Phase =
    | Ready                                              // between two claims
    | Listing                                            // a lease call that has not listed the group yet
    | Scanning(todo: set<Slot>)                          // sticky renewal, slots still to read
    | WaitClaim(n: Slot)                                 // blocked on the allocation lock
    | Census(n: Slot, todo: set<Slot>, used: set<Slot>)  // allocation lock held, from here ...
    | Entering(n: Slot, used: set<Slot>)
    | Opening(n: Slot, used: set<Slot>)
    | Flocking(n: Slot, used: set<Slot>, ino: Inode)     // ... to here
    | Checking(n: Slot)                                  // flock held, from here ...
    | Vetted(n: Slot)
    | Leased(n: Slot)
    | WaitRemove(n: Slot)                                // blocked on the allocation lock
    | Removing(n: Slot)                                  // allocation lock held
    | Removed(n: Slot)
    | Leaving(n: Slot)
    | WaitCleanup(n: Slot)                               // blocked on the allocation lock
    | Cleaning(n: Slot)                                  // allocation lock held
    | Peeked(n: Slot)
    | Marked(n: Slot)                                    // ... to here
    | WaitUnlease(n: Slot)                               // blocked on the allocation lock
    | Unleasing(n: Slot)                                 // allocation lock held
    | Peeking(n: Slot, ino: Inode)                       // opened by a bare TryLock, not flocked yet
    | Polling                                            // waiting, with a deadline, for a boot gate
    | Booting(gate: nat)
    | Running                                            // a lease call that has its slot provisioned

  /** kept: slots this process retains (as owner for With, as maintenance
      holder for Preboot); fds: the flocks it holds, by slot. */
  datatype Proc = Proc(job: Job, phase: Phase, kept: set<Slot>, fds: map<Slot, Inode>)

  datatype State = State(
    max: nat,
    gates: nat,
    dirs: set<Slot>,
    link: map<Slot, Inode>,
    leases: map<Slot, Lease>,
    marker: map<Slot, Marker>,
    alloc: Option<Pid>,
    held: map<Inode, Holder>,
    gate: map<nat, Pid>,
    procs: map<Pid, Proc>,
    dead: set<Pid>,
    now: int,
    nextIno: nat)

  datatype Event =
    | Spawn(p: Pid, job: Job)
    | Die(p: Pid)
    | Tick(d: nat)
    | ListSlots(p: Pid)
    | ScanSlot(p: Pid, m: Slot, ttl: nat)
    | Aim(p: Pid, n: Slot)
    | Reclaim(p: Pid, n: Slot)
    | TakeAlloc(p: Pid)
    | Probe(p: Pid, m: Slot)
    | Decide(p: Pid)
    | Enter(p: Pid)
    | Open(p: Pid)
    | Flock(p: Pid)
    | ReadLease(p: Pid)
    | Settle(p: Pid, ok: bool, ttl: nat)
    | Remove(p: Pid)
    | Cleanup(p: Pid)
    | Unlease(p: Pid)
    | Drop(p: Pid)
    | DropKept(p: Pid, n: Slot)
    | Peek(p: Pid, n: Slot)
    | PeekFlock(p: Pid)
    | Prune(p: Pid)
    | Mark(p: Pid)
    | Unmark(p: Pid)
    | Provision(p: Pid)
    | TakeGate(p: Pid, g: nat)
    | LeaveGate(p: Pid)

  // ---------------------------------------------------------------- reading the state

  /** Lease.Alive: a keyless lease is never alive. */
  predicate Live(s: State, n: Slot) {
    n in s.leases && s.leases[n].key != "" && s.now < s.leases[n].expires
  }

  predicate LiveFor(s: State, n: Slot, key: string) {
    Live(s, n) && s.leases[n].key == key
  }

  /** ShutdownInProgress: the marking pid is alive and the marker is younger
      than two minutes. */
  predicate ShutdownInProgress(s: State, n: Slot) {
    n in s.marker && s.marker[n].pid in s.procs && s.now - s.marker[n].started < 120
  }

  predicate Flocked(s: State, n: Slot) {
    n in s.link && s.link[n] in s.held
  }

  predicate Claims(job: Job) {
    job.With? || job.LeaseCall?
  }

  predicate HoldsAlloc(ph: Phase) {
    ph.Census? || ph.Entering? || ph.Opening? || ph.Flocking? || ph.Removing? || ph.Cleaning? || ph.Unleasing?
  }

  predicate HoldsFlock(ph: Phase) {
    || ph.Checking? || ph.Vetted? || ph.Leased?
    || ph.WaitRemove? || ph.Removing? || ph.Removed? || ph.Leaving?
    || ph.WaitCleanup? || ph.Cleaning? || ph.Peeked? || ph.Marked?
  }

  /** The slot whose flock a process holds on account of its phase. */
  function Pending(ph: Phase): set<Slot> {
    if HoldsFlock(ph) then {ph.n} else {}
  }

  // ---------------------------------------------------------------- building blocks

  predicate In(s: State, p: Pid) { p in s.procs }

  function Ph(s: State, p: Pid): Phase
    requires In(s, p)
  {
    s.procs[p].phase
  }

  function Goto(s: State, p: Pid, ph: Phase): State
    requires In(s, p)
  {
    s.(procs := s.procs[p := s.procs[p].(phase := ph)])
  }

  /** Goto, giving up the allocation lock. */
  function Yield(s: State, p: Pid, ph: Phase): State
    requires In(s, p)
  {
    Goto(s.(alloc := None), p, ph)
  }

  /** O_CREATE on a slot's lock file: the linked inode, or a fresh one. */
  function Touch(s: State, n: Slot): State {
    if n in s.link then s else s.(link := s.link[n := s.nextIno], nextIno := s.nextIno + 1)
  }

  function DropFd(s: State, p: Pid, n: Slot, ph: Phase): State
    requires In(s, p) && n in s.procs[p].fds
  {
    var pr := s.procs[p];
    s.(held := s.held - {pr.fds[n]},
       procs := s.procs[p := pr.(phase := ph, kept := pr.kept - {n}, fds := pr.fds - {n})])
  }

  function TakeFd(s: State, p: Pid, n: Slot, ino: Inode, kept: set<Slot>, ph: Phase): State
    requires In(s, p)
  {
    var pr := s.procs[p];
    s.(held := s.held[ino := Holder(p, n)],
       procs := s.procs[p := pr.(phase := ph, kept := kept, fds := pr.fds[n := ino])])
  }

  function Write(s: State, n: Slot, key: string, ttl: nat): State {
    s.(leases := s.leases[n := Lease(key, s.now + ttl)])
  }

  // ---------------------------------------------------------------- events
  // CanX is the guard of an event, DoX the state after it.

  ghost predicate CanSpawn(s: State, p: Pid, job: Job) {
    && p !in s.procs && p !in s.dead
    // one lease call in flight per key
    && (job.LeaseCall? ==> job.key != "" && forall q :: q in s.procs ==> s.procs[q].job != job)
  }

  function DoSpawn(s: State, p: Pid, job: Job): State {
    s.(procs := s.procs[p := Proc(job, if job.LeaseCall? then Listing else Ready, {}, map[])])
  }

  /** Process death, by any cause and at any point, frees every kernel lock. */
  function DoDie(s: State, p: Pid): State {
    s.(procs := s.procs - {p},
       dead := s.dead + {p},
       alloc := if s.alloc == Some(p) then None else s.alloc,
       held := map i | i in s.held && s.held[i].pid != p :: s.held[i],
       gate := map g | g in s.gate && s.gate[g] != p :: s.gate[g])
  }

  function DoTick(s: State, d: nat): State {
    s.(now := s.now + d)
  }

  predicate CanListSlots(s: State, p: Pid) { In(s, p) && Ph(s, p).Listing? }

  function DoListSlots(s: State, p: Pid): State
    requires In(s, p)
  {
    Goto(s, p, Scanning(s.dirs))
  }

  predicate CanScanSlot(s: State, p: Pid, m: Slot, ttl: nat) {
    In(s, p) && Ph(s, p).Scanning? && m in Ph(s, p).todo && 0 < ttl && s.procs[p].job.LeaseCall?
  }

  /** Sticky renewal of one slot: the lease read and the rewrite are one step. */
  function DoScanSlot(s: State, p: Pid, m: Slot, ttl: nat): State
    requires CanScanSlot(s, p, m, ttl)
  {
    if LiveFor(s, m, s.procs[p].job.key) then Goto(Write(s, m, s.procs[p].job.key, ttl), p, Polling)
    else Goto(s, p, Scanning(Ph(s, p).todo - {m}))
  }

  predicate CanAim(s: State, p: Pid, n: Slot) {
    && In(s, p)
    && (Ph(s, p).Ready? || Ph(s, p) == Scanning({}))
    && !s.procs[p].job.Reap?
    && n !in s.procs[p].kept
  }

  function DoAim(s: State, p: Pid, n: Slot): State
    requires In(s, p)
  {
    Goto(s, p, if s.procs[p].job.Release? then WaitUnlease(n) else WaitClaim(n))
  }

  predicate CanReclaim(s: State, p: Pid) { In(s, p) && Ph(s, p).Ready? && s.procs[p].job.Release? }

  /** A release goes on to tidy up the slot it let go of: it locks it as an
      eviction does, without recreating it. */
  function DoReclaim(s: State, p: Pid, n: Slot): State
    requires CanReclaim(s, p)
  {
    Goto(s, p, WaitClaim(n))
  }

  predicate WaitsForAlloc(ph: Phase) {
    ph.WaitClaim? || ph.WaitRemove? || ph.WaitCleanup? || ph.WaitUnlease?
  }

  predicate CanTakeAlloc(s: State, p: Pid) { In(s, p) && s.alloc.None? && WaitsForAlloc(Ph(s, p)) }

  /** The first step inside the allocation lock.  Only a `with`/`acquire` or a
      lease call takes the census; preboot claims without a cap. */
  function Inside(s: State, pr: Proc): Phase
    requires WaitsForAlloc(pr.phase)
  {
    var n := pr.phase.n;
    if pr.phase.WaitClaim? then
      if Claims(pr.job) then Census(n, s.dirs - pr.kept - {n}, {}) else Entering(n, {})
    else if pr.phase.WaitRemove? then Removing(n)
    else if pr.phase.WaitCleanup? then Cleaning(n)
    else Unleasing(n)
  }

  function DoTakeAlloc(s: State, p: Pid): State
    requires CanTakeAlloc(s, p)
  {
    Goto(s.(alloc := Some(p)), p, Inside(s, s.procs[p]))
  }

  predicate CanProbe(s: State, p: Pid, m: Slot) { In(s, p) && Ph(s, p).Census? && m in Ph(s, p).todo }

  /** The census of one slot: a live lease counts unless it is the caller's own
      key's; else a held flock counts unless reap is shutting the slot down. */
  function DoProbe(s: State, p: Pid, m: Slot): State
    requires CanProbe(s, p, m)
  {
    var ph := Ph(s, p);
    var rest := ph.todo - {m};
    if Live(s, m) then
      var own := s.procs[p].job.LeaseCall? && LiveFor(s, m, s.procs[p].job.key);
      Goto(s, p, Census(ph.n, rest, if own then ph.used else ph.used + {m}))
    else
      var t := Touch(s, m);
      var busy := Flocked(t, m) && !ShutdownInProgress(s, m);
      Goto(t, p, Census(ph.n, rest, if busy then ph.used + {m} else ph.used))
  }

  predicate CanDecide(s: State, p: Pid) { In(s, p) && Ph(s, p).Census? && Ph(s, p).todo == {} }

  /** The use cap. */
  function DoDecide(s: State, p: Pid): State
    requires CanDecide(s, p)
  {
    var ph := Ph(s, p);
    if |ph.used| + |s.procs[p].kept| + 1 > s.max then Yield(s, p, Ready)
    else Goto(s, p, Entering(ph.n, ph.used))
  }

  predicate CanEnter(s: State, p: Pid) { In(s, p) && Ph(s, p).Entering? }

  /** mkdir, except for LockExistingSlot, which never recreates a directory. */
  function DoEnter(s: State, p: Pid): State
    requires CanEnter(s, p)
  {
    var ph := Ph(s, p);
    if (s.procs[p].job.Evict? || s.procs[p].job.Release?) && ph.n !in s.dirs then Yield(s, p, Ready)
    else Goto(s.(dirs := s.dirs + {ph.n}), p, Opening(ph.n, ph.used))
  }

  predicate CanOpen(s: State, p: Pid) { In(s, p) && Ph(s, p).Opening? }

  function DoOpen(s: State, p: Pid): State
    requires CanOpen(s, p)
  {
    var ph := Ph(s, p);
    var t := Touch(s, ph.n);
    Goto(t, p, Flocking(ph.n, ph.used, t.link[ph.n]))
  }

  predicate CanFlock(s: State, p: Pid) { In(s, p) && Ph(s, p).Flocking? }

  /** LOCK_EX|LOCK_NB on the open descriptor, then out of the allocation lock. */
  function DoFlock(s: State, p: Pid): State
    requires CanFlock(s, p)
  {
    var ph := Ph(s, p);
    var kept := s.procs[p].kept;
    if ph.ino in s.held then Yield(s, p, Ready)
    else if s.procs[p].job.Preboot? then TakeFd(s.(alloc := None), p, ph.n, ph.ino, kept + {ph.n}, Polling)
    else TakeFd(s.(alloc := None), p, ph.n, ph.ino, kept, Checking(ph.n))
  }

  predicate CanReadLease(s: State, p: Pid) { In(s, p) && Ph(s, p).Checking? && Ph(s, p).n in s.procs[p].fds }

  /** The lease read every claim makes under the slot's flock. */
  function DoReadLease(s: State, p: Pid): State
    requires CanReadLease(s, p)
  {
    var n := Ph(s, p).n;
    var own := s.procs[p].job.LeaseCall? && LiveFor(s, n, s.procs[p].job.key);
    if Live(s, n) && !own then DropFd(s, p, n, Ready) else Goto(s, p, Vetted(n))
  }

  predicate CanSettle(s: State, p: Pid, ttl: nat) {
    In(s, p) && Ph(s, p).Vetted? && Ph(s, p).n in s.procs[p].fds && 0 < ttl
  }

  /** The rest of the check (poison, recovery) says ok or not; then the slot is
      kept, leased, or (for an eviction) its removal asked for. */
  function DoSettle(s: State, p: Pid, ok: bool, ttl: nat): State
    requires CanSettle(s, p, ttl)
  {
    var n := Ph(s, p).n;
    var pr := s.procs[p];
    if !ok then DropFd(s, p, n, Ready)
    else if pr.job.LeaseCall? then Goto(Write(s, n, pr.job.key, ttl), p, Leased(n))
    else if pr.job.Evict? then Goto(s, p, WaitRemove(n))
    else if pr.job.Release? then Goto(s, p, Leaving(n))
    else s.(procs := s.procs[p := pr.(phase := Ready, kept := pr.kept + {n})])
  }

  predicate CanRemove(s: State, p: Pid) { In(s, p) && Ph(s, p).Removing? }

  /** RemoveSlotDirAbove: count and remove under the allocation lock. */
  function DoRemove(s: State, p: Pid): State
    requires CanRemove(s, p)
  {
    var n := Ph(s, p).n;
    if |s.dirs| <= s.max then Yield(s, p, Leaving(n))
    else
      Yield(s.(dirs := s.dirs - {n}, link := s.link - {n}, leases := s.leases - {n}, marker := s.marker - {n}),
            p, Removed(n))
  }

  predicate CanCleanup(s: State, p: Pid) { In(s, p) && Ph(s, p).Cleaning? }

  function DoCleanup(s: State, p: Pid): State
    requires CanCleanup(s, p)
  {
    var n := Ph(s, p).n;
    var expired := n in s.leases && s.leases[n].key != "" && !Live(s, n);
    Yield(if expired then s.(leases := s.leases - {n}) else s, p, Peeked(n))
  }

  predicate CanUnlease(s: State, p: Pid) { In(s, p) && Ph(s, p).Unleasing? && s.procs[p].job.Release? }

  function DoUnlease(s: State, p: Pid): State
    requires CanUnlease(s, p)
  {
    var n := Ph(s, p).n;
    var own := n in s.leases && s.leases[n].key == s.procs[p].job.key;
    Yield(if own then s.(leases := s.leases - {n}) else s, p, Ready)
  }

  predicate CanDrop(s: State, p: Pid) {
    && In(s, p)
    && (Ph(s, p).Leased? || Ph(s, p).Removed? || Ph(s, p).Leaving? || Ph(s, p).Peeked?)
    && Ph(s, p).n in s.procs[p].fds
  }

  /** Drops the pending flock; a lease call goes on to provision without it. */
  function DoDrop(s: State, p: Pid): State
    requires CanDrop(s, p)
  {
    DropFd(s, p, Ph(s, p).n, if Ph(s, p).Leased? then Polling else Ready)
  }

  predicate CanDropKept(s: State, p: Pid, n: Slot) {
    In(s, p) && Ph(s, p).Ready? && n in s.procs[p].kept && n in s.procs[p].fds
  }

  function DoDropKept(s: State, p: Pid, n: Slot): State
    requires CanDropKept(s, p, n)
  {
    DropFd(s, p, n, Ready)
  }

  predicate CanPeek(s: State, p: Pid, n: Slot) { In(s, p) && Ph(s, p).Ready? && s.procs[p].job.Reap? && n in s.dirs }

  /** A bare TryLock opens the lock file outside the allocation lock ... */
  function DoPeek(s: State, p: Pid, n: Slot): State
    requires CanPeek(s, p, n)
  {
    var t := Touch(s, n);
    Goto(t, p, Peeking(n, t.link[n]))
  }

  predicate CanPeekFlock(s: State, p: Pid) { In(s, p) && Ph(s, p).Peeking? }

  /** ... and flocks whatever inode it opened, linked or not. */
  function DoPeekFlock(s: State, p: Pid): State
    requires CanPeekFlock(s, p)
  {
    var ph := Ph(s, p);
    if ph.ino in s.held then Goto(s, p, Ready)
    else TakeFd(s, p, ph.n, ph.ino, s.procs[p].kept, Peeked(ph.n))
  }

  predicate CanPrune(s: State, p: Pid) { In(s, p) && Ph(s, p).Peeked? }

  function DoPrune(s: State, p: Pid): State
    requires CanPrune(s, p)
  {
    Goto(s, p, WaitCleanup(Ph(s, p).n))
  }

  /** A live marker really belongs to reap or to a release that tidies up: it is
      written under the flock of the slot's linked lock file. */
  predicate CanMark(s: State, p: Pid) {
    && In(s, p) && (Ph(s, p).Peeked? || (Ph(s, p).Leaving? && s.procs[p].job.Release?))
    && var n := Ph(s, p).n;
       n in s.procs[p].fds && n in s.link && s.link[n] == s.procs[p].fds[n]
  }

  function DoMark(s: State, p: Pid): State
    requires CanMark(s, p)
  {
    var n := Ph(s, p).n;
    Goto(s.(marker := s.marker[n := Marker(p, s.now)]), p, Marked(n))
  }

  predicate CanUnmark(s: State, p: Pid) { In(s, p) && Ph(s, p).Marked? }

  function DoUnmark(s: State, p: Pid): State
    requires CanUnmark(s, p)
  {
    var n := Ph(s, p).n;
    Goto(s.(marker := s.marker - {n}), p, if s.procs[p].job.Release? then Leaving(n) else Peeked(n))
  }

  predicate CanProvision(s: State, p: Pid) {
    In(s, p) && s.procs[p].job.With? && Ph(s, p).Ready? && s.procs[p].kept != {}
  }

  function DoProvision(s: State, p: Pid): State
    requires CanProvision(s, p)
  {
    Goto(s, p, Polling)
  }

  predicate CanTakeGate(s: State, p: Pid, g: nat) {
    In(s, p) && Ph(s, p).Polling? && g < s.gates && g !in s.gate
  }

  function DoTakeGate(s: State, p: Pid, g: nat): State
    requires CanTakeGate(s, p, g)
  {
    Goto(s.(gate := s.gate[g := p]), p, Booting(g))
  }

  predicate CanLeaveGate(s: State, p: Pid) { In(s, p) && (Ph(s, p).Booting? || Ph(s, p).Polling?) }

  /** The boot is over, or was not needed, or the wait for a gate timed out.
      `with --count` goes on to its next slot, and preboot to its next number. */
  function DoLeaveGate(s: State, p: Pid): State
    requires CanLeaveGate(s, p)
  {
    Goto(if Ph(s, p).Booting? then s.(gate := s.gate - {Ph(s, p).gate}) else s, p,
         if s.procs[p].job.LeaseCall? then Running else Ready)
  }

  /** Event e takes s to t. */
  ghost predicate Step(s: State, e: Event, t: State) {
    match e
    case Spawn(p, job) => CanSpawn(s, p, job) && t == DoSpawn(s, p, job)
    case Tick(d) => t == DoTick(s, d)
    case Die(p) => In(s, p) && t == DoDie(s, p)
    case ListSlots(p) => CanListSlots(s, p) && t == DoListSlots(s, p)
    case ScanSlot(p, m, ttl) => CanScanSlot(s, p, m, ttl) && t == DoScanSlot(s, p, m, ttl)
    case Aim(p, n) => CanAim(s, p, n) && t == DoAim(s, p, n)
    case Reclaim(p, n) => CanReclaim(s, p) && t == DoReclaim(s, p, n)
    case TakeAlloc(p) => CanTakeAlloc(s, p) && t == DoTakeAlloc(s, p)
    case Probe(p, m) => CanProbe(s, p, m) && t == DoProbe(s, p, m)
    case Decide(p) => CanDecide(s, p) && t == DoDecide(s, p)
    case Enter(p) => CanEnter(s, p) && t == DoEnter(s, p)
    case Open(p) => CanOpen(s, p) && t == DoOpen(s, p)
    case Flock(p) => CanFlock(s, p) && t == DoFlock(s, p)
    case ReadLease(p) => CanReadLease(s, p) && t == DoReadLease(s, p)
    case Settle(p, ok, ttl) => CanSettle(s, p, ttl) && t == DoSettle(s, p, ok, ttl)
    case Remove(p) => CanRemove(s, p) && t == DoRemove(s, p)
    case Cleanup(p) => CanCleanup(s, p) && t == DoCleanup(s, p)
    case Unlease(p) => CanUnlease(s, p) && t == DoUnlease(s, p)
    case Drop(p) => CanDrop(s, p) && t == DoDrop(s, p)
    case DropKept(p, n) => CanDropKept(s, p, n) && t == DoDropKept(s, p, n)
    case Peek(p, n) => CanPeek(s, p, n) && t == DoPeek(s, p, n)
    case PeekFlock(p) => CanPeekFlock(s, p) && t == DoPeekFlock(s, p)
    case Prune(p) => CanPrune(s, p) && t == DoPrune(s, p)
    case Mark(p) => CanMark(s, p) && t == DoMark(s, p)
    case Unmark(p) => CanUnmark(s, p) && t == DoUnmark(s, p)
    case Provision(p) => CanProvision(s, p) && t == DoProvision(s, p)
    case TakeGate(p, g) => CanTakeGate(s, p, g) && t == DoTakeGate(s, p, g)
    case LeaveGate(p) => CanLeaveGate(s, p) && t == DoLeaveGate(s, p)
  }
}
