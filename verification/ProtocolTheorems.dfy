/** What holds over whole runs of the slot ownership protocol. */
module ProtocolTheorems {
  import opened Wrappers
  import opened Protocol
  import opened ProtocolInvariant
  import opened ProtocolSteps
  import opened ProtocolEvents
  import opened ProtocolRest

  // ---------------------------------------------------------------- births, deaths and the clock

  lemma SpawnUse(s: State, p: Pid, job: Job)
    requires CanSpawn(s, p, job) && Held(s)
    ensures forall n :: InUse(DoSpawn(s, p, job), n) ==> InUse(s, n)
  {
    forall n | InUse(DoSpawn(s, p, job), n) ensures InUse(s, n) {
      if Flocked(s, n) { assert HeldBy(s, s.link[n], s.held[s.link[n]]); }
    }
  }

  lemma SpawnStep(s: State, p: Pid, job: Job)
    requires CanSpawn(s, p, job) && Held(s)
    ensures StepOf(s, DoSpawn(s, p, job), p)
  {
    SpawnUse(s, p, job);
    hide InUse, Held;
  }

  lemma SpawnSelf(s: State, p: Pid, job: Job)
    requires CanSpawn(s, p, job) && s.alloc != Some(p)
    ensures ProcOk(DoSpawn(s, p, job), p)
  {
    hide InUse;
  }

  lemma SpawnRest(s: State, p: Pid, job: Job)
    requires CanSpawn(s, p, job) && Held(s) && Disk(s) && Gates(s)
    ensures var t := DoSpawn(s, p, job); Held(t) && Disk(t) && Gates(t)
  {
    hide Gates;
    var t := DoSpawn(s, p, job);
    forall i | i in t.held ensures HeldBy(t, i, t.held[i]) { assert HeldBy(s, i, s.held[i]); }
    GatesSame(s, t, p);
  }

  lemma SpawnMarkers(s: State, p: Pid, job: Job)
    requires CanSpawn(s, p, job) && Markers(s)
    ensures Markers(DoSpawn(s, p, job))
  {
    var t := DoSpawn(s, p, job);
    forall n | n in t.marker ensures MarkerOk(t, n, t.marker[n].pid) {
      assert MarkerOk(s, n, s.marker[n].pid);
    }
  }

  lemma SpawnKeeps(s: State, p: Pid, job: Job)
    requires Inv(s) && CanSpawn(s, p, job)
    ensures Inv(DoSpawn(s, p, job))
  {
    assert OneCallPerKey(DoSpawn(s, p, job));
    hide ProcOk, Disk, Held, Markers, Gates, OneCallPerKey, InUse, InUseSet, StepOf;
    assert s.alloc != Some(p);
    SpawnStep(s, p, job);
    SpawnSelf(s, p, job);
    SpawnRest(s, p, job);
    SpawnMarkers(s, p, job);
    SpawnUse(s, p, job);
    CapStays(s, DoSpawn(s, p, job));
    Assemble(s, DoSpawn(s, p, job), p);
  }

  lemma DieStep(s: State, p: Pid)
    requires In(s, p)
    ensures StepOf(s, DoDie(s, p), p)
    ensures forall n :: InUse(DoDie(s, p), n) ==> InUse(s, n)
  {
    var t := DoDie(s, p);
    forall n | InUse(t, n) ensures InUse(s, n) {}
    hide InUse;
  }

  lemma DieRest(s: State, p: Pid)
    requires In(s, p) && Held(s) && Disk(s) && Markers(s) && Gates(s) && OneCallPerKey(s)
    ensures var t := DoDie(s, p); Held(t) && Disk(t) && Markers(t) && Gates(t) && OneCallPerKey(t)
    requires forall q :: q in s.procs ==> ProcOk(s, q)
  {
    hide ProcOk, Held, Markers, Gates, OneCallPerKey, DoDie;
    DieLocks(s, p);
    DieMarkers(s, p);
    DieGates(s, p);
  }

  lemma DieLocks(s: State, p: Pid)
    requires In(s, p) && Held(s) && Disk(s) && OneCallPerKey(s)
    ensures var t := DoDie(s, p); Held(t) && Disk(t) && OneCallPerKey(t)
  {
    var t := DoDie(s, p);
    forall i | i in t.held ensures HeldBy(t, i, t.held[i]) { assert HeldBy(s, i, s.held[i]); }
  }

  lemma DieMarkers(s: State, p: Pid)
    requires In(s, p) && Markers(s)
    ensures Markers(DoDie(s, p))
  {
    var t := DoDie(s, p);
    forall n | n in t.marker ensures MarkerOk(t, n, t.marker[n].pid) {
      assert MarkerOk(s, n, s.marker[n].pid);
    }
  }

  lemma DieGone(s: State, p: Pid)
    requires In(s, p)
    ensures var t := DoDie(s, p);
            && t.gates == s.gates && t.procs == s.procs - {p}
            && (forall g :: g in t.gate <==> g in s.gate && s.gate[g] != p)
            && (forall g :: g in t.gate ==> t.gate[g] == s.gate[g])
  {
  }

  lemma DieGates(s: State, p: Pid)
    requires In(s, p) && Gates(s)
    ensures Gates(DoDie(s, p))
  {
    hide DoDie;
    var t := DoDie(s, p);
    DieGone(s, p);
    forall g | g in t.gate ensures g < t.gates && t.gate[g] in t.procs && t.procs[t.gate[g]].phase == Booting(g) {
      assert g in s.gate && s.gate[g] != p;
    }
    forall q | q in t.procs && t.procs[q].phase.Booting?
      ensures t.procs[q].phase.gate in t.gate && t.gate[t.procs[q].phase.gate] == q
    {
      assert q in s.procs && s.procs[q] == t.procs[q] && q != p;
    }
  }

  lemma DieKeeps(s: State, p: Pid)
    requires Inv(s) && In(s, p)
    ensures Inv(DoDie(s, p))
  {
    hide ProcOk, Disk, Held, Markers, Gates, OneCallPerKey, InUse, InUseSet, StepOf;
    DieStep(s, p);
    DieRest(s, p);
    CapStays(s, DoDie(s, p));
    Assemble(s, DoDie(s, p), p);
  }

  // The clock is nobody's step; any pid that does not exist may stand for it.

  lemma TickStep(s: State, d: nat, p: Pid)
    requires p !in s.procs && s.alloc != Some(p) && Held(s)
    ensures StepOf(s, DoTick(s, d), p)
    ensures forall n :: InUse(DoTick(s, d), n) ==> InUse(s, n)
  {
    var t := DoTick(s, d);
    forall n | InUse(t, n) ensures InUse(s, n) {}
    hide InUse;
  }

  lemma TickRest(s: State, d: nat)
    requires Held(s) && Disk(s) && Markers(s) && Gates(s) && OneCallPerKey(s)
    ensures var t := DoTick(s, d); Held(t) && Disk(t) && Markers(t) && Gates(t) && OneCallPerKey(t)
  {
    var t := DoTick(s, d);
    forall i | i in t.held ensures HeldBy(t, i, t.held[i]) { assert HeldBy(s, i, s.held[i]); }
    forall n | n in t.marker ensures MarkerOk(t, n, t.marker[n].pid) {
      assert MarkerOk(s, n, s.marker[n].pid);
    }
  }

  lemma Outside(a: set<nat>) returns (x: nat)
    ensures forall m :: m in a ==> m < x
  {
    if a == {} {
      x := 0;
    } else {
      var m :| m in a;
      var y := Outside(a - {m});
      x := if y <= m then m + 1 else y;
      forall k | k in a ensures k < x { assert k == m || k in a - {m}; }
    }
  }

  lemma TickKeeps(s: State, d: nat)
    requires Inv(s)
    ensures Inv(DoTick(s, d))
  {
    hide ProcOk, Disk, Held, Markers, Gates, OneCallPerKey, InUse, InUseSet, StepOf;
    var p := Outside(s.procs.Keys);
    assert p !in s.procs;
    TickStep(s, d, p);
    TickRest(s, d);
    CapStays(s, DoTick(s, d));
    Assemble(s, DoTick(s, d), p);
  }

  // ---------------------------------------------------------------- every event keeps the invariant

  lemma MovingKeeps(s: State, e: Event, t: State)
    requires Inv(s) && Step(s, e, t)
    requires e.ListSlots? || e.Aim? || e.Reclaim? || e.TakeAlloc? || e.Peek? || e.Prune? || e.Provision?
    ensures Inv(t)
  {
    hide Inv, ProcOk, Disk, Moved, Arrived, DoListSlots, DoAim, DoReclaim, DoTakeAlloc, DoDecide, DoEnter, DoOpen, DoPeek, DoPrune, DoProvision;
    assert In(s, e.p);
    Self(s, e.p);
    InvDisk(s);
    match e
    case ListSlots(p) => ListSlotsMoves(s, p); Moves(s, t, p);
    case Aim(p, n) => AimMoves(s, p, n); Moves(s, t, p);
    case Reclaim(p, n) => ReclaimMoves(s, p, n); Moves(s, t, p);
    case TakeAlloc(p) => TakeAllocMoves(s, p); Moves(s, t, p);
    case Peek(p, n) => PeekMoves(s, p, n); Moves(s, t, p);
    case Prune(p) => PruneMoves(s, p); Moves(s, t, p);
    case Provision(p) => ProvisionMoves(s, p); Moves(s, t, p);
  }

  lemma ProbeKeeps(s: State, p: Pid, m: Slot)
    requires Inv(s) && CanProbe(s, p, m)
    ensures Inv(DoProbe(s, p, m))
  {
    hide ProcOk, Disk, Held, Gates, OneCallPerKey, InUse, InUseSet, Moved, Arrived, MarkedBy;
    Self(s, p);
    if InUse(s, m) {
      if !Live(s, m) && ShutdownInProgress(s, m) {
        assert MarkerOk(s, m, s.marker[m].pid);
        Self(s, s.marker[m].pid);
        MarkedNotInUse(s, m, s.marker[m].pid);
        assert false;
      }
      ProbeCounts(s, p, m);
    }
    ProbeMoves(s, p, m);
    Moves(s, DoProbe(s, p, m), p);
  }

  lemma StepKeeps(s: State, e: Event, t: State)
    requires Inv(s) && Step(s, e, t)
    ensures Inv(t)
  {
    hide Inv, ProcOk, Moved, Arrived, DoSpawn, DoDie, DoTick, DoListSlots, DoScanSlot, DoAim,
         DoReclaim, DoTakeAlloc, DoProbe, DoDecide, DoEnter, DoOpen, DoFlock,
         DoReadLease, DoSettle, DoRemove, DoCleanup, DoUnlease, DoDropKept, DoPeek,
         DoPeekFlock, DoPrune, DoMark, DoUnmark, DoProvision, DoTakeGate, DoLeaveGate;
    match e
    case Spawn(p, job) => SpawnKeeps(s, p, job);
    case Die(p) => DieKeeps(s, p);
    case Tick(d) => TickKeeps(s, d);
    case ScanSlot(p, m, ttl) => ScanSlotKeeps(s, p, m, ttl);
    case Probe(p, m) => ProbeKeeps(s, p, m);
    case Flock(p) => FlockKeeps(s, p);
    case ReadLease(p) => ReadLeaseKeeps(s, p);
    case Settle(p, ok, ttl) => SettleKeeps(s, p, ok, ttl);
    case Remove(p) => RemoveKeeps(s, p);
    case Cleanup(p) => CleanupKeeps(s, p);
    case Unlease(p) => UnleaseKeeps(s, p);
    case Drop(p) => DropsPending(s, p, if s.procs[p].phase.Leased? then Polling else Ready);
    case DropKept(p, n) => DropKeptKeeps(s, p, n);
    case PeekFlock(p) => PeekFlockKeeps(s, p);
    case Mark(p) => MarkKeeps(s, p);
    case Unmark(p) => UnmarkKeeps(s, p);
    case TakeGate(p, g) => TakeGateKeeps(s, p, g);
    case LeaveGate(p) => LeaveGateKeeps(s, p);
    case Decide(p) => Self(s, p); DecideMoves(s, p); Moves(s, t, p);
    case Enter(p) => Self(s, p); EnterMoves(s, p); Moves(s, t, p);
    case Open(p) => Self(s, p); OpenMoves(s, p); Moves(s, t, p);
    case _ => MovingKeeps(s, e, t);
  }

  // ---------------------------------------------------------------- runs

  /** Nobody is running, no lease is live, and every marker is a dead process's. */
  ghost predicate Init(s: State) {
    && Disk(s)
    && (forall n :: !Live(s, n))
    && (forall n :: n in s.marker ==> s.marker[n].pid in s.dead)
    && s.procs == map[] && s.held == map[] && s.gate == map[] && s.alloc == None
  }

  /** ss is a run of the protocol, with any interleaving of any processes. */
  ghost predicate Run(ss: seq<State>, es: seq<Event>) {
    && |ss| == |es| + 1
    && Init(ss[0])
    && forall i :: 0 <= i < |es| ==> Step(ss[i], es[i], ss[i + 1])
  }

  lemma InitInv(s: State)
    requires Init(s)
    ensures Inv(s)
  {
    assert InUseSet(s) == {};
  }

  lemma {:induction false} Reachable(ss: seq<State>, es: seq<Event>, i: nat)
    requires Run(ss, es) && i < |ss|
    ensures Inv(ss[i])
  {
    hide Inv, Init, Step;
    if i == 0 {
      InitInv(ss[0]);
    } else {
      Reachable(ss, es, i - 1);
      StepKeeps(ss[i - 1], es[i - 1], ss[i]);
    }
  }

  // ---------------------------------------------------------------- the use cap

  /** Slots kept by a `with`/`acquire` past its availability check. */
  ghost predicate Owns(s: State, p: Pid, n: Slot) {
    In(s, p) && s.procs[p].job.With? && n in s.procs[p].kept
  }

  ghost function OwnedSet(s: State): set<Slot> {
    set n | n in s.dirs && exists p :: Owns(s, p, n)
  }

  ghost function LeasedSet(s: State): set<Slot> {
    set n | n in s.dirs && Live(s, n)
  }

  lemma OwnedInUse(s: State, p: Pid, n: Slot)
    requires In(s, p) && ProcOk(s, p) && Disk(s) && Owns(s, p, n)
    ensures n in s.dirs && InUse(s, n) && !Live(s, n)
    ensures n in s.procs[p].fds && n in s.link && s.link[n] == s.procs[p].fds[n]
    ensures Flocked(s, n) && s.held[s.link[n]] == Holder(p, n)
  {
    assert FdOk(s, p, n);
  }

  /** In every reachable state the slots owned by `with`/`acquire` plus the
      slots under a live lease number at most max, and no slot is both. */
  lemma UseCap(ss: seq<State>, es: seq<Event>, i: nat)
    requires Run(ss, es) && i < |ss|
    ensures |OwnedSet(ss[i])| + |LeasedSet(ss[i])| <= ss[i].max
    ensures OwnedSet(ss[i]) !! LeasedSet(ss[i])
    ensures forall p, n :: Owns(ss[i], p, n) ==> n in OwnedSet(ss[i])
    ensures forall n :: Live(ss[i], n) ==> n in LeasedSet(ss[i])
  {
    Reachable(ss, es, i);
    var s := ss[i];
    hide Run, ProcOk, InUse, Held, Markers, Gates, OneCallPerKey;
    forall p, n | Owns(s, p, n) ensures n in s.dirs && InUse(s, n) && !Live(s, n) {
      Self(s, p);
      OwnedInUse(s, p, n);
    }
    forall n | Live(s, n) ensures InUse(s, n) { LiveInUse(s, n); }
    assert OwnedSet(s) + LeasedSet(s) <= InUseSet(s);
    Smaller(OwnedSet(s) + LeasedSet(s), InUseSet(s));
    assert |OwnedSet(s) + LeasedSet(s)| == |OwnedSet(s)| + |LeasedSet(s)|;
  }

  lemma LiveInUse(s: State, n: Slot)
    requires Live(s, n)
    ensures InUse(s, n)
  {
  }

  // ---------------------------------------------------------------- exclusive hand-out

  /** No slot ever has two owners, or an owner and a live lease. */
  lemma ExclusiveHandOut(ss: seq<State>, es: seq<Event>, i: nat, n: Slot, p: Pid)
    requires Run(ss, es) && i < |ss| && Owns(ss[i], p, n)
    ensures !Live(ss[i], n)
    ensures forall q :: Owns(ss[i], q, n) ==> q == p
  {
    Reachable(ss, es, i);
    var s := ss[i];
    hide Run, ProcOk, InUse, InUseSet, Held, Markers, Gates, OneCallPerKey;
    forall q | Owns(s, q, n) ensures s.held[s.link[n]] == Holder(q, n) && !Live(s, n) {
      Self(s, q);
      OwnedInUse(s, q, n);
    }
    assert Owns(s, p, n);
  }

  // ---------------------------------------------------------------- what one event can change

  function Actor(e: Event): Option<Pid> {
    if e.Tick? then None else Some(e.p)
  }

  /** How many more steps the allocation lock's holder takes before it lets go. */
  function AllocRank(ph: Phase): nat {
    if ph.Census? then |ph.todo| + 5
    else if ph.Entering? then 4
    else if ph.Opening? then 3
    else if ph.Flocking? then 2
    else 1
  }

  /** Only Enter adds a directory and only Remove takes one away; five events write leases. */
  predicate DiskFrame(s: State, e: Event, t: State) {
    && t.max == s.max
    && (|| t.dirs == s.dirs
        || (e.Enter? && In(s, e.p) && s.procs[e.p].phase.Entering? && t.dirs == s.dirs + {s.procs[e.p].phase.n})
        || (e.Remove? && In(s, e.p) && s.procs[e.p].phase.Removing? && |s.dirs| > s.max
            && t.dirs == s.dirs - {s.procs[e.p].phase.n}))
    && (e.ScanSlot? || e.Settle? || e.Remove? || e.Cleanup? || e.Unlease? || t.leases == s.leases)
    && (!e.Tick? ==> t.now == s.now)
  }

  /** The allocation lock and the processes: only the actor's own change, and
      its holder is one step closer to letting go. */
  ghost predicate ActorFrame(s: State, e: Event, t: State) {
    && (forall q :: Actor(e) != Some(q) ==> (q in s.procs <==> q in t.procs))
    && (forall q :: Actor(e) != Some(q) && q in s.procs ==> t.procs[q] == s.procs[q])
    && ((HoldsIt(s, e) ==> s.alloc == Actor(e)) ==> AllocFrame(s, e, t))
  }

  predicate AllocFrame(s: State, e: Event, t: State) {
    if HoldsIt(s, e) then
      t.alloc == None || (In(t, e.p) && t.alloc == s.alloc && AllocRank(t.procs[e.p].phase) < AllocRank(s.procs[e.p].phase))
    else
      t.alloc == s.alloc || s.alloc == None || s.alloc == Actor(e)
  }

  /** The actor's phase is one inside the allocation lock. */
  predicate HoldsIt(s: State, e: Event) {
    !e.Tick? && In(s, e.p) && HoldsAlloc(s.procs[e.p].phase)
  }

  ghost predicate Framed(s: State, e: Event, t: State) {
    DiskFrame(s, e, t) && ActorFrame(s, e, t)
  }

  lemma SpawnFrame(s: State, p: Pid, job: Job)
    requires CanSpawn(s, p, job)
    ensures Framed(s, Spawn(p, job), DoSpawn(s, p, job))
  {
  }

  lemma DieFrame(s: State, p: Pid)
    requires In(s, p)
    ensures Framed(s, Die(p), DoDie(s, p))
  {
  }

  lemma TickFrame(s: State, d: nat)
    ensures Framed(s, Tick(d), DoTick(s, d))
  {
  }

  lemma ListSlotsFrame(s: State, p: Pid)
    requires CanListSlots(s, p)
    ensures Framed(s, ListSlots(p), DoListSlots(s, p))
  {
  }

  lemma ScanSlotFrame(s: State, p: Pid, m: Slot, ttl: nat)
    requires CanScanSlot(s, p, m, ttl)
    ensures Framed(s, ScanSlot(p, m, ttl), DoScanSlot(s, p, m, ttl))
  {
  }

  lemma AimFrame(s: State, p: Pid, n: Slot)
    requires CanAim(s, p, n)
    ensures Framed(s, Aim(p, n), DoAim(s, p, n))
  {
  }

  lemma ReclaimFrame(s: State, p: Pid, n: Slot)
    requires CanReclaim(s, p)
    ensures Framed(s, Reclaim(p, n), DoReclaim(s, p, n))
  {
  }

  lemma TakeAllocFrame(s: State, p: Pid)
    requires CanTakeAlloc(s, p)
    ensures Framed(s, TakeAlloc(p), DoTakeAlloc(s, p))
  {
  }

  lemma ProbeFrame(s: State, p: Pid, m: Slot)
    requires CanProbe(s, p, m)
    ensures Framed(s, Probe(p, m), DoProbe(s, p, m))
  {
    assert |Ph(s, p).todo - {m}| < |Ph(s, p).todo|;
  }

  lemma DecideFrame(s: State, p: Pid)
    requires CanDecide(s, p)
    ensures Framed(s, Decide(p), DoDecide(s, p))
  {
  }

  lemma EnterFrame(s: State, p: Pid)
    requires CanEnter(s, p)
    ensures Framed(s, Enter(p), DoEnter(s, p))
  {
  }

  lemma OpenFrame(s: State, p: Pid)
    requires CanOpen(s, p)
    ensures Framed(s, Open(p), DoOpen(s, p))
  {
  }

  lemma FlockFrame(s: State, p: Pid)
    requires CanFlock(s, p)
    ensures Framed(s, Flock(p), DoFlock(s, p))
  {
    hide Framed, DoFlock, OnlyMoves;
    FlockYields(s, p);
    YieldFrame(s, Flock(p), DoFlock(s, p), p);
  }

  lemma FlockYields(s: State, p: Pid)
    requires CanFlock(s, p)
    ensures var t := DoFlock(s, p); p in t.procs && t.alloc == None && OnlyMoves(s, t, p)
  {
    hide TakeFd, OnlyMoves;
    var n, ino, kept := s.procs[p].phase.n, s.procs[p].phase.ino, s.procs[p].kept;
    YieldMoves1(s, p, Ready);
    TakeFdMoves1(s, p, n, ino, kept, Checking(n));
    TakeFdMoves1(s, p, n, ino, kept + {n}, Polling);
  }

  /** Only p, the flocks and the allocation lock differ. */
  predicate OnlyMoves(s: State, t: State, p: Pid) {
    && t.procs.Keys == s.procs.Keys && (forall q :: q in s.procs && q != p ==> t.procs[q] == s.procs[q])
    && t.max == s.max && t.dirs == s.dirs && t.now == s.now && t.leases == s.leases
  }

  lemma YieldMoves1(s: State, p: Pid, ph: Phase)
    requires In(s, p)
    ensures OnlyMoves(s, Yield(s, p, ph), p)
  {
  }

  lemma TakeFdMoves1(s: State, p: Pid, n: Slot, ino: Inode, kept: set<Slot>, ph: Phase)
    requires In(s, p)
    ensures var t := TakeFd(s.(alloc := None), p, n, ino, kept, ph); p in t.procs && t.alloc == None && OnlyMoves(s, t, p)
  {
  }

  /** A step that moves its own process out of the allocation lock. */
  lemma YieldFrame(s: State, e: Event, t: State, p: Pid)
    requires In(s, p) && Actor(e) == Some(p) && e.Flock? && HoldsAlloc(s.procs[p].phase)
    requires p in t.procs && t.alloc == None && OnlyMoves(s, t, p)
    ensures Framed(s, e, t)
  {
  }

  lemma ReadLeaseFrame(s: State, p: Pid)
    requires CanReadLease(s, p)
    ensures Framed(s, ReadLease(p), DoReadLease(s, p))
  {
  }

  lemma SettleFrame(s: State, p: Pid, ok: bool, ttl: nat)
    requires CanSettle(s, p, ttl)
    ensures Framed(s, Settle(p, ok, ttl), DoSettle(s, p, ok, ttl))
  {
    hide Framed, DoSettle, Local;
    SettleIsLocal(s, p, ok, ttl);
    LocalFrame(s, Settle(p, ok, ttl), DoSettle(s, p, ok, ttl), p);
  }

  lemma SettleIsLocal(s: State, p: Pid, ok: bool, ttl: nat)
    requires CanSettle(s, p, ttl)
    ensures Local(s, DoSettle(s, p, ok, ttl), p)
  {
    hide Local, Write, DropFd, Goto;
    var n := s.procs[p].phase.n;
    DropIsLocal(s, p, n, Ready);
    GotoIsLocal(s, p, WaitRemove(n));
    GotoIsLocal(s, p, Leaving(n));
    if s.procs[p].job.LeaseCall? { WriteIsLocal(s, p, n, s.procs[p].job.key, ttl, Leased(n)); }
    KeepIsLocal(s, p, n);
  }

  /** Only p and leases differ. */
  predicate Local(s: State, t: State, p: Pid) {
    && t.procs.Keys == s.procs.Keys && p in t.procs && t.alloc == s.alloc
    && (forall q :: q in s.procs && q != p ==> t.procs[q] == s.procs[q])
    && t.max == s.max && t.dirs == s.dirs && t.now == s.now
  }

  lemma DropIsLocal(s: State, p: Pid, n: Slot, ph: Phase)
    requires In(s, p) && n in s.procs[p].fds
    ensures Local(s, DropFd(s, p, n, ph), p)
  {
  }

  lemma GotoIsLocal(s: State, p: Pid, ph: Phase)
    requires In(s, p)
    ensures Local(s, Goto(s, p, ph), p)
  {
  }

  lemma WriteIsLocal(s: State, p: Pid, n: Slot, key: string, ttl: nat, ph: Phase)
    requires In(s, p)
    ensures In(Write(s, n, key, ttl), p) && Local(s, Goto(Write(s, n, key, ttl), p, ph), p)
  {
  }

  lemma KeepIsLocal(s: State, p: Pid, n: Slot)
    requires In(s, p)
    ensures var pr := s.procs[p];
            Local(s, s.(procs := s.procs[p := pr.(phase := Ready, kept := pr.kept + {n})]), p)
  {
  }

  /** A step that only moves its own process, and leases. */
  lemma LocalFrame(s: State, e: Event, t: State, p: Pid)
    requires In(s, p) && Actor(e) == Some(p) && e.Settle? && !HoldsAlloc(s.procs[p].phase)
    requires Local(s, t, p)
    ensures Framed(s, e, t)
  {
  }

  lemma RemoveFrame(s: State, p: Pid)
    requires CanRemove(s, p)
    ensures Framed(s, Remove(p), DoRemove(s, p))
  {
  }

  lemma CleanupFrame(s: State, p: Pid)
    requires CanCleanup(s, p)
    ensures Framed(s, Cleanup(p), DoCleanup(s, p))
  {
  }

  lemma UnleaseFrame(s: State, p: Pid)
    requires CanUnlease(s, p)
    ensures Framed(s, Unlease(p), DoUnlease(s, p))
  {
  }

  lemma DropFrame(s: State, p: Pid)
    requires CanDrop(s, p)
    ensures Framed(s, Drop(p), DoDrop(s, p))
  {
  }

  lemma DropKeptFrame(s: State, p: Pid, n: Slot)
    requires CanDropKept(s, p, n)
    ensures Framed(s, DropKept(p, n), DoDropKept(s, p, n))
  {
  }

  lemma PeekFrame(s: State, p: Pid, n: Slot)
    requires CanPeek(s, p, n)
    ensures Framed(s, Peek(p, n), DoPeek(s, p, n))
  {
  }

  lemma PeekFlockFrame(s: State, p: Pid)
    requires CanPeekFlock(s, p)
    ensures Framed(s, PeekFlock(p), DoPeekFlock(s, p))
  {
  }

  lemma PruneFrame(s: State, p: Pid)
    requires CanPrune(s, p)
    ensures Framed(s, Prune(p), DoPrune(s, p))
  {
  }

  lemma MarkFrame(s: State, p: Pid)
    requires CanMark(s, p)
    ensures Framed(s, Mark(p), DoMark(s, p))
  {
  }

  lemma UnmarkFrame(s: State, p: Pid)
    requires CanUnmark(s, p)
    ensures Framed(s, Unmark(p), DoUnmark(s, p))
  {
  }

  lemma ProvisionFrame(s: State, p: Pid)
    requires CanProvision(s, p)
    ensures Framed(s, Provision(p), DoProvision(s, p))
  {
  }

  lemma TakeGateFrame(s: State, p: Pid, g: nat)
    requires CanTakeGate(s, p, g)
    ensures Framed(s, TakeGate(p, g), DoTakeGate(s, p, g))
  {
  }

  lemma LeaveGateFrame(s: State, p: Pid)
    requires CanLeaveGate(s, p)
    ensures Framed(s, LeaveGate(p), DoLeaveGate(s, p))
  {
  }

  lemma Frame(s: State, e: Event, t: State)
    requires Step(s, e, t)
    ensures Framed(s, e, t)
  {
    hide Framed, DoSpawn, DoDie, DoTick, DoListSlots, DoScanSlot, DoAim,
         DoReclaim, DoTakeAlloc, DoProbe, DoDecide, DoEnter, DoOpen, DoFlock,
         DoReadLease, DoSettle, DoRemove, DoCleanup, DoUnlease, DoDrop, DoDropKept, DoPeek,
         DoPeekFlock, DoPrune, DoMark, DoUnmark, DoProvision, DoTakeGate, DoLeaveGate;
    match e
    case Spawn(p, job) => SpawnFrame(s, p, job);
    case Die(p) => DieFrame(s, p);
    case Tick(d) => TickFrame(s, d);
    case ListSlots(p) => ListSlotsFrame(s, p);
    case ScanSlot(p, m, ttl) => ScanSlotFrame(s, p, m, ttl);
    case Aim(p, n) => AimFrame(s, p, n);
    case Reclaim(p, n) => ReclaimFrame(s, p, n);
    case TakeAlloc(p) => TakeAllocFrame(s, p);
    case Probe(p, m) => ProbeFrame(s, p, m);
    case Decide(p) => DecideFrame(s, p);
    case Enter(p) => EnterFrame(s, p);
    case Open(p) => OpenFrame(s, p);
    case Flock(p) => FlockFrame(s, p);
    case ReadLease(p) => ReadLeaseFrame(s, p);
    case Settle(p, ok, ttl) => SettleFrame(s, p, ok, ttl);
    case Remove(p) => RemoveFrame(s, p);
    case _ => LateFrame(s, e, t);
  }

  lemma LateFrame(s: State, e: Event, t: State)
    requires Step(s, e, t)
    requires e.Cleanup? || e.Unlease? || e.Drop? || e.DropKept? || e.Peek? || e.PeekFlock? || e.Prune? || e.Mark? || e.Unmark? || e.Provision? || e.TakeGate? || e.LeaveGate?
    ensures Framed(s, e, t)
  {
    hide Framed, DoSpawn, DoDie, DoTick, DoListSlots, DoScanSlot, DoAim,
         DoReclaim, DoTakeAlloc, DoProbe, DoDecide, DoEnter, DoOpen, DoFlock,
         DoReadLease, DoSettle, DoRemove, DoCleanup, DoUnlease, DoDrop, DoDropKept, DoPeek,
         DoPeekFlock, DoPrune, DoMark, DoUnmark, DoProvision, DoTakeGate, DoLeaveGate;
    match e
    case Cleanup(p) => CleanupFrame(s, p);
    case Unlease(p) => UnleaseFrame(s, p);
    case Drop(p) => DropFrame(s, p);
    case DropKept(p, n) => DropKeptFrame(s, p, n);
    case Peek(p, n) => PeekFrame(s, p, n);
    case PeekFlock(p) => PeekFlockFrame(s, p);
    case Prune(p) => PruneFrame(s, p);
    case Mark(p) => MarkFrame(s, p);
    case Unmark(p) => UnmarkFrame(s, p);
    case Provision(p) => ProvisionFrame(s, p);
    case TakeGate(p, g) => TakeGateFrame(s, p, g);
    case LeaveGate(p) => LeaveGateFrame(s, p);
  }

  lemma OnlyRemoveRemoves(s: State, e: Event, t: State, n: Slot)
    requires Step(s, e, t) && n in s.dirs && n !in t.dirs
    ensures e.Remove? && In(s, e.p) && s.procs[e.p].phase == Removing(n) && |s.dirs| > s.max && t.dirs == s.dirs - {n}
  {
    hide Step;
    Frame(s, e, t);
  }

  lemma RemoverHolds(s: State, p: Pid)
    requires In(s, p) && ProcOk(s, p) && s.procs[p].phase.Removing?
    ensures var n := s.procs[p].phase.n; !Live(s, n) && Flocked(s, n) && s.held[s.link[n]] == Holder(p, n)
    ensures s.procs[p].job.Evict?
  {
    assert FdOk(s, p, s.procs[p].phase.n);
  }

  /** A slot directory disappears only at the hands of an eviction that holds
      the flock of the linked lock file, with no live lease on the slot and
      nobody owning it, and only from a group above max. */
  lemma RemovalSparesUsers(ss: seq<State>, es: seq<Event>, i: nat, n: Slot)
    requires Run(ss, es) && i < |es| && n in ss[i].dirs && n !in ss[i + 1].dirs
    ensures es[i].Remove? && !Live(ss[i], n) && Flocked(ss[i], n) && ss[i].held[ss[i].link[n]] == Holder(es[i].p, n)
    ensures forall q :: !Owns(ss[i], q, n)
    ensures |ss[i].dirs| > ss[i].max
  {
    Reachable(ss, es, i);
    hide Inv, ProcOk, InUse;
    var s := ss[i];
    OnlyRemoveRemoves(s, es[i], ss[i + 1], n);
    Self(s, es[i].p);
    RemoverHolds(s, es[i].p);
    forall q | Owns(s, q, n) ensures s.held[s.link[n]] == Holder(q, n) {
      Self(s, q);
      InvDisk(s);
      OwnedInUse(s, q, n);
    }
  }

  lemma InvDisk(s: State)
    requires Inv(s)
    ensures Disk(s)
  {
    hide Disk;
  }

  /** A group that starts at or above max never drops below it, whatever
      passes run in whatever interleaving. */
  lemma {:induction false} NeverBelowMax(ss: seq<State>, es: seq<Event>, i: nat, j: nat)
    requires Run(ss, es) && i <= j < |ss| && |ss[i].dirs| >= ss[i].max
    ensures |ss[j].dirs| >= ss[j].max == ss[i].max
  {
    hide Step, Init;
    if i < j {
      NeverBelowMax(ss, es, i, j - 1);
      assert Step(ss[j - 1], es[j - 1], ss[j]);
      SizeStep(ss[j - 1], es[j - 1], ss[j]);
    }
  }

  lemma SizeStep(s: State, e: Event, t: State)
    requires Step(s, e, t) && |s.dirs| >= s.max
    ensures t.max == s.max && |t.dirs| >= t.max
  {
    hide Step;
    Frame(s, e, t);
    if n :| n in s.dirs && n !in t.dirs {
      OnlyRemoveRemoves(s, e, t, n);
      assert |t.dirs| == |s.dirs| - 1;
    } else {
      Smaller(s.dirs, t.dirs);
    }
  }

  // ---------------------------------------------------------------- leases

  /** A live lease ends only by the clock or by its own key's release: every
      other event leaves it live and under the same key. */
  lemma LeasesOnlyEndOwn(ss: seq<State>, es: seq<Event>, i: nat, n: Slot)
    requires Run(ss, es) && i < |es| && Live(ss[i], n)
    requires !es[i].Tick?
    requires es[i].Unlease? && In(ss[i], es[i].p) && ss[i].procs[es[i].p].job.Release? ==>
               ss[i].procs[es[i].p].job.key != ss[i].leases[n].key
    ensures LiveFor(ss[i + 1], n, ss[i].leases[n].key)
  {
    Reachable(ss, es, i);
    assert Step(ss[i], es[i], ss[i + 1]);
    var s, e, t := ss[i], es[i], ss[i + 1];
    if In(s, e.p) {
      Self(s, e.p);
      WriterIsAlone(s, e.p, n);
    }
    hide Run, Inv, LeaseKept;
    assert LeaseKept(s, t, n) by {
      match e
      case ScanSlot(p, m, ttl) => RenewLease(s, p, m, ttl, n);
      case Settle(p, ok, ttl) => SettleLease(s, p, ok, ttl, n);
      case Remove(p) => RemoveLease(s, p, n);
      case Cleanup(p) => CleanupLease(s, p, n);
      case Unlease(p) => ReleaseLease(s, p, n);
      case _ => OtherLease(s, e, t, n);
    }
    KeptLive(s, t, n);
  }

  lemma OtherLease(s: State, e: Event, t: State, n: Slot)
    requires Step(s, e, t) && !(e.ScanSlot? || e.Settle? || e.Remove? || e.Cleanup? || e.Unlease? || e.Tick?)
    ensures LeaseKept(s, t, n)
  {
    Frame(s, e, t);
    hide Step, ActorFrame;
  }

  lemma KeptLive(s: State, t: State, n: Slot)
    requires LeaseKept(s, t, n) && Live(s, n)
    ensures LiveFor(t, n, s.leases[n].key)
  {
  }

  /** n's live lease is untouched, or rewritten under the same key. */
  predicate LeaseKept(s: State, t: State, n: Slot) {
    Live(s, n) ==> LiveFor(t, n, s.leases[n].key)
  }

  lemma RenewLease(s: State, p: Pid, m: Slot, ttl: nat, n: Slot)
    requires CanScanSlot(s, p, m, ttl)
    ensures LeaseKept(s, DoScanSlot(s, p, m, ttl), n)
  {
  }

  lemma SettleLease(s: State, p: Pid, ok: bool, ttl: nat, n: Slot)
    requires CanSettle(s, p, ttl) && s.procs[p].phase.n != n
    ensures LeaseKept(s, DoSettle(s, p, ok, ttl), n)
  {
  }

  lemma RemoveLease(s: State, p: Pid, n: Slot)
    requires CanRemove(s, p) && s.procs[p].phase.n != n
    ensures LeaseKept(s, DoRemove(s, p), n)
  {
  }

  lemma CleanupLease(s: State, p: Pid, n: Slot)
    requires CanCleanup(s, p)
    ensures LeaseKept(s, DoCleanup(s, p), n)
  {
  }

  lemma ReleaseLease(s: State, p: Pid, n: Slot)
    requires CanUnlease(s, p) && Live(s, n) && s.procs[p].job.key != s.leases[n].key
    ensures LeaseKept(s, DoUnlease(s, p), n)
  {
  }

  lemma WriterIsAlone(s: State, p: Pid, n: Slot)
    requires In(s, p) && ProcOk(s, p) && Live(s, n)
    ensures s.procs[p].phase.Vetted? || s.procs[p].phase.Removing? ==> s.procs[p].phase.n != n
  {
  }

  // ---------------------------------------------------------------- lock-file identity

  /** A process that holds slot n's flock through the allocation lock holds the
      linked lock file, or is the one that removed the directory; so two such
      processes never both hold slot n with neither having removed it. */
  lemma LockFileIdentity(ss: seq<State>, es: seq<Event>, i: nat, n: Slot, p: Pid)
    requires Run(ss, es) && i < |ss| && In(ss[i], p)
    requires n in ss[i].procs[p].fds && !ss[i].procs[p].job.Reap?
    ensures var s := ss[i]; ss[i].procs[p].phase == Removed(n) || (n in s.link && s.link[n] == s.procs[p].fds[n])
    ensures var s := ss[i]; s.procs[p].phase != Removed(n) ==>
              forall q :: In(s, q) && q != p && n in s.procs[q].fds && !s.procs[q].job.Reap? ==> s.procs[q].phase == Removed(n)
  {
    Reachable(ss, es, i);
    var s := ss[i];
    hide Run, Inv;
    forall q | In(s, q) && n in s.procs[q].fds && !s.procs[q].job.Reap?
      ensures s.procs[q].phase == Removed(n) || (n in s.link && s.link[n] == s.procs[q].fds[n] && Flocked(s, n) && s.held[s.link[n]] == Holder(q, n))
    {
      Self(s, q);
      HoldsLinked(s, q, n);
    }
  }

  lemma HoldsLinked(s: State, q: Pid, n: Slot)
    requires In(s, q) && ProcOk(s, q) && n in s.procs[q].fds && !s.procs[q].job.Reap?
    ensures s.procs[q].phase == Removed(n) || (n in s.link && s.link[n] == s.procs[q].fds[n] && Flocked(s, n) && s.held[s.link[n]] == Holder(q, n))
  {
    assert FdOk(s, q, n);
  }

  // ---------------------------------------------------------------- deadlock freedom

  predicate GateOf(s: State, q: Pid) {
    exists g :: g in s.gate && s.gate[g] == q
  }

  /** p cannot go on until q acts: q holds the allocation lock p is blocked on,
      or one of the boot gates p is polling while all are taken. */
  ghost predicate WaitsFor(s: State, p: Pid, q: Pid) {
    && In(s, p)
    && ((WaitsForAlloc(s.procs[p].phase) && s.alloc == Some(q))
        || (s.procs[p].phase.Polling? && (forall g :: 0 <= g < s.gates ==> g in s.gate) && GateOf(s, q)))
  }

  /** Whoever is waited for waits for nobody: the wait-for relation has no
      path of length two, so no cycle. */
  lemma NobodyWaitsForAWaiter(ss: seq<State>, es: seq<Event>, i: nat, p: Pid, q: Pid)
    requires Run(ss, es) && i < |ss| && WaitsFor(ss[i], p, q)
    ensures In(ss[i], q) && forall r :: !WaitsFor(ss[i], q, r)
  {
    hide Run, Inv;
    Reachable(ss, es, i);
    WaitedForIsBusy(ss[i], p, q);
  }

  lemma WaitedForIsBusy(s: State, p: Pid, q: Pid)
    requires Inv(s) && WaitsFor(s, p, q)
    ensures In(s, q) && !WaitsForAlloc(s.procs[q].phase) && !s.procs[q].phase.Polling?
  {
    hide Inv;
    if s.alloc == Some(q) { HolderPhase(s, q); }
    if GateOf(s, q) { GateHolder(s, q); }
  }

  lemma GateHolder(s: State, q: Pid)
    requires Inv(s) && GateOf(s, q)
    ensures In(s, q) && s.procs[q].phase.Booting?
  {
    hide ProcOk, Disk, Held, Markers, OneCallPerKey, InUseSet;
  }

  /** The lock order: a boot gate is never held while the allocation lock is
      held or asked for.  `with`, `acquire` and preboot hold a slot's flock
      when they take one; a lease call, which drops its flock first, never does. */
  lemma GateOrder(ss: seq<State>, es: seq<Event>, i: nat, p: Pid)
    requires Run(ss, es) && i < |ss| && In(ss[i], p) && ss[i].procs[p].phase.Booting?
    ensures ss[i].alloc != Some(p) && !WaitsForAlloc(ss[i].procs[p].phase)
    ensures ss[i].procs[p].job.LeaseCall? <==> ss[i].procs[p].fds == map[]
  {
    Reachable(ss, es, i);
    hide Run, Inv;
    Self(ss[i], p);
    BootingShape(ss[i], p);
  }

  lemma BootingShape(s: State, p: Pid)
    requires In(s, p) && ProcOk(s, p) && s.procs[p].phase.Booting?
    ensures s.alloc != Some(p)
    ensures s.procs[p].job.LeaseCall? <==> s.procs[p].fds == map[]
  {
    hide LeaseFacts, UseCounted, PathOk, FdOk;
  }

  /** Every step the holder of the allocation lock takes brings it closer to
      letting go, and it always has one: it never waits for any lock. */
  lemma HolderAdvances(ss: seq<State>, es: seq<Event>, i: nat, q: Pid)
    requires Run(ss, es) && i < |ss| && ss[i].alloc == Some(q)
    ensures In(ss[i], q) && exists e, t :: Step(ss[i], e, t) && Actor(e) == Some(q) && !e.Die?
    ensures forall e, t :: Step(ss[i], e, t) && Actor(e) == Some(q) ==>
              t.alloc == None || (In(t, q) && t.alloc == Some(q) && AllocRank(t.procs[q].phase) < AllocRank(ss[i].procs[q].phase))
  {
    Reachable(ss, es, i);
    HolderPhase(ss[i], q);
    HolderCanStep(ss[i], q);
    forall e, t | Step(ss[i], e, t) && Actor(e) == Some(q)
      ensures t.alloc == None || (In(t, q) && t.alloc == Some(q) && AllocRank(t.procs[q].phase) < AllocRank(ss[i].procs[q].phase))
    {
      Frame(ss[i], e, t);
    }
    hide *;
  }

  lemma HolderCanStep(s: State, q: Pid)
    requires In(s, q) && HoldsAlloc(s.procs[q].phase) && (s.procs[q].phase.Unleasing? ==> s.procs[q].job.Release?)
    ensures exists e, t :: Step(s, e, t) && Actor(e) == Some(q) && !e.Die?
  {
    var ph := s.procs[q].phase;
    if ph.Census? && ph.todo != {} {
      var m :| m in ph.todo;
      CanStep(s, Probe(q, m));
    } else {
      CanStep(s, if ph.Census? then Decide(q) else if ph.Entering? then Enter(q) else if ph.Opening? then Open(q)
                 else if ph.Flocking? then Flock(q) else if ph.Removing? then Remove(q) else if ph.Cleaning? then Cleanup(q)
                 else Unlease(q));
    }
    hide Step;
  }

  lemma HolderPhase(s: State, q: Pid)
    requires Inv(s) && s.alloc == Some(q)
    ensures In(s, q) && HoldsAlloc(s.procs[q].phase)
    ensures s.procs[q].phase.Unleasing? ==> s.procs[q].job.Release?
  {
    assert ProcOk(s, q);
    hide LeaseFacts, UseCounted, PathOk, FdOk;
  }

  /** The events of a lock holder are enabled by its phase alone. */
  lemma CanStep(s: State, e: Event)
    requires e.Decide? || e.Probe? || e.Enter? || e.Open? || e.Flock? || e.Remove? || e.Cleanup? || e.Unlease?
    requires In(s, e.p)
    requires e.Decide? ==> CanDecide(s, e.p)
    requires e.Probe? ==> CanProbe(s, e.p, e.m)
    requires e.Enter? ==> CanEnter(s, e.p)
    requires e.Open? ==> CanOpen(s, e.p)
    requires e.Flock? ==> CanFlock(s, e.p)
    requires e.Remove? ==> CanRemove(s, e.p)
    requires e.Cleanup? ==> CanCleanup(s, e.p)
    requires e.Unlease? ==> CanUnlease(s, e.p)
    ensures exists t :: Step(s, e, t)
  {
    hide DoDecide, DoProbe, DoEnter, DoOpen, DoFlock, DoRemove, DoCleanup, DoUnlease;
    if e.Decide? { assert Step(s, e, DoDecide(s, e.p)); }
    else if e.Probe? { assert Step(s, e, DoProbe(s, e.p, e.m)); }
    else if e.Enter? { assert Step(s, e, DoEnter(s, e.p)); }
    else if e.Open? { assert Step(s, e, DoOpen(s, e.p)); }
    else if e.Flock? { assert Step(s, e, DoFlock(s, e.p)); }
    else if e.Remove? { assert Step(s, e, DoRemove(s, e.p)); }
    else if e.Cleanup? { assert Step(s, e, DoCleanup(s, e.p)); }
    else { assert Step(s, e, DoUnlease(s, e.p)); }
  }

  lemma OthersWait(s: State, e: Event, t: State, q: Pid)
    requires Step(s, e, t) && Inv(s) && s.alloc == Some(q) && Actor(e) != Some(q) && In(s, q)
    ensures t.alloc == Some(q) && In(t, q) && t.procs[q] == s.procs[q]
  {
    hide Step, Inv;
    Frame(s, e, t);
    OnlyHolder(s, e, q);
  }

  /** Nobody but q is inside the allocation lock. */
  lemma OnlyHolder(s: State, e: Event, q: Pid)
    requires Inv(s) && s.alloc == Some(q) && Actor(e) != Some(q)
    ensures !HoldsIt(s, e)
  {
    hide Inv, ProcOk;
    if !e.Tick? && In(s, e.p) { Self(s, e.p); Alone(s, e.p); }
  }

  /** Nobody else can take the allocation lock from its holder or delay it. */
  lemma OthersDoNotDelay(ss: seq<State>, es: seq<Event>, i: nat, q: Pid)
    requires Run(ss, es) && i < |es| && ss[i].alloc == Some(q) && Actor(es[i]) != Some(q)
    ensures ss[i + 1].alloc == Some(q) && In(ss[i], q) && In(ss[i + 1], q) && ss[i + 1].procs[q] == ss[i].procs[q]
  {
    hide Inv, Step, Init, HoldsIt;
    Reachable(ss, es, i);
    HolderPhase(ss[i], q);
    assert Step(ss[i], es[i], ss[i + 1]);
    OthersWait(ss[i], es[i], ss[i + 1], q);
  }
}
