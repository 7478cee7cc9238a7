/** The remaining events: leases written and removed, directories removed,
    markers, boot gates, births, deaths and the clock. */
module ProtocolRest {
  import opened Wrappers
  import opened Protocol
  import opened ProtocolInvariant
  import opened ProtocolSteps
  import opened ProtocolEvents

  // ---------------------------------------------------------------- dropping

  predicate Droppable(ph: Phase) {
    ph.Checking? || ph.Vetted? || ph.Leased? || ph.Leaving? || ph.Removed? || ph.Peeked?
  }

  lemma DropFacts(s: State, pr: Proc, n: Slot, ph: Phase)
    requires Facts(s, pr) && n in pr.fds
    requires Droppable(pr.phase)
    requires pr.phase.n == n && ph == if pr.phase.Leased? then Polling else Ready
    ensures Facts(s, pr.(phase := ph, kept := pr.kept - {n}, fds := pr.fds - {n}))
  {
    hide InUse, Live;
  }

  lemma KeptFacts(s: State, pr: Proc, n: Slot)
    requires Facts(s, pr) && pr.phase.Ready? && n in pr.kept
    ensures Facts(s, pr.(kept := pr.kept - {n}, fds := pr.fds - {n}))
  {
    hide InUse, Live;
  }

  /** DropFd of the slot p's phase is about. */
  lemma DropsPending(s: State, p: Pid, ph: Phase)
    requires Inv(s) && In(s, p)
    requires Droppable(s.procs[p].phase)
    requires ph == if s.procs[p].phase.Leased? then Polling else Ready
    requires s.procs[p].phase.n in s.procs[p].fds
    ensures Inv(DropFd(s, p, s.procs[p].phase.n, ph))
  {
    hide ProcOk, Disk, Held, Markers, Gates, OneCallPerKey, InUseSet;
    Self(s, p);
    Alone(s, p);
    DropFacts(s, s.procs[p], s.procs[p].phase.n, ph);
    hide Facts;
    DropKeeps(s, p, s.procs[p].phase.n, ph);
  }

  lemma Alone(s: State, p: Pid)
    requires In(s, p) && ProcOk(s, p)
    ensures Facts(s, s.procs[p])
    ensures HoldsAlloc(s.procs[p].phase) <==> s.alloc == Some(p)
    ensures s.procs[p].phase.Removed? ==> s.procs[p].kept == {}
  {
  }

  lemma DropKeptKeeps(s: State, p: Pid, n: Slot)
    requires Inv(s) && CanDropKept(s, p, n)
    ensures Inv(DoDropKept(s, p, n))
  {
    hide ProcOk, Disk, Held, Markers, Gates, OneCallPerKey, InUseSet;
    Self(s, p);
    Alone(s, p);
    KeptFacts(s, s.procs[p], n);
    hide Facts;
    DropKeeps(s, p, n, Ready);
  }

  // ---------------------------------------------------------------- reading and settling

  lemma VettedFacts(s: State, pr: Proc)
    requires Facts(s, pr) && pr.phase.Checking?
    requires Live(s, pr.phase.n) ==> pr.job.LeaseCall? && LiveFor(s, pr.phase.n, pr.job.key)
    ensures Facts(s, pr.(phase := Vetted(pr.phase.n)))
  {
    hide InUse;
  }

  lemma ReadLeaseKeeps(s: State, p: Pid)
    requires Inv(s) && CanReadLease(s, p)
    ensures Inv(DoReadLease(s, p))
  {
    hide ProcOk, Disk, Held, Markers, Gates, OneCallPerKey, InUseSet, Facts, Moved, Arrived;
    Self(s, p);
    Alone(s, p);
    var pr := s.procs[p];
    if Live(s, pr.phase.n) && !(pr.job.LeaseCall? && LiveFor(s, pr.phase.n, pr.job.key)) {
      DropsPending(s, p, Ready);
    } else {
      VettedFacts(s, pr);
      Goes(s, p, Vetted(pr.phase.n));
      Moves(s, DoReadLease(s, p), p);
    }
  }

  lemma EvictFacts(s: State, pr: Proc)
    requires Facts(s, pr) && pr.phase.Vetted?
    ensures pr.job.Evict? ==> Facts(s, pr.(phase := WaitRemove(pr.phase.n)))
    ensures pr.job.Release? ==> Facts(s, pr.(phase := Leaving(pr.phase.n)))
  {
    hide InUse;
  }

  lemma KeepFacts(s: State, pr: Proc)
    requires Facts(s, pr) && pr.phase.Vetted? && pr.job.With?
    ensures Facts(s, pr.(phase := Ready, kept := pr.kept + {pr.phase.n}))
  {
    hide InUse;
  }

  function Keeping(s: State, p: Pid): State
    requires In(s, p) && s.procs[p].phase.Vetted?
  {
    var pr := s.procs[p];
    s.(procs := s.procs[p := pr.(phase := Ready, kept := pr.kept + {pr.phase.n})])
  }

  lemma KeepStep(s: State, p: Pid)
    requires In(s, p) && s.procs[p].phase.Vetted?
    ensures StepOf(s, Keeping(s, p), p)
    ensures forall n :: InUse(Keeping(s, p), n) ==> InUse(s, n)
  {
    forall n ensures InUse(Keeping(s, p), n) == InUse(s, n) {}
    hide InUse;
  }

  lemma KeepSelf(s: State, p: Pid)
    requires In(s, p) && ProcOk(s, p) && s.procs[p].phase.Vetted? && s.procs[p].job.With?
    ensures ProcOk(Keeping(s, p), p)
  {
    var t := Keeping(s, p);
    forall k | k in t.procs[p].fds ensures FdOk(t, p, k) { assert FdOk(s, p, k); }
    hide InUse, FdOk;
    KeepFacts(s, s.procs[p]);
    KeepStep(s, p);
    FactsCarry(s, t, t.procs[p]);
    hide Facts, StepOf;
  }

  lemma KeepRest(s: State, p: Pid)
    requires In(s, p) && s.procs[p].phase.Vetted? && Held(s) && Disk(s)
    ensures var t := Keeping(s, p); Stays(s, t, p) && Held(t) && Disk(t)
  {
    var t := Keeping(s, p);
    forall i | i in t.held ensures HeldBy(t, i, t.held[i]) { assert HeldBy(s, i, s.held[i]); }
  }

  lemma KeepKeeps(s: State, p: Pid)
    requires Inv(s) && In(s, p) && s.procs[p].phase.Vetted? && s.procs[p].job.With?
    ensures Inv(Keeping(s, p))
  {
    hide ProcOk, Disk, Held, Markers, Gates, OneCallPerKey, InUse, InUseSet, StepOf, Stays;
    var t := Keeping(s, p);
    Self(s, p);
    KeepStep(s, p);
    KeepSelf(s, p);
    KeepRest(s, p);
    CapStays(s, t);
    Finish(s, t, p);
  }

  // ---------------------------------------------------------------- writing a lease

  /** p may write n's lease: it renews its own, or holds the flock of n's lock file. */
  ghost predicate MayWrite(s: State, p: Pid, n: Slot) {
    && In(s, p) && s.procs[p].job.LeaseCall? && n in s.dirs
    && (LiveFor(s, n, s.procs[p].job.key) || (Flocked(s, n) && s.held[s.link[n]] == Holder(p, n)))
  }

  function Written(s: State, p: Pid, n: Slot, ttl: nat, ph: Phase): State
    requires In(s, p) && s.procs[p].job.LeaseCall?
  {
    Goto(Write(s, n, s.procs[p].job.key, ttl), p, ph)
  }

  lemma WriteStep(s: State, p: Pid, n: Slot, ttl: nat, ph: Phase)
    requires MayWrite(s, p, n)
    ensures StepOf(s, Written(s, p, n, ttl, ph), p)
    ensures forall k :: InUse(Written(s, p, n, ttl, ph), k) ==> InUse(s, k)
  {
    var t := Written(s, p, n, ttl, ph);
    forall k | InUse(t, k) ensures InUse(s, k) {}
    forall k | Live(t, k) ensures LiveFor(s, k, t.leases[k].key) || Wrote(s, t, p, k) {}
    hide InUse;
  }

  lemma WriteSelf(s: State, p: Pid, n: Slot, ttl: nat, ph: Phase)
    requires MayWrite(s, p, n) && ProcOk(s, p)
    requires ph.Leased? || ph.Polling?
    requires Shape(s.procs[p].(phase := ph))
    requires !HoldsAlloc(s.procs[p].phase)
    ensures ProcOk(Written(s, p, n, ttl, ph), p)
  {
    var t := Written(s, p, n, ttl, ph);
    forall k | k in t.procs[p].fds ensures FdOk(t, p, k) { assert FdOk(s, p, k); }
    hide FdOk, MayWrite;
  }

  lemma WriteRest(s: State, p: Pid, n: Slot, ttl: nat, ph: Phase)
    requires MayWrite(s, p, n) && Held(s) && Disk(s)
    requires !s.procs[p].phase.Booting? && !ph.Booting?
    ensures var t := Written(s, p, n, ttl, ph); Stays(s, t, p) && Held(t) && Disk(t)
  {
    var t := Written(s, p, n, ttl, ph);
    forall i | i in t.held ensures HeldBy(t, i, t.held[i]) { assert HeldBy(s, i, s.held[i]); }
  }

  lemma WriteKeeps(s: State, p: Pid, n: Slot, ttl: nat, ph: Phase)
    requires Inv(s) && MayWrite(s, p, n)
    requires ph.Leased? || ph.Polling?
    requires Shape(s.procs[p].(phase := ph))
    requires !HoldsAlloc(s.procs[p].phase) && !s.procs[p].phase.Booting? && !s.procs[p].phase.Marked?
    ensures Inv(Written(s, p, n, ttl, ph))
  {
    assert In(s, p) && s.procs[p].job.LeaseCall?;
    hide ProcOk, Disk, Held, Markers, Gates, OneCallPerKey, InUse, InUseSet, StepOf, Stays, MayWrite, Shape;
    var t := Written(s, p, n, ttl, ph);
    Self(s, p);
    WriteStep(s, p, n, ttl, ph);
    WriteSelf(s, p, n, ttl, ph);
    WriteRest(s, p, n, ttl, ph);
    CapStays(s, t);
    Finish(s, t, p);
  }

  lemma SettleReady(s: State, p: Pid)
    requires In(s, p) && ProcOk(s, p) && s.procs[p].phase.Vetted? && Disk(s)
    ensures !HoldsAlloc(s.procs[p].phase)
    ensures s.procs[p].job.LeaseCall? ==> MayWrite(s, p, s.procs[p].phase.n) && Shape(s.procs[p].(phase := Leased(s.procs[p].phase.n)))
    ensures s.procs[p].job.With? || s.procs[p].job.LeaseCall? || s.procs[p].job.Evict? || s.procs[p].job.Release?
  {
    assert FdOk(s, p, s.procs[p].phase.n);
  }

  lemma SettleKeeps(s: State, p: Pid, ok: bool, ttl: nat)
    requires Inv(s) && CanSettle(s, p, ttl)
    ensures Inv(DoSettle(s, p, ok, ttl))
  {
    hide ProcOk, Disk, Held, Markers, Gates, OneCallPerKey, InUse, InUseSet, Facts, Moved, Arrived, MayWrite, Shape;
    var pr := s.procs[p];
    var n := pr.phase.n;
    Self(s, p);
    Alone(s, p);
    SettleReady(s, p);
    if !ok {
      DropsPending(s, p, Ready);
    } else if pr.job.LeaseCall? {
      WriteKeeps(s, p, n, ttl, Leased(n));
    } else if pr.job.Evict? {
      EvictFacts(s, pr);
      Goes(s, p, WaitRemove(n));
      Moves(s, DoSettle(s, p, ok, ttl), p);
    } else if pr.job.Release? {
      EvictFacts(s, pr);
      Goes(s, p, Leaving(n));
      Moves(s, DoSettle(s, p, ok, ttl), p);
    } else {
      KeepKeeps(s, p);
    }
  }

  lemma ScanReady(s: State, p: Pid, m: Slot, ttl: nat)
    requires CanScanSlot(s, p, m, ttl) && ProcOk(s, p) && Disk(s)
    ensures !HoldsAlloc(s.procs[p].phase) && Shape(s.procs[p].(phase := Polling))
    ensures LiveFor(s, m, s.procs[p].job.key) ==> MayWrite(s, p, m)
    ensures !LiveFor(s, m, s.procs[p].job.key) ==> Facts(s, s.procs[p].(phase := Scanning(s.procs[p].phase.todo - {m})))
    ensures PathOk(s, s.procs[p].(phase := Scanning(s.procs[p].phase.todo - {m})))
    ensures s.alloc != Some(p)
  {
    hide InUse;
  }

  lemma ScanSlotKeeps(s: State, p: Pid, m: Slot, ttl: nat)
    requires Inv(s) && CanScanSlot(s, p, m, ttl)
    ensures Inv(DoScanSlot(s, p, m, ttl))
  {
    hide ProcOk, Disk, Held, Markers, Gates, OneCallPerKey, InUse, InUseSet, Facts, Moved, Arrived, MayWrite, Shape;
    Self(s, p);
    ScanReady(s, p, m, ttl);
    if LiveFor(s, m, s.procs[p].job.key) {
      WriteKeeps(s, p, m, ttl, Polling);
    } else {
      Goes(s, p, Scanning(s.procs[p].phase.todo - {m}));
      Moves(s, DoScanSlot(s, p, m, ttl), p);
    }
  }

  // ---------------------------------------------------------------- under the allocation lock: leases and directories removed

  /** p leaves the allocation lock having removed lease files, or a directory
      whose lock file it holds. */
  ghost predicate Removes(s: State, t: State, p: Pid) {
    && In(s, p) && In(t, p) && s.alloc == Some(p) && t.alloc == None
    && t == s.(procs := s.procs[p := t.procs[p]], alloc := None, dirs := t.dirs, link := t.link, leases := t.leases, marker := t.marker)
    && t.procs[p] == s.procs[p].(phase := t.procs[p].phase)
    && !HoldsAlloc(t.procs[p].phase) && !s.procs[p].phase.Booting? && !t.procs[p].phase.Booting?
    && !s.procs[p].phase.Marked? && !s.procs[p].phase.Removed?
    && t.dirs <= s.dirs
    && (forall n :: n in t.link ==> n in s.link && t.link[n] == s.link[n] && n in t.dirs)
    && (forall n :: n in t.leases ==> n in s.leases && t.leases[n] == s.leases[n] && n in t.dirs)
    && (forall n :: n in t.marker ==> n in s.marker && t.marker[n] == s.marker[n])
    && (forall n :: Flocked(s, n) && n !in t.link ==> s.held[s.link[n]] == Holder(p, n) && t.procs[p].phase == Removed(n))
    && (t.procs[p].phase.Removed? ==> s.procs[p].job.Evict?)
    && (forall n :: n in s.link && n !in t.link ==> Flocked(s, n))
  }

  lemma RemovesStep(s: State, t: State, p: Pid)
    requires Removes(s, t, p)
    ensures StepOf(s, t, p)
    ensures forall n :: InUse(t, n) ==> InUse(s, n)
  {
    forall n | InUse(t, n) ensures InUse(s, n) {}
    forall k | Live(t, k) ensures LiveFor(s, k, t.leases[k].key) {}
    hide InUse;
  }

  lemma RemovesRest(s: State, t: State, p: Pid)
    requires Removes(s, t, p) && Held(s) && Disk(s)
    ensures Stays(s, t, p) && Held(t) && Disk(t)
  {
    forall i | i in t.held ensures HeldBy(t, i, t.held[i]) { assert HeldBy(s, i, s.held[i]); }
  }

  lemma RemovesFds(s: State, t: State, p: Pid)
    requires Removes(s, t, p) && ProcOk(s, p)
    ensures forall k :: k in t.procs[p].fds ==> FdOk(t, p, k)
  {
    forall k | k in t.procs[p].fds ensures FdOk(t, p, k) { assert FdOk(s, p, k); }
  }

  lemma RemovesSelf(s: State, t: State, p: Pid)
    requires Removes(s, t, p) && ProcOk(s, p)
    requires Facts(t, t.procs[p]) && PathOk(t, t.procs[p])
    ensures ProcOk(t, p)
  {
    RemovesFds(s, t, p);
    assert t.alloc == None && !HoldsAlloc(t.procs[p].phase) && p !in t.dead;
    hide FdOk, Facts, PathOk, Removes;
  }

  lemma RemovesKeeps(s: State, t: State, p: Pid)
    requires Inv(s) && Removes(s, t, p)
    requires Facts(t, t.procs[p]) && PathOk(t, t.procs[p])
    ensures Inv(t)
  {
    assert In(s, p) && In(t, p) && !s.procs[p].phase.Marked? && t.max == s.max;
    assert forall n :: n in t.marker ==> n in s.marker && t.marker[n] == s.marker[n];
    hide ProcOk, Disk, Held, Markers, Gates, OneCallPerKey, InUse, InUseSet, StepOf, Stays, Removes, Facts, PathOk;
    Self(s, p);
    RemovesStep(s, t, p);
    RemovesSelf(s, t, p);
    RemovesRest(s, t, p);
    CapStays(s, t);
    Finish(s, t, p);
  }

  /** The lease files go, or the whole directory. */
  lemma RemoveRemoves(s: State, p: Pid)
    requires CanRemove(s, p) && ProcOk(s, p) && Disk(s)
    ensures var t := DoRemove(s, p); Removes(s, t, p) && PathOk(t, t.procs[p])
  {
    hide InUse, Live, Facts, Removes, FdOk;
    RemovingHolds(s, p);
    RemovingIsEvict(s, s.procs[p]);
    LeaveRemoves(s, p);
    GoneRemoves(s, p);
  }

  lemma LeaveRemoves(s: State, p: Pid)
    requires In(s, p) && s.procs[p].phase.Removing? && s.alloc == Some(p) && Disk(s)
    ensures Removes(s, Yield(s, p, Leaving(s.procs[p].phase.n)), p)
  {
  }

  lemma GoneRemoves(s: State, p: Pid)
    requires In(s, p) && s.procs[p].phase.Removing? && s.alloc == Some(p) && Disk(s)
    requires s.procs[p].phase.n in s.procs[p].fds && FdOk(s, p, s.procs[p].phase.n) && s.procs[p].job.Evict?
    ensures var n := s.procs[p].phase.n;
            Removes(s, Yield(s.(dirs := s.dirs - {n}, link := s.link - {n}, leases := s.leases - {n}, marker := s.marker - {n}), p, Removed(n)), p)
  {
  }

  lemma RemovingIsEvict(s: State, pr: Proc)
    requires Facts(s, pr) && pr.phase.Removing?
    ensures pr.job.Evict?
  {
    hide LeaseFacts, UseCounted;
  }

  lemma RemovingHolds(s: State, p: Pid)
    requires In(s, p) && ProcOk(s, p) && s.procs[p].phase.Removing?
    ensures s.procs[p].phase.n in s.procs[p].fds && FdOk(s, p, s.procs[p].phase.n)
  {
    hide FdOk, LeaseFacts, UseCounted;
  }

  lemma CleanupRemoves(s: State, p: Pid)
    requires CanCleanup(s, p) && ProcOk(s, p) && Disk(s)
    ensures var t := DoCleanup(s, p); Removes(s, t, p) && PathOk(t, t.procs[p])
  {
    hide InUse, Live;
  }

  lemma UnleaseRemoves(s: State, p: Pid)
    requires CanUnlease(s, p) && ProcOk(s, p) && Disk(s)
    ensures var t := DoUnlease(s, p); Removes(s, t, p) && PathOk(t, t.procs[p])
  {
    hide InUse, Live;
  }

  lemma AfterwardsFacts(s: State, t: State, pr: Proc, ph: Phase)
    requires Facts(s, pr)
    requires || (pr.phase.Removing? && (ph == Leaving(pr.phase.n) || ph == Removed(pr.phase.n)))
             || (pr.phase.Cleaning? && ph == Peeked(pr.phase.n))
             || (pr.phase.Unleasing? && ph == Ready)
    ensures Facts(t, pr.(phase := ph))
  {
    hide InUse, Live;
  }

  lemma RemoveKeeps(s: State, p: Pid)
    requires Inv(s) && CanRemove(s, p)
    ensures Inv(DoRemove(s, p))
  {
    hide ProcOk, Disk, Held, Markers, Gates, OneCallPerKey, InUseSet, Facts, PathOk, Removes;
    Self(s, p);
    Alone(s, p);
    RemoveRemoves(s, p);
    AfterwardsFacts(s, DoRemove(s, p), s.procs[p], DoRemove(s, p).procs[p].phase);
    RemovesKeeps(s, DoRemove(s, p), p);
  }

  lemma CleanupKeeps(s: State, p: Pid)
    requires Inv(s) && CanCleanup(s, p)
    ensures Inv(DoCleanup(s, p))
  {
    hide ProcOk, Disk, Held, Markers, Gates, OneCallPerKey, InUseSet, Facts, PathOk, Removes;
    Self(s, p);
    Alone(s, p);
    CleanupRemoves(s, p);
    AfterwardsFacts(s, DoCleanup(s, p), s.procs[p], Peeked(s.procs[p].phase.n));
    RemovesKeeps(s, DoCleanup(s, p), p);
  }

  lemma UnleaseKeeps(s: State, p: Pid)
    requires Inv(s) && CanUnlease(s, p)
    ensures Inv(DoUnlease(s, p))
  {
    hide ProcOk, Disk, Held, Markers, Gates, OneCallPerKey, InUseSet, Facts, PathOk, Removes;
    Self(s, p);
    Alone(s, p);
    UnleaseRemoves(s, p);
    AfterwardsFacts(s, DoUnlease(s, p), s.procs[p], Ready);
    RemovesKeeps(s, DoUnlease(s, p), p);
  }

  // ---------------------------------------------------------------- markers and gates

  /** p moves between phases that differ only in a marker or a boot gate. */
  ghost predicate Signals(s: State, t: State, p: Pid) {
    && In(s, p) && In(t, p)
    && t == s.(procs := s.procs[p := t.procs[p]], marker := t.marker, gate := t.gate)
    && t.procs[p] == s.procs[p].(phase := t.procs[p].phase)
    && !HoldsAlloc(t.procs[p].phase) && !HoldsAlloc(s.procs[p].phase)
    && !t.procs[p].phase.Removed? && !s.procs[p].phase.Removed?
  }

  lemma SignalsStep(s: State, t: State, p: Pid)
    requires Signals(s, t, p)
    ensures StepOf(s, t, p)
    ensures forall n :: InUse(t, n) == InUse(s, n)
  {
    forall n ensures InUse(t, n) == InUse(s, n) {}
    hide InUse;
  }

  lemma SignalsRest(s: State, t: State, p: Pid)
    requires Signals(s, t, p) && Held(s) && Disk(s) && OneCallPerKey(s)
    ensures Held(t) && Disk(t) && OneCallPerKey(t)
  {
    forall i | i in t.held ensures HeldBy(t, i, t.held[i]) { assert HeldBy(s, i, s.held[i]); }
  }

  lemma SignalsSelf(s: State, t: State, p: Pid)
    requires Signals(s, t, p) && ProcOk(s, p) && Facts(s, t.procs[p]) && PathOk(t, t.procs[p])
    ensures ProcOk(t, p)
  {
    forall k | k in t.procs[p].fds ensures FdOk(t, p, k) { assert FdOk(s, p, k); }
    SignalsStep(s, t, p);
    FactsCarry(s, t, t.procs[p]);
    assert t.alloc == s.alloc && p !in t.dead;
    hide FdOk, Facts, StepOf, InUse;
  }

  lemma SignalsKeeps(s: State, t: State, p: Pid)
    requires Inv(s) && Signals(s, t, p) && Facts(s, t.procs[p]) && PathOk(t, t.procs[p])
    requires Markers(t) && Gates(t)
    ensures Inv(t)
  {
    assert In(s, p) && In(t, p) && t.max == s.max;
    hide ProcOk, Disk, Held, Markers, Gates, OneCallPerKey, InUse, InUseSet, StepOf, Signals, Facts, PathOk;
    Self(s, p);
    SignalsStep(s, t, p);
    SignalsSelf(s, t, p);
    SignalsRest(s, t, p);
    CapStays(s, t);
    Assemble(s, t, p);
  }

  /** Marking and unmarking, and every wait for or hold of a boot gate. */
  lemma SignalFacts(s: State, pr: Proc, ph: Phase)
    requires Facts(s, pr)
    requires || (pr.phase.Peeked? && ph == Marked(pr.phase.n))
             || (pr.phase.Marked? && pr.job.Reap? && ph == Peeked(pr.phase.n))
             || (pr.phase.Leaving? && pr.job.Release? && ph == Marked(pr.phase.n))
             || (pr.phase.Marked? && pr.job.Release? && ph == Leaving(pr.phase.n))
             || ((pr.phase.Polling? || pr.phase.Booting?) && (ph.Booting? || (if pr.job.LeaseCall? then ph.Running? else ph.Ready?)))
    ensures Facts(s, pr.(phase := ph))
  {
    hide InUse, Live;
  }

  lemma MarkedJob(s: State, p: Pid)
    requires CanUnmark(s, p) && ProcOk(s, p)
    ensures s.procs[p].job.Reap? || s.procs[p].job.Release?
  {
  }

  lemma MarkMarkers(s: State, p: Pid)
    requires CanMark(s, p) && Markers(s)
    ensures Markers(DoMark(s, p))
  {
    var t := DoMark(s, p);
    forall n | n in t.marker ensures MarkerOk(t, n, t.marker[n].pid) {
      if n != s.procs[p].phase.n { assert MarkerOk(s, n, s.marker[n].pid); }
    }
  }

  lemma UnmarkMarkers(s: State, p: Pid)
    requires CanUnmark(s, p) && Markers(s)
    ensures Markers(DoUnmark(s, p))
  {
    var t := DoUnmark(s, p);
    forall n | n in t.marker ensures MarkerOk(t, n, t.marker[n].pid) {
      assert MarkerOk(s, n, s.marker[n].pid);
    }
  }

  lemma GateMarkers(s: State, t: State, p: Pid)
    requires Signals(s, t, p) && Markers(s) && t.marker == s.marker && !s.procs[p].phase.Marked?
    ensures Markers(t)
  {
    forall n | n in t.marker ensures MarkerOk(t, n, t.marker[n].pid) {
      assert MarkerOk(s, n, s.marker[n].pid);
    }
  }

  lemma MarkGates(s: State, t: State, p: Pid)
    requires Signals(s, t, p) && Gates(s) && t.gate == s.gate
    requires !s.procs[p].phase.Booting? && !t.procs[p].phase.Booting?
    ensures Gates(t)
  {
    hide Gates;
    GatesSame(s, t, p);
  }

  lemma MarkKeeps(s: State, p: Pid)
    requires Inv(s) && CanMark(s, p)
    ensures Inv(DoMark(s, p))
  {
    hide ProcOk, Disk, Held, Markers, Gates, OneCallPerKey, InUseSet, Facts;
    var t := DoMark(s, p);
    Self(s, p);
    Alone(s, p);
    SignalFacts(s, s.procs[p], t.procs[p].phase);
    MarkMarkers(s, p);
    MarkGates(s, t, p);
    SignalsKeeps(s, t, p);
  }

  lemma UnmarkKeeps(s: State, p: Pid)
    requires Inv(s) && CanUnmark(s, p)
    ensures Inv(DoUnmark(s, p))
  {
    hide ProcOk, Disk, Held, Markers, Gates, OneCallPerKey, InUseSet, Facts;
    var t := DoUnmark(s, p);
    Self(s, p);
    Alone(s, p);
    MarkedJob(s, p);
    SignalFacts(s, s.procs[p], t.procs[p].phase);
    UnmarkMarkers(s, p);
    MarkGates(s, t, p);
    SignalsKeeps(s, t, p);
  }

  lemma TakeGateGates(s: State, p: Pid, g: nat)
    requires CanTakeGate(s, p, g) && Gates(s)
    ensures Gates(DoTakeGate(s, p, g))
  {
    var t := DoTakeGate(s, p, g);
    forall q | q in t.procs && t.procs[q].phase.Booting?
      ensures t.procs[q].phase.gate in t.gate && t.gate[t.procs[q].phase.gate] == q
    {
      if q != p { assert s.procs[q].phase.gate in s.gate; }
    }
  }

  /** What leaving a gate does to the gates and phases. */
  lemma LeavesGate(s: State, p: Pid)
    requires CanLeaveGate(s, p) && Gates(s)
    ensures var t := DoLeaveGate(s, p);
            && t.gates == s.gates && t.procs.Keys == s.procs.Keys && In(t, p) && !t.procs[p].phase.Booting?
            && (forall q :: q in s.procs && q != p ==> t.procs[q] == s.procs[q])
            && (forall g :: g in t.gate ==> g in s.gate && s.gate[g] != p && t.gate[g] == s.gate[g])
            && (forall g :: g in s.gate && s.gate[g] != p ==> g in t.gate)
  {
  }

  lemma LeaveGateGates(s: State, p: Pid)
    requires CanLeaveGate(s, p) && Gates(s)
    ensures Gates(DoLeaveGate(s, p))
  {
    hide DoLeaveGate;
    LeavesGate(s, p);
    var t := DoLeaveGate(s, p);
    forall g | g in t.gate ensures g < t.gates && t.gate[g] in t.procs && t.procs[t.gate[g]].phase == Booting(g) {
      assert g in s.gate && s.gate[g] != p;
    }
    forall q | q in t.procs && t.procs[q].phase.Booting?
      ensures t.procs[q].phase.gate in t.gate && t.gate[t.procs[q].phase.gate] == q
    {
      assert q != p && s.procs[q].phase.gate in s.gate;
    }
  }

  lemma TakeGateKeeps(s: State, p: Pid, g: nat)
    requires Inv(s) && CanTakeGate(s, p, g)
    ensures Inv(DoTakeGate(s, p, g))
  {
    hide ProcOk, Disk, Held, Markers, Gates, OneCallPerKey, InUseSet, Facts;
    var t := DoTakeGate(s, p, g);
    Self(s, p);
    Alone(s, p);
    SignalFacts(s, s.procs[p], t.procs[p].phase);
    TakeGateGates(s, p, g);
    GateMarkers(s, t, p);
    SignalsKeeps(s, t, p);
  }

  lemma LeaveGateKeeps(s: State, p: Pid)
    requires Inv(s) && CanLeaveGate(s, p)
    ensures Inv(DoLeaveGate(s, p))
  {
    hide ProcOk, Disk, Held, Markers, Gates, OneCallPerKey, InUseSet, Facts;
    var t := DoLeaveGate(s, p);
    Self(s, p);
    Alone(s, p);
    SignalFacts(s, s.procs[p], t.procs[p].phase);
    LeaveGateGates(s, p);
    GateMarkers(s, t, p);
    SignalsKeeps(s, t, p);
  }
}
