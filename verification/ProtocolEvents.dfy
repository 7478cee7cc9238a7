/** The events that take or drop a lock, write or remove a lease, or remove a
    slot directory, keep the invariant; then every event does. */
module ProtocolEvents {
  import opened Wrappers
  import opened Protocol
  import opened ProtocolInvariant
  import opened ProtocolSteps

  /** p takes a step and stays: nobody else's state changes, and no gate does. */
  ghost predicate Stays(s: State, t: State, p: Pid) {
    && In(s, p) && In(t, p)
    && t.procs == s.procs[p := t.procs[p]] && t.procs[p].job == s.procs[p].job
    && t.max == s.max && t.gates == s.gates && t.dead == s.dead && t.now == s.now && t.gate == s.gate
    && t.nextIno == s.nextIno
    && !s.procs[p].phase.Booting? && !t.procs[p].phase.Booting?
    && (forall q :: q != p ==> (t.alloc == Some(q) <==> s.alloc == Some(q)))
  }

  lemma GatesStay(s: State, t: State, p: Pid)
    requires Stays(s, t, p) && Gates(s) && OneCallPerKey(s)
    ensures Gates(t) && OneCallPerKey(t)
  {
    hide Gates;
    GatesSame(s, t, p);
  }

  lemma MarkersStay(s: State, t: State, p: Pid)
    requires StepOf(s, t, p) && Markers(s)
    requires forall q :: q in s.procs ==> ProcOk(s, q)
    requires In(s, p) && !s.procs[p].phase.Marked?
    requires forall n :: n in t.marker ==> n in s.marker && t.marker[n] == s.marker[n]
    requires forall q :: q in t.procs ==> q in s.procs
    ensures Markers(t)
  {
    hide ProcOk, StepOf, MarkerOk, MarkedBy;
    forall n | n in t.marker ensures MarkerOk(t, n, t.marker[n].pid) {
      assert MarkerOk(s, n, s.marker[n].pid);
      MarkerStays(s, t, p, n, t.marker[n].pid);
    }
  }

  lemma MarkerStays(s: State, t: State, p: Pid, n: Slot, q: Pid)
    requires StepOf(s, t, p) && MarkerOk(s, n, q) && In(s, p) && !s.procs[p].phase.Marked?
    requires q in s.procs ==> ProcOk(s, q)
    requires q in t.procs ==> q in s.procs
    ensures MarkerOk(t, n, q)
  {
    hide Facts, PathOk;
    if q in t.procs {
      assert FdOk(s, q, n);
    }
  }

  /** The same, from what a step of p that stays has to show. */
  lemma Finish(s: State, t: State, p: Pid)
    requires Inv(s) && Stays(s, t, p) && StepOf(s, t, p) && ProcOk(t, p)
    requires Disk(t) && Held(t) && |InUseSet(t)| <= t.max
    requires !s.procs[p].phase.Marked?
    requires forall n :: n in t.marker ==> n in s.marker && t.marker[n] == s.marker[n]
    ensures Inv(t)
  {
    hide ProcOk, Disk, Held, InUseSet, Markers, Gates, OneCallPerKey;
    GatesStay(s, t, p);
    MarkersStay(s, t, p);
    Assemble(s, t, p);
  }

  // ---------------------------------------------------------------- dropping a flock

  lemma DropStep(s: State, p: Pid, n: Slot, ph: Phase)
    requires In(s, p) && n in s.procs[p].fds && ProcOk(s, p)
    ensures StepOf(s, DropFd(s, p, n, ph), p)
    ensures forall k :: InUse(DropFd(s, p, n, ph), k) ==> InUse(s, k)
    ensures !s.procs[p].phase.Booting? && !ph.Booting? ==> Stays(s, DropFd(s, p, n, ph), p)
    ensures Disk(s) ==> Disk(DropFd(s, p, n, ph))
  {
    assert FdOk(s, p, n);
    var t := DropFd(s, p, n, ph);
    forall k | InUse(t, k) ensures InUse(s, k) {}
    assert forall k :: Live(t, k) ==> LiveFor(s, k, t.leases[k].key);
  }

  lemma DropHeld(s: State, p: Pid, n: Slot, ph: Phase)
    requires In(s, p) && n in s.procs[p].fds && ProcOk(s, p) && Held(s)
    ensures Held(DropFd(s, p, n, ph))
  {
    assert FdOk(s, p, n);
    var t := DropFd(s, p, n, ph);
    forall i | i in t.held ensures HeldBy(t, i, t.held[i]) { assert HeldBy(s, i, s.held[i]); }
  }

  /** Facts only grow truer as use shrinks. */
  lemma FactsCarry(s: State, t: State, pr: Proc)
    requires Facts(s, pr) && t.max == s.max
    requires forall n :: InUse(t, n) ==> InUse(s, n)
    requires t.leases == s.leases && t.now == s.now
    ensures Facts(t, pr)
  {
    SameLeases(s, t, pr);
    hide LeaseFacts, InUse;
  }

  lemma DropFds(s: State, p: Pid, n: Slot, ph: Phase)
    requires In(s, p) && n in s.procs[p].fds && ProcOk(s, p)
    requires s.procs[p].phase.Removed? ==> s.procs[p].phase.n == n && s.procs[p].kept == {}
    requires !ph.Removed?
    ensures forall k :: k in DropFd(s, p, n, ph).procs[p].fds ==> FdOk(DropFd(s, p, n, ph), p, k)
  {
    var t := DropFd(s, p, n, ph);
    forall k | k in t.procs[p].fds ensures FdOk(t, p, k) {
      assert FdOk(s, p, k);
      assert FdOk(s, p, n);
    }
  }

  lemma DropSelf(s: State, p: Pid, n: Slot, ph: Phase)
    requires In(s, p) && n in s.procs[p].fds && ProcOk(s, p)
    requires Facts(s, DropFd(s, p, n, ph).procs[p])
    requires ph.Ready? || ph.Polling?
    requires !HoldsAlloc(s.procs[p].phase)
    requires s.procs[p].phase.Removed? ==> s.procs[p].phase.n == n && s.procs[p].kept == {}
    ensures ProcOk(DropFd(s, p, n, ph), p)
  {
    hide FdOk, Facts, StepOf, InUse, PathOk;
    var t := DropFd(s, p, n, ph);
    DropStep(s, p, n, ph);
    DropFds(s, p, n, ph);
    FactsCarry(s, t, t.procs[p]);
    NoPath(t, p);
  }

  lemma DropKeeps(s: State, p: Pid, n: Slot, ph: Phase)
    requires Inv(s) && In(s, p) && n in s.procs[p].fds
    requires Facts(s, DropFd(s, p, n, ph).procs[p])
    requires ph.Ready? || ph.Polling?
    requires !HoldsAlloc(s.procs[p].phase) && !s.procs[p].phase.Booting? && !s.procs[p].phase.Marked?
    requires s.procs[p].phase.Removed? ==> s.procs[p].phase.n == n && s.procs[p].kept == {}
    ensures Inv(DropFd(s, p, n, ph))
  {
    var t := DropFd(s, p, n, ph);
    hide ProcOk, Disk, Held, Facts, Markers, Gates, StepOf, Stays, OneCallPerKey, InUse, InUseSet;
    Self(s, p);
    DropStep(s, p, n, ph);
    DropSelf(s, p, n, ph);
    DropHeld(s, p, n, ph);
    CapStays(s, t);
    Finish(s, t, p);
  }

  // ---------------------------------------------------------------- taking a flock

  /** TakeFd as p does it, out of the allocation lock if it was inside. */
  function Taken(s: State, p: Pid, n: Slot, ino: Inode, kept: set<Slot>, ph: Phase): State
    requires In(s, p)
  {
    TakeFd(if s.alloc == Some(p) then s.(alloc := None) else s, p, n, ino, kept, ph)
  }

  /** An unheld inode that is the lock file of n, or was when p opened it. */
  ghost predicate Free(s: State, p: Pid, n: Slot, ino: Inode) {
    && In(s, p) && n !in s.procs[p].fds
    && ino !in s.held && OnlyAt(s, ino, n)
    && (s.procs[p].job.Reap? || (n in s.link && s.link[n] == ino))
    && (Claims(s.procs[p].job) ==> s.alloc == Some(p))
  }

  lemma TakeStep(s: State, p: Pid, n: Slot, ino: Inode, kept: set<Slot>, ph: Phase)
    requires Free(s, p, n, ino) && Held(s)
    ensures StepOf(s, Taken(s, p, n, ino, kept, ph), p)
  {
    hide Held, OnlyAt, InUse, Taken;
    TakeUse(s, p, n, ino, kept, ph);
    TakenIs(s, p, n, ino, kept, ph);
  }

  /** What taking a flock leaves alone. */
  lemma TakenIs(s: State, p: Pid, n: Slot, ino: Inode, kept: set<Slot>, ph: Phase)
    requires In(s, p)
    ensures var t := Taken(s, p, n, ino, kept, ph);
            && t.max == s.max && t.gates == s.gates && t.dead == s.dead && t.nextIno == s.nextIno
            && t.dirs == s.dirs && t.link == s.link && t.leases == s.leases && t.now == s.now
            && t.alloc == (if s.alloc == Some(p) then None else s.alloc)
            && t.held == s.held[ino := Holder(p, n)]
            && t.procs.Keys == s.procs.Keys && forall q :: q in s.procs && q != p ==> t.procs[q] == s.procs[q]
  {
  }

  lemma TakeUse(s: State, p: Pid, n: Slot, ino: Inode, kept: set<Slot>, ph: Phase)
    requires Free(s, p, n, ino) && Held(s)
    ensures forall k :: InUse(Taken(s, p, n, ino, kept, ph), k) ==> InUse(s, k) || (Claims(s.procs[p].job) && k == n)
  {
    var t := Taken(s, p, n, ino, kept, ph);
    forall k | InUse(t, k) ensures InUse(s, k) || (Claims(s.procs[p].job) && k == n) {}
  }

  lemma TakeRest(s: State, p: Pid, n: Slot, ino: Inode, kept: set<Slot>, ph: Phase)
    requires In(s, p) && !s.procs[p].phase.Booting? && !ph.Booting?
    ensures Stays(s, Taken(s, p, n, ino, kept, ph), p)
    ensures Disk(s) ==> Disk(Taken(s, p, n, ino, kept, ph))
  {
  }

  lemma TakeHeld(s: State, p: Pid, n: Slot, ino: Inode, kept: set<Slot>, ph: Phase)
    requires Free(s, p, n, ino) && Held(s)
    ensures Held(Taken(s, p, n, ino, kept, ph))
  {
    var t := Taken(s, p, n, ino, kept, ph);
    forall i | i in t.held ensures HeldBy(t, i, t.held[i]) {
      if i != ino { assert HeldBy(s, i, s.held[i]); }
    }
  }

  lemma TakeFds(s: State, p: Pid, n: Slot, ino: Inode, kept: set<Slot>, ph: Phase)
    requires Free(s, p, n, ino)
    requires forall k :: k in s.procs[p].fds ==> FdOk(s, p, k)
    requires !ph.Removed? && !s.procs[p].phase.Removed?
    ensures forall k :: k in s.procs[p].fds || k == n ==>
              k in Taken(s, p, n, ino, kept, ph).procs[p].fds && FdOk(Taken(s, p, n, ino, kept, ph), p, k)
  {
    var t := Taken(s, p, n, ino, kept, ph);
    forall k | k in s.procs[p].fds || k == n ensures FdOk(t, p, k) {
      if k != n { assert FdOk(s, p, k); }
    }
  }

  lemma TakeSelf(s: State, p: Pid, n: Slot, ino: Inode, kept: set<Slot>, ph: Phase)
    requires Free(s, p, n, ino) && ProcOk(s, p)
    requires var t := Taken(s, p, n, ino, kept, ph); Facts(t, t.procs[p])
    requires ph.Checking? || ph.Polling? || ph.Peeked?
    requires !s.procs[p].phase.Removed?
    ensures ProcOk(Taken(s, p, n, ino, kept, ph), p)
  {
    var t := Taken(s, p, n, ino, kept, ph);
    TakeFds(s, p, n, ino, kept, ph);
    NoPath(t, p);
    assert t.alloc != Some(p) && p !in t.dead && In(t, p) && !HoldsAlloc(t.procs[p].phase);
    hide FdOk, Facts, PathOk, Free, Taken;
  }

  lemma NoPath(s: State, p: Pid)
    requires In(s, p) && !Claiming(s.procs[p].phase) && !s.procs[p].phase.Peeking?
    ensures PathOk(s, s.procs[p])
  {
  }

  lemma TakeKeeps(s: State, p: Pid, n: Slot, ino: Inode, kept: set<Slot>, ph: Phase)
    requires Inv(s) && Free(s, p, n, ino)
    requires var t := Taken(s, p, n, ino, kept, ph); Facts(t, t.procs[p])
    requires ph.Checking? || ph.Polling? || ph.Peeked?
    requires !s.procs[p].phase.Removed? && !s.procs[p].phase.Booting? && !s.procs[p].phase.Marked?
    requires |InUseSet(Taken(s, p, n, ino, kept, ph))| <= s.max
    ensures Inv(Taken(s, p, n, ino, kept, ph))
  {
    hide ProcOk, Disk, Held, Facts, Markers, Gates, StepOf, Stays, OneCallPerKey, InUse, InUseSet;
    assert In(s, p);
    Self(s, p);
    TakeStep(s, p, n, ino, kept, ph);
    TakeRest(s, p, n, ino, kept, ph);
    TakeSelf(s, p, n, ino, kept, ph);
    TakeHeld(s, p, n, ino, kept, ph);
    Finish(s, Taken(s, p, n, ino, kept, ph), p);
  }

  /** The cap: what the census counted, what p keeps, and the new slot. */
  lemma TakeCap(s: State, t: State, pr: Proc)
    requires UseCounted(s, pr) && pr.phase.Flocking? && Claims(pr.job) && t.max == s.max
    requires forall k :: InUse(t, k) ==> InUse(s, k) || k == pr.phase.n
    ensures |InUseSet(t)| <= t.max
  {
    hide InUse;
    var all := pr.phase.used + pr.kept + {pr.phase.n};
    assert InUseSet(t) <= all;
    Smaller(InUseSet(t), all);
  }

  lemma FlockFacts(s: State, t: State, pr: Proc)
    requires Facts(s, pr) && pr.phase.Flocking? && !pr.job.Preboot? && t.leases == s.leases && t.now == s.now
    ensures Facts(t, pr.(phase := Checking(pr.phase.n), fds := pr.fds[pr.phase.n := pr.phase.ino]))
  {
    hide InUse, Live, LiveFor, Shape;
    FlockShape(pr);
    SameLeases(s, t, pr);
  }

  lemma FlockShape(pr: Proc)
    requires Shape(pr) && pr.phase.Flocking? && !pr.job.Preboot?
    ensures Shape(pr.(phase := Checking(pr.phase.n), fds := pr.fds[pr.phase.n := pr.phase.ino]))
  {
  }

  lemma PrebootFacts(s: State, t: State, pr: Proc)
    requires Facts(s, pr) && pr.phase.Flocking? && pr.job.Preboot?
    ensures Facts(t, pr.(phase := Polling, kept := pr.kept + {pr.phase.n}, fds := pr.fds[pr.phase.n := pr.phase.ino]))
  {
  }

  lemma FlockKeeps(s: State, p: Pid)
    requires Inv(s) && CanFlock(s, p)
    ensures Inv(DoFlock(s, p))
  {
    hide ProcOk, Disk, Held, Facts, Markers, Gates, StepOf, Stays, OneCallPerKey, InUse, InUseSet, Moved, Arrived;
    Self(s, p);
    var pr := s.procs[p];
    FlockReady(s, p);
    if pr.phase.ino in s.held {
      BackToReady(s, pr);
      Yields(s, p, Ready);
      Moves(s, DoFlock(s, p), p);
    } else {
      var t := DoFlock(s, p);
      var ph := t.procs[p].phase;
      var kept := t.procs[p].kept;
      assert t == Taken(s, p, pr.phase.n, pr.phase.ino, kept, ph);
      if pr.job.Preboot? { PrebootFacts(s, t, pr); } else { FlockFacts(s, t, pr); }
      TakeUse(s, p, pr.phase.n, pr.phase.ino, kept, ph);
      if Claims(pr.job) { TakeCap(s, t, pr); } else { CapStays(s, t); }
      TakeKeeps(s, p, pr.phase.n, pr.phase.ino, kept, ph);
    }
  }

  lemma FlockReady(s: State, p: Pid)
    requires CanFlock(s, p) && ProcOk(s, p) && Disk(s)
    ensures Facts(s, s.procs[p]) && UseCounted(s, s.procs[p])
    ensures s.alloc == Some(p) && PathOk(s, s.procs[p].(phase := Ready))
    ensures s.procs[p].phase.ino !in s.held ==> Free(s, p, s.procs[p].phase.n, s.procs[p].phase.ino)
  {
  }

  lemma PeekFlockKeeps(s: State, p: Pid)
    requires Inv(s) && CanPeekFlock(s, p)
    ensures Inv(DoPeekFlock(s, p))
  {
    hide ProcOk, Disk, Held, Facts, Markers, Gates, StepOf, Stays, OneCallPerKey, InUse, InUseSet, Moved, Arrived;
    Self(s, p);
    var pr := s.procs[p];
    PeekReady(s, p);
    if pr.phase.ino in s.held {
      BackToReady(s, pr);
      Goes(s, p, Ready);
      Moves(s, DoPeekFlock(s, p), p);
    } else {
      var t := DoPeekFlock(s, p);
      assert t == Taken(s, p, pr.phase.n, pr.phase.ino, pr.kept, Peeked(pr.phase.n));
      TakeUse(s, p, pr.phase.n, pr.phase.ino, pr.kept, Peeked(pr.phase.n));
      CapStays(s, t);
      TakeKeeps(s, p, pr.phase.n, pr.phase.ino, pr.kept, Peeked(pr.phase.n));
    }
  }

  lemma PeekReady(s: State, p: Pid)
    requires CanPeekFlock(s, p) && ProcOk(s, p)
    ensures Facts(s, s.procs[p]) && s.alloc != Some(p) && PathOk(s, s.procs[p].(phase := Ready)) && s.procs[p].job.Reap?
    ensures s.procs[p].phase.ino !in s.held ==>
              && Free(s, p, s.procs[p].phase.n, s.procs[p].phase.ino)
              && Facts(DoPeekFlock(s, p), DoPeekFlock(s, p).procs[p])
  {
    hide Facts, FdOk, InUse;
    PeekingIsReap(s, s.procs[p]);
    if s.procs[p].phase.ino !in s.held { PeekedFacts(s, p); }
  }

  lemma PeekingIsReap(s: State, pr: Proc)
    requires Facts(s, pr) && pr.phase.Peeking?
    ensures pr.job.Reap? && pr.phase.n !in pr.fds
  {
    hide InUse, Live;
  }

  lemma PeekedFacts(s: State, p: Pid)
    requires CanPeekFlock(s, p) && Facts(s, s.procs[p]) && s.procs[p].phase.ino !in s.held
    ensures Facts(DoPeekFlock(s, p), DoPeekFlock(s, p).procs[p])
  {
    hide InUse, Live;
  }
}
