/** Every event of the slot ownership protocol keeps its invariant. */
module ProtocolSteps {
  import opened Wrappers
  import opened Protocol
  import opened ProtocolInvariant

  /** A step in which p only moves to another phase, takes or gives up the
      allocation lock, or creates a directory or a lock file. */
  ghost predicate Moved(s: State, t: State, p: Pid) {
    && In(s, p) && In(t, p)
    && t == s.(procs := s.procs[p := t.procs[p]], alloc := t.alloc, dirs := t.dirs, link := t.link, nextIno := t.nextIno)
    && t.procs[p] == s.procs[p].(phase := t.procs[p].phase)
    && (forall q :: q != p ==> (t.alloc == Some(q) <==> s.alloc == Some(q)))
    && s.dirs <= t.dirs && (s.dirs == t.dirs || s.alloc == Some(p))
    && s.nextIno <= t.nextIno
    && (forall n :: n in s.link ==> n in t.link && t.link[n] == s.link[n])
    && (forall n :: n in t.link && n !in s.link ==> t.link[n] == s.nextIno < t.nextIno && n in t.dirs)
    && (forall n, m :: n in t.link && m in t.link && n !in s.link && m !in s.link ==> n == m)
  }

  lemma HeldOld(s: State, i: Inode)
    requires Held(s) && i in s.held
    ensures i < s.nextIno && s.held[i].pid in s.procs
  {
    assert HeldBy(s, i, s.held[i]);
  }

  lemma MovedUse(s: State, t: State, p: Pid)
    requires Moved(s, t, p) && Held(s)
    ensures forall n :: InUse(t, n) == InUse(s, n)
  {
    forall n | Flocked(t, n) ensures Flocked(s, n) { HeldOld(s, t.link[n]); }
  }

  lemma MovedStep(s: State, t: State, p: Pid)
    requires Moved(s, t, p) && Held(s)
    ensures StepOf(s, t, p)
  {
    MovedUse(s, t, p);
    forall n | Live(t, n) ensures LiveFor(s, n, t.leases[n].key) {}
  }

  /** What p itself must still satisfy after it moved. */
  ghost predicate Arrived(s: State, t: State, p: Pid)
    requires In(s, p) && In(t, p)
  {
    var pr := t.procs[p];
    && Facts(s, pr) && PathOk(t, pr)
    && (HoldsAlloc(pr.phase) <==> t.alloc == Some(p))
    && (pr.phase.Removed? <==> s.procs[p].phase.Removed?)
    && !pr.phase.Booting? && !s.procs[p].phase.Booting? && !s.procs[p].phase.Marked?
  }

  lemma MovedSelf(s: State, t: State, p: Pid)
    requires Moved(s, t, p) && Arrived(s, t, p) && ProcOk(s, p) && Held(s)
    ensures ProcOk(t, p)
  {
    MovedUse(s, t, p);
    SameLeases(s, t, t.procs[p]);
    forall n | n in t.procs[p].fds ensures FdOk(t, p, n) { assert FdOk(s, p, n); }
  }

  lemma SameLeases(s: State, t: State, pr: Proc)
    requires LeaseFacts(s, pr) && t.leases == s.leases && s.now <= t.now
    ensures LeaseFacts(t, pr)
  {
    assert forall n :: Live(t, n) ==> Live(s, n);
    assert forall n, key :: LiveFor(t, n, key) ==> LiveFor(s, n, key);
  }

  lemma MovedHeld(s: State, t: State, p: Pid)
    requires Moved(s, t, p) && Held(s)
    ensures Held(t)
  {
    forall i | i in t.held ensures HeldBy(t, i, t.held[i]) { assert HeldBy(s, i, s.held[i]); }
  }

  lemma MovedMarkers(s: State, t: State, p: Pid)
    requires Moved(s, t, p) && Markers(s) && !s.procs[p].phase.Marked?
    ensures Markers(t)
  {
    forall n | n in t.marker ensures MarkerOk(t, n, t.marker[n].pid) {
      assert MarkerOk(s, n, s.marker[n].pid);
    }
  }

  lemma MovedGates(s: State, t: State, p: Pid)
    requires Moved(s, t, p) && Arrived(s, t, p) && Gates(s)
    ensures Gates(t)
  {
    hide Gates, Facts, PathOk;
    GatesSame(s, t, p);
  }

  lemma MovedDisk(s: State, t: State, p: Pid)
    requires Moved(s, t, p) && Disk(s)
    ensures Disk(t)
  {
  }

  /** Nothing is in use without a directory. */
  lemma UsedHasDir(s: State, n: Slot)
    requires Disk(s) && InUse(s, n)
    ensures n in s.dirs
  {
  }

  lemma CapStays(s: State, t: State)
    requires Disk(s) && t.max == s.max && |InUseSet(s)| <= s.max
    requires forall n :: InUse(t, n) ==> InUse(s, n)
    ensures |InUseSet(t)| <= t.max
  {
    forall n | n in InUseSet(t) ensures n in InUseSet(s) { UsedHasDir(s, n); }
    Smaller(InUseSet(t), InUseSet(s));
  }

  lemma Self(s: State, p: Pid)
    requires Inv(s) && In(s, p)
    ensures ProcOk(s, p)
  {
    hide ProcOk;
  }

  /** The invariant of t from its parts. */
  lemma Assemble(s: State, t: State, p: Pid)
    requires Inv(s) && StepOf(s, t, p)
    requires In(t, p) ==> ProcOk(t, p)
    requires Disk(t) && Held(t) && Markers(t) && Gates(t) && OneCallPerKey(t) && |InUseSet(t)| <= t.max
    requires t.alloc == Some(p) ==> In(t, p)
    ensures Inv(t)
  {
    hide ProcOk, Disk, Held, Markers, Gates, InUseSet;
    OthersStay(s, t, p);
  }

  lemma Moves(s: State, t: State, p: Pid)
    requires Inv(s) && Moved(s, t, p) && Arrived(s, t, p)
    ensures Inv(t)
  {
    assert In(s, p) && In(t, p) && !s.procs[p].phase.Marked? && t.max == s.max;
    assert OneCallPerKey(t);
    assert t.alloc == Some(p) ==> In(t, p);
    hide ProcOk, Disk, Held, Markers, Gates, OneCallPerKey, StepOf, Moved, Arrived, InUse, InUseSet;
    MovedStep(s, t, p);
    Self(s, p);
    MovedSelf(s, t, p);
    MovedHeld(s, t, p);
    MovedMarkers(s, t, p);
    MovedGates(s, t, p);
    MovedDisk(s, t, p);
    MovedUse(s, t, p);
    CapStays(s, t);
    Assemble(s, t, p);
  }

  // ---------------------------------------------------------------- the ways p moves

  /** p goes to ph; the allocation lock and the disk stay as they are. */
  lemma Goes(s: State, p: Pid, ph: Phase)
    requires In(s, p) && PathOk(s, s.procs[p].(phase := ph))
    requires Facts(s, s.procs[p].(phase := ph))
    requires HoldsAlloc(ph) <==> s.alloc == Some(p)
    requires !ph.Booting? && !s.procs[p].phase.Booting? && !s.procs[p].phase.Marked?
    requires ph.Removed? <==> s.procs[p].phase.Removed?
    ensures Moved(s, Goto(s, p, ph), p) && Arrived(s, Goto(s, p, ph), p)
  {
    hide Facts;
  }

  lemma Yields(s: State, p: Pid, ph: Phase)
    requires In(s, p) && s.alloc == Some(p) && PathOk(s, s.procs[p].(phase := ph))
    requires Facts(s, s.procs[p].(phase := ph))
    requires !HoldsAlloc(ph)
    requires !ph.Booting? && !s.procs[p].phase.Booting? && !s.procs[p].phase.Marked?
    requires !ph.Removed? && !s.procs[p].phase.Removed?
    ensures Moved(s, Yield(s, p, ph), p) && Arrived(s, Yield(s, p, ph), p)
  {
    hide Facts;
  }

  /** p goes to ph, creating n's directory (under the allocation lock) or its
      lock file. */
  lemma Creates(s: State, t: State, p: Pid, n: Slot, ph: Phase)
    requires In(s, p)
    requires || (t == Goto(s.(dirs := s.dirs + {n}), p, ph) && s.alloc == Some(p))
             || (t == Goto(Touch(s, n), p, ph) && n in s.dirs)
    requires PathOk(t, t.procs[p]) && Facts(s, t.procs[p])
    requires HoldsAlloc(ph) <==> s.alloc == Some(p)
    requires !ph.Booting? && !s.procs[p].phase.Booting? && !s.procs[p].phase.Marked?
    requires ph.Removed? <==> s.procs[p].phase.Removed?
    ensures Moved(s, t, p) && Arrived(s, t, p)
  {
    hide Facts, PathOk;
    if s.alloc == Some(p) && t == Goto(s.(dirs := s.dirs + {n}), p, ph) {
      MakesDir(s, p, n, ph);
    } else {
      Touches(s, p, n, ph);
    }
  }

  lemma MakesDir(s: State, p: Pid, n: Slot, ph: Phase)
    requires In(s, p) && s.alloc == Some(p) && HoldsAlloc(ph)
    requires var t := Goto(s.(dirs := s.dirs + {n}), p, ph); PathOk(t, t.procs[p]) && Facts(s, t.procs[p])
    requires !ph.Booting? && !s.procs[p].phase.Booting? && !s.procs[p].phase.Marked?
    requires ph.Removed? <==> s.procs[p].phase.Removed?
    ensures var t := Goto(s.(dirs := s.dirs + {n}), p, ph); Moved(s, t, p) && Arrived(s, t, p)
  {
    hide Facts, PathOk;
  }

  lemma Touches(s: State, p: Pid, n: Slot, ph: Phase)
    requires In(s, p) && n in s.dirs && (HoldsAlloc(ph) <==> s.alloc == Some(p))
    requires var t := Goto(Touch(s, n), p, ph); PathOk(t, t.procs[p]) && Facts(s, t.procs[p])
    requires !ph.Booting? && !s.procs[p].phase.Booting? && !s.procs[p].phase.Marked?
    requires ph.Removed? <==> s.procs[p].phase.Removed?
    ensures var t := Goto(Touch(s, n), p, ph); Moved(s, t, p) && Arrived(s, t, p)
  {
    hide Facts, PathOk;
  }

  /** A slot reap is shutting down is in nobody's hands unless it is leased. */
  lemma MarkedNotInUse(s: State, m: Slot, q: Pid)
    requires MarkedBy(s, m, q) && ProcOk(s, q) && !Live(s, m)
    ensures !InUse(s, m)
  {
    assert FdOk(s, q, m);
  }

  /** A slot in use is counted: the only exemptions are the caller's own key,
      which has no live lease by now, and a marker, which only reap leaves. */
  lemma ProbeCounts(s: State, p: Pid, m: Slot)
    requires CanProbe(s, p, m) && ProcOk(s, p) && InUse(s, m)
    requires Live(s, m) || !ShutdownInProgress(s, m)
    ensures m in DoProbe(s, p, m).procs[p].phase.used
  {
  }

  lemma ProbeFacts(s: State, pr: Proc, m: Slot, used: set<Slot>)
    requires Facts(s, pr) && pr.phase.Census? && pr.phase.used <= used
    requires InUse(s, m) ==> m in used
    ensures Facts(s, pr.(phase := Census(pr.phase.n, pr.phase.todo - {m}, used)))
  {
  }

  lemma DecideFacts(s: State, pr: Proc)
    requires Facts(s, pr) && pr.phase.Census? && pr.phase.todo == {}
    ensures |pr.phase.used| + |pr.kept| + 1 <= s.max ==> Facts(s, pr.(phase := Entering(pr.phase.n, pr.phase.used)))
  {
  }

  lemma BackToReady(s: State, pr: Proc)
    requires Facts(s, pr) && (pr.phase.Census? || pr.phase.Entering? || pr.phase.Flocking? || pr.phase.Peeking?)
    ensures Facts(s, pr.(phase := Ready))
  {
  }

  lemma InsideFacts(s: State, pr: Proc)
    requires WaitsForAlloc(pr.phase) && Facts(s, pr) && Disk(s)
    ensures Facts(s, pr.(phase := Inside(s, pr)))
  {
    hide Facts, Disk;
    if pr.phase.WaitClaim? { InsideClaim(s, pr); } else { InsideOther(s, pr); }
  }

  lemma InsideOther(s: State, pr: Proc)
    requires WaitsForAlloc(pr.phase) && !pr.phase.WaitClaim? && Facts(s, pr)
    ensures Facts(s, pr.(phase := Inside(s, pr)))
  {
    hide InUse, Live;
  }

  lemma InsideClaim(s: State, pr: Proc)
    requires pr.phase.WaitClaim? && Facts(s, pr) && Disk(s)
    ensures Facts(s, pr.(phase := Inside(s, pr)))
  {
    hide InUse, Disk, Live, Shape, LeaseFacts;
    forall m | InUse(s, m) ensures m in s.dirs { UsedHasDir(s, m); }
    InsideShape(s, pr);
    InsideLease(s, pr);
  }

  lemma InsideShape(s: State, pr: Proc)
    requires pr.phase.WaitClaim? && Shape(pr)
    ensures Shape(pr.(phase := Inside(s, pr)))
  {
  }

  lemma InsideLease(s: State, pr: Proc)
    requires pr.phase.WaitClaim? && LeaseFacts(s, pr)
    ensures LeaseFacts(s, pr.(phase := Inside(s, pr)))
  {
    hide Live;
  }

  lemma EnterFacts(s: State, pr: Proc)
    requires Facts(s, pr) && pr.phase.Entering?
    ensures Facts(s, pr.(phase := Opening(pr.phase.n, pr.phase.used)))
  {
  }

  lemma OpenFacts(s: State, pr: Proc, ino: Inode)
    requires Facts(s, pr) && pr.phase.Opening?
    ensures Facts(s, pr.(phase := Flocking(pr.phase.n, pr.phase.used, ino)))
  {
  }

  // ---------------------------------------------------------------- events in which p only moves

  lemma TakeAllocMoves(s: State, p: Pid)
    requires CanTakeAlloc(s, p) && ProcOk(s, p) && Disk(s)
    ensures var t := DoTakeAlloc(s, p); Moved(s, t, p) && Arrived(s, t, p)
  {
    InsideFacts(s, s.procs[p]);
    hide Facts, FdOk;
  }

  lemma ListSlotsMoves(s: State, p: Pid)
    requires CanListSlots(s, p) && ProcOk(s, p) && Disk(s)
    ensures var t := DoListSlots(s, p); Moved(s, t, p) && Arrived(s, t, p)
  {
    Goes(s, p, Scanning(s.dirs));
  }

  lemma AimMoves(s: State, p: Pid, n: Slot)
    requires CanAim(s, p, n) && ProcOk(s, p)
    ensures var t := DoAim(s, p, n); Moved(s, t, p) && Arrived(s, t, p)
  {
    Goes(s, p, if s.procs[p].job.Release? then WaitUnlease(n) else WaitClaim(n));
  }

  lemma ReclaimMoves(s: State, p: Pid, n: Slot)
    requires CanReclaim(s, p) && ProcOk(s, p)
    ensures var t := DoReclaim(s, p, n); Moved(s, t, p) && Arrived(s, t, p)
  {
    Goes(s, p, WaitClaim(n));
  }

  lemma ProbeMoves(s: State, p: Pid, m: Slot)
    requires CanProbe(s, p, m) && ProcOk(s, p)
    requires InUse(s, m) ==> m in DoProbe(s, p, m).procs[p].phase.used
    ensures var t := DoProbe(s, p, m); Moved(s, t, p) && Arrived(s, t, p)
  {
    var ph := DoProbe(s, p, m).procs[p].phase;
    ProbeFacts(s, s.procs[p], m, ph.used);
    hide Facts, FdOk, Moved, Arrived;
    if Live(s, m) { Goes(s, p, ph); } else { Creates(s, DoProbe(s, p, m), p, m, ph); }
  }

  lemma DecideMoves(s: State, p: Pid)
    requires CanDecide(s, p) && ProcOk(s, p)
    ensures var t := DoDecide(s, p); Moved(s, t, p) && Arrived(s, t, p)
  {
    var pr := s.procs[p];
    DecideFacts(s, pr);
    BackToReady(s, pr);
    hide Facts, FdOk, Moved, Arrived;
    if |pr.phase.used| + |pr.kept| + 1 > s.max { Yields(s, p, Ready); }
    else { Goes(s, p, Entering(pr.phase.n, pr.phase.used)); }
  }

  lemma EnterMoves(s: State, p: Pid)
    requires CanEnter(s, p) && ProcOk(s, p)
    ensures var t := DoEnter(s, p); Moved(s, t, p) && Arrived(s, t, p)
  {
    var pr := s.procs[p];
    EnterFacts(s, pr);
    BackToReady(s, pr);
    hide Facts, FdOk, Moved, Arrived;
    if (pr.job.Evict? || pr.job.Release?) && pr.phase.n !in s.dirs { Yields(s, p, Ready); }
    else { Creates(s, DoEnter(s, p), p, pr.phase.n, Opening(pr.phase.n, pr.phase.used)); }
  }

  lemma OpenMoves(s: State, p: Pid)
    requires CanOpen(s, p) && ProcOk(s, p)
    ensures var t := DoOpen(s, p); Moved(s, t, p) && Arrived(s, t, p)
  {
    var t := DoOpen(s, p);
    OpenFacts(s, s.procs[p], t.procs[p].phase.ino);
    hide Facts, FdOk, Moved, Arrived;
    Creates(s, t, p, s.procs[p].phase.n, t.procs[p].phase);
  }

  lemma PeekFacts(s: State, pr: Proc, n: Slot, ino: Inode)
    requires Facts(s, pr) && pr.phase.Ready? && pr.job.Reap?
    ensures Facts(s, pr.(phase := Peeking(n, ino)))
  {
    hide InUse, Live;
  }

  lemma PeekMoves(s: State, p: Pid, n: Slot)
    requires CanPeek(s, p, n) && ProcOk(s, p) && Disk(s)
    ensures var t := DoPeek(s, p, n); Moved(s, t, p) && Arrived(s, t, p)
  {
    hide FdOk, Moved, Arrived, Facts;
    var t := DoPeek(s, p, n);
    PeekFacts(s, s.procs[p], n, t.procs[p].phase.ino);
    Creates(s, t, p, n, t.procs[p].phase);
  }

  lemma PruneMoves(s: State, p: Pid)
    requires CanPrune(s, p) && ProcOk(s, p)
    ensures var t := DoPrune(s, p); Moved(s, t, p) && Arrived(s, t, p)
  {
    Goes(s, p, WaitCleanup(s.procs[p].phase.n));
  }

  lemma ProvisionMoves(s: State, p: Pid)
    requires CanProvision(s, p) && ProcOk(s, p)
    ensures var t := DoProvision(s, p); Moved(s, t, p) && Arrived(s, t, p)
  {
    Goes(s, p, Polling);
  }
}
