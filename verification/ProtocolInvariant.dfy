/** The inductive invariant of the slot ownership protocol, kept by every event. */
module ProtocolInvariant {
  import opened Wrappers
  import opened Protocol

  /** A slot in somebody's hands: under a live lease, or flocked by a process
      that claims slots to use them. */
  predicate InUse(s: State, n: Slot) {
    || Live(s, n)
    || (Flocked(s, n) && s.held[s.link[n]].pid in s.procs && Claims(s.procs[s.held[s.link[n]].pid].job))
  }

  ghost function InUseSet(s: State): set<Slot> {
    set n | n in s.dirs && InUse(s, n)
  }

  ghost predicate Disk(s: State) {
    && (forall n :: n in s.link ==> n in s.dirs && s.link[n] < s.nextIno)
    && (forall n, m :: n in s.link && m in s.link && s.link[n] == s.link[m] ==> n == m)
    && (forall n :: n in s.leases ==> n in s.dirs)
  }

  /** Every held flock belongs to a live process that has it open. */
  ghost predicate Held(s: State) {
    forall i :: i in s.held ==> HeldBy(s, i, s.held[i])
  }

  predicate HeldBy(s: State, i: Inode, h: Holder) {
    && i < s.nextIno
    && h.pid in s.procs
    && h.slot in s.procs[h.pid].fds
    && s.procs[h.pid].fds[h.slot] == i
  }

  /** An inode is only ever linked at the slot it was first opened at. */
  ghost predicate OnlyAt(s: State, i: Inode, n: Slot) {
    i < s.nextIno && forall k :: k in s.link && s.link[k] == i ==> k == n
  }

  /** A held descriptor is held in the kernel too, and unless its process is
      an observer or removed the directory itself, it is the linked lock file. */
  ghost predicate FdOk(s: State, p: Pid, n: Slot)
    requires In(s, p) && n in s.procs[p].fds
  {
    var i := s.procs[p].fds[n];
    && i in s.held && s.held[i] == Holder(p, n)
    && OnlyAt(s, i, n)
    && (!s.procs[p].job.Reap? && !s.procs[p].phase.Removed? ==> n in s.link && s.link[n] == i)
  }

  /** Which jobs reach which phases. */
  predicate Fits(job: Job, ph: Phase) {
    && (ph.Listing? || ph.Scanning? || ph.Leased? ==> job.LeaseCall?)
    && (ph.Census? ==> Claims(job))
    && (Claiming(ph) ==> !job.Reap?)
    && (ph.Checking? || ph.Vetted? ==> Claims(job) || job.Evict? || job.Release?)
    && (ph.WaitRemove? || ph.Removing? || ph.Removed? ==> job.Evict?)
    && (ph.Leaving? ==> job.Evict? || job.Release?)
    && (ph.WaitCleanup? || ph.Cleaning? || ph.Peeked? || ph.Peeking? ==> job.Reap?)
    && (ph.Marked? ==> job.Reap? || job.Release?)
    && (ph.WaitUnlease? || ph.Unleasing? ==> job.Release?)
    && (AtGate(ph) ==> Claims(job) || job.Preboot?)
    && (ph.Running? ==> job.LeaseCall?)
  }

  predicate Claiming(ph: Phase) {
    ph.WaitClaim? || ph.Census? || ph.Entering? || ph.Opening? || ph.Flocking?
  }

  /** From the wait for a boot gate on. */
  predicate AtGate(ph: Phase) {
    ph.Polling? || ph.Booting? || ph.Running?
  }

  predicate Shape(pr: Proc) {
    && Fits(pr.job, pr.phase)
    && pr.fds.Keys == pr.kept + Pending(pr.phase)
    && (HoldsFlock(pr.phase) || Claiming(pr.phase) ==> pr.phase.n !in pr.kept)
    && (pr.kept != {} ==> pr.job.With? || pr.job.Preboot?)
    && (pr.job.LeaseCall? ==> pr.job.key != "")
    && (AtGate(pr.phase) ==> pr.job.LeaseCall? || pr.kept != {})
  }

  /** A lease call past its scan that has not written its lease yet. */
  predicate Unleased(ph: Phase) {
    ph.Ready? || ph.WaitClaim? || ph.Census? || ph.Entering? || ph.Opening? || ph.Flocking? || ph.Checking? || ph.Vetted?
  }

  ghost predicate LeaseFacts(s: State, pr: Proc) {
    && (pr.job.With? ==> forall n :: n in pr.kept ==> !Live(s, n))
    && (pr.phase.Vetted? || pr.phase.WaitRemove? || pr.phase.Removing? ==> !Live(s, pr.phase.n))
    && (pr.job.LeaseCall? && pr.phase.Scanning? ==>
          forall n :: LiveFor(s, n, pr.job.key) ==> n in pr.phase.todo)
    && (pr.job.LeaseCall? && Unleased(pr.phase) ==> forall n :: !LiveFor(s, n, pr.job.key))
  }

  /** What a process knows about the group, whatever its descriptors are. */
  ghost predicate Facts(s: State, pr: Proc) {
    Shape(pr) && LeaseFacts(s, pr) && UseCounted(s, pr)
  }

  /** What the claim under way has established about the group. */
  ghost predicate UseCounted(s: State, pr: Proc) {
    var ph := pr.phase;
    && (ph.Census? ==> forall m :: InUse(s, m) ==> m == ph.n || m in pr.kept || m in ph.todo || m in ph.used)
    && ((ph.Entering? || ph.Opening? || ph.Flocking?) && Claims(pr.job) ==> Covered(s, pr, ph.n, ph.used))
  }

  ghost predicate PathOk(s: State, pr: Proc) {
    var ph := pr.phase;
    && (ph.Census? ==> ph.todo <= s.dirs)
    && (ph.Opening? ==> ph.n in s.dirs)
    && (ph.Flocking? ==> ph.n in s.link && s.link[ph.n] == ph.ino)
    && (ph.Peeking? ==> OnlyAt(s, ph.ino, ph.n))
  }

  ghost predicate Covered(s: State, pr: Proc, n: Slot, used: set<Slot>) {
    && |used| + |pr.kept| + 1 <= s.max
    && forall m :: InUse(s, m) ==> m == n || m in pr.kept || m in used
  }

  ghost predicate ProcOk(s: State, p: Pid)
    requires In(s, p)
  {
    var pr := s.procs[p];
    && Facts(s, pr)
    && PathOk(s, pr)
    && (forall n :: n in pr.fds ==> FdOk(s, p, n))
    && (HoldsAlloc(pr.phase) <==> s.alloc == Some(p))
    && p !in s.dead
  }

  /** A marker whose pid is alive was written by a process that still holds
      the flock of the slot's linked lock file. */
  ghost predicate Markers(s: State) {
    forall n :: n in s.marker ==> MarkerOk(s, n, s.marker[n].pid)
  }

  predicate MarkerOk(s: State, n: Slot, q: Pid) {
    if q in s.procs then MarkedBy(s, n, q) else q in s.dead
  }

  predicate MarkedBy(s: State, n: Slot, q: Pid) {
    q in s.procs && s.procs[q].phase == Marked(n) && n in s.procs[q].fds && n in s.link && s.link[n] == s.procs[q].fds[n]
  }

  ghost predicate Gates(s: State) {
    && (forall g :: g in s.gate ==> g < s.gates && s.gate[g] in s.procs && s.procs[s.gate[g]].phase == Booting(g))
    && (forall p :: p in s.procs && s.procs[p].phase.Booting? ==>
          s.procs[p].phase.gate in s.gate && s.gate[s.procs[p].phase.gate] == p)
  }

  ghost predicate OneCallPerKey(s: State) {
    forall p, q :: p in s.procs && q in s.procs && s.procs[p].job.LeaseCall? && s.procs[p].job == s.procs[q].job ==> p == q
  }

  ghost predicate Inv(s: State) {
    && Disk(s)
    && Held(s)
    && (forall p :: p in s.procs ==> ProcOk(s, p))
    && (forall p :: s.alloc == Some(p) ==> p in s.procs)
    && Markers(s)
    && Gates(s)
    && OneCallPerKey(s)
    && |InUseSet(s)| <= s.max
  }

  lemma {:induction false} Smaller(a: set<Slot>, b: set<Slot>)
    requires a <= b
    ensures |a| <= |b|
  {
    if a != {} {
      var x :| x in a;
      Smaller(a - {x}, b - {x});
    }
  }

  /** Only p moves, and not to or from a gate. */
  lemma GatesSame(s: State, t: State, p: Pid)
    requires Gates(s) && t.gate == s.gate && t.gates == s.gates
    requires forall q :: q != p ==> (q in s.procs <==> q in t.procs)
    requires forall q :: q != p && q in s.procs ==> t.procs[q] == s.procs[q]
    requires p in s.procs ==> p in t.procs && !s.procs[p].phase.Booting?
    requires p in t.procs ==> !t.procs[p].phase.Booting?
    ensures Gates(t)
  {
    forall g | g in t.gate ensures g < t.gates && t.gate[g] in t.procs && t.procs[t.gate[g]].phase == Booting(g) {
      assert t.gate[g] != p;
    }
    forall q | q in t.procs && t.procs[q].phase.Booting?
      ensures t.procs[q].phase.gate in t.gate && t.gate[t.procs[q].phase.gate] == q
    {
      assert q != p;
    }
  }

  // ---------------------------------------------------------------- what a step of p leaves alone

  /** t differs from s by a step of p, as every other process sees it. */
  ghost predicate StepOf(s: State, t: State, p: Pid) {
    && t.max == s.max && t.gates == s.gates && s.dead <= t.dead
    && (forall q :: q in s.procs && q != p ==> q in t.procs)
    && (forall q :: q in t.procs && q != p ==> q in s.procs && t.procs[q] == s.procs[q] && (q in t.dead ==> q in s.dead))
    && (forall q :: q != p ==> (t.alloc == Some(q) <==> s.alloc == Some(q)))
    && (forall i :: i in s.held && s.held[i].pid != p ==> i in t.held && t.held[i] == s.held[i])
    && s.nextIno <= t.nextIno
    && (forall n :: n in t.link ==> (n in s.link && t.link[n] == s.link[n]) || s.nextIno <= t.link[n])
    && (forall n :: Flocked(s, n) && s.held[s.link[n]].pid != p ==> n in t.link && t.link[n] == s.link[n])
    && (s.alloc.Some? && s.alloc.value != p ==>
          t.dirs == s.dirs && forall n :: n in s.link ==> n in t.link && t.link[n] == s.link[n])
    && (forall n :: Live(t, n) ==> LiveFor(s, n, t.leases[n].key) || Wrote(s, t, p, n))
    && (s.alloc.Some? && s.alloc.value != p ==> forall n :: InUse(t, n) ==> InUse(s, n))
  }

  /** p is a lease call that wrote n's lease under the flock of n's linked lock file. */
  predicate Wrote(s: State, t: State, p: Pid, n: Slot) {
    && p in s.procs && s.procs[p].job.LeaseCall? && n in t.leases && t.leases[n].key == s.procs[p].job.key
    && Flocked(s, n) && s.held[s.link[n]] == Holder(p, n)
  }

  lemma FdStays(s: State, t: State, p: Pid, q: Pid, n: Slot)
    requires StepOf(s, t, p) && q != p && In(s, q) && In(t, q)
    requires n in s.procs[q].fds && FdOk(s, q, n)
    ensures FdOk(t, q, n)
  {
  }

  /** Nobody else can write a lease on a slot q has flocked. */
  lemma NoFreshLease(s: State, t: State, p: Pid, q: Pid, n: Slot)
    requires StepOf(s, t, p) && q != p && In(s, q) && n in s.procs[q].fds && FdOk(s, q, n)
    requires !s.procs[q].job.Reap? && !s.procs[q].phase.Removed? && !Live(s, n)
    ensures !Live(t, n)
  {
  }

  /** Nobody else writes leases under q's key. */
  lemma NoOwnKeyLease(s: State, t: State, p: Pid, q: Pid, n: Slot)
    requires StepOf(s, t, p) && q != p && In(s, q) && OneCallPerKey(s)
    requires s.procs[q].job.LeaseCall? && LiveFor(t, n, s.procs[q].job.key)
    ensures LiveFor(s, n, s.procs[q].job.key)
  {
  }

  lemma LeasesStay(s: State, t: State, p: Pid, q: Pid)
    requires StepOf(s, t, p) && q != p && In(s, q) && In(t, q)
    requires ProcOk(s, q) && OneCallPerKey(s)
    ensures LeaseFacts(t, t.procs[q])
  {
    var pr := s.procs[q];
    assert t.procs[q] == pr;
    forall n | n in pr.fds && !pr.job.Reap? && !pr.phase.Removed? && !Live(s, n) ensures !Live(t, n) {
      NoFreshLease(s, t, p, q, n);
    }
    forall n | pr.job.LeaseCall? && LiveFor(t, n, pr.job.key) ensures LiveFor(s, n, pr.job.key) {
      NoOwnKeyLease(s, t, p, q, n);
    }
    hide StepOf, OneCallPerKey, FdOk, Live, UseCounted, PathOk;
  }

  lemma CountStays(s: State, t: State, p: Pid, q: Pid)
    requires StepOf(s, t, p) && q != p && In(s, q) && In(t, q)
    requires ProcOk(s, q)
    ensures UseCounted(t, t.procs[q]) && PathOk(t, t.procs[q])
  {
  }

  lemma OthersStay(s: State, t: State, p: Pid)
    requires StepOf(s, t, p) && OneCallPerKey(s)
    requires forall q :: q in s.procs ==> ProcOk(s, q)
    ensures forall q :: q in t.procs && q != p ==> ProcOk(t, q)
  {
    forall q | q in t.procs && q != p
      ensures ProcOk(t, q)
    {
      assert ProcOk(s, q);
      LeasesStay(s, t, p, q);
      CountStays(s, t, p, q);
      forall n | n in t.procs[q].fds ensures FdOk(t, q, n) { FdStays(s, t, p, q, n); }
    }
  }
}
