/** What the steps of a run achieve: leases are given, last as long as they
    should, and are let go of; locks are had and dropped; and a claim refused
    for the cap was refused for slots it had seen in use. */
module ProtocolEffects {
  import opened Wrappers
  import opened Protocol
  import opened ProtocolInvariant
  import opened ProtocolSteps
  import opened ProtocolTheorems

  /** The leases of every slot but n are the same. */
  ghost predicate OthersLeases(s: State, t: State, n: Slot) {
    forall m :: m != n ==> (m in s.leases <==> m in t.leases) && (m in s.leases ==> t.leases[m] == s.leases[m])
  }

  ghost predicate SameLease(s: State, t: State, n: Slot) {
    (n in s.leases <==> n in t.leases) && (n in s.leases ==> t.leases[n] == s.leases[n])
  }

  /** In a run, p is in phase ph and its event e comes next. */
  ghost predicate Next(ss: seq<State>, es: seq<Event>, i: nat, p: Pid, ph: Phase, e: Event) {
    Run(ss, es) && i < |es| && es[i] == e && In(ss[i], p) && ss[i].procs[p].phase == ph
  }

  // ---------------------------------------------------------------- leases

  /** A lease is live exactly until it expires, and a keyless one never is. */
  lemma LiveUntil(s: State, n: Slot, d: nat)
    ensures Live(DoTick(s, d), n) <==> n in s.leases && s.leases[n].key != "" && s.now + d < s.leases[n].expires
  {
  }

  /** A release lets go of its key's lease, live or not, there and then; of no
      other lease. */
  lemma ReleaseReleases(ss: seq<State>, es: seq<Event>, i: nat, p: Pid, n: Slot, key: string)
    requires Next(ss, es, i, p, Unleasing(n), Unlease(p)) && ss[i].procs[p].job == Release(key)
    ensures n in ss[i].leases && ss[i].leases[n].key == key ==> n !in ss[i + 1].leases
    ensures n in ss[i].leases && ss[i].leases[n].key != key ==> SameLease(ss[i], ss[i + 1], n)
    ensures OthersLeases(ss[i], ss[i + 1], n) && ss[i + 1].alloc == None
  {
    assert Step(ss[i], es[i], ss[i + 1]);
  }

  /** A lease call past its checks has the lease from that moment on, for ttl,
      with the slot's flock still held; a `with` or `acquire` keeps the slot. */
  lemma ClaimIsKept(ss: seq<State>, es: seq<Event>, i: nat, p: Pid, n: Slot, ttl: nat)
    requires Next(ss, es, i, p, Vetted(n), Settle(p, true, ttl))
    ensures var job := ss[i].procs[p].job;
            && (job.LeaseCall? ==> n in ss[i + 1].leases && ss[i + 1].leases[n] == Lease(job.key, ss[i].now + ttl) && LiveFor(ss[i + 1], n, job.key))
            && (job.With? ==> Owns(ss[i + 1], p, n) && SameLease(ss[i], ss[i + 1], n))
    ensures OthersLeases(ss[i], ss[i + 1], n)
    ensures Flocked(ss[i + 1], n) && ss[i + 1].held[ss[i + 1].link[n]] == Holder(p, n)
  {
    hide Inv, Init, ProcOk, Step;
    Reachable(ss, es, i);
    Self(ss[i], p);
    assert Step(ss[i], es[i], ss[i + 1]);
    VettedHolds(ss[i], p);
    SettleGives(ss[i], p, ttl, ss[i + 1]);
  }

  lemma VettedHolds(s: State, p: Pid)
    requires In(s, p) && ProcOk(s, p) && s.procs[p].phase.Vetted?
    ensures var n := s.procs[p].phase.n; Flocked(s, n) && s.held[s.link[n]] == Holder(p, n)
    ensures s.procs[p].job.LeaseCall? ==> s.procs[p].job.key != ""
  {
    assert FdOk(s, p, s.procs[p].phase.n);
  }

  lemma SettleGives(s: State, p: Pid, ttl: nat, t: State)
    requires Step(s, Settle(p, true, ttl), t)
    ensures var n, job := s.procs[p].phase.n, s.procs[p].job;
            && t.held == s.held && t.link == s.link && t.now == s.now && ttl > 0
            && (if job.LeaseCall? then t.leases == s.leases[n := Lease(job.key, s.now + ttl)] else t.leases == s.leases)
            && (job.With? ==> Owns(t, p, n))
  {
    hide Step, DropFd, Goto, Write;
    SettleIs(s, p, true, ttl, t);
    var n, job := s.procs[p].phase.n, s.procs[p].job;
    if job.LeaseCall? {
      LeaseWritten(s, p, n, job.key, ttl);
    } else if job.Evict? {
      OnlyGoes(s, p, WaitRemove(n));
    } else if job.Release? {
      OnlyGoes(s, p, Leaving(n));
    }
  }

  lemma OnlyGoes(s: State, p: Pid, ph: Phase)
    requires In(s, p)
    ensures var t := Goto(s, p, ph); t.held == s.held && t.link == s.link && t.now == s.now && t.leases == s.leases
  {
  }

  lemma LeaseWritten(s: State, p: Pid, n: Slot, key: string, ttl: nat)
    requires In(s, p)
    ensures var t := Goto(Write(s, n, key, ttl), p, Leased(n));
            t.held == s.held && t.link == s.link && t.now == s.now && t.leases == s.leases[n := Lease(key, s.now + ttl)]
  {
  }

  /** Sticky renewal: a live lease of the caller's own key lasts another ttl from
      now, and any other slot is only looked at. */
  lemma RenewalExtends(ss: seq<State>, es: seq<Event>, i: nat, p: Pid, n: Slot, ttl: nat, key: string, todo: set<Slot>)
    requires Next(ss, es, i, p, Scanning(todo), ScanSlot(p, n, ttl)) && ss[i].procs[p].job == LeaseCall(key)
    ensures if n in ss[i].leases && ss[i].leases[n].key == key != "" && ss[i].now < ss[i].leases[n].expires then
              && ss[i + 1].leases == ss[i].leases[n := Lease(key, ss[i].now + ttl)]
              && ss[i + 1].procs[p].phase == Polling
            else ss[i + 1].leases == ss[i].leases && ss[i + 1].procs[p].phase == Scanning(todo - {n})
    ensures n in todo
  {
    assert Step(ss[i], es[i], ss[i + 1]);
  }

  /** An expired lease that carries a key is dropped by a cleanup; a live one,
      and every other, stays. */
  lemma CleanupDrops(ss: seq<State>, es: seq<Event>, i: nat, p: Pid, n: Slot)
    requires Next(ss, es, i, p, Cleaning(n), Cleanup(p))
    ensures n in ss[i].leases && ss[i].leases[n].key != "" && ss[i].now >= ss[i].leases[n].expires ==> n !in ss[i + 1].leases
    ensures n in ss[i].leases && (ss[i].leases[n].key == "" || ss[i].now < ss[i].leases[n].expires) ==> SameLease(ss[i], ss[i + 1], n)
    ensures OthersLeases(ss[i], ss[i + 1], n) && ss[i + 1].alloc == None
  {
    assert Step(ss[i], es[i], ss[i + 1]);
  }

  /** The step from s to t is no release of this key, and does not take the clock
      past the end of n's lease. */
  ghost predicate Spares(s: State, e: Event, t: State, n: Slot, key: string) {
    && (e.Tick? && n in s.leases ==> t.now < s.leases[n].expires)
    && (e.Unlease? && In(s, e.p) && s.procs[e.p].job.Release? ==> s.procs[e.p].job.key != key)
  }

  /** Once given, a lease lasts until it expires, however the others run, unless
      its own key is released or renewed. */
  lemma {:induction false} LeaseLasts(ss: seq<State>, es: seq<Event>, i: nat, j: nat, n: Slot, key: string)
    requires Run(ss, es) && i <= j < |ss| && LiveFor(ss[i], n, key)
    requires forall k :: i <= k < j ==> Spares(ss[k], es[k], ss[k + 1], n, key)
    ensures LiveFor(ss[j], n, key)
  {
    hide Step, Init;
    if i < j {
      LeaseLasts(ss, es, i, j - 1, n, key);
      var s, e, t := ss[j - 1], es[j - 1], ss[j];
      assert Step(s, e, t) && Spares(s, e, t, n, key);
      if e.Tick? {
        TickIs(s, e.d, t);
        LiveUntil(s, n, e.d);
      } else {
        LeasesOnlyEndOwn(ss, es, j - 1, n);
      }
    }
  }

  lemma TickIs(s: State, d: nat, t: State)
    requires Step(s, Tick(d), t)
    ensures t == DoTick(s, d)
  {
  }

  lemma RunStep(ss: seq<State>, es: seq<Event>, i: nat)
    requires Run(ss, es) && i < |es|
    ensures Step(ss[i], es[i], ss[i + 1])
  {
    hide Step, Init;
  }

  // ---------------------------------------------------------------- locks and directories

  /** A claim has the flock exactly when nobody has the lock file it opened, and
      it lets go of the allocation lock either way. */
  lemma FlockIsHad(ss: seq<State>, es: seq<Event>, i: nat, p: Pid, ph: Phase)
    requires Next(ss, es, i, p, ph, Flock(p))
    ensures ph.Flocking?
    ensures
            && ss[i + 1].alloc == None
            && if ph.ino in ss[i].held then ss[i + 1].held == ss[i].held && ss[i + 1].procs[p].phase == Ready
               else ss[i + 1].held == ss[i].held[ph.ino := Holder(p, ph.n)] && ss[i + 1].procs[p].fds == ss[i].procs[p].fds[ph.n := ph.ino]
                    && (!ss[i].procs[p].job.Preboot? ==> ss[i + 1].procs[p].phase == Checking(ph.n))
                    && (ss[i].procs[p].job.Preboot? ==> ss[i + 1].procs[p].kept == ss[i].procs[p].kept + {ph.n})
  {
    assert Step(ss[i], es[i], ss[i + 1]);
  }

  /** The check under the flock lets go of the slot exactly when a live lease
      under another key is on it. */
  lemma CheckRefuses(ss: seq<State>, es: seq<Event>, i: nat, p: Pid, n: Slot)
    requires Next(ss, es, i, p, Checking(n), ReadLease(p))
    ensures var job := ss[i].procs[p].job;
            var others := n in ss[i].leases && ss[i].leases[n].key != "" && ss[i].now < ss[i].leases[n].expires
                          && !(job.LeaseCall? && job.key == ss[i].leases[n].key);
            && (others ==> ss[i + 1].procs[p].phase == Ready && n !in ss[i + 1].procs[p].fds && ss[i].procs[p].fds[n] !in ss[i + 1].held)
            && (!others ==> ss[i + 1] == Goto(ss[i], p, Vetted(n)))
  {
    assert Step(ss[i], es[i], ss[i + 1]);
  }

  /** A check that fails lets go of the flock too. */
  lemma FailedCheckDrops(ss: seq<State>, es: seq<Event>, i: nat, p: Pid, n: Slot, ttl: nat)
    requires Next(ss, es, i, p, Vetted(n), Settle(p, false, ttl))
    ensures ss[i + 1].procs[p].phase == Ready && n !in ss[i + 1].procs[p].fds && ss[i].procs[p].fds[n] !in ss[i + 1].held
    ensures ss[i + 1].leases == ss[i].leases
  {
    assert Step(ss[i], es[i], ss[i + 1]);
  }

  /** Letting go of a slot frees its lock file. */
  lemma DropFrees(ss: seq<State>, es: seq<Event>, i: nat, p: Pid, n: Slot)
    requires Next(ss, es, i, p, Ready, DropKept(p, n)) || exists ph :: ph in {Leased(n), Removed(n), Leaving(n), Peeked(n)} && Next(ss, es, i, p, ph, Drop(p))
    ensures n in ss[i].procs[p].fds && ss[i + 1].held == ss[i].held - {ss[i].procs[p].fds[n]}
    ensures n !in ss[i + 1].procs[p].fds && n !in ss[i + 1].procs[p].kept
  {
    assert Step(ss[i], es[i], ss[i + 1]);
  }

  /** An eviction past its checks removes the directory, and everything in it,
      exactly when the group is above max. */
  lemma RemovalRemoves(ss: seq<State>, es: seq<Event>, i: nat, p: Pid, n: Slot)
    requires Next(ss, es, i, p, Removing(n), Remove(p))
    ensures var s, t := ss[i], ss[i + 1];
            if |s.dirs| > s.max then
              && t.dirs == s.dirs - {n} && n !in t.link && n !in t.leases && n !in t.marker
              && OthersLeases(s, t, n) && t.procs[p].phase == Removed(n)
              && forall m :: m != n ==> (m in s.link <==> m in t.link) && (m in s.link ==> t.link[m] == s.link[m])
            else t.dirs == s.dirs && t.link == s.link && t.leases == s.leases && t.marker == s.marker && t.procs[p].phase == Leaving(n)
    ensures ss[i + 1].alloc == None
  {
    assert Step(ss[i], es[i], ss[i + 1]);
  }

  /** A claim makes the directory it is for; an eviction or a release, which lock
      only what exists, never makes one. */
  lemma OnlyClaimsMakeDirs(ss: seq<State>, es: seq<Event>, i: nat, n: Slot)
    requires Run(ss, es) && i < |es| && n !in ss[i].dirs
    ensures n in ss[i + 1].dirs <==> es[i].Enter? && ss[i].procs[es[i].p].phase.n == n
                                     && !ss[i].procs[es[i].p].job.Evict? && !ss[i].procs[es[i].p].job.Release?
  {
    RunStep(ss, es, i);
    Frame(ss[i], es[i], ss[i + 1]);
    hide ActorFrame;
  }

  /** A marker is there from marking to unmarking, stamped with the time. */
  lemma MarkingMarks(ss: seq<State>, es: seq<Event>, i: nat, p: Pid, n: Slot)
    requires Next(ss, es, i, p, Peeked(n), Mark(p)) || Next(ss, es, i, p, Leaving(n), Mark(p)) || Next(ss, es, i, p, Marked(n), Unmark(p))
    ensures (es[i].Mark? ==> ss[i + 1].marker == ss[i].marker[n := Marker(p, ss[i].now)] && ss[i + 1].procs[p].phase == Marked(n))
            && (es[i].Unmark? ==> ss[i + 1].marker == ss[i].marker - {n})
  {
    assert Step(ss[i], es[i], ss[i + 1]);
  }

  // ---------------------------------------------------------------- the census

  /** In somebody else's hands, as a claim looks at it: under a live lease that
      is not its own key's, or its lock file held with no live reap that began
      shutting the simulator down less than two minutes ago. */
  ghost predicate SeenBusy(s: State, p: Pid, m: Slot) {
    In(s, p) &&
    if m in s.leases && s.leases[m].key != "" && s.now < s.leases[m].expires then
      s.procs[p].job.LeaseCall? ==> s.leases[m].key != s.procs[p].job.key
    else
      && m in s.link && s.link[m] in s.held
      && !(m in s.marker && s.marker[m].pid in s.procs && s.now - s.marker[m].started < 120)
  }

  /** Counting one slot counts it exactly when it is in somebody else's hands. */
  lemma CensusCounts(s: State, p: Pid, m: Slot)
    requires CanProbe(s, p, m) && Held(s)
    ensures var ph := DoProbe(s, p, m).procs[p].phase;
            && ph.Census? && ph.n == s.procs[p].phase.n && ph.todo == s.procs[p].phase.todo - {m}
            && ph.used == if SeenBusy(s, p, m) then s.procs[p].phase.used + {m} else s.procs[p].phase.used
  {
    assert s.nextIno !in s.held by { if s.nextIno in s.held { HeldOld(s, s.nextIno); } }
  }

  /** The claim of a census begins with every other directory still to count. */
  lemma CensusStarts(ss: seq<State>, es: seq<Event>, i: nat, p: Pid, n: Slot)
    requires Next(ss, es, i, p, WaitClaim(n), TakeAlloc(p))
    requires ss[i].procs[p].job.With? || ss[i].procs[p].job.LeaseCall?
    ensures ss[i + 1].procs[p].phase == Census(n, ss[i].dirs - ss[i].procs[p].kept - {n}, {}) && ss[i + 1].alloc == Some(p)
  {
    assert Step(ss[i], es[i], ss[i + 1]);
  }

  /** When all are counted the claim goes on exactly when those in use, those the
      caller keeps and this one are at most max; else it lets go. */
  lemma CapDecides(ss: seq<State>, es: seq<Event>, i: nat, p: Pid, n: Slot, todo: set<Slot>, used: set<Slot>)
    requires Next(ss, es, i, p, Census(n, todo, used), Decide(p))
    ensures todo == {}
    ensures if |used| + |ss[i].procs[p].kept| < ss[i].max then ss[i + 1] == Goto(ss[i], p, Entering(n, used))
            else ss[i + 1] == Yield(ss[i], p, Ready)
  {
    assert Step(ss[i], es[i], ss[i + 1]);
  }

  /** m was counted at k, in the census p is still taking at i. */
  ghost predicate CountedAt(ss: seq<State>, i: nat, k: nat, p: Pid, n: Slot, m: Slot) {
    && k < i < |ss| && SeenBusy(ss[k], p, m)
    && forall j :: k <= j <= i ==> In(ss[j], p) && ss[j].procs[p].phase.Census? && ss[j].procs[p].phase.n == n
  }

  /** Whatever a claim counts was in somebody else's hands when this same census
      looked at it; so a claim refused for the cap saw that many in use. */
  lemma {:induction false} CountedWasBusy(ss: seq<State>, es: seq<Event>, i: nat, p: Pid, m: Slot)
    requires Run(ss, es) && i < |ss| && In(ss[i], p) && ss[i].procs[p].phase.Census? && m in ss[i].procs[p].phase.used
    ensures exists k :: CountedAt(ss, i, k, p, ss[i].procs[p].phase.n, m)
  {
    hide Init, Step, Inv, SeenBusy;
    if i == 0 {
      NobodyAtFirst(ss, es);
    } else {
      assert Step(ss[i - 1], es[i - 1], ss[i]);
      Reachable(ss, es, i - 1);
      CensusStep(ss[i - 1], es[i - 1], ss[i], p);
      if m in ss[i - 1].procs[p].phase.used {
        CountedWasBusy(ss, es, i - 1, p, m);
        var k :| CountedAt(ss, i - 1, k, p, ss[i].procs[p].phase.n, m);
        assert CountedAt(ss, i, k, p, ss[i].procs[p].phase.n, m);
      } else {
        assert CountedAt(ss, i, i - 1, p, ss[i].procs[p].phase.n, m);
      }
    }
  }

  lemma NobodyAtFirst(ss: seq<State>, es: seq<Event>)
    requires Run(ss, es)
    ensures ss[0].procs == map[]
  {
    hide Step;
  }

  /** A census with anything counted was a census before, of the same claim, and
      what it has newly counted was in somebody else's hands. */
  lemma CensusStep(s: State, e: Event, t: State, p: Pid)
    requires Step(s, e, t) && Inv(s) && In(t, p) && t.procs[p].phase.Census? && t.procs[p].phase.used != {}
    ensures In(s, p) && s.procs[p].phase.Census? && s.procs[p].phase.n == t.procs[p].phase.n
    ensures forall m :: m in t.procs[p].phase.used ==> m in s.procs[p].phase.used || SeenBusy(s, p, m)
  {
    hide Inv, SeenBusy, Step, DiskFrame;
    if Actor(e) != Some(p) {
      Frame(s, e, t);
    } else if e.Probe? {
      HeldHere(s);
      ProbeIs(s, e.p, e.m, t);
    } else {
      NoCensus(s, e, t, p);
    }
  }

  lemma ProbeIs(s: State, p: Pid, m: Slot, t: State)
    requires Step(s, Probe(p, m), t) && Held(s)
    ensures CanProbe(s, p, m) && t == DoProbe(s, p, m) && In(t, p) && t.procs[p].phase.Census?
    ensures In(s, p) && s.procs[p].phase.Census? && s.procs[p].phase.n == t.procs[p].phase.n
    ensures forall k :: k in t.procs[p].phase.used ==> k in s.procs[p].phase.used || SeenBusy(s, p, k)
  {
    hide SeenBusy;
    CensusCounts(s, p, m);
  }

  /** No other step of p's own leaves it in a census with anything counted. */
  lemma NoCensus(s: State, e: Event, t: State, p: Pid)
    requires Step(s, e, t) && Actor(e) == Some(p) && !e.Probe? && In(t, p)
    ensures t.procs[p].phase.Census? ==> t.procs[p].phase.used == {}
  {
    hide Step, Inside;
    if e.Spawn? || e.Die? || e.ListSlots? || e.ScanSlot? || e.Aim? || e.Reclaim? { BeforeCensus(s, e, t, p); }
    else if e.TakeAlloc? { CensusBegins(s, e, t, p); }
    else if e.Decide? { DecideEnds(s, t, p); }
    else if e.Enter? { EnterEnds(s, t, p); }
    else if e.Open? { OpenEnds(s, t, p); }
    else if e.Flock? { FlockEnds(s, t, p); }
    else if e.ReadLease? { CheckEnds(s, t, p); }
    else if e.Settle? { SettleEnds(s, e, t, p); }
    else if e.Remove? || e.Cleanup? || e.Unlease? { UnlockingEnds(s, e, t, p); }
    else if e.Drop? || e.DropKept? || e.Peek? || e.PeekFlock? { LetGoEnds(s, e, t, p); }
    else { RestEnds(s, e, t, p); }
  }

  lemma BeforeCensus(s: State, e: Event, t: State, p: Pid)
    requires Step(s, e, t) && Actor(e) == Some(p) && In(t, p)
    requires e.Spawn? || e.Die? || e.ListSlots? || e.ScanSlot? || e.Aim? || e.Reclaim?
    ensures !t.procs[p].phase.Census?
  {
  }

  lemma CensusBegins(s: State, e: Event, t: State, p: Pid)
    requires Step(s, e, t) && e == TakeAlloc(p) && In(t, p)
    ensures t.procs[p].phase.Census? ==> t.procs[p].phase.used == {}
  {
  }

  lemma DecideEnds(s: State, t: State, p: Pid)
    requires Step(s, Decide(p), t) && In(t, p)
    ensures !t.procs[p].phase.Census?
  {
    hide Step;
    DecideIs(s, p, t);
  }

  lemma EnterEnds(s: State, t: State, p: Pid)
    requires Step(s, Enter(p), t) && In(t, p)
    ensures !t.procs[p].phase.Census?
  {
    hide Step;
    EnterIs(s, p, t);
  }

  lemma OpenEnds(s: State, t: State, p: Pid)
    requires Step(s, Open(p), t) && In(t, p)
    ensures !t.procs[p].phase.Census?
  {
    hide Step;
    OpenIs(s, p, t);
  }

  lemma DecideIs(s: State, p: Pid, t: State)
    requires Step(s, Decide(p), t)
    ensures CanDecide(s, p) && t == DoDecide(s, p)
  {
    hide DoDecide;
  }

  lemma EnterIs(s: State, p: Pid, t: State)
    requires Step(s, Enter(p), t)
    ensures CanEnter(s, p) && t == DoEnter(s, p)
  {
    hide DoEnter;
  }

  lemma OpenIs(s: State, p: Pid, t: State)
    requires Step(s, Open(p), t)
    ensures CanOpen(s, p) && t == DoOpen(s, p)
  {
    hide DoOpen;
  }

  lemma SettleIs(s: State, p: Pid, ok: bool, ttl: nat, t: State)
    requires Step(s, Settle(p, ok, ttl), t)
    ensures CanSettle(s, p, ttl) && t == DoSettle(s, p, ok, ttl)
  {
    hide DoSettle;
  }

  lemma FlockEnds(s: State, t: State, p: Pid)
    requires Step(s, Flock(p), t) && In(t, p)
    ensures !t.procs[p].phase.Census?
  {
    hide TakeFd;
    var ph, kept := s.procs[p].phase, s.procs[p].kept;
    TakesPhase(s.(alloc := None), p, ph.n, ph.ino, kept + {ph.n}, Polling);
    TakesPhase(s.(alloc := None), p, ph.n, ph.ino, kept, Checking(ph.n));
  }

  lemma CheckEnds(s: State, t: State, p: Pid)
    requires Step(s, ReadLease(p), t) && In(t, p)
    ensures !t.procs[p].phase.Census?
  {
    hide DropFd, Live, LiveFor;
    DropsPhase(s, p, s.procs[p].phase.n, Ready);
  }

  lemma SettleEnds(s: State, e: Event, t: State, p: Pid)
    requires Step(s, e, t) && e.Settle? && e.p == p && In(t, p)
    ensures !t.procs[p].phase.Census?
  {
    hide Step, DropFd, Write;
    SettleIs(s, p, e.ok, e.ttl, t);
    var n := s.procs[p].phase.n;
    DropsPhase(s, p, n, Ready);
    if s.procs[p].job.LeaseCall? { Writes(s, n, s.procs[p].job.key, e.ttl); }
  }

  lemma TakesPhase(s: State, p: Pid, n: Slot, ino: Inode, kept: set<Slot>, ph: Phase)
    requires In(s, p)
    ensures In(TakeFd(s, p, n, ino, kept, ph), p) && TakeFd(s, p, n, ino, kept, ph).procs[p].phase == ph
  {
  }

  lemma DropsPhase(s: State, p: Pid, n: Slot, ph: Phase)
    requires In(s, p) && n in s.procs[p].fds
    ensures In(DropFd(s, p, n, ph), p) && DropFd(s, p, n, ph).procs[p].phase == ph
  {
  }

  lemma Writes(s: State, n: Slot, key: string, ttl: nat)
    ensures Write(s, n, key, ttl).procs == s.procs
  {
  }

  lemma UnlockingEnds(s: State, e: Event, t: State, p: Pid)
    requires Step(s, e, t) && Actor(e) == Some(p) && In(t, p)
    requires e.Remove? || e.Cleanup? || e.Unlease?
    ensures !t.procs[p].phase.Census?
  {
    hide Live;
  }

  lemma LetGoEnds(s: State, e: Event, t: State, p: Pid)
    requires Step(s, e, t) && Actor(e) == Some(p) && In(t, p)
    requires e.Drop? || e.DropKept? || e.Peek? || e.PeekFlock?
    ensures !t.procs[p].phase.Census?
  {
  }

  lemma RestEnds(s: State, e: Event, t: State, p: Pid)
    requires Step(s, e, t) && Actor(e) == Some(p) && In(t, p)
    requires e.Prune? || e.Mark? || e.Unmark? || e.Provision? || e.TakeGate? || e.LeaveGate?
    ensures !t.procs[p].phase.Census?
  {
  }

  lemma HeldHere(s: State)
    requires Inv(s)
    ensures Held(s)
  {
    hide Held;
  }

  // ---------------------------------------------------------------- nobody is stuck

  /** p has a step of its own to take, other than dying. */
  ghost predicate CanGoOn(s: State, p: Pid) {
    exists e, t :: Actor(e) == Some(p) && !e.Die? && Step(s, e, t)
  }

  lemma GoesOn(s: State, e: Event, t: State, p: Pid)
    requires Actor(e) == Some(p) && !e.Die? && Step(s, e, t)
    ensures CanGoOn(s, p)
  {
    hide Step;
  }

  /** In every reachable state whoever does not wait for the allocation lock
      while another has it, and is not a lease call that is done or a reap with
      no slots, has a step to take. */
  lemma NobodyIsStuck(ss: seq<State>, es: seq<Event>, i: nat, p: Pid)
    requires Run(ss, es) && i < |ss| && In(ss[i], p)
    ensures var s, pr := ss[i], ss[i].procs[p];
            || CanGoOn(s, p) || pr.phase.Running? || (WaitsForAlloc(pr.phase) && s.alloc.Some?)
            || (pr.job.Reap? && pr.phase.Ready? && s.dirs == {})
  {
    hide Run, Inv, ProcOk, CanGoOn;
    Reachable(ss, es, i);
    var s := ss[i];
    Self(s, p);
    PhaseFits(s, p);
    var ph := s.procs[p].phase;
    if ph.Ready? || ph.Scanning? || ph.Listing? { BeginsOn(s, p); }
    else if HoldsAlloc(ph) { LockedGoesOn(s, p); }
    else if ph.WaitClaim? || ph.WaitRemove? || ph.WaitCleanup? || ph.WaitUnlease? { if s.alloc.None? { GoesOn(s, TakeAlloc(p), DoTakeAlloc(s, p), p); } }
    else if !ph.Running? { HeldGoesOn(s, p); }
  }

  lemma PhaseFits(s: State, p: Pid)
    requires In(s, p) && ProcOk(s, p)
    ensures Shape(s.procs[p])
  {
    hide Shape;
  }

  lemma BeginsOn(s: State, p: Pid)
    requires In(s, p) && Shape(s.procs[p])
    requires s.procs[p].phase.Ready? || s.procs[p].phase.Scanning? || s.procs[p].phase.Listing?
    ensures CanGoOn(s, p) || (s.procs[p].job.Reap? && s.procs[p].phase.Ready? && s.dirs == {})
  {
    hide CanGoOn;
    var pr := s.procs[p];
    if pr.phase.Listing? {
      GoesOn(s, ListSlots(p), DoListSlots(s, p), p);
    } else if pr.phase.Scanning? && pr.phase.todo != {} {
      var m :| m in pr.phase.todo;
      GoesOn(s, ScanSlot(p, m, 1), DoScanSlot(s, p, m, 1), p);
    } else if pr.job.Reap? {
      if n :| n in s.dirs { GoesOn(s, Peek(p, n), DoPeek(s, p, n), p); }
    } else {
      var n := Outside(pr.kept);
      GoesOn(s, Aim(p, n), DoAim(s, p, n), p);
    }
  }

  lemma LockedGoesOn(s: State, p: Pid)
    requires In(s, p) && Shape(s.procs[p]) && HoldsAlloc(s.procs[p].phase)
    ensures CanGoOn(s, p)
  {
    hide Step;
    HolderCanStep(s, p);
  }

  lemma HeldGoesOn(s: State, p: Pid)
    requires In(s, p) && Shape(s.procs[p]) && !HoldsAlloc(s.procs[p].phase) && !WaitsForAlloc(s.procs[p].phase)
    requires !(s.procs[p].phase.Ready? || s.procs[p].phase.Scanning? || s.procs[p].phase.Listing? || s.procs[p].phase.Running?)
    ensures CanGoOn(s, p)
  {
    hide CanGoOn, Step;
    var ph := s.procs[p].phase;
    if ph.Checking? || ph.Vetted? { CheckGoesOn(s, p); }
    else if ph.Marked? || ph.Peeking? { ReapGoesOn(s, p); }
    else { RestGoesOn(s, p); }
  }

  lemma CheckGoesOn(s: State, p: Pid)
    requires In(s, p) && Shape(s.procs[p]) && (s.procs[p].phase.Checking? || s.procs[p].phase.Vetted?)
    ensures CanGoOn(s, p)
  {
    hide CanGoOn, DoReadLease, DoSettle;
    if s.procs[p].phase.Checking? { GoesOn(s, ReadLease(p), DoReadLease(s, p), p); }
    else { GoesOn(s, Settle(p, true, 1), DoSettle(s, p, true, 1), p); }
  }

  lemma ReapGoesOn(s: State, p: Pid)
    requires In(s, p) && (s.procs[p].phase.Marked? || s.procs[p].phase.Peeking?)
    ensures CanGoOn(s, p)
  {
    hide CanGoOn, DoUnmark, DoPeekFlock;
    if s.procs[p].phase.Marked? { GoesOn(s, Unmark(p), DoUnmark(s, p), p); }
    else { GoesOn(s, PeekFlock(p), DoPeekFlock(s, p), p); }
  }

  lemma RestGoesOn(s: State, p: Pid)
    requires In(s, p) && Shape(s.procs[p])
    requires var ph := s.procs[p].phase; ph.Polling? || ph.Booting? || ph.Leased? || ph.Removed? || ph.Leaving? || ph.Peeked?
    ensures CanGoOn(s, p)
  {
    hide CanGoOn, DoLeaveGate, DoDrop;
    if s.procs[p].phase.Polling? || s.procs[p].phase.Booting? { GoesOn(s, LeaveGate(p), DoLeaveGate(s, p), p); }
    else { GoesOn(s, Drop(p), DoDrop(s, p), p); }
  }
}
