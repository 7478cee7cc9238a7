/** What a process comes to when the others leave it to itself: a claim with room
    under the cap succeeds, a release releases, an eviction above max evicts. */
module ProtocolProgress {
  import opened Wrappers
  import opened Protocol
  import opened ProtocolInvariant
  import opened ProtocolSteps
  import opened ProtocolTheorems
  import opened ProtocolEffects

  /** Steps of p's alone, none of them its death. */
  ghost predicate Alone(ss: seq<State>, es: seq<Event>, p: Pid) {
    && |ss| == |es| + 1
    && forall k :: 0 <= k < |es| ==> Actor(es[k]) == Some(p) && !es[k].Die? && Step(ss[k], es[k], ss[k + 1])
  }

  /** Such steps lead from s to t. */
  ghost predicate Leads(s: State, p: Pid, t: State) {
    exists ss, es :: Alone(ss, es, p) && ss[0] == s && ss[|es|] == t
  }

  lemma Begins(s: State, p: Pid)
    ensures Leads(s, p, s)
  {
    assert Alone([s], [], p);
  }

  lemma Onward(s: State, p: Pid, t: State, e: Event, u: State)
    requires Leads(s, p, t) && Inv(t) && Step(t, e, u) && Actor(e) == Some(p) && !e.Die?
    ensures Leads(s, p, u) && Inv(u)
  {
    hide Step, Inv;
    StepKeeps(t, e, u);
    var ss, es :| Alone(ss, es, p) && ss[0] == s && ss[|es|] == t;
    var ss', es' := ss + [u], es + [e];
    assert Alone(ss', es', p) by {
      forall k | 0 <= k < |es'| ensures Actor(es'[k]) == Some(p) && !es'[k].Die? && Step(ss'[k], es'[k], ss'[k + 1]) {
        if k < |es| { assert ss'[k] == ss[k] && ss'[k + 1] == ss[k + 1]; }
      }
    }
    assert ss'[|es'|] == u;
  }

  // ---------------------------------------------------------------- one step at a time

  lemma AimStep(s: State, p: Pid, n: Slot)
    requires CanAim(s, p, n)
    ensures Step(s, Aim(p, n), DoAim(s, p, n))
  {
    hide CanAim, DoAim;
  }

  lemma TakeStep(s: State, p: Pid)
    requires CanTakeAlloc(s, p)
    ensures Step(s, TakeAlloc(p), DoTakeAlloc(s, p))
  {
    hide CanTakeAlloc, DoTakeAlloc;
  }

  lemma UnleaseStep(s: State, p: Pid)
    requires CanUnlease(s, p)
    ensures Step(s, Unlease(p), DoUnlease(s, p))
  {
    hide CanUnlease, DoUnlease;
  }

  lemma SettleStep(s: State, p: Pid)
    requires CanSettle(s, p, 1)
    ensures Step(s, Settle(p, true, 1), DoSettle(s, p, true, 1))
  {
    hide CanSettle, DoSettle;
  }

  lemma RemoveStep(s: State, p: Pid)
    requires CanRemove(s, p)
    ensures Step(s, Remove(p), DoRemove(s, p))
  {
    hide CanRemove, DoRemove;
  }

  lemma PruneStep(s: State, p: Pid)
    requires CanPrune(s, p)
    ensures Step(s, Prune(p), DoPrune(s, p))
  {
    hide CanPrune, DoPrune;
  }

  lemma CleanupStep(s: State, p: Pid)
    requires CanCleanup(s, p)
    ensures Step(s, Cleanup(p), DoCleanup(s, p))
  {
    hide CanCleanup, DoCleanup;
  }

  lemma PeekStep(s: State, p: Pid, n: Slot)
    requires CanPeek(s, p, n)
    ensures Step(s, Peek(p, n), DoPeek(s, p, n))
  {
    hide CanPeek, DoPeek;
  }

  lemma PeekFlockStep(s: State, p: Pid)
    requires CanPeekFlock(s, p)
    ensures Step(s, PeekFlock(p), DoPeekFlock(s, p))
  {
    hide CanPeekFlock, DoPeekFlock;
  }

  lemma FlockStep(s: State, p: Pid)
    requires CanFlock(s, p)
    ensures Step(s, Flock(p), DoFlock(s, p))
  {
    hide CanFlock, DoFlock;
  }

  lemma ReadLeaseStep(s: State, p: Pid)
    requires CanReadLease(s, p)
    ensures Step(s, ReadLease(p), DoReadLease(s, p))
  {
    hide CanReadLease, DoReadLease;
  }

  // ---------------------------------------------------------------- inside the allocation lock

  /** p has the allocation lock and is in phase ph; since s0 nothing else has
      changed but that lock files were made, which nobody has. */
  ghost predicate Inwards(s0: State, t: State, p: Pid, ph: Phase) {
    && In(s0, p) && In(t, p) && t.procs[p] == s0.procs[p].(phase := ph) && t.procs.Keys == s0.procs.Keys && t.alloc == Some(p)
    && t.leases == s0.leases && t.now == s0.now && t.max == s0.max && t.marker == s0.marker && t.held == s0.held && t.dirs == s0.dirs
    && (forall m :: m in s0.link ==> m in t.link && t.link[m] == s0.link[m])
    && (forall m :: m in t.link && m !in s0.link ==> t.link[m] !in s0.held)
  }

  lemma SeenAlike(s0: State, t: State, p: Pid, ph: Phase, m: Slot)
    requires Inwards(s0, t, p, ph)
    ensures SeenBusy(t, p, m) <==> SeenBusy(s0, p, m)
    ensures Flocked(t, m) <==> Flocked(s0, m)
    ensures Live(t, m) <==> Live(s0, m)
  {
  }

  ghost function Busy(s: State, p: Pid, ns: set<Slot>): set<Slot> {
    set m | m in ns && SeenBusy(s, p, m)
  }

  /** The lock file a probe may make is new. */
  lemma Unheld(s: State)
    requires Inv(s)
    ensures s.nextIno !in s.held && Held(s)
  {
    if s.nextIno in s.held { HeldOld(s, s.nextIno); }
    hide HeldBy;
  }

  lemma ProbeFrame(c: State, p: Pid, m: Slot, t: State)
    requires CanProbe(c, p, m) && t == DoProbe(c, p, m)
    ensures In(t, p) && t.procs == c.procs[p := c.procs[p].(phase := t.procs[p].phase)] && t.alloc == c.alloc
    ensures t.leases == c.leases && t.now == c.now && t.max == c.max && t.marker == c.marker && t.held == c.held && t.dirs == c.dirs
    ensures t.link == c.link || (m !in c.link && t.link == c.link[m := c.nextIno])
  {
    hide Live, LiveFor, Flocked, ShutdownInProgress, Touch, Goto;
    TouchMakes(c, m);
    forall ph ensures PutIn(c, Goto(c, p, ph), p) { OnlyPuts(c, p, ph); }
    forall ph ensures PutIn(Touch(c, m), Goto(Touch(c, m), p, ph), p) { OnlyPuts(Touch(c, m), p, ph); }
  }

  /** t differs from s in p's phase only. */
  ghost predicate PutIn(s: State, t: State, p: Pid) {
    In(s, p) && In(t, p) && t == s.(procs := s.procs[p := s.procs[p].(phase := t.procs[p].phase)])
  }

  lemma OnlyPuts(s: State, p: Pid, ph: Phase)
    requires In(s, p)
    ensures PutIn(s, Goto(s, p, ph), p)
  {
  }

  lemma TouchMakes(c: State, m: Slot)
    ensures var u := Touch(c, m);
            u == c || (m !in c.link && u == c.(link := c.link[m := c.nextIno], nextIno := c.nextIno + 1))
  {
  }

  lemma StillInwards(s0: State, c: State, p: Pid, ph: Phase, m: Slot, t: State)
    requires Inwards(s0, c, p, ph) && c.nextIno !in c.held && In(t, p)
    requires t.procs == c.procs[p := c.procs[p].(phase := t.procs[p].phase)] && t.alloc == c.alloc
    requires t.leases == c.leases && t.now == c.now && t.max == c.max && t.marker == c.marker && t.held == c.held && t.dirs == c.dirs
    requires t.link == c.link || (m !in c.link && t.link == c.link[m := c.nextIno])
    ensures Inwards(s0, t, p, t.procs[p].phase)
  {
  }

  lemma CanCount(s0: State, c: State, p: Pid, n: Slot, todo: set<Slot>, used: set<Slot>, m: Slot)
    requires Inwards(s0, c, p, Census(n, todo, used)) && m in todo
    ensures CanProbe(c, p, m) && c.procs[p].phase == Census(n, todo, used)
  {
  }

  lemma ProbeGoes(s0: State, c: State, p: Pid, n: Slot, todo: set<Slot>, used: set<Slot>, m: Slot)
    requires Inv(c) && Inwards(s0, c, p, Census(n, todo, used)) && m in todo
    ensures CanProbe(c, p, m) && Step(c, Probe(p, m), DoProbe(c, p, m))
    ensures Inwards(s0, DoProbe(c, p, m), p, Census(n, todo - {m}, if SeenBusy(s0, p, m) then used + {m} else used))
  {
    hide Inv, SeenBusy, Held, Inwards, CanProbe, DoProbe;
    CanCount(s0, c, p, n, todo, used, m);
    Unheld(c);
    CensusCounts(c, p, m);
    SeenAlike(s0, c, p, Census(n, todo, used), m);
    ProbeFrame(c, p, m, DoProbe(c, p, m));
    StillInwards(s0, c, p, Census(n, todo, used), m, DoProbe(c, p, m));
  }

  /** The census goes on to its end, and counts what is busy. */
  lemma {:induction false} CensusEnds(s: State, s0: State, c: State, p: Pid, n: Slot, todo: set<Slot>, used: set<Slot>) returns (d: State)
    requires Leads(s, p, c) && Inv(c) && Inwards(s0, c, p, Census(n, todo, used))
    ensures Leads(s, p, d) && Inv(d) && Inwards(s0, d, p, Census(n, {}, used + Busy(s0, p, todo)))
    decreases todo
  {
    hide Inv, Inwards, Step, SeenBusy, Leads;
    if todo == {} {
      d := c;
      assert used + Busy(s0, p, todo) == used;
    } else {
      var m :| m in todo;
      ProbeGoes(s0, c, p, n, todo, used, m);
      var c' := DoProbe(c, p, m);
      Onward(s, p, c, Probe(p, m), c');
      var more := if SeenBusy(s0, p, m) then used + {m} else used;
      d := CensusEnds(s, s0, c', p, n, todo - {m}, more);
      assert used + Busy(s0, p, todo) == more + Busy(s0, p, todo - {m});
    }
  }

  // ---------------------------------------------------------------- from the allocation lock to the slot

  /** Nobody has slot n's lock file, and it is under no live lease but one of
      the job's own key. */
  ghost predicate Free(s: State, job: Job, n: Slot) {
    !Flocked(s, n) && (Live(s, n) ==> job.LeaseCall? && s.leases[n].key == job.key)
  }

  /** p, past the check of slot n, has its flock; the leases are as at s0. */
  ghost predicate Through(s0: State, t: State, p: Pid, n: Slot) {
    && In(s0, p) && In(t, p) && t.procs[p].job == s0.procs[p].job && t.procs[p].kept == s0.procs[p].kept
    && t.procs[p].phase == Vetted(n) && n in t.procs[p].fds && t.alloc == None
    && t.leases == s0.leases && t.now == s0.now && t.max == s0.max && t.dirs == s0.dirs + {n} && t.procs.Keys == s0.procs.Keys
  }

  lemma EnterGoes(s0: State, c: State, p: Pid, n: Slot, used: set<Slot>) returns (t: State)
    requires Inwards(s0, c, p, Entering(n, used)) && ((s0.procs[p].job.Evict? || s0.procs[p].job.Release?) ==> n in s0.dirs)
    ensures Step(c, Enter(p), t)
    ensures t.dirs == s0.dirs + {n} && Inwards(s0, t.(dirs := s0.dirs), p, Opening(n, used))
  {
    t := DoEnter(c, p);
  }

  lemma OpenGoes(s0: State, c: State, p: Pid, n: Slot, used: set<Slot>) returns (t: State, ino: Inode)
    requires c.dirs == s0.dirs + {n} && Inwards(s0, c.(dirs := s0.dirs), p, Opening(n, used)) && c.nextIno !in c.held && !Flocked(s0, n)
    ensures Step(c, Open(p), t) && ino !in t.held
    ensures t.dirs == s0.dirs + {n} && Inwards(s0, t.(dirs := s0.dirs), p, Flocking(n, used, ino))
  {
    t := DoOpen(c, p);
    ino := t.procs[p].phase.ino;
  }

  lemma FlockGoes(s0: State, c: State, p: Pid, n: Slot, used: set<Slot>, ino: Inode) returns (t: State)
    requires c.dirs == s0.dirs + {n} && Inwards(s0, c.(dirs := s0.dirs), p, Flocking(n, used, ino)) && ino !in c.held
    requires !s0.procs[p].job.Preboot? && Free(s0, s0.procs[p].job, n)
    ensures Step(c, Flock(p), t) && In(t, p) && t.procs[p].phase == Checking(n)
    ensures Through(s0, Goto(t, p, Vetted(n)), p, n)
    ensures Step(t, ReadLease(p), Goto(t, p, Vetted(n)))
  {
    hide Step;
    t := DoFlock(c, p);
    FlockStep(c, p);
    ReadLeaseStep(t, p);
  }

  /** With nobody else at work, a claim that is let in gets its slot. */
  lemma EnteredGetsIt(s: State, s0: State, c: State, p: Pid, n: Slot, used: set<Slot>) returns (t: State)
    requires Leads(s, p, c) && Inv(c) && Inwards(s0, c, p, Entering(n, used))
    requires !s0.procs[p].job.Preboot? && Free(s0, s0.procs[p].job, n) && ((s0.procs[p].job.Evict? || s0.procs[p].job.Release?) ==> n in s0.dirs)
    ensures Leads(s, p, t) && Inv(t) && Through(s0, t, p, n)
  {
    assert !Flocked(s0, n);
    hide Inv, Inwards, Step, Leads, Free, Flocked, Through;
    var c1 := EnterGoes(s0, c, p, n, used);
    Onward(s, p, c, Enter(p), c1);
    Unheld(c1);
    var c2, ino := OpenGoes(s0, c1, p, n, used);
    Onward(s, p, c1, Open(p), c2);
    var c3 := FlockGoes(s0, c2, p, n, used, ino);
    Onward(s, p, c2, Flock(p), c3);
    t := Goto(c3, p, Vetted(n));
    Onward(s, p, c3, ReadLease(p), t);
  }

  // ---------------------------------------------------------------- what a process left to itself achieves

  /** p is between two slots, does not have n already, and nobody has the allocation lock. */
  ghost predicate Idle(s: State, p: Pid, n: Slot) {
    In(s, p) && s.procs[p].phase in {Ready, Scanning({})} && n !in s.procs[p].kept && s.alloc == None
  }

  lemma AimGoes(s: State, p: Pid, n: Slot) returns (t: State, u: State)
    requires Idle(s, p, n) && (Claims(s.procs[p].job) || s.procs[p].job.Evict?)
    ensures Step(s, Aim(p, n), t) && Step(t, TakeAlloc(p), u)
    ensures Inwards(s, u, p, if s.procs[p].job.Evict? then Entering(n, {}) else Census(n, s.dirs - s.procs[p].kept - {n}, {}))
  {
    t := DoAim(s, p, n);
    u := DoTakeAlloc(t, p);
  }

  lemma DecideGoes(s0: State, c: State, p: Pid, n: Slot, used: set<Slot>) returns (t: State)
    requires Inwards(s0, c, p, Census(n, {}, used)) && |used| + |s0.procs[p].kept| < s0.max
    ensures Step(c, Decide(p), t) && Inwards(s0, t, p, Entering(n, used))
  {
    t := DoDecide(c, p);
  }

  lemma SettleGoes(s0: State, c: State, p: Pid, n: Slot) returns (t: State)
    requires Through(s0, c, p, n) && Claims(s0.procs[p].job) && (s0.procs[p].job.LeaseCall? ==> s0.procs[p].job.key != "")
    ensures Step(c, Settle(p, true, 1), t)
    ensures if s0.procs[p].job.With? then Owns(t, p, n) else LiveFor(t, n, s0.procs[p].job.key)
    ensures t.alloc == None
  {
    t := DoSettle(c, p, true, 1);
  }

  /** A claim of a free slot succeeds when fewer than max slots are in use,
      those the caller keeps included: a `with` or `acquire` then owns the slot,
      and a lease call has it under its own live lease. */
  lemma ClaimSucceeds(ss: seq<State>, es: seq<Event>, i: nat, p: Pid, n: Slot) returns (t: State)
    requires Run(ss, es) && i < |ss| && Idle(ss[i], p, n) && Claims(ss[i].procs[p].job) && Free(ss[i], ss[i].procs[p].job, n)
    requires var s := ss[i]; |Busy(s, p, s.dirs - s.procs[p].kept - {n})| + |s.procs[p].kept| < s.max
    ensures Leads(ss[i], p, t) && t.alloc == None
    ensures ss[i].procs[p].job.With? ==> Owns(t, p, n)
    ensures ss[i].procs[p].job.LeaseCall? ==> LiveFor(t, n, ss[i].procs[p].job.key)
  {
    var s := ss[i];
    hide Run, Inv, Step, Leads, Inwards, Through, Busy, Free;
    Reachable(ss, es, i);
    Keyed(s, p);
    Begins(s, p);
    var a, b := AimGoes(s, p, n);
    Onward(s, p, s, Aim(p, n), a);
    Onward(s, p, a, TakeAlloc(p), b);
    var d, used := CensusLetsIn(s, b, p, n, s.dirs - s.procs[p].kept - {n});
    var e := EnteredGetsIt(s, s, d, p, n, used);
    t := SettleGoes(s, e, p, n);
    Onward(s, p, e, Settle(p, true, 1), t);
  }

  lemma CensusLetsIn(s: State, c: State, p: Pid, n: Slot, todo: set<Slot>) returns (t: State, used: set<Slot>)
    requires Leads(s, p, c) && Inv(c) && Inwards(s, c, p, Census(n, todo, {}))
    requires |Busy(s, p, todo)| + |s.procs[p].kept| < s.max
    ensures Leads(s, p, t) && Inv(t) && Inwards(s, t, p, Entering(n, used))
  {
    hide Inv, Step, Leads, Inwards, Busy;
    var d := CensusEnds(s, s, c, p, n, todo, {});
    used := Busy(s, p, todo);
    assert {} + used == used;
    t := DecideGoes(s, d, p, n, used);
    Onward(s, p, d, Decide(p), t);
  }

  lemma Keyed(s: State, p: Pid)
    requires Inv(s) && In(s, p)
    ensures s.procs[p].job.LeaseCall? ==> s.procs[p].job.key != ""
  {
    Self(s, p);
    hide Inv;
  }

  /** An eviction of a free slot in a group above max removes its directory. */
  lemma EvictionSucceeds(ss: seq<State>, es: seq<Event>, i: nat, p: Pid, n: Slot) returns (t: State)
    requires Run(ss, es) && i < |ss| && Idle(ss[i], p, n) && ss[i].procs[p].job.Evict? && Free(ss[i], Evict, n)
    requires n in ss[i].dirs && |ss[i].dirs| > ss[i].max
    ensures Leads(ss[i], p, t) && t.alloc == None && t.dirs == ss[i].dirs - {n} && n !in t.leases && OthersLeases(ss[i], t, n)
  {
    var s := ss[i];
    hide Run, Inv, Step, Leads, Inwards, Through, Free;
    Reachable(ss, es, i);
    Begins(s, p);
    var a, b := AimGoes(s, p, n);
    Onward(s, p, s, Aim(p, n), a);
    Onward(s, p, a, TakeAlloc(p), b);
    var c := EnteredGetsIt(s, s, b, p, n, {});
    var d, e, f := RemoveGoes(s, c, p, n);
    Onward(s, p, c, Settle(p, true, 1), d);
    Onward(s, p, d, TakeAlloc(p), e);
    Onward(s, p, e, Remove(p), f);
    t := f;
  }

  lemma RemoveGoes(s0: State, c: State, p: Pid, n: Slot) returns (d: State, e: State, f: State)
    requires Through(s0, c, p, n) && s0.procs[p].job.Evict? && n in s0.dirs && |s0.dirs| > s0.max
    ensures Step(c, Settle(p, true, 1), d) && Step(d, TakeAlloc(p), e) && Step(e, Remove(p), f)
    ensures f.alloc == None && f.dirs == s0.dirs - {n} && n !in f.leases && OthersLeases(s0, f, n)
  {
    assert s0.dirs + {n} == s0.dirs;
    hide Step;
    d := DoSettle(c, p, true, 1);
    SettleStep(c, p);
    e := DoTakeAlloc(d, p);
    TakeStep(d, p);
    f := DoRemove(e, p);
    RemoveStep(e, p);
  }

  /** A release, from its beginning, leaves no lease of its key on the slot, and
      every other as it was. */
  lemma ReleaseSucceeds(ss: seq<State>, es: seq<Event>, i: nat, p: Pid, n: Slot, key: string) returns (t: State)
    requires Run(ss, es) && i < |ss| && Idle(ss[i], p, n) && ss[i].procs[p].job == Release(key)
    ensures Leads(ss[i], p, t) && t.alloc == None && t.procs.Keys == ss[i].procs.Keys && t.procs[p] == ss[i].procs[p].(phase := Ready)
    ensures if n in ss[i].leases && ss[i].leases[n].key == key then n !in t.leases else SameLease(ss[i], t, n)
    ensures OthersLeases(ss[i], t, n)
  {
    var s := ss[i];
    hide Run, Inv, Step, Leads;
    Reachable(ss, es, i);
    Begins(s, p);
    var a, b, c := UnleaseGoes(s, p, n, key);
    Onward(s, p, s, Aim(p, n), a);
    Onward(s, p, a, TakeAlloc(p), b);
    Onward(s, p, b, Unlease(p), c);
    t := c;
  }

  lemma UnleaseGoes(s: State, p: Pid, n: Slot, key: string) returns (a: State, b: State, c: State)
    requires Idle(s, p, n) && s.procs[p].job == Release(key)
    ensures Step(s, Aim(p, n), a) && Step(a, TakeAlloc(p), b) && Step(b, Unlease(p), c)
    ensures c.alloc == None && c.procs.Keys == s.procs.Keys && c.procs[p] == s.procs[p].(phase := Ready)
    ensures if n in s.leases && s.leases[n].key == key then n !in c.leases else SameLease(s, c, n)
    ensures OthersLeases(s, c, n)
  {
    hide Step;
    a := DoAim(s, p, n);
    AimStep(s, p, n);
    b := DoTakeAlloc(a, p);
    TakeStep(a, p);
    c := DoUnlease(b, p);
    UnleaseStep(b, p);
  }

  /** It then locks the slot to tidy up, if nobody has it, and marks it. */
  lemma ReleaseTidies(ss: seq<State>, es: seq<Event>, i: nat, p: Pid, n: Slot) returns (t: State)
    requires Run(ss, es) && i < |ss| && Idle(ss[i], p, n) && ss[i].procs[p].job.Release? && ss[i].procs[p].phase == Ready
    requires Free(ss[i], ss[i].procs[p].job, n) && n in ss[i].dirs
    ensures Leads(ss[i], p, t) && Flocked(t, n) && t.held[t.link[n]] == Holder(p, n)
    ensures n in t.marker && t.marker[n] == Marker(p, t.now) && ShutdownInProgress(t, n)
  {
    var s := ss[i];
    hide Run, Inv, Step, Leads, Inwards, Through, Free;
    Reachable(ss, es, i);
    Begins(s, p);
    var a, b := ReclaimGoes(s, p, n);
    Onward(s, p, s, Reclaim(p, n), a);
    Onward(s, p, a, TakeAlloc(p), b);
    var c := EnteredGetsIt(s, s, b, p, n, {});
    var d := LeavingGoes(s, c, p, n);
    Onward(s, p, c, Settle(p, true, 1), d);
    t := MarkGoes(d, p, n);
    Onward(s, p, d, Mark(p), t);
  }

  lemma ReclaimGoes(s: State, p: Pid, n: Slot) returns (a: State, b: State)
    requires Idle(s, p, n) && s.procs[p].job.Release? && s.procs[p].phase == Ready
    ensures Step(s, Reclaim(p, n), a) && Step(a, TakeAlloc(p), b) && Inwards(s, b, p, Entering(n, {}))
  {
    a := DoReclaim(s, p, n);
    b := DoTakeAlloc(a, p);
  }

  lemma LeavingGoes(s0: State, c: State, p: Pid, n: Slot) returns (t: State)
    requires Through(s0, c, p, n) && s0.procs[p].job.Release?
    ensures Step(c, Settle(p, true, 1), t) && In(t, p) && t.procs[p].phase == Leaving(n) && t.procs[p].job.Release?
  {
    t := DoSettle(c, p, true, 1);
  }

  /** Whoever has the flock of the slot, reap or a release, can mark it. */
  lemma MarkGoes(d: State, p: Pid, n: Slot) returns (t: State)
    requires Inv(d) && In(d, p)
    requires (d.procs[p].phase == Leaving(n) && d.procs[p].job.Release?) || (d.procs[p].phase == Peeked(n) && HasLinked(d, p, n))
    ensures Step(d, Mark(p), t) && Flocked(t, n) && t.held[t.link[n]] == Holder(p, n)
    ensures n in t.marker && t.marker[n] == Marker(p, t.now) && ShutdownInProgress(t, n)
  {
    hide Inv, ProcOk;
    Self(d, p);
    HasFlock(d, p, n);
    t := DoMark(d, p);
  }

  /** p has the lock file that is linked at slot n open. */
  ghost predicate HasLinked(s: State, p: Pid, n: Slot)
    requires In(s, p)
  {
    n in s.link && n in s.procs[p].fds && s.procs[p].fds[n] == s.link[n]
  }

  lemma HasFlock(d: State, p: Pid, n: Slot)
    requires In(d, p) && ProcOk(d, p) && (d.procs[p].phase == Leaving(n) || d.procs[p].phase == Peeked(n))
    ensures n in d.procs[p].fds && d.procs[p].fds[n] in d.held && d.held[d.procs[p].fds[n]] == Holder(p, n)
    ensures d.procs[p].job.Release? ==> n in d.link && d.link[n] == d.procs[p].fds[n]
  {
    assert FdOk(d, p, n);
  }

  /** Reap gets a slot whose lock file nobody has, and can mark it. */
  lemma ReapMarks(ss: seq<State>, es: seq<Event>, i: nat, p: Pid, n: Slot) returns (t: State)
    requires Run(ss, es) && i < |ss| && In(ss[i], p) && ss[i].procs[p].job.Reap? && ss[i].procs[p].phase == Ready
    requires n in ss[i].dirs && !Flocked(ss[i], n)
    ensures Leads(ss[i], p, t) && Flocked(t, n) && t.held[t.link[n]] == Holder(p, n)
    ensures n in t.marker && t.marker[n] == Marker(p, t.now) && ShutdownInProgress(t, n)
  {
    var b := ReapHas(ss, es, i, p, n);
    hide *;
    t := MarkGoes(b, p, n);
    Onward(ss[i], p, b, Mark(p), t);
  }

  /** And drops the slot's expired lease, if nobody has the allocation lock. */
  lemma ReapCleans(ss: seq<State>, es: seq<Event>, i: nat, p: Pid, n: Slot) returns (t: State)
    requires Run(ss, es) && i < |ss| && In(ss[i], p) && ss[i].procs[p].job.Reap? && ss[i].procs[p].phase == Ready
    requires n in ss[i].dirs && !Flocked(ss[i], n) && ss[i].alloc == None
    ensures Leads(ss[i], p, t) && t.alloc == None && In(t, p) && t.procs[p].phase == Peeked(n) && OthersLeases(ss[i], t, n)
    ensures var s := ss[i]; n in s.leases && s.leases[n].key != "" && s.now >= s.leases[n].expires ==> n !in t.leases
    ensures Live(ss[i], n) ==> SameLease(ss[i], t, n)
  {
    var s := ss[i];
    var b := ReapHas(ss, es, i, p, n);
    hide *;
    var c, d;
    c, d, t := CleanupGoes(s, b, p, n);
    Onward(s, p, b, Prune(p), c);
    Onward(s, p, c, TakeAlloc(p), d);
    Onward(s, p, d, Cleanup(p), t);
  }

  lemma CleanupGoes(s: State, b: State, p: Pid, n: Slot) returns (c: State, d: State, t: State)
    requires In(b, p) && b.procs[p].phase == Peeked(n) && b.leases == s.leases && b.now == s.now && b.alloc == None
    ensures Step(b, Prune(p), c) && Step(c, TakeAlloc(p), d) && Step(d, Cleanup(p), t)
    ensures t.alloc == None && In(t, p) && t.procs[p].phase == Peeked(n) && OthersLeases(s, t, n)
    ensures n in s.leases && s.leases[n].key != "" && s.now >= s.leases[n].expires ==> n !in t.leases
    ensures Live(s, n) ==> SameLease(s, t, n)
  {
    hide Step;
    c := DoPrune(b, p);
    PruneStep(b, p);
    d := DoTakeAlloc(c, p);
    TakeStep(c, p);
    t := DoCleanup(d, p);
    CleanupStep(d, p);
  }

  lemma ReapHas(ss: seq<State>, es: seq<Event>, i: nat, p: Pid, n: Slot) returns (b: State)
    requires Run(ss, es) && i < |ss| && In(ss[i], p) && ss[i].procs[p].job.Reap? && ss[i].procs[p].phase == Ready
    requires n in ss[i].dirs && !Flocked(ss[i], n)
    ensures Leads(ss[i], p, b) && Inv(b) && In(b, p) && b.procs[p].phase == Peeked(n) && HasLinked(b, p, n)
    ensures b.leases == ss[i].leases && b.now == ss[i].now && b.alloc == ss[i].alloc
  {
    var s := ss[i];
    hide Run, Inv, Step, Leads, Flocked;
    Reachable(ss, es, i);
    Begins(s, p);
    Unheld(s);
    var a;
    a, b := PeekGoes(s, p, n);
    Onward(s, p, s, Peek(p, n), a);
    Onward(s, p, a, PeekFlock(p), b);
  }

  lemma PeekGoes(s: State, p: Pid, n: Slot) returns (a: State, b: State)
    requires In(s, p) && s.procs[p].job.Reap? && s.procs[p].phase == Ready && n in s.dirs && !Flocked(s, n) && s.nextIno !in s.held
    ensures Step(s, Peek(p, n), a) && Step(a, PeekFlock(p), b)
    ensures In(b, p) && b.procs[p].phase == Peeked(n) && HasLinked(b, p, n)
    ensures b.leases == s.leases && b.now == s.now && b.alloc == s.alloc
  {
    hide Step;
    a := DoPeek(s, p, n);
    PeekStep(s, p, n);
    b := PeekFlockGoes(a, p, n);
  }

  lemma PeekFlockGoes(a: State, p: Pid, n: Slot) returns (b: State)
    requires In(a, p) && n in a.link && a.procs[p].phase == Peeking(n, a.link[n]) && a.link[n] !in a.held
    ensures Step(a, PeekFlock(p), b)
    ensures In(b, p) && b.procs[p].phase == Peeked(n) && HasLinked(b, p, n)
    ensures b.leases == a.leases && b.now == a.now && b.alloc == a.alloc
  {
    hide Step;
    b := DoPeekFlock(a, p);
    PeekFlockStep(a, p);
  }

  /** Preboot keeps a slot whose lock file nobody has, whatever is in use. */
  lemma PrebootSucceeds(ss: seq<State>, es: seq<Event>, i: nat, p: Pid, n: Slot) returns (t: State)
    requires Run(ss, es) && i < |ss| && Idle(ss[i], p, n) && ss[i].procs[p].job.Preboot? && !Flocked(ss[i], n)
    ensures Leads(ss[i], p, t) && t.alloc == None && In(t, p) && n in t.procs[p].kept && t.leases == ss[i].leases
  {
    var s := ss[i];
    hide Run, Inv, Step, Leads, Inwards, Flocked;
    Reachable(ss, es, i);
    Begins(s, p);
    var a, b := PrebootAims(s, p, n);
    Onward(s, p, s, Aim(p, n), a);
    Onward(s, p, a, TakeAlloc(p), b);
    var c := EnterGoes(s, b, p, n, {});
    Onward(s, p, b, Enter(p), c);
    Unheld(c);
    var d, ino := OpenGoes(s, c, p, n, {});
    Onward(s, p, c, Open(p), d);
    t := PrebootFlocks(s, d, p, n, ino);
    Onward(s, p, d, Flock(p), t);
  }

  lemma PrebootAims(s: State, p: Pid, n: Slot) returns (a: State, b: State)
    requires Idle(s, p, n) && s.procs[p].job.Preboot?
    ensures Step(s, Aim(p, n), a) && Step(a, TakeAlloc(p), b) && Inwards(s, b, p, Entering(n, {}))
  {
    a := DoAim(s, p, n);
    b := DoTakeAlloc(a, p);
  }

  lemma PrebootFlocks(s0: State, c: State, p: Pid, n: Slot, ino: Inode) returns (t: State)
    requires c.dirs == s0.dirs + {n} && Inwards(s0, c.(dirs := s0.dirs), p, Flocking(n, {}, ino)) && ino !in c.held && s0.procs[p].job.Preboot?
    ensures Step(c, Flock(p), t) && In(t, p) && n in t.procs[p].kept && t.alloc == None && t.leases == s0.leases
  {
    t := DoFlock(c, p);
  }

  /** Whoever is to boot gets a free gate and gives it back. */
  lemma BootGoes(s: State, p: Pid, g: nat) returns (t: State, u: State)
    requires In(s, p) && s.procs[p].phase == Polling && g < s.gates && g !in s.gate
    ensures Step(s, TakeGate(p, g), t) && g in t.gate && t.gate[g] == p && In(t, p) && t.procs[p].phase == Booting(g)
    ensures Step(t, LeaveGate(p), u) && u.gate == s.gate && In(u, p)
    ensures u.procs[p].phase == if s.procs[p].job.LeaseCall? then Running else Ready
  {
    t := DoTakeGate(s, p, g);
    u := DoLeaveGate(t, p);
  }

  /** A lease call whose key has a live lease in the group renews it, without
      any lock, and is served. */
  lemma RenewalSucceeds(ss: seq<State>, es: seq<Event>, i: nat, p: Pid, n: Slot, key: string, ttl: nat) returns (t: State)
    requires Run(ss, es) && i < |ss| && In(ss[i], p) && ss[i].procs[p].job == LeaseCall(key) && ss[i].procs[p].phase == Listing
    requires LiveFor(ss[i], n, key) && ttl > 0
    ensures Leads(ss[i], p, t) && t.leases == ss[i].leases[n := Lease(key, ss[i].now + ttl)] && In(t, p) && t.procs[p].phase == Polling
    ensures t.held == ss[i].held && t.alloc == ss[i].alloc
  {
    hide *;
    var s := ss[i];
    Reachable(ss, es, i);
    OnDisk(s, n, key);
    Begins(s, p);
    var a;
    a, t := RenewGoes(s, p, n, key, ttl);
    Onward(s, p, s, ListSlots(p), a);
    Onward(s, p, a, ScanSlot(p, n, ttl), t);
  }

  lemma OnDisk(s: State, n: Slot, key: string)
    requires Inv(s) && LiveFor(s, n, key)
    ensures n in s.dirs
  {
    assert Disk(s);
  }

  lemma RenewGoes(s: State, p: Pid, n: Slot, key: string, ttl: nat) returns (a: State, t: State)
    requires In(s, p) && s.procs[p].job == LeaseCall(key) && s.procs[p].phase == Listing && n in s.dirs && LiveFor(s, n, key) && ttl > 0
    ensures Step(s, ListSlots(p), a) && Step(a, ScanSlot(p, n, ttl), t)
    ensures Actor(ListSlots(p)) == Actor(ScanSlot(p, n, ttl)) == Some(p)
    ensures t.leases == s.leases[n := Lease(key, s.now + ttl)] && In(t, p) && t.procs[p].phase == Polling
    ensures t.held == s.held && t.alloc == s.alloc
  {
    a := DoListSlots(s, p);
    t := DoScanSlot(a, p, n, ttl);
  }

  /** One whose key has none comes to the end of its scan, ready to claim, and
      has changed nothing. */
  lemma {:induction false} ScanEnds(s: State, c: State, p: Pid, key: string, todo: set<Slot>) returns (t: State)
    requires Leads(s, p, c) && Inv(c) && In(c, p) && c.procs[p].job == LeaseCall(key) && c.procs[p].phase == Scanning(todo)
    requires forall n :: !LiveFor(c, n, key)
    ensures Leads(s, p, t) && Inv(t) && t == Goto(c, p, Scanning({}))
    decreases todo
  {
    hide Inv, Step, Leads, LiveFor;
    if todo == {} {
      assert c.procs == c.procs[p := c.procs[p].(phase := Scanning({}))];
      t := c;
    } else {
      var n :| n in todo;
      var d := ScanGoes(c, p, n, key, todo);
      Onward(s, p, c, ScanSlot(p, n, 1), d);
      SameLeases(c, d, key);
      t := ScanEnds(s, d, p, key, todo - {n});
    }
  }

  lemma ScanGoes(c: State, p: Pid, n: Slot, key: string, todo: set<Slot>) returns (d: State)
    requires In(c, p) && c.procs[p].job == LeaseCall(key) && c.procs[p].phase == Scanning(todo) && n in todo && !LiveFor(c, n, key)
    ensures Step(c, ScanSlot(p, n, 1), d) && d == Goto(c, p, Scanning(todo - {n}))
  {
    d := DoScanSlot(c, p, n, 1);
  }

  lemma SameLeases(c: State, d: State, key: string)
    requires d.leases == c.leases && d.now == c.now
    ensures forall n :: LiveFor(d, n, key) <==> LiveFor(c, n, key)
  {
  }
}
