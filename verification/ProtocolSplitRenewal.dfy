/** Why a renewal's read and its write must be one step: between them the lease
    can expire and the slot find an owner, whom the write then joins with a
    live lease. */
module ProtocolSplitRenewal {
  import opened Wrappers
  import opened Protocol
  import opened ProtocolTheorems

  const KEY := "k"

  /** The split protocol: found is a lease call that has read its own live lease
      on a slot and not yet written the renewal. */
  datatype Split = Split(s: State, found: Option<(Pid, Slot)>)

  datatype SplitEvent = Whole(e: Event) | Read(p: Pid, m: Slot) | Rewrite(ttl: nat)

  ghost predicate SplitStep(a: Split, e: SplitEvent, b: Split) {
    match e
    case Whole(e) => Step(a.s, e, b.s) && b.found == a.found && !e.ScanSlot?
    case Read(p, m) =>
      && CanScanSlot(a.s, p, m, 1) && LiveFor(a.s, m, a.s.procs[p].job.key) && a.found.None?
      && b == Split(a.s, Some((p, m)))
    case Rewrite(ttl) =>
      && a.found.Some? && 0 < ttl && In(a.s, a.found.value.0) && a.s.procs[a.found.value.0].job.LeaseCall?
      && var p := a.found.value.0;
         b == Split(Goto(Write(a.s, a.found.value.1, a.s.procs[p].job.key, ttl), p, Polling), None)
  }

  /** Read and Rewrite together are the step the protocol has. */
  lemma WholeWhenAdjacent(a: Split, b: Split, c: Split, p: Pid, m: Slot, ttl: nat)
    requires SplitStep(a, Read(p, m), b) && SplitStep(b, Rewrite(ttl), c)
    ensures Step(a.s, ScanSlot(p, m, ttl), c.s)
  {
  }

  ghost predicate Leads(ss: seq<Split>, es: seq<SplitEvent>) {
    |ss| == |es| + 1 && forall i :: 0 <= i < |es| ==> SplitStep(ss[i], es[i], ss[i + 1])
  }

  /** A group of max 1 with slot 0, leased to KEY until 60; process 1 is a lease
      call of KEY that has yet to read it, process 2 a `with`. */
  function Group(now: int, alloc: Option<Pid>, held: map<Inode, Holder>, with: Proc): State {
    State(1, 1, {0}, map[0 := 0], map[0 := Lease(KEY, 60)], map[], alloc, held, map[],
          map[1 := Proc(LeaseCall(KEY), Scanning({0}), {}, map[]), 2 := with], {}, now, 1)
  }

  function Taker(ph: Phase): Proc { Proc(With, ph, {}, map[]) }

  const FOUND: Option<(Pid, Slot)> := Some((1, 0))

  function Start(): Split { Split(Group(59, None, map[], Taker(Ready)), None) }

  /** The renewal has read its lease, which has then run out. */
  function RanOut(): Split { Split(Group(60, None, map[], Taker(Ready)), FOUND) }

  /** The `with` has counted the group: nothing is in use. */
  function Counted(): Split { Split(Group(60, Some(2), map[], Taker(Entering(0, {}))), FOUND) }

  /** It has slot 0's flock. */
  function Flocked0(): Split {
    Split(Group(60, None, map[0 := Holder(2, 0)], Proc(With, Checking(0), {}, map[0 := 0])), FOUND)
  }

  /** It is past its check: it owns slot 0. */
  function Owned(): Split {
    Split(Group(60, None, map[0 := Holder(2, 0)], Proc(With, Ready, {0}, map[0 := 0])), FOUND)
  }

  lemma Join(ss1: seq<Split>, es1: seq<SplitEvent>, ss2: seq<Split>, es2: seq<SplitEvent>) returns (ss: seq<Split>, es: seq<SplitEvent>)
    requires Leads(ss1, es1) && Leads(ss2, es2) && ss1[|es1|] == ss2[0]
    ensures Leads(ss, es) && ss[0] == ss1[0] && ss[|es|] == ss2[|es2|]
  {
    hide SplitStep;
    ss, es := ss1 + ss2[1..], es1 + es2;
    forall i | 0 <= i < |es| ensures SplitStep(ss[i], es[i], ss[i + 1]) {
      if i < |es1| {
        assert SplitStep(ss1[i], es1[i], ss1[i + 1]);
      } else {
        assert SplitStep(ss2[i - |es1|], es2[i - |es1|], ss2[i - |es1| + 1]);
        assert ss[i] == ss2[i - |es1|];
      }
    }
  }

  lemma RunsOut() returns (ss: seq<Split>, es: seq<SplitEvent>)
    ensures Leads(ss, es) && ss[0] == Start() && ss[|es|] == RanOut()
  {
    var s0 := Start();
    var s1 := Split(s0.s, FOUND);
    var s2 := Split(DoTick(s1.s, 1), FOUND);
    es := [Read(1, 0), Whole(Tick(1))];
    ss := [s0, s1, s2];
    assert s2 == RanOut();
  }

  lemma Counts() returns (ss: seq<Split>, es: seq<SplitEvent>)
    ensures Leads(ss, es) && ss[0] == RanOut() && ss[|es|] == Counted()
  {
    var s0 := RanOut().s;
    var s1 := DoAim(s0, 2, 0);
    var s2 := DoTakeAlloc(s1, 2);
    assert s2.procs[2].phase == Census(0, {}, {});
    var s3 := DoDecide(s2, 2);
    es := [Whole(Aim(2, 0)), Whole(TakeAlloc(2)), Whole(Decide(2))];
    ss := [Split(s0, FOUND), Split(s1, FOUND), Split(s2, FOUND), Split(s3, FOUND)];
    assert s3 == Counted().s;
  }

  /** It has slot 0's lock file open. */
  function Opened0(): Split { Split(Group(60, Some(2), map[], Taker(Flocking(0, {}, 0))), FOUND) }

  lemma Opens() returns (ss: seq<Split>, es: seq<SplitEvent>)
    ensures Leads(ss, es) && ss[0] == Counted() && ss[|es|] == Opened0()
  {
    var s0 := Counted().s;
    var s1 := DoEnter(s0, 2);
    var s2 := DoOpen(s1, 2);
    es := [Whole(Enter(2)), Whole(Open(2))];
    ss := [Split(s0, FOUND), Split(s1, FOUND), Split(s2, FOUND)];
    assert s2 == Opened0().s;
  }

  lemma Flocks() returns (ss: seq<Split>, es: seq<SplitEvent>)
    ensures Leads(ss, es) && ss[0] == Opened0() && ss[|es|] == Flocked0()
  {
    var s0 := Opened0().s;
    var s1 := DoFlock(s0, 2);
    es := [Whole(Flock(2))];
    ss := [Split(s0, FOUND), Split(s1, FOUND)];
    assert s1 == Flocked0().s;
  }

  lemma Settles() returns (ss: seq<Split>, es: seq<SplitEvent>)
    ensures Leads(ss, es) && ss[0] == Flocked0() && ss[|es|] == Owned()
  {
    var s0 := Flocked0().s;
    var s1 := DoReadLease(s0, 2);
    var s2 := DoSettle(s1, 2, true, 1);
    es := [Whole(ReadLease(2)), Whole(Settle(2, true, 1))];
    ss := [Split(s0, FOUND), Split(s1, FOUND), Split(s2, FOUND)];
    assert s2.procs[2] == Proc(With, Ready, {0}, map[0 := 0]);
    assert s2.procs == Owned().s.procs;
    assert s2 == Owned().s;
  }

  lemma Rewrites() returns (ss: seq<Split>, es: seq<SplitEvent>)
    ensures Leads(ss, es) && ss[0] == Owned() && Live(ss[|es|].s, 0) && Owns(ss[|es|].s, 2, 0)
  {
    var s0 := Owned();
    var s1 := Split(Goto(Write(s0.s, 0, KEY, 60), 1, Polling), None);
    es, ss := [Rewrite(60)], [s0, s1];
  }

  /** A run of the split protocol that ends with an owner and a live lease on
      one slot, in a group whose max is one. */
  lemma SplitRenewalSharesSlot() returns (ss: seq<Split>, es: seq<SplitEvent>)
    ensures Leads(ss, es) && ss[0] == Start() && ss[0].s.max == 1
    ensures Live(ss[|es|].s, 0) && Owns(ss[|es|].s, 2, 0)
  {
    hide Leads;
    ss, es := RunsOut();
    var ss1, es1 := Counts();
    ss, es := Join(ss, es, ss1, es1);
    ss1, es1 := Opens();
    ss, es := Join(ss, es, ss1, es1);
    ss1, es1 := Flocks();
    ss, es := Join(ss, es, ss1, es1);
    ss1, es1 := Settles();
    ss, es := Join(ss, es, ss1, es1);
    ss1, es1 := Rewrites();
    ss, es := Join(ss, es, ss1, es1);
  }
}
