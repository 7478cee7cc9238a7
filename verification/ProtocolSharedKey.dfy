/** Why the use cap needs one lease call in flight per key: the census exempts
    a lease of the caller's own key, so two calls that both began before either
    held a lease can together exceed the cap. */
module ProtocolSharedKey {
  import opened Wrappers
  import opened Protocol

  const KEY := "k"

  function Caller(ph: Phase, fds: map<Slot, Inode>): Proc {
    Proc(LeaseCall(KEY), ph, {}, fds)
  }

  /** A group of max 1; processes 1 and 2 are lease calls of KEY. */
  function Group(dirs: set<Slot>, link: map<Slot, Inode>, leases: map<Slot, Lease>, alloc: Option<Pid>,
                 held: map<Inode, Holder>, one: Proc, two: Proc, nextIno: nat): State {
    State(1, 1, dirs, link, leases, map[], alloc, held, map[], map[1 := one, 2 := two], {}, 0, nextIno)
  }

  /** Both have listed the empty group and found no lease of their own to renew. */
  const BEGUN := Caller(Scanning({}), map[])

  const SERVED := Caller(Polling, map[])

  /** A run, whatever it starts from. */
  ghost predicate Leads(ss: seq<State>, es: seq<Event>) {
    |ss| == |es| + 1 && forall i :: 0 <= i < |es| ==> Step(ss[i], es[i], ss[i + 1])
  }

  lemma Join(ss1: seq<State>, es1: seq<Event>, ss2: seq<State>, es2: seq<Event>) returns (ss: seq<State>, es: seq<Event>)
    requires Leads(ss1, es1) && Leads(ss2, es2) && ss1[|es1|] == ss2[0]
    ensures Leads(ss, es) && ss[0] == ss1[0] && ss[|es|] == ss2[|es2|]
  {
    hide Step;
    ss, es := ss1 + ss2[1..], es1 + es2;
    forall i | 0 <= i < |es| ensures Step(ss[i], es[i], ss[i + 1]) {
      if i < |es1| {
        assert Step(ss1[i], es1[i], ss1[i + 1]);
      } else {
        assert Step(ss2[i - |es1|], es2[i - |es1|], ss2[i - |es1| + 1]);
        assert ss[i] == ss2[i - |es1|];
      }
    }
  }

  /** Nobody has a slot yet. */
  function Start(): State {
    Group({}, map[], map[], None, map[], BEGUN, BEGUN, 0)
  }

  /** The first call is past its census: nothing is in use. */
  function Counted(): State {
    Group({}, map[], map[], Some(1), map[], Caller(Entering(0, {}), map[]), BEGUN, 0)
  }

  /** It holds the flock of slot 0. */
  function Flocked1(): State {
    Group({0}, map[0 := 0], map[], None, map[0 := Holder(1, 0)], Caller(Checking(0), map[0 := 0]), BEGUN, 1)
  }

  /** It has written its lease, the flock still held. */
  function Leased1(): State {
    Group({0}, map[0 := 0], map[0 := Lease(KEY, 60)], None, map[0 := Holder(1, 0)], Caller(Leased(0), map[0 := 0]), BEGUN, 1)
  }

  /** It has leased slot 0. */
  function Middle(): State {
    Group({0}, map[0 := 0], map[0 := Lease(KEY, 60)], None, map[], SERVED, BEGUN, 1)
  }

  /** The second call is inside the allocation lock, slot 0 still to count. */
  function Asking(): State {
    Group({0}, map[0 := 0], map[0 := Lease(KEY, 60)], Some(2), map[], SERVED, Caller(Census(1, {0}, {}), map[]), 1)
  }

  /** The second call is past its census: the lease on slot 0 is its own key's. */
  function Exempted(): State {
    Group({0}, map[0 := 0], map[0 := Lease(KEY, 60)], Some(2), map[], SERVED, Caller(Entering(1, {}), map[]), 1)
  }

  /** It holds the flock of slot 1. */
  function Flocked2(): State {
    Group({0, 1}, map[0 := 0, 1 := 1], map[0 := Lease(KEY, 60)], None, map[1 := Holder(2, 1)], SERVED, Caller(Checking(1), map[1 := 1]), 2)
  }

  function Leased2(): State {
    Group({0, 1}, map[0 := 0, 1 := 1], map[0 := Lease(KEY, 60), 1 := Lease(KEY, 60)], None, map[1 := Holder(2, 1)], SERVED, Caller(Leased(1), map[1 := 1]), 2)
  }

  /** And it has leased slot 1. */
  function End(): State {
    Group({0, 1}, map[0 := 0, 1 := 1], map[0 := Lease(KEY, 60), 1 := Lease(KEY, 60)], None, map[], SERVED, SERVED, 2)
  }

  lemma FirstCounts() returns (ss: seq<State>, es: seq<Event>)
    ensures Leads(ss, es) && ss[0] == Start() && ss[|es|] == Counted()
  {
    var s0 := Start();
    var s1 := DoAim(s0, 1, 0);
    var s2 := DoTakeAlloc(s1, 1);
    var s3 := DoDecide(s2, 1);
    es := [Aim(1, 0), TakeAlloc(1), Decide(1)];
    ss := [s0, s1, s2, s3];
    assert s3 == Counted();
  }

  /** It has slot 0's lock file open. */
  function Opened1(): State {
    Group({0}, map[0 := 0], map[], Some(1), map[], Caller(Flocking(0, {}, 0), map[]), BEGUN, 1)
  }

  lemma FirstOpens() returns (ss: seq<State>, es: seq<Event>)
    ensures Leads(ss, es) && ss[0] == Counted() && ss[|es|] == Opened1()
  {
    var s0 := Counted();
    var s1 := DoEnter(s0, 1);
    var s2 := DoOpen(s1, 1);
    es := [Enter(1), Open(1)];
    ss := [s0, s1, s2];
    assert s2 == Opened1();
  }

  lemma FirstFlocks() returns (ss: seq<State>, es: seq<Event>)
    ensures Leads(ss, es) && ss[0] == Opened1() && ss[|es|] == Flocked1()
  {
    var s0 := Opened1();
    var s1 := DoFlock(s0, 1);
    es, ss := [Flock(1)], [s0, s1];
    assert s1 == Flocked1();
  }

  lemma FirstLeases() returns (ss: seq<State>, es: seq<Event>)
    ensures Leads(ss, es) && ss[0] == Flocked1() && ss[|es|] == Leased1()
  {
    var s0 := Flocked1();
    var s1 := DoReadLease(s0, 1);
    var s2 := DoSettle(s1, 1, true, 60);
    es := [ReadLease(1), Settle(1, true, 60)];
    ss := [s0, s1, s2];
    assert s2 == Leased1();
  }

  lemma FirstDrops() returns (ss: seq<State>, es: seq<Event>)
    ensures Leads(ss, es) && ss[0] == Leased1() && ss[|es|] == Middle()
  {
    var s0 := Leased1();
    var s1 := DoDrop(s0, 1);
    es, ss := [Drop(1)], [s0, s1];
    assert s1.held == map[] && s1.procs[1].kept == {} && s1.procs[1].fds == map[];
    assert s1.procs == Middle().procs;
    assert s1 == Middle();
  }

  lemma SecondAsks() returns (ss: seq<State>, es: seq<Event>)
    ensures Leads(ss, es) && ss[0] == Middle() && ss[|es|] == Asking()
  {
    var s0 := Middle();
    var s1 := DoAim(s0, 2, 1);
    var s2 := DoTakeAlloc(s1, 2);
    es := [Aim(2, 1), TakeAlloc(2)];
    ss := [s0, s1, s2];
    assert s1.dirs - {} - {1} == {0};
    assert s2 == Asking();
  }

  lemma SecondCounts() returns (ss: seq<State>, es: seq<Event>)
    ensures Leads(ss, es) && ss[0] == Asking() && ss[|es|] == Exempted()
  {
    var s0 := Asking();
    var s1 := DoProbe(s0, 2, 0);
    var s2 := DoDecide(s1, 2);
    es := [Probe(2, 0), Decide(2)];
    ss := [s0, s1, s2];
    assert s2 == Exempted();
  }

  /** It has slot 1's lock file open. */
  function Opened2(): State {
    Group({0, 1}, map[0 := 0, 1 := 1], map[0 := Lease(KEY, 60)], Some(2), map[], SERVED, Caller(Flocking(1, {}, 1), map[]), 2)
  }

  lemma SecondOpens() returns (ss: seq<State>, es: seq<Event>)
    ensures Leads(ss, es) && ss[0] == Exempted() && ss[|es|] == Opened2()
  {
    var s0 := Exempted();
    var s1 := DoEnter(s0, 2);
    var s2 := DoOpen(s1, 2);
    es := [Enter(2), Open(2)];
    ss := [s0, s1, s2];
    assert s2 == Opened2();
  }

  lemma SecondFlocks() returns (ss: seq<State>, es: seq<Event>)
    ensures Leads(ss, es) && ss[0] == Opened2() && ss[|es|] == Flocked2()
  {
    var s0 := Opened2();
    var s1 := DoFlock(s0, 2);
    es, ss := [Flock(2)], [s0, s1];
    assert s1 == Flocked2();
  }

  lemma SecondLeases() returns (ss: seq<State>, es: seq<Event>)
    ensures Leads(ss, es) && ss[0] == Flocked2() && ss[|es|] == Leased2()
  {
    var s0 := Flocked2();
    var s1 := DoReadLease(s0, 2);
    var s2 := DoSettle(s1, 2, true, 60);
    es := [ReadLease(2), Settle(2, true, 60)];
    ss := [s0, s1, s2];
    assert s2 == Leased2();
  }

  lemma SecondDrops() returns (ss: seq<State>, es: seq<Event>)
    ensures Leads(ss, es) && ss[0] == Leased2() && ss[|es|] == End()
  {
    var s0 := Leased2();
    var s1 := DoDrop(s0, 2);
    es, ss := [Drop(2)], [s0, s1];
    assert s1.held == map[] && s1.procs[2].kept == {} && s1.procs[2].fds == map[];
    assert s1.procs == End().procs;
    assert s1 == End();
  }

  /** Every step is one the protocol allows, and two slots end up under live
      leases of one key in a group whose max is one. */
  lemma SharedKeyExceedsCap() returns (ss: seq<State>, es: seq<Event>)
    ensures Leads(ss, es) && ss[0] == Start() && ss[0].max == 1
    ensures Live(ss[|es|], 0) && Live(ss[|es|], 1)
  {
    hide Leads;
    ss, es := FirstCounts();
    var ss1, es1 := FirstOpens();
    ss, es := Join(ss, es, ss1, es1);
    ss1, es1 := FirstFlocks();
    ss, es := Join(ss, es, ss1, es1);
    ss1, es1 := FirstLeases();
    ss, es := Join(ss, es, ss1, es1);
    ss1, es1 := FirstDrops();
    ss, es := Join(ss, es, ss1, es1);
    ss1, es1 := SecondAsks();
    ss, es := Join(ss, es, ss1, es1);
    ss1, es1 := SecondCounts();
    ss, es := Join(ss, es, ss1, es1);
    ss1, es1 := SecondOpens();
    ss, es := Join(ss, es, ss1, es1);
    ss1, es1 := SecondFlocks();
    ss, es := Join(ss, es, ss1, es1);
    ss1, es1 := SecondLeases();
    ss, es := Join(ss, es, ss1, es1);
    ss1, es1 := SecondDrops();
    ss, es := Join(ss, es, ss1, es1);
  }
}
