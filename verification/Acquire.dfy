/** All-or-nothing acquisition of `count` slots in three passes, against an
    oracle that may answer each claim in any way. */
module Acquire {
  import opened Sorting
  import opened Dispatch

  datatype SlotState = Free | Busy | Leased | Quarantined | Unverifiable

  /** What one claim came to: an I/O error, the use cap, a held flock, or the
      flock taken, with the slot's state and whether recovery reclaimed it. */
  datatype Claim = Failed | OverCap(uses: seq<int>) | Contended | Locked(state: SlotState, recovered: bool)

  datatype Attempt = Attempt(n: int, claim: Claim)

  datatype Refusal = Refusal(number: int, state: SlotState) | TakenThenReleased(number: int)

  predicate Won(a: Attempt) {
    a.claim.Locked? && (a.claim.state.Free? || (a.claim.state.Quarantined? && a.claim.recovered))
  }

  predicate Refused(a: Attempt) {
    a.claim.Contended? || (a.claim.Locked? && !Won(a))
  }

  function StateOf(a: Attempt): SlotState
    requires Refused(a)
  {
    if a.claim.Contended? then Busy else a.claim.state
  }

  // ---------------------------------------------------------------- what a log of attempts amounts to

  ghost function Wins(log: seq<Attempt>): seq<int> {
    if log == [] then []
    else
      var a := log[|log| - 1];
      Wins(log[..|log| - 1]) + if Won(a) then [a.n] else []
  }

  /** Where n is listed, or -1. */
  function Find(rs: seq<Refusal>, n: int): (i: int)
    ensures -1 <= i < |rs|
    ensures i >= 0 ==> rs[i].number == n
    ensures i < 0 ==> forall k :: 0 <= k < |rs| ==> rs[k].number != n
  {
    if rs == [] then -1
    else if rs[|rs| - 1].number == n then |rs| - 1
    else Find(rs[..|rs| - 1], n)
  }

  function Record(rs: seq<Refusal>, r: Refusal): seq<Refusal> {
    var i := Find(rs, r.number);
    if i >= 0 then rs[i := r] else rs + [r]
  }

  /** One entry per refused number, the later verdict replacing the earlier. */
  ghost function Refusals(log: seq<Attempt>): seq<Refusal> {
    if log == [] then []
    else
      var a := log[|log| - 1];
      var rs := Refusals(log[..|log| - 1]);
      if Refused(a) then Record(rs, Refusal(a.n, StateOf(a))) else rs
  }

  ghost predicate Capped(log: seq<Attempt>) {
    exists i :: 0 <= i < |log| && log[i].claim.OverCap?
  }

  ghost predicate Errored(log: seq<Attempt>) {
    exists i :: 0 <= i < |log| && log[i].claim.Failed?
  }

  ghost predicate RefusedIn(log: seq<Attempt>, n: int) {
    exists i :: 0 <= i < |log| && log[i].n == n && Refused(log[i])
  }

  predicate NumbersDistinct(rs: seq<Refusal>) {
    forall i, j :: 0 <= i < j < |rs| ==> rs[i].number != rs[j].number
  }

  lemma RecordKeeps(rs: seq<Refusal>, r: Refusal)
    requires NumbersDistinct(rs)
    ensures NumbersDistinct(Record(rs, r))
    ensures forall n :: Find(Record(rs, r), n) >= 0 <==> n == r.number || Find(rs, n) >= 0
  {
    var t := Record(rs, r);
    var k := Find(rs, r.number);
    forall n ensures Find(t, n) >= 0 <==> n == r.number || Find(rs, n) >= 0 {
      var i, j := Find(rs, n), Find(t, n);
      if i >= 0 { assert t[i].number == n; }
      if n == r.number { assert t[if k >= 0 then k else |rs|].number == n; }
      if j >= 0 && n != r.number { assert rs[j].number == n; }
    }
  }

  /** One entry per number that was ever refused. */
  lemma {:induction false} RefusalsAre(log: seq<Attempt>)
    ensures NumbersDistinct(Refusals(log))
    ensures forall n :: Find(Refusals(log), n) >= 0 <==> RefusedIn(log, n)
  {
    if log != [] {
      var init, a := log[..|log| - 1], log[|log| - 1];
      RefusalsAre(init);
      forall n ensures RefusedIn(log, n) <==> RefusedIn(init, n) || (a.n == n && Refused(a)) {
        if RefusedIn(init, n) {
          var i :| 0 <= i < |init| && init[i].n == n && Refused(init[i]);
          assert log[i] == init[i];
        }
      }
      if Refused(a) { RecordKeeps(Refusals(init), Refusal(a.n, StateOf(a))); }
    }
  }

  /** Each entry is the latest verdict on its slot. */
  lemma {:induction false} LatestVerdict(log: seq<Attempt>, k: nat)
    requires k < |log| && Refused(log[k])
    requires forall j :: k < j < |log| && Refused(log[j]) ==> log[j].n != log[k].n
    ensures Find(Refusals(log), log[k].n) >= 0
    ensures Refusals(log)[Find(Refusals(log), log[k].n)] == Refusal(log[k].n, StateOf(log[k]))
  {
    var init, a := log[..|log| - 1], log[|log| - 1];
    RefusalsAre(init);
    RefusalsAre(log);
    var rs := Refusals(init);
    if k == |log| - 1 {
      var i := Find(rs, a.n);
      assert Refusals(log)[if i >= 0 then i else |rs|] == Refusal(a.n, StateOf(a));
    } else {
      LatestVerdict(init, k);
      assert init[k] == log[k];
      var i := Find(rs, log[k].n);
      assert Refusals(log)[i] == rs[i];
    }
  }

  ghost function Released(ns: seq<int>): seq<Refusal> {
    seq(|ns|, i requires 0 <= i < |ns| => TakenThenReleased(ns[i]))
  }

  /** What a failure lists: the refusals, then the slots given back. */
  ghost function Listing(log: seq<Attempt>): seq<Refusal> {
    Refusals(log) + Released(Wins(log))
  }

  lemma {:induction false} WinsAre(log: seq<Attempt>, n: int)
    ensures n in Wins(log) <==> exists i :: 0 <= i < |log| && log[i].n == n && Won(log[i])
  {
    if log != [] {
      var init := log[..|log| - 1];
      WinsAre(init, n);
      if n in Wins(init) {
        var i :| 0 <= i < |init| && init[i].n == n && Won(init[i]);
        assert log[i] == init[i];
      }
      if i :| 0 <= i < |log| && log[i].n == n && Won(log[i]) {
        if i < |init| { assert init[i] == log[i]; }
      }
    }
  }

  /** Every number is listed once, unless one was refused and then taken. */
  lemma ListedOnceUnlessTakenLater(log: seq<Attempt>)
    requires Distinct(Wins(log))
    ensures NumbersDistinct(Listing(log)) <==> forall n :: RefusedIn(log, n) ==> n !in Wins(log)
  {
    RefusalsAre(log);
    var rs, ws, all := Refusals(log), Wins(log), Listing(log);
    assert forall i :: |rs| <= i < |all| ==> all[i].number == ws[i - |rs|];
    assert forall i :: 0 <= i < |rs| ==> all[i] == rs[i];
    if forall n :: RefusedIn(log, n) ==> n !in ws {
      forall i, j | 0 <= i < j < |all| ensures all[i].number != all[j].number {
        if i < |rs| <= j {
          assert Find(rs, rs[i].number) >= 0;
          assert RefusedIn(log, rs[i].number);
        }
      }
    } else {
      var n :| RefusedIn(log, n) && n in ws;
      var i, k := Find(rs, n), IndexOf(ws, n);
      assert all[i].number == all[|rs| + k].number;
    }
  }

  ghost function IndexOf(s: seq<int>, x: int): (k: nat)
    requires x in s
    ensures k < |s| && s[k] == x
  {
    var k :| 0 <= k < |s| && s[k] == x; k
  }

  lemma {:induction false} WinsBefore(log: seq<Attempt>, k: nat)
    requires k <= |log|
    ensures Wins(log[..k]) <= Wins(log)
  {
    if k < |log| {
      WinsBefore(log[..|log| - 1], k);
      assert log[..|log| - 1][..k] == log[..k];
    } else {
      assert log[..k] == log;
    }
  }

  // ---------------------------------------------------------------- the call

  /** Nothing is attempted once enough slots are held or the group is at its
      use cap. */
  ghost predicate Needed(log: seq<Attempt>, count: nat) {
    forall i :: 0 <= i < |log| ==> |Wins(log[..i])| < count && !Capped(log[..i])
  }

  ghost predicate Done(log: seq<Attempt>, count: nat) {
    |Wins(log)| >= count || Capped(log)
  }

  /** n has been attempted, and either taken or listed. */
  ghost predicate Answered(log: seq<Attempt>, n: int) {
    n in Wins(log) || RefusedIn(log, n)
  }

  lemma LogGrows(log: seq<Attempt>, a: Attempt)
    ensures var t := log + [a];
            && Wins(t) == Wins(log) + (if Won(a) then [a.n] else [])
            && Refusals(t) == (if Refused(a) then Record(Refusals(log), Refusal(a.n, StateOf(a))) else Refusals(log))
            && (Capped(t) <==> Capped(log) || a.claim.OverCap?)
            && (Errored(t) <==> Errored(log) || a.claim.Failed?)
            && (forall n :: RefusedIn(t, n) <==> RefusedIn(log, n) || (n == a.n && Refused(a)))
  {
    var t := log + [a];
    assert t[..|t| - 1] == log;
    assert t[|log|] == a;
    forall i | 0 <= i < |log| ensures t[i] == log[i] {}
  }

  lemma NeededGrows(log: seq<Attempt>, a: Attempt, count: nat)
    requires Needed(log, count) && !Done(log, count)
    ensures Needed(log + [a], count)
  {
    var t := log + [a];
    forall i | 0 <= i < |t| ensures |Wins(t[..i])| < count && !Capped(t[..i]) {
      assert t[..i] == if i == |log| then log else log[..i];
      if i < |log| { assert |Wins(log[..i])| < count && !Capped(log[..i]); }
    }
  }

  /** Who answers the claims: it knows everything asked and answered so far. */
  type Oracle = (seq<Attempt>, int) -> Claim

  /** What the kernel and the group say; a slot this call already holds is
      contended, whatever else. */
  ghost function Reply(oracle: Oracle, log: seq<Attempt>, n: int): Claim {
    var c := oracle(log, n);
    if c.Locked? && n in Wins(log) then Contended else c
  }

  /** Each attempt was answered by the oracle. */
  ghost predicate Honest(oracle: Oracle, log: seq<Attempt>) {
    forall i :: 0 <= i < |log| ==> log[i].claim == Reply(oracle, log[..i], log[i].n)
  }

  lemma HonestGrows(oracle: Oracle, log: seq<Attempt>, a: Attempt)
    requires Honest(oracle, log) && a.claim == Reply(oracle, log, a.n)
    ensures Honest(oracle, log + [a])
  {
    hide Reply;
    var t := log + [a];
    forall i | 0 <= i < |t| ensures t[i].claim == Reply(oracle, t[..i], t[i].n) {
      assert t[..i] == if i < |log| then log[..i] else log;
    }
  }

  /** The slots this call has: all distinct, and the only flocks it holds. */
  ghost predicate Tallied(log: seq<Attempt>, acquired: seq<int>, taken: set<int>, held: set<int>) {
    acquired == Wins(log) && Distinct(acquired) && (forall n :: n in taken <==> n in acquired) && held == taken
  }

  ghost predicate Indexed(refusals: seq<Refusal>, refusedAt: map<int, nat>) {
    && (forall n :: n in refusedAt <==> Find(refusals, n) >= 0)
    && (forall n :: n in refusedAt ==> refusedAt[n] == Find(refusals, n))
    && NumbersDistinct(refusals)
  }

  ghost predicate Listed(log: seq<Attempt>, refusals: seq<Refusal>, refusedAt: map<int, nat>) {
    refusals == Refusals(log) && Indexed(refusals, refusedAt)
  }

  ghost predicate CapSeen(log: seq<Attempt>, capped: bool, uses: seq<int>) {
    (capped <==> Capped(log)) && (capped ==> log != [] && log[|log| - 1].claim == OverCap(uses))
  }

  lemma TallyGrows(log: seq<Attempt>, acquired: seq<int>, taken: set<int>, held: set<int>, a: Attempt)
    requires Tallied(log, acquired, taken, held) && (a.claim.Locked? ==> a.n !in held)
    ensures Won(a) ==> Tallied(log + [a], acquired + [a.n], taken + {a.n}, held + {a.n})
    ensures !Won(a) ==> Tallied(log + [a], acquired, taken, held)
  {
    LogGrows(log, a);
    hide Wins;
  }

  lemma ListedGrows(log: seq<Attempt>, refusals: seq<Refusal>, refusedAt: map<int, nat>, a: Attempt)
    requires Listed(log, refusals, refusedAt) && !Refused(a)
    ensures Listed(log + [a], refusals, refusedAt)
  {
    LogGrows(log, a);
  }

  lemma HeldIsWon(log: seq<Attempt>, acquired: seq<int>, taken: set<int>, held: set<int>)
    requires Tallied(log, acquired, taken, held)
    ensures forall m :: m in held <==> m in Wins(log)
  {
    hide Wins;
  }

  lemma NoErrorYet(log: seq<Attempt>, a: Attempt)
    requires !Errored(log) && !a.claim.Failed?
    ensures !Errored(log + [a])
  {
    LogGrows(log, a);
  }

  lemma ListedMore(log: seq<Attempt>, refusals: seq<Refusal>, refusedAt: map<int, nat>, a: Attempt)
    requires Listed(log, refusals, refusedAt) && Refused(a)
    ensures a.n in refusedAt ==> refusedAt[a.n] < |refusals|
    ensures a.n in refusedAt ==> Listed(log + [a], refusals[refusedAt[a.n] := Refusal(a.n, StateOf(a))], refusedAt)
    ensures a.n !in refusedAt ==>
              Listed(log + [a], refusals + [Refusal(a.n, StateOf(a))], refusedAt[a.n := |refusals|])
  {
    hide Refusals, Indexed, Record, Wins, Capped, Errored;
    LogGrows(log, a);
    IndexedMore(refusals, refusedAt, Refusal(a.n, StateOf(a)));
  }

  lemma IndexedMore(refusals: seq<Refusal>, refusedAt: map<int, nat>, r: Refusal)
    requires Indexed(refusals, refusedAt)
    ensures r.number in refusedAt ==> refusedAt[r.number] < |refusals|
    ensures r.number in refusedAt ==> Record(refusals, r) == refusals[refusedAt[r.number] := r]
    ensures r.number !in refusedAt ==> Record(refusals, r) == refusals + [r]
    ensures Indexed(Record(refusals, r), if r.number in refusedAt then refusedAt else refusedAt[r.number := |refusals|])
  {
    hide Find, NumbersDistinct;
    SameIndex(refusals, r);
    RecordKeeps(refusals, r);
  }

  lemma CapGrows(log: seq<Attempt>, uses: seq<int>, a: Attempt)
    requires CapSeen(log, false, uses)
    ensures a.claim.OverCap? ==> CapSeen(log + [a], true, a.claim.uses)
    ensures !a.claim.OverCap? ==> CapSeen(log + [a], false, uses)
  {
    LogGrows(log, a);
    hide Capped;
  }

  /** The variables tryAcquireSlots' closures share, the flocks this caller
      holds, and the log of what it attempted. */
  class Call {
    const oracle: Oracle
    var log: seq<Attempt>
    var held: set<int>
    var acquired: seq<int>
    var taken: set<int>
    var refusals: seq<Refusal>
    var refusedAt: map<int, nat>
    var capped: bool
    var uses: seq<int>

    ghost predicate Valid()
      reads this
    {
      && !Errored(log) && Honest(oracle, log)
      && Tallied(log, acquired, taken, held)
      && Listed(log, refusals, refusedAt)
      && CapSeen(log, capped, uses)
    }

    constructor (oracle: Oracle)
      ensures Valid() && this.oracle == oracle && log == []
    {
      this.oracle := oracle;
      log, held, acquired, taken, refusals, refusedAt, capped, uses := [], {}, [], {}, [], map[], false, [];
    }

    ghost function Answer(n: int): Claim
      reads this
    {
      Reply(oracle, log, n)
    }

    method ClaimCapped(n: int) returns (c: Claim)
      requires forall m :: m in held <==> m in Wins(log)
      modifies `log, `held
      ensures c == old(Answer(n)) && log == old(log) + [Attempt(n, c)]
      ensures held == if c.Locked? then old(held) + {n} else old(held)
      ensures c.Locked? ==> n !in old(held)
    {
      c := oracle(log, n);
      if c.Locked? && n in held { c := Contended; }
      log := log + [Attempt(n, c)];
      if c.Locked? { held := held + {n}; }
    }

    method Unlock(n: int)
      modifies `held
      ensures held == old(held) - {n}
    {
      held := held - {n};
    }

    /** One entry per slot, not one per attempt. */
    method Refuse(n: int, state: SlotState, ghost before: seq<Attempt>, ghost a: Attempt)
      requires log == before + [a] && Refused(a) && a.n == n && StateOf(a) == state
      requires Listed(before, refusals, refusedAt)
      modifies `refusals, `refusedAt
      ensures Listed(log, refusals, refusedAt)
    {
      ListedMore(before, refusals, refusedAt, a);
      hide Listed;
      if n in refusedAt {
        refusals := refusals[refusedAt[n] := Refusal(n, state)];
      } else {
        refusedAt := refusedAt[n := |refusals|];
        refusals := refusals + [Refusal(n, state)];
      }
    }

    /** One claim: the slot is taken, or refused and let go of, or the group is
        at its cap, or the call fails. */
    method Take(n: int) returns (failed: bool)
      requires Valid() && !capped
      modifies this
      ensures log == old(log) + [Attempt(n, old(Answer(n)))]
      ensures failed <==> old(Answer(n)).Failed?
      ensures !failed ==> Valid()
      ensures failed ==> held == old(held) && acquired == old(acquired) && Honest(oracle, log)
    {
      hide Tallied, Listed, CapSeen, Indexed, Errored, Honest, Wins, Refusals;
      ghost var before := log;
      HonestGrows(oracle, log, Attempt(n, Answer(n)));
      HeldIsWon(log, acquired, taken, held);
      var c := ClaimCapped(n);
      ghost var a := Attempt(n, c);
      if c.Failed? { return true; }
      CapGrows(before, uses, a);
      NoErrorYet(before, a);
      if c.OverCap? {
        capped, uses := true, c.uses;
        TallyGrows(before, acquired, taken, held, a);
        ListedGrows(before, refusals, refusedAt, a);
      } else if c.Contended? {
        TallyGrows(before, acquired, taken, held, a);
        Refuse(n, Busy, before, a);
      } else {
        Settle(n, c.state, c.recovered, before, a);
      }
      return false;
    }

    /** The flock is held: keep the slot, or let go of it. */
    method Settle(n: int, state: SlotState, recovered: bool, ghost before: seq<Attempt>, ghost a: Attempt)
      requires a == Attempt(n, Locked(state, recovered)) && log == before + [a]
      requires n in held && Tallied(before, acquired, taken, held - {n}) && Listed(before, refusals, refusedAt)
      modifies `acquired, `taken, `held, `refusals, `refusedAt
      ensures Tallied(log, acquired, taken, held) && Listed(log, refusals, refusedAt)
    {
      hide Tallied, Listed, Indexed;
      TallyGrows(before, acquired, taken, held - {n}, a);
      assert held - {n} + {n} == held;
      if state.Free? || (state.Quarantined? && recovered) {
        acquired := acquired + [n];
        taken := taken + {n};
        ListedGrows(before, refusals, refusedAt, a);
      } else {
        Unlock(n);
        Refuse(n, state, before, a);
      }
    }

    method ReleaseAll()
      requires forall x :: x in held ==> x in acquired
      modifies `held
      ensures held == {}
    {
      for i := 0 to |acquired|
        invariant forall x :: x in held ==> x in acquired[i..]
      {
        assert acquired[i..] == [acquired[i]] + acquired[i + 1..];
        Unlock(acquired[i]);
      }
      assert forall x :: x !in held;
    }
  }

  lemma SameIndex(rs: seq<Refusal>, r: Refusal)
    requires NumbersDistinct(rs)
    ensures forall n :: n != r.number ==> Find(Record(rs, r), n) == Find(rs, n)
    ensures Find(Record(rs, r), r.number) == if Find(rs, r.number) >= 0 then Find(rs, r.number) else |rs|
  {
    RecordKeeps(rs, r);
    var t := Record(rs, r);
    forall n | n != r.number ensures Find(t, n) == Find(rs, n) {
      var i, j := Find(t, n), Find(rs, n);
      if i >= 0 { assert t[i] == rs[i]; }
    }
  }
}
