/** The three passes of tryAcquireSlots, and what each of its outcomes means. */
module AcquirePasses {
  import opened Wrappers
  import opened Sorting
  import opened Slim
  import opened Dispatch
  import opened Acquire

  datatype Result =
    | Acquired(slots: seq<int>)
    | IoError
    | AtUseCap(uses: seq<int>)
    | AtMemoryFloor(refusals: seq<Refusal>)
    | AtCapacity(refusals: seq<Refusal>)

  ghost function Numbers(log: seq<Attempt>): seq<int> {
    seq(|log|, i requires 0 <= i < |log| => log[i].n)
  }

  lemma NumbersGrow(log: seq<Attempt>, a: Attempt)
    ensures Numbers(log + [a]) == Numbers(log) + [a.n]
  {
  }

  /** The call is over: the slots it had are all it holds. */
  ghost predicate Broken(c: Call)
    reads c
  {
    Errored(c.log) && Honest(c.oracle, c.log) && forall x :: x in c.held ==> x in c.acquired
  }

  ghost predicate Extends(log: seq<Attempt>, more: seq<Attempt>) {
    log <= more
  }

  /** Take, with what each pass needs of it. */
  method Attempted(c: Call, n: int, count: nat) returns (failed: bool)
    requires c.Valid() && !Done(c.log, count) && Needed(c.log, count)
    modifies c
    ensures failed ==> Broken(c)
    ensures Needed(c.log, count) && (!failed ==> c.Valid())
    ensures Numbers(c.log) == Numbers(old(c.log)) + [n]
    ensures Extends(old(c.log), c.log)
    ensures !failed ==> Answered(c.log, n) || Done(c.log, count)
    ensures !failed ==> forall m :: Answered(old(c.log), m) ==> Answered(c.log, m)
  {
    ghost var before, a := c.log, Attempt(n, c.Answer(n));
    LogGrows(before, a);
    NeededGrows(before, a, count);
    NumbersGrow(before, a);
    failed := c.Take(n);
    hide Wins, Capped, RefusedIn, Errored, Needed;
  }

  ghost predicate AllAnswered(log: seq<Attempt>, ns: seq<int>) {
    forall n :: n in ns ==> Answered(log, n)
  }

  /** Pass one: the slots that already serve the request, in order. */
  method PassOne(c: Call, matching: seq<int>, count: nat) returns (failed: bool)
    requires c.Valid() && c.log == []
    modifies c
    ensures failed ==> Broken(c)
    ensures Needed(c.log, count) && (!failed ==> c.Valid())
    ensures Numbers(c.log) <= matching
    ensures !failed ==> Done(c.log, count) || (Numbers(c.log) == matching && AllAnswered(c.log, matching))
  {
    assert Needed([], count) && matching[..0] == [] && Numbers([]) == [] && AllAnswered(c.log, []);
    var i := 0;
    hide Done, Needed, Answered, Tallied, Listed, CapSeen, Honest, Errored, Broken, AllAnswered, Extends, Numbers;
    while i < |matching|
      invariant 0 <= i <= |matching| && c.Valid() && Needed(c.log, count)
      invariant Numbers(c.log) == matching[..i]
      invariant Done(c.log, count) || AllAnswered(c.log, matching[..i])
    {
      IsDone(c, count);
      if |c.acquired| >= count || c.capped {
        return false;
      }
      assert matching[..i + 1] == matching[..i] + [matching[i]];
      ghost var log := c.log;
      failed := Attempted(c, matching[i], count);
      if failed {
        return true;
      }
      if !Done(c.log, count) { AllMore(log, c.log, matching[..i], matching[i]); }
      i := i + 1;
    }
    assert matching[..i] == matching;
    return false;
  }

  lemma AllMore(log: seq<Attempt>, more: seq<Attempt>, ns: seq<int>, n: int)
    requires AllAnswered(log, ns) && Answered(more, n) && forall m :: Answered(log, m) ==> Answered(more, m)
    ensures AllAnswered(more, ns + [n])
  {
    hide Answered;
  }

  lemma IsDone(c: Call, count: nat)
    requires c.Valid()
    ensures Done(c.log, count) <==> |c.acquired| >= count || c.capped
  {
    hide Wins, Capped;
  }

  /** The numbers of the slots pass two proposes: each the least that no
      resident slot has. */
  ghost predicate LeastFree(existing: set<int>, created: seq<int>) {
    forall i :: 0 <= i < |created| ==>
      && created[i] >= 0 && created[i] !in existing && created[i] !in created[..i]
      && forall m :: 0 <= m < created[i] ==> m in existing || m in created[..i]
  }

  lemma {:induction false} BelowFits(s: set<int>, k: nat)
    requires forall m :: 0 <= m < k ==> m in s
    ensures k <= |s|
  {
    if k > 0 {
      BelowFits(s - {k - 1}, k - 1);
    }
  }

  /** The resident set as pass two keeps it: never past max. */
  ghost predicate Grown(existing: set<int>, created: seq<int>, resident: set<int>, max: nat) {
    && LeastFree(existing, created)
    && resident == existing + Elements(created)
    && |resident| == |existing| + |created|
    && (created != [] ==> |resident| <= max)
  }

  lemma GrownMore(existing: set<int>, created: seq<int>, resident: set<int>, max: nat, n: int)
    requires Grown(existing, created, resident, max) && |resident| < max
    requires n >= 0 && n !in resident && forall m :: 0 <= m < n ==> m in resident
    ensures Grown(existing, created + [n], resident + {n}, max) && |resident + {n}| == |resident| + 1
  {
    hide LeastFree, Elements;
    assert n !in existing && n !in Elements(created);
    InElements(created);
    forall m | 0 <= m < n ensures m in existing || m in created { assert m in resident; }
    LeastFreeMore(existing, created, n);
    assert resident + {n} == existing + Elements(created + [n]);
  }

  lemma InElements(s: seq<int>)
    ensures forall m :: m in Elements(s) <==> m in s
  {
  }

  /** Everything answered stays answered, and the proposals are answered too. */
  ghost predicate StillAnswered(before: seq<Attempt>, log: seq<Attempt>, ns: seq<int>) {
    AllAnswered(log, ns) && forall m :: Answered(before, m) ==> Answered(log, m)
  }

  ghost predicate Proposed(before: seq<Attempt>, log: seq<Attempt>, existing: set<int>, created: seq<int>, resident: set<int>, max: nat) {
    Numbers(log) == Numbers(before) + created && Grown(existing, created, resident, max)
  }

  /** Pass two: new slot numbers, while the group is under its cap. */
  method PassTwo(c: Call, existing: set<int>, count: nat, max: nat) returns (failed: bool, resident: set<int>, ghost created: seq<int>)
    requires c.Valid() && Needed(c.log, count)
    modifies c
    ensures failed ==> Broken(c)
    ensures Needed(c.log, count) && (!failed ==> c.Valid() && (Done(c.log, count) || |resident| >= max))
    ensures Proposed(old(c.log), c.log, existing, created, resident, max) && Extends(old(c.log), c.log)
    ensures !failed ==> Done(c.log, count) || (StillAnswered(old(c.log), c.log, created) && AllAnswered(c.log, created))
  {
    hide *;
    resident, created := existing, [];
    NothingProposed(c.log, existing, max);
    var next := 0;
    while true
      invariant c.Valid() && Needed(c.log, count)
      invariant Proposed(old(c.log), c.log, existing, created, resident, max) && Extends(old(c.log), c.log)
      invariant Below(resident, next)
      invariant Done(c.log, count) || StillAnswered(old(c.log), c.log, created)
      decreases max - |resident|
    {
      IsDone(c, count);
      if |c.acquired| >= count || c.capped || |resident| >= max {
        Everything(old(c.log), c.log, created);
        return false, resident, created;
      }
      next := FirstFree(resident, next);
      ghost var log := c.log;
      failed := Propose(c, old(c.log), existing, created, resident, max, next, count);
      StillExtends(old(c.log), log, c.log);
      resident, created := resident + {next}, created + [next];
      if failed {
        return true, resident, created;
      }
      next := next + 1;
    }
  }

  lemma NothingProposed(log: seq<Attempt>, existing: set<int>, max: nat)
    ensures Proposed(log, log, existing, [], existing, max) && Extends(log, log) && Below(existing, 0) && StillAnswered(log, log, [])
  {
    assert Elements<int>([]) == {} && Numbers(log) + [] == Numbers(log);
  }

  lemma StillExtends(before: seq<Attempt>, log: seq<Attempt>, more: seq<Attempt>)
    requires Extends(before, log) && Extends(log, more)
    ensures Extends(before, more)
  {
  }

  lemma Everything(before: seq<Attempt>, log: seq<Attempt>, created: seq<int>)
    ensures StillAnswered(before, log, created) ==> AllAnswered(log, created)
  {
  }

  method Propose(c: Call, ghost before: seq<Attempt>, ghost existing: set<int>, ghost created: seq<int>, resident: set<int>, max: nat, n: int, count: nat)
      returns (failed: bool)
    requires c.Valid() && !Done(c.log, count) && Needed(c.log, count)
    requires Proposed(before, c.log, existing, created, resident, max) && StillAnswered(before, c.log, created)
    requires |resident| < max && n !in resident && Below(resident, n)
    modifies c
    ensures Below(resident + {n}, n + 1) && Extends(old(c.log), c.log)
    ensures failed ==> Broken(c)
    ensures Needed(c.log, count) && (!failed ==> c.Valid())
    ensures Proposed(before, c.log, existing, created + [n], resident + {n}, max) && |resident + {n}| == |resident| + 1
    ensures !failed ==> Done(c.log, count) || StillAnswered(before, c.log, created + [n])
  {
    ghost var log := c.log;
    failed := Attempted(c, n, count);
    ProposedMore(before, log, c.log, existing, created, resident, max, n);
    if !failed && !Done(c.log, count) { StillMore(before, log, c.log, created, n); }
    hide *;
  }

  lemma ProposedMore(before: seq<Attempt>, log: seq<Attempt>, more: seq<Attempt>, existing: set<int>, created: seq<int>, resident: set<int>, max: nat, n: int)
    requires Proposed(before, log, existing, created, resident, max) && Numbers(more) == Numbers(log) + [n]
    requires |resident| < max && n !in resident && Below(resident, n)
    ensures Proposed(before, more, existing, created + [n], resident + {n}, max)
    ensures |resident + {n}| == |resident| + 1 && Below(resident + {n}, n + 1)
  {
    GrownMore(existing, created, resident, max, n);
    Assoc(Numbers(before), created, [n]);
    BelowMore(resident, n);
    hide Grown, Numbers, Below;
  }

  lemma Assoc(x: seq<int>, y: seq<int>, z: seq<int>)
    ensures x + (y + z) == x + y + z
  {
  }

  lemma GrownNone(existing: set<int>, max: nat)
    ensures Grown(existing, [], existing, max) && Below(existing, 0)
  {
    assert Elements<int>([]) == {};
  }

  lemma BelowMore(resident: set<int>, n: int)
    requires Below(resident, n)
    ensures Below(resident + {n}, n + 1)
  {
  }

  lemma StillMore(before: seq<Attempt>, log: seq<Attempt>, more: seq<Attempt>, ns: seq<int>, n: int)
    requires StillAnswered(before, log, ns) && Answered(more, n) && forall m :: Answered(log, m) ==> Answered(more, m)
    ensures StillAnswered(before, more, ns + [n])
  {
    hide Answered;
  }

  predicate Below(resident: set<int>, next: int) {
    0 <= next && forall m :: 0 <= m < next ==> m in resident
  }

  method FirstFree(resident: set<int>, from: int) returns (next: int)
    requires Below(resident, from)
    ensures from <= next && next !in resident && Below(resident, next)
  {
    next := from;
    while next in resident
      invariant from <= next && forall m :: 0 <= m < next ==> m in resident
      decreases |resident| - next
    {
      next := next + 1;
      BelowFits(resident, next);
    }
  }

  lemma LeastFreeMore(existing: set<int>, created: seq<int>, n: int)
    requires LeastFree(existing, created) && n >= 0 && n !in existing && n !in created
    requires forall m :: 0 <= m < n ==> m in existing || m in created
    ensures LeastFree(existing, created + [n]) && Elements(created + [n]) == Elements(created) + {n}
  {
    var t := created + [n];
    forall i | 0 <= i < |t|
      ensures t[i] >= 0 && t[i] !in existing && t[i] !in t[..i] && forall m :: 0 <= m < t[i] ==> m in existing || m in t[..i]
    {
      assert t[..i] == if i < |created| then created[..i] else created;
    }
  }

  /** The attempts pass three makes of `order`, from position `from` of the
      log on: it skips the slots this call has by then. */
  ghost predicate Retried(log: seq<Attempt>, from: nat, order: seq<int>, tried: seq<int>) {
    && from + |tried| <= |log|
    && if order == [] then tried == []
       else
         var n, init := order[|order| - 1], order[..|order| - 1];
         || (n in Wins(log[..from + |tried|]) && Retried(log, from, init, tried))
         || (&& tried != [] && tried[|tried| - 1] == n && n !in Wins(log[..from + |tried| - 1])
             && Retried(log, from, init, tried[..|tried| - 1]))
  }

  lemma {:induction false} RetriedStays(log: seq<Attempt>, more: seq<Attempt>, from: nat, order: seq<int>, tried: seq<int>)
    requires Retried(log, from, order, tried) && log <= more
    ensures Retried(more, from, order, tried)
  {
    if order != [] {
      var n, init := order[|order| - 1], order[..|order| - 1];
      assert more[..from + |tried|] == log[..from + |tried|];
      if n in Wins(log[..from + |tried|]) && Retried(log, from, init, tried) {
        RetriedStays(log, more, from, init, tried);
      } else {
        assert more[..from + |tried| - 1] == log[..from + |tried| - 1];
        RetriedStays(log, more, from, init, tried[..|tried| - 1]);
      }
    }
  }

  lemma RetriedNext(log: seq<Attempt>, more: seq<Attempt>, from: nat, order: seq<int>, tried: seq<int>, n: int)
    requires Retried(log, from, order, tried) && from + |tried| == |log|
    ensures n in Wins(log) ==> Retried(log, from, order + [n], tried)
    ensures n !in Wins(log) && log <= more && |more| == |log| + 1 ==> Retried(more, from, order + [n], tried + [n])
  {
    hide Wins;
    var t := order + [n];
    assert t[..|t| - 1] == order && log[..|log|] == log;
    if n !in Wins(log) && log <= more && |more| == |log| + 1 {
      assert (tried + [n])[..|tried|] == tried && more[..|log|] == log;
      RetriedStays(log, more, from, order, tried);
    }
  }

  /** What was retried is of the order, without repetition if the order has
      none; and whatever is in the order was retried or is taken. */
  lemma {:induction false} RetriedIs(log: seq<Attempt>, from: nat, order: seq<int>, tried: seq<int>, m: int)
    requires Retried(log, from, order, tried)
    ensures forall n :: n in tried ==> n in order
    ensures Distinct(order) ==> Distinct(tried)
    ensures m in Wins(log) || multiset(tried)[m] == multiset(order)[m]
  {
    if order != [] {
      var n, init := order[|order| - 1], order[..|order| - 1];
      assert order == init + [n];
      if n in Wins(log[..from + |tried|]) && Retried(log, from, init, tried) {
        WinsBefore(log, from + |tried|);
        RetriedIs(log, from, init, tried, m);
        DistinctSnoc(init, n);
      } else {
        assert tried == tried[..|tried| - 1] + [n];
        RetriedIs(log, from, init, tried[..|tried| - 1], m);
        DistinctSnoc(init, n);
        DistinctSnoc(tried[..|tried| - 1], n);
      }
    }
  }

  /** Pass three, the last resort: every resident slot this call does not
      already have, those that need reconfiguring last. */
  method PassThree(c: Call, order: seq<int>, count: nat) returns (failed: bool, ghost tried: seq<int>, ghost upto: nat)
    requires c.Valid() && Needed(c.log, count)
    modifies c
    ensures failed ==> Broken(c)
    ensures Needed(c.log, count) && (!failed ==> c.Valid())
    ensures Numbers(c.log) == Numbers(old(c.log)) + tried && Extends(old(c.log), c.log)
    ensures upto <= |order| && Retried(c.log, |old(c.log)|, order[..upto], tried)
    ensures !failed ==> Done(c.log, count) || (StillAnswered(old(c.log), c.log, order) && upto == |order|)
  {
    hide *;
    ghost var before := c.log;
    tried, upto := [], 0;
    StillNone(c.log, order);
    var i := 0;
    while i < |order|
      invariant 0 <= i <= |order| && c.Valid() && Needed(c.log, count)
      invariant Walking(before, c.log, order[..i], tried)
      invariant Done(c.log, count) || StillAnswered(before, c.log, order[..i])
    {
      upto := i;
      WalkedSoFar(before, c.log, order[..i], tried);
      IsDone(c, count);
      if |c.acquired| >= count || c.capped {
        return false, tried, upto;
      }
      assert order[..i + 1] == order[..i] + [order[i]];
      failed, tried := RetryOne(c, before, order[..i], tried, order[i], count);
      WalkedSoFar(before, c.log, order[..i + 1], tried);
      if failed {
        return true, tried, i + 1;
      }
      i := i + 1;
    }
    WalkedSoFar(before, c.log, order[..i], tried);
    assert order[..i] == order;
    return false, tried, |order|;
  }

  /** Where pass three is after some of its order. */
  ghost predicate Walking(before: seq<Attempt>, log: seq<Attempt>, order: seq<int>, tried: seq<int>) {
    Numbers(log) == Numbers(before) + tried && Extends(before, log) && Retried(log, |before|, order, tried)
  }

  lemma WalkedSoFar(before: seq<Attempt>, log: seq<Attempt>, order: seq<int>, tried: seq<int>)
    requires Walking(before, log, order, tried)
    ensures Numbers(log) == Numbers(before) + tried && Extends(before, log) && Retried(log, |before|, order, tried)
    ensures |log| == |before| + |tried|
  {
    assert |Numbers(log)| == |log| && |Numbers(before)| == |before|;
    hide Retried;
  }

  /** One slot of pass three. */
  method RetryOne(c: Call, ghost before: seq<Attempt>, ghost order: seq<int>, ghost tried: seq<int>, n: int, count: nat)
      returns (failed: bool, ghost more: seq<int>)
    requires c.Valid() && !Done(c.log, count) && Needed(c.log, count)
    requires Walking(before, c.log, order, tried) && StillAnswered(before, c.log, order)
    modifies c
    ensures failed ==> Broken(c)
    ensures Needed(c.log, count) && (!failed ==> c.Valid())
    ensures Walking(before, c.log, order + [n], more)
    ensures !failed ==> Done(c.log, count) || StillAnswered(before, c.log, order + [n])
  {
    hide *;
    ghost var log := c.log;
    TakenIsWon(c, n);
    if n in c.taken {
      StillMore(before, log, log, order, n);
      WalkingOn(before, log, log, order, tried, n);
      return false, tried;
    }
    failed := Attempted(c, n, count);
    WalkingOn(before, log, c.log, order, tried, n);
    if !failed && !Done(c.log, count) { StillMore(before, log, c.log, order, n); }
    more := tried + [n];
  }

  lemma StillNone(log: seq<Attempt>, order: seq<int>)
    ensures Walking(log, log, order[..0], []) && StillAnswered(log, log, order[..0])
    ensures Retried(log, |log|, order[..0], []) && Extends(log, log) && Numbers(log) == Numbers(log) + []
  {
    assert order[..0] == [] && Numbers(log) + [] == Numbers(log);
  }

  lemma WalkingOn(before: seq<Attempt>, log: seq<Attempt>, more: seq<Attempt>, order: seq<int>, tried: seq<int>, n: int)
    requires Walking(before, log, order, tried)
    ensures n in Wins(log) ==> Walking(before, log, order + [n], tried)
    ensures n !in Wins(log) && Extends(log, more) && Numbers(more) == Numbers(log) + [n] ==>
              Walking(before, more, order + [n], tried + [n])
  {
    WalkedSoFar(before, log, order, tried);
    assert |Numbers(more)| == |more| && |Numbers(log)| == |log|;
    RetriedNext(log, more, |before|, order, tried, n);
    Assoc(Numbers(before), tried, [n]);
    hide Retried, Wins, Numbers;
  }

  lemma TakenIsWon(c: Call, n: int)
    requires c.Valid()
    ensures n in c.taken <==> n in Wins(c.log)
    ensures n in c.taken ==> Answered(c.log, n)
  {
  }

  // ---------------------------------------------------------------- the memory floor

  /** n is resident and this call could still end up on it: it was never
      refused, or what refused it is somebody's work in progress. */
  ghost predicate Fallback(log: seq<Attempt>, n: int) {
    && n !in Wins(log)
    && var i := Find(Refusals(log), n);
       i >= 0 ==> Refusals(log)[i].Refusal? && (Refusals(log)[i].state.Busy? || Refusals(log)[i].state.Leased?)
  }

  ghost function Fallbacks(log: seq<Attempt>, existing: seq<int>): nat {
    if existing == [] then 0
    else Fallbacks(log, existing[..|existing| - 1]) + if Fallback(log, existing[|existing| - 1]) then 1 else 0
  }

  method CountFallbacks(c: Call, existing: seq<int>) returns (k: nat)
    requires c.Valid()
    ensures k == Fallbacks(c.log, existing)
  {
    k := 0;
    for i := 0 to |existing|
      invariant k == Fallbacks(c.log, existing[..i])
    {
      assert existing[..i + 1][..i] == existing[..i];
      var n := existing[i];
      if n !in c.taken {
        if n !in c.refusedAt {
          k := k + 1;
        } else {
          var r := c.refusals[c.refusedAt[n]];
          if r.Refusal? && (r.state.Busy? || r.state.Leased?) {
            k := k + 1;
          }
        }
      }
    }
    assert existing[..|existing|] == existing;
  }

  /** coldBootFloor: adding a simulator is declined only when enough resident
      slots could serve instead and memory was read and found below the floor. */
  predicate ColdBootFloor(fallbacks: nat, needed: int, free: Option<real>, floor: real) {
    fallbacks >= needed && free.Some? && free.value < floor
  }

  // ---------------------------------------------------------------- the whole call

  /** What pass two is allowed to leave undone: the group is at its cap, or the
      floor declined while enough resident slots could still serve. */
  ghost predicate FullOrDeclined(log: seq<Attempt>, existing: seq<int>, resident: set<int>, count: nat, max: nat, free: Option<real>, floor: real) {
    |resident| >= max || ColdBootFloor(Fallbacks(log, existing), count - |Wins(log)|, free, floor)
  }

  /** The request tryAcquireSlots serves, and what it reads of the machine. */
  datatype Request = Request(metas: Metas, want: seq<string>, existing: seq<int>, count: nat, max: nat, free: Option<real>, floor: real)

  /** The passes, in order: those that serve the request; new numbers, never
      past the cap; and only when there was nothing left to do before it, the
      resident slots again, those that need reconfiguring included. */
  ghost predicate Walked(log: seq<Attempt>, q: Request, first: seq<int>, created: seq<int>, last: seq<int>) {
    var resident := Elements(q.existing) + Elements(created);
    && Numbers(log) == first + created + last
    && first <= Matching(q.metas, q.want, q.existing)
    && LeastFree(Elements(q.existing), created)
    && LastWalk(log, q, |first| + |created|, last)
    && (created != [] ==> |resident| <= q.max)
    && (created != [] || last != [] ==>
          first == Matching(q.metas, q.want, q.existing) && AllAnswered(log[..|first|], first))
    && (created != [] ==> !Declines(log[..|first|], q))
    && (last != [] ==> FullOrDeclined(log[..|first|], q.existing, resident, q.count, q.max, q.free, q.floor))
  }

  /** Pass three walked a beginning of the resident slots, those that serve first. */
  ghost predicate LastWalk(log: seq<Attempt>, q: Request, from: nat, last: seq<int>) {
    exists k: nat :: k <= |Order(q)| && Retried(log, from, Order(q)[..k], last)
  }

  function Order(q: Request): seq<int> {
    Matching(q.metas, q.want, q.existing) + Reconfigurable(q.metas, q.want, q.existing)
  }

  /** Nothing was left out: pass one and pass three went to their ends. */
  ghost predicate Finished(log: seq<Attempt>, q: Request, first: seq<int>, created: seq<int>, last: seq<int>) {
    first == Matching(q.metas, q.want, q.existing) && Retried(log, |first| + |created|, Order(q), last)
  }

  /** The failures the caller may queue on have heard about every resident slot. */
  ghost predicate Heard(log: seq<Attempt>, q: Request, created: seq<int>) {
    AllAnswered(log, q.existing) && AllAnswered(log, created)
  }

  method Passes(c: Call, q: Request)
      returns (failed: bool, declined: bool, ghost first: seq<int>, ghost created: seq<int>, ghost last: seq<int>)
    requires c.Valid() && c.log == []
    modifies c
    ensures failed ==> Broken(c)
    ensures Needed(c.log, q.count) && (!failed ==> c.Valid())
    ensures Walked(c.log, q, first, created, last)
    ensures declined ==> DeclinedBy(c.log, q, first, created)
    ensures !failed && !Done(c.log, q.count) ==> Heard(c.log, q, created) && Finished(c.log, q, first, created, last)
    ensures !failed && !Done(c.log, q.count) && !declined ==> |Elements(q.existing) + Elements(created)| >= q.max
  {
    created, last, declined := [], [], false;
    var matching, reconfigurable := DispatchOrder(q.metas, q.want, q.existing);
    failed := PassOne(c, matching, q.count);
    first := Numbers(c.log);
    ghost var log1 := c.log;
    WalkedFirst(log1, q, first);
    if failed {
      return;
    }
    IsDone(c, q.count);
    var resident := Elements(q.existing);
    if |c.acquired| < q.count && |resident| < q.max && !c.capped {
      declined := Decline(c, q);
    }
    failed, created, last := LaterPasses(c, q, matching, reconfigurable, log1, first, declined);
    if declined { StillDeclined(log1, c.log, q, first); }
  }

  /** The floor declined after pass one, in a group with room, and nothing was made. */
  ghost predicate DeclinedBy(log: seq<Attempt>, q: Request, first: seq<int>, created: seq<int>) {
    && |first| <= |log| && Declines(log[..|first|], q)
    && created == [] && |Elements(q.existing)| < q.max
  }

  lemma StillDeclined(log1: seq<Attempt>, log: seq<Attempt>, q: Request, first: seq<int>)
    requires Numbers(log1) == first && Extends(log1, log) && Declines(log1, q) && |Elements(q.existing)| < q.max
    ensures DeclinedBy(log, q, first, [])
  {
    hide Declines, Elements;
    assert |Numbers(log1)| == |log1|;
    assert log[..|first|] == log1;
  }

  method LaterPasses(c: Call, q: Request, matching: seq<int>, reconfigurable: seq<int>, ghost log1: seq<Attempt>, ghost first: seq<int>, declined: bool)
      returns (failed: bool, ghost created: seq<int>, ghost last: seq<int>)
    requires c.Valid() && Needed(c.log, q.count) && c.log == log1 && Numbers(log1) == first <= matching
    requires matching == Matching(q.metas, q.want, q.existing) && reconfigurable == Reconfigurable(q.metas, q.want, q.existing)
    requires Done(log1, q.count) || (first == matching && AllAnswered(log1, first))
    requires if declined then Declines(log1, q) else !Declines(log1, q) || Done(log1, q.count) || |Elements(q.existing)| >= q.max
    modifies c
    ensures Extends(log1, c.log) && (declined ==> created == [])
    ensures failed ==> Broken(c)
    ensures Needed(c.log, q.count) && (!failed ==> c.Valid())
    ensures Walked(c.log, q, first, created, last)
    ensures !failed && !Done(c.log, q.count) ==> Heard(c.log, q, created) && Finished(c.log, q, first, created, last)
    ensures !failed && !Done(c.log, q.count) && !declined ==> |Elements(q.existing) + Elements(created)| >= q.max
  {
    WalkedFirst(log1, q, first);
    AnsweredNone(log1);
    hide Walked, Proposed, StillAnswered, AllAnswered, Needed, Done, Broken, Numbers, Declines, Matching, Reconfigurable, Heard, Extends, Elements, Order, Retried, Finished;
    created, last := [], [];
    var resident := Elements(q.existing);
    if !declined {
      failed, resident, created := PassTwo(c, resident, q.count, q.max);
      OnlyWithRoom(log1, c.log, q, created, resident);
      WalkedSecond(log1, c.log, q, first, created, resident);
      if failed {
        return;
      }
    }
    ghost var log2 := c.log;
    ghost var upto;
    failed, last, upto := PassThree(c, matching + reconfigurable, q.count);
    StillExtends(log1, log2, c.log);
    WalkedThird(log1, log2, c.log, q, first, created, last, declined, upto);
    if !failed { AllHeard(log2, c.log, q, created); }
    if !failed && !Done(c.log, q.count) { WentThrough(log1, log2, c.log, q, first, created, last, upto); }
  }

  /** Anything made was needed, and there was room for it. */
  lemma OnlyWithRoom(log1: seq<Attempt>, log2: seq<Attempt>, q: Request, created: seq<int>, resident: set<int>)
    requires Proposed(log1, log2, Elements(q.existing), created, resident, q.max) && Extends(log1, log2) && Needed(log2, q.count)
    ensures created != [] ==> !Done(log1, q.count) && |Elements(q.existing)| < q.max
  {
    hide Done, Needed, Elements, LeastFree;
    if created != [] {
      assert |Numbers(log2)| == |log2| && |Numbers(log1)| == |log1|;
      WentOn(log1, log2, q.count);
    }
  }

  lemma AnsweredNone(log: seq<Attempt>)
    ensures AllAnswered(log, []) && Extends(log, log) && Elements<int>([]) == {}
  {
  }

  method Decline(c: Call, q: Request) returns (declined: bool)
    requires c.Valid()
    ensures declined <==> Declines(c.log, q)
  {
    var k := CountFallbacks(c, q.existing);
    declined := ColdBootFloor(k, q.count - |c.acquired|, q.free, q.floor);
  }

  /** The memory floor declines after pass one, whose log this is. */
  ghost predicate Declines(log: seq<Attempt>, q: Request) {
    ColdBootFloor(Fallbacks(log, q.existing), q.count - |Wins(log)|, q.free, q.floor)
  }

  lemma WentOn(log: seq<Attempt>, more: seq<Attempt>, count: nat)
    requires Needed(more, count) && Extends(log, more) && |log| < |more|
    ensures !Done(log, count)
  {
    assert more[..|log|] == log;
  }

  lemma DoneStays(log: seq<Attempt>, more: seq<Attempt>, count: nat)
    requires Extends(log, more) && Done(log, count)
    ensures Done(more, count)
  {
    assert more[..|log|] == log;
    WinsBefore(more, |log|);
    if i :| 0 <= i < |log| && log[i].claim.OverCap? { assert more[i] == log[i]; }
  }

  lemma AllHeard(log2: seq<Attempt>, log3: seq<Attempt>, q: Request, created: seq<int>)
    requires Extends(log2, log3)
    requires Done(log2, q.count) || AllAnswered(log2, created)
    requires Done(log3, q.count) || StillAnswered(log2, log3, Matching(q.metas, q.want, q.existing) + Reconfigurable(q.metas, q.want, q.existing))
    ensures Done(log3, q.count) || (Heard(log3, q, created) && !Done(log2, q.count))
  {
    if Done(log2, q.count) { DoneStays(log2, log3, q.count); }
    DispatchSplits(q.metas, q.want, q.existing);
    hide Done, Answered, Matching, Reconfigurable, Serves;
  }

  lemma WalkedFirst(log: seq<Attempt>, q: Request, first: seq<int>)
    requires Numbers(log) == first <= Matching(q.metas, q.want, q.existing)
    ensures Walked(log, q, first, [], [])
  {
    assert first + [] + [] == first && Order(q)[..0] == [] && |Numbers(log)| == |log|;
    assert Retried(log, |first|, Order(q)[..0], []);
    assert Elements<int>([]) == {};
  }

  lemma WalkedSecond(log1: seq<Attempt>, log2: seq<Attempt>, q: Request, first: seq<int>, created: seq<int>, resident: set<int>)
    requires Numbers(log1) == first <= Matching(q.metas, q.want, q.existing) && Needed(log2, q.count)
    requires Done(log1, q.count) || (first == Matching(q.metas, q.want, q.existing) && AllAnswered(log1, first))
    requires Proposed(log1, log2, Elements(q.existing), created, resident, q.max) && Extends(log1, log2)
    requires created != [] ==> !Declines(log1, q)
    ensures Walked(log2, q, first, created, []) && resident == Elements(q.existing) + Elements(created)
  {
    hide Done, Needed, Matching, AllAnswered, LeastFree, Numbers, Elements, LastWalk, FullOrDeclined, Declines;
    Lengths(log1, first, []);
    Lengths(log2, first, created);
    NoWalk(log2, q, |first| + |created|);
    assert first + [] + [] == first && first + created + [] == first + created;
    assert log2[..|first|] == log1;
    if created != [] { WentOn(log1, log2, q.count); }
  }

  lemma NoWalk(log: seq<Attempt>, q: Request, from: nat)
    requires from <= |log|
    ensures LastWalk(log, q, from, [])
  {
    hide Order;
    assert Order(q)[..0] == [];
    assert Retried(log, from, Order(q)[..0], []);
  }

  lemma WalkedThird(log1: seq<Attempt>, log2: seq<Attempt>, log3: seq<Attempt>, q: Request, first: seq<int>, created: seq<int>, last: seq<int>, declined: bool, upto: nat)
    requires Walked(log2, q, first, created, []) && Numbers(log1) == first && Extends(log1, log2) && Extends(log2, log3)
    requires Done(log1, q.count) || (first == Matching(q.metas, q.want, q.existing) && AllAnswered(log1, first))
    requires Needed(log3, q.count) && Numbers(log3) == Numbers(log2) + last
    requires upto <= |Order(q)| && Retried(log3, |log2|, Order(q)[..upto], last)
    requires if declined then Declines(log1, q) else Done(log2, q.count) || |Elements(q.existing) + Elements(created)| >= q.max
    ensures Walked(log3, q, first, created, last)
  {
    hide Done, Needed, Order, Retried, AllAnswered, LeastFree, Matching, Elements, Numbers, LastWalk, Fallbacks;
    WalkedNumbers(log2, q, first, created, []);
    Lengths(log2, first, created);
    assert first + [] + [] == first;
    Lengths(log1, first, []);
    assert log3[..|first|] == log2[..|first|] == log1;
    if last != [] {
      Longer(log2, log3, last);
      WentOn(log1, log3, q.count);
      WentOn(log2, log3, q.count);
    }
    IsWalk(log3, q, |log2|, last, upto);
    assert first + created + [] == first + created;
  }

  lemma IsWalk(log: seq<Attempt>, q: Request, from: nat, last: seq<int>, upto: nat)
    requires upto <= |Order(q)| && Retried(log, from, Order(q)[..upto], last)
    ensures LastWalk(log, q, from, last)
  {
    hide Order, Retried;
  }

  lemma WalkedNumbers(log: seq<Attempt>, q: Request, first: seq<int>, created: seq<int>, last: seq<int>)
    requires Walked(log, q, first, created, last)
    ensures Numbers(log) == first + created + last
  {
  }

  lemma Lengths(log: seq<Attempt>, first: seq<int>, created: seq<int>)
    requires Numbers(log) == first + created + []
    ensures |log| == |first| + |created|
  {
    assert |Numbers(log)| == |log|;
  }

  lemma Longer(log: seq<Attempt>, more: seq<Attempt>, last: seq<int>)
    requires Numbers(more) == Numbers(log) + last && last != []
    ensures |log| < |more|
  {
    assert |Numbers(log)| == |log| && |Numbers(more)| == |more|;
  }

  lemma WentThrough(log1: seq<Attempt>, log2: seq<Attempt>, log3: seq<Attempt>, q: Request, first: seq<int>, created: seq<int>, last: seq<int>, upto: nat)
    requires Numbers(log1) == first && Extends(log1, log2) && Extends(log2, log3) && Numbers(log2) == first + created
    requires Done(log1, q.count) || first == Matching(q.metas, q.want, q.existing)
    requires upto == |Order(q)| && Retried(log3, |log2|, Order(q)[..upto], last) && !Done(log3, q.count)
    ensures Finished(log3, q, first, created, last)
  {
    hide Done, Retried, Order, Numbers, Matching;
    if Done(log1, q.count) { DoneStays(log1, log3, q.count); }
    assert first + created + [] == first + created;
    Lengths(log2, first, created);
    assert Order(q)[..upto] == Order(q);
  }

  /** Success is exactly count distinct slots and no other flock; any failure
      leaves the caller holding none. */
  ghost predicate AllOrNothing(r: Result, log: seq<Attempt>, held: set<int>, count: nat) {
    if r.Acquired? then
      |r.slots| == count && Distinct(r.slots) && r.slots == Wins(log) && forall n :: n in held <==> n in r.slots
    else
      held == {}
  }

  /** What each failure other than an I/O error means. */
  ghost predicate Explained(r: Result, log: seq<Attempt>, q: Request, first: seq<int>, created: seq<int>, last: seq<int>) {
    && (r.AtUseCap? ==> log != [] && log[|log| - 1].claim == OverCap(r.uses))
    && (r.AtMemoryFloor? ==> r.refusals == Listing(log) && Heard(log, q, created) && DeclinedBy(log, q, first, created))
    && (r.AtCapacity? ==> r.refusals == Listing(log) && Heard(log, q, created))
    && (r.AtMemoryFloor? || r.AtCapacity? ==> |Wins(log)| < q.count && Finished(log, q, first, created, last))
    && (r.AtCapacity? ==> |Elements(q.existing) + Elements(created)| >= q.max)
  }

  method TryAcquireSlots(c: Call, groupMade: bool, q: Request)
      returns (r: Result, ghost first: seq<int>, ghost created: seq<int>, ghost last: seq<int>)
    requires c.Valid() && c.log == []
    modifies c
    ensures Honest(c.oracle, c.log) && Needed(c.log, q.count)
    ensures Walked(c.log, q, first, created, last)
    ensures AllOrNothing(r, c.log, c.held, q.count)
    ensures (r.IoError? <==> !groupMade || Errored(c.log)) && (!groupMade ==> c.log == [])
    ensures Explained(r, c.log, q, first, created, last)
  {
    r := IoError;
    NothingWalked(c, q);
    hide *;
    if !groupMade {
      first, created, last := [], [], [];
      c.ReleaseAll();
      GaveUp(c, q, first, created, last);
      return;
    }
    var failed, declined;
    failed, declined, first, created, last := Passes(c, q);
    if failed {
      BrokenHolds(c);
      c.ReleaseAll();
      GaveUp(c, q, first, created, last);
      return;
    }
    r := Conclude(c, q, declined, first, created, last);
  }

  lemma GaveUp(c: Call, q: Request, first: seq<int>, created: seq<int>, last: seq<int>)
    requires c.held == {}
    ensures AllOrNothing(IoError, c.log, c.held, q.count) && Explained(IoError, c.log, q, first, created, last)
  {
  }

  lemma NothingWalked(c: Call, q: Request)
    requires c.Valid() && c.log == []
    ensures Walked([], q, [], [], []) && Needed([], q.count) && Honest(c.oracle, []) && !Errored([]) && forall x :: x in c.held ==> x in c.acquired
  {
    assert Numbers([]) == [];
    WalkedFirst([], q, []);
  }

  lemma BrokenHolds(c: Call)
    requires Broken(c)
    ensures Errored(c.log) && Honest(c.oracle, c.log) && forall x :: x in c.held ==> x in c.acquired
  {
  }

  /** The end of the call: the slots, or the failure that says why not, with
      every slot it had given back. */
  method Conclude(c: Call, q: Request, declined: bool, ghost first: seq<int>, ghost created: seq<int>, ghost last: seq<int>) returns (r: Result)
    requires c.Valid() && Needed(c.log, q.count) && (declined ==> DeclinedBy(c.log, q, first, created))
    requires !Done(c.log, q.count) ==> Heard(c.log, q, created) && Finished(c.log, q, first, created, last)
    requires !Done(c.log, q.count) && !declined ==> |Elements(q.existing) + Elements(created)| >= q.max
    modifies c
    ensures c.log == old(c.log) && Honest(c.oracle, c.log) && !Errored(c.log)
    ensures AllOrNothing(r, c.log, c.held, q.count) && Explained(r, c.log, q, first, created, last) && !r.IoError?
  {
    hide Needed, Done, Wins, Refusals, Distinct, Indexed, Capped, Errored, Released, Heard, Elements, Finished, Honest, Matching, Retried, DeclinedBy;
    IsDone(c, q.count);
    NeverTooMany(c.log, q.count);
    assert c.acquired == Wins(c.log) && Distinct(c.acquired);
    if |c.acquired| < q.count {
      var refusals := c.refusals + GivenBack(c.acquired);
      r := if c.capped then AtUseCap(c.uses) else if declined then AtMemoryFloor(refusals) else AtCapacity(refusals);
      c.ReleaseAll();
    } else {
      r := Acquired(c.acquired);
    }
  }

  function GivenBack(ns: seq<int>): (rs: seq<Refusal>)
    ensures rs == Released(ns)
  {
    if ns == [] then [] else GivenBack(ns[..|ns| - 1]) + [TakenThenReleased(ns[|ns| - 1])]
  }

  lemma NeverTooMany(log: seq<Attempt>, count: nat)
    requires Needed(log, count)
    ensures |Wins(log)| <= count
  {
    if log != [] {
      assert |Wins(log[..|log| - 1])| < count;
    }
  }

  // ---------------------------------------------------------------- what the walk means

  /** Reconfiguring is the last resort: a resident slot that does not serve the
      request is only ever tried after every one that does was tried and taken
      or refused, and with the group at its cap, or the floor declining while
      enough resident slots could still serve. */
  lemma ReconfigureIsLastResort(log: seq<Attempt>, q: Request, first: seq<int>, created: seq<int>, last: seq<int>, i: nat)
    requires Walked(log, q, first, created, last) && i < |log|
    requires log[i].n in q.existing && !Serves(q.metas(log[i].n).capabilities, q.want)
    ensures |first| + |created| <= i
    ensures forall n :: n in q.existing && Serves(q.metas(n).capabilities, q.want) ==> Answered(log[..|first|], n)
    ensures FullOrDeclined(log[..|first|], q.existing, Elements(q.existing) + Elements(created), q.count, q.max, q.free, q.floor)
  {
    assert log[i].n == Numbers(log)[i] == (first + created + last)[i];
    NotEarlier(q, first, created, last, i);
    DispatchSplits(q.metas, q.want, q.existing);
    hide Answered, FullOrDeclined, Serves, LeastFree, Matching, Reconfigurable, Elements, Numbers, Declines;
  }

  /** A resident slot that does not serve comes in the last pass. */
  lemma NotEarlier(q: Request, first: seq<int>, created: seq<int>, last: seq<int>, i: nat)
    requires first <= Matching(q.metas, q.want, q.existing) && LeastFree(Elements(q.existing), created) && i < |first + created + last|
    requires (first + created + last)[i] in q.existing && !Serves(q.metas((first + created + last)[i]).capabilities, q.want)
    ensures |first| + |created| <= i
  {
    hide Serves;
    var all := first + created + last;
    DispatchSplits(q.metas, q.want, q.existing);
    forall k | 0 <= k < |first| ensures Serves(q.metas(all[k]).capabilities, q.want) {
      assert all[k] == first[k] == Matching(q.metas, q.want, q.existing)[k];
      assert first[k] in Matching(q.metas, q.want, q.existing);
    }
    forall k | |first| <= k < |first| + |created| ensures all[k] !in q.existing {
      assert all[k] == created[k - |first|] && created[k - |first|] !in Elements(q.existing);
    }
  }

  /** A queue the caller may wait in names every resident slot. */
  lemma HeardIsListed(log: seq<Attempt>, q: Request, created: seq<int>, n: int)
    requires Heard(log, q, created) && (n in q.existing || n in created)
    ensures exists i :: 0 <= i < |Listing(log)| && Listing(log)[i].number == n
  {
    assert Answered(log, n);
    RefusalsAre(log);
    var rs, ws := Refusals(log), Wins(log);
    if n in ws {
      var k :| 0 <= k < |ws| && ws[k] == n;
      assert Listing(log)[|rs| + k].number == n;
    } else {
      assert Listing(log)[Find(rs, n)] == rs[Find(rs, n)];
    }
  }
}
