/** Acquiring one slot for a lease key: sticky renewal, then the same passes as
    AcquirePasses, ending at the first slot that can be leased. */
module AcquireLease {
  import opened Wrappers
  import opened Sorting
  import opened Slim
  import opened Dispatch
  import opened Acquire
  import P = AcquirePasses

  /** What reading a slot's lease.json yields. */
  datatype LeaseRead = Unreadable | Read(key: string, alive: bool)

  datatype Result =
    | Given(slot: int, renewed: bool)
    | BadArgument
    | IoError
    | AtUseCap(uses: seq<int>)
    | AtCapacity(refusals: seq<Refusal>)

  datatype Request = Request(
    key: string, ttl: int, max: int,
    metas: Metas, want: seq<string>, existing: seq<int>,
    lease: int -> LeaseRead, rewrites: bool)

  const RETRIES: nat := 8

  ghost predicate AllRefused(log: seq<Attempt>) {
    forall i :: 0 <= i < |log| ==> Refused(log[i])
  }

  ghost function Entries(log: seq<Attempt>): seq<Refusal>
    requires AllRefused(log)
  {
    seq(|log|, i requires 0 <= i < |log| => Refusal(log[i].n, StateOf(log[i])))
  }

  /** What an attempt ends the call with, if it does. */
  function Verdict(a: Attempt, wrote: bool): Option<Result> {
    match a.claim
    case Failed => Some(IoError)
    case OverCap(uses) => Some(AtUseCap(uses))
    case Contended => None
    case Locked(_, _) => if Won(a) then Some(if wrote then Given(a.n, false) else IoError) else None
  }

  /** The last attempt of the log ended the call with r. */
  ghost predicate Ends(log: seq<Attempt>, wrote: nat -> bool, r: Result) {
    && log != [] && AllRefused(log[..|log| - 1])
    && Verdict(log[|log| - 1], wrote(|log| - 1)) == Some(r)
  }

  /** Since `start` the numbers `tried` were attempted, in that order. */
  ghost predicate Since(log: seq<Attempt>, start: seq<Attempt>, tried: seq<int>) {
    |start| <= |log| && log[..|start|] == start && P.Numbers(log[|start|..]) == tried
  }

  /** Every attempt since `start` was refused, and is listed after `base`. */
  ghost predicate ListedSince(log: seq<Attempt>, refusals: seq<Refusal>, start: seq<Attempt>, base: seq<Refusal>) {
    |start| <= |log| && AllRefused(log[|start|..]) && refusals == base + Entries(log[|start|..])
  }

  ghost predicate Answers(oracle: nat -> Claim, log: seq<Attempt>) {
    forall i :: 0 <= i < |log| ==> log[i].claim == oracle(i)
  }

  lemma OneMore(oracle: nat -> Claim, log: seq<Attempt>, wrote: nat -> bool, a: Attempt)
    requires Answers(oracle, log) && AllRefused(log) && a.claim == oracle(|log|)
    ensures var t := log + [a]; Answers(oracle, t) && t[|log|..] == [a]
    ensures match Verdict(a, wrote(|log|))
            case Some(r) => Ends(log + [a], wrote, r)
            case None => Refused(a) && AllRefused(log + [a]) && AllRefused([a]) && Entries([a]) == [Refusal(a.n, StateOf(a))]
  {
    var t := log + [a];
    assert t[..|t| - 1] == log && t[|log|..] == [a];
  }

  lemma AssocR(x: seq<Refusal>, y: seq<Refusal>, z: seq<Refusal>)
    ensures x + (y + z) == x + y + z
  {
  }

  class LeaseCall {
    const oracle: nat -> Claim
    const wrote: nat -> bool  // whether the lease write of attempt i succeeds
    ghost var log: seq<Attempt>
    var attempts: nat
    var held: set<int>
    var refusals: seq<Refusal>

    ghost predicate Valid()
      reads this
    {
      attempts == |log| && held == {} && AllRefused(log) && FromOracle()
    }

    ghost predicate FromOracle()
      reads this
    {
      Answers(oracle, log)
    }

    constructor (oracle: nat -> Claim, wrote: nat -> bool)
      ensures Valid() && log == [] && refusals == [] && this.oracle == oracle && this.wrote == wrote
    {
      this.oracle, this.wrote := oracle, wrote;
      log, attempts, held, refusals := [], 0, {}, [];
    }

    /** claimSlotForLease, and what the caller makes of it.  The flock is held
        across the checks and the lease write, and always released. */
    method ClaimForLease(n: int) returns (stop: Option<Result>)
      requires Valid()
      modifies this
      ensures log == old(log) + [Attempt(n, oracle(|old(log)|))] && FromOracle() && held == {}
      ensures stop.Some? ==> Ends(log, wrote, stop.value) && refusals == old(refusals)
      ensures stop.None? ==> Valid() && refusals == old(refusals) + Entries(log[|old(log)|..])
    {
      var c := oracle(attempts);
      ghost var a := Attempt(n, c);
      OneMore(oracle, log, wrote, a);
      hide Answers, AllRefused, Ends, Entries;
      log := log + [a];
      attempts := attempts + 1;
      match c {
        case Failed => return Some(IoError);
        case OverCap(uses) => return Some(AtUseCap(uses));
        case Contended => refusals := refusals + [Refusal(n, Busy)];
        case Locked(state, recovered) =>
          held := held + {n};
          if state.Free? || (state.Quarantined? && recovered) {
            var ok := WriteLease(n);
            held := held - {n};
            return Some(if ok then Given(n, false) else IoError);
          }
          held := held - {n};
          refusals := refusals + [Refusal(n, state)];
      }
      return None;
    }

    /** The lease of the slot claimed last, written under its flock. */
    method WriteLease(n: int) returns (ok: bool)
      requires n in held && attempts > 0
      ensures ok == wrote(attempts - 1)
    {
      ok := wrote(attempts - 1);
    }

    /** One more claim of a pass that began at `start`. */
    method ClaimNext(n: int, ghost start: seq<Attempt>, ghost tried: seq<int>, ghost base: seq<Refusal>) returns (stop: Option<Result>)
      requires Valid() && Since(log, start, tried)
      modifies this
      ensures Since(log, start, tried + [n]) && FromOracle() && held == {}
      ensures stop.Some? ==> Ends(log, wrote, stop.value)
      ensures stop.None? ==> Valid() && (old(ListedSince(log, refusals, start, base)) ==> ListedSince(log, refusals, start, base))
    {
      ghost var listed := ListedSince(log, refusals, start, base);
      ghost var before, k := log, |start|;
      stop := ClaimForLease(n);
      ghost var a := log[|before|];
      assert log[k..] == before[k..] + [a] && log[|before|..] == [a];
      P.NumbersGrow(before[k..], a);
      assert log[..k] == start;
      if stop.None? && listed {
        assert AllRefused(log[k..]) && Entries(log[k..]) == Entries(before[k..]) + Entries([a]);
        AssocR(base, Entries(before[k..]), Entries([a]));
      }
      hide Ends;
    }

    /** Claims ns in order until one ends the call. */
    method ClaimAll(ns: seq<int>) returns (stop: Option<Result>, ghost tried: seq<int>)
      requires Valid()
      modifies this
      ensures Since(log, old(log), tried) && tried <= ns && FromOracle() && held == {}
      ensures stop.Some? ==> Ends(log, wrote, stop.value)
      ensures stop.None? ==> Valid() && tried == ns && ListedSince(log, refusals, old(log), old(refusals))
    {
      Begin();
      hide Ends, AllRefused, Since, ListedSince;
      tried := [];
      for i := 0 to |ns|
        invariant Valid() && tried == ns[..i] && Since(log, old(log), tried) && ListedSince(log, refusals, old(log), old(refusals))
      {
        stop := ClaimNext(ns[i], old(log), tried, old(refusals));
        tried := tried + [ns[i]];
        if stop.Some? {
          return;
        }
      }
      return None, tried;
    }

    lemma Begin()
      ensures Since(log, log, []) && ListedSince(log, refusals, log, refusals)
    {
      assert log[|log|..] == [] && refusals + Entries([]) == refusals;
    }

    /** waitOutIdleShutdown: a slot whose simulator reap is shutting down is
        claimed again, a few times, while the deadline holds. */
    method WaitOut(n: int, w: Waiting, ghost start: seq<Attempt>, ghost tried: seq<int>) returns (stop: Option<Result>, ghost more: seq<int>)
      requires Valid() && Since(log, start, tried)
      modifies this
      ensures Since(log, start, tried + more) && FromOracle() && held == {} && Round(n, w, more)
      ensures stop.Some? ==> Ends(log, wrote, stop.value)
      ensures stop.None? ==> Valid() && WaitedOut(n, w, more)
    {
      more := [];
      assert tried + [] == tried;
      if !w.shuttingDown(n) {
        return None, more;
      }
      hide Ends, AllRefused, Since, ListedSince;
      var i := 0;
      while i < RETRIES && w.inTime(n, i)
        invariant 0 <= i == |more| <= RETRIES && Round(n, w, more)
        invariant Valid() && Since(log, start, tried + more)
      {
        stop := ClaimNext(n, start, tried + more, []);
        P.Assoc(tried, more, [n]);
        more := more + [n];
        if stop.Some? {
          return;
        }
        i := i + 1;
      }
      return None, more;
    }

    /** New slot numbers, while the group is under its cap. */
    method CreateAll(existing: set<int>, max: nat) returns (stop: Option<Result>, resident: set<int>, ghost created: seq<int>)
      requires Valid()
      modifies this
      ensures Since(log, old(log), created) && P.Grown(existing, created, resident, max) && FromOracle() && held == {}
      ensures stop.Some? ==> Ends(log, wrote, stop.value)
      ensures stop.None? ==> Valid() && |resident| >= max && ListedSince(log, refusals, old(log), old(refusals))
    {
      Begin();
      created, resident := [], existing;
      P.GrownNone(existing, max);
      hide P.Grown, P.Below, Ends, AllRefused, Since, ListedSince;
      var next := 0;
      while |resident| < max
        invariant Valid() && Since(log, old(log), created) && ListedSince(log, refusals, old(log), old(refusals))
        invariant P.Grown(existing, created, resident, max) && P.Below(resident, next)
        decreases max - |resident|
      {
        next := P.FirstFree(resident, next);
        P.GrownMore(existing, created, resident, max, next);
        P.BelowMore(resident, next);
        stop := ClaimNext(next, old(log), created, old(refusals));
        resident, created := resident + {next}, created + [next];
        if stop.Some? {
          return;
        }
        next := next + 1;
      }
      return None, resident, created;
    }

    /** Before creating a slot: the busy ones that are only being shut down. */
    method RetryAll(refused: seq<Refusal>, w: Waiting) returns (stop: Option<Result>, ghost tried: seq<int>)
      requires Valid() && refusals == refused
      modifies this
      ensures Since(log, old(log), tried) && Rounds(refused, w, tried) && FromOracle() && held == {}
      ensures stop.Some? ==> Ends(log, wrote, stop.value)
      ensures stop.None? ==> Valid() && refusals == refused && AllWaitedOut(refused, w, tried)
    {
      Begin();
      RoundsNone(refused, w);
      hide Ends, AllRefused, Since, ListedSince, Rounds, AllWaitedOut, WaitedOut, Round;
      tried := [];
      for i := 0 to |refused|
        invariant Valid() && refusals == refused
        invariant Since(log, old(log), tried) && Rounds(refused[..i], w, tried) && AllWaitedOut(refused[..i], w, tried)
      {
        var r := refused[i];
        ghost var more := [];
        stop := None;
        assert tried + [] == tried;
        if r.Refusal? && r.state.Busy? {
          stop, more := WaitOut(r.number, w, old(log), tried);
          refusals := refused;
        }
        NoRound(r.number, w);
        RoundsMore(refused, i, w, tried, more);
        if stop.None? { WaitedOutMore(refused, i, w, tried, more); }
        tried := tried + more;
        if stop.Some? {
          RoundsLeft(refused, i + 1, w, tried);
          return;
        }
      }
      assert refused[..|refused|] == refused;
      return None, tried;
    }
  }

  /** What waiting for an idle shutdown depends on. */
  datatype Waiting = Waiting(shuttingDown: int -> bool, inTime: (int, nat) -> bool)

  ghost predicate Round(n: int, w: Waiting, tried: seq<int>) {
    && |tried| <= 8 && (tried != [] ==> w.shuttingDown(n))
    && forall i :: 0 <= i < |tried| ==> tried[i] == n && w.inTime(n, i)
  }

  /** A slot being shut down was claimed again until the time ran out or eight
      claims had been made; any other was not. */
  ghost predicate WaitedOut(n: int, w: Waiting, tried: seq<int>) {
    Round(n, w, tried) && (w.shuttingDown(n) ==> |tried| == 8 || !w.inTime(n, |tried|))
  }

  /** So for every slot refused as busy, in order, and for no other. */
  ghost predicate AllWaitedOut(refused: seq<Refusal>, w: Waiting, tried: seq<int>) {
    if refused == [] then tried == []
    else
      var r := refused[|refused| - 1];
      exists k :: 0 <= k <= |tried| && AllWaitedOut(refused[..|refused| - 1], w, tried[..k])
        && if r.Refusal? && r.state.Busy? then WaitedOut(r.number, w, tried[k..]) else tried[k..] == []
  }

  lemma NoRound(n: int, w: Waiting)
    ensures Round(n, w, [])
  {
  }

  lemma WaitedOutMore(refused: seq<Refusal>, i: nat, w: Waiting, tried: seq<int>, more: seq<int>)
    requires i < |refused| && AllWaitedOut(refused[..i], w, tried)
    requires var r := refused[i]; if r.Refusal? && r.state.Busy? then WaitedOut(r.number, w, more) else more == []
    ensures AllWaitedOut(refused[..i + 1], w, tried + more)
  {
    hide WaitedOut;
    var rs := refused[..i + 1];
    assert rs[..i] == refused[..i] && rs[i] == refused[i];
    assert (tried + more)[..|tried|] == tried && (tried + more)[|tried|..] == more;
  }

  /** The retries, slot by slot: only slots refused as busy whose simulator is
      being shut down, each at most eight times. */
  ghost predicate Rounds(refused: seq<Refusal>, w: Waiting, tried: seq<int>) {
    if refused == [] then tried == []
    else
      var r := refused[|refused| - 1];
      exists k :: 0 <= k <= |tried| && Round(r.number, w, tried[k..]) && (k < |tried| ==> r.Refusal? && r.state.Busy?)
        && Rounds(refused[..|refused| - 1], w, tried[..k])
  }

  lemma RoundsNone(refused: seq<Refusal>, w: Waiting)
    ensures Rounds(refused[..0], w, []) && AllWaitedOut(refused[..0], w, [])
  {
    assert refused[..0] == [];
  }

  lemma RoundsMore(refused: seq<Refusal>, i: nat, w: Waiting, tried: seq<int>, more: seq<int>)
    requires i < |refused| && Rounds(refused[..i], w, tried)
    requires Round(refused[i].number, w, more) && (more != [] ==> refused[i].Refusal? && refused[i].state.Busy?)
    ensures Rounds(refused[..i + 1], w, tried + more)
  {
    var rs := refused[..i + 1];
    assert rs[..i] == refused[..i] && rs[i] == refused[i];
    assert (tried + more)[..|tried|] == tried && (tried + more)[|tried|..] == more;
  }

  lemma {:induction false} RoundsLeft(refused: seq<Refusal>, i: nat, w: Waiting, tried: seq<int>)
    requires i <= |refused| && Rounds(refused[..i], w, tried)
    ensures Rounds(refused, w, tried)
    decreases |refused| - i
  {
    if i < |refused| {
      RoundsMore(refused, i, w, tried, []);
      assert tried + [] == tried;
      RoundsLeft(refused, i + 1, w, tried);
    } else {
      assert refused[..i] == refused;
    }
  }

  // ---------------------------------------------------------------- the whole call

  /** The slot number of a live lease under the caller's own key. */
  predicate Own(q: Request, n: int) {
    q.lease(n) == Read(q.key, true)
  }

  method Renewal(q: Request) returns (n: Option<int>)
    ensures n.Some? ==> n.value in q.existing && Own(q, n.value)
    ensures n.None? ==> forall m :: m in q.existing ==> !Own(q, m)
  {
    for i := 0 to |q.existing|
      invariant forall k :: 0 <= k < i ==> !Own(q, q.existing[k])
    {
      var r := q.lease(q.existing[i]);
      if r.Read? && r.key == q.key && r.alive {
        return Some(q.existing[i]);
      }
    }
    return None;
  }

  /** The passes in order.  Every attempt before the last was refused, so each
      pass begins only when all of the one before it was. */
  ghost predicate Walked(log: seq<Attempt>, q: Request, w: Waiting, first: seq<int>, retries: seq<int>, created: seq<int>, last: seq<int>) {
    && P.Numbers(log) == first + retries + created + last
    && |first| <= |log| && Ordered(log[..|first|], q, w, first, retries, created, last)
  }

  /** log is the first pass's. */
  ghost predicate Ordered(log: seq<Attempt>, q: Request, w: Waiting, first: seq<int>, retries: seq<int>, created: seq<int>, last: seq<int>) {
    var matching := Matching(q.metas, q.want, q.existing);
    var resident := Elements(q.existing) + Elements(created);
    && first <= matching
    && (retries != [] || created != [] || last != [] ==> first == matching)
    && (retries != [] ==> AllRefused(log) && Rounds(Entries(log), w, retries))
    && (created != [] || last != [] ==> AllRefused(log) && AllWaitedOut(Entries(log), w, retries))
    && P.LeastFree(Elements(q.existing), created) && (created != [] ==> |resident| <= q.max)
    && last <= Reconfigurable(q.metas, q.want, q.existing) && (last != [] ==> |resident| >= q.max)
  }

  ghost predicate Sticky(q: Request) {
    exists n :: n in q.existing && Own(q, n)
  }

  /** A full group has refused every resident slot, and each is listed once:
      the retries of a slot that was being shut down are not. */
  ghost predicate Full(log: seq<Attempt>, q: Request, first: seq<int>, retries: seq<int>, created: seq<int>, last: seq<int>, refusals: seq<Refusal>) {
    && AllRefused(log)
    && |Elements(q.existing) + Elements(created)| >= q.max
    && first == Matching(q.metas, q.want, q.existing) && last == Reconfigurable(q.metas, q.want, q.existing)
    && |first| + |retries| <= |log|
    && refusals == Entries(log[..|first|]) + Entries(log[|first| + |retries|..])
  }

  lemma FirstWalked(log: seq<Attempt>, q: Request, w: Waiting, first: seq<int>)
    requires Since(log, [], first) && first <= Matching(q.metas, q.want, q.existing)
    ensures Walked(log, q, w, first, [], [], [])
  {
    Units(first, [], []);
    assert log[0..] == log;
    assert Elements<int>([]) == {};
  }

  lemma Units(a: seq<int>, b: seq<int>, c: seq<int>)
    ensures a + [] + [] + [] == a && a + b + [] + [] == a + b && a + b + c + [] == a + b + c
  {
  }

  lemma Extended(log: seq<Attempt>, more: seq<Attempt>, k: nat, ns: seq<int>)
    requires Since(more, log, ns) && k <= |log|
    ensures P.Numbers(more) == P.Numbers(log) + ns && k <= |more| && more[..k] == log[..k]
  {
    assert more == log + more[|log|..];
  }

  lemma RetriesWalked(log1: seq<Attempt>, log2: seq<Attempt>, q: Request, w: Waiting, first: seq<int>, retries: seq<int>)
    requires Walked(log1, q, w, first, [], [], []) && first == Matching(q.metas, q.want, q.existing) && AllRefused(log1)
    requires Since(log2, log1, retries) && Rounds(Entries(log1), w, retries)
    ensures Walked(log2, q, w, first, retries, [], [])
  {
    Units(first, retries, []);
    assert |P.Numbers(log1)| == |log1| && log1[..|log1|] == log1;
    Extended(log1, log2, |log1|, retries);
    hide Matching, Reconfigurable, P.LeastFree, Rounds, AllRefused, Since;
  }

  lemma RetriesWaitedOut(log1: seq<Attempt>, log2: seq<Attempt>, w: Waiting, first: seq<int>, retries: seq<int>)
    requires Since(log2, log1, retries) && P.Numbers(log1) == first && AllRefused(log1) && AllWaitedOut(Entries(log1), w, retries)
    ensures |first| <= |log2| && log2[..|first|] == log1 && WaitedFor(log2, w, first, retries)
  {
    hide AllWaitedOut;
    assert |P.Numbers(log1)| == |log1|;
  }

  /** The busy slots of the first pass have been waited out. */
  ghost predicate WaitedFor(log: seq<Attempt>, w: Waiting, first: seq<int>, retries: seq<int>) {
    |first| <= |log| && AllRefused(log[..|first|]) && AllWaitedOut(Entries(log[..|first|]), w, retries)
  }

  lemma CreatedWalked(log2: seq<Attempt>, log3: seq<Attempt>, q: Request, w: Waiting, first: seq<int>, retries: seq<int>, created: seq<int>, resident: set<int>)
    requires Walked(log2, q, w, first, retries, [], []) && first == Matching(q.metas, q.want, q.existing)
    requires Since(log3, log2, created) && q.max >= 0 && P.Grown(Elements(q.existing), created, resident, q.max)
    requires WaitedFor(log2, w, first, retries)
    ensures Walked(log3, q, w, first, retries, created, []) && WaitedFor(log3, w, first, retries)
  {
    Units(first, retries, created);
    Extended(log2, log3, |first|, created);
    hide Matching, Reconfigurable, P.LeastFree, Rounds, AllRefused, Since, P.Numbers, Elements, AllWaitedOut, Entries;
  }

  lemma LastWalked(log3: seq<Attempt>, log4: seq<Attempt>, q: Request, w: Waiting, first: seq<int>, retries: seq<int>, created: seq<int>, last: seq<int>)
    requires Walked(log3, q, w, first, retries, created, []) && first == Matching(q.metas, q.want, q.existing)
    requires Since(log4, log3, last) && last <= Reconfigurable(q.metas, q.want, q.existing)
    requires |Elements(q.existing) + Elements(created)| >= q.max && WaitedFor(log3, w, first, retries)
    ensures Walked(log4, q, w, first, retries, created, last) && WaitedFor(log4, w, first, retries)
  {
    Units(first, retries, created);
    Extended(log3, log4, |first|, last);
    hide Matching, Reconfigurable, P.LeastFree, Rounds, AllRefused, Since, P.Numbers, Elements, AllWaitedOut, Entries;
  }

  lemma ListedFirst(log: seq<Attempt>, refusals: seq<Refusal>)
    requires ListedSince(log, refusals, [], [])
    ensures AllRefused(log) && refusals == Entries(log)
  {
    assert log[0..] == log && [] + Entries(log) == Entries(log);
  }

  lemma ListedWhole(log1: seq<Attempt>, log2: seq<Attempt>, log3: seq<Attempt>, log4: seq<Attempt>, retries: seq<int>, created: seq<int>, r1: seq<Refusal>, r3: seq<Refusal>, r4: seq<Refusal>, last: seq<int>)
    requires AllRefused(log1) && r1 == Entries(log1)
    requires Since(log2, log1, retries) && Since(log3, log2, created)
    requires ListedSince(log3, r3, log2, r1) && ListedSince(log4, r4, log3, r3) && AllRefused(log4) && Since(log4, log3, last)
    ensures |log1| + |retries| <= |log4| && log4[..|log1|] == log1
    ensures r4 == Entries(log1) + Entries(log4[|log1| + |retries|..])
  {
    assert |log2| == |log1| + |retries| by { assert |P.Numbers(log2[|log1|..])| == |retries|; }
    assert log4[|log2|..] == log3[|log2|..] + log4[|log3|..];
    assert Entries(log4[|log2|..]) == Entries(log3[|log2|..]) + Entries(log4[|log3|..]);
    AssocR(r1, Entries(log3[|log2|..]), Entries(log4[|log3|..]));
    assert log4[..|log1|] == log3[..|log1|] == log2[..|log1|];
  }

  lemma IsFull(log: seq<Attempt>, q: Request, first: seq<int>, retries: seq<int>, created: seq<int>, last: seq<int>, refusals: seq<Refusal>, log1: seq<Attempt>)
    requires AllRefused(log) && AllRefused(log1) && |log1| + |retries| <= |log| && log[..|log1|] == log1 && P.Numbers(log1) == first
    requires first == Matching(q.metas, q.want, q.existing) && last == Reconfigurable(q.metas, q.want, q.existing)
    requires |Elements(q.existing) + Elements(created)| >= q.max
    requires refusals == Entries(log1) + Entries(log[|log1| + |retries|..])
    ensures Full(log, q, first, retries, created, last, refusals)
  {
    assert |P.Numbers(log1)| == |log1|;
  }

  method AcquireLease(c: LeaseCall, groupMade: bool, q: Request, w: Waiting)
      returns (r: Result, ghost first: seq<int>, ghost retries: seq<int>, ghost created: seq<int>, ghost last: seq<int>)
    requires c.Valid() && c.log == [] && c.refusals == []
    modifies c
    ensures c.held == {} && c.FromOracle()
    ensures Walked(c.log, q, w, first, retries, created, last)
    ensures r.BadArgument? <==> q.key == "" || q.ttl <= 0 || q.max < 1
    ensures !r.BadArgument? && !groupMade ==> r == IoError && c.log == []
    ensures c.log != [] && !r.AtCapacity? ==> Ends(c.log, c.wrote, r)
    // sticky: a live lease of the key's own is renewed, and nothing is claimed
    ensures Sticky(q) && !r.BadArgument? && groupMade ==>
              c.log == [] && (if q.rewrites then r.Given? && r.renewed && r.slot in q.existing && Own(q, r.slot) else r.IoError?)
    ensures r.AtCapacity? ==> Full(c.log, q, first, retries, created, last, r.refusals) && WaitedFor(c.log, w, first, retries)
  {
    first, retries, created, last := [], [], [], [];
    NothingYet(c, q, w);
    if q.key == "" || q.ttl <= 0 || q.max < 1 {
      return BadArgument, first, retries, created, last;
    }
    if !groupMade {
      return IoError, first, retries, created, last;
    }
    var own := Renewal(q);
    if own.Some? {
      r := if q.rewrites then Given(own.value, true) else IoError;
      return;
    }
    r, first, retries, created, last := Claims(c, q, w);
  }

  lemma NothingYet(c: LeaseCall, q: Request, w: Waiting)
    requires c.Valid() && c.log == []
    ensures Walked([], q, w, [], [], [], [])
  {
    FirstWalked([], q, w, []);
  }

  /** The four passes over a group where this key holds no live lease. */
  method Claims(c: LeaseCall, q: Request, w: Waiting)
      returns (r: Result, ghost first: seq<int>, ghost retries: seq<int>, ghost created: seq<int>, ghost last: seq<int>)
    requires c.Valid() && c.log == [] && c.refusals == [] && q.max >= 1
    modifies c
    ensures c.held == {} && c.FromOracle() && !r.BadArgument?
    ensures Walked(c.log, q, w, first, retries, created, last)
    ensures !r.AtCapacity? ==> Ends(c.log, c.wrote, r)
    ensures r.AtCapacity? ==> Full(c.log, q, first, retries, created, last, r.refusals) && WaitedFor(c.log, w, first, retries)
  {
    retries, created, last := [], [], [];
    var matching, reconfigurable := DispatchOrder(q.metas, q.want, q.existing);
    var stop;
    stop, first := c.ClaimAll(matching);
    ghost var log1, r1 := c.log, c.refusals;
    FirstWalked(log1, q, w, first);
    if stop.Some? {
      EndsSomehow(c.log, c.wrote, stop.value);
      return stop.value, first, retries, created, last;
    }
    ListedFirst(log1, r1);
    hide Walked, Ends, Full, Rounds, Matching, Reconfigurable, P.Grown, Elements, Since, ListedSince, AllRefused, AllWaitedOut, WaitedFor;
    stop, retries := c.RetryAll(c.refusals, w);
    ghost var log2 := c.log;
    RetriesWalked(log1, log2, q, w, first, retries);
    if stop.Some? {
      EndsSomehow(c.log, c.wrote, stop.value);
      return stop.value, first, retries, created, last;
    }
    RetriesWaitedOut(log1, log2, w, first, retries);
    r, created, last := ClaimsAfter(c, q, w, reconfigurable, log1, first, retries);
  }

  /** The passes that cost a boot or a reconfigure. */
  method ClaimsAfter(c: LeaseCall, q: Request, ghost w: Waiting, reconfigurable: seq<int>, ghost log1: seq<Attempt>, ghost first: seq<int>, ghost retries: seq<int>)
      returns (r: Result, ghost created: seq<int>, ghost last: seq<int>)
    requires c.Valid() && q.max >= 1 && reconfigurable == Reconfigurable(q.metas, q.want, q.existing)
    requires first == Matching(q.metas, q.want, q.existing) && P.Numbers(log1) == first && Since(c.log, log1, retries)
    requires Walked(c.log, q, w, first, retries, [], []) && AllRefused(log1) && c.refusals == Entries(log1)
    requires WaitedFor(c.log, w, first, retries)
    modifies c
    ensures c.held == {} && c.FromOracle() && !r.BadArgument?
    ensures Walked(c.log, q, w, first, retries, created, last) && WaitedFor(c.log, w, first, retries)
    ensures !r.AtCapacity? ==> Ends(c.log, c.wrote, r)
    ensures r.AtCapacity? ==> Full(c.log, q, first, retries, created, last, r.refusals)
  {
    hide *;
    last := [];
    ghost var log2 := c.log;
    var stop, resident;
    stop, resident, created := c.CreateAll(Elements(q.existing), q.max);
    ghost var log3, r3 := c.log, c.refusals;
    CreatedWalked(log2, log3, q, w, first, retries, created, resident);
    if stop.Some? {
      EndsSomehow(log3, c.wrote, stop.value);
      return stop.value, created, last;
    }
    CreatedResident(q, created, resident);
    stop, last := c.ClaimAll(reconfigurable);
    LastWalked(log3, c.log, q, w, first, retries, created, last);
    if stop.Some? {
      EndsSomehow(c.log, c.wrote, stop.value);
      return stop.value, created, last;
    }
    AllWereRefused(c);
    ListedWhole(log1, log2, log3, c.log, retries, created, Entries(log1), r3, c.refusals, last);
    IsFull(c.log, q, first, retries, created, last, c.refusals, log1);
    r := AtCapacity(c.refusals);
  }

  lemma EndsSomehow(log: seq<Attempt>, wrote: nat -> bool, r: Result)
    requires Ends(log, wrote, r)
    ensures !r.BadArgument? && !r.AtCapacity?
  {
  }

  lemma CreatedResident(q: Request, created: seq<int>, resident: set<int>)
    requires q.max >= 0 && P.Grown(Elements(q.existing), created, resident, q.max)
    ensures resident == Elements(q.existing) + Elements(created)
  {
  }

  lemma AllWereRefused(c: LeaseCall)
    requires c.Valid()
    ensures AllRefused(c.log)
  {
  }

  // ---------------------------------------------------------------- what the walk means

  /** Where an element of the whole walk comes from. */
  lemma Part(a: seq<int>, b: seq<int>, c: seq<int>, d: seq<int>, i: nat)
    requires i < |a + b + c + d|
    ensures var x := (a + b + c + d)[i]; x in a || x in b || x in c || x in d
    ensures i < |a| ==> (a + b + c + d)[i] in a
  {
  }

  lemma FirstNumbers(log: seq<Attempt>, first: seq<int>, rest: seq<int>)
    requires P.Numbers(log) == first + rest
    ensures |first| <= |log| && P.Numbers(log[..|first|]) == first && P.Numbers(log[|first|..]) == rest
  {
    assert |P.Numbers(log)| == |log|;
    assert P.Numbers(log[..|first|]) == P.Numbers(log)[..|first|] == first;
    assert P.Numbers(log[|first|..]) == P.Numbers(log)[|first|..] == rest;
  }

  lemma Regroup(a: seq<int>, b: seq<int>, c: seq<int>, d: seq<int>)
    ensures a + b + c + d == a + (b + c + d) && a + b + c + d == (a + b) + (c + d)
  {
  }

  /** The retries are of slots tried in the first pass. */
  lemma {:induction false} RetriesWereTried(log: seq<Attempt>, w: Waiting, retries: seq<int>, n: int)
    requires AllRefused(log) && Rounds(Entries(log), w, retries) && n in retries
    ensures n in P.Numbers(log) && w.shuttingDown(n)
  {
    hide Rounds, AllRefused;
    var i := RetryOf(Entries(log), w, retries, n);
    assert P.Numbers(log)[i] == n;
  }

  /** The refusal a retry answers. */
  lemma {:induction false} RetryOf(rs: seq<Refusal>, w: Waiting, retries: seq<int>, n: int) returns (i: nat)
    requires Rounds(rs, w, retries) && n in retries
    ensures i < |rs| && rs[i].Refusal? && rs[i].number == n && rs[i].state.Busy? && w.shuttingDown(n)
    decreases |rs|
  {
    var e := |rs| - 1;
    var k :| 0 <= k <= |retries| && Round(rs[e].number, w, retries[k..]) && (k < |retries| ==> rs[e].Refusal? && rs[e].state.Busy?)
      && Rounds(rs[..e], w, retries[..k]);
    assert retries == retries[..k] + retries[k..];
    if n in retries[..k] {
      i := RetryOf(rs[..e], w, retries[..k], n);
    } else {
      i := e;
    }
  }

  lemma TriedServe(q: Request, first: seq<int>)
    requires first <= Matching(q.metas, q.want, q.existing)
    ensures forall n :: n in first ==> Serves(q.metas(n).capabilities, q.want)
  {
    DispatchSplits(q.metas, q.want, q.existing);
    forall n | n in first ensures n in Matching(q.metas, q.want, q.existing) {}
  }

  /** A lease, too, takes a slot that does not serve the request only after
      every slot that does was tried and refused, with the group at its cap. */
  lemma ReconfigureIsLastResort(log: seq<Attempt>, q: Request, w: Waiting, first: seq<int>, retries: seq<int>, created: seq<int>, last: seq<int>, i: nat)
    requires Walked(log, q, w, first, retries, created, last) && i < |log| && AllRefused(log[..|log| - 1])
    requires log[i].n in q.existing && !Serves(q.metas(log[i].n).capabilities, q.want)
    ensures |first| <= i && AllRefused(log[..|first|])
    ensures forall n :: n in q.existing && Serves(q.metas(n).capabilities, q.want) ==> n in P.Numbers(log[..|first|])
    ensures |Elements(q.existing) + Elements(created)| >= q.max
  {
    assert log[i].n == P.Numbers(log)[i];
    Regroup(first, retries, created, last);
    FirstNumbers(log, first, retries + created + last);
    ServingIsNotLast(log[..|first|], q, w, first, retries, created, last, i);
    assert Ordered(log[..|first|], q, w, first, retries, created, last);
    AllServingTried(log[..|first|], q, w, first, retries, created, last);
    PrefixRefused(log, |first|);
    hide *;
  }

  lemma PrefixRefused(log: seq<Attempt>, k: nat)
    requires log != [] && AllRefused(log[..|log| - 1]) && k < |log|
    ensures AllRefused(log[..k])
  {
    forall i | 0 <= i < k ensures Refused(log[..k][i]) { assert log[..k][i] == log[..|log| - 1][i]; }
  }

  lemma AllServingTried(log: seq<Attempt>, q: Request, w: Waiting, first: seq<int>, retries: seq<int>, created: seq<int>, last: seq<int>)
    requires Ordered(log, q, w, first, retries, created, last) && last != []
    ensures forall n :: n in q.existing && Serves(q.metas(n).capabilities, q.want) ==> n in first
    ensures |Elements(q.existing) + Elements(created)| >= q.max
  {
    DispatchSplits(q.metas, q.want, q.existing);
    hide Serves, P.LeastFree, Rounds, Matching, Reconfigurable, Elements, AllRefused;
  }

  lemma ServingIsNotLast(log: seq<Attempt>, q: Request, w: Waiting, first: seq<int>, retries: seq<int>, created: seq<int>, last: seq<int>, i: nat)
    requires P.Numbers(log) == first && Ordered(log, q, w, first, retries, created, last) && i < |first + retries + created + last|
    requires var n := (first + retries + created + last)[i]; n in q.existing && !Serves(q.metas(n).capabilities, q.want)
    ensures |first| <= i && last != []
  {
    Part(first, retries, created, last, i);
    TriedServe(q, first);
    forall n | n in retries ensures n in first { RetriesWereTried(log, w, retries, n); }
    NotExisting(q, created);
    hide *;
  }

  lemma NotExisting(q: Request, created: seq<int>)
    requires P.LeastFree(Elements(q.existing), created)
    ensures forall n :: n in created ==> n !in q.existing
  {
    forall n | n in created ensures n !in q.existing {
      var k :| 0 <= k < |created| && created[k] == n;
      assert created[k] !in Elements(q.existing);
    }
  }

  ghost function RefusedNumbers(rs: seq<Refusal>): seq<int> {
    seq(|rs|, i requires 0 <= i < |rs| => rs[i].number)
  }

  /** A full group's listing names every resident slot, once, in the order of
      the passes. */
  lemma FullListsAll(log: seq<Attempt>, q: Request, w: Waiting, first: seq<int>, retries: seq<int>, created: seq<int>, last: seq<int>, rs: seq<Refusal>)
    requires Walked(log, q, w, first, retries, created, last) && Full(log, q, first, retries, created, last, rs)
    ensures RefusedNumbers(rs) == first + (created + last)
    ensures forall n :: n in q.existing || n in created ==> n in RefusedNumbers(rs)
    ensures Distinct(q.existing) ==> Distinct(RefusedNumbers(rs))
  {
    hide Distinct, Matching, Reconfigurable, P.LeastFree, P.Numbers, Elements, Entries, AllRefused;
    Regroup(first, retries, created, last);
    FirstNumbers(log, first, retries + created + last);
    FirstNumbers(log, first + retries, created + last);
    EntriesNumber(log, |first|, |first| + |retries|, rs);
    ResidentListed(q, first, created, last);
    if Distinct(q.existing) { ListedDistinct(q, first, created, last); }
  }

  lemma EntriesNumber(log: seq<Attempt>, k: nat, m: nat, rs: seq<Refusal>)
    requires AllRefused(log) && k <= |log| && m <= |log| && rs == Entries(log[..k]) + Entries(log[m..])
    ensures RefusedNumbers(rs) == P.Numbers(log[..k]) + P.Numbers(log[m..])
  {
  }

  lemma ResidentListed(q: Request, first: seq<int>, created: seq<int>, last: seq<int>)
    requires first == Matching(q.metas, q.want, q.existing) && last == Reconfigurable(q.metas, q.want, q.existing)
    ensures forall n :: n in q.existing || n in created ==> n in first + (created + last)
  {
    DispatchSplits(q.metas, q.want, q.existing);
    hide Serves, Matching, Reconfigurable;
  }

  lemma ListedDistinct(q: Request, first: seq<int>, created: seq<int>, last: seq<int>)
    requires first == Matching(q.metas, q.want, q.existing) && last == Reconfigurable(q.metas, q.want, q.existing)
    requires P.LeastFree(Elements(q.existing), created) && Distinct(q.existing)
    ensures Distinct(first + (created + last))
  {
    DispatchDistinct(q.metas, q.want, q.existing);
    DispatchSplits(q.metas, q.want, q.existing);
    NotExisting(q, created);
    assert Distinct(created) by {
      forall i, j | 0 <= i < j < |created| ensures created[i] != created[j] { assert created[j] !in created[..j]; }
    }
    hide Serves, P.LeastFree, Matching, Reconfigurable;
    DistinctMiddle(first, created, last);
  }

  lemma DistinctMiddle(a: seq<int>, b: seq<int>, c: seq<int>)
    requires Distinct(a + c) && Distinct(b) && forall n :: n in b ==> n !in a && n !in c
    ensures Distinct(a + (b + c))
  {
    var t, u := a + (b + c), a + c;
    forall i, j | 0 <= i < j < |t| ensures t[i] != t[j] {
      if i < |a| && j < |a| { assert u[i] != u[j]; }
      else if i < |a| && j >= |a| + |b| { assert u[i] != u[j - |b|]; }
      else if i >= |a| + |b| { assert u[i - |b|] != u[j - |b|]; }
      else if i < |a| { assert t[j] == b[j - |a|] && b[j - |a|] in b && a[i] in a; }
      else if j < |a| + |b| { assert b[i - |a|] != b[j - |a|]; }
      else { assert b[i - |a|] in b && c[j - |a| - |b|] in c; }
    }
  }
}
