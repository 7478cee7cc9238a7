/** What an acquisition's outcomes come to, in terms of the claims alone. */
module AcquireMeaning {
  import opened Wrappers
  import opened Sorting
  import opened Slim
  import opened Dispatch
  import opened Acquire
  import opened AcquirePasses

  /** Attempt i got the flock of a slot that was free, or whose left-behind
      consumer was got rid of. */
  predicate TookAt(log: seq<Attempt>, i: nat)
    requires i < |log|
  {
    log[i].claim.Locked? && (log[i].claim.state == Free || (log[i].claim.state == Quarantined && log[i].claim.recovered))
  }

  /** Attempt i found the flock held, or the slot not to be had. */
  predicate RefusedAt(log: seq<Attempt>, i: nat)
    requires i < |log|
  {
    log[i].claim.Contended? || (log[i].claim.Locked? && !TookAt(log, i))
  }

  ghost function Taken(log: seq<Attempt>): set<int> {
    set i: nat | i < |log| && TookAt(log, i) :: log[i].n
  }

  lemma WinsMean(log: seq<Attempt>, n: int)
    ensures n in Wins(log) <==> n in Taken(log)
  {
    WinsAre(log, n);
  }

  lemma RefusalMeans(a: Attempt)
    ensures Refused(a) <==> RefusedAt([a], 0)
    ensures Refused(a) ==> StateOf(a) == if a.claim.Contended? then Busy else a.claim.state
  {
  }

  /** A successful call hands over exactly the slots whose claims succeeded. */
  lemma AcquiredMeans(r: Result, log: seq<Attempt>, held: set<int>, count: nat)
    requires AllOrNothing(r, log, held, count) && r.Acquired?
    ensures |r.slots| == count && held == Taken(log) && forall n :: n in r.slots <==> n in Taken(log)
  {
    forall n ensures n in r.slots <==> n in Taken(log) { WinsMean(log, n); }
    forall n ensures n in held <==> n in Taken(log) {}
    assert held == Taken(log);
    hide Taken, Wins;
  }

  /** A slot is never taken twice by one call. */
  lemma {:induction false} TakenOnce(oracle: Oracle, log: seq<Attempt>)
    requires Honest(oracle, log)
    ensures Distinct(Wins(log))
    ensures |Wins(log)| == |Taken(log)|
  {
    HonestDistinct(oracle, log);
    DistinctSize(Wins(log));
    forall n ensures n in Wins(log) <==> n in Taken(log) { WinsMean(log, n); }
    assert Elements(Wins(log)) == Taken(log);
  }

  lemma {:induction false} HonestDistinct(oracle: Oracle, log: seq<Attempt>)
    requires Honest(oracle, log)
    ensures Distinct(Wins(log))
  {
    if log != [] {
      var init, a := log[..|log| - 1], log[|log| - 1];
      assert forall i :: 0 <= i < |init| ==> init[..i] == log[..i] && init[i] == log[i];
      HonestDistinct(oracle, init);
      assert log == init + [a] && log[..|log| - 1] == init;
      LogGrows(init, a);
      DistinctSnoc(Wins(init), a.n);
    }
  }

  // ---------------------------------------------------------------- the memory floor

  /** n was not taken, and the last time it was refused, if it was, somebody was
      at work on it: its flock was held, or it was under a live lease. */
  ghost predicate WorthWaitingFor(log: seq<Attempt>, n: int) {
    && n !in Taken(log)
    && forall i: nat :: i < |log| && LastRefusalAt(log, n, i) ==>
         log[i].claim.Contended? || log[i].claim.state == Busy || log[i].claim.state == Leased
  }

  ghost predicate LastRefusalAt(log: seq<Attempt>, n: int, i: nat)
    requires i < |log|
  {
    log[i].n == n && RefusedAt(log, i) && forall j: nat :: i < j < |log| && log[j].n == n ==> !RefusedAt(log, j)
  }

  /** The resident entries worth waiting for. */
  ghost function Waiters(log: seq<Attempt>, existing: seq<int>): set<nat> {
    set k: nat | k < |existing| && WorthWaitingFor(log, existing[k])
  }

  lemma {:induction false} LastOne(log: seq<Attempt>, n: int, i: nat) returns (k: nat)
    requires i < |log| && log[i].n == n && RefusedAt(log, i)
    ensures k < |log| && LastRefusalAt(log, n, k)
    decreases |log| - i
  {
    if j: nat :| i < j < |log| && log[j].n == n && RefusedAt(log, j) {
      k := LastOne(log, n, j);
    } else {
      k := i;
    }
  }

  lemma FallbackMeans(log: seq<Attempt>, n: int)
    ensures Fallback(log, n) <==> WorthWaitingFor(log, n)
  {
    WinsMean(log, n);
    RefusalsAre(log);
    forall i: nat | i < |log| ensures Refused(log[i]) <==> RefusedAt(log, i) {}
    if RefusedIn(log, n) {
      var i :| 0 <= i < |log| && log[i].n == n && Refused(log[i]);
      var k := LastOne(log, n, i);
      LatestVerdict(log, k);
      assert forall j: nat :: j < |log| && LastRefusalAt(log, n, j) ==> j == k;
      hide Wins, Refusals, Taken, RefusedIn, Find;
    } else {
      assert forall j: nat :: j < |log| ==> !LastRefusalAt(log, n, j);
      hide Wins, Refusals, Taken, Find;
    }
  }

  lemma {:induction false} FallbacksCount(log: seq<Attempt>, existing: seq<int>)
    ensures Fallbacks(log, existing) == |Waiters(log, existing)|
  {
    if existing == [] {
      assert Waiters(log, existing) == {};
    } else {
      var n := |existing| - 1;
      var init := existing[..n];
      FallbacksCount(log, init);
      FallbackMeans(log, existing[n]);
      hide WorthWaitingFor, Fallback;
      if WorthWaitingFor(log, existing[n]) {
        assert Waiters(log, existing) == Waiters(log, init) + {n};
      } else {
        assert Waiters(log, existing) == Waiters(log, init);
      }
    }
  }

  /** After pass one the free memory was read below the floor, and at least as
      many resident slots were worth waiting for as were still wanted. */
  ghost predicate RatherWait(log: seq<Attempt>, q: Request) {
    q.free.Some? && q.free.value < q.floor && |Waiters(log, q.existing)| >= q.count - |Taken(log)|
  }

  lemma DeclinesMeans(oracle: Oracle, log: seq<Attempt>, q: Request)
    requires Honest(oracle, log)
    ensures Declines(log, q) <==> RatherWait(log, q)
  {
    TakenOnce(oracle, log);
    FallbacksCount(log, q.existing);
    hide Waiters, Taken, Wins, Fallbacks, Honest;
  }

  lemma HonestPrefix(oracle: Oracle, log: seq<Attempt>, k: nat)
    requires Honest(oracle, log) && k <= |log|
    ensures Honest(oracle, log[..k])
  {
    assert forall i :: 0 <= i < k ==> log[..k][..i] == log[..i];
  }

  /** No slot number is made when waiting is the better choice; and a call fails
      for the memory floor, or goes on to reconfigure slots in a group with room,
      only when it is. */
  lemma FloorMeans(r: Result, oracle: Oracle, log: seq<Attempt>, q: Request, first: seq<int>, created: seq<int>, last: seq<int>)
    requires Honest(oracle, log) && Walked(log, q, first, created, last) && Explained(r, log, q, first, created, last)
    ensures |first| <= |log|
    ensures created != [] ==> !RatherWait(log[..|first|], q)
    ensures r.AtMemoryFloor? ==> RatherWait(log[..|first|], q) && created == [] && |Elements(q.existing)| < q.max
    ensures last != [] && |Elements(q.existing) + Elements(created)| < q.max ==> RatherWait(log[..|first|], q)
  {
    assert |Numbers(log)| == |log|;
    HonestPrefix(oracle, log, |first|);
    DeclinesMeans(oracle, log[..|first|], q);
    hide RatherWait, Honest, Elements, Matching, LeastFree, Finished, Heard, LastWalk, Fallbacks, Wins, AllAnswered;
  }

  /** A group with nobody in it worth waiting for never fails for the memory floor. */
  lemma NobodyToWaitFor(r: Result, oracle: Oracle, log: seq<Attempt>, q: Request, first: seq<int>, created: seq<int>, last: seq<int>)
    requires Honest(oracle, log) && Walked(log, q, first, created, last) && Explained(r, log, q, first, created, last)
    requires |first| <= |log| && Waiters(log[..|first|], q.existing) == {} && |Taken(log[..|first|])| < q.count
    ensures !r.AtMemoryFloor?
  {
    FloorMeans(r, oracle, log, q, first, created, last);
    hide Honest, Walked, Explained, Waiters, Taken;
  }
}
