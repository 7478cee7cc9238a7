/** When a failed acquisition lists every slot once, and when it lists one twice. */
module AcquireListing {
  import opened Wrappers
  import opened Sorting
  import opened Slim
  import opened Dispatch
  import opened Acquire
  import opened AcquirePasses


  /** What a failure lists, if it lists anything. */
  predicate ListsOnce(r: Result) {
    (r.AtMemoryFloor? || r.AtCapacity? ==> NumbersDistinct(r.refusals))
  }

  /** A caller can tell before the call: one slot wanted, or nothing resident
      serves the request and no slot is resident twice. */
  predicate OnceFor(q: Request) {
    q.count <= 1 || (Matching(q.metas, q.want, q.existing) == [] && Distinct(q.existing))
  }

  /** Then every failure lists each slot once, whatever the claims come to. */
  lemma ListedOnce(r: Result, log: seq<Attempt>, held: set<int>, q: Request, first: seq<int>, created: seq<int>, last: seq<int>)
    requires Needed(log, q.count) && Distinct(Wins(log)) && Walked(log, q, first, created, last)
    requires Explained(r, log, q, first, created, last)
    requires OnceFor(q)
    ensures ListsOnce(r)
  {
    if r.AtMemoryFloor? || r.AtCapacity? {
      forall n | RefusedIn(log, n) ensures n !in Wins(log) {
        if q.count > 1 {
          DistinctNumbers(log, q, first, created, last);
          AskedOnce(log, n);
        }
      }
      hide *;
      ListedOnceUnlessTakenLater(log);
      IsListing(r, log, q, first, created, last);
    }
  }

  lemma IsListing(r: Result, log: seq<Attempt>, q: Request, first: seq<int>, created: seq<int>, last: seq<int>)
    requires Explained(r, log, q, first, created, last) && (r.AtMemoryFloor? || r.AtCapacity?)
    ensures r.refusals == Listing(log) && Finished(log, q, first, created, last) && |Wins(log)| < q.count
    ensures ListsOnce(r) <==> NumbersDistinct(Listing(log))
  {
    hide Listing, Finished, NumbersDistinct, Heard;
  }

  lemma DistinctNumbers(log: seq<Attempt>, q: Request, first: seq<int>, created: seq<int>, last: seq<int>)
    requires Walked(log, q, first, created, last) && Matching(q.metas, q.want, q.existing) == [] && Distinct(q.existing)
    ensures Distinct(Numbers(log))
  {
    hide Distinct, Matching, LastWalk, Elements, AllAnswered, FullOrDeclined, Numbers, LeastFree;
    LastDistinct(log, q, |first| + |created|, last);
    NewOnes(q.existing, created);
    LeastFreeDistinct(Elements(q.existing), created);
    assert first + created + last == created + last;
    DistinctSum(created, last);
  }

  lemma LastDistinct(log: seq<Attempt>, q: Request, from: nat, last: seq<int>)
    requires LastWalk(log, q, from, last) && Distinct(q.existing)
    ensures Distinct(last) && forall n :: n in last ==> n in q.existing
  {
    hide Distinct, Matching, Reconfigurable, Serves, Retried;
    var k: nat :| k <= |Order(q)| && Retried(log, from, Order(q)[..k], last);
    DispatchDistinct(q.metas, q.want, q.existing);
    DispatchSplits(q.metas, q.want, q.existing);
    PrefixDistinct(Order(q), k);
    RetriedIs(log, from, Order(q)[..k], last, 0);
  }

  lemma PrefixDistinct(s: seq<int>, k: nat)
    requires Distinct(s) && k <= |s|
    ensures Distinct(s[..k])
  {
  }

  lemma NewOnes(existing: seq<int>, created: seq<int>)
    requires LeastFree(Elements(existing), created)
    ensures forall n :: n in created ==> n !in existing
  {
  }

  lemma LeastFreeDistinct(existing: set<int>, created: seq<int>)
    requires LeastFree(existing, created)
    ensures Distinct(created)
  {
    forall i, j | 0 <= i < j < |created| ensures created[i] != created[j] {
      assert created[..j][i] == created[i];
    }
  }

  lemma DistinctSum(a: seq<int>, b: seq<int>)
    requires Distinct(a) && Distinct(b) && forall n :: n in a ==> n !in b
    ensures Distinct(a + b)
  {
    var t := a + b;
    forall i, j | 0 <= i < j < |t| ensures t[i] != t[j] {
      if i < |a| <= j { assert t[i] in a && t[j] == b[j - |a|]; }
    }
  }

  lemma SamePlace(log: seq<Attempt>, i: nat, j: nat)
    requires Distinct(Numbers(log)) && i < |log| && j < |log| && log[i].n == log[j].n
    ensures i == j
  {
    assert Numbers(log)[i] == Numbers(log)[j];
  }

  /** A slot asked for once is not both refused and taken. */
  lemma AskedOnce(log: seq<Attempt>, n: int)
    requires Distinct(Numbers(log)) && RefusedIn(log, n)
    ensures n !in Wins(log)
  {
    WinsAre(log, n);
    if n in Wins(log) {
      var i :| 0 <= i < |log| && log[i].n == n && Won(log[i]);
      var j :| 0 <= j < |log| && log[j].n == n && Refused(log[j]);
      SamePlace(log, i, j);
    }
  }

  predicate Asked(log: seq<Attempt>, m: int) {
    exists a :: a in log && a.n == m
  }

  /** Slot m is busy when first asked for and free from then on; every other
      slot stays busy. */
  function Stubborn(m: int): Oracle {
    (log: seq<Attempt>, n: int) => if n == m && Asked(log, m) then Locked(Free, false) else Contended
  }

  /** Nothing but m is ever had from it, and m only after a refusal. */
  ghost predicate Stingy(log: seq<Attempt>, m: int) {
    && (Wins(log) == [] || (Wins(log) == [m] && RefusedIn(log, m)))
    && !Capped(log) && !Errored(log)
    && (Asked(log, m) <==> RefusedIn(log, m))
  }

  lemma {:induction false} OnlyM(log: seq<Attempt>, m: int)
    requires Honest(Stubborn(m), log)
    ensures Stingy(log, m)
  {
    hide Stingy, Reply, Stubborn;
    if log == [] {
      NothingAsked(m);
    } else {
      var init, a := log[..|log| - 1], log[|log| - 1];
      assert forall i :: 0 <= i < |init| ==> init[..i] == log[..i] && init[i] == log[i];
      OnlyM(init, m);
      assert log == init + [a];
      OneMoreAsked(init, a, m);
    }
  }

  lemma NothingAsked(m: int)
    ensures Stingy([], m)
  {
  }

  lemma OneMoreAsked(log: seq<Attempt>, a: Attempt, m: int)
    requires Stingy(log, m) && a.claim == Reply(Stubborn(m), log, a.n)
    ensures Stingy(log + [a], m)
  {
    LogGrows(log, a);
    assert Asked(log + [a], m) <==> Asked(log, m) || a.n == m by {
      if Asked(log, m) {
        var x :| x in log && x.n == m;
        assert x in log + [a];
      }
      assert a in log + [a];
    }
    hide Wins, RefusedIn, Asked, Capped, Errored;
  }

  /** Asked for twice, it is refused and then taken. */
  lemma TwiceIsTaken(log: seq<Attempt>, m: int)
    requires Honest(Stubborn(m), log) && (m in Wins(log) || multiset(Numbers(log))[m] >= 2)
    ensures RefusedIn(log, m) && m in Wins(log)
  {
    OnlyM(log, m);
    if m !in Wins(log) {
      var i, j := TwoPlaces(Numbers(log), m);
      WonAt(log, m, i, j);
      WinsAre(log, m);
    }
  }

  lemma WonAt(log: seq<Attempt>, m: int, i: nat, j: nat)
    requires Honest(Stubborn(m), log) && m !in Wins(log) && i < j < |log| && log[i].n == log[j].n == m
    ensures Won(log[j])
  {
    WinsBefore(log, j);
    assert log[..j][i] == log[i];
    assert log[i] in log[..j];
    assert Asked(log[..j], m);
    hide Wins;
  }

  lemma {:induction false} TwoPlaces(s: seq<int>, m: int) returns (i: nat, j: nat)
    requires multiset(s)[m] >= 2
    ensures i < j < |s| && s[i] == s[j] == m
  {
    var k := |s| - 1;
    assert s == s[..k] + [s[k]];
    if s[k] == m {
      assert m in multiset(s[..k]);
      j := k;
      i :| 0 <= i < k && s[..k][i] == m;
    } else {
      i, j := TwoPlaces(s[..k], m);
    }
  }

  /** Where nothing else decides, every slot the walk reaches twice is asked
      for twice. */
  lemma AskedTwice(log: seq<Attempt>, q: Request, first: seq<int>, created: seq<int>, last: seq<int>, m: int)
    requires Finished(log, q, first, created, last) && Numbers(log) == first + created + last
    requires m in Matching(q.metas, q.want, q.existing) || multiset(q.existing)[m] >= 2
    ensures m in Wins(log) || multiset(Numbers(log))[m] >= 2
  {
    hide Distinct, Sorted, Serves, Retried, Numbers;
    var matching, rest := Matching(q.metas, q.want, q.existing), Reconfigurable(q.metas, q.want, q.existing);
    DispatchSplits(q.metas, q.want, q.existing);
    RetriedIs(log, |first| + |created|, Order(q), last, m);
    hide Matching, Reconfigurable;
    MultisetOfSum(matching, rest, m);
    MultisetOfSum(first + created, last, m);
    MultisetOfSum(first, created, m);
    if m in matching { assert m in multiset(matching); }
  }

  lemma MultisetOfSum(a: seq<int>, b: seq<int>, m: int)
    ensures multiset(a + b)[m] == multiset(a)[m] + multiset(b)[m]
    ensures (multiset(a) + multiset(b))[m] == multiset(a)[m] + multiset(b)[m]
  {
  }

  /** The call at its worst: with the stubborn oracle, its failure lists a slot
      twice whenever the condition does not hold. */
  method WorstCase(q: Request) returns (r: Result, c: Call)
    ensures q.count > 1 ==> r.AtCapacity? || (r.AtMemoryFloor? && q.free.Some?)
    ensures ListsOnce(r) <==> OnceFor(q)
  {
    hide *;
    var m := Troubled(q);
    c := new Call(Stubborn(m));
    ghost var first, created, last;
    r, first, created, last := TryAcquireSlots(c, true, q);
    AtWorst(r, c.log, c.held, q, first, created, last, m);
  }

  method Troubled(q: Request) returns (m: int)
    ensures !OnceFor(q) ==> m in Matching(q.metas, q.want, q.existing) || multiset(q.existing)[m] >= 2
  {
    m := 0;
    var matching, _ := DispatchOrder(q.metas, q.want, q.existing);
    if |matching| > 0 {
      return matching[0];
    }
    for i := 0 to |q.existing|
      invariant Distinct(q.existing[..i])
    {
      assert q.existing[..i + 1] == q.existing[..i] + [q.existing[i]];
      DistinctSnoc(q.existing[..i], q.existing[i]);
      if q.existing[i] in q.existing[..i] {
        assert q.existing == q.existing[..i] + [q.existing[i]] + q.existing[i + 1..];
        assert q.existing[i] in multiset(q.existing[..i]);
        return q.existing[i];
      }
    }
    assert q.existing[..|q.existing|] == q.existing;
  }

  lemma AtWorst(r: Result, log: seq<Attempt>, held: set<int>, q: Request, first: seq<int>, created: seq<int>, last: seq<int>, m: int)
    requires Honest(Stubborn(m), log) && Needed(log, q.count) && Walked(log, q, first, created, last)
    requires AllOrNothing(r, log, held, q.count) && (r.IoError? <==> Errored(log)) && Explained(r, log, q, first, created, last)
    requires !OnceFor(q) ==> m in Matching(q.metas, q.want, q.existing) || multiset(q.existing)[m] >= 2
    ensures q.count > 1 ==> r.AtCapacity? || (r.AtMemoryFloor? && q.free.Some?)
    ensures ListsOnce(r) <==> OnceFor(q)
  {
    hide *;
    OnlyM(log, m);
    NeverTooMany(log, q.count);
    WinsDistinct(log, m);
    EndsShort(r, log, held, q, first, created, last);
    if OnceFor(q) {
      ListedOnce(r, log, held, q, first, created, last);
    } else {
      NotOnce(q);
      IsListing(r, log, q, first, created, last);
      WalkedNumbers(log, q, first, created, last);
      AskedTwice(log, q, first, created, last, m);
      TwiceIsTaken(log, m);
      ListedOnceUnlessTakenLater(log);
    }
  }

  lemma EndsShort(r: Result, log: seq<Attempt>, held: set<int>, q: Request, first: seq<int>, created: seq<int>, last: seq<int>)
    requires AllOrNothing(r, log, held, q.count) && (r.IoError? <==> Errored(log)) && Explained(r, log, q, first, created, last)
    requires !Errored(log) && !Capped(log) && |Wins(log)| <= 1
    ensures q.count > 1 ==> r.AtCapacity? || (r.AtMemoryFloor? && q.free.Some?)
  {
    hide Wins, Errored, Listing, Heard, Finished;
  }

  lemma NotOnce(q: Request)
    requires !OnceFor(q)
    ensures q.count > 1
  {
  }

  lemma WinsDistinct(log: seq<Attempt>, m: int)
    requires Stingy(log, m)
    ensures Distinct(Wins(log)) && |Wins(log)| <= 1 && !Errored(log) && !Capped(log)
  {
  }

  /** Two slots wanted, room for two, one resident: slot 0 is busy, so is the
      new slot 1, then slot 0 is free.  The failure lists slot 0 twice. */
  method BusyThenTaken() returns (r: Result)
    ensures r.AtCapacity? && !ListsOnce(r)
  {
    var q := Request((n: int) => Meta([], 0), [], [0], 2, 2, None, 0.0);
    DispatchSplits(q.metas, q.want, q.existing);
    assert 0 in Matching(q.metas, q.want, q.existing);
    var c;
    r, c := WorstCase(q);
  }
}
