/** The order in which every acquisition path walks a group's resident slots. */
module Dispatch {
  import opened Sorting
  import opened Slim

  /** What dispatch reads of a slot's meta.json. */
  datatype Meta = Meta(capabilities: seq<string>, lastUsed: int)

  type Metas = int -> Meta

  function Able(metas: Metas, want: seq<string>): int -> bool {
    n => Serves(metas(n).capabilities, want)
  }

  function Unable(metas: Metas, want: seq<string>): int -> bool {
    n => !Serves(metas(n).capabilities, want)
  }

  function Excess(metas: Metas, want: seq<string>, n: int): nat {
    |Surplus(metas(n).capabilities, want)|
  }

  /** Leanest first, most recently used first among equals. */
  function LeanWarm(metas: Metas, want: seq<string>): (int, int) -> bool {
    (a, b) =>
      || Excess(metas, want, a) < Excess(metas, want, b)
      || (Excess(metas, want, a) == Excess(metas, want, b) && metas(a).lastUsed >= metas(b).lastUsed)
  }

  /** Least recently used first. */
  function Coldest(metas: Metas): (int, int) -> bool {
    (a, b) => metas(a).lastUsed <= metas(b).lastUsed
  }

  function Matching(metas: Metas, want: seq<string>, existing: seq<int>): seq<int> {
    Sort(Filter(existing, Able(metas, want)), LeanWarm(metas, want))
  }

  function Reconfigurable(metas: Metas, want: seq<string>, existing: seq<int>): seq<int> {
    Sort(Filter(existing, Unable(metas, want)), Coldest(metas))
  }

  method DispatchOrder(metas: Metas, want: seq<string>, existing: seq<int>)
      returns (matching: seq<int>, reconfigurable: seq<int>)
    ensures matching == Matching(metas, want, existing)
    ensures reconfigurable == Reconfigurable(metas, want, existing)
  {
    matching, reconfigurable := Halves(metas, want, existing);
    matching := Sort(matching, LeanWarm(metas, want));
    reconfigurable := Sort(reconfigurable, Coldest(metas));
  }

  method Halves(metas: Metas, want: seq<string>, existing: seq<int>)
      returns (matching: seq<int>, reconfigurable: seq<int>)
    ensures matching == Filter(existing, Able(metas, want))
    ensures reconfigurable == Filter(existing, Unable(metas, want))
  {
    hide Serves;
    matching, reconfigurable := [], [];
    assert existing[0..] == existing;
    for i := 0 to |existing|
      invariant matching + Filter(existing[i..], Able(metas, want)) == Filter(existing, Able(metas, want))
      invariant reconfigurable + Filter(existing[i..], Unable(metas, want)) == Filter(existing, Unable(metas, want))
    {
      assert existing[i..][1..] == existing[i + 1..];
      var yes := Satisfies(metas(existing[i]).capabilities, want);
      if yes {
        matching := matching + [existing[i]];
      } else {
        reconfigurable := reconfigurable + [existing[i]];
      }
    }
  }

  lemma LeanWarmIsOrder(metas: Metas, want: seq<string>)
    ensures TotalOrder(LeanWarm(metas, want))
  {
    hide Excess;
  }

  lemma ColdestIsOrder(metas: Metas)
    ensures TotalOrder(Coldest(metas))
  {
  }

  lemma {:induction false} FilterSplits(s: seq<int>, p: int -> bool, q: int -> bool)
    requires forall n :: p(n) != q(n)
    ensures multiset(Filter(s, p)) + multiset(Filter(s, q)) == multiset(s)
  {
    if s != [] {
      FilterSplits(s[1..], p, q);
      assert s == [s[0]] + s[1..];
    }
  }

  lemma SortOfFilter(s: seq<int>, p: int -> bool, le: (int, int) -> bool, n: int)
    requires TotalOrder(le)
    ensures n in Sort(Filter(s, p), le) <==> n in s && p(n)
  {
    SameElements(Filter(s, p), le, n);
    FilterAll(s, p, n);
  }

  /** dispatchOrder splits the resident slots: each appears once, those that
      serve the request leanest and then warmest first, the others coldest first. */
  lemma DispatchSplits(metas: Metas, want: seq<string>, existing: seq<int>)
    ensures multiset(Matching(metas, want, existing)) + multiset(Reconfigurable(metas, want, existing)) == multiset(existing)
    ensures Sorted(Matching(metas, want, existing), LeanWarm(metas, want))
    ensures Sorted(Reconfigurable(metas, want, existing), Coldest(metas))
    ensures forall n :: n in Matching(metas, want, existing) <==> n in existing && Serves(metas(n).capabilities, want)
    ensures forall n :: n in Reconfigurable(metas, want, existing) <==> n in existing && !Serves(metas(n).capabilities, want)
  {
    var p, q := Able(metas, want), Unable(metas, want);
    LeanWarmIsOrder(metas, want);
    ColdestIsOrder(metas);
    hide TotalOrder, Serves;
    SortSorts(Filter(existing, p), LeanWarm(metas, want));
    SortSorts(Filter(existing, q), Coldest(metas));
    FilterSplits(existing, p, q);
    forall n ensures n in Matching(metas, want, existing) <==> n in existing && p(n) {
      SortOfFilter(existing, p, LeanWarm(metas, want), n);
    }
    forall n ensures n in Reconfigurable(metas, want, existing) <==> n in existing && q(n) {
      SortOfFilter(existing, q, Coldest(metas), n);
    }
  }

  /** How many of a slot's categories nobody asked for. */
  ghost function Extras(have: seq<string>, want: seq<string>): nat {
    if have == [] then 0 else (if have[0] in want then 0 else 1) + Extras(have[1..], want)
  }

  lemma {:induction false} SurplusCounts(have: seq<string>, want: seq<string>)
    ensures |Surplus(have, want)| == Extras(have, want)
  {
    if have != [] { SurplusCounts(have[1..], want); }
  }

  /** The order in both halves, said of the metas: a slot that serves comes
      before another when it carries fewer extras, or as many and was used no
      earlier; of those that do not, the one used no later comes first. */
  lemma OrderMeans(metas: Metas, want: seq<string>, existing: seq<int>, i: nat, j: nat)
    requires i < j
    ensures var s := Matching(metas, want, existing);
            j < |s| ==>
              var a, b := metas(s[i]), metas(s[j]);
              || Extras(a.capabilities, want) < Extras(b.capabilities, want)
              || (Extras(a.capabilities, want) == Extras(b.capabilities, want) && a.lastUsed >= b.lastUsed)
    ensures var s := Reconfigurable(metas, want, existing); j < |s| ==> metas(s[i]).lastUsed <= metas(s[j]).lastUsed
    ensures var s := Matching(metas, want, existing);
            forall n :: n in s <==> n in existing && forall w :: w in want ==> w in metas(n).capabilities
  {
    DispatchSplits(metas, want, existing);
    var s := Matching(metas, want, existing);
    if j < |s| {
      SurplusCounts(metas(s[i]).capabilities, want);
      SurplusCounts(metas(s[j]).capabilities, want);
    }
    hide Extras, Surplus, Matching, Reconfigurable;
  }

  lemma DispatchDistinct(metas: Metas, want: seq<string>, existing: seq<int>)
    requires Distinct(existing)
    ensures Distinct(Matching(metas, want, existing) + Reconfigurable(metas, want, existing))
  {
    DispatchSplits(metas, want, existing);
    DistinctPerm(existing, Matching(metas, want, existing) + Reconfigurable(metas, want, existing));
  }
}
