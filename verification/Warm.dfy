/** --warm: the ceiling, the set --cold leaves alone because of it, and the floor. */
module Warm {
  import opened Wrappers
  import opened Sorting

  /** Most recently used first. */
  function Recent(lastUsed: int -> int): (int, int) -> bool {
    (a, b) => lastUsed(a) >= lastUsed(b)
  }

  function Top(s: seq<int>, n: int): seq<int> {
    if n <= 0 then [] else if n <= |s| then s[..n] else s
  }

  /** The rest of the ranking. */
  function Past(s: seq<int>, n: int): seq<int> {
    if n <= 0 then s else if n <= |s| then s[n..] else []
  }

  /** The first time each number occurs. */
  function Once(s: seq<int>): seq<int> {
    if s == [] then []
    else
      var r := Once(s[..|s| - 1]);
      if s[|s| - 1] in r then r else r + [s[|s| - 1]]
  }

  /** What --cold and --warm read of a group whose leases and metas stay put.
      While `steady`, so does which slots are up and nobody's; else each look has
      its own answer. */
  class Group {
    const nums: seq<int>         // ListSlotNumbers
    const leased: int -> bool    // a live or unreadable lease
    const provisioned: int -> bool
    const lastUsed: int -> int
    const steady: bool
    const up: int -> bool        // lockable, clean, and its own device booted
    const turns: nat -> bool     // the same, look by look

    var shut: seq<int>           // slots whose simulator was shut down
    var looked: nat

    constructor (nums: seq<int>, leased: int -> bool, provisioned: int -> bool, lastUsed: int -> int, steady: bool, up: int -> bool, turns: nat -> bool)
      ensures this.nums == nums && this.leased == leased && this.provisioned == provisioned && this.lastUsed == lastUsed
      ensures this.steady == steady && this.up == up && this.turns == turns && shut == [] && looked == 0
    {
      this.nums, this.leased, this.provisioned, this.lastUsed, shut := nums, leased, provisioned, lastUsed, [];
      this.steady, this.up, this.turns, looked := steady, up, turns, 0;
    }

    function Free(): int -> bool {
      n => !leased(n) && provisioned(n)
    }

    /** Free and up, these having been shut down. */
    function Standing(down: seq<int>): int -> bool {
      n => !leased(n) && provisioned(n) && up(n) && n !in down
    }

    function Candidates(): seq<int> {
      Filter(nums, Free())
    }

    function Ranking(): seq<int> {
      Sort(Candidates(), Recent(lastUsed))
    }

    /** The n most recently used free slots: what --cold leaves booted. */
    function Kept(n: int): seq<int> {
      Top(Ranking(), n)
    }

    /** No free slot is listed both within the cap and past it. */
    predicate Apart(cap: int) {
      forall n :: n in Past(Ranking(), cap) ==> n !in Kept(cap)
    }

    method WarmKept(n: int) returns (kept: set<int>)
      ensures kept == Elements(Kept(n))
    {
      if n <= 0 {
        return {};
      }
      var cands := [];
      for i := 0 to |nums|
        invariant cands + Filter(nums[i..], Free()) == Filter(nums, Free())
      {
        assert nums[i..][1..] == nums[i + 1..];
        if !leased(nums[i]) && provisioned(nums[i]) {
          cands := cands + [nums[i]];
        }
      }
      assert cands == Filter(nums, Free());
      cands := Sort(cands, Recent(lastUsed));
      kept := {};
      var i := 0;
      while i < |cands| && i < n
        invariant 0 <= i <= |cands| && i <= n && kept == Elements(cands[..i])
      {
        assert cands[..i + 1] == cands[..i] + [cands[i]];
        kept := kept + {cands[i]};
        i := i + 1;
      }
      assert i == |cands| ==> cands[..i] == cands;
    }

    /** What the k-th look at a slot makes of it, these having been shut down. */
    predicate FoundUp(k: nat, n: int, down: seq<int>) {
      !leased(n) && provisioned(n) && if steady then up(n) && n !in down else turns(k)
    }

    /** classifyWarmSlot under a flock that may not be had. */
    method Classify(n: int) returns (ok: bool)
      modifies `looked
      ensures looked == old(looked) + 1 && ok == FoundUp(old(looked), n, shut)
    {
      looked := looked + 1;
      if leased(n) || !provisioned(n) {
        return false;
      }
      ok := if steady then up(n) && n !in shut else turns(looked - 1);
    }

    /** A look at each slot in turn, the first of them the k-th. */
    function Looks(k: nat, down: seq<int>): seq<(int, bool)> {
      seq(|nums|, i requires 0 <= i < |nums| => (nums[i], FoundUp(k + i, nums[i], down)))
    }

    /** The slots found up, most recently used first. */
    function Found(k: nat, down: seq<int>): seq<int> {
      Sort(Firsts(Filter(Looks(k, down), Passed)), Recent(lastUsed))
    }

    /** Those of ns that are found up again, the k-th look on, and so shut down. */
    ghost function Downed(ns: seq<int>, k: nat, down: seq<int>): seq<int> {
      if ns == [] then []
      else
        var r, n := Downed(ns[..|ns| - 1], k, down), ns[|ns| - 1];
        if FoundUp(k + |ns| - 1, n, down + r) then r + [n] else r
    }

    /** Shuts down free booted slots past the warmCap most recently used that are
        so still when their turn comes: never one of those that --cold was told
        to keep, as long as no free slot is listed both within the cap and past it. */
    method EnforceWarmCap(warmCap: int, dryRun: bool)
      modifies `shut, `looked
      ensures shut == old(shut) + if dryRun then [] else Downed(Past(Found(old(looked), old(shut)), warmCap), old(looked) + |nums|, old(shut))
      ensures ShutOnly(old(shut), shut, warmCap)
      ensures Apart(warmCap) ==> forall k :: |old(shut)| <= k < |shut| ==> shut[k] !in Kept(warmCap)
      ensures steady && !dryRun ==>
                shut == old(shut) + Once(Past(Sort(Filter(nums, Standing(old(shut))), Recent(lastUsed)), warmCap))
    {
      hide *;
      var warm := Booted();
      ghost var before, k := shut, old(looked);
      warm := Sort(warm, Recent(lastUsed));
      IsFound(warm, k, before);
      ShutBeyond(warm, warmCap, dryRun);
      OnlyPast(before, k, warmCap);
      NoneShut(before, warmCap);
      Spared(before, shut, warmCap);
      if steady { SteadyFound(k, before, warmCap); }
    }

    lemma IsFound(warm: seq<int>, k: nat, down: seq<int>)
      requires warm == Sort(Firsts(Filter(Looks(k, down), Passed)), Recent(lastUsed))
      ensures warm == Found(k, down)
    {
    }

    /** Nothing at or past the cap in warm is within it in the whole ranking. */
    ghost predicate AllPast(warm: seq<int>, cap: int) {
      forall i :: 0 <= i < |warm| && i >= cap ==> warm[i] in Past(Ranking(), cap)
    }

    /** The first pass: what it made of each slot, in order. */
    method Booted() returns (warm: seq<int>)
      modifies `looked
      ensures looked == old(looked) + |nums| && warm == Firsts(Filter(Looks(old(looked), shut), Passed))
    {
      warm := [];
      ghost var looks: seq<(int, bool)> := [];
      for i := 0 to |nums|
        invariant looked == old(looked) + i && looks == Looks(old(looked), shut)[..i] && warm == Firsts(Filter(looks, Passed))
      {
        var ok := Classify(nums[i]);
        FilterSnoc(looks, (nums[i], ok), Passed);
        assert Looks(old(looked), shut)[i] == (nums[i], ok);
        looks := looks + [(nums[i], ok)];
        if ok { warm := warm + [nums[i]]; }
      }
      assert looks == Looks(old(looked), shut);
    }

    /** The second pass: each slot past the cap is looked at again first. */
    method ShutBeyond(warm: seq<int>, warmCap: int, dryRun: bool)
      modifies `shut, `looked
      ensures shut == old(shut) + if dryRun then [] else Downed(Past(warm, warmCap), old(looked), old(shut))
    {
      hide *;
      ghost var before, k := shut, looked;
      NoneDowned(before, k, warmCap);
      for i := 0 to |warm|
        invariant looked == k + |Past(warm[..i], warmCap)|
        invariant shut == before + if dryRun then [] else Downed(Past(warm[..i], warmCap), k, before)
      {
        PastMore(warm, warmCap, i);
        if i >= warmCap {
          var ok := Classify(warm[i]);
          DownedMore(Past(warm[..i], warmCap), warm[i], k, before);
          if ok && !dryRun {
            shut := shut + [warm[i]];
          }
        }
      }
      assert warm[..|warm|] == warm;
    }

    lemma NoneDowned(down: seq<int>, k: nat, cap: int)
      ensures Downed(Past([], cap), k, down) == [] && |Past([], cap)| == 0 && down + [] == down
    {
    }

    lemma DownedMore(ns: seq<int>, n: int, k: nat, down: seq<int>)
      ensures down + Downed(ns + [n], k, down)
              == if FoundUp(k + |ns|, n, down + Downed(ns, k, down)) then down + Downed(ns, k, down) + [n] else down + Downed(ns, k, down)
    {
      assert (ns + [n])[..|ns|] == ns;
      hide FoundUp;
    }

    /** What is shut down was found up when its turn came, and what is not was not. */
    lemma {:induction false} DownedMeans(ns: seq<int>, k: nat, down: seq<int>)
      ensures forall n :: n in Downed(ns, k, down) ==> n in ns && Free()(n)
      ensures forall i :: 0 <= i < |ns| && ns[i] !in Downed(ns, k, down) ==>
                leased(ns[i]) || !provisioned(ns[i]) || if steady then !up(ns[i]) || ns[i] in down else !turns(k + i)
    {
      if ns != [] {
        var m := |ns| - 1;
        DownedMeans(ns[..m], k, down);
        assert ns == ns[..m] + [ns[m]];
        forall i | 0 <= i < m ensures ns[i] == ns[..m][i] {}
        var r := Downed(ns[..m], k, down);
        assert Downed(ns, k, down) == r || Downed(ns, k, down) == r + [ns[m]];
        forall n | n in Downed(ns, k, down) ensures n in r || (n == ns[m] && FoundUp(k + m, n, down + r)) {}
      }
    }

    /** While the group stays as it is, all of them, each once. */
    lemma {:induction false} SteadyDowned(ns: seq<int>, k: nat, down: seq<int>)
      requires steady && forall i :: 0 <= i < |ns| ==> Standing(down)(ns[i])
      ensures Downed(ns, k, down) == Once(ns)
    {
      if ns != [] {
        SteadyDowned(ns[..|ns| - 1], k, down);
        assert Standing(down)(ns[|ns| - 1]);
      }
    }

    lemma SteadyFound(k: nat, down: seq<int>, cap: int)
      requires steady
      ensures var found := Sort(Filter(nums, Standing(down)), Recent(lastUsed));
              Found(k, down) == found && Downed(Past(found, cap), k + |nums|, down) == Once(Past(found, cap))
    {
      var looks, found := Looks(k, down), Sort(Filter(nums, Standing(down)), Recent(lastUsed));
      assert Firsts(looks) == nums;
      FilterFirsts(looks, Standing(down), Passed);
      forall i | 0 <= i < |Past(found, cap)| ensures Standing(down)(Past(found, cap)[i]) {
        PastOf(found, cap, i);
        RecentIsOrder(lastUsed);
        SameElements(Filter(nums, Standing(down)), Recent(lastUsed), Past(found, cap)[i]);
        FilterAll(nums, Standing(down), Past(found, cap)[i]);
      }
      SteadyDowned(Past(found, cap), k + |nums|, down);
    }

    lemma OnlyPast(down: seq<int>, k: nat, cap: int)
      ensures ShutOnly(down, down + Downed(Past(Found(k, down), cap), k + |nums|, down), cap)
    {
      hide *;
      LooksAreFree(k, down);
      RankedPast(Looks(k, down), cap);
      IsFound(Sort(Firsts(Filter(Looks(k, down), Passed)), Recent(lastUsed)), k, down);
      DownedMeans(Past(Found(k, down), cap), k + |nums|, down);
      AllInPast(Found(k, down), Downed(Past(Found(k, down), cap), k + |nums|, down), down, cap);
    }

    lemma AllInPast(found: seq<int>, downed: seq<int>, before: seq<int>, cap: int)
      requires AllPast(found, cap) && forall n :: n in downed ==> n in Past(found, cap) && Free()(n)
      ensures ShutOnly(before, before + downed, cap)
    {
      hide Ranking, Free;
      forall n | n in Past(found, cap) ensures n in Past(Ranking(), cap) {
        var i :| 0 <= i < |Past(found, cap)| && Past(found, cap)[i] == n;
        PastOf(found, cap, i);
        var j :| 0 <= j < |found| && j >= cap && found[j] == Past(found, cap)[i];
        assert found[j] in Past(Ranking(), cap);
      }
      var after := before + downed;
      assert before <= after;
      forall k | |before| <= k < |after| ensures after[k] in Past(Ranking(), cap) && Free()(after[k]) {
        assert after[k] == downed[k - |before|];
      }
    }

    lemma LooksAreFree(k: nat, down: seq<int>)
      ensures Firsts(Looks(k, down)) == nums && forall z :: z in Looks(k, down) ==> (z.1 ==> Free()(z.0))
    {
    }

    /** The ceiling to the letter: of the slots found up and nobody's, as many as
        are more than the cap, and none used after one that is let be. */
    lemma CeilingMeans(k: nat, down: seq<int>, cap: int)
      ensures var found, past := Found(k, down), Past(Found(k, down), cap);
              && (forall n :: n in found <==> exists i :: 0 <= i < |nums| && nums[i] == n && FoundUp(k + i, n, down))
              && |found| == |Filter(Looks(k, down), Passed)|
              && |past| == (if cap <= 0 then |found| else if cap <= |found| then |found| - cap else 0)
              && (forall n, m :: n in past && m in found && m !in past ==> lastUsed(m) >= lastUsed(n))
              && forall n :: n in past ==> n in found
    {
      var looks, le := Looks(k, down), Recent(lastUsed);
      var ups := Firsts(Filter(looks, Passed));
      RecentIsOrder(lastUsed);
      SortSorts(ups, le);
      forall n ensures n in Found(k, down) <==> exists i :: 0 <= i < |nums| && nums[i] == n && FoundUp(k + i, n, down) {
        SameElements(ups, le, n);
        LooksUp(k, down, n);
      }
      hide Found, Looks, Sort;
      PastIsLast(Found(k, down), cap, lastUsed);
    }

    lemma LooksUp(k: nat, down: seq<int>, n: int)
      ensures n in Firsts(Filter(Looks(k, down), Passed)) <==> exists i :: 0 <= i < |nums| && nums[i] == n && FoundUp(k + i, n, down)
    {
      var looks := Looks(k, down);
      var ups := Filter(looks, Passed);
      FilterAll(looks, Passed, (n, true));
      if i :| 0 <= i < |nums| && nums[i] == n && FoundUp(k + i, n, down) {
        assert looks[i] == (n, true);
        var j :| 0 <= j < |ups| && ups[j] == (n, true);
        assert Firsts(ups)[j] == n;
      }
      if n in Firsts(ups) {
        var j :| 0 <= j < |ups| && Firsts(ups)[j] == n;
        FilterAll(looks, Passed, ups[j]);
        assert ups[j] == (n, true) && ups[j] in looks;
        var i :| 0 <= i < |looks| && looks[i] == (n, true);
      }
    }

    /** The exemption to the letter: as many free slots as the cap says, if there
        are that many, and none that is not exempt was used after one that is. */
    lemma KeptMeans(cap: int)
      ensures |Kept(cap)| == if cap <= 0 then 0 else if cap <= |Candidates()| then cap else |Candidates()|
      ensures forall n :: n in Kept(cap) ==> n in nums && !leased(n) && provisioned(n)
      ensures forall n, m :: n in Kept(cap) && m in nums && !leased(m) && provisioned(m) && m !in Kept(cap) ==> lastUsed(n) >= lastUsed(m)
    {
      var le := Recent(lastUsed);
      RecentIsOrder(lastUsed);
      SortSorts(Candidates(), le);
      forall n ensures n in Ranking() <==> n in nums && Free()(n) {
        SameElements(Candidates(), le, n);
        FilterAll(nums, Free(), n);
      }
      hide Ranking, Candidates, Sort;
      TopIsFirst(Ranking(), cap, lastUsed);
    }

    lemma NoneShut(shut: seq<int>, cap: int)
      ensures ShutOnly(shut, shut, cap) && shut + [] == shut
    {
    }

    lemma Spared(before: seq<int>, after: seq<int>, cap: int)
      requires ShutOnly(before, after, cap)
      ensures Apart(cap) ==> forall k :: |before| <= k < |after| ==> after[k] !in Kept(cap)
    {
      if Apart(cap) {
        var past, kept := Past(Ranking(), cap), Kept(cap);
        assert forall n :: n in past ==> n !in kept;
        forall k | |before| <= k < |after| ensures after[k] !in Kept(cap) {
          assert after[k] in past;
        }
      }
    }

    /** Whatever passed the first look: past the cap among those, past it in the
        whole ranking. */
    lemma RankedPast(looks: seq<(int, bool)>, cap: int)
      requires Firsts(looks) == nums && forall z :: z in looks ==> (z.1 ==> Free()(z.0))
      ensures AllPast(Sort(Firsts(Filter(looks, Passed)), Recent(lastUsed)), cap)
    {
      hide Filter, Sort, Past, TotalOrder;
      var le, free := Recent(lastUsed), OnFirst(Free());
      RecentIsOrder(lastUsed);
      PairsIsOrder(le);
      FilterFirsts(looks, Free(), free);
      FilterTwice(looks, free, Passed);
      FirstsOfSort(Filter(looks, free), le);
      FirstsOfSort(Filter(looks, Passed), le);
      FilterSort(Filter(looks, free), OnPairs(le), Passed);
      var all := Sort(Filter(looks, free), OnPairs(le));
      var warm := Sort(Firsts(Filter(looks, Passed)), le);
      assert Firsts(all) == Ranking() && Firsts(Filter(all, Passed)) == warm;
      forall i | 0 <= i < |warm| && i >= cap ensures warm[i] in Past(Ranking(), cap) {
        var j := FilterIndex(all, Passed, i);
        InPast(Firsts(all), cap, j);
      }
    }

    /** Since `before`, only free slots past the cap of the ranking were shut down. */
    ghost predicate ShutOnly(before: seq<int>, after: seq<int>, cap: int)
    {
      before <= after && forall k :: |before| <= k < |after| ==> after[k] in Past(Ranking(), cap) && Free()(after[k])
    }
  }

  // ---------------------------------------------------------------- looks, and what passed

  const Passed: ((int, bool)) -> bool := (z: (int, bool)) => z.1

  function Firsts(zs: seq<(int, bool)>): seq<int> {
    seq(|zs|, i requires 0 <= i < |zs| => zs[i].0)
  }

  function OnFirst(p: int -> bool): ((int, bool)) -> bool {
    (z: (int, bool)) => p(z.0)
  }

  function OnPairs(le: (int, int) -> bool): ((int, bool), (int, bool)) -> bool {
    (a: (int, bool), b: (int, bool)) => le(a.0, b.0)
  }

  lemma PairsIsOrder(le: (int, int) -> bool)
    requires TotalOrder(le)
    ensures TotalOrder(OnPairs(le))
  {
  }

  lemma {:induction false} FilterFirsts(zs: seq<(int, bool)>, p: int -> bool, q: ((int, bool)) -> bool)
    requires forall z :: z in zs ==> (q(z) <==> p(z.0))
    ensures Firsts(Filter(zs, q)) == Filter(Firsts(zs), p)
  {
    if zs != [] {
      FilterFirsts(zs[1..], p, q);
      assert Firsts(zs)[1..] == Firsts(zs[1..]);
    }
  }

  lemma {:induction false} FilterTwice(zs: seq<(int, bool)>, p: ((int, bool)) -> bool, q: ((int, bool)) -> bool)
    requires forall z :: z in zs && q(z) ==> p(z)
    ensures Filter(Filter(zs, p), q) == Filter(zs, q)
  {
    if zs != [] {
      FilterTwice(zs[1..], p, q);
      assert ([zs[0]] + Filter(zs[1..], p))[1..] == Filter(zs[1..], p);
    }
  }

  lemma {:induction false} FirstsOfInsert(z: (int, bool), zs: seq<(int, bool)>, le: (int, int) -> bool)
    ensures Firsts(Insert(z, zs, OnPairs(le))) == Insert(z.0, Firsts(zs), le)
  {
    if zs != [] {
      FirstsOfInsert(z, zs[1..], le);
      assert Firsts(zs)[1..] == Firsts(zs[1..]);
    }
  }

  lemma {:induction false} FirstsOfSort(zs: seq<(int, bool)>, le: (int, int) -> bool)
    ensures Firsts(Sort(zs, OnPairs(le))) == Sort(Firsts(zs), le)
  {
    if zs != [] {
      FirstsOfSort(zs[1..], le);
      FirstsOfInsert(zs[0], Sort(zs[1..], OnPairs(le)), le);
      assert Firsts(zs)[1..] == Firsts(zs[1..]);
    }
  }

  lemma InPast(s: seq<int>, cap: int, j: nat)
    requires j < |s| && cap <= j
    ensures s[j] in Past(s, cap)
  {
    if cap > 0 { assert s[cap..][j - cap] == s[j]; }
  }

  lemma PastMore(s: seq<int>, cap: int, i: nat)
    requires i < |s|
    ensures Past(s[..i + 1], cap) == if i >= cap then Past(s[..i], cap) + [s[i]] else Past(s[..i], cap)
  {
    assert s[..i + 1] == s[..i] + [s[i]];
  }

  lemma PastOf(s: seq<int>, cap: int, i: nat)
    requires i < |Past(s, cap)|
    ensures exists j :: 0 <= j < |s| && j >= cap && s[j] == Past(s, cap)[i]
  {
    var j := if cap <= 0 then i else cap + i;
    assert s[j] == Past(s, cap)[i];
  }

  /** Past the cap of a ranking is its least recent end ... */
  lemma PastIsLast(s: seq<int>, cap: int, lastUsed: int -> int)
    requires Sorted(s, Recent(lastUsed))
    ensures |Past(s, cap)| == if cap <= 0 then |s| else if cap <= |s| then |s| - cap else 0
    ensures forall n :: n in Past(s, cap) ==> n in s
    ensures forall n, m :: n in Past(s, cap) && m in s && m !in Past(s, cap) ==> lastUsed(m) >= lastUsed(n)
  {
    forall n, m | n in Past(s, cap) && m in s && m !in Past(s, cap) ensures lastUsed(m) >= lastUsed(n) {
      var i :| 0 <= i < |Past(s, cap)| && Past(s, cap)[i] == n;
      PastOf(s, cap, i);
      var j :| 0 <= j < |s| && j >= cap && s[j] == n;
      var k :| 0 <= k < |s| && s[k] == m;
      assert Recent(lastUsed)(s[k], s[j]);
    }
  }

  /** ... and within it the most recent. */
  lemma TopIsFirst(s: seq<int>, cap: int, lastUsed: int -> int)
    requires Sorted(s, Recent(lastUsed))
    ensures |Top(s, cap)| == if cap <= 0 then 0 else if cap <= |s| then cap else |s|
    ensures forall n :: n in Top(s, cap) ==> n in s
    ensures forall n, m :: n in Top(s, cap) && m in s && m !in Top(s, cap) ==> lastUsed(n) >= lastUsed(m)
  {
    forall n, m | n in Top(s, cap) && m in s && m !in Top(s, cap) ensures lastUsed(n) >= lastUsed(m) {
      var i :| 0 <= i < |Top(s, cap)| && Top(s, cap)[i] == n;
      var k :| 0 <= k < |s| && s[k] == m;
      assert s[i] == n && Recent(lastUsed)(s[i], s[k]);
    }
  }

  lemma {:induction false} OnceSame(s: seq<int>, n: int)
    ensures n in Once(s) <==> n in s
  {
    if s != [] {
      OnceSame(s[..|s| - 1], n);
      OnceSame(s[..|s| - 1], s[|s| - 1]);
      assert s == s[..|s| - 1] + [s[|s| - 1]];
    }
  }

  lemma RecentIsOrder(lastUsed: int -> int)
    ensures TotalOrder(Recent(lastUsed))
  {
  }

  /** The i-th element that passes is at index i or later. */
  lemma {:induction false} FilterIndex<T>(s: seq<T>, p: T -> bool, i: nat) returns (j: nat)
    requires i < |Filter(s, p)|
    ensures i <= j < |s| && s[j] == Filter(s, p)[i]
  {
    if p(s[0]) {
      if i == 0 {
        j := 0;
      } else {
        var k := FilterIndex(s[1..], p, i - 1);
        j := k + 1;
      }
    } else {
      var k := FilterIndex(s[1..], p, i);
      j := k + 1;
    }
  }

  lemma {:induction false} FilterSnoc<T>(s: seq<T>, x: T, p: T -> bool)
    ensures Filter(s + [x], p) == if p(x) then Filter(s, p) + [x] else Filter(s, p)
  {
    if s == [] {
      assert [x][1..] == [];
    } else {
      FilterSnoc(s[1..], x, p);
      assert (s + [x])[1..] == s[1..] + [x];
    }
  }

  lemma {:induction false} FilterDistinct<T(!new)>(s: seq<T>, p: T -> bool)
    requires Distinct(s)
    ensures Distinct(Filter(s, p))
  {
    if s != [] {
      FilterDistinct(s[1..], p);
      FilterAll(s[1..], p, s[0]);
      forall k | 0 <= k < |s| - 1 ensures s[1..][k] != s[0] { assert s[1..][k] == s[k + 1]; }
      DistinctCons(s[0], Filter(s[1..], p));
    }
  }

  // ---------------------------------------------------------------- when the ceiling undoes the exemption

  /** A cap never splits the listings of one slot, whatever it is, exactly when
      no free slot is listed twice. */
  lemma ApartExactlyWhenListedOnce(g: Group)
    ensures (forall cap :: g.Apart(cap)) <==> Distinct(g.Candidates())
  {
    var r := g.Ranking();
    RecentIsOrder(g.lastUsed);
    SortSorts(g.Candidates(), Recent(g.lastUsed));
    hide TotalOrder, Recent;
    if Distinct(g.Candidates()) {
      DistinctPerm(g.Candidates(), r);
      forall cap ensures g.Apart(cap) { DistinctApart(r, cap); }
    } else {
      if Distinct(r) { DistinctPerm(r, g.Candidates()); }
      var i, j :| 0 <= i < j < |r| && r[i] == r[j];
      InPast(r, j, j);
      assert Top(r, j)[i] == r[i];
      assert !g.Apart(j);
    }
  }

  lemma DistinctApart(r: seq<int>, cap: int)
    requires Distinct(r)
    ensures forall n :: n in Past(r, cap) ==> n !in Top(r, cap)
  {
    forall n | n in Past(r, cap) ensures n !in Top(r, cap) {
      var k :| 0 <= k < |Past(r, cap)| && Past(r, cap)[k] == n;
      forall i | 0 <= i < |Top(r, cap)| ensures Top(r, cap)[i] != n {
        assert Top(r, cap)[i] == r[i] && Past(r, cap)[k] == r[cap + k];
      }
    }
  }

  lemma ListedOnceIsApart(g: Group, cap: int)
    requires Distinct(g.nums)
    ensures g.Apart(cap)
  {
    FilterDistinct(g.nums, g.Free());
    ApartExactlyWhenListedOnce(g);
  }

  /** The ceiling at its worst: where every free slot is up and stays so, it
      shuts down a slot the exemption keeps exactly when the cap splits the
      listings of one. */
  method CeilingAtWorst(g: Group, cap: int)
    requires g.steady && g.shut == [] && forall n :: g.Free()(n) ==> g.up(n)
    modifies g`shut, g`looked
    ensures (exists n :: n in g.shut && n in g.Kept(cap)) <==> !g.Apart(cap)
  {
    g.EnforceWarmCap(cap, false);
    AllFreeStand(g);
    forall n ensures n in g.shut <==> n in Past(g.Ranking(), cap) { OnceSame(Past(g.Ranking(), cap), n); }
  }

  lemma AllFreeStand(g: Group)
    requires forall n :: g.Free()(n) ==> g.up(n)
    ensures Sort(Filter(g.nums, g.Standing([])), Recent(g.lastUsed)) == g.Ranking()
  {
    SameFilter(g.nums, g.Standing([]), g.Free());
  }

  lemma {:induction false} SameFilter(s: seq<int>, p: int -> bool, q: int -> bool)
    requires forall n :: p(n) <==> q(n)
    ensures Filter(s, p) == Filter(s, q)
  {
    if s != [] { SameFilter(s[1..], p, q); }
  }

  /** slot-7 and slot-07 are both listed as 7: with a cap of one the ceiling
      shuts down the very slot that --cold keeps. */
  method DoubledSlot(lastUsed: int -> int) returns (g: Group)
    ensures g.nums == [7, 7] && 7 in g.Kept(1) && 7 in g.shut
  {
    g := new Group([7, 7], (n: int) => false, (n: int) => true, lastUsed, true, (n: int) => true, (k: nat) => true);
    assert [7, 7][1..] == [7] && [7][1..] == [];
    assert Filter([7, 7], g.Free()) == [7, 7];
    assert Sort([7], Recent(lastUsed)) == [7];
    assert g.Ranking() == [7, 7] && Past([7, 7], 1) == [7] && Top([7, 7], 1) == [7];
    CeilingAtWorst(g, 1);
    assert 7 in Past(g.Ranking(), 1);
  }

  // ---------------------------------------------------------------- the floor

  /** What looking at a cold slot again comes to: busy now, no longer fit, or
      booted (or not), with the free memory read afterwards. */
  datatype Turn = Busy | Unfit | BootFails | Boots(free: Option<real>)

  /** One boot: its slot, the latest memory reading before it, and whether it worked. */
  datatype Start = Start(slot: int, reading: real, ok: bool)

  /** The boots enforceWarmFloor makes of its cold slots, missing of them wanted. */
  function Floor(cold: seq<int>, turn: int -> Turn, missing: int, reading: real, floor: real): seq<Start> {
    if cold == [] || missing <= 0 then []
    else
      match turn(cold[0])
      case Busy => Floor(cold[1..], turn, missing - 1, reading, floor)
      case Unfit => Floor(cold[1..], turn, missing, reading, floor)
      case BootFails => [Start(cold[0], reading, false)] + Floor(cold[1..], turn, missing, reading, floor)
      case Boots(free) =>
        [Start(cold[0], reading, true)]
        + if free.None? || free.value < floor then [] else Floor(cold[1..], turn, missing - 1, free.value, floor)
  }

  ghost function Worked(starts: seq<Start>): nat {
    if starts == [] then 0 else (if starts[0].ok then 1 else 0) + Worked(starts[1..])
  }

  /** Every boot follows a latest reading at or above the floor; at most the
      missing number work; and no slot is tried twice. */
  lemma {:induction false} FloorHolds(cold: seq<int>, turn: int -> Turn, missing: int, reading: real, floor: real)
    requires reading >= floor
    ensures var starts := Floor(cold, turn, missing, reading, floor);
            && (forall i :: 0 <= i < |starts| ==> starts[i].reading >= floor && starts[i].slot in cold)
            && Worked(starts) <= (if missing > 0 then missing else 0)
            && |starts| <= |cold|
            && ((forall n :: n in cold ==> !turn(n).BootFails?) ==> |starts| == Worked(starts))
  {
    if cold != [] && missing > 0 {
      var t := turn(cold[0]);
      var left := if t.Busy? || t.Boots? then missing - 1 else missing;
      var next := if t.Boots? && t.free.Some? then t.free.value else reading;
      if next >= floor { FloorHolds(cold[1..], turn, left, next, floor); }
      var rest := Floor(cold[1..], turn, left, next, floor);
      if t.BootFails? || t.Boots? {
        var s := Start(cold[0], reading, t.Boots?);
        assert ([s] + rest)[1..] == rest && [s][1..] == [];
        assert Worked([s]) == if s.ok then 1 else 0;
        assert [s] + [] == [s];
      }
    }
  }

  /** The cold slots taken for missing ones: a boot that worked, or a slot that
      was busy by then. */
  ghost function Filled(cold: seq<int>, turn: int -> Turn): nat {
    if cold == [] then 0
    else Filled(cold[..|cold| - 1], turn) + if turn(cold[|cold| - 1]).Busy? || turn(cold[|cold| - 1]).Boots? then 1 else 0
  }

  /** What was read after the last boot that worked. */
  ghost function Latest(cold: seq<int>, turn: int -> Turn, reading: real): real {
    if cold == [] then reading
    else
      match turn(cold[|cold| - 1])
      case Boots(Some(free)) => free
      case _ => Latest(cold[..|cold| - 1], turn, reading)
  }

  /** Memory was read after each boot that worked, and was enough. */
  ghost predicate Enough(cold: seq<int>, turn: int -> Turn, floor: real) {
    forall i :: 0 <= i < |cold| && turn(cold[i]).Boots? ==> turn(cold[i]).free.Some? && turn(cold[i]).free.value >= floor
  }

  /** The floor to the letter: after those before it, a cold slot is booted if
      some are missing still, memory was enough after each boot that worked, and
      it is neither busy nor unfit. */
  lemma {:induction false} FloorMeans(cold: seq<int>, c: int, turn: int -> Turn, missing: int, reading: real, floor: real)
    ensures Floor(cold + [c], turn, missing, reading, floor)
            == Floor(cold, turn, missing, reading, floor)
               + if Filled(cold, turn) < missing && Enough(cold, turn, floor) && (turn(c).BootFails? || turn(c).Boots?)
                 then [Start(c, Latest(cold, turn, reading), turn(c).Boots?)] else []
  {
    if cold == [] {
      assert [c][1..] == [] && [] + [c] == [c];
    } else {
      var first, t := cold[0], turn(cold[0]);
      assert (cold + [c])[1..] == cold[1..] + [c] && cold == [first] + cold[1..];
      var left := if t.Busy? || t.Boots? then missing - 1 else missing;
      var next := if t.Boots? && t.free.Some? then t.free.value else reading;
      FloorMeans(cold[1..], c, turn, left, next, floor);
      FilledRest(first, cold[1..], turn, reading);
      EnoughRest(first, cold[1..], turn, floor);
      hide Latest, Filled, Enough;
    }
  }

  lemma {:induction false} FilledRest(c: int, rest: seq<int>, turn: int -> Turn, reading: real)
    ensures Filled([c] + rest, turn) == Filled(rest, turn) + if turn(c).Busy? || turn(c).Boots? then 1 else 0
    ensures Latest([c] + rest, turn, reading)
            == Latest(rest, turn, if turn(c).Boots? && turn(c).free.Some? then turn(c).free.value else reading)
  {
    if rest == [] {
      assert [c] + rest == [c] && [c][..0] == [];
    } else {
      FilledRest(c, rest[..|rest| - 1], turn, reading);
      assert ([c] + rest)[..|rest|] == [c] + rest[..|rest| - 1];
    }
  }

  lemma EnoughRest(c: int, rest: seq<int>, turn: int -> Turn, floor: real)
    ensures Enough([c] + rest, turn, floor) <==>
            Enough(rest, turn, floor) && (turn(c).Boots? ==> turn(c).free.Some? && turn(c).free.value >= floor)
  {
    var all := [c] + rest;
    assert all[0] == c && forall i :: 0 <= i < |rest| ==> rest[i] == all[i + 1];
  }

  /** A boot that fails is not counted and memory is not read again after it,
      so more boots than the missing number can be started: never more, in any
      run, exactly when there are no more cold slots than are missing. */
  lemma StartsWithinMissing(cold: seq<int>, missing: int, reading: real, floor: real)
    requires reading >= floor && missing > 0
    ensures (forall turn: int -> Turn :: |Floor(cold, turn, missing, reading, floor)| <= missing) <==> |cold| <= missing
  {
    if |cold| <= missing {
      forall turn: int -> Turn ensures |Floor(cold, turn, missing, reading, floor)| <= missing {
        FloorHolds(cold, turn, missing, reading, floor);
      }
    } else {
      var failing: int -> Turn := n => BootFails;
      AllFail(cold, missing, reading, floor, failing);
    }
  }

  lemma {:induction false} AllFail(cold: seq<int>, missing: int, reading: real, floor: real, failing: int -> Turn)
    requires missing > 0 && forall n :: failing(n).BootFails?
    ensures |Floor(cold, failing, missing, reading, floor)| == |cold|
  {
    if cold != [] { AllFail(cold[1..], missing, reading, floor, failing); }
  }

  /** The first look at a slot: not lockable or already booted counts as warm. */
  datatype Look = Serving | Cold(lastUsed: int) | Neither

  function IsCold(look: int -> Look): int -> bool { n => look(n).Cold? }

  function IsWarm(look: int -> Look): int -> bool { n => look(n).Serving? }

  function LastUse(look: int -> Look): int -> int { n => if look(n).Cold? then look(n).lastUsed else 0 }

  /** The group's floor as a whole: nothing unless memory was read and is
      enough, else the boots above, warmest cold slots first. */
  method EnforceWarmFloor(nums: seq<int>, look: int -> Look, turn: int -> Turn, warmCap: int, free: Option<real>, floor: real, dryRun: bool)
      returns (starts: seq<Start>)
    ensures var missing := warmCap - |Filter(nums, IsWarm(look))|;
            var cold := Sort(Filter(nums, IsCold(look)), Recent(LastUse(look)));
            starts == if dryRun || free.None? || free.value < floor then [] else Floor(cold, turn, missing, free.value, floor)
  {
    var warm, cold := LookAround(nums, look);
    cold := Sort(cold, Recent(LastUse(look)));
    if dryRun || warmCap - warm <= 0 || free.None? || free.value < floor {
      return [];
    }
    starts := BootMissing(cold, turn, warmCap - warm, free.value, floor);
  }

  /** Every cold slot has its turn, those used last first. */
  lemma WarmestFirst(nums: seq<int>, look: int -> Look)
    ensures var cold := Sort(Filter(nums, IsCold(look)), Recent(LastUse(look)));
            && (forall n :: n in cold <==> n in nums && look(n).Cold?)
            && |cold| == |Filter(nums, IsCold(look))|
            && forall i, j :: 0 <= i < j < |cold| ==> look(cold[i]).Cold? && look(cold[j]).Cold? && look(cold[i]).lastUsed >= look(cold[j]).lastUsed
  {
    var le, found := Recent(LastUse(look)), Filter(nums, IsCold(look));
    var cold := Sort(found, le);
    RecentIsOrder(LastUse(look));
    SortSorts(found, le);
    forall n ensures n in cold <==> n in nums && look(n).Cold? {
      SameElements(found, le, n);
      FilterAll(nums, IsCold(look), n);
    }
    forall i, j | 0 <= i < j < |cold|
      ensures look(cold[i]).Cold? && look(cold[j]).Cold? && look(cold[i]).lastUsed >= look(cold[j]).lastUsed
    {
      assert cold[i] in cold && cold[j] in cold && le(cold[i], cold[j]);
    }
  }

  method LookAround(nums: seq<int>, look: int -> Look) returns (warm: nat, cold: seq<int>)
    ensures warm == |Filter(nums, IsWarm(look))| && cold == Filter(nums, IsCold(look))
  {
    warm, cold := 0, [];
    for i := 0 to |nums|
      invariant warm + |Filter(nums[i..], IsWarm(look))| == |Filter(nums, IsWarm(look))|
      invariant cold + Filter(nums[i..], IsCold(look)) == Filter(nums, IsCold(look))
    {
      assert nums[i..][1..] == nums[i + 1..];
      Assoc(cold, [nums[i]], Filter(nums[i + 1..], IsCold(look)));
      match look(nums[i])
      case Serving => warm := warm + 1;
      case Cold(_) => cold := cold + [nums[i]];
      case Neither =>
    }
  }

  method BootMissing(cold: seq<int>, turn: int -> Turn, wanted: int, free: real, floor: real) returns (starts: seq<Start>)
    ensures starts == Floor(cold, turn, wanted, free, floor)
  {
    starts := [];
    var missing, reading := wanted, free;
    var i := 0;
    while i < |cold| && missing > 0
      invariant 0 <= i <= |cold|
      invariant starts + Floor(cold[i..], turn, missing, reading, floor) == Floor(cold, turn, wanted, free, floor)
    {
      assert cold[i..][1..] == cold[i + 1..];
      var c := cold[i];
      i := i + 1;
      match turn(c) {
        case Busy => missing := missing - 1;
        case Unfit =>
        case BootFails =>
          Assoc(starts, [Start(c, reading, false)], Floor(cold[i..], turn, missing, reading, floor));
          starts := starts + [Start(c, reading, false)];
        case Boots(after) =>
          var start := Start(c, reading, true);
          missing := missing - 1;
          if after.None? || after.value < floor {
            return starts + [start];
          }
          reading := after.value;
          Assoc(starts, [start], Floor(cold[i..], turn, missing, reading, floor));
          starts := starts + [start];
      }
    }
  }

  lemma Assoc<T>(a: seq<T>, b: seq<T>, c: seq<T>)
    ensures a + (b + c) == a + b + c
  {
  }
}
