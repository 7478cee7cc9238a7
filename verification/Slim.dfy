/** Slim profiles: which categories a slot keeps enabled, whether they serve a
    request, and what the slot's profile becomes when it is acquired. */
module Slim {
  import opened Sorting

  // ---------------------------------------------------------------- the order of sort.Strings

  predicate StrLe(a: string, b: string) {
    a == "" || (b != "" && (a[0] < b[0] || (a[0] == b[0] && StrLe(a[1..], b[1..]))))
  }

  const Le: (string, string) -> bool := (a, b) => StrLe(a, b)

  lemma {:induction false} StrLeTotal(a: string, b: string)
    ensures StrLe(a, b) || StrLe(b, a)
    ensures StrLe(a, b) && StrLe(b, a) ==> a == b
  {
    if a != "" && b != "" {
      StrLeTotal(a[1..], b[1..]);
      assert a == [a[0]] + a[1..] && b == [b[0]] + b[1..];
    }
  }

  lemma {:induction false} StrLeTransitive(a: string, b: string, c: string)
    requires StrLe(a, b) && StrLe(b, c)
    ensures StrLe(a, c)
  {
    if a != "" && a[0] == b[0] == c[0] {
      StrLeTransitive(a[1..], b[1..], c[1..]);
    }
  }

  lemma LeIsOrder()
    ensures TotalOrder(Le)
  {
    forall a, b ensures Le(a, b) || Le(b, a) { StrLeTotal(a, b); }
    forall a, b, c | Le(a, b) && Le(b, c) ensures Le(a, c) { StrLeTransitive(a, b, c); }
  }

  // ---------------------------------------------------------------- dedupeSorted

  function Dedupe(s: seq<string>): seq<string> {
    if s == [] then []
    else
      var v, rest := s[|s| - 1], Dedupe(s[..|s| - 1]);
      if v != "" && v !in rest then rest + [v] else rest
  }

  function Canon(s: seq<string>): seq<string> {
    Sort(Dedupe(s), Le)
  }

  /** Sorted, no repetition, no empty name. */
  ghost predicate Canonical(s: seq<string>) {
    Sorted(s, Le) && Distinct(s) && "" !in s
  }

  lemma {:induction false} DedupeElements(s: seq<string>)
    ensures Distinct(Dedupe(s))
    ensures forall x :: x in Dedupe(s) <==> x in s && x != ""
  {
    if s != [] {
      DedupeElements(s[..|s| - 1]);
      assert s == s[..|s| - 1] + [s[|s| - 1]];
    }
  }

  method DedupeSorted(input: seq<string>) returns (out: seq<string>)
    ensures out == Canon(input)
    ensures Canonical(out) && forall x :: x in out <==> x in input && x != ""
  {
    var seen: set<string> := {};
    out := [];
    for i := 0 to |input|
      invariant out == Dedupe(input[..i])
      invariant forall x :: x in seen <==> x in out
    {
      assert input[..i + 1][..i] == input[..i];
      var v := input[i];
      if v != "" && v !in seen {
        seen := seen + {v};
        out := out + [v];
      }
    }
    assert input[..|input|] == input;
    out := Sort(out, Le);
    CanonIs(input);
  }

  /** dedupeSorted's result is canonical, with exactly the non-empty names. */
  lemma CanonIs(s: seq<string>)
    ensures Canonical(Canon(s))
    ensures forall x :: x in Canon(s) <==> x in s && x != ""
  {
    DedupeElements(s);
    LeIsOrder();
    SortSorts(Dedupe(s), Le);
    DistinctPerm(Dedupe(s), Canon(s));
    forall x ensures x in Canon(s) <==> x in Dedupe(s) { SameElements(Dedupe(s), Le, x); }
  }

  /** A set of names has one canonical list. */
  lemma {:induction false} CanonicalUnique(a: seq<string>, b: seq<string>)
    requires Canonical(a) && Canonical(b) && forall x :: x in a <==> x in b
    ensures a == b
  {
    if a == [] {
      NoElements(b);
    } else {
      assert a[0] in a && a[0] in b;
      assert b[0] in b && b[0] in a;
      var i :| 0 <= i < |b| && b[i] == a[0];
      var j :| 0 <= j < |a| && a[j] == b[0];
      assert Le(a[0], a[j]) by { StrLeTotal(a[0], a[0]); }
      assert Le(b[0], b[i]) by { StrLeTotal(b[0], b[0]); }
      StrLeTotal(a[0], b[0]);
      Tails(a, b);
      CanonicalUnique(a[1..], b[1..]);
    }
  }

  lemma NoElements(s: seq<string>)
    ensures (forall x :: x !in s) ==> s == []
  {
    if s != [] { assert s[0] in s; }
  }

  lemma Tails(a: seq<string>, b: seq<string>)
    requires Canonical(a) && Canonical(b) && a != [] && b != [] && a[0] == b[0] && forall x :: x in a <==> x in b
    ensures Canonical(a[1..]) && Canonical(b[1..]) && forall x :: x in a[1..] <==> x in b[1..]
  {
    forall x ensures x in a[1..] <==> x in a && x != a[0] {}
    forall x ensures x in b[1..] <==> x in b && x != b[0] {}
  }

  lemma CanonOfCanonical(s: seq<string>)
    requires Canonical(s)
    ensures Canon(s) == s
  {
    CanonIs(s);
    CanonicalUnique(Canon(s), s);
  }

  // ---------------------------------------------------------------- serving a request

  predicate Serves(have: seq<string>, want: seq<string>) {
    forall w :: w in want ==> w in have
  }

  method Satisfies(have: seq<string>, want: seq<string>) returns (yes: bool)
    ensures yes <==> Serves(have, want)
  {
    if |want| == 0 { return true; }
    var on := map[];
    for i := 0 to |have|
      invariant forall x :: x in on <==> x in have[..i]
      invariant forall x :: x in on ==> on[x]
    {
      on := on[have[i] := true];
    }
    assert have[..|have|] == have;
    for i := 0 to |want|
      invariant forall w :: w in want[..i] ==> w in have
    {
      if want[i] !in on {
        return false;
      }
    }
    return true;
  }

  function Surplus(have: seq<string>, want: seq<string>): seq<string> {
    Filter(have, x => x !in want)
  }

  method SurplusCategories(have: seq<string>, want: seq<string>) returns (n: nat)
    ensures n == |Surplus(have, want)|
  {
    var wanted: set<string> := {};
    for i := 0 to |want|
      invariant forall x :: x in wanted <==> x in want[..i]
    {
      wanted := wanted + {want[i]};
    }
    n := 0;
    for i := 0 to |have|
      invariant n + |Filter(have[i..], x => x !in want)| == |Surplus(have, want)|
    {
      assert have[i..][1..] == have[i + 1..];
      if have[i] !in wanted { n := n + 1; }
    }
  }

  lemma {:induction false} SurplusSize(have: seq<string>, want: seq<string>)
    requires Distinct(have) && Distinct(want) && Serves(have, want)
    ensures |Surplus(have, want)| == |have| - |want|
  {
    var out := x => x !in want;
    var inw := x => x in want;
    FilterSplit(have, inw, out);
    var kept := Filter(have, inw);
    assert forall x :: x in kept <==> x in want by {
      forall x ensures x in kept <==> x in want { FilterAll(have, inw, x); }
    }
    FilterDistinct(have, inw);
    DistinctSize(kept);
    DistinctSize(want);
    assert Elements(kept) == Elements(want);
  }

  /** Among the slots that serve a request, the leanest carries least: a
      surplus of zero means exactly the requested set. */
  lemma NoSurplusIsExact(have: seq<string>, want: seq<string>)
    requires Canonical(have) && Canonical(want) && Serves(have, want)
    ensures |Surplus(have, want)| == |have| - |want|
    ensures |Surplus(have, want)| == 0 <==> have == want
  {
    SurplusSize(have, want);
    if |have| == |want| {
      forall x | x in have ensures x in want {
        FilterAll(have, y => y !in want, x);
      }
      CanonicalUnique(have, want);
    }
  }

  lemma {:induction false} FilterSplit(s: seq<string>, p: string -> bool, q: string -> bool)
    requires forall x :: p(x) != q(x)
    ensures |Filter(s, p)| + |Filter(s, q)| == |s|
  {
    if s != [] { FilterSplit(s[1..], p, q); }
  }

  lemma {:induction false} FilterDistinct(s: seq<string>, p: string -> bool)
    requires Distinct(s)
    ensures Distinct(Filter(s, p))
  {
    if s != [] {
      FilterDistinct(s[1..], p);
      FilterAll(s[1..], p, s[0]);
      forall k | 0 <= k < |s| - 1 ensures s[1..][k] != s[0] { assert s[1..][k] == s[k + 1]; }
    }
  }

  // ---------------------------------------------------------------- what the profile becomes

  function EffectiveCategories(have: seq<string>, want: seq<string>): seq<string> {
    if Serves(have, want) then Canon(have) else Canon(want)
  }

  /** The profile a slot ends up with serves the request exactly when the
      request names no empty category. */
  lemma EffectiveServes(have: seq<string>, want: seq<string>)
    ensures Canonical(EffectiveCategories(have, want))
    ensures Serves(EffectiveCategories(have, want), want) <==> "" !in want
  {
    CanonIs(have);
    CanonIs(want);
  }

  /** What a request resolves to is deduplicated first, so it is always served;
      acquiring again for the same request changes nothing; and a slot that
      already serves it keeps its own set. */
  lemma EffectiveIsStable(have: seq<string>, asked: seq<string>)
    ensures var want := Canon(asked);
            var r := EffectiveCategories(have, want);
            && Serves(r, want)
            && EffectiveCategories(r, want) == r
            && (Canonical(have) && Serves(have, want) ==> r == have)
            && (!Serves(have, want) ==> r == want)
  {
    var want := Canon(asked);
    CanonIs(asked);
    EffectiveServes(have, want);
    CanonOfCanonical(EffectiveCategories(have, want));
    CanonOfCanonical(want);
    if Canonical(have) { CanonOfCanonical(have); }
  }

  /** Without that deduplication it can keep changing: exactly when the empty
      name is asked for, the slot had it, and the slot had something else. */
  lemma EffectiveIdempotentWhen(have: seq<string>, want: seq<string>)
    ensures var r := EffectiveCategories(have, want);
            EffectiveCategories(r, want) == r <==>
              !("" in want && Serves(have, want) && exists x :: x in have && x != "" && x !in want)
  {
    var r := EffectiveCategories(have, want);
    CanonIs(have);
    CanonIs(want);
    EffectiveServes(have, want);
    CanonOfCanonical(r);
    if "" in want && Serves(have, want) {
      assert EffectiveCategories(r, want) == Canon(want) && r == Canon(have);
      if forall x :: x in have && x != "" ==> x in want {
        CanonicalUnique(Canon(have), Canon(want));
      }
    }
  }
}
