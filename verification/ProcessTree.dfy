/** The process table: descendants of a simulator's root process, the live
    consumers of a device, and the two recognisers of disposable residue. */
module ProcessTree {
  import opened Wrappers
  import opened Sorting

  /** One line of `ps -axo pid=,ppid=`; a line that is not two integers is skipped. */
  datatype Line = Row(pid: int, ppid: int) | Garbage

  type Tree = map<int, seq<int>>

  function Kids(tree: Tree, p: int): seq<int> {
    if p in tree then tree[p] else []
  }

  // ---------------------------------------------------------------- the snapshot

  /** p's direct children, in the order the snapshot lists them. */
  ghost function ChildrenIn(lines: seq<Line>, p: int): seq<int> {
    if lines == [] then []
    else
      var last := lines[|lines| - 1];
      ChildrenIn(lines[..|lines| - 1], p) + if last.Row? && last.ppid == p then [last.pid] else []
  }

  lemma {:induction false} ChildrenAreRows(lines: seq<Line>, p: int, c: int)
    ensures c in ChildrenIn(lines, p) <==> Row(c, p) in lines
  {
    if lines != [] {
      ChildrenAreRows(lines[..|lines| - 1], p, c);
      assert lines == lines[..|lines| - 1] + [lines[|lines| - 1]];
    }
  }

  method ParseTree(lines: seq<Line>) returns (tree: Tree)
    ensures forall p :: Kids(tree, p) == ChildrenIn(lines, p)
  {
    tree := map[];
    for i := 0 to |lines|
      invariant forall p :: Kids(tree, p) == ChildrenIn(lines[..i], p)
    {
      assert lines[..i + 1][..i] == lines[..i];
      if lines[i].Row? {
        tree := tree[lines[i].ppid := Kids(tree, lines[i].ppid) + [lines[i].pid]];
      }
    }
    assert lines[..|lines|] == lines;
  }

  // ---------------------------------------------------------------- reachability

  ghost predicate IsPath(tree: Tree, path: seq<int>) {
    |path| > 0 && forall i :: 0 <= i < |path| - 1 ==> path[i + 1] in Kids(tree, path[i])
  }

  ghost predicate Reaches(tree: Tree, a: int, b: int) {
    exists path :: IsPath(tree, path) && path[0] == a && path[|path| - 1] == b
  }

  lemma ReachesSelf(tree: Tree, a: int)
    ensures Reaches(tree, a, a)
  {
    assert IsPath(tree, [a]);
  }

  lemma ReachesKid(tree: Tree, a: int, b: int, c: int)
    requires c in Kids(tree, b) && Reaches(tree, a, b)
    ensures Reaches(tree, a, c)
  {
    var path :| IsPath(tree, path) && path[0] == a && path[|path| - 1] == b;
    assert IsPath(tree, path + [c]);
  }

  ghost predicate Closed(tree: Tree, from: set<int>, to: set<int>) {
    forall x, c :: x in from && c in Kids(tree, x) ==> c in to
  }

  lemma {:induction false} PathStaysIn(tree: Tree, path: seq<int>, s: set<int>)
    requires IsPath(tree, path) && path[0] in s && Closed(tree, s, s)
    ensures path[|path| - 1] in s
  {
    if |path| > 1 {
      var a, b := path[0], path[0 + 1];
      assert a in s && b in Kids(tree, a);
      PathStaysIn(tree, path[1..], s);
    }
  }

  // ---------------------------------------------------------------- the walk

  ghost function Everyone(tree: Tree): set<int> {
    set p, c | p in tree && c in tree[p] :: c
  }

  /** The variables Descendants' closure captures. */
  class Walker {
    var seen: set<int>
    var out: seq<int>

    constructor (root: int)
      ensures seen == {root} && out == []
    {
      seen, out := {root}, [];
    }

    /** Everything found since `before` hangs off p, and is listed once. */
    ghost predicate Progress(tree: Tree, root: int, p: int)
      reads this
    {
      && root in seen
      && (forall c :: c in out <==> c in seen && c != root)
      && Distinct(out)
      && (forall c :: c in seen ==> Reaches(tree, root, c))
      && p in seen
    }

    /** Terminates on any table, cycles included: each call marks a pid first. */
    method Walk(tree: Tree, root: int, p: int)
      requires Progress(tree, root, p)
      modifies this
      ensures Progress(tree, root, p) && old(seen) <= seen
      ensures Closed(tree, seen - old(seen) + {p}, seen)
      decreases Everyone(tree) - seen
    {
      ghost var start := seen;
      var kids := Kids(tree, p);
      for i := 0 to |kids|
        invariant Progress(tree, root, p) && start <= seen
        invariant forall c :: c in kids[..i] ==> c in seen
        invariant Closed(tree, seen - start, seen)
      {
        var c := kids[i];
        if c !in seen {
          ghost var before := seen;
          ReachesKid(tree, root, p, c);
          assert c in Everyone(tree);
          seen := seen + {c};
          out := out + [c];
          Walk(tree, root, c);
          assert Closed(tree, seen - start, seen) by {
            forall x, k | x in seen - start && k in Kids(tree, x) ensures k in seen {
              if x in before {
                assert x in before - start;
              } else if x != c {
                assert x in seen - (before + {c});
              }
            }
          }
        }
      }
      assert kids[..|kids|] == kids;
    }
  }

  /** Every pid reachable from root, except root itself, exactly once, and
      nothing else; nothing at all when the snapshot failed. */
  method Descendants(snapshot: Option<seq<Line>>, root: int) returns (out: seq<int>)
    ensures Distinct(out)
    ensures forall c :: c in out <==> Under(snapshot, root, c) && c != root
  {
    if snapshot.None? {
      return [];
    }
    var tree := ParseTree(snapshot.value);
    var w := new Walker(root);
    ReachesSelf(tree, root);
    w.Walk(tree, root, root);
    out := w.out;
    ghost var seen := w.seen;
    assert Closed(tree, seen, seen);
    forall c ensures c in seen <==> Under(snapshot, root, c) {
      if Under(snapshot, root, c) {
        var path :| IsPathIn(snapshot.value, path) && path[0] == root && path[|path| - 1] == c;
        assert IsPath(tree, path);
        PathStaysIn(tree, path, seen);
      }
      if c in seen {
        var path :| IsPath(tree, path) && path[0] == root && path[|path| - 1] == c;
        assert IsPathIn(snapshot.value, path);
      }
    }
  }

  ghost predicate IsPathIn(lines: seq<Line>, path: seq<int>) {
    |path| > 0 && forall i :: 0 <= i < |path| - 1 ==> path[i + 1] in ChildrenIn(lines, path[i])
  }

  /** root reaches c through rows of the snapshot (nothing, when it failed). */
  ghost predicate Under(snapshot: Option<seq<Line>>, root: int, c: int) {
    snapshot.Some? && exists path :: IsPathIn(snapshot.value, path) && path[0] == root && path[|path| - 1] == c
  }

  // ---------------------------------------------------------------- live consumers

  /** What one pass over the host can see: pids whose command line mentions
      the UDID, pids of launchd_sim processes, which of those mention the UDID
      themselves, and the snapshot read for each of them. */
  datatype Host = Host(
    matches: Option<seq<int>>,
    roots: Option<seq<int>>,
    mentions: set<int>,
    snapshots: seq<Option<seq<Line>>>)

  ghost predicate WellFormed(h: Host) {
    h.roots.Some? ==> |h.snapshots| == |h.roots.value|
  }

  /** p is the simulator's own: a matching launchd_sim or something it started. */
  ghost predicate Runtime(h: Host, k: nat, p: int)
    requires h.roots.Some? && WellFormed(h) && k <= |h.roots.value|
  {
    exists i :: 0 <= i < k && h.roots.value[i] in h.mentions
      && (p == h.roots.value[i] || Under(h.snapshots[i], h.roots.value[i], p))
  }

  ghost function Outsiders(h: Host, ps: seq<int>): seq<int>
    requires h.roots.Some? && WellFormed(h)
  {
    if ps == [] then []
    else
      var p := ps[|ps| - 1];
      Outsiders(h, ps[..|ps| - 1]) + if Runtime(h, |h.roots.value|, p) then [] else [p]
  }

  lemma {:induction false} OutsidersAre(h: Host, ps: seq<int>, p: int)
    requires h.roots.Some? && WellFormed(h)
    ensures p in Outsiders(h, ps) <==> p in ps && !Runtime(h, |h.roots.value|, p)
  {
    if ps != [] {
      OutsidersAre(h, ps[..|ps| - 1], p);
      assert ps == ps[..|ps| - 1] + [ps[|ps| - 1]];
    }
  }

  /** The matches minus every matching launchd_sim and what it reaches, in
      order; any failed query but a snapshot fails the whole call. */
  method LiveConsumers(h: Host) returns (live: Option<seq<int>>)
    requires WellFormed(h)
    ensures h.matches.None? ==> live == None
    ensures h.matches == Some([]) ==> live == Some([])
    ensures h.matches.Some? && h.matches.value != [] ==>
              live == if h.roots.None? then None else Some(Outsiders(h, h.matches.value))
  {
    if h.matches.None? || h.matches.value == [] {
      return h.matches;
    }
    if h.roots.None? {
      return None;
    }
    var roots := h.roots.value;
    var exclude: set<int> := {};
    for i := 0 to |roots|
      invariant forall p :: p in exclude <==> Runtime(h, i, p)
    {
      if roots[i] in h.mentions {
        var below := Descendants(h.snapshots[i], roots[i]);
        exclude := exclude + {roots[i]};
        var before := exclude;
        for k := 0 to |below|
          invariant exclude == before + (set d | d in below[..k])
        {
          exclude := exclude + {below[k]};
          assert below[..k + 1] == below[..k] + [below[k]];
        }
        assert below[..|below|] == below;
      }
    }
    var found := [];
    var matches := h.matches.value;
    for i := 0 to |matches|
      invariant found == Outsiders(h, matches[..i])
    {
      assert matches[..i + 1][..i] == matches[..i];
      if matches[i] !in exclude {
        found := found + [matches[i]];
      }
    }
    assert matches[..|matches|] == matches;
    live := Some(found);
  }

  /** Losing any of the snapshots never hides a consumer: it can only make the
      device look busier. */
  lemma LostSnapshotsOnlyAdd(h: Host, lossy: Host, ps: seq<int>, p: int)
    requires h.roots.Some? && WellFormed(h) && WellFormed(lossy)
    requires lossy == h.(snapshots := lossy.snapshots)
    requires forall i :: 0 <= i < |h.snapshots| ==> lossy.snapshots[i] == h.snapshots[i] || lossy.snapshots[i] == None
    requires p in Outsiders(h, ps)
    ensures p in Outsiders(lossy, ps)
  {
    OutsidersAre(h, ps, p);
    OutsidersAre(lossy, ps, p);
    if Runtime(lossy, |h.roots.value|, p) {
      RuntimeShrinks(h, lossy, p);
      assert false;
    }
  }

  lemma RuntimeShrinks(h: Host, lossy: Host, p: int)
    requires h.roots.Some? && WellFormed(h) && WellFormed(lossy)
    requires lossy == h.(snapshots := lossy.snapshots)
    requires forall i :: 0 <= i < |h.snapshots| ==> lossy.snapshots[i] == h.snapshots[i] || lossy.snapshots[i] == None
    requires Runtime(lossy, |h.roots.value|, p)
    ensures Runtime(h, |h.roots.value|, p)
  {
    var i :| 0 <= i < |h.roots.value| && h.roots.value[i] in h.mentions
      && (p == h.roots.value[i] || Under(lossy.snapshots[i], h.roots.value[i], p));
    assert p == h.roots.value[i] || Under(h.snapshots[i], h.roots.value[i], p);
  }

  // ---------------------------------------------------------------- residue recognisers

  predicate HasSuffix(s: string, t: string) {
    |t| <= |s| && s[|s| - |t|..] == t
  }

  /** argv[0] is the binary, bare or by path. */
  predicate RunsBinary(argv: seq<string>, name: string) {
    |argv| > 0 && (argv[0] == name || HasSuffix(argv[0], "/" + name))
  }

  /** The index of the first `--udid` that has a value after it. */
  ghost predicate FirstUdidFlag(argv: seq<string>, i: nat) {
    1 <= i < |argv| - 1 && argv[i] == "--udid" && forall j :: 1 <= j < i ==> argv[j] != "--udid"
  }

  /** An idb_companion whose first --udid names this device. */
  method IsIdbCompanionFor(argv: seq<string>, udid: string) returns (yes: bool)
    ensures yes <==> CompanionOf(argv, udid)
  {
    if |argv| == 0 || !RunsBinary(argv, "idb_companion") {
      return false;
    }
    var i := 1;
    while i < |argv| - 1
      invariant 1 <= i
      invariant forall j :: 1 <= j < i && j < |argv| - 1 ==> argv[j] != "--udid"
    {
      if argv[i] == "--udid" {
        assert FirstUdidFlag(argv, i);
        return argv[i + 1] == udid;
      }
      i := i + 1;
    }
    return false;
  }

  ghost predicate CompanionOf(argv: seq<string>, udid: string) {
    RunsBinary(argv, "idb_companion") && exists i: nat :: FirstUdidFlag(argv, i) && argv[i + 1] == udid
  }

  /** A `simctl spawn <udid> log stream` whose parent is known to be launchd. */
  predicate LogStreamOf(argv: seq<string>, ppid: Option<int>, udid: string) {
    && udid != ""
    && |argv| >= 5
    && RunsBinary(argv, "simctl")
    && argv[1] == "spawn" && argv[2] == udid && argv[3] == "log" && argv[4] == "stream"
    && ppid == Some(1)
  }

  /** Run by its bare name, or by some path that ends in it. */
  ghost predicate Runs(argv: seq<string>, name: string) {
    argv != [] && (argv[0] == name || exists dir: string :: argv[0] == dir + "/" + name)
  }

  lemma RunsMeans(argv: seq<string>, name: string)
    ensures RunsBinary(argv, name) <==> Runs(argv, name)
  {
    if argv != [] {
      var s, t := argv[0], "/" + name;
      if HasSuffix(s, t) {
        assert s == s[..|s| - |t|] + t == s[..|s| - |t|] + "/" + name;
      }
      if dir: string :| s == dir + "/" + name {
        assert s == dir + t && s[|s| - |t|..] == t;
      }
    }
  }

  /** What each kind of residue is, to the letter. */
  lemma ResidueMeans(argv: seq<string>, ppid: Option<int>, udid: string)
    ensures CompanionOf(argv, udid) <==>
            Runs(argv, "idb_companion")
            && exists i :: 1 <= i < |argv| - 1 && argv[i] == "--udid" && argv[i + 1] == udid && "--udid" !in argv[1..i]
    ensures LogStreamOf(argv, ppid, udid) <==>
            Runs(argv, "simctl") && |argv| >= 5 && argv[1..5] == ["spawn", udid, "log", "stream"] && udid != "" && ppid == Some(1)
  {
    RunsMeans(argv, "idb_companion");
    RunsMeans(argv, "simctl");
    hide RunsBinary, Runs;
    forall i: nat | 1 <= i < |argv| - 1 ensures "--udid" !in argv[1..i] <==> forall j :: 1 <= j < i ==> argv[j] != "--udid" {
      FoundIn(argv, i, "--udid");
    }
    if i :| 1 <= i < |argv| - 1 && argv[i] == "--udid" && argv[i + 1] == udid && "--udid" !in argv[1..i] {
      assert FirstUdidFlag(argv, i);
    }
    if |argv| >= 5 {
      assert argv[1..5] == [argv[1], argv[2], argv[3], argv[4]];
    }
  }

  lemma FoundIn(argv: seq<string>, i: nat, s: string)
    requires 1 <= i <= |argv|
    ensures s !in argv[1..i] <==> forall j :: 1 <= j < i ==> argv[j] != s
  {
    forall j | 1 <= j < i ensures argv[1..i][j - 1] == argv[j] {}
  }

  ghost predicate ResidueOf(argv: seq<string>, ppid: Option<int>, udid: string) {
    CompanionOf(argv, udid) || LogStreamOf(argv, ppid, udid)
  }

  lemma LastChar(argv: seq<string>, name: string)
    requires RunsBinary(argv, name) && name != ""
    ensures argv[0] != "" && argv[0][|argv[0]| - 1] == name[|name| - 1]
  {
    if argv[0] != name {
      var t := "/" + name;
      assert argv[0][|argv[0]| - |t|..][|t| - 1] == t[|t| - 1];
    }
  }

  /** A process is residue of at most one device, and of one kind. */
  lemma ResidueOfOneDevice(argv: seq<string>, ppid: Option<int>, u: string, v: string)
    requires ResidueOf(argv, ppid, u) && ResidueOf(argv, ppid, v)
    ensures u == v
    ensures !(CompanionOf(argv, u) && LogStreamOf(argv, ppid, u))
  {
    if RunsBinary(argv, "idb_companion") { LastChar(argv, "idb_companion"); }
    if RunsBinary(argv, "simctl") { LastChar(argv, "simctl"); }
    if CompanionOf(argv, u) && CompanionOf(argv, v) {
      var i: nat :| FirstUdidFlag(argv, i) && argv[i + 1] == u;
      var j: nat :| FirstUdidFlag(argv, j) && argv[j + 1] == v;
      assert i == j;
    }
  }
}
