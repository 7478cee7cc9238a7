/** Names: how groups, slots and simulators are spelt, and read back. */
module Names {
  import opened Wrappers
  import opened Sorting

  /** The largest value strconv.Atoi accepts on a 64-bit host. */
  const MAX_INT := 0x7FFF_FFFF_FFFF_FFFF

  // ---------------------------------------------------------------- decimal numbers

  predicate IsDigit(c: char) { '0' <= c <= '9' }

  predicate AllDigits(s: string) { forall i :: 0 <= i < |s| ==> IsDigit(s[i]) }

  function Itoa(n: nat): (s: string)
    ensures |s| > 0 && AllDigits(s)
  {
    if n < 10 then ['0' + n as char] else Itoa(n / 10) + ['0' + (n % 10) as char]
  }

  function Value(s: string): nat
    requires AllDigits(s)
  {
    if s == "" then 0 else Value(s[..|s| - 1]) * 10 + (s[|s| - 1] - '0') as nat
  }

  lemma {:induction false} ValueOfItoa(n: nat)
    ensures Value(Itoa(n)) == n
  {
    if n >= 10 {
      ValueOfItoa(n / 10);
      assert Itoa(n)[..|Itoa(n)| - 1] == Itoa(n / 10);
    }
  }

  predicate Canonical(s: string) {
    |s| == 1 || (|s| > 1 && s[0] != '0')
  }

  lemma {:induction false} ItoaCanonical(n: nat)
    ensures Canonical(Itoa(n))
    ensures n > 0 ==> Itoa(n)[0] != '0'
  {
    if n >= 10 { ItoaCanonical(n / 10); }
  }

  /** A digit string is what Itoa writes exactly when it has no leading zero. */
  lemma {:induction false} ItoaOfValue(s: string)
    requires AllDigits(s) && s != ""
    ensures Itoa(Value(s)) == s <==> Canonical(s)
    ensures Canonical(s) && s != "0" ==> Value(s) > 0
  {
    if Canonical(s) {
      if |s| > 1 {
        var t := s[..|s| - 1];
        ItoaOfValue(t);
        assert Value(s) / 10 == Value(t) && Value(s) >= 10;
        assert s == t + [s[|s| - 1]];
      } else {
        assert Value(s[..0]) == 0;
      }
    } else {
      ItoaCanonical(Value(s));
    }
  }

  // ---------------------------------------------------------------- sanitize

  predicate Allowed(c: char) {
    'A' <= c <= 'Z' || 'a' <= c <= 'z' || IsDigit(c) || c == '.' || c == '_' || c == '-'
  }

  /** unicode.IsSpace. */
  predicate IsSpace(c: char) {
    || c == ' ' || '\U{0009}' <= c <= '\U{000D}' || c == '\U{0085}' || c == '\U{00A0}' || c == '\U{1680}'
    || '\U{2000}' <= c <= '\U{200A}' || c == '\U{2028}' || c == '\U{2029}' || c == '\U{202F}'
    || c == '\U{205F}' || c == '\U{3000}'
  }

  function TrimLeft(s: string, cut: char -> bool): string {
    if s != "" && cut(s[0]) then TrimLeft(s[1..], cut) else s
  }

  function TrimRight(s: string, cut: char -> bool): string {
    if s != "" && cut(s[|s| - 1]) then TrimRight(s[..|s| - 1], cut) else s
  }

  function Trim(s: string, cut: char -> bool): string {
    TrimRight(TrimLeft(s, cut), cut)
  }

  /** Every run of characters outside the allowed set becomes one dash; inRun
      says that the run's dash has been written already. */
  function Squash(s: string, inRun: bool): string {
    if s == "" then ""
    else if Allowed(s[0]) then [s[0]] + Squash(s[1..], false)
    else (if inRun then "" else "-") + Squash(s[1..], true)
  }

  const Dash: char -> bool := c => c == '-'
  const Space: char -> bool := c => IsSpace(c)

  function Sanitize(s: string): string {
    Trim(Squash(Trim(s, Space), false), Dash)
  }

  predicate AllAllowed(s: string) { forall i :: 0 <= i < |s| ==> Allowed(s[i]) }

  /** The names sanitize leaves alone. */
  predicate Clean(s: string) {
    AllAllowed(s) && (s != "" ==> s[0] != '-' && s[|s| - 1] != '-')
  }

  lemma {:induction false} SquashAllowed(s: string, inRun: bool)
    ensures AllAllowed(Squash(s, inRun))
  {
    if s != "" { SquashAllowed(s[1..], !Allowed(s[0])); }
  }

  lemma {:induction false} SquashFixes(s: string)
    requires AllAllowed(s)
    ensures Squash(s, false) == s
  {
    if s != "" { SquashFixes(s[1..]); }
  }

  lemma {:induction false} TrimLeftSlice(s: string, cut: char -> bool) returns (k: nat)
    ensures k <= |s| && TrimLeft(s, cut) == s[k..] && (k < |s| ==> !cut(s[k]))
  {
    if s != "" && cut(s[0]) {
      var j := TrimLeftSlice(s[1..], cut);
      k := j + 1;
    } else {
      k := 0;
    }
  }

  lemma {:induction false} TrimRightSlice(s: string, cut: char -> bool) returns (k: nat)
    ensures k <= |s| && TrimRight(s, cut) == s[..k] && (k > 0 ==> !cut(s[k - 1]))
  {
    if s != "" && cut(s[|s| - 1]) {
      k := TrimRightSlice(s[..|s| - 1], cut);
    } else {
      k := |s|;
    }
  }

  lemma TrimmedEnds(s: string, cut: char -> bool) returns (i: nat, j: nat)
    ensures i <= j <= |s| && Trim(s, cut) == s[i..j]
    ensures i < j ==> !cut(s[i]) && !cut(s[j - 1])
  {
    i := TrimLeftSlice(s, cut);
    var k := TrimRightSlice(s[i..], cut);
    j := i + k;
  }

  /** sanitize emits only clean names: in particular never '@' and never '/'. */
  lemma SanitizeClean(s: string)
    ensures Clean(Sanitize(s))
    ensures '@' !in Sanitize(s) && '/' !in Sanitize(s)
  {
    var q := Squash(Trim(s, Space), false);
    SquashAllowed(Trim(s, Space), false);
    var i, j := TrimmedEnds(q, Dash);
  }

  /** It leaves exactly the clean names alone, so it is idempotent. */
  lemma SanitizeFixes(s: string)
    ensures Sanitize(s) == s <==> Clean(s)
    ensures Sanitize(Sanitize(s)) == Sanitize(s)
  {
    hide Sanitize, Clean;
    SanitizeClean(s);
    if Clean(s) { CleanStays(s); }
    CleanStays(Sanitize(s));
  }

  lemma CleanStays(t: string)
    requires Clean(t)
    ensures Sanitize(t) == t
  {
    var i, j := TrimmedEnds(t, Space);
    assert Trim(t, Space) == t;
    SquashFixes(t);
    var k, l := TrimmedEnds(t, Dash);
    assert t != "" ==> TrimLeft(t, Dash) == t;
  }

  lemma {:induction false} SquashRun(s: string)
    ensures TrimLeft(Squash(s, true), Dash) == TrimLeft(Squash(s, false), Dash)
  {
    if s != "" && !Allowed(s[0]) {
      assert Squash(s, false) == "-" + Squash(s[1..], true);
      assert Squash(s, false)[1..] == Squash(s, true);
    }
  }

  lemma {:induction false} DropLeadingSpace(s: string)
    ensures TrimLeft(Squash(TrimLeft(s, Space), false), Dash) == TrimLeft(Squash(s, false), Dash)
  {
    if s != "" && Space(s[0]) {
      DropLeadingSpace(s[1..]);
      SquashRun(s[1..]);
      assert Squash(s, false) == "-" + Squash(s[1..], true);
      assert Squash(s, false)[1..] == Squash(s[1..], true);
    }
  }

  lemma {:induction false} SquashSnoc(s: string, c: char, inRun: bool)
    requires !Allowed(c)
    ensures Squash(s + [c], inRun) == Squash(s, inRun) || Squash(s + [c], inRun) == Squash(s, inRun) + "-"
  {
    if s == "" {
      assert Squash([c][1..], true) == "";
    } else {
      SquashSnoc(s[1..], c, !Allowed(s[0]));
      assert (s + [c])[1..] == s[1..] + [c];
    }
  }

  lemma {:induction false} TrimLeftSnocDash(s: string)
    ensures Trim(s + "-", Dash) == Trim(s, Dash)
  {
    var t := s + "-";
    if s == "" {
      assert TrimLeft(t, Dash) == TrimLeft(t[1..], Dash) == "";
    } else if s[0] == '-' {
      TrimLeftSnocDash(s[1..]);
      assert t[1..] == s[1..] + "-";
    } else {
      assert TrimLeft(t, Dash) == t && TrimLeft(s, Dash) == s && t[..|t| - 1] == s;
    }
  }

  lemma {:induction false} DropTrailingSpace(s: string)
    ensures Trim(Squash(TrimRight(s, Space), false), Dash) == Trim(Squash(s, false), Dash)
  {
    if s != "" && Space(s[|s| - 1]) {
      var t := s[..|s| - 1];
      DropTrailingSpace(t);
      SquashSnoc(t, s[|s| - 1], false);
      TrimLeftSnocDash(Squash(t, false));
      assert s == t + [s[|s| - 1]];
    }
  }

  /** Trimming white space first changes nothing. */
  lemma TrimSpaceIsRedundant(s: string)
    ensures Sanitize(s) == Trim(Squash(s, false), Dash)
  {
    DropTrailingSpace(TrimLeft(s, Space));
    DropLeadingSpace(s);
  }

  /** So outside the two ends each gap between clean parts becomes one dash. */
  lemma SanitizeJoins(a: string, gap: string, b: string)
    requires Clean(a) && a != "" && gap != "" && forall i :: 0 <= i < |gap| ==> !Allowed(gap[i])
    requires b != "" && Allowed(b[0]) && b[0] != '-'
    ensures Sanitize(a + gap + b) == a + "-" + Sanitize(b)
  {
    var q := Squash(b, false);
    TrimSpaceIsRedundant(a + gap + b);
    TrimSpaceIsRedundant(b);
    SquashAllowedThen(a, gap + b);
    SquashGap(gap, b);
    hide Sanitize, Allowed, Squash;
    assert a + gap + b == a + (gap + b);
    assert Squash(a + gap + b, false) == (a + "-") + q;
    assert q[0] == b[0] && TrimLeft(q, Dash) == q && TrimLeft((a + "-") + q, Dash) == (a + "-") + q;
    TrimRightSum(a + "-", q);
  }

  lemma {:induction false} SquashAllowedThen(a: string, b: string)
    requires AllAllowed(a)
    ensures Squash(a + b, false) == a + Squash(b, false)
  {
    if a == "" {
      assert a + b == b;
    } else {
      SquashAllowedThen(a[1..], b);
      assert (a + b)[1..] == a[1..] + b;
    }
  }

  lemma {:induction false} SquashGap(gap: string, b: string)
    requires gap != "" && (forall i :: 0 <= i < |gap| ==> !Allowed(gap[i])) && b != "" && Allowed(b[0])
    ensures Squash(gap + b, false) == "-" + Squash(b, false) && Squash(gap + b, true) == Squash(b, false) && Squash(b, false)[0] == b[0]
  {
    assert (gap + b)[1..] == gap[1..] + b;
    if |gap| == 1 {
      assert gap[1..] + b == b;
    } else {
      forall i | 0 <= i < |gap[1..]| ensures !Allowed(gap[1..][i]) { assert gap[1..][i] == gap[i + 1]; }
      SquashGap(gap[1..], b);
    }
  }

  lemma {:induction false} TrimRightSum(p: string, q: string)
    requires q != "" && q[0] != '-'
    ensures TrimRight(p + q, Dash) == p + TrimRight(q, Dash)
    decreases |q|
  {
    if q[|q| - 1] == '-' {
      TrimRightSum(p, q[..|q| - 1]);
      assert (p + q)[..|p + q| - 1] == p + q[..|q| - 1];
    }
  }

  /** The alphabet, by ASCII code: dash, dot, digits, letters, underscore. */
  lemma AllowedMeans(c: char)
    ensures var k := c as int;
            Allowed(c) <==> k in {45, 46, 95} || 48 <= k <= 57 || 65 <= k <= 90 || 97 <= k <= 122
  {
  }

  // ---------------------------------------------------------------- groups

  function GroupName(device: string, os: string): string {
    Sanitize(device) + "@" + Sanitize(os)
  }

  function LastIndex(s: string, c: char): (i: int)
    ensures -1 <= i < |s|
    ensures i >= 0 ==> s[i] == c
    ensures forall k :: i < k < |s| ==> s[k] != c
  {
    if s == "" then -1
    else if s[|s| - 1] == c then |s| - 1
    else LastIndex(s[..|s| - 1], c)
  }

  function GroupOSVersion(group: string): string {
    var i := LastIndex(group, '@');
    if i >= 0 then group[i + 1..] else ""
  }

  lemma OSVersionOfGroup(device: string, os: string)
    ensures GroupOSVersion(GroupName(device, os)) == Sanitize(os)
  {
    SanitizeClean(os);
    var g := GroupName(device, os);
    var k := |Sanitize(device)|;
    assert g[k] == '@' && g[k + 1..] == Sanitize(os);
    assert forall i :: k < i < |g| ==> g[i] == Sanitize(os)[i - k - 1];
  }

  /** Two device+OS pairs share a group exactly when they sanitize alike. */
  lemma GroupNameInjective(d1: string, o1: string, d2: string, o2: string)
    ensures GroupName(d1, o1) == GroupName(d2, o2) <==> Sanitize(d1) == Sanitize(d2) && Sanitize(o1) == Sanitize(o2)
  {
    if GroupName(d1, o1) == GroupName(d2, o2) {
      OSVersionOfGroup(d1, o1);
      OSVersionOfGroup(d2, o2);
      assert GroupName(d1, o1)[..|Sanitize(d1)|] == Sanitize(d1);
      assert GroupName(d2, o2)[..|Sanitize(d2)|] == Sanitize(d2);
    }
  }

  // ---------------------------------------------------------------- simulators

  predicate IsHex(c: char) { IsDigit(c) || 'a' <= c <= 'f' }

  /** What RootTag yields. */
  predicate IsTag(t: string) { |t| == 8 && forall i :: 0 <= i < 8 ==> IsHex(t[i]) }

  const NAME_PREFIX := "SIMPOOL_"

  function DeviceNameForGroup(tag: string, group: string, n: nat): string {
    NAME_PREFIX + tag + "_" + group + "_slot-" + Itoa(n)
  }

  function PoolDeviceTag(name: string): Option<string> {
    if !(NAME_PREFIX <= name) then None
    else
      var rest := name[|NAME_PREFIX|..];
      if |rest| < 9 || rest[8] != '_' || !IsTag(rest[..8]) then None else Some(rest[..8])
  }

  /** The tag is recovered, and nothing else has one. */
  lemma TagRecovered(name: string, tag: string)
    ensures PoolDeviceTag(name) == Some(tag) <==>
            |tag| == 8 && (forall i :: 0 <= i < 8 ==> tag[i] in "0123456789abcdef") && "SIMPOOL_" + tag + "_" <= name
  {
    if PoolDeviceTag(name) == Some(tag) {
      assert name[..17] == name[..8] + name[8..16] + [name[16]];
      assert name[8..][..8] == name[8..16] && name[8..][8] == name[16];
    }
    if IsTag(tag) && NAME_PREFIX + tag + "_" <= name {
      var p := NAME_PREFIX + tag + "_";
      assert |p| == 17 && name[..17] == p;
      assert name[..8] == p[..8] == NAME_PREFIX;
      assert name[8..][..8] == name[..17][8..16] == p[8..16] == tag;
      assert name[8..][8] == name[..17][16] == p[16];
    }
  }

  lemma TagOfDeviceName(tag: string, group: string, n: nat)
    requires IsTag(tag)
    ensures PoolDeviceTag(DeviceNameForGroup(tag, group, n)) == Some(tag)
  {
    var name := DeviceNameForGroup(tag, group, n);
    assert name == (NAME_PREFIX + tag + "_") + (group + "_slot-" + Itoa(n));
    TagRecovered(name, tag);
  }

  /** The fixed parts of a name, spelt out. */
  lemma SpeltOut(tag: string, device: string, os: string, n: nat)
    requires Clean(device) && Clean(os)
    ensures DeviceNameForGroup(tag, GroupName(device, os), n) == "SIMPOOL_" + tag + "_" + (device + "@" + os) + "_slot-" + Itoa(n)
  {
    hide Clean, Itoa, Sanitize;
    CleanStays(device);
    CleanStays(os);
  }

  lemma DecimalDigits(n: nat, d: nat)
    requires d < 10
    ensures Itoa(d) == ["0123456789"[d]]
    ensures n > 0 ==> Itoa(10 * n + d) == Itoa(n) + ["0123456789"[d]]
  {
    assert "0123456789"[d] == '0' + d as char;
    assert (10 * n + d) / 10 == n;
  }

  /** The last "_slot-" with only digits after it is unambiguous, whatever the group. */
  lemma DigitsEndAlike(g1: string, g2: string, a: string, b: string)
    requires AllDigits(a) && AllDigits(b) && g1 + "_slot-" + a == g2 + "_slot-" + b
    ensures |a| <= |b|
  {
    var s := g1 + "_slot-" + a;
    forall i | |s| - |a| <= i < |s| ensures IsDigit(s[i]) {
      assert s[i] == a[i - (|s| - |a|)];
    }
    assert s[|s| - |b| - 1] == (g2 + "_slot-")[|g2| + 5] == '-';
  }

  lemma DeviceNameParts(t: string, g: string, n: nat)
    requires |t| == 8
    ensures |DeviceNameForGroup(t, g, n)| >= 17 && DeviceNameForGroup(t, g, n)[8..16] == t
    ensures DeviceNameForGroup(t, g, n)[17..] == g + "_slot-" + Itoa(n)
  {
    hide Itoa;
  }

  /** A simulator's name identifies its pool root, its group and its slot. */
  lemma DeviceNameInjective(t1: string, g1: string, n1: nat, t2: string, g2: string, n2: nat)
    requires |t1| == |t2| == 8
    requires DeviceNameForGroup(t1, g1, n1) == DeviceNameForGroup(t2, g2, n2)
    ensures t1 == t2 && g1 == g2 && n1 == n2
  {
    var a, b := Itoa(n1), Itoa(n2);
    DeviceNameParts(t1, g1, n1);
    DeviceNameParts(t2, g2, n2);
    hide Itoa, DeviceNameForGroup;
    DigitsEndAlike(g1, g2, a, b);
    DigitsEndAlike(g2, g1, b, a);
    var k := |g1|;
    assert (g1 + "_slot-" + a)[..k] == g1 && (g2 + "_slot-" + b)[..k] == g2;
    assert (g1 + "_slot-" + a)[k + 6..] == a && (g2 + "_slot-" + b)[k + 6..] == b;
    ValueOfItoa(n1);
    ValueOfItoa(n2);
  }

  // ---------------------------------------------------------------- slot directories

  function StripSlashes(path: string): string {
    if path != "" && path[|path| - 1] == '/' then StripSlashes(path[..|path| - 1]) else path
  }

  /** filepath.Base. */
  function Base(path: string): string {
    if path == "" then "."
    else
      var p := StripSlashes(path);
      if p == "" then "/" else p[LastIndex(p, '/') + 1..]
  }

  /** The last part of a path, whatever slashes follow it. */
  lemma BaseMeans(dir: string, name: string, slashes: string)
    requires name != "" && '/' !in name && forall i :: 0 <= i < |slashes| ==> slashes[i] == '/'
    ensures Base(dir + "/" + name + slashes) == Base(name + slashes) == name
  {
    var p := dir + "/" + name;
    Stripped(p, slashes);
    Stripped(name, slashes);
    LastPart(dir, name);
    hide LastIndex, StripSlashes;
  }

  lemma LastPart(dir: string, name: string)
    requires '/' !in name
    ensures var p := dir + "/" + name; LastIndex(p, '/') == |dir| && p[|dir| + 1..] == name
    ensures LastIndex(name, '/') == -1 && name[0..] == name
  {
    var p := dir + "/" + name;
    assert p[|dir|] == '/' && forall i :: |dir| < i < |p| ==> p[i] == name[i - |dir| - 1];
  }

  lemma {:induction false} Stripped(p: string, slashes: string)
    requires (p != "" ==> p[|p| - 1] != '/') && forall i :: 0 <= i < |slashes| ==> slashes[i] == '/'
    ensures StripSlashes(p + slashes) == p
  {
    if slashes == "" {
      assert p + slashes == p;
    } else {
      var k := |slashes| - 1;
      Stripped(p, slashes[..k]);
      assert (p + slashes)[..|p| + k] == p + slashes[..k];
    }
  }

  function SlotDir(groupDir: string, n: nat): string {
    groupDir + "/slot-" + Itoa(n)
  }

  function SlotNumberIn(name: string): Option<nat> {
    if !("slot-" <= name) || |name| == 5 || !AllDigits(name[5..]) || Value(name[5..]) > MAX_INT then None
    else Some(Value(name[5..]))
  }

  function SlotNumberOf(dir: string): Option<nat> {
    SlotNumberIn(Base(dir))
  }

  lemma SlotDirBase(groupDir: string, n: nat)
    ensures Base(SlotDir(groupDir, n)) == "slot-" + Itoa(n)
  {
    var p, t, k := SlotDir(groupDir, n), "slot-" + Itoa(n), |groupDir|;
    assert forall i :: 0 <= i < |t| ==> t[i] != '/';
    hide Itoa;
    assert p == groupDir + "/" + t;
    assert p[k + 1..] == t && p[k] == '/';
    assert forall i :: k < i < |p| ==> p[i] == t[i - k - 1];
    assert StripSlashes(p) == p;
    assert LastIndex(p, '/') == k;
  }

  /** SlotNumberOf inverts SlotDir. */
  lemma SlotNumberOfSlotDir(groupDir: string, n: nat)
    requires n <= MAX_INT
    ensures SlotNumberOf(SlotDir(groupDir, n)) == Some(n)
  {
    SlotDirBase(groupDir, n);
    ValueOfItoa(n);
    assert ("slot-" + Itoa(n))[5..] == Itoa(n);
  }

  /** A directory whose name reads as n is n's own directory exactly when its
      number has no leading zero: slot-07 also reads as 7. */
  lemma ReadsAsOwnName(name: string)
    requires SlotNumberIn(name).Some?
    ensures name == "slot-" + Itoa(SlotNumberIn(name).value) <==> Canonical(name[5..])
  {
    ItoaOfValue(name[5..]);
    assert name == "slot-" + name[5..];
  }

  /** A name reads as a number exactly when it is "slot-" and digits that spell
      it, however many zeros first, and it fits in 63 bits. */
  lemma SlotNumberMeans(name: string, n: nat)
    ensures SlotNumberIn(name) == Some(n) <==>
            "slot-" <= name && n <= 9_223_372_036_854_775_807 && |name| > 5 && AllDigits(name[5..]) && Value(name[5..]) == n
  {
  }

  lemma LeadingZeroReads()
    ensures SlotNumberIn("slot-07") == SlotNumberIn("slot-7") == Some(7)
  {
    assert "slot-07"[5..] == "07" && "slot-7"[5..] == "7" && "07"[..1] == "0" && "7"[..0] == "" && "0"[..0] == "";
  }

  // ---------------------------------------------------------------- listing a group

  datatype Entry = Entry(name: string, isDir: bool)

  /** What reading a group's directory yields. */
  datatype Read = Missing | Unreadable | Entries(list: seq<Entry>)

  predicate Ascending(s: seq<int>) {
    forall i, j :: 0 <= i < j < |s| ==> s[i] <= s[j]
  }

  function NumberOf(e: Entry): seq<int> {
    if e.isDir && SlotNumberIn(e.name).Some? then [SlotNumberIn(e.name).value] else []
  }

  ghost function Numbers(list: seq<Entry>): seq<int> {
    if list == [] then [] else Numbers(list[..|list| - 1]) + NumberOf(list[|list| - 1])
  }

  method SortInts(a: array<int>)
    modifies a
    ensures Ascending(a[..]) && multiset(a[..]) == multiset(old(a[..]))
  {
    var i := 1;
    while i < a.Length
      invariant 1 <= i
      invariant forall p, q :: 0 <= p < q < i && q < a.Length ==> a[p] <= a[q]
      invariant multiset(a[..]) == multiset(old(a[..]))
    {
      var j := i;
      while j > 0 && a[j - 1] > a[j]
        invariant 0 <= j <= i
        invariant forall p, q :: 0 <= p < q <= i && q != j ==> a[p] <= a[q]
        invariant multiset(a[..]) == multiset(old(a[..]))
      {
        a[j - 1], a[j] := a[j], a[j - 1];
        j := j - 1;
      }
      i := i + 1;
    }
  }

  /** The slot numbers of a group, sorted; "no slots" and "could not tell" differ. */
  method ListSlotNumbersChecked(read: Read) returns (nums: Option<seq<int>>)
    ensures read.Missing? ==> nums == Some([])
    ensures read.Unreadable? ==> nums == None
    ensures read.Entries? ==> nums.Some? && Ascending(nums.value) && multiset(nums.value) == multiset(Numbers(read.list))
  {
    if read.Missing? { return Some([]); }
    if read.Unreadable? { return None; }
    var found: seq<int> := [];
    for i := 0 to |read.list|
      invariant found == Numbers(read.list[..i])
    {
      assert read.list[..i + 1][..i] == read.list[..i];
      var e := read.list[i];
      if e.isDir {
        var n := SlotNumberIn(e.name);
        if n.Some? {
          found := found + [n.value];
        }
      }
    }
    assert read.list[..|read.list|] == read.list;
    var a := new int[|found|](i requires 0 <= i < |found| => found[i]);
    assert a[..] == found;
    SortInts(a);
    nums := Some(a[..]);
  }

  lemma {:induction false} NumbersAre(list: seq<Entry>, n: int)
    ensures n in Numbers(list) <==> exists e :: e in list && NumberOf(e) == [n]
  {
    if list != [] {
      var e := list[|list| - 1];
      NumbersAre(list[..|list| - 1], n);
      assert list == list[..|list| - 1] + [e];
    }
  }

  /** No two directories read as the same number. */
  predicate ReadApart(list: seq<Entry>) {
    forall i, j :: 0 <= i < j < |list| ==> NumberOf(list[i]) == [] || NumberOf(list[i]) != NumberOf(list[j])
  }

  lemma ReadApartSnoc(list: seq<Entry>, e: Entry)
    ensures ReadApart(list + [e]) <==>
            ReadApart(list) && forall d :: d in list && NumberOf(d) != [] ==> NumberOf(d) != NumberOf(e)
  {
    var all := list + [e];
    if ReadApart(all) {
      forall i, j | 0 <= i < j < |list| ensures NumberOf(list[i]) == [] || NumberOf(list[i]) != NumberOf(list[j]) {
        assert all[i] == list[i] && all[j] == list[j];
      }
      forall d | d in list && NumberOf(d) != [] ensures NumberOf(d) != NumberOf(e) {
        var i :| 0 <= i < |list| && list[i] == d;
        assert all[i] == d && all[|list|] == e;
      }
    }
  }

  /** A group is listed without repetition exactly when no two of its
      directories read as the same number. */
  lemma {:induction false} ListedOnce(list: seq<Entry>)
    ensures Distinct(Numbers(list)) <==> ReadApart(list)
  {
    if list != [] {
      var init, e := list[..|list| - 1], list[|list| - 1];
      ListedOnce(init);
      ReadApartSnoc(init, e);
      assert list == init + [e];
      if NumberOf(e) != [] {
        var n := NumberOf(e)[0];
        DistinctSnoc(Numbers(init), n);
        NumbersAre(init, n);
        assert NumberOf(e) == [n] && Numbers(list) == Numbers(init) + [n];
      } else {
        assert Numbers(list) == Numbers(init);
      }
    }
  }
}
