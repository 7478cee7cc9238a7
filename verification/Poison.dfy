/** Whether a free-looking slot's previous consumer may still be alive, and the
    only grounds on which anything is ever killed because of it.  Every read is
    of a world that may have changed since the one before. */
module Poison {
  import opened Wrappers

  datatype Device = Device(udid: string, name: string, state: string)

  /** meta.json, as far as liveness goes. */
  datatype Meta = Meta(
    udid: string, mode: string, pgid: int, startedAt: string,
    leaseKey: string, ownerPid: int, lastUsed: int)

  /** Everything that can be asked of the host, at one instant. */
  datatype World = World(
    pgidAlive: int -> bool,
    live: string -> Option<seq<int>>,          // procs.LiveConsumers
    residue: (int, string) -> bool,            // one of the two recognisers
    devices: Option<seq<Device>>,
    startTime: int -> Option<string>,
    alive: int -> bool,
    killable: int -> bool,                     // whether a signal to a group is delivered
    saves: bool,                               // whether meta.json can be written
    holders: Option<seq<int>>,                 // who has the slot's lock file open
    runsWith: int -> bool,                     // a `simpool with`
    children: int -> Option<seq<int>>,
    now: int)

  datatype Evidence = NoEvidence | TargetNotRunning | SlotLongIdle | OwnerReleased

  datatype Verdict =
    | Clean
    | ConsumerGroup(pgid: int)
    | LiveConsumers
    | CheckFailure
    | Residue(pids: seq<int>, evidence: Evidence)

  /** A session saying that its own use of the slot is over; observers declare nothing. */
  datatype Owner = Owner(releasedKey: string, finishingPid: int)

  const NOBODY := Owner("", 0)

  const IDLE_GRACE := 1800

  predicate Declares(d: Owner, m: Meta) {
    || (d.releasedKey != "" && m.mode == "lease" && m.leaseKey == d.releasedKey)
    || (d.finishingPid != 0 && (m.mode == "with" || m.mode == "acquire") && m.ownerPid == d.finishingPid)
  }

  // ---------------------------------------------------------------- decisions, on what was seen

  function FindDevice(ds: seq<Device>, udid: string): Option<Device> {
    if ds == [] then None else if ds[0].udid == udid then Some(ds[0]) else FindDevice(ds[1..], udid)
  }

  /** None when the device set could not be read, or read as empty. */
  function Offline(ds: Option<seq<Device>>, udid: string): Option<bool> {
    if ds.None? || ds.value == [] then None
    else
      match FindDevice(ds.value, udid)
      case None => Some(true)
      case Some(d) => Some(d.state == "Shutdown")
  }

  predicate LongIdle(m: Meta, now: int) {
    m.lastUsed != 0 && now - m.lastUsed >= IDLE_GRACE
  }

  /** The grounds, if any, for reading all of `live` as disposable residue. */
  function AllResidue(m: Meta, w: World, live: seq<int>, owner: Owner): Evidence {
    if live == [] || exists pid :: pid in live && !w.residue(pid, m.udid) then NoEvidence
    else if Offline(w.devices, m.udid) == Some(true) then TargetNotRunning
    else if LongIdle(m, w.now) then SlotLongIdle
    else if Declares(owner, m) then OwnerReleased
    else NoEvidence
  }

  function Judge(m: Meta, w: World, owner: Owner): Verdict {
    if m.udid == "" then Clean
    else if m.pgid != 0 && w.pgidAlive(m.pgid) then ConsumerGroup(m.pgid)
    else
      match w.live(m.udid)
      case None => CheckFailure
      case Some(live) =>
        if live == [] then Clean
        else
          var e := AllResidue(m, w, live, owner);
          if e.NoEvidence? then LiveConsumers else Residue(live, e)
  }

  predicate OwnDevice(ds: Option<seq<Device>>, udid: string, own: string) {
    ds.Some? && FindDevice(ds.value, udid).Some? && FindDevice(ds.value, udid).value.name == own
  }

  /** A declaration can only turn "live consumers" into "residue its own owner
      released"; it changes nothing else. */
  lemma DeclarationOnlyReleases(m: Meta, w: World, owner: Owner)
    ensures Judge(m, w, owner) != Judge(m, w, NOBODY) ==>
              && Judge(m, w, NOBODY) == LiveConsumers
              && Judge(m, w, owner) == Residue(w.live(m.udid).value, OwnerReleased)
              && Declares(owner, m)
    ensures Judge(m, w, NOBODY).Residue? ==> Judge(m, w, NOBODY).evidence != OwnerReleased
  {
    assert !Declares(NOBODY, m);
  }

  /** A live consumer outside the residue classes is never read as residue,
      whatever anybody declares, and an unreadable host is never read as free. */
  lemma NeverGuessed(m: Meta, w: World, owner: Owner)
    requires m.udid != ""
    ensures w.live(m.udid).None? ==> !Judge(m, w, owner).Clean? && !Judge(m, w, owner).Residue?
    ensures w.live(m.udid).Some? && (exists pid :: pid in w.live(m.udid).value && !w.residue(pid, m.udid)) ==>
              Judge(m, w, owner).ConsumerGroup? || Judge(m, w, owner).LiveConsumers?
    ensures Judge(m, w, owner).Residue? ==> Judge(m, w, owner).pids == w.live(m.udid).value != []
  {
  }

  // ---------------------------------------------------------------- what the decisions mean

  /** The device a lookup of udid finds. */
  ghost predicate FirstWith(ds: seq<Device>, udid: string, i: nat)
    requires i < |ds|
  {
    ds[i].udid == udid && forall j :: 0 <= j < i ==> ds[j].udid != udid
  }

  lemma {:induction false} FindMeans(ds: seq<Device>, udid: string)
    ensures forall i: nat :: i < |ds| && FirstWith(ds, udid, i) ==> FindDevice(ds, udid) == Some(ds[i])
    ensures (forall i: nat :: i < |ds| ==> ds[i].udid != udid) ==> FindDevice(ds, udid) == None
    ensures (exists i: nat :: i < |ds| && ds[i].udid == udid) ==> exists i: nat :: i < |ds| && FirstWith(ds, udid, i)
  {
    if ds != [] {
      var t := ds[1..];
      FindMeans(t, udid);
      forall i: nat | 0 < i < |ds| ensures t[i - 1] == ds[i] {}
      if ds[0].udid == udid {
        assert FirstWith(ds, udid, 0);
      } else {
        forall i: nat | i < |t| && FirstWith(t, udid, i) ensures FirstWith(ds, udid, i + 1) && t[i] == ds[i + 1] {
          forall j | 0 <= j < i + 1 ensures ds[j].udid != udid { if j > 0 { assert t[j - 1].udid != udid; } }
        }
        forall i: nat | i < |ds| && FirstWith(ds, udid, i) ensures FirstWith(t, udid, i - 1) {
          forall j | 0 <= j < i - 1 ensures t[j].udid != udid { assert ds[j + 1].udid != udid; }
        }
        if i: nat :| i < |ds| && ds[i].udid == udid { assert t[i - 1].udid == udid; }
      }
    }
  }

  /** The listing was read and is not empty, and has the device as "Shutdown" or
      not at all. */
  ghost predicate ConfirmedDown(ds: Option<seq<Device>>, udid: string) {
    ds.Some? && ds.value != [] && forall i: nat :: i < |ds.value| && FirstWith(ds.value, udid, i) ==> ds.value[i].state == "Shutdown"
  }

  lemma OfflineMeans(ds: Option<seq<Device>>, udid: string)
    ensures Offline(ds, udid) == Some(true) <==> ConfirmedDown(ds, udid)
  {
    if ds.Some? {
      FindMeans(ds.value, udid);
      hide FirstWith;
    }
  }

  /** The listing was read and has the device, under this slot's own name. */
  ghost predicate ListedAsOwn(ds: Option<seq<Device>>, udid: string, own: string) {
    ds.Some? && exists i: nat :: i < |ds.value| && FirstWith(ds.value, udid, i) && ds.value[i].name == own
  }

  lemma OwnDeviceMeans(ds: Option<seq<Device>>, udid: string, own: string)
    ensures OwnDevice(ds, udid, own) <==> ListedAsOwn(ds, udid, own)
  {
    if ds.Some? {
      FindMeans(ds.value, udid);
      hide FirstWith;
    }
  }

  /** Used at some time, and not in the last half hour. */
  predicate HalfHourIdle(m: Meta, now: int) {
    m.lastUsed != 0 && now - m.lastUsed >= 1800
  }

  /** Its own session says it is over: the lease key the slot was last leased
      under, or the process that has it. */
  predicate OwnersWord(d: Owner, m: Meta) {
    if m.mode == "lease" then d.releasedKey == m.leaseKey != ""
    else m.mode in {"with", "acquire"} && d.finishingPid == m.ownerPid != 0
  }

  /** The first of the three grounds that applies. */
  ghost predicate Grounds(m: Meta, w: World, owner: Owner, e: Evidence) {
    match e
    case NoEvidence => !ConfirmedDown(w.devices, m.udid) && !HalfHourIdle(m, w.now) && !OwnersWord(owner, m)
    case TargetNotRunning => ConfirmedDown(w.devices, m.udid)
    case SlotLongIdle => !ConfirmedDown(w.devices, m.udid) && HalfHourIdle(m, w.now)
    case OwnerReleased => !ConfirmedDown(w.devices, m.udid) && !HalfHourIdle(m, w.now) && OwnersWord(owner, m)
  }

  ghost predicate AllAreResidue(m: Meta, w: World, live: seq<int>) {
    forall i :: 0 <= i < |live| ==> w.residue(live[i], m.udid)
  }

  lemma AllResidueMeans(m: Meta, w: World, live: seq<int>, owner: Owner, e: Evidence)
    ensures AllResidue(m, w, live, owner) == e <==>
            if live != [] && AllAreResidue(m, w, live) then Grounds(m, w, owner, e) else e == NoEvidence
  {
    hide Offline, ConfirmedDown, AllAreResidue;
    OfflineMeans(w.devices, m.udid);
    ResidueMeans(m, w, live);
  }

  lemma ResidueMeans(m: Meta, w: World, live: seq<int>)
    ensures (exists pid :: pid in live && !w.residue(pid, m.udid)) <==> !AllAreResidue(m, w, live)
  {
    if pid :| pid in live && !w.residue(pid, m.udid) {
      var i :| 0 <= i < |live| && live[i] == pid;
      assert !w.residue(live[i], m.udid);
    }
    if i :| 0 <= i < |live| && !w.residue(live[i], m.udid) {
      var pid := live[i];
      assert pid in live && !w.residue(pid, m.udid);
    }
  }

  /** The recorded process group is alive. */
  predicate GroupAlive(m: Meta, w: World) {
    m.pgid != 0 && w.pgidAlive(m.pgid)
  }

  /** The verdict, case by case. */
  lemma JudgeMeans(m: Meta, w: World, owner: Owner)
    ensures var v, live := Judge(m, w, owner), w.live(m.udid);
            && (v.Clean? <==> m.udid == "" || (!GroupAlive(m, w) && live == Some([])))
            && (v.ConsumerGroup? <==> m.udid != "" && GroupAlive(m, w)) && (v.ConsumerGroup? ==> v.pgid == m.pgid)
            && (v.CheckFailure? <==> m.udid != "" && !GroupAlive(m, w) && live == None)
            && (v.Residue? <==> m.udid != "" && !GroupAlive(m, w) && live.Some? && live.value != []
                                && AllAreResidue(m, w, live.value) && !Grounds(m, w, owner, NoEvidence))
            && (v.Residue? ==> v.pids == live.value && v.evidence != NoEvidence && Grounds(m, w, owner, v.evidence))
  {
    if w.live(m.udid).Some? {
      var e := AllResidue(m, w, w.live(m.udid).value, owner);
      AllResidueMeans(m, w, w.live(m.udid).value, owner, e);
      AllResidueMeans(m, w, w.live(m.udid).value, owner, NoEvidence);
    }
    hide AllResidue, ConfirmedDown, HalfHourIdle, OwnersWord, AllAreResidue;
  }

  // ---------------------------------------------------------------- a world that moves

  datatype Effect =
    | Signal(pid: int, at: nat)
    | SignalGroup(pgid: int, at: nat)
    | ShutDown(udid: string, at: nat)
    | Delete(udid: string, at: nat)
    | SaveMeta(meta: Meta)
    // the rest are reap's
    | Scrub(udid: string, at: nat)
    | RemoveLease(at: nat)
    | RemoveRun(name: string, at: nat)
    | RemoveDir(at: nat)

  type History = nat -> World

  /** v was assembled from reads made in [from, to]: each answer is some
      instant's, not necessarily the same one. */
  ghost predicate Seen(h: History, v: World, from: nat, to: nat) {
    && (exists a: nat :: from <= a <= to && v.pgidAlive == h(a).pgidAlive)
    && (exists a: nat :: from <= a <= to && v.live == h(a).live)
    && (exists a: nat :: from <= a <= to && v.devices == h(a).devices)
    && (exists a: nat :: from <= a <= to && v.now == h(a).now)
    && (forall p, u :: exists a: nat :: from <= a <= to && v.residue(p, u) == h(a).residue(p, u))
  }

  /** The re-verification behind a residue kill at `to`. */
  ghost predicate ResidueGrounds(h: History, m: Meta, own: string, pids: seq<int>, evidence: Evidence, owner: Owner, from: nat, to: nat) {
    && m.udid != "" && pids != []
    && (exists a: nat :: from <= a <= to && OwnDevice(h(a).devices, m.udid, own))
    && exists v :: Seen(h, v, from, to) && v.live(m.udid).Some?
         && AllResidue(m, v, v.live(m.udid).value, owner) == evidence != NoEvidence
         && multiset(v.live(m.udid).value) == multiset(pids)
  }

  /** The identity check behind a group kill at `to`. */
  ghost predicate GroupGrounds(h: History, m: Meta, pgid: int, from: nat, to: nat) {
    && m.mode == "with" && m.startedAt != "" && m.pgid > 0 && pgid == m.pgid
    && exists a: nat :: from <= a <= to && h(a).startTime(pgid) == Some(m.startedAt)
  }

  function Signals(pids: seq<int>, at: nat): seq<Effect> {
    seq(|pids|, i requires 0 <= i < |pids| => Signal(pids[i], at))
  }

  class Host {
    const history: History
    const own: string          // the name of this slot's own device
    var t: nat
    var effects: seq<Effect>

    constructor (history: History, own: string, start: nat)
      ensures this.history == history && this.own == own && t == start && effects == []
    {
      this.history, this.own, t, effects := history, own, start, [];
    }

    /** Time passes between any two reads. */
    method Pass()
      modifies `t
      ensures t >= old(t)
    {
      var d: nat := *;
      if d > 0 { t := t + d; }
    }

    method Do(e: Effect)
      modifies `effects
      ensures effects == old(effects) + [e]
    {
      effects := effects + [e];
    }

    /** allReclaimableResidue: one read per pid, then the device set, then the clock. */
    method AllReclaimableResidue(m: Meta, live: seq<int>, owner: Owner, ghost base: World, ghost from: nat)
        returns (evidence: Evidence, ghost v: World)
      requires from <= t && Seen(history, base, from, t) && base.live(m.udid) == Some(live)
      modifies `t
      ensures t >= old(t) && Seen(history, v, from, t) && v.live == base.live && v.pgidAlive == base.pgidAlive
      ensures evidence == AllResidue(m, v, live, owner)
    {
      hide Seen;
      v := base;
      if |live| == 0 {
        return NoEvidence, v;
      }
      for i := 0 to |live|
        invariant t >= old(t) && Seen(history, v, from, t) && v.live == base.live && v.pgidAlive == base.pgidAlive
        invariant forall k :: 0 <= k < i ==> v.residue(live[k], m.udid)
      {
        ghost var before := t;
        Pass();
        v := SeenResidue(history, v, from, before, t, live[i], m.udid);
        if !history(t).residue(live[i], m.udid) {
          assert live[i] in live;
          return NoEvidence, v;
        }
      }
      ghost var t1 := t;
      Pass();
      v := SeenDevices(history, v, from, t1, t);
      var offline := Offline(history(t).devices, m.udid);
      ghost var t2 := t;
      v := SeenNow(history, v, from, t2, t);
      if offline == Some(true) {
        return TargetNotRunning, v;
      }
      Pass();
      v := SeenNow(history, v, from, t2, t);
      if LongIdle(m, history(t).now) {
        return SlotLongIdle, v;
      }
      evidence := if Declares(owner, m) then OwnerReleased else NoEvidence;
    }

    /** checkPoison: the verdict on an assembled view of the host. */
    method CheckPoison(m: Meta, owner: Owner) returns (verdict: Verdict, ghost v: World)
      modifies `t
      ensures t >= old(t) && Seen(history, v, old(t), t) && verdict == Judge(m, v, owner)
    {
      v := history(t);
      SeenOne(history, t);
      hide Seen;
      if m.udid == "" {
        return Clean, v;
      }
      ghost var t0 := t;
      if m.pgid != 0 {
        Pass();
        v := SeenGroup(history, v, old(t), t0, t);
        if history(t).pgidAlive(m.pgid) {
          return ConsumerGroup(m.pgid), v;
        }
      }
      ghost var t1 := t;
      Pass();
      v := SeenLive(history, v, old(t), t1, t);
      var live := history(t).live(m.udid);
      if live.None? {
        return CheckFailure, v;
      }
      if |live.value| == 0 {
        return Clean, v;
      }
      var evidence;
      evidence, v := AllReclaimableResidue(m, live.value, owner, v, old(t));
      verdict := if evidence != NoEvidence then Residue(live.value, evidence) else LiveConsumers;
    }

    /** reclaimOrphanedResidue: nothing is signalled unless the device is this
        slot's own and a second look finds the very same residue on the same
        grounds; success means every one of those pids is gone. */
    method ReclaimOrphanedResidue(m: Meta, pids: seq<int>, evidence: Evidence, owner: Owner) returns (ok: bool)
      modifies `t, `effects
      ensures t >= old(t)
      ensures Reclaiming(history, m, own, pids, evidence, owner, old(t), t, old(effects), effects, ok)
    {
      hide Seen, AllResidue, OwnDevice;
      if |pids| == 0 {
        return false;
      }
      Pass();
      if m.udid == "" || !OwnDevice(history(t).devices, m.udid, own) {
        return false;
      }
      ghost var named := t;
      Pass();
      var live := history(t).live(m.udid);
      if live.None? {
        return false;
      }
      ghost var v := SeenAt(history, old(t), t);
      var again;
      again, v := AllReclaimableResidue(m, live.value, owner, v, old(t));
      LooksOtherwise(history, m, pids, evidence, owner, old(t), t, v);
      if again == NoEvidence || again != evidence {
        return false;
      }
      var same := SamePidSet(live.value, pids);
      if !same {
        return false;
      }
      ghost var at := t;
      assert ResidueGrounds(history, m, own, pids, evidence, owner, old(t), at) by {
        Grounded(history, m, own, pids, evidence, owner, old(t), at, named, v);
      }
      KillAll(pids);
      assert Reclaimed(history, m, own, pids, evidence, owner, old(t), at, old(effects), effects);
      assert effects != old(effects) by { assert |Signals(pids, at)| > 0; }
      Pass();
      ok := NoneAlive(pids, at);
    }

    method KillAll(pids: seq<int>)
      modifies `effects
      ensures effects == old(effects) + Signals(pids, t)
    {
      for i := 0 to |pids|
        invariant effects == old(effects) + Signals(pids[..i], t)
      {
        SignalsMore(old(effects), pids, i, t);
        Do(Signal(pids[i], t));
      }
      assert pids[..|pids|] == pids;
    }

    method NoneAlive(pids: seq<int>, ghost at: nat) returns (ok: bool)
      requires at <= t
      modifies `t
      ensures t >= old(t) && (ok ==> AllGone(history, pids, at, t))
      ensures !ok ==> SomeAlive(history, pids, at, t)
    {
      for i := 0 to |pids|
        invariant t >= old(t) && AllGone(history, pids[..i], at, t)
      {
        Pass();
        if history(t).alive(pids[i]) {
          return false;
        }
        assert pids[..i + 1] == pids[..i] + [pids[i]];
      }
      assert pids[..|pids|] == pids;
      return true;
    }

    /** A fresh look at the device set: is the device this slot's own? */
    method DeviceBelongsToSlot(udid: string) returns (yes: bool, ghost at: nat)
      modifies `t
      ensures old(t) <= at == t && (yes <==> OwnDevice(history(at).devices, udid, own))
    {
      Pass();
      at := t;
      yes := OwnDevice(history(t).devices, udid, own);
    }

    /** VerifyConsumerIdentity. */
    method VerifyConsumerIdentity(m: Meta) returns (yes: bool, ghost at: nat)
      modifies `t
      ensures old(t) <= at == t && (yes <==> m.startedAt != "" && m.pgid > 0 && history(at).startTime(m.pgid) == Some(m.startedAt))
    {
      if m.startedAt == "" || m.pgid <= 0 {
        return false, t;
      }
      Pass();
      at := t;
      yes := history(t).startTime(m.pgid) == Some(m.startedAt);
    }

    /** attemptRecovery.  The verdict is one checkPoison reached on this meta. */
    method AttemptRecovery(m: Meta, poison: Verdict, owner: Owner) returns (ok: bool, after: Meta)
      requires poison.ConsumerGroup? ==> poison.pgid == m.pgid
      modifies `t, `effects
      ensures t >= old(t)
      ensures poison.Residue? ==> after == m && Either(history, m, own, poison, owner, old(t), t, old(effects), effects, ok)
      ensures !poison.Residue? ==> Recovered(history, m, after, own, poison, old(t), t, old(effects), effects, ok)
    {
      hide Reclaiming, Recovered;
      after := m;
      if poison.Residue? {
        ok := ReclaimOrphanedResidue(m, poison.pids, poison.evidence, owner);
      } else {
        ok, after := RecoverGroup(m, poison);
      }
    }

    /** The other half of attemptRecovery: a `with` process group. */
    method RecoverGroup(m: Meta, poison: Verdict) returns (ok: bool, after: Meta)
      requires poison.ConsumerGroup? ==> poison.pgid == m.pgid
      modifies `t, `effects
      ensures t >= old(t) && Recovered(history, m, after, own, poison, old(t), t, old(effects), effects, ok)
    {
      hide OwnDevice, GroupGrounds, Recovered;
      after := m;
      ghost var start, before := t, effects;
      if m.mode != "with" || !poison.ConsumerGroup? {
        NothingRecovered(history, m, own, poison, start, start, t, before);
        return false, m;
      }
      var same, seen := VerifyConsumerIdentity(m);
      if !same {
        NothingRecovered(history, m, own, poison, start, seen, t, before);
        return false, m;
      }
      ghost var at := t;
      Do(SignalGroup(poison.pgid, t));
      if !history(t).killable(poison.pgid) {
        GroupStays(history, m, own, poison, start, at, at, t, before);
        return false, m;
      }
      Pass();
      if history(t).pgidAlive(poison.pgid) {
        GroupStays(history, m, own, poison, start, at, t, t, before);
        return false, m;
      }
      IsGrounds(history, m, start, at);
      ghost var gone := t;
      after := m.(pgid := 0, startedAt := "");
      if m.udid != "" {
        var yes, named := DeviceBelongsToSlot(m.udid);
        if yes {
          Do(ShutDown(m.udid, t));
        }
        assert yes <==> OwnDevice(history(named).devices, m.udid, own);
      }
      Do(SaveMeta(after));
      ok := true;
      GroupGone(history, m, own, poison, start, at, gone, t, before, effects);
    }

    /** ReclaimOwnResidue and ReclaimReleasedResidue: a session that is over
        tidies up after itself.  Whatever it declares, only residue of the slot's
        own device is signalled, and only pids found so twice. */
    method ReclaimResidue(m: Meta, owner: Owner) returns (ok: bool, ghost pids: seq<int>)
      modifies `t, `effects
      ensures t >= old(t) && Tidied(history, m, own, pids, owner, old(t), t, old(effects), effects, ok)
    {
      hide Seen, Judge, Either;
      pids := [];
      if m.udid == "" {
        return false, [];
      }
      ghost var t0 := t;
      var poison, v := CheckPoison(m, owner);
      if !poison.Residue? {
        IsNoResidue(history, m, own, owner, t0, t, v, effects);
        return false, [];
      }
      ghost var t1 := t;
      var after;
      ok, after := AttemptRecovery(m, poison, owner);
      pids := poison.pids;
      IsTidied(history, m, own, poison, owner, t0, t1, t, v, old(effects), effects, ok);
    }

    /** --disown-poisoned: gives up a slot nothing could recover. */
    method DisownPoisonedSlot(m: Meta, poison: Verdict) returns (done: bool, after: Meta)
      modifies `t, `effects
      ensures t >= old(t)
      ensures poison.Residue? ==> ResidueDisowned(history, m, after, poison, old(t), t, old(effects), effects, done)
      ensures !poison.Residue? ==> GroupDisowned(history, m, after, own, poison, old(t), t, old(effects), effects, done)
    {
      after := m;
      if poison.Residue? {
        done, after := DisownOrphanedResidue(m, poison);
        return;
      }
      if m.mode != "with" || !poison.ConsumerGroup? {
        return false, m;
      }
      if m.udid != "" {
        var yes, named := DeviceBelongsToSlot(m.udid);
        if yes {
          Do(ShutDown(m.udid, t));
          Do(Delete(m.udid, t));
        }
      }
      after := m.(udid := "", pgid := 0, startedAt := "", mode := "");
      Do(SaveMeta(after));
      done := history(t).saves;
    }

    method DisownOrphanedResidue(m: Meta, poison: Verdict) returns (done: bool, after: Meta)
      requires poison.Residue?
      modifies `t, `effects
      ensures t >= old(t) && ResidueDisowned(history, m, after, poison, old(t), t, old(effects), effects, done)
    {
      after := m;
      ghost var start := t;
      var pids := poison.pids;
      if |pids| == 0 || m.udid == "" || poison.evidence != TargetNotRunning {
        return false, m;
      }
      Pass();
      if Offline(history(t).devices, m.udid) != Some(true) {
        return false, m;
      }
      ghost var off := t;
      for i := 0 to |pids|
        invariant t >= off && effects == old(effects) && AllSeenResidue(history, pids[..i], m.udid, start, t)
      {
        Pass();
        if !history(t).residue(pids[i], m.udid) {
          return false, m;
        }
        assert pids[..i + 1] == pids[..i] + [pids[i]];
      }
      assert pids[..|pids|] == pids;
      ghost var at := t;
      assert DisownGrounds(history, m, poison, start, at);
      KillAll(pids);
      Pass();
      var gone := NoneAlive(pids, at);
      if !gone {
        return false, m;
      }
      after := m.(udid := "");
      Do(SaveMeta(after));
      done := history(t).saves;
    }
  }

  ghost predicate Either(h: History, m: Meta, own: string, poison: Verdict, owner: Owner, from: nat, to: nat,
                         before: seq<Effect>, after: seq<Effect>, ok: bool)
    requires poison.Residue?
  {
    Reclaiming(h, m, own, poison.pids, poison.evidence, owner, from, to, before, after, ok)
  }

  /** Nobody was signalled, for a reason; or those pids were, on good grounds, and
      it worked exactly when none of them was found alive afterwards. */
  ghost predicate Reclaiming(h: History, m: Meta, own: string, pids: seq<int>, evidence: Evidence, owner: Owner, from: nat, to: nat,
                             before: seq<Effect>, after: seq<Effect>, ok: bool) {
    if after == before then !ok && Unreclaimed(h, m, own, pids, evidence, owner, from, to)
    else
      exists at: nat :: from <= at <= to && Reclaimed(h, m, own, pids, evidence, owner, from, at, before, after)
        && if ok then AllGone(h, pids, at, to) else SomeAlive(h, pids, at, to)
  }

  /** A session's own tidying: nothing, because no residue was found or what was
      found was not to be reclaimed; or one reclaim of exactly these pids. */
  ghost predicate Tidied(h: History, m: Meta, own: string, pids: seq<int>, owner: Owner, from: nat, to: nat,
                         before: seq<Effect>, after: seq<Effect>, ok: bool) {
    || (!ok && after == before && NoResidue(h, m, owner, from, to))
    || exists e, t: nat :: from <= t <= to && FoundResidue(h, m, owner, pids, e, from, t)
         && Reclaiming(h, m, own, pids, e, owner, t, to, before, after, ok)
  }

  ghost predicate NoResidue(h: History, m: Meta, owner: Owner, from: nat, to: nat) {
    m.udid == "" || exists v :: Seen(h, v, from, to) && !Judge(m, v, owner).Residue?
  }

  ghost predicate FoundResidue(h: History, m: Meta, owner: Owner, pids: seq<int>, e: Evidence, from: nat, to: nat) {
    exists v :: Seen(h, v, from, to) && Judge(m, v, owner) == Residue(pids, e)
  }

  lemma IsTidied(h: History, m: Meta, own: string, p: Verdict, owner: Owner, t0: nat, t1: nat, to: nat, v: World,
                 before: seq<Effect>, after: seq<Effect>, ok: bool)
    requires p.Residue? && t0 <= t1 <= to && Seen(h, v, t0, t1) && Judge(m, v, owner) == p
    requires Either(h, m, own, p, owner, t1, to, before, after, ok)
    ensures Tidied(h, m, own, p.pids, owner, t0, to, before, after, ok)
  {
    hide Seen, Judge, Reclaiming;
    assert FoundResidue(h, m, owner, p.pids, p.evidence, t0, t1);
  }

  lemma IsNoResidue(h: History, m: Meta, own: string, owner: Owner, from: nat, to: nat, v: World, before: seq<Effect>)
    requires Seen(h, v, from, to) && !Judge(m, v, owner).Residue?
    ensures Tidied(h, m, own, [], owner, from, to, before, before, false)
  {
    hide Seen, Judge, Reclaiming;
  }

  lemma SeenSooner(h: History, v: World, t0: nat, t1: nat, at: nat)
    requires t0 <= t1 && Seen(h, v, t1, at)
    ensures Seen(h, v, t0, at)
  {
    forall p, u ensures exists a: nat :: t0 <= a <= at && v.residue(p, u) == h(a).residue(p, u) {
      var a: nat :| t1 <= a <= at && v.residue(p, u) == h(a).residue(p, u);
    }
  }

  /** Recovery of a process group: nothing at all, or one signal to the group
      whose leader is still the recorded one; then, only once the group is
      gone, the slot's own device may be shut down and the record cleared. */
  ghost predicate Recovered(h: History, m: Meta, after: Meta, own: string, poison: Verdict, from: nat, to: nat,
                            before: seq<Effect>, effects: seq<Effect>, ok: bool) {
    if !ok then
      && after == m
      && ((effects == before && Unidentified(h, m, poison, from, to)) || (poison == ConsumerGroup(m.pgid) && Survived(h, m, from, to, before, effects)))
    else
      && poison == ConsumerGroup(m.pgid) && after == m.(pgid := 0, startedAt := "")
      && exists at: nat, gone: nat :: from <= at <= gone <= to
           && GroupGrounds(h, m, m.pgid, from, at) && !h(gone).pgidAlive(m.pgid)
           && Cleared(h, m, after, own, at, gone, to, before, effects)
  }

  /** Why no group was signalled: it is none of a `with`, or it was not that a
      live group made the slot look used, or its leader was not the recorded one. */
  ghost predicate Unidentified(h: History, m: Meta, poison: Verdict, from: nat, to: nat) {
    || m.mode != "with" || !poison.ConsumerGroup? || m.startedAt == "" || m.pgid <= 0
    || exists a: nat :: from <= a <= to && h(a).startTime(m.pgid) != Some(m.startedAt)
  }

  lemma NothingRecovered(h: History, m: Meta, own: string, poison: Verdict, from: nat, at: nat, to: nat, before: seq<Effect>)
    requires from <= at <= to
    requires m.mode != "with" || !poison.ConsumerGroup? || m.startedAt == "" || m.pgid <= 0 || h(at).startTime(m.pgid) != Some(m.startedAt)
    ensures Recovered(h, m, m, own, poison, from, to, before, before, false)
  {
  }

  lemma IsGrounds(h: History, m: Meta, from: nat, at: nat)
    requires from <= at && m.mode == "with" && m.startedAt != "" && m.pgid > 0
    requires h(at).startTime(m.pgid) == Some(m.startedAt)
    ensures GroupGrounds(h, m, m.pgid, from, at)
  {
  }

  lemma GroupStays(h: History, m: Meta, own: string, poison: Verdict, from: nat, at: nat, a: nat, to: nat, before: seq<Effect>)
    requires from <= at <= a <= to && m.mode == "with" && m.startedAt != "" && m.pgid > 0 && poison == ConsumerGroup(m.pgid)
    requires h(at).startTime(m.pgid) == Some(m.startedAt) && (!h(at).killable(m.pgid) || h(a).pgidAlive(m.pgid))
    ensures Recovered(h, m, m, own, poison, from, to, before, before + [SignalGroup(m.pgid, at)], false)
  {
    IsGrounds(h, m, from, at);
    hide GroupGrounds, Cleared, Unidentified;
  }

  lemma GroupGone(h: History, m: Meta, own: string, poison: Verdict, from: nat, at: nat, gone: nat, to: nat, before: seq<Effect>, effects: seq<Effect>)
    requires from <= at <= gone <= to && GroupGrounds(h, m, m.pgid, from, at) && !h(gone).pgidAlive(m.pgid) && poison == ConsumerGroup(m.pgid)
    requires Cleared(h, m, m.(pgid := 0, startedAt := ""), own, at, gone, to, before, effects)
    ensures Recovered(h, m, m.(pgid := 0, startedAt := ""), own, poison, from, to, before, effects, true)
  {
    hide GroupGrounds, Cleared;
  }

  /** The signal was sent on good grounds, but the group would not go. */
  ghost predicate Survived(h: History, m: Meta, from: nat, to: nat, before: seq<Effect>, effects: seq<Effect>) {
    exists at: nat, a: nat :: from <= at <= a <= to && effects == before + [SignalGroup(m.pgid, at)] && GroupGrounds(h, m, m.pgid, from, at)
      && (!h(at).killable(m.pgid) || h(a).pgidAlive(m.pgid))
  }

  /** The signal was delivered, and the slot's own device shut down, if it is that. */
  ghost predicate Cleared(h: History, m: Meta, after: Meta, own: string, at: nat, gone: nat, to: nat, before: seq<Effect>, effects: seq<Effect>) {
    && h(at).killable(m.pgid)
    && ((effects == before + [SignalGroup(m.pgid, at), SaveMeta(after)]
         && (m.udid == "" || exists a: nat :: gone <= a <= to && !OwnDevice(h(a).devices, m.udid, own)))
        || exists a: nat :: gone <= a <= to && m.udid != "" && OwnDevice(h(a).devices, m.udid, own)
             && effects == before + [SignalGroup(m.pgid, at), ShutDown(m.udid, a), SaveMeta(after)])
  }

  ghost predicate AllSeenResidue(h: History, pids: seq<int>, udid: string, from: nat, to: nat) {
    forall pid :: pid in pids ==> exists a: nat :: from <= a <= to && h(a).residue(pid, udid)
  }

  /** The device confirmed not running, and every pid still residue. */
  ghost predicate DisownGrounds(h: History, m: Meta, poison: Verdict, from: nat, to: nat)
    requires poison.Residue?
  {
    && m.udid != "" && poison.evidence == TargetNotRunning
    && (exists a: nat :: from <= a <= to && Offline(h(a).devices, m.udid) == Some(true))
    && AllSeenResidue(h, poison.pids, m.udid, from, to)
  }

  ghost predicate ResidueDisowned(h: History, m: Meta, after: Meta, poison: Verdict, from: nat, to: nat,
                                  before: seq<Effect>, effects: seq<Effect>, done: bool)
    requires poison.Residue?
  {
    || (!done && after == m && effects == before && Undisowned(h, m, poison, from, to))
    || exists at: nat :: from <= at <= to && DisownGrounds(h, m, poison, from, at) && DisownedAt(h, m, after, poison, at, to, before, effects, done)
  }

  /** The residue was signalled; the slot lets go of its device only once every
      one of those pids is gone. */
  ghost predicate DisownedAt(h: History, m: Meta, after: Meta, poison: Verdict, at: nat, to: nat,
                             before: seq<Effect>, effects: seq<Effect>, done: bool)
    requires poison.Residue?
  {
    var signalled := before + Signals(poison.pids, at);
    || (!done && after == m && effects == signalled && SomeAlive(h, poison.pids, at, to))
    || (after == m.(udid := "") && effects == signalled + [SaveMeta(after)] && AllGone(h, poison.pids, at, to)
        && exists b: nat :: at <= b <= to && done == h(b).saves)
  }

  /** Why residue was not disowned: none, or no device, or not for a device that
      is not running; or by now the device was not confirmed down, or a process
      was not residue. */
  ghost predicate Undisowned(h: History, m: Meta, poison: Verdict, from: nat, to: nat)
    requires poison.Residue?
  {
    || poison.pids == [] || m.udid == "" || poison.evidence != TargetNotRunning
    || (exists a: nat :: from <= a <= to && Offline(h(a).devices, m.udid) != Some(true))
    || exists i: nat, a: nat :: i < |poison.pids| && from <= a <= to && !h(a).residue(poison.pids[i], m.udid)
  }

  /** A poisoned consumer group is disowned without any signal: at most its own
      device is shut down and deleted. */
  ghost predicate GroupDisowned(h: History, m: Meta, after: Meta, own: string, poison: Verdict, from: nat, to: nat,
                                before: seq<Effect>, effects: seq<Effect>, done: bool) {
    || (!done && after == m && effects == before && (m.mode != "with" || !poison.ConsumerGroup?))
    || (&& m.mode == "with" && poison.ConsumerGroup? && after == m.(udid := "", pgid := 0, startedAt := "", mode := "")
        && (exists b: nat :: from <= b <= to && done == h(b).saves)
        && (|| (effects == before + [SaveMeta(after)]
                && (m.udid == "" || exists a: nat :: from <= a <= to && !OwnDevice(h(a).devices, m.udid, own)))
            || exists a: nat :: from <= a <= to && m.udid != "" && OwnDevice(h(a).devices, m.udid, own)
                 && effects == before + [ShutDown(m.udid, a), Delete(m.udid, a), SaveMeta(after)]))
  }

  /** Some of them was still alive. */
  ghost predicate SomeAlive(h: History, pids: seq<int>, from: nat, to: nat) {
    exists i: nat, a: nat :: i < |pids| && from <= a <= to && h(a).alive(pids[i])
  }

  /** Why residue was not reclaimed: there was nothing to; or the device was not
      the slot's own; or who uses it could not be told; or the second look found
      no residue, or other residue, or other grounds. */
  ghost predicate Unreclaimed(h: History, m: Meta, own: string, pids: seq<int>, evidence: Evidence, owner: Owner, from: nat, to: nat) {
    || pids == [] || m.udid == ""
    || (exists a: nat :: from <= a <= to && !OwnDevice(h(a).devices, m.udid, own))
    || (exists a: nat :: from <= a <= to && h(a).live(m.udid).None?)
    || Otherwise(h, m, pids, evidence, owner, from, to)
  }

  ghost predicate Otherwise(h: History, m: Meta, pids: seq<int>, evidence: Evidence, owner: Owner, from: nat, to: nat) {
    exists v :: Seen(h, v, from, to) && v.live(m.udid).Some?
      && (|| AllResidue(m, v, v.live(m.udid).value, owner) == NoEvidence || AllResidue(m, v, v.live(m.udid).value, owner) != evidence
          || multiset(v.live(m.udid).value) != multiset(pids))
  }

  lemma LooksOtherwise(h: History, m: Meta, pids: seq<int>, evidence: Evidence, owner: Owner, from: nat, to: nat, v: World)
    requires Seen(h, v, from, to) && v.live(m.udid).Some?
    ensures Otherwise(h, m, pids, evidence, owner, from, to)
            || (AllResidue(m, v, v.live(m.udid).value, owner) == evidence != NoEvidence && multiset(v.live(m.udid).value) == multiset(pids))
  {
    hide Seen, AllResidue;
  }

  /** All that a reclaim ever does: signal exactly those pids, on those grounds. */
  ghost predicate Reclaimed(h: History, m: Meta, own: string, pids: seq<int>, evidence: Evidence, owner: Owner, from: nat, at: nat,
                            before: seq<Effect>, after: seq<Effect>) {
    from <= at && after == before + Signals(pids, at) && ResidueGrounds(h, m, own, pids, evidence, owner, from, at)
  }

  ghost predicate AllGone(h: History, pids: seq<int>, from: nat, to: nat) {
    forall pid :: pid in pids ==> exists a: nat :: from <= a <= to && !h(a).alive(pid)
  }

  /** What the grounds of a residue kill come to: each pid signalled was seen
      to be residue of this very device in between, and the evidence was seen
      then too. */
  lemma SignalledIsResidue(h: History, m: Meta, own: string, pids: seq<int>, evidence: Evidence, owner: Owner, from: nat, to: nat)
    requires ResidueGrounds(h, m, own, pids, evidence, owner, from, to)
    ensures AllSeenResidue(h, pids, m.udid, from, to)
    ensures evidence.TargetNotRunning? ==> exists a: nat :: from <= a <= to && ConfirmedDown(h(a).devices, m.udid)
    ensures evidence.SlotLongIdle? ==> exists a: nat :: from <= a <= to && HalfHourIdle(m, h(a).now)
    ensures evidence.OwnerReleased? ==> OwnersWord(owner, m)
    ensures m.udid != "" && exists a: nat :: from <= a <= to && ListedAsOwn(h(a).devices, m.udid, own)
  {
    hide Seen, AllSeenResidue, OwnDevice;
    var v :| Seen(h, v, from, to) && v.live(m.udid).Some?
      && AllResidue(m, v, v.live(m.udid).value, owner) == evidence != NoEvidence
      && multiset(v.live(m.udid).value) == multiset(pids);
    var live := v.live(m.udid).value;
    forall pid | pid in pids ensures v.residue(pid, m.udid) {
      assert pid in multiset(live);
    }
    SeenResidues(h, v, pids, m.udid, from, to);
    SeenGrounds(h, m, v, evidence, owner, from, to);
    var b: nat :| from <= b <= to && OwnDevice(h(b).devices, m.udid, own);
    OwnDeviceMeans(h(b).devices, m.udid, own);
    hide AllResidue, ListedAsOwn, ConfirmedDown;
  }

  lemma SeenGrounds(h: History, m: Meta, v: World, evidence: Evidence, owner: Owner, from: nat, to: nat)
    requires Seen(h, v, from, to) && v.live(m.udid).Some?
    requires AllResidue(m, v, v.live(m.udid).value, owner) == evidence != NoEvidence
    ensures evidence.TargetNotRunning? ==> exists a: nat :: from <= a <= to && ConfirmedDown(h(a).devices, m.udid)
    ensures evidence.SlotLongIdle? ==> exists a: nat :: from <= a <= to && HalfHourIdle(m, h(a).now)
    ensures evidence.OwnerReleased? ==> OwnersWord(owner, m)
  {
    hide Seen, AllResidue, ConfirmedDown;
    SeenDeviceAndClock(h, v, from, to);
    AllResidueMeans(m, v, v.live(m.udid).value, owner, evidence);
    var a: nat :| from <= a <= to && v.devices == h(a).devices;
    var b: nat :| from <= b <= to && v.now == h(b).now;
  }

  /** Disowned residue was on a device confirmed down. */
  lemma DisownedIsDown(h: History, m: Meta, poison: Verdict, from: nat, to: nat)
    requires poison.Residue? && DisownGrounds(h, m, poison, from, to)
    ensures m.udid != "" && AllSeenResidue(h, poison.pids, m.udid, from, to)
    ensures exists a: nat :: from <= a <= to && ConfirmedDown(h(a).devices, m.udid)
  {
    hide Offline, ConfirmedDown, AllSeenResidue;
    var a: nat :| from <= a <= to && Offline(h(a).devices, m.udid) == Some(true);
    OfflineMeans(h(a).devices, m.udid);
  }

  lemma SeenResidues(h: History, v: World, pids: seq<int>, udid: string, from: nat, to: nat)
    requires Seen(h, v, from, to) && forall pid :: pid in pids ==> v.residue(pid, udid)
    ensures AllSeenResidue(h, pids, udid, from, to)
  {
    forall pid | pid in pids ensures exists a: nat :: from <= a <= to && h(a).residue(pid, udid) {
      var a: nat :| from <= a <= to && v.residue(pid, udid) == h(a).residue(pid, udid);
    }
  }

  lemma SeenDeviceAndClock(h: History, v: World, from: nat, to: nat)
    requires Seen(h, v, from, to)
    ensures exists a: nat :: from <= a <= to && v.devices == h(a).devices
    ensures exists a: nat :: from <= a <= to && v.now == h(a).now
  {
  }

  lemma SignalsMore(before: seq<Effect>, pids: seq<int>, i: nat, at: nat)
    requires i < |pids|
    ensures before + Signals(pids[..i], at) + [Signal(pids[i], at)] == before + Signals(pids[..i + 1], at)
  {
    assert Signals(pids[..i + 1], at) == Signals(pids[..i], at) + [Signal(pids[i], at)];
  }

  lemma Grounded(h: History, m: Meta, own: string, pids: seq<int>, evidence: Evidence, owner: Owner, from: nat, to: nat, named: nat, v: World)
    requires from <= named <= to && OwnDevice(h(named).devices, m.udid, own) && m.udid != "" && pids != []
    requires Seen(h, v, from, to) && v.live(m.udid).Some? && AllResidue(m, v, v.live(m.udid).value, owner) == evidence != NoEvidence
    requires multiset(v.live(m.udid).value) == multiset(pids)
    ensures ResidueGrounds(h, m, own, pids, evidence, owner, from, to)
  {
    hide Seen, AllResidue, OwnDevice;
  }

  /** samePIDSet: equality of multisets. */
  method SamePidSet(a: seq<int>, b: seq<int>) returns (same: bool)
    ensures same <==> multiset(a) == multiset(b)
  {
    if |a| != |b| {
      assert |multiset(a)| != |multiset(b)|;
      return false;
    }
    var seen: map<int, int> := map[];
    for i := 0 to |a|
      invariant forall p :: Count(seen, p) == multiset(a[..i])[p]
    {
      assert a[..i + 1] == a[..i] + [a[i]];
      seen := seen[a[i] := Count(seen, a[i]) + 1];
    }
    assert a[..|a|] == a;
    assert Tally(seen, a, b[..0]);
    hide Tally;
    for i := 0 to |b|
      invariant Tally(seen, a, b[..i])
    {
      assert b[..i + 1] == b[..i] + [b[i]];
      TallyMore(seen, a, b[..i], b[i]);
      seen := seen[b[i] := Count(seen, b[i]) - 1];
      if seen[b[i]] < 0 {
        PrefixCounts(b, i + 1, b[i]);
        return false;
      }
    }
    assert b[..|b|] == b;
    TallyDone(seen, a, b);
    return true;
  }

  /** The counts left of a after taking s away, none of them negative. */
  ghost predicate Tally(seen: map<int, int>, a: seq<int>, s: seq<int>) {
    forall p :: Count(seen, p) + multiset(s)[p] == multiset(a)[p] && Count(seen, p) >= 0
  }

  lemma TallyMore(seen: map<int, int>, a: seq<int>, s: seq<int>, x: int)
    requires Tally(seen, a, s)
    ensures if Count(seen, x) > 0 then Tally(seen[x := Count(seen, x) - 1], a, s + [x]) else multiset(s + [x])[x] > multiset(a)[x]
  {
    var less := seen[x := Count(seen, x) - 1];
    assert Count(seen, x) + multiset(s)[x] == multiset(a)[x];
    forall p ensures Count(less, p) + multiset(s + [x])[p] == multiset(a)[p] {
      assert Count(seen, p) + multiset(s)[p] == multiset(a)[p];
    }
    assert forall p :: Count(less, p) == if p == x then Count(seen, x) - 1 else Count(seen, p);
  }

  lemma TallyDone(seen: map<int, int>, a: seq<int>, b: seq<int>)
    requires Tally(seen, a, b) && |a| == |b|
    ensures multiset(a) == multiset(b)
  {
    forall p ensures multiset(b)[p] <= multiset(a)[p] {
      assert Count(seen, p) + multiset(b)[p] == multiset(a)[p];
    }
    SameSize(multiset(a), multiset(b));
  }

  /** A Go map read: absent keys count zero. */
  function Count(seen: map<int, int>, p: int): int {
    if p in seen then seen[p] else 0
  }

  lemma PrefixCounts(b: seq<int>, i: nat, x: int)
    requires i <= |b|
    ensures multiset(b[..i])[x] <= multiset(b)[x]
  {
    assert b == b[..i] + b[i..];
  }

  lemma SameSize(a: multiset<int>, b: multiset<int>)
    requires b <= a && |a| == |b|
    ensures a == b
  {
    assert |a - b| == |a| - |b|;
  }

  // ---------------------------------------------------------------- assembling what was seen

  lemma SeenOne(h: History, t: nat)
    ensures Seen(h, h(t), t, t)
  {
  }

  lemma SeenAt(h: History, from: nat, t: nat) returns (v: World)
    requires from <= t
    ensures v == h(t) && Seen(h, v, from, t)
  {
    v := h(t);
  }

  lemma SeenResidue(h: History, v: World, from: nat, t0: nat, t: nat, pid: int, udid: string) returns (w: World)
    requires Seen(h, v, from, t0) && from <= t0 <= t
    ensures Seen(h, w, from, t) && w.live == v.live && w.pgidAlive == v.pgidAlive
    ensures forall p, u :: w.residue(p, u) == if p == pid && u == udid then h(t).residue(p, u) else v.residue(p, u)
  {
    w := v.(residue := (p, u) => if p == pid && u == udid then h(t).residue(p, u) else v.residue(p, u));
    forall p, u ensures exists a: nat :: from <= a <= t && w.residue(p, u) == h(a).residue(p, u) {
      if p == pid && u == udid {
        assert w.residue(p, u) == h(t).residue(p, u);
      } else {
        var a: nat :| from <= a <= t0 && v.residue(p, u) == h(a).residue(p, u);
      }
    }
  }

  lemma SeenDevices(h: History, v: World, from: nat, t0: nat, t: nat) returns (w: World)
    requires Seen(h, v, from, t0) && from <= t0 <= t
    ensures w == v.(devices := h(t).devices) && Seen(h, w, from, t)
  {
    w := v.(devices := h(t).devices);
    SeenLater(h, v, from, t0, t);
  }

  lemma SeenNow(h: History, v: World, from: nat, t0: nat, t: nat) returns (w: World)
    requires Seen(h, v, from, t0) && from <= t0 <= t
    ensures w == v.(now := h(t).now) && Seen(h, w, from, t)
  {
    w := v.(now := h(t).now);
    SeenLater(h, v, from, t0, t);
  }

  lemma SeenGroup(h: History, v: World, from: nat, t0: nat, t: nat) returns (w: World)
    requires Seen(h, v, from, t0) && from <= t0 <= t
    ensures w == v.(pgidAlive := h(t).pgidAlive) && Seen(h, w, from, t)
  {
    w := v.(pgidAlive := h(t).pgidAlive);
    SeenLater(h, v, from, t0, t);
  }

  lemma SeenLive(h: History, v: World, from: nat, t0: nat, t: nat) returns (w: World)
    requires Seen(h, v, from, t0) && from <= t0 <= t
    ensures w == v.(live := h(t).live) && Seen(h, w, from, t)
  {
    w := v.(live := h(t).live);
    SeenLater(h, v, from, t0, t);
  }

  lemma SeenLater(h: History, v: World, from: nat, t0: nat, t: nat)
    requires Seen(h, v, from, t0) && t0 <= t
    ensures Seen(h, v, from, t)
  {
    forall p, u ensures exists a: nat :: from <= a <= t && v.residue(p, u) == h(a).residue(p, u) {
      var a: nat :| from <= a <= t0 && v.residue(p, u) == h(a).residue(p, u);
    }
  }
}
