/** Making sure a slot has its simulator, booted, in a device set that other
    processes are changing at the same time. */
module Provision {
  import opened Wrappers
  import opened Slim
  import P = Poison
  import A = Availability

  datatype Device = Device(name: string, booted: bool, available: bool, runtime: string, kind: string)

  /** simctl never hands out an empty udid. */
  type DeviceSet = m: map<string, Device> | "" !in m

  /** What the call leaves in meta.json. */
  datatype Meta = Meta(udid: string, runtime: string, capabilities: seq<string>)

  /** The runtime and device type the request resolves to. */
  datatype Substance = Substance(runtime: string, kind: string)

  /** leaseKey: the caller's own, empty for `with` and `acquire`; renewed: the
      slot did not change hands; restore: whether its presentation is reset. */
  datatype Request = Request(
    substance: Option<Substance>, strict: bool, slim: bool, want: seq<string>, leaseKey: string,
    bootTimeout: int, renewed: bool, restore: bool)

  datatype Result = Provisioned(meta: Meta) | Refused

  /** What the host answers during one call. */
  datatype Answers = Answers(
    finds: bool,              // simctl list, asked for the recorded udid
    lists: bool,              // simctl list, asked for this slot's name
    verdict: P.Verdict, lease: A.LeaseRead, now: int,
    shuts: bool, deletes: bool,
    gone: bool,               // whether a delete that failed has deleted
    creates: bool, minted: string,  // a udid nobody has had
    slimUp: bool,             // whether the slim reconcile leaves the device booted
    gateWait: Option<nat>,    // for a boot gate; None when it was not had
    boots: bool,
    bootsLate: bool)          // whether a boot that failed has booted

  datatype Act =
    | PoisonChecked(verdict: P.Verdict)
    | LeaseRead(lease: A.LeaseRead, now: int)
    | ShutDown(udid: string)
    | Deleted(udid: string, device: Device)
    | Created(udid: string)
    | Reconciled(udid: string)
    | BootTried(udid: string, budget: int)
    | Restored(udid: string)

  const MIN_BOOT := 1000      // milliseconds, as the boot timeout

  predicate SubstanceOK(d: Device, s: Substance) {
    d.available && d.runtime == s.runtime && d.kind == s.kind
  }

  /** The caller insists, knows what it wants, and this is not it. */
  predicate Mismatch(q: Request, d: Device) {
    q.strict && q.substance.Some? && !SubstanceOK(d, q.substance.value)
  }

  /** The lease read lets this caller delete. */
  predicate LeaseAllows(l: A.LeaseRead, now: int, key: string) {
    l.Read? && (A.Alive(l, now) ==> l.key == key)
  }

  /** The devices that carry this slot's name. */
  function Mine(devs: DeviceSet, own: string): DeviceSet {
    map u | u in devs && devs[u].name == own :: devs[u]
  }

  function Plus(devs: DeviceSet, udid: string, d: Device): DeviceSet
    requires udid != ""
  {
    devs[udid := d]
  }

  // ---------------------------------------------------------------- what comes of a call, from what it finds

  /** The device the slot has: the one meta.json names if it carries the slot's
      name, else the only one that does, if the listing can say so. */
  ghost function Chosen(mine: DeviceSet, known: string, a: Answers): Option<string> {
    if known in mine then Some(known)
    else if a.lists && |mine| == 1 then (var u :| u in mine; Some(u))
    else None
  }

  /** It is kept as it is. */
  ghost predicate Kept(mine: DeviceSet, known: string, a: Answers, q: Request) {
    var u := Chosen(mine, known, a);
    u.Some? && !Mismatch(q, mine[u.value])
  }

  /** It is kept, and found booted. */
  ghost predicate FoundWarm(mine: DeviceSet, known: string, a: Answers, q: Request) {
    Kept(mine, known, a, q) && mine[Chosen(mine, known, a).value].booted
  }

  /** A delete is tried. */
  predicate MayLose(a: Answers, q: Request) {
    a.verdict.Clean? && LeaseAllows(a.lease, a.now, q.leaseKey) && a.shuts
  }

  predicate CanReplace(a: Answers, q: Request) {
    MayLose(a, q) && a.deletes
  }

  predicate CanCreate(a: Answers, q: Request) {
    q.substance.Some? && a.creates
  }

  predicate CanBoot(a: Answers, q: Request) {
    a.gateWait.Some? && q.bootTimeout - a.gateWait.value >= MIN_BOOT && a.boots
  }

  /** When a call gets hold of a device ... */
  ghost predicate Prepares(mine: DeviceSet, known: string, a: Answers, q: Request) {
    && (known != "" ==> a.finds)
    && (known !in mine && a.lists ==> |mine| <= 1)
    && (Kept(mine, known, a, q) || ((Chosen(mine, known, a).Some? ==> CanReplace(a, q)) && CanCreate(a, q)))
  }

  /** ... and succeeds. */
  ghost predicate Succeeds(mine: DeviceSet, known: string, a: Answers, q: Request) {
    Prepares(mine, known, a, q) && (FoundWarm(mine, known, a, q) || CanBoot(a, q))
  }

  /** The udids with the slot's name after a successful call. */
  ghost function After(mine: DeviceSet, known: string, a: Answers, q: Request): set<string> {
    if Kept(mine, known, a, q) then mine.Keys
    else
      (if Chosen(mine, known, a).Some? then mine.Keys - {Chosen(mine, known, a).value} else mine.Keys) + {a.minted}
  }

  /** And after any call: one that fails may have replaced the device before,
      or lost it. */
  ghost function Left(mine: DeviceSet, known: string, a: Answers, q: Request): set<string> {
    var u := Chosen(mine, known, a);
    if (known != "" && !a.finds) || (known !in mine && a.lists && |mine| > 1) || Kept(mine, known, a, q) then mine.Keys
    else if u.Some? && !CanReplace(a, q) then
      if MayLose(a, q) && a.gone then mine.Keys - {u.value} else mine.Keys
    else
      (if u.Some? then mine.Keys - {u.value} else mine.Keys) + if CanCreate(a, q) then {a.minted} else {}
  }

  lemma LeftIsAfter(mine: DeviceSet, known: string, a: Answers, q: Request)
    requires Prepares(mine, known, a, q)
    ensures Left(mine, known, a, q) == After(mine, known, a, q)
  {
    hide Chosen, Mismatch, CanReplace, CanCreate;
  }

  /** The slot ends a successful call with more devices of its name than it
      had, and than one, exactly when the listing failed while it had one that
      meta.json does not name. */
  lemma OneDevicePerSlot(mine: DeviceSet, known: string, a: Answers, q: Request)
    requires a.minted !in mine && (known !in mine && a.lists ==> |mine| <= 1)
    ensures |After(mine, known, a, q)| > (if |mine| > 1 then |mine| else 1) <==> !a.lists && known !in mine && mine != map[]
    ensures |mine| <= 1 ==>
              (|After(mine, known, a, q)| == 1 <==> a.lists || known in mine || mine == map[])
  {
    var after := After(mine, known, a, q);
    assert |mine.Keys| == |mine|;
    assert mine == map[] <==> mine.Keys == {};
    if !Kept(mine, known, a, q) {
      var u := Chosen(mine, known, a);
      if u.Some? {
        assert u.value in mine.Keys && |mine.Keys - {u.value}| == |mine| - 1;
        assert |after| == |mine|;
      } else {
        assert |after| == |mine| + 1;
      }
    }
  }

  /** The caller insists on a runtime and a device type, and the device cannot be
      used or has another. */
  predicate Wrong(q: Request, d: Device) {
    && q.strict && q.substance.Some?
    && (!d.available || Substance(d.runtime, d.kind) != q.substance.value)
  }

  /** The boot has at least a second left after the wait for a gate. */
  predicate Bootable(a: Answers, q: Request) {
    a.boots && a.gateWait.Some? && a.gateWait.value + 1000 <= q.bootTimeout
  }

  /** Nothing is alive on it, nor is it under another key's live lease, and it goes. */
  predicate Goes(a: Answers, q: Request) {
    a.verdict == P.Clean && a.lease.Read? && !A.Elsewhere(a.lease, a.now, q.leaseKey) && a.shuts && a.deletes
  }

  lemma ChosenMeans(mine: DeviceSet, known: string, a: Answers, u: string)
    ensures Chosen(mine, known, a) == Some(u) <==>
            u in mine && if known in mine then u == known else a.lists && mine.Keys == {u}
    ensures Chosen(mine, known, a).None? <==> known !in mine && !(a.lists && |mine| == 1)
  {
    assert |mine.Keys| == |mine|;
    if |mine| == 1 && u in mine { SingletonSet(mine.Keys, u); }
  }

  lemma AnswersMean(a: Answers, q: Request, d: Device)
    ensures (CanReplace(a, q) <==> Goes(a, q)) && (CanBoot(a, q) <==> Bootable(a, q)) && (Mismatch(q, d) <==> Wrong(q, d))
  {
  }

  /** When a call succeeds, and what devices of its name the slot has after it,
      if it had one that it could name: kept if it will do, else replaced. */
  lemma WithADevice(mine: DeviceSet, known: string, a: Answers, q: Request, u: string)
    requires u in mine && if known in mine then u == known else a.lists && mine.Keys == {u}
    ensures Succeeds(mine, known, a, q) <==>
            && (known != "" ==> a.finds)
            && if Wrong(q, mine[u]) then Goes(a, q) && a.creates && Bootable(a, q) else mine[u].booted || Bootable(a, q)
    ensures After(mine, known, a, q) == if Wrong(q, mine[u]) then mine.Keys - {u} + {a.minted} else mine.Keys
  {
    ChosenMeans(mine, known, a, u);
    AnswersMean(a, q, mine[u]);
    assert |mine.Keys| == |mine|;
    assert Wrong(q, mine[u]) ==> q.substance.Some?;
    hide CanReplace, CanBoot, Goes, Bootable, Mismatch, Wrong, Chosen;
  }

  /** And if it had none: one is made, unless it may have several. */
  lemma WithoutOne(mine: DeviceSet, known: string, a: Answers, q: Request)
    requires known !in mine && !(a.lists && |mine| == 1)
    ensures Succeeds(mine, known, a, q) <==>
            (known != "" ==> a.finds) && (a.lists ==> mine == map[]) && q.substance.Some? && a.creates && Bootable(a, q)
    ensures After(mine, known, a, q) == mine.Keys + {a.minted}
  {
    ChosenMeans(mine, known, a, "");
    AnswersMean(a, q, Device("", false, false, "", ""));
    assert |mine| == 0 <==> mine == map[];
    hide CanReplace, CanBoot, Goes, Bootable, Mismatch, Wrong, Chosen;
  }

  // ---------------------------------------------------------------- the call

  /** The device set, which others change too, and what one call asks of it.
      There is at most one slim reconcile, one boot and one creation in a call. */
  class World {
    const own: string           // the slot's deterministic device name
    const a: Answers
    var devs: DeviceSet
    ghost var log: seq<Act>

    constructor (own: string, a: Answers, devs: DeviceSet)
      ensures this.own == own && this.a == a && this.devs == devs && log == []
    {
      this.own, this.a, this.devs, log := own, a, devs, [];
    }

    /** Anybody may do anything to devices that are not this slot's, except
        come by the udid simctl mints for this call. */
    method Others()
      modifies `devs
      ensures Mine(devs, own) == Mine(old(devs), own) && (old(Fresh()) ==> Fresh())
    {
      var d: DeviceSet := *;
      if Mine(d, own) == Mine(devs, own) && (a.minted in d <==> a.minted in devs) {
        devs := d;
      }
    }

    /** What simctl mints is new. */
    predicate Fresh()
      reads this`devs
    {
      a.minted != "" && a.minted !in devs
    }

    method Note(act: Act)
      modifies `log
      ensures log == old(log) + [act]
    {
      log := log + [act];
    }

    /** simctl.Find: None when the listing failed. */
    method Find(udid: string) returns (r: Option<Option<Device>>)
      requires Fresh()
      modifies `devs
      ensures Mine(devs, own) == Mine(old(devs), own) && Fresh()
      ensures r == if a.finds then Some(if udid in devs then Some(devs[udid]) else None) else None
    {
      Others();
      r := if a.finds then Some(if udid in devs then Some(devs[udid]) else None) else None;
    }

    /** The udids in the default set that carry this slot's name; None when the
        listing failed. */
    method ListMine() returns (r: Option<set<string>>)
      requires Fresh()
      modifies `devs
      ensures Mine(devs, own) == Mine(old(devs), own) && Fresh()
      ensures r == if a.lists then Some(Mine(devs, own).Keys) else None
    {
      Others();
      r := if a.lists then Some(set u | u in devs && devs[u].name == own) else None;
    }

    /** simctl create: a new, shut-down, available device of what was asked for. */
    method Create(s: Substance) returns (made: bool)
      requires Fresh()
      modifies `devs, `log
      ensures made == a.creates
      ensures !made ==> Mine(devs, own) == Mine(old(devs), own) && log == old(log)
      ensures made ==> a.minted in devs && log == old(log) + [Created(a.minted)]
      ensures made ==> devs[a.minted] == Device(own, false, true, s.runtime, s.kind)
      ensures made ==> Mine(devs, own).Keys == Mine(old(devs), own).Keys + {a.minted}
    {
      Others();
      made := a.creates;
      if made {
        devs := Plus(devs, a.minted, Device(own, false, true, s.runtime, s.kind));
        Note(Created(a.minted));
      }
    }

    /** The slim reconcile may reboot the device, and may fail half way; its
        failure is only reported. */
    method ReconcileSlim(udid: string)
      requires udid in devs && devs[udid].name == own
      modifies `devs, `log
      ensures udid in devs && devs[udid] == old(devs[udid]).(booted := a.slimUp)
      ensures Mine(devs, own).Keys == Mine(old(devs), own).Keys && log == old(log) + [Reconciled(udid)]
    {
      Others();
      assert udid in Mine(devs, own);
      devs := devs[udid := devs[udid].(booted := a.slimUp)];
      Note(Reconciled(udid));
    }

    /** A nil return means a probe answered: the device is up. */
    method BootAndWait(udid: string, budget: int) returns (ok: bool)
      requires udid in devs && devs[udid].name == own
      modifies `devs, `log
      ensures udid in devs && log == old(log) + [BootTried(udid, budget)] && ok == a.boots
      ensures Mine(devs, own).Keys == Mine(old(devs), own).Keys
      ensures devs[udid] == old(devs[udid]).(booted := a.boots || a.bootsLate)
    {
      Others();
      assert udid in Mine(devs, own);
      devs := devs[udid := devs[udid].(booted := a.boots || a.bootsLate)];
      Note(BootTried(udid, budget));
      ok := a.boots;
    }

    /** resolveSubstanceMismatch: deletes the adopted device, or refuses. */
    method ResolveSubstanceMismatch(udid: string, q: Request) returns (ok: bool)
      requires Fresh() && udid in devs && devs[udid].name == own && Mismatch(q, devs[udid])
      modifies `devs, `log
      ensures DeletesVetted(old(log), log, own, q) && ok == CanReplace(a, q)
      ensures ok ==> Mine(devs, own) == Mine(old(devs), own) - {udid} && Deleted(udid, old(devs[udid])) in log
      ensures !ok ==> Mine(devs, own) == if MayLose(a, q) && a.gone then Mine(old(devs), own) - {udid} else Mine(old(devs), own)
      ensures Fresh()
    {
      hide DeletesVetted;
      assert Mine(devs, own)[udid] == devs[udid];
      VettedReplace(log, a.verdict, a.lease, a.now, udid, devs[udid], own, q);
      Note(PoisonChecked(a.verdict));
      if !a.verdict.Clean? {
        return false;
      }
      Note(LeaseRead(a.lease, a.now));
      if a.lease.Unreadable? || (A.Alive(a.lease, a.now) && a.lease.key != q.leaseKey) {
        return false;
      }
      Others();
      assert udid in Mine(devs, own);
      Note(ShutDown(udid));
      if !a.shuts {
        return false;
      }
      Delete(udid);
      ok := a.deletes;
    }

    /** simctl delete, which may fail and have deleted. */
    method Delete(udid: string)
      requires Fresh() && udid in devs && devs[udid].name == own
      modifies `devs, `log
      ensures log == old(log) + [Deleted(udid, old(devs[udid]))] && Fresh()
      ensures Mine(devs, own) == if a.deletes || a.gone then Mine(old(devs), own) - {udid} else Mine(old(devs), own)
    {
      assert Mine(devs, own)[udid] == devs[udid];
      Others();
      assert udid in Mine(devs, own);
      assert Mine(devs, own)[udid] == devs[udid];
      Note(Deleted(udid, devs[udid]));
      if a.deletes || a.gone {
        devs := devs - {udid};
      }
    }

    /** The device this slot already has, by udid and then by name, unless the
        name is ambiguous. */
    method Adopt(meta: Meta) returns (ok: bool, udid: string, adopted: Option<Device>)
      requires Fresh()
      modifies `devs
      ensures Mine(devs, own) == Mine(old(devs), own) && Fresh()
      ensures ok <==> (meta.udid != "" ==> a.finds) && (meta.udid !in Mine(devs, own) && a.lists ==> |Mine(devs, own)| <= 1)
      ensures ok ==> Chosen(Mine(devs, own), meta.udid, a) == if adopted.Some? then Some(udid) else None
      ensures ok && adopted.Some? ==> udid in devs && devs[udid] == adopted.value && adopted.value.name == own
    {
      udid, adopted := meta.udid, None;
      if udid != "" {
        var r := Find(udid);
        if r.None? {
          return false, "", None;
        }
        if r.value.None? || r.value.value.name != own {
          udid := "";
        } else {
          assert udid in Mine(devs, own);
          return true, udid, r.value;
        }
      }
      assert meta.udid !in Mine(devs, own);
      var mine := ListMine();
      if mine.None? {
        return true, "", None;
      }
      assert |mine.value| == |Mine(devs, own)|;
      if |mine.value| > 1 {
        return false, "", None;
      }
      if |mine.value| == 1 {
        var u :| u in mine.value;
        assert u in Mine(devs, own);
        SingletonSet(mine.value, u);
        return true, u, Some(devs[u]);
      }
      return true, "", None;
    }

    /** ensureProvisioned.  It succeeds exactly when every step it needs does.
        Then the recorded udid names an existing device with this slot's name,
        the recorded runtime is that device's own, and under strict checking it
        is what the request resolved to. */
    method EnsureProvisioned(meta: Meta, q: Request) returns (r: Result)
      requires Fresh()
      modifies `devs, `log
      ensures DeletesVetted(old(log), log, own, q)
      ensures Mine(devs, own).Keys == Left(Mine(old(devs), own), meta.udid, a, q)
      ensures r.Provisioned? <==> Succeeds(Mine(old(devs), own), meta.udid, a, q)
      ensures r.Provisioned? ==>
                && r.meta.udid in devs && devs[r.meta.udid].name == own
                && r.meta.runtime == devs[r.meta.udid].runtime
                && (q.strict && q.substance.Some? ==>
                      devs[r.meta.udid].available && Substance(devs[r.meta.udid].runtime, devs[r.meta.udid].kind) == q.substance.value)
                && r.meta.capabilities == if q.slim then EffectiveCategories(meta.capabilities, q.want) else meta.capabilities
      // the device is the one the slot had unless that did not match
      ensures r.Provisioned? ==>
                && Mine(devs, own).Keys == After(Mine(old(devs), own), meta.udid, a, q)
                && (if Kept(Mine(old(devs), own), meta.udid, a, q) then Some(r.meta.udid) == Chosen(Mine(old(devs), own), meta.udid, a)
                    else r.meta.udid == a.minted)
      // booted, exactly unless it was found booted and the slim reconcile took it down
      ensures r.Provisioned? ==>
                (!devs[r.meta.udid].booted <==> q.slim && !a.slimUp && FoundWarm(Mine(old(devs), own), meta.udid, a, q))
      ensures r.Provisioned? ==> Finish(old(log), log, r.meta.udid, q, a, FoundWarm(Mine(old(devs), own), meta.udid, a, q))
    {
      hide DeletesVetted, EffectiveCategories, Kept, Chosen, FoundWarm, After, Left, Finish, Raising, CanCreate, CanReplace, CanBoot;
      r := Refused;
      ghost var mine, before := Mine(devs, own), log;
      var ok, udid, runtime, warm := Prepare(meta, q);
      if !ok {
        return;
      }
      ghost var mid := log;
      var up := BringUp(udid, warm, q);
      VettedSum(before, mid, log, own, q);
      if !up {
        return;
      }
      ghost var booted := log;
      if !q.renewed && q.restore {
        NothingMore(before, log, Restored(udid), own, q);
        Note(Restored(udid));
      }
      Finishing(before, mid, booted, log, udid, q, a, warm);
      var capabilities := if q.slim then EffectiveCategories(meta.capabilities, q.want) else meta.capabilities;
      r := Provisioned(Meta(udid, runtime, capabilities));
    }

    /** The slot's device: adopted, or made anew. */
    method Prepare(meta: Meta, q: Request) returns (ok: bool, udid: string, runtime: string, warm: bool)
      requires Fresh()
      modifies `devs, `log
      ensures DeletesVetted(old(log), log, own, q)
      ensures var mine := Mine(old(devs), own);
              && (ok <==> Prepares(mine, meta.udid, a, q))
              && Mine(devs, own).Keys == Left(mine, meta.udid, a, q)
              && (ok ==> Mine(devs, own).Keys == After(mine, meta.udid, a, q))
              && (ok ==> (warm <==> FoundWarm(mine, meta.udid, a, q)))
              && (ok ==> if Kept(mine, meta.udid, a, q) then Some(udid) == Chosen(mine, meta.udid, a) else udid == a.minted)
      ensures ok ==> udid in devs && devs[udid].name == own && devs[udid].runtime == runtime && (warm <==> devs[udid].booted)
      ensures ok ==> !Mismatch(q, devs[udid])
      ensures ok && warm ==> log == old(log)
    {
      NothingDeleted(log, own, q);
      ghost var before := log;
      ghost var mine := Mine(devs, own);
      hide DeletesVetted;
      udid, runtime, warm := "", "", false;
      var adopted;
      ok, udid, adopted := Adopt(meta);
      if !ok {
        return;
      }
      if adopted.Some? {
        assert udid in mine && mine[udid] == adopted.value by { assert udid in Mine(devs, own); }
      }
      if adopted.Some? && Mismatch(q, adopted.value) {
        ok := ResolveSubstanceMismatch(udid, q);
        if !ok {
          return;
        }
        adopted := None;
      }
      if adopted.Some? {
        return true, udid, adopted.value.runtime, adopted.value.booted;
      }
      if q.substance.None? {
        return false, "", "", false;
      }
      ghost var vetted := log;
      var made := Create(q.substance.value);
      if !made {
        return false, "", "", false;
      }
      NothingMore(before, vetted, Created(a.minted), own, q);
      return true, a.minted, q.substance.value.runtime, false;
    }

    /** The slim reconcile and the boot, behind the boot gate, whose wait comes
        out of the boot's own budget unless a slim reconcile came in between. */
    method BringUp(udid: string, warm: bool, q: Request) returns (up: bool)
      requires udid in devs && devs[udid].name == own && (warm <==> devs[udid].booted)
      modifies `devs, `log
      ensures DeletesVetted(old(log), log, own, q)
      ensures Mine(devs, own).Keys == Mine(old(devs), own).Keys
      ensures up <==> warm || CanBoot(a, q)
      ensures up ==> udid in devs && devs[udid] == old(devs[udid]).(booted := !(warm && q.slim) || a.slimUp)
      ensures up ==> log == old(log) + Raising(udid, q, a, warm)
      ensures log == old(log) + if !warm && (a.gateWait.None? || a.gateWait.value + 1000 > q.bootTimeout) then [] else Raising(udid, q, a, warm)
    {
      NothingDeleted(log, own, q);
      if warm {
        if q.slim {
          NothingMore(log, log, Reconciled(udid), own, q);
          ReconcileSlim(udid);
        }
        return true;
      }
      if a.gateWait.None? {
        return false;
      }
      var remaining := q.bootTimeout - a.gateWait.value;
      if remaining < MIN_BOOT {
        return false;
      }
      ghost var before := log;
      if q.slim {
        NothingMore(log, log, Reconciled(udid), own, q);
        ReconcileSlim(udid);
        remaining := q.bootTimeout;
      }
      NothingMore(before, log, BootTried(udid, remaining), own, q);
      up := BootAndWait(udid, remaining);
    }
  }

  function Budget(a: Answers, q: Request): int {
    if q.slim || a.gateWait.None? then q.bootTimeout else q.bootTimeout - a.gateWait.value
  }

  /** A device is slimmed if it is to be, and booted after that if it was down. */
  ghost function Raising(udid: string, q: Request, a: Answers, warm: bool): seq<Act> {
    (if q.slim then [Reconciled(udid)] else []) + if warm then [] else [BootTried(udid, Budget(a, q))]
  }

  /** The budget of a boot: the whole of it, less the wait for the gate unless a
      slim reconcile came in between. */
  lemma BudgetMeans(a: Answers, q: Request)
    requires Bootable(a, q)
    ensures if q.slim then Budget(a, q) == q.bootTimeout else Budget(a, q) + a.gateWait.value == q.bootTimeout
    ensures Budget(a, q) >= 1000
  {
  }

  /** How the log of a successful call ends: with the device raised, and after it
      the reset of a slot that changed hands. */
  ghost predicate Finish(before: seq<Act>, log: seq<Act>, udid: string, q: Request, a: Answers, warm: bool) {
    var end := Raising(udid, q, a, warm) + if !q.renewed && q.restore then [Restored(udid)] else [];
    |before| + |end| <= |log| && log[|log| - |end|..] == end && (warm ==> log == before + end)
  }

  lemma Finishing(before: seq<Act>, mid: seq<Act>, booted: seq<Act>, log: seq<Act>, udid: string, q: Request, a: Answers, warm: bool)
    requires before <= mid && (warm ==> mid == before) && booted == mid + Raising(udid, q, a, warm)
    requires log == booted + if !q.renewed && q.restore then [Restored(udid)] else []
    ensures Finish(before, log, udid, q, a, warm)
  {
    hide Raising;
    var end := Raising(udid, q, a, warm) + if !q.renewed && q.restore then [Restored(udid)] else [];
    assert log == mid + end;
  }

  // ---------------------------------------------------------------- calls that go wrong

  const CALM := Answers(
    true, true, P.Clean, A.Read("", 0), 0, true, true, false, true, "new", true, Some(0), true, false)

  /** Slimming takes a warm device down half way; the call succeeds all the same. */
  method WarmDeviceLeftDown() returns (r: Result, w: World)
    ensures r.Provisioned? && r.meta.udid in w.devs && !w.devs[r.meta.udid].booted
  {
    var devs: DeviceSet := map["u" := Device("slot", true, true, "r", "k")];
    w := new World("slot", CALM.(slimUp := false), devs);
    assert "u" in Mine(w.devs, "slot");
    r := w.EnsureProvisioned(Meta("u", "r", []), Request(None, true, true, [], "", 180000, false, true));
  }

  /** meta.json is lost and the listing fails: the slot gets a second device. */
  method SecondDevice() returns (r: Result, w: World)
    ensures r.Provisioned? && |Mine(w.devs, w.own)| == 2
  {
    var devs: DeviceSet := map["u" := Device("slot", true, true, "r", "k")];
    w := new World("slot", CALM.(lists := false), devs);
    assert Mine(w.devs, "slot").Keys == {"u"};
    r := w.EnsureProvisioned(Meta("", "", []), Request(Some(Substance("r", "k")), true, true, [], "", 180000, false, true));
    assert Mine(w.devs, "slot").Keys == {"u", "new"};
    assert |Mine(w.devs, "slot")| == |Mine(w.devs, "slot").Keys|;
  }

  lemma SingletonSet(s: set<string>, u: string)
    requires |s| == 1 && u in s
    ensures s == {u}
  {
    assert |s - {u}| == 0;
  }

  /** Every deletion was of a device with this slot's name that did not match,
      right after its shutdown, a lease read that found nobody else's live, and
      a clean check. */
  ghost predicate DeletesVetted(before: seq<Act>, log: seq<Act>, own: string, q: Request) {
    && before <= log
    && forall i :: |before| <= i < |log| && log[i].Deleted? ==> Vetted(|before|, log, i, own, q)
  }

  ghost predicate Vetted(from: nat, log: seq<Act>, i: nat, own: string, q: Request)
    requires i < |log| && log[i].Deleted?
  {
    && i >= from + 3 && log[i].device.name == own && Mismatch(q, log[i].device)
    && log[i - 1] == ShutDown(log[i].udid)
    && log[i - 2].LeaseRead? && LeaseAllows(log[i - 2].lease, log[i - 2].now, q.leaseKey)
    && log[i - 3] == PoisonChecked(P.Clean)
  }

  /** So nothing is deleted but a device of the slot's own name that cannot be
      used or is not what was insisted on, just shut down, with nothing alive on
      it and under nobody else's lease. */
  lemma DeletedIsWrong(before: seq<Act>, log: seq<Act>, own: string, q: Request, i: nat)
    requires DeletesVetted(before, log, own, q) && |before| <= i < |log| && log[i].Deleted?
    ensures i >= |before| + 3 && log[i].device.name == own && Wrong(q, log[i].device)
    ensures log[i - 1] == ShutDown(log[i].udid) && log[i - 3] == PoisonChecked(P.Clean)
    ensures log[i - 2].LeaseRead? && log[i - 2].lease.Read? && !A.Elsewhere(log[i - 2].lease, log[i - 2].now, q.leaseKey)
  {
  }

  lemma NothingDeleted(log: seq<Act>, own: string, q: Request)
    ensures DeletesVetted(log, log, own, q)
  {
  }

  /** The deletion and what comes before it, one act at a time. */
  lemma VettedReplace(log: seq<Act>, v: P.Verdict, l: A.LeaseRead, now: int, udid: string, d: Device, own: string, q: Request)
    requires d.name == own && Mismatch(q, d)
    ensures DeletesVetted(log, log + [PoisonChecked(v)], own, q)
    ensures DeletesVetted(log, log + [PoisonChecked(v)] + [LeaseRead(l, now)], own, q)
    ensures DeletesVetted(log, log + [PoisonChecked(v)] + [LeaseRead(l, now)] + [ShutDown(udid)], own, q)
    ensures v.Clean? && LeaseAllows(l, now, q.leaseKey) ==>
              DeletesVetted(log, log + [PoisonChecked(v)] + [LeaseRead(l, now)] + [ShutDown(udid)] + [Deleted(udid, d)], own, q)
  {
  }

  lemma NothingMore(before: seq<Act>, log: seq<Act>, a: Act, own: string, q: Request)
    requires DeletesVetted(before, log, own, q) && !a.Deleted?
    ensures DeletesVetted(before, log + [a], own, q)
  {
    forall i | |before| <= i < |log + [a]| && (log + [a])[i].Deleted? ensures Vetted(|before|, log + [a], i, own, q) {
      assert Vetted(|before|, log, i, own, q);
    }
  }

  lemma VettedSum(before: seq<Act>, mid: seq<Act>, after: seq<Act>, own: string, q: Request)
    requires DeletesVetted(before, mid, own, q) && DeletesVetted(mid, after, own, q)
    ensures DeletesVetted(before, after, own, q) && before <= mid
  {
    forall i | |before| <= i < |after| && after[i].Deleted? ensures Vetted(|before|, after, i, own, q) {
      if i < |mid| {
        assert mid[i].Deleted? && Vetted(|before|, mid, i, own, q);
      } else {
        assert Vetted(|mid|, after, i, own, q);
      }
    }
  }
}
