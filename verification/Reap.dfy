/** One reap pass over one slot, and the log of what it did. */
module Reap {
  import opened Wrappers
  import opened Poison

  datatype LeaseRead = Unreadable | Read(key: string, alive: bool)

  datatype TryLock = Got | Busy | Failed

  /** One entry of the slot's runs directory; pid is what its name begins with. */
  datatype Run = Run(name: string, isDir: bool, modified: Option<int>, pid: Option<int>)

  /** What the slot's directory says, and how calls on it fare, instant by instant. */
  datatype Slot = Slot(
    tryLock: nat -> TryLock,
    lease: nat -> LeaseRead, dropsLease: nat -> bool,
    meta: nat -> Meta, runs: nat -> seq<Run>,
    modified: nat -> Option<int>,              // the directory's own time
    deletes: nat -> bool)                      // simctl delete

  datatype Options = Options(
    dryRun: bool, disown: bool, keepWarm: bool,
    cold: int, purgeMinutes: int, scrubMinutes: int, stuckAfter: int, pruneAfter: int)

  /** What a pass acts on: the slot, its meta as read once, and the verdict on
      it.  snap is when the device listing was made that all the slots of a pass
      are decided on, before the first of them was locked; None when that
      listing failed, and each slot's device is looked up in its turn. */
  datatype Case = Case(h: History, own: string, snap: Option<nat>, s: Slot, o: Options, m: Meta, p: Verdict)

  /** When what findDevice says at l was true. */
  function Look(snap: Option<nat>, l: nat): nat {
    if snap.Some? then snap.value else l
  }

  const FOREVER := 999999 * 3600

  function IdleFor(m: Meta, now: int): int {
    if m.lastUsed == 0 then FOREVER else now - m.lastUsed
  }

  predicate BootedIn(ds: Option<seq<Device>>, udid: string) {
    ds.Some? && FindDevice(ds.value, udid).Some? && FindDevice(ds.value, udid).value.state == "Booted"
  }

  // ---------------------------------------------------------------- what a log may say

  predicate Touches(e: Effect) {
    e.ShutDown? || e.Delete? || e.RemoveDir?
  }

  predicate Kills(e: Effect) {
    e.ShutDown? || e.Signal? || e.SignalGroup?
  }

  /** What the pass goes by: in the listing, or looked up in the pass if there is
      none, the device carries this slot's own name, and is booted or is not. */
  ghost predicate Found(c: Case, from: nat, udid: string, at: nat, booted: bool) {
    udid == c.m.udid && exists b: nat :: from <= b <= at && FoundAt(c, b, booted)
  }

  ghost predicate FoundAt(c: Case, b: nat, booted: bool) {
    var ds := c.h(Look(c.snap, b)).devices;
    OwnDevice(ds, c.m.udid, c.own) && (BootedIn(ds, c.m.udid) <==> booted)
  }

  /** What recovery and disowning go by: the device was seen to carry this
      slot's own name since, just before it was touched. */
  ghost predicate OwnAt(c: Case, from: nat, udid: string, at: nat) {
    udid == c.m.udid && exists a: nat :: from <= a <= at && OwnDevice(c.h(a).devices, udid, c.own)
  }

  ghost predicate IdleAt(c: Case, from: nat, seconds: int, at: nat) {
    exists a: nat :: from <= a <= at && IdleFor(c.m, c.h(a).now) >= seconds
  }

  /** The grounds any one effect of a pass needs. */
  ghost predicate Justified(c: Case, from: nat, e: Effect) {
    match e
    case Signal(pid, at) =>
      c.p.Residue? && pid in c.p.pids && exists a: nat :: from <= a <= at && c.h(a).residue(pid, c.m.udid)
    case SignalGroup(pgid, at) =>
      c.p == ConsumerGroup(pgid) && GroupGrounds(c.h, c.m, pgid, from, at)
    case ShutDown(udid, at) =>
      if c.p.Clean? then Found(c, from, udid, at, true) && !c.o.keepWarm && IdleAt(c, from, c.o.cold, at)
      else OwnAt(c, from, udid, at) || (!c.o.disown && Found(c, from, udid, at, true))
    case Delete(udid, at) =>
      if c.p.Clean? then Found(c, from, udid, at, false) && c.o.purgeMinutes > 0 && IdleAt(c, from, c.o.purgeMinutes * 60, at)
      else OwnAt(c, from, udid, at) && c.o.disown && c.p.ConsumerGroup? && c.m.mode == "with"
    case Scrub(udid, at) =>
      Found(c, from, udid, at, false) && c.p.Clean? && c.o.scrubMinutes > 0 && IdleAt(c, from, c.o.scrubMinutes * 60, at)
    case RemoveDir(at) => from <= at && c.p.Clean? && c.o.purgeMinutes > 0 && IdleAt(c, from, c.o.cold, at)
    case RemoveLease(at) => c.s.lease(at).Read? && c.s.lease(at).key != "" && !c.s.lease(at).alive
    case SaveMeta(_) => !c.p.Clean?
    case RemoveRun(name, at) => exists a: nat, r :: from <= a <= at && r in c.s.runs(a) && r.name == name && OldRun(c.h, c.o, r, a, at)
  }

  /** A run directory past its time, with no process of its own seen alive. */
  ghost predicate OldRun(h: History, o: Options, r: Run, from: nat, to: nat) {
    && r.isDir
    && (exists a: nat :: from <= a <= to && Aged(r, h(a).now, o.pruneAfter))
    && (r.pid.Some? ==> exists a: nat :: from <= a <= to && !h(a).alive(r.pid.value))
  }

  predicate Aged(r: Run, now: int, age: int) {
    r.modified.Some? && now - r.modified.value >= age
  }

  /** Since `before`, nothing was done under --dry-run, and nothing without grounds. */
  ghost predicate Warranted(c: Case, from: nat, before: seq<Effect>, after: seq<Effect>) {
    && before <= after && (c.o.dryRun ==> after == before)
    && forall i :: |before| <= i < |after| ==> Justified(c, from, after[i])
  }

  ghost predicate NoDelete(before: seq<Effect>, after: seq<Effect>) {
    forall i :: |before| <= i < |after| ==> !after[i].Delete?
  }

  ghost predicate NoKill(before: seq<Effect>, after: seq<Effect>) {
    forall i :: |before| <= i < |after| ==> !Kills(after[i])
  }

  /** Without --disown-poisoned a pass never both kills or shuts down and deletes. */
  ghost predicate OneOrTheOther(c: Case, before: seq<Effect>, after: seq<Effect>) {
    !c.o.disown ==> NoDelete(before, after) || NoKill(before, after)
  }

  /** The flock was held, and the lease read under it was readable and not live,
      before anything was done to a device or the directory. */
  ghost predicate Guarded(s: Slot, locked: Option<nat>, clear: nat, before: seq<Effect>, after: seq<Effect>) {
    forall i :: |before| <= i < |after| && Touches(after[i]) ==>
      locked.Some? && locked.value <= clear <= after[i].at && s.lease(clear).Read? && !s.lease(clear).alive
  }

  // ---------------------------------------------------------------- an idle slot

  ghost predicate Did(before: seq<Effect>, after: seq<Effect>, e: Effect) {
    exists i :: |before| <= i < |after| && after[i] == e
  }

  /** The instants of an idle slot's turn: the clock is read, its device looked
      up, shut down or scrubbed, and deleted. */
  datatype Turn = Turn(clock: nat, look: nat, act: nat, purge: nat) {
    predicate InOrder() { clock <= look <= act <= purge }
  }

  predicate ScrubDue(o: Options, idle: int) {
    o.scrubMinutes > 0 && idle >= o.scrubMinutes * 60
  }

  predicate PurgeDue(o: Options, idle: int) {
    o.purgeMinutes > 0 && idle >= o.purgeMinutes * 60
  }

  /** The slot has been idle long enough, and has a device, for anything to be
      done to that. */
  predicate Eligible(c: Case, idle: int) {
    idle >= c.o.cold && !c.o.dryRun && c.m.udid != ""
  }

  /** What an idle slot is due, given how long it has been idle and the devices. */
  ghost function Due(c: Case, idle: int, ds: Option<seq<Device>>, t: Turn): set<Effect> {
    if !Eligible(c, idle) || !OwnDevice(ds, c.m.udid, c.own) then {}
    else if BootedIn(ds, c.m.udid) then
      if c.o.keepWarm then {} else {ShutDown(c.m.udid, t.act)}
    else
      (if ScrubDue(c.o, idle) then {Scrub(c.m.udid, t.act)} else {})
      + if PurgeDue(c.o, idle) then {Delete(c.m.udid, t.purge)} else {}
  }

  function Idleness(c: Case, t: Turn): int {
    IdleFor(c.m, c.h(t.clock).now)
  }

  /** Exactly what is done to a free, unpoisoned slot in its turn: what is due by
      the listing. */
  ghost predicate Idled(c: Case, t: Turn, before: seq<Effect>, after: seq<Effect>) {
    && DidExactly(c, t, Due(c, Idleness(c, t), c.h(Look(c.snap, t.look)).devices, t), before, after)
    && (DirRemoved(before, after) <==> if c.m.udid == "" then DeadDir(c, t) else Did(before, after, Delete(c.m.udid, t.purge)) && c.s.deletes(t.purge))
  }

  ghost predicate DirRemoved(before: seq<Effect>, after: seq<Effect>) {
    exists i :: |before| <= i < |after| && after[i].RemoveDir?
  }

  /** The directory of a slot that never had a device, two minutes old, when
      there is anything to be purged. */
  predicate DeadDir(c: Case, t: Turn) {
    && !c.o.dryRun && Idleness(c, t) >= c.o.cold && c.o.purgeMinutes > 0
    && c.s.modified(t.act).Some? && c.h(t.act).now - c.s.modified(t.act).value >= 120
  }

  /** What was due was done, and nothing else but the removal of the directory,
      which goes only after the device, or if there never was one. */
  ghost predicate DidExactly(c: Case, t: Turn, due: set<Effect>, before: seq<Effect>, after: seq<Effect>) {
    && t.InOrder() && before <= after
    && (forall e :: e in due ==> Did(before, after, e))
    && forall i :: |before| <= i < |after| ==> after[i] in due || (after[i].RemoveDir? && MayRemove(c, t, before, after, after[i].at))
  }

  ghost predicate MayRemove(c: Case, t: Turn, before: seq<Effect>, after: seq<Effect>, at: nat) {
    && t.clock <= at && !c.o.dryRun && Idleness(c, t) >= c.o.cold && c.o.purgeMinutes > 0
    && (c.m.udid == "" || (t.purge <= at && Did(before, after, Delete(c.m.udid, t.purge))))
  }

  /** Whatever is done to an idle slot has its grounds, and is either a shutdown
      or a scrub and purge, never both. */
  lemma IdledIsWarranted(c: Case, from: nat, t: Turn, before: seq<Effect>, after: seq<Effect>)
    requires c.p.Clean? && from <= t.clock && Idled(c, t, before, after)
    ensures Warranted(c, from, before, after)
    ensures NoDelete(before, after) || NoKill(before, after)
  {
    hide Due, Justified, MayRemove, Look;
    var due := Due(c, Idleness(c, t), c.h(Look(c.snap, t.look)).devices, t);
    forall i | |before| <= i < |after| ensures !c.o.dryRun && Justified(c, from, after[i]) {
      if after[i] in due {
        DueIsJustified(c, from, t, after[i]);
      } else {
        RemovalIsJustified(c, from, t, before, after, after[i]);
      }
    }
    if |after| > |before| {
      assert Justified(c, from, after[|before|]);
    } else {
      assert after == before;
    }
    EitherDue(c, t, before, after);
  }

  lemma DueIsJustified(c: Case, from: nat, t: Turn, e: Effect)
    requires c.p.Clean? && from <= t.clock && t.InOrder()
    requires e in Due(c, Idleness(c, t), c.h(Look(c.snap, t.look)).devices, t)
    ensures !c.o.dryRun && Justified(c, from, e)
  {
    hide OwnDevice, BootedIn, IdleFor;
    assert IdleFor(c.m, c.h(t.clock).now) == Idleness(c, t);
    assert FoundAt(c, t.look, e.ShutDown?);
  }

  lemma RemovalIsJustified(c: Case, from: nat, t: Turn, before: seq<Effect>, after: seq<Effect>, e: Effect)
    requires c.p.Clean? && from <= t.clock && e.RemoveDir? && MayRemove(c, t, before, after, e.at)
    ensures !c.o.dryRun && Justified(c, from, e)
  {
    hide IdleFor;
    assert IdleFor(c.m, c.h(t.clock).now) == Idleness(c, t);
  }

  lemma EitherDue(c: Case, t: Turn, before: seq<Effect>, after: seq<Effect>)
    requires Idled(c, t, before, after)
    ensures NoDelete(before, after) || NoKill(before, after)
  {
    hide OwnDevice, BootedIn, IdleFor, MayRemove;
    var ds := c.h(Look(c.snap, t.look)).devices;
    if BootedIn(ds, c.m.udid) {
      assert NoDelete(before, after);
    } else {
      assert NoKill(before, after);
    }
  }

  // ---------------------------------------------------------------- what an old listing costs

  /** The slot's own device is there, and up. */
  predicate Up(c: Case, ds: Option<seq<Device>>) {
    OwnDevice(ds, c.m.udid, c.own) && BootedIn(ds, c.m.udid)
  }

  /** It is there, and not up. */
  predicate Down(c: Case, ds: Option<seq<Device>>) {
    OwnDevice(ds, c.m.udid, c.own) && !BootedIn(ds, c.m.udid)
  }

  /** On devices such as these something would be done: the device is up and
      not one to keep, or is down and past a threshold. */
  predicate Calls(c: Case, idle: int, ds: Option<seq<Device>>) {
    (Up(c, ds) && !c.o.keepWarm) || (Down(c, ds) && (ScrubDue(c.o, idle) || PurgeDue(c.o, idle)))
  }

  /** Devices that are as good as each other to go by: nothing would be done to
      the slot on either, or something on both with the device up in both or in
      neither. */
  predicate AsGood(c: Case, idle: int, was: Option<seq<Device>>, now: Option<seq<Device>>) {
    || !Eligible(c, idle)
    || (!Calls(c, idle, was) && !Calls(c, idle, now))
    || (Calls(c, idle, was) && Calls(c, idle, now) && (Up(c, was) <==> Up(c, now)))
  }

  /** A turn on the listing is what it would have been on a look at the devices
      in the turn itself exactly when the devices were as good then as now. */
  lemma ListingServes(c: Case, t: Turn, before: seq<Effect>, after: seq<Effect>)
    requires c.snap.Some? && Idled(c, t, before, after)
    ensures Idled(c.(snap := None), t, before, after) <==>
            AsGood(c, Idleness(c, t), c.h(c.snap.value).devices, c.h(t.look).devices)
  {
    var idle, was, now := Idleness(c, t), c.h(c.snap.value).devices, c.h(t.look).devices;
    SameDue(c, idle, was, now, t);
    hide Due, Calls, Up, Down, MayRemove;
    DueOf(c.(snap := None), c, idle, now, t);
    OneDue(c, t, Due(c, idle, was, t), Due(c, idle, now, t), before, after);
    RemovesAlike(c, t, before, after);
  }

  lemma RemovesAlike(c: Case, t: Turn, before: seq<Effect>, after: seq<Effect>)
    ensures forall at :: MayRemove(c.(snap := None), t, before, after, at) <==> MayRemove(c, t, before, after, at)
  {
  }

  lemma DueOf(d: Case, c: Case, idle: int, ds: Option<seq<Device>>, t: Turn)
    requires d == c.(snap := None)
    ensures Due(d, idle, ds, t) == Due(c, idle, ds, t)
  {
  }

  /** What was done is exactly what one set of effects calls for. */
  lemma OneDue(c: Case, t: Turn, was: set<Effect>, now: set<Effect>, before: seq<Effect>, after: seq<Effect>)
    requires DidExactly(c, t, was, before, after)
    requires forall e :: e in was || e in now ==> !e.RemoveDir?
    ensures DidExactly(c, t, now, before, after) <==> was == now
  {
    hide MayRemove;
    if DidExactly(c, t, now, before, after) {
      forall e ensures e in was <==> e in now {
        if e in was || e in now { assert Did(before, after, e); }
      }
    }
  }

  lemma SameDue(c: Case, idle: int, was: Option<seq<Device>>, now: Option<seq<Device>>, t: Turn)
    ensures Due(c, idle, was, t) == Due(c, idle, now, t) <==> AsGood(c, idle, was, now)
    ensures forall e :: e in Due(c, idle, was, t) || e in Due(c, idle, now, t) ==> !e.RemoveDir?
  {
    hide OwnDevice, BootedIn;
    DueIs(c, idle, was, t);
    DueIs(c, idle, now, t);
    hide Due;
  }

  lemma DueIs(c: Case, idle: int, ds: Option<seq<Device>>, t: Turn)
    ensures var due := Due(c, idle, ds, t);
            && (forall e :: e in due ==> e in {ShutDown(c.m.udid, t.act), Scrub(c.m.udid, t.act), Delete(c.m.udid, t.purge)})
            && (ShutDown(c.m.udid, t.act) in due <==> Eligible(c, idle) && Up(c, ds) && !c.o.keepWarm)
            && (Scrub(c.m.udid, t.act) in due <==> Eligible(c, idle) && Down(c, ds) && ScrubDue(c.o, idle))
            && (Delete(c.m.udid, t.purge) in due <==> Eligible(c, idle) && Down(c, ds) && PurgeDue(c.o, idle))
  {
    hide OwnDevice, BootedIn;
  }

  /** Used at least s seconds before now; never used is 3,599,996,400 seconds ago. */
  predicate IdleAtLeast(m: Meta, now: int, s: int) {
    if m.lastUsed == 0 then s <= 3_599_996_400 else m.lastUsed + s <= now
  }

  lemma IdleMeans(m: Meta, now: int, s: int)
    ensures IdleFor(m, now) >= s <==> IdleAtLeast(m, now, s)
  {
  }

  /** The listing was read, and has the device as "Booted". */
  ghost predicate ListedBooted(ds: Option<seq<Device>>, udid: string) {
    ds.Some? && exists i: nat :: i < |ds.value| && FirstWith(ds.value, udid, i) && ds.value[i].state == "Booted"
  }

  lemma BootedMeans(ds: Option<seq<Device>>, udid: string)
    ensures BootedIn(ds, udid) <==> ListedBooted(ds, udid)
  {
    if ds.Some? {
      FindMeans(ds.value, udid);
      hide FirstWith;
    }
  }

  /** What was done to an idle slot's device, case by case: nothing unless it is
      listed as the slot's own, by the pass's listing if there is one; a booted
      one is shut down past --cold unless it is to be kept; one that is not is
      scrubbed and deleted past their own times. */
  lemma {:induction false} IdledMeans(c: Case, t: Turn, before: seq<Effect>, after: seq<Effect>)
    requires Idled(c, t, before, after)
    ensures var now, ds := c.h(t.clock).now, c.h(if c.snap.None? then t.look else c.snap.value).devices;
            var own := c.m.udid != "" && !c.o.dryRun && IdleAtLeast(c.m, now, c.o.cold) && ListedAsOwn(ds, c.m.udid, c.own);
            var up := ListedBooted(ds, c.m.udid);
            && (Did(before, after, ShutDown(c.m.udid, t.act)) <==> own && up && !c.o.keepWarm)
            && (Did(before, after, Scrub(c.m.udid, t.act)) <==> own && !up && 0 < c.o.scrubMinutes && IdleAtLeast(c.m, now, 60 * c.o.scrubMinutes))
            && (Did(before, after, Delete(c.m.udid, t.purge)) <==> own && !up && 0 < c.o.purgeMinutes && IdleAtLeast(c.m, now, 60 * c.o.purgeMinutes))
    ensures forall i :: |before| <= i < |after| ==>
              after[i].RemoveDir? || after[i] in {ShutDown(c.m.udid, t.act), Scrub(c.m.udid, t.act), Delete(c.m.udid, t.purge)}
  {
    var idle, ds := Idleness(c, t), c.h(Look(c.snap, t.look)).devices;
    var due := Due(c, idle, ds, t);
    DueIs(c, idle, ds, t);
    OwnDeviceMeans(ds, c.m.udid, c.own);
    BootedMeans(ds, c.m.udid);
    IdleMeans(c.m, c.h(t.clock).now, c.o.cold);
    IdleMeans(c.m, c.h(t.clock).now, 60 * c.o.scrubMinutes);
    IdleMeans(c.m, c.h(t.clock).now, 60 * c.o.purgeMinutes);
    hide Due, OwnDevice, BootedIn, ListedAsOwn, ListedBooted, IdleFor, IdleAtLeast, Did, MayRemove;
    DidAreDue(c, t, due, before, after);
    assert Idleness(c, t) == IdleFor(c.m, c.h(t.clock).now);
    hide DidExactly;
  }

  lemma DidAreDue(c: Case, t: Turn, due: set<Effect>, before: seq<Effect>, after: seq<Effect>)
    requires DidExactly(c, t, due, before, after)
    ensures forall e: Effect :: !e.RemoveDir? ==> (Did(before, after, e) <==> e in due)
    ensures forall i :: |before| <= i < |after| ==> after[i].RemoveDir? || after[i] in due
  {
    hide MayRemove;
  }

  /** The same entry for the device is always as good. */
  lemma UnchangedServes(c: Case, idle: int, was: Option<seq<Device>>, now: Option<seq<Device>>)
    requires was.Some? && now.Some? && FindDevice(was.value, c.m.udid) == FindDevice(now.value, c.m.udid)
    ensures AsGood(c, idle, was, now)
  {
    hide FindDevice;
  }

  /** A device that is up is deleted exactly when its slot is past --purge, the
      pass goes by a look that had it down, and it has come up since; so never
      when the device stays as it was seen. */
  lemma DeletesUp(c: Case, t: Turn, before: seq<Effect>, after: seq<Effect>)
    requires Idled(c, t, before, after)
    ensures (exists i :: |before| <= i < |after| && after[i].Delete? && Up(c, c.h(after[i].at).devices)) <==>
            && Eligible(c, Idleness(c, t)) && PurgeDue(c.o, Idleness(c, t))
            && Down(c, c.h(Look(c.snap, t.look)).devices) && Up(c, c.h(t.purge).devices)
  {
    var due := Due(c, Idleness(c, t), c.h(Look(c.snap, t.look)).devices, t);
    DueIs(c, Idleness(c, t), c.h(Look(c.snap, t.look)).devices, t);
    hide Due, Eligible, PurgeDue, Up, Down;
    var e := Delete(c.m.udid, t.purge);
    if i :| |before| <= i < |after| && after[i].Delete? && Up(c, c.h(after[i].at).devices) {
      assert after[i] in due;
    }
    if e in due && Up(c, c.h(t.purge).devices) {
      assert Did(before, after, e);
    }
  }

  /** A device that is not the slot's own and up is shut down exactly when the
      slot is past --cold, not one to keep, the look the pass goes by had its
      device up, and that is so no longer. */
  lemma ShutsDownDown(c: Case, t: Turn, before: seq<Effect>, after: seq<Effect>)
    requires Idled(c, t, before, after)
    ensures (exists i :: |before| <= i < |after| && after[i].ShutDown? && !Up(c, c.h(after[i].at).devices)) <==>
            && Eligible(c, Idleness(c, t)) && !c.o.keepWarm
            && Up(c, c.h(Look(c.snap, t.look)).devices) && !Up(c, c.h(t.act).devices)
  {
    var due := Due(c, Idleness(c, t), c.h(Look(c.snap, t.look)).devices, t);
    DueIs(c, Idleness(c, t), c.h(Look(c.snap, t.look)).devices, t);
    hide Due, Eligible, Up, Down;
    var e := ShutDown(c.m.udid, t.act);
    if i :| |before| <= i < |after| && after[i].ShutDown? && !Up(c, c.h(after[i].at).devices) {
      assert after[i] in due;
    }
    if e in due && !Up(c, c.h(t.act).devices) {
      assert Did(before, after, e);
    }
  }

  /** A device that is up, of a slot idle past --cold that is none to keep, is
      left up exactly when the look the pass goes by did not have it up, and it
      is not deleted. */
  lemma LeavesUp(c: Case, t: Turn, before: seq<Effect>, after: seq<Effect>)
    requires Idled(c, t, before, after) && Eligible(c, Idleness(c, t)) && !c.o.keepWarm
    ensures !Did(before, after, ShutDown(c.m.udid, t.act)) && !Did(before, after, Delete(c.m.udid, t.purge)) <==>
            var ds := c.h(Look(c.snap, t.look)).devices;
            !Up(c, ds) && !(Down(c, ds) && PurgeDue(c.o, Idleness(c, t)))
  {
    DueIs(c, Idleness(c, t), c.h(Look(c.snap, t.look)).devices, t);
    hide Due, Eligible, PurgeDue, Up, Down;
  }

  /** One slot's turn never makes the listing wrong for another's: decided on
      one listing, two slots never touch the same device. */
  lemma DifferentDevices(c1: Case, c2: Case, u1: string, u2: string, f1: nat, f2: nat, a1: nat, a2: nat, b1: bool, b2: bool)
    requires c1.h == c2.h && c1.snap == c2.snap && c1.snap.Some? && c1.own != c2.own
    requires Found(c1, f1, u1, a1, b1) && Found(c2, f2, u2, a2, b2)
    ensures u1 != u2
  {
  }

  /** A slot with device u, never used, whose device is listed in one state and
      is in another from its turn on: one turn of it. */
  method OneTurn(w: World, listed: string, turned: string, purgeMinutes: int)
      returns (h: Host, ghost c: Case, ghost t: Turn)
    ensures Idled(c, t, [], h.effects) && c.h == h.history && c.snap == Some(0) && t.InOrder() && t.clock >= 1
    ensures c.m.udid == "u" && c.own == "own" && Eligible(c, Idleness(c, t))
    ensures c.o.purgeMinutes == purgeMinutes && Idleness(c, t) == FOREVER && !c.o.keepWarm && c.o.scrubMinutes == 0
    ensures h.history(0).devices == Some([Device("u", "own", listed)])
    ensures forall k: nat :: k >= 1 ==> h.history(k).devices == Some([Device("u", "own", turned)])
  {
    var was, now := w.(devices := Some([Device("u", "own", listed)])), w.(devices := Some([Device("u", "own", turned)]));
    h := new Host((k: nat) => if k == 0 then was else now, "own", 1);
    var m := Meta("u", "", 0, "", "", 0, 0);
    var o := Options(false, false, false, 0, purgeMinutes, 0, 0, 0);
    var s := Slot((k: nat) => Got, (k: nat) => Unreadable, (k: nat) => true, (k: nat) => m, (k: nat) => [], (k: nat) => None, (k: nat) => true);
    c := Case(h.history, "own", Some(0), s, o, m, Clean);
    t := ReapIdle(h, c, s, Some(0), m, o);
  }

  lemma OneDevice(c: Case, state: string)
    requires c.m.udid == "u" && c.own == "own"
    ensures var ds := Some([Device("u", "own", state)]);
            if state == "Booted" then Up(c, ds) && !Down(c, ds) else Down(c, ds) && !Up(c, ds)
  {
  }

  /** Listed as down and started by hand before its turn, a device past --purge
      is deleted while it is up. */
  method StaleDelete(w: World) returns (h: Host, ghost b: nat)
    ensures Delete("u", b) in h.effects && OwnDevice(h.history(b).devices, "u", "own") && BootedIn(h.history(b).devices, "u")
  {
    ghost var c, t;
    h, c, t := OneTurn(w, "Shutdown", "Booted", 1);
    OneDevice(c, "Shutdown");
    OneDevice(c, "Booted");
    DeletesUp(c, t, [], h.effects);
    DueIs(c, FOREVER, h.history(0).devices, t);
    b := t.purge;
    assert Did([], h.effects, Delete("u", b));
  }

  lemma FirstDone(c: Case, t: Turn, due: set<Effect>, before: seq<Effect>, after: seq<Effect>)
    requires DidExactly(c, t, due, before, after) && |after| > |before|
    ensures due != {} || c.o.purgeMinutes > 0
  {
    var e := after[|before|];
  }

  /** With no --purge or --scrub it is left alone, and so left up. */
  method StaleLeftUp(w: World) returns (h: Host, ghost b: nat)
    ensures h.effects == [] && BootedIn(h.history(b).devices, "u")
  {
    ghost var c, t;
    h, c, t := OneTurn(w, "Shutdown", "Booted", 0);
    OneDevice(c, "Shutdown");
    OneDevice(c, "Booted");
    DueIs(c, FOREVER, h.history(0).devices, t);
    b := t.act;
    if |h.effects| > 0 { FirstDone(c, t, Due(c, FOREVER, h.history(0).devices, t), [], h.effects); }
  }

  /** Listed as booted and down when its turn comes, it is shut down all the same. */
  method StaleShutDown(w: World) returns (h: Host, ghost b: nat)
    ensures ShutDown("u", b) in h.effects && !BootedIn(h.history(b).devices, "u")
  {
    ghost var c, t;
    h, c, t := OneTurn(w, "Booted", "Shutdown", 0);
    OneDevice(c, "Booted");
    OneDevice(c, "Shutdown");
    DueIs(c, FOREVER, h.history(0).devices, t);
    b := t.act;
    assert Did([], h.effects, ShutDown("u", b));
  }

  // ---------------------------------------------------------------- a poisoned slot

  ghost predicate RecoveryDone(c: Case, from: nat, to: nat, before: seq<Effect>, after: seq<Effect>, ok: bool) {
    if c.p.Residue? then Either(c.h, c.m, c.own, c.p, NOBODY, from, to, before, after, ok)
    else exists m :: Recovered(c.h, c.m, m, c.own, c.p, from, to, before, after, ok)
  }

  ghost predicate DisownDone(c: Case, from: nat, to: nat, before: seq<Effect>, after: seq<Effect>) {
    exists m, done ::
      if c.p.Residue? then ResidueDisowned(c.h, c.m, m, c.p, from, to, before, after, done)
      else GroupDisowned(c.h, c.m, m, c.own, c.p, from, to, before, after, done)
  }

  ghost predicate QuarantineDown(c: Case, from: nat, to: nat, before: seq<Effect>, after: seq<Effect>) {
    exists l: nat, b: nat :: from <= l <= b <= to && DownedAt(c, l, b, before, after)
  }

  /** On the look at l, the device was shut down at b if it is the slot's own and up. */
  ghost predicate DownedAt(c: Case, l: nat, b: nat, before: seq<Effect>, after: seq<Effect>) {
    after == if c.m.udid != "" && FoundAt(c, l, true) then before + [ShutDown(c.m.udid, b)] else before
  }

  lemma QuarantineIs(c: Case, from: nat, to: nat, l: nat, b: nat, before: seq<Effect>, after: seq<Effect>)
    requires from <= l <= b <= to && DownedAt(c, l, b, before, after)
    ensures QuarantineDown(c, from, to, before, after)
  {
    hide DownedAt;
  }

  /** Recovery comes first and, if it works, last; else the operator's explicit
      giving up, or without it the shutdown of the slot's own booted device. */
  ghost predicate Handled(c: Case, from: nat, to: nat, before: seq<Effect>, after: seq<Effect>) {
    if c.o.dryRun then after == before
    else
      exists mid, t: nat, ok ::
        && from <= t <= to && RecoveryDone(c, from, t, before, mid, ok)
        && if ok then after == mid
           else if c.o.disown then DisownDone(c, t, to, mid, after)
           else QuarantineDown(c, t, to, mid, after)
  }

  lemma HandledIsWarranted(c: Case, from: nat, to: nat, before: seq<Effect>, after: seq<Effect>)
    requires !c.p.Clean? && (c.p.ConsumerGroup? ==> c.p.pgid == c.m.pgid) && Handled(c, from, to, before, after)
    ensures Warranted(c, from, before, after)
    ensures !c.o.disown ==> NoDelete(before, after)
  {
    hide RecoveryDone, DisownDone, QuarantineDown, Justified;
    if !c.o.dryRun {
      var mid, t: nat, ok :|
        && from <= t <= to && RecoveryDone(c, from, t, before, mid, ok)
        && if ok then after == mid
           else if c.o.disown then DisownDone(c, t, to, mid, after)
           else QuarantineDown(c, t, to, mid, after);
      RecoveryIsWarranted(c, from, t, before, mid, ok);
      if !ok {
        if c.o.disown {
          DisownIsWarranted(c, t, to, mid, after);
        } else {
          QuarantineIsWarranted(c, t, to, mid, after);
        }
        WarrantedSum(c, from, t, before, mid, after);
      }
    }
  }

  lemma RecoveryIsWarranted(c: Case, from: nat, to: nat, before: seq<Effect>, after: seq<Effect>, ok: bool)
    requires !c.o.dryRun && !c.p.Clean? && (c.p.ConsumerGroup? ==> c.p.pgid == c.m.pgid)
    requires RecoveryDone(c, from, to, before, after, ok)
    ensures Warranted(c, from, before, after) && NoDelete(before, after)
  {
    if c.p.Residue? {
      ReclaimIsWarranted(c, from, to, before, after, ok);
    } else {
      var m :| Recovered(c.h, c.m, m, c.own, c.p, from, to, before, after, ok);
      GroupIsWarranted(c, from, to, before, m, after, ok);
    }
  }

  lemma ReclaimIsWarranted(c: Case, from: nat, to: nat, before: seq<Effect>, after: seq<Effect>, ok: bool)
    requires !c.o.dryRun && c.p.Residue? && Either(c.h, c.m, c.own, c.p, NOBODY, from, to, before, after, ok)
    ensures Warranted(c, from, before, after) && NoDelete(before, after)
  {
    hide AllGone, SomeAlive, ResidueGrounds, Unreclaimed, Justified, Signals;
    if after != before {
      var at: nat :| from <= at <= to && Reclaimed(c.h, c.m, c.own, c.p.pids, c.p.evidence, NOBODY, from, at, before, after);
      SignalledIsResidue(c.h, c.m, c.own, c.p.pids, c.p.evidence, NOBODY, from, at);
      SignalsAreWarranted(c, from, at, before);
    }
  }

  lemma GroupIsWarranted(c: Case, from: nat, to: nat, before: seq<Effect>, m: Meta, after: seq<Effect>, ok: bool)
    requires !c.o.dryRun && !c.p.Clean? && !c.p.Residue?
    requires Recovered(c.h, c.m, m, c.own, c.p, from, to, before, after, ok)
    ensures Warranted(c, from, before, after) && NoDelete(before, after)
  {
    hide GroupGrounds, OwnDevice, Unidentified;
    if ok {
      var at: nat, gone: nat :| from <= at <= gone <= to
        && GroupGrounds(c.h, c.m, c.m.pgid, from, at) && Cleared(c.h, c.m, m, c.own, at, gone, to, before, after);
    }
  }

  lemma SignalsAreWarranted(c: Case, from: nat, at: nat, before: seq<Effect>)
    requires !c.o.dryRun && c.p.Residue? && AllSeenResidue(c.h, c.p.pids, c.m.udid, from, at)
    ensures Warranted(c, from, before, before + Signals(c.p.pids, at)) && NoDelete(before, before + Signals(c.p.pids, at))
  {
    var after := before + Signals(c.p.pids, at);
    forall i | |before| <= i < |after| ensures Justified(c, from, after[i]) && after[i].Signal? {
      assert after[i] == Signal(c.p.pids[i - |before|], at);
    }
  }

  lemma DisownIsWarranted(c: Case, from: nat, to: nat, before: seq<Effect>, after: seq<Effect>)
    requires !c.o.dryRun && c.o.disown && !c.p.Clean? && DisownDone(c, from, to, before, after)
    ensures Warranted(c, from, before, after)
  {
    if c.p.Residue? {
      ResidueDisownIsWarranted(c, from, to, before, after);
    } else {
      hide OwnDevice;
    }
  }

  lemma ResidueDisownIsWarranted(c: Case, from: nat, to: nat, before: seq<Effect>, after: seq<Effect>)
    requires !c.o.dryRun && c.p.Residue? && DisownDone(c, from, to, before, after)
    ensures Warranted(c, from, before, after)
  {
    hide AllGone, Justified, Signals, Offline, AllSeenResidue;
    var m, done :| ResidueDisowned(c.h, c.m, m, c.p, from, to, before, after, done);
    if after != before {
      var at: nat :| from <= at <= to && DisownGrounds(c.h, c.m, c.p, from, at) && DisownedAt(c.h, c.m, m, c.p, at, to, before, after, done);
      SignalsAreWarranted(c, from, at, before);
      if after != before + Signals(c.p.pids, at) {
        SavingIsWarranted(c, from, before, before + Signals(c.p.pids, at), m);
      }
    }
  }

  lemma SavingIsWarranted(c: Case, from: nat, before: seq<Effect>, mid: seq<Effect>, m: Meta)
    requires !c.o.dryRun && !c.p.Clean? && Warranted(c, from, before, mid)
    ensures Warranted(c, from, before, mid + [SaveMeta(m)])
  {
    assert Justified(c, from, SaveMeta(m));
  }

  lemma QuarantineIsWarranted(c: Case, from: nat, to: nat, before: seq<Effect>, after: seq<Effect>)
    requires !c.o.dryRun && !c.o.disown && !c.p.Clean? && QuarantineDown(c, from, to, before, after)
    ensures Warranted(c, from, before, after) && NoDelete(before, after)
  {
    hide OwnDevice, BootedIn;
  }

  /** Grounds that stood later stood. */
  lemma WarrantedSum(c: Case, from: nat, mid: nat, e0: seq<Effect>, e1: seq<Effect>, e2: seq<Effect>)
    requires from <= mid && Warranted(c, from, e0, e1) && Warranted(c, mid, e1, e2)
    ensures Warranted(c, from, e0, e2)
    ensures NoDelete(e0, e1) && NoDelete(e1, e2) ==> NoDelete(e0, e2)
    ensures NoKill(e0, e1) && NoKill(e1, e2) ==> NoKill(e0, e2)
  {
    hide Justified;
    forall i | |e0| <= i < |e2| ensures Justified(c, from, e2[i]) {
      if i < |e1| { assert e2[i] == e1[i]; } else { JustifiedEarlier(c, from, mid, e2[i]); }
    }
    assert forall i :: 0 <= i < |e1| ==> e2[i] == e1[i];
  }

  lemma JustifiedEarlier(c: Case, from: nat, mid: nat, e: Effect)
    requires from <= mid && Justified(c, mid, e)
    ensures Justified(c, from, e)
  {
  }

  // ---------------------------------------------------------------- the pass

  /** snapshotDevices: one listing for all the slots of a pass, if it can be had. */
  method SnapshotDevices(h: Host) returns (snap: Option<nat>)
    modifies h`t
    ensures h.t >= old(h.t)
    ensures snap == if h.history(h.t).devices.Some? then Some(h.t) else None
  {
    h.Pass();
    snap := if h.history(h.t).devices.Some? then Some(h.t) else None;
  }

  /** Only the recorded `with` holder was signalled: found among those with the
      lock file open, alive, a `simpool with`, without a child, and past its grace. */
  ghost predicate HolderOnly(h: History, m: Meta, o: Options, from: nat, before: seq<Effect>, after: seq<Effect>) {
    && before <= after
    && forall i :: |before| <= i < |after| ==> after[i].Signal? && Stuck(h, m, o, from, after[i].pid, after[i].at)
  }

  ghost predicate Stuck(h: History, m: Meta, o: Options, from: nat, pid: int, at: nat) {
    && from <= at && !o.dryRun && pid == m.ownerPid
    && m.mode == "with" && m.lastUsed != 0 && h(at).now - m.lastUsed >= o.stuckAfter
    && (exists a: nat :: from <= a <= at && h(a).holders.Some? && pid in h(a).holders.value)
    && (exists a: nat :: from <= a <= at && h(a).alive(pid))
    && (exists a: nat :: from <= a <= at && h(a).runsWith(pid))
    && (exists a: nat :: from <= a <= at && h(a).children(pid) == Some([]))
  }

  /** Why a process with the lock file open was let be. */
  ghost predicate NotStuck(h: History, m: Meta, o: Options, from: nat, to: nat, pid: int) {
    || o.dryRun || pid != m.ownerPid || m.lastUsed == 0
    || (exists a: nat :: from <= a <= to && !h(a).alive(pid))
    || (exists a: nat :: from <= a <= to && !h(a).runsWith(pid))
    || (exists a: nat :: from <= a <= to && h(a).children(pid) != Some([]))
    || (exists a: nat :: from <= a <= to && h(a).now - m.lastUsed < o.stuckAfter)
  }

  ghost predicate Signalled(before: seq<Effect>, after: seq<Effect>, pid: int) {
    exists i :: |before| <= i < |after| && after[i].Signal? && after[i].pid == pid
  }

  /** A held slot: only a stuck holder was signalled, and of a `with` whose
      holders could be listed every stuck one was. */
  ghost predicate HeldWell(h: History, s: Slot, m: Meta, o: Options, from: nat, to: nat, before: seq<Effect>, after: seq<Effect>) {
    && HolderOnly(h, m, o, from, before, after)
    && (exists a: nat :: from <= a <= to && m == s.meta(a))
    && (m.mode == "with" ==> exists l: nat :: from <= l <= to && AllAnswered(h, m, o, l, from, to, before, after))
  }

  ghost predicate AllAnswered(h: History, m: Meta, o: Options, l: nat, from: nat, to: nat, before: seq<Effect>, after: seq<Effect>) {
    h(l).holders.Some? ==>
      forall i :: 0 <= i < |h(l).holders.value| ==>
        Signalled(before, after, h(l).holders.value[i]) || NotStuck(h, m, o, from, to, h(l).holders.value[i])
  }

  /** reapHeldSlot: at most the recorded `with` holder is signalled, and exactly
      when it has had no live child for longer than the grace. */
  method ReapHeldSlot(h: Host, s: Slot, o: Options) returns (ghost m: Meta)
    modifies h`t, h`effects
    ensures h.t >= old(h.t)
    ensures HeldWell(h.history, s, m, o, old(h.t), h.t, old(h.effects), h.effects)
  {
    hide HolderOnly, Signalled, NotStuck, AllAnswered;
    ghost var start, before := h.t, h.effects;
    h.Pass();
    var meta := s.meta(h.t);
    m := meta;
    ghost var read := h.t;
    NobodySignalled(h.history, m, o, start, before);
    if meta.mode != "with" {
      return;
    }
    h.Pass();
    var holders := h.history(h.t).holders;
    ghost var listed := h.t;
    if holders.None? {
      NoHolders(h.history, m, o, listed, start, h.t, before, h.effects);
      return;
    }
    for i := 0 to |holders.value|
      invariant h.t >= listed >= read >= start
      invariant HolderOnly(h.history, m, o, start, before, h.effects)
      invariant forall k :: 0 <= k < i ==>
                  Signalled(before, h.effects, holders.value[k]) || NotStuck(h.history, m, o, start, h.t, holders.value[k])
    {
      ghost var t, log := h.t, h.effects;
      CheckHolder(h, meta, o, holders.value[i], listed, start, before);
      forall k | 0 <= k < i ensures Signalled(before, h.effects, holders.value[k]) || NotStuck(h.history, m, o, start, h.t, holders.value[k]) {
        StillAnswered(h.history, m, o, start, t, h.t, before, log, h.effects, holders.value[k]);
      }
    }
    HoldersAnswered(h.history, m, o, listed, start, h.t, before, h.effects);
  }

  lemma NobodySignalled(h: History, m: Meta, o: Options, from: nat, log: seq<Effect>)
    ensures HolderOnly(h, m, o, from, log, log)
  {
  }

  lemma NoHolders(h: History, m: Meta, o: Options, l: nat, from: nat, to: nat, before: seq<Effect>, after: seq<Effect>)
    requires h(l).holders.None?
    ensures AllAnswered(h, m, o, l, from, to, before, after)
  {
  }

  lemma HoldersAnswered(h: History, m: Meta, o: Options, l: nat, from: nat, to: nat, before: seq<Effect>, after: seq<Effect>)
    requires h(l).holders.Some?
    requires forall k :: 0 <= k < |h(l).holders.value| ==>
               Signalled(before, after, h(l).holders.value[k]) || NotStuck(h, m, o, from, to, h(l).holders.value[k])
    ensures AllAnswered(h, m, o, l, from, to, before, after)
  {
  }

  lemma StillAnswered(h: History, m: Meta, o: Options, from: nat, t: nat, to: nat, before: seq<Effect>, log: seq<Effect>, after: seq<Effect>, pid: int)
    requires log <= after && t <= to && (Signalled(before, log, pid) || NotStuck(h, m, o, from, t, pid))
    ensures Signalled(before, after, pid) || NotStuck(h, m, o, from, to, pid)
  {
    if Signalled(before, log, pid) {
      var i :| |before| <= i < |log| && log[i].Signal? && log[i].pid == pid;
      assert after[i] == log[i];
    }
  }

  /** One process with the lock file open. */
  method CheckHolder(h: Host, meta: Meta, o: Options, pid: int, ghost listed: nat, ghost start: nat, ghost before: seq<Effect>)
    requires start <= listed <= h.t && h.history(listed).holders.Some? && pid in h.history(listed).holders.value
    requires meta.mode == "with" && HolderOnly(h.history, meta, o, start, before, h.effects)
    modifies h`t, h`effects
    ensures h.t >= old(h.t) && old(h.effects) <= h.effects && HolderOnly(h.history, meta, o, start, before, h.effects)
    ensures Signalled(before, h.effects, pid) || NotStuck(h.history, meta, o, start, h.t, pid)
  {
    h.Pass();
    if !h.history(h.t).alive(pid) {
      return;
    }
    ghost var alive := h.t;
    h.Pass();
    if pid != meta.ownerPid || !h.history(h.t).runsWith(pid) {
      return;
    }
    ghost var known := h.t;
    h.Pass();
    var children := h.history(h.t).children(pid);
    if children.None? || |children.value| > 0 {
      return;
    }
    ghost var childless := h.t;
    h.Pass();
    if meta.lastUsed == 0 || h.history(h.t).now - meta.lastUsed < o.stuckAfter || o.dryRun {
      return;
    }
    assert h.history(childless).children(pid) == Some([]) && h.history(known).runsWith(pid)
      && h.history(alive).alive(pid) && pid in h.history(listed).holders.value;
    assert Stuck(h.history, meta, o, start, pid, h.t);
    h.Do(Signal(pid, h.t));
    assert h.effects[|h.effects| - 1].Signal?;
  }

  /** shutdownQuarantined: the booted device of a slot that stays quarantined,
      if by the listing it is the slot's own. */
  method ShutdownQuarantined(h: Host, snap: Option<nat>, m: Meta, dryRun: bool) returns (found: bool, ghost look: nat)
    modifies h`t, h`effects
    ensures old(h.t) <= look <= h.t
    ensures var ds := h.history(Look(snap, look)).devices;
            found <==> m.udid != "" && OwnDevice(ds, m.udid, h.own) && BootedIn(ds, m.udid)
    ensures h.effects == if found && !dryRun then old(h.effects) + [ShutDown(m.udid, h.t)] else old(h.effects)
  {
    look := h.t;
    if m.udid == "" {
      return false, look;
    }
    h.Pass();
    look := h.t;
    var ds := h.history(Look(snap, h.t)).devices;
    if !OwnDevice(ds, m.udid, h.own) || FindDevice(ds.value, m.udid).value.state != "Booted" {
      return false, look;
    }
    if !dryRun {
      h.Pass();
      h.Do(ShutDown(m.udid, h.t));
    }
    return true, look;
  }

  /** A poisoned slot: recovery, else a shutdown, or with --disown-poisoned the
      operator's explicit giving up. */
  method ReapPoisoned(h: Host, ghost c: Case, snap: Option<nat>, m: Meta, poison: Verdict, o: Options)
    requires c.h == h.history && c.own == h.own && c.snap == snap && c.o == o && c.m == m && c.p == poison
    requires !poison.Clean? && (poison.ConsumerGroup? ==> poison.pgid == m.pgid)
    modifies h`t, h`effects
    ensures h.t >= old(h.t) && Handled(c, old(h.t), h.t, old(h.effects), h.effects)
  {
    hide Either, Recovered, ResidueDisowned, GroupDisowned, OwnDevice, BootedIn;
    if o.dryRun {
      var _, _ := ShutdownQuarantined(h, snap, m, true);
      return;
    }
    ghost var e0, t0 := h.effects, h.t;
    var ok, meta := h.AttemptRecovery(m, poison, NOBODY);
    ghost var e1, t1 := h.effects, h.t;
    assert RecoveryDone(c, t0, t1, e0, e1, ok);
    if ok {
      return;
    }
    FailedKeepsMeta(c, meta, t0, t1, e0, e1);
    if !o.disown {
      var found, look := ShutdownQuarantined(h, snap, meta, false);
      assert m.udid != "" && FoundAt(c, look, true) <==> found;
      QuarantineIs(c, t1, h.t, look, h.t, e1, h.effects);
    } else {
      var done, after := h.DisownPoisonedSlot(meta, poison);
      assert DisownDone(c, t1, h.t, e1, h.effects);
    }
  }

  lemma FailedKeepsMeta(c: Case, m: Meta, from: nat, to: nat, before: seq<Effect>, after: seq<Effect>)
    ensures Recovered(c.h, c.m, m, c.own, c.p, from, to, before, after, false) ==> m == c.m
  {
  }

  /** A free, unpoisoned slot: left alone, shut down, scrubbed or purged. */
  method ReapIdle(h: Host, ghost c: Case, s: Slot, snap: Option<nat>, m: Meta, o: Options) returns (ghost t: Turn)
    requires c.h == h.history && c.own == h.own && c.snap == snap && c.s == s && c.o == o && c.m == m
    modifies h`t, h`effects
    ensures old(h.t) <= t.clock && t.InOrder() && t.purge <= h.t && Idled(c, t, old(h.effects), h.effects)
  {
    hide OwnDevice, BootedIn, IdleFor;
    h.Pass();
    t := Turn(h.t, h.t, h.t, h.t);
    ghost var before := h.effects;
    var idle := IdleFor(m, h.history(h.t).now);
    if idle < o.cold {
      return;
    }
    if m.udid == "" {
      h.Pass();
      t := Turn(t.clock, h.t, h.t, h.t);
      RemoveDeadDir(h, s, o);
      NoDeviceIdled(c, t, h.t, before, h.effects);
      return;
    }
    h.Pass();
    t := Turn(t.clock, h.t, h.t, h.t);
    var ds := h.history(Look(snap, h.t)).devices;
    if !OwnDevice(ds, m.udid, h.own) {
      return;
    }
    if BootedIn(ds, m.udid) {
      if !o.keepWarm && !o.dryRun {
        h.Pass();
        t := Turn(t.clock, t.look, h.t, h.t);
        DidLast(before, before, ShutDown(m.udid, h.t));
        h.Do(ShutDown(m.udid, h.t));
      }
      return;
    }
    if !o.dryRun {
      ghost var act, purge := ScrubAndPurge(h, s, m, o, idle);
      t := Turn(t.clock, t.look, act, purge);
    }
  }

  lemma NoDeviceIdled(c: Case, t: Turn, at: nat, before: seq<Effect>, after: seq<Effect>)
    requires c.m.udid == "" && t.InOrder() && t.act <= at && Idleness(c, t) >= c.o.cold
    requires after == if DeadDir(c, t) then before + [RemoveDir(at)] else before
    ensures Idled(c, t, before, after)
  {
    if DeadDir(c, t) { assert after[|before|].RemoveDir?; }
  }

  /** removeDeadSlotDir. */
  method RemoveDeadDir(h: Host, s: Slot, o: Options)
    modifies h`t, h`effects
    ensures h.t >= old(h.t)
    ensures var dead := o.purgeMinutes > 0 && s.modified(old(h.t)).Some? && h.history(old(h.t)).now - s.modified(old(h.t)).value >= 120;
            h.effects == if dead && !o.dryRun then old(h.effects) + [RemoveDir(h.t)] else old(h.effects)
  {
    if o.purgeMinutes <= 0 {
      return;
    }
    var modified := s.modified(h.t);
    if modified.None? || h.history(h.t).now - modified.value < 120 {
      return;
    }
    if o.dryRun {
      return;
    }
    h.Pass();
    h.Do(RemoveDir(h.t));
  }

  /** Scrubbing takes its time, and so does deleting. */
  method ScrubAndPurge(h: Host, s: Slot, m: Meta, o: Options, idle: int) returns (ghost act: nat, ghost purge: nat)
    modifies h`t, h`effects
    ensures old(h.effects) <= h.effects && old(h.t) <= act <= purge <= h.t
    ensures forall i :: |old(h.effects)| <= i < |h.effects| ==>
              || h.effects[i] in {Scrub(m.udid, act), Delete(m.udid, purge)}
              || (h.effects[i].RemoveDir? && h.effects[i].at >= purge && Did(old(h.effects), h.effects, Delete(m.udid, purge)))
    ensures forall i :: |old(h.effects)| <= i < |h.effects| ==> Did(old(h.effects), h.effects, h.effects[i])
    ensures Did(old(h.effects), h.effects, Scrub(m.udid, act)) <==> ScrubDue(o, idle)
    ensures Did(old(h.effects), h.effects, Delete(m.udid, purge)) <==> PurgeDue(o, idle)
    ensures DirRemoved(old(h.effects), h.effects) <==> Did(old(h.effects), h.effects, Delete(m.udid, purge)) && s.deletes(purge)
  {
    h.Pass();
    act, purge := h.t, h.t;
    if ScrubDue(o, idle) {
      DidLast(old(h.effects), h.effects, Scrub(m.udid, h.t));
      h.Do(Scrub(m.udid, h.t));
    }
    if !PurgeDue(o, idle) {
      return;
    }
    h.Pass();
    purge := h.t;
    DidLast(old(h.effects), h.effects, Delete(m.udid, h.t));
    h.Do(Delete(m.udid, h.t));
    if s.deletes(h.t) {
      h.Pass();
      DidLast(old(h.effects), h.effects, RemoveDir(h.t));
      h.Do(RemoveDir(h.t));
      assert h.effects[|h.effects| - 1].RemoveDir?;
    }
  }

  lemma DidLast(before: seq<Effect>, log: seq<Effect>, e: Effect)
    requires before <= log
    ensures forall f :: Did(before, log + [e], f) <==> f == e || Did(before, log, f)
  {
    forall f ensures Did(before, log + [e], f) <==> f == e || Did(before, log, f) {
      if f == e { assert (log + [e])[|log|] == e; }
      if Did(before, log, f) {
        var i :| |before| <= i < |log| && log[i] == f;
        assert (log + [e])[i] == f;
      }
    }
  }

  /** The flock is held and no lease is live: poisoned or idle. */
  method ReapFree(h: Host, s: Slot, snap: Option<nat>, o: Options) returns (ghost c: Case)
    modifies h`t, h`effects
    ensures h.t >= old(h.t) && c.h == h.history && c.own == h.own && c.snap == snap && c.s == s && c.o == o
    ensures ReadIn(c, old(h.t), h.t)
    ensures Dealt(c, old(h.t), h.t, old(h.effects), h.effects)
  {
    hide Idled, Handled, Seen, Judge;
    ghost var e0, t0 := h.effects, h.t;
    h.Pass();
    var m := s.meta(h.t);
    ghost var t1 := h.t;
    var verdict, v := h.CheckPoison(m, NOBODY);
    ghost var t2 := h.t;
    c := Case(h.history, h.own, snap, s, o, m, verdict);
    GroupIsRecorded(m, v, NOBODY);
    if verdict.Clean? {
      var t := ReapIdle(h, c, s, snap, m, o);
    } else {
      ReapPoisoned(h, c, snap, m, verdict, o);
    }
    SeenSooner(h.history, v, t0, t1, t2);
    SeenLater(h.history, v, t0, t2, h.t);
  }

  lemma GroupIsRecorded(m: Meta, v: World, owner: Owner)
    ensures Judge(m, v, owner).ConsumerGroup? ==> Judge(m, v, owner).pgid == m.pgid
  {
  }

  /** The meta and the verdict are this pass's own: read, and decided on what was seen. */
  ghost predicate ReadIn(c: Case, from: nat, to: nat) {
    && (exists a: nat :: from <= a <= to && c.m == c.s.meta(a))
    && (exists v :: Seen(c.h, v, from, to) && c.p == Judge(c.m, v, NOBODY))
  }

  ghost predicate Dealt(c: Case, from: nat, to: nat, before: seq<Effect>, after: seq<Effect>) {
    if c.p.Clean? then exists t: Turn :: from <= t.clock && t.purge <= to && Idled(c, t, before, after)
    else exists t: nat :: from <= t <= to && Handled(c, t, to, before, after)
  }

  lemma DealtIsWarranted(c: Case, from: nat, to: nat, before: seq<Effect>, after: seq<Effect>)
    requires ReadIn(c, from, to) && Dealt(c, from, to, before, after)
    ensures Warranted(c, from, before, after) && OneOrTheOther(c, before, after)
  {
    hide Idled, Handled, Seen, Justified;
    if c.p.Clean? {
      var t: Turn :| from <= t.clock && t.purge <= to && Idled(c, t, before, after);
      IdledIsWarranted(c, from, t, before, after);
    } else {
      var t: nat :| from <= t <= to && Handled(c, t, to, before, after);
      HandledIsWarranted(c, t, to, before, after);
      NothingYet(c, from, before);
      WarrantedSum(c, from, t, before, before, after);
    }
  }

  lemma NothingYet(c: Case, from: nat, log: seq<Effect>)
    ensures Warranted(c, from, log, log)
  {
  }

  /** How a pass ended. */
  datatype Ending =
    | Held(m: Meta)                // somebody has the flock
    | LeftAlone                    // a failed TryLock, or a lease that may be live
    | Reaped(c: Case, locked: nat, first: nat, clear: nat, tidied: seq<Effect>, prepared: seq<Effect>)

  predicate Expired(l: LeaseRead) {
    l.Read? && l.key != "" && !l.alive
  }

  predicate MayBeLive(l: LeaseRead) {
    l.Unreadable? || l.alive
  }

  /** A slot is left alone when its lock could not be tried; or the lease read
      under the flock may be live; or that one had expired and, read again, may
      be live or is gone, or would not go. */
  ghost predicate LeftWell(s: Slot, o: Options, from: nat, to: nat) {
    || (exists a: nat :: from <= a <= to && s.tryLock(a) == Failed)
    || (exists a: nat, l: nat :: from <= a <= l <= to && s.tryLock(a) == Got && MayBeLive(s.lease(l)))
    || (!o.dryRun && exists l: nat, k: nat :: from <= l <= k <= to && Expired(s.lease(l)) && (!Expired(s.lease(k)) || !s.dropsLease(k)))
  }

  /** A reaped slot: the flock, then the lease, then at most the expired lease
      and old run directories dropped, then what its state calls for. */
  ghost predicate ReapedWell(e: Ending, from: nat, to: nat, before: seq<Effect>, after: seq<Effect>)
    requires e.Reaped?
  {
    && from <= e.locked <= e.first <= e.clear <= to && e.c.s.tryLock(e.locked) == Got
    && LeaseDropped(e.c, e.first, e.clear, before, e.tidied)
    && RunsPruned(e.c, e.clear, to, e.tidied, e.prepared)
    && ReadIn(e.c, e.clear, to)
    && Dealt(e.c, e.clear, to, e.prepared, after)
  }

  /** An expired lease found under the flock is dropped, once read again. */
  ghost predicate LeaseDropped(c: Case, first: nat, clear: nat, before: seq<Effect>, after: seq<Effect>) {
    && !MayBeLive(c.s.lease(first))
    && if Expired(c.s.lease(first)) && !c.o.dryRun then
         Expired(c.s.lease(clear)) && c.s.dropsLease(clear) && after == before + [RemoveLease(clear)]
       else clear == first && after == before
  }

  ghost predicate RunRemoved(before: seq<Effect>, after: seq<Effect>, name: string) {
    exists i :: |before| <= i < |after| && after[i].RemoveRun? && after[i].name == name
  }

  /** Why a run directory stays. */
  ghost predicate RunStays(c: Case, r: Run, from: nat, to: nat) {
    || c.o.dryRun || !r.isDir
    || (exists a: nat :: from <= a <= to && !Aged(r, c.h(a).now, c.o.pruneAfter))
    || (r.pid.Some? && exists a: nat :: from <= a <= to && c.h(a).alive(r.pid.value))
  }

  /** Of the run directories listed once, those past their time that no process
      of their own keeps were removed, and nothing else was done. */
  ghost predicate RunsPruned(c: Case, from: nat, to: nat, before: seq<Effect>, after: seq<Effect>) {
    && OnlyRuns(c, from, before, after)
    && exists l: nat :: from <= l <= to && RunsDecided(c, l, from, to, before, after)
  }

  ghost predicate RunsDecided(c: Case, l: nat, from: nat, to: nat, before: seq<Effect>, after: seq<Effect>) {
    forall i :: 0 <= i < |c.s.runs(l)| ==>
      RunRemoved(before, after, c.s.runs(l)[i].name) || RunStays(c, c.s.runs(l)[i], from, to)
  }

  ghost predicate OnlyRuns(c: Case, from: nat, before: seq<Effect>, after: seq<Effect>) {
    && before <= after && (c.o.dryRun ==> after == before)
    && forall i :: |before| <= i < |after| ==> after[i].RemoveRun? && Justified(c, from, after[i])
  }

  /** pruneRunDirs. */
  method PruneRuns(h: Host, ghost c: Case, s: Slot, o: Options)
    requires c.h == h.history && c.s == s && c.o == o
    modifies h`t, h`effects
    ensures h.t >= old(h.t) && RunsPruned(c, old(h.t), h.t, old(h.effects), h.effects)
  {
    hide OnlyRuns, RunRemoved, RunStays, Justified;
    ghost var start, before := h.t, h.effects;
    h.Pass();
    ghost var listed := h.t;
    var runs := s.runs(h.t);
    NoRuns(c, start, before);
    for i := 0 to |runs|
      invariant h.t >= listed >= start && OnlyRuns(c, start, before, h.effects)
      invariant forall k :: 0 <= k < i ==> RunRemoved(before, h.effects, runs[k].name) || RunStays(c, runs[k], start, h.t)
    {
      ghost var t, log := h.t, h.effects;
      PruneRun(h, c, o, runs[i], listed, start, before);
      forall k | 0 <= k < i ensures RunRemoved(before, h.effects, runs[k].name) || RunStays(c, runs[k], start, h.t) {
        StillDecided(c, runs[k], start, t, h.t, before, log, h.effects);
      }
    }
    assert RunsDecided(c, listed, start, h.t, before, h.effects);
  }

  method PruneRun(h: Host, ghost c: Case, o: Options, r: Run, ghost listed: nat, ghost start: nat, ghost before: seq<Effect>)
    requires c.h == h.history && c.o == o && start <= listed <= h.t && r in c.s.runs(listed)
    requires OnlyRuns(c, start, before, h.effects)
    modifies h`t, h`effects
    ensures h.t >= old(h.t) && old(h.effects) <= h.effects && OnlyRuns(c, start, before, h.effects)
    ensures RunRemoved(before, h.effects, r.name) || RunStays(c, r, start, h.t)
  {
    if !r.isDir {
      return;
    }
    h.Pass();
    if r.modified.None? || h.history(h.t).now - r.modified.value < o.pruneAfter {
      assert !Aged(r, c.h(h.t).now, c.o.pruneAfter);
      return;
    }
    ghost var aged := h.t;
    assert Aged(r, c.h(aged).now, c.o.pruneAfter);
    if r.pid.Some? {
      h.Pass();
      if h.history(h.t).alive(r.pid.value) {
        return;
      }
    }
    if !o.dryRun {
      assert OldRun(c.h, c.o, r, listed, h.t);
      h.Do(RemoveRun(r.name, h.t));
      assert h.effects[|h.effects| - 1] == RemoveRun(r.name, h.t);
    }
  }

  lemma NoRuns(c: Case, from: nat, log: seq<Effect>)
    ensures OnlyRuns(c, from, log, log)
  {
  }

  lemma StillDecided(c: Case, r: Run, from: nat, t: nat, to: nat, before: seq<Effect>, log: seq<Effect>, after: seq<Effect>)
    requires log <= after && t <= to && (RunRemoved(before, log, r.name) || RunStays(c, r, from, t))
    ensures RunRemoved(before, after, r.name) || RunStays(c, r, from, to)
  {
    if RunRemoved(before, log, r.name) {
      var i :| |before| <= i < |log| && log[i].RemoveRun? && log[i].name == r.name;
      assert after[i] == log[i];
    }
  }

  /** reapSlot. */
  method ReapSlot(h: Host, s: Slot, snap: Option<nat>, o: Options) returns (ghost e: Ending)
    modifies h`t, h`effects
    ensures h.t >= old(h.t) && EndsWell(h.history, h.own, s, snap, o, e, old(h.t), h.t, old(h.effects), h.effects)
  {
    hide Dealt, ReadIn, HeldWell, RunsPruned;
    h.Pass();
    ghost var locked := h.t;
    match s.tryLock(h.t) {
      case Failed => return LeftAlone;
      case Busy =>
        ghost var t1 := h.t;
        ghost var m := ReapHeldSlot(h, s, o);
        HeldSince(h.history, s, m, o, old(h.t), t1, h.t, old(h.effects), h.effects);
        return Held(m);
      case Got =>
    }
    h.Pass();
    ghost var first := h.t;
    var lease := s.lease(h.t);
    if lease.Unreadable? || lease.alive {
      return LeftAlone;
    }
    if lease.key != "" && !o.dryRun {
      // CleanupExpiredLease reads it again, under the allocation lock
      h.Pass();
      var again := s.lease(h.t);
      if again.Unreadable? || again.key == "" || again.alive || !s.dropsLease(h.t) {
        return LeftAlone;
      }
      h.Do(RemoveLease(h.t));
    }
    ghost var clear, tidied := h.t, h.effects;
    ghost var any := Case(h.history, h.own, snap, s, o, s.meta(h.t), Clean);
    PruneRuns(h, any, s, o);
    ghost var prepared, t2 := h.effects, h.t;
    ghost var c := ReapFree(h, s, snap, o);
    e := Reaped(c, locked, first, clear, tidied, prepared);
    PrunedAlike(any, c, clear, t2, h.t, tidied, prepared);
    DealtSince(c, clear, t2, h.t, prepared, h.effects);
  }

  /** How the pass over one slot ends. */
  ghost predicate EndsWell(h: History, own: string, s: Slot, snap: Option<nat>, o: Options, e: Ending, from: nat, to: nat, before: seq<Effect>, after: seq<Effect>) {
    match e
    case Held(m) => HeldWell(h, s, m, o, from, to, before, after) && exists a: nat :: from <= a <= to && s.tryLock(a) == Busy
    case LeftAlone => after == before && LeftWell(s, o, from, to)
    case Reaped(c, _, _, _, _, _) =>
      && c.h == h && c.own == own && c.snap == snap && c.s == s && c.o == o
      && ReapedWell(e, from, to, before, after)
  }

  /** Which meta and verdict it is makes no difference to the run directories. */
  lemma PrunedAlike(a: Case, c: Case, from: nat, mid: nat, to: nat, before: seq<Effect>, after: seq<Effect>)
    requires RunsPruned(a, from, mid, before, after) && mid <= to && c == a.(m := c.m, p := c.p)
    ensures RunsPruned(c, from, to, before, after)
  {
    hide RunRemoved, OldRun;
    var l: nat :| from <= l <= mid && RunsDecided(a, l, from, mid, before, after);
    forall i | 0 <= i < |c.s.runs(l)| ensures RunRemoved(before, after, c.s.runs(l)[i].name) || RunStays(c, c.s.runs(l)[i], from, to) {
      assert RunRemoved(before, after, a.s.runs(l)[i].name) || RunStays(a, a.s.runs(l)[i], from, mid);
    }
    assert RunsDecided(c, l, from, to, before, after);
  }

  lemma DealtSince(c: Case, from: nat, mid: nat, to: nat, before: seq<Effect>, after: seq<Effect>)
    requires from <= mid <= to && Dealt(c, mid, to, before, after) && ReadIn(c, mid, to)
    ensures Dealt(c, from, to, before, after) && ReadIn(c, from, to)
  {
    hide Idled, Handled, Seen, Judge;
    var v :| Seen(c.h, v, mid, to) && c.p == Judge(c.m, v, NOBODY);
    SeenSooner(c.h, v, from, mid, to);
  }

  lemma HeldSince(h: History, s: Slot, m: Meta, o: Options, from: nat, mid: nat, to: nat, before: seq<Effect>, after: seq<Effect>)
    requires from <= mid <= to && HeldWell(h, s, m, o, mid, to, before, after)
    ensures HeldWell(h, s, m, o, from, to, before, after)
  {
    HolderSince(h, m, o, from, mid, before, after);
    if m.mode == "with" {
      var l: nat :| mid <= l <= to && AllAnswered(h, m, o, l, mid, to, before, after);
      AnsweredSince(h, m, o, l, from, mid, to, before, after);
    }
    hide HolderOnly, AllAnswered;
  }

  lemma AnsweredSince(h: History, m: Meta, o: Options, l: nat, from: nat, mid: nat, to: nat, before: seq<Effect>, after: seq<Effect>)
    requires from <= mid <= to && AllAnswered(h, m, o, l, mid, to, before, after)
    ensures AllAnswered(h, m, o, l, from, to, before, after)
  {
    if h(l).holders.Some? {
      forall i | 0 <= i < |h(l).holders.value|
        ensures Signalled(before, after, h(l).holders.value[i]) || NotStuck(h, m, o, from, to, h(l).holders.value[i])
      {
        var pid := h(l).holders.value[i];
        assert Signalled(before, after, pid) || NotStuck(h, m, o, mid, to, pid);
      }
    }
    hide Signalled;
  }

  lemma HolderSince(h: History, m: Meta, o: Options, from: nat, mid: nat, before: seq<Effect>, after: seq<Effect>)
    requires from <= mid && HolderOnly(h, m, o, mid, before, after)
    ensures HolderOnly(h, m, o, from, before, after)
  {
  }

  /** What a whole pass comes to.  Under --dry-run nothing is done at all;
      whatever is done to a device or the directory is done under the flock,
      after a lease read that found none live; every effect has its grounds;
      and without --disown-poisoned one pass never both kills or shuts down and
      deletes. */
  lemma ReapedIsWarranted(e: Ending, from: nat, to: nat, before: seq<Effect>, after: seq<Effect>)
    requires e.Reaped? && ReapedWell(e, from, to, before, after)
    ensures Warranted(e.c, e.clear, e.prepared, after) && before <= after && (e.c.o.dryRun ==> after == before)
    ensures Guarded(e.c.s, Some(e.locked), e.clear, before, after)
    ensures OneOrTheOther(e.c, before, after)
  {
    hide Dealt, ReadIn, Justified;
    DealtIsWarranted(e.c, e.clear, to, e.prepared, after);
    OnlyTidied(e, before);
    TouchedSince(e.c, e.clear, e.prepared, after);
    assert forall i :: 0 <= i < |e.prepared| ==> after[i] == e.prepared[i];
  }

  lemma TouchedSince(c: Case, from: nat, before: seq<Effect>, after: seq<Effect>)
    requires Warranted(c, from, before, after)
    ensures forall i :: |before| <= i < |after| && Touches(after[i]) ==> from <= after[i].at
  {
  }

  /** What comes before a slot is dealt with touches no device. */
  lemma OnlyTidied(e: Ending, before: seq<Effect>)
    requires e.Reaped? && LeaseDropped(e.c, e.first, e.clear, before, e.tidied)
    requires OnlyRuns(e.c, e.clear, e.tidied, e.prepared)
    ensures before <= e.prepared && (e.c.o.dryRun ==> e.prepared == before)
    ensures forall i :: |before| <= i < |e.prepared| ==> e.prepared[i].RemoveLease? || e.prepared[i].RemoveRun?
    ensures !MayBeLive(e.c.s.lease(e.clear))
  {
    hide Justified;
    assert forall i :: 0 <= i < |e.tidied| ==> e.prepared[i] == e.tidied[i];
  }

  // ---------------------------------------------------------------- all the slots

  /** One slot's share of a pass: its own device's name, its directory, its options. */
  datatype Job = Job(own: string, s: Slot, o: Options)

  /** What became of it. */
  datatype Done = Done(e: Ending, from: nat, to: nat, effects: seq<Effect>)

  ghost predicate JobDone(h: History, snap: Option<nat>, j: Job, d: Done) {
    EndsWell(h, j.own, j.s, snap, j.o, d.e, d.from, d.to, [], d.effects)
  }

  /** One after the other, none before the listing they all go by. */
  ghost predicate AllDone(h: History, snap: Option<nat>, start: nat, jobs: seq<Job>, done: seq<Done>, now: nat) {
    && |done| == |jobs|
    && (snap.Some? ==> start <= snap.value && h(snap.value).devices.Some?)
    && (forall i :: 0 <= i < |done| ==> JobDone(h, snap, jobs[i], done[i]))
    && (forall i :: 0 <= i < |done| ==> start <= done[i].from <= done[i].to <= now && (snap.Some? ==> snap.value <= done[i].from))
    && (forall i, j :: 0 <= i < j < |done| ==> done[i].to <= done[j].from)
  }

  /** The per-slot pass: one listing first, then every slot in turn on it. */
  method ReapAll(history: History, start: nat, jobs: seq<Job>) returns (ghost snap: Option<nat>, ghost done: seq<Done>, ghost now: nat)
    ensures AllDone(history, snap, start, jobs, done, now)
  {
    var h := new Host(history, "", start);
    var listing := SnapshotDevices(h);
    snap, done, now := listing, [], h.t;
    var t := h.t;
    hide JobDone;
    for i := 0 to |jobs|
      invariant t == now && AllDone(history, listing, start, jobs[..i], done, now)
      invariant listing.Some? ==> listing.value <= t
      invariant start <= t
    {
      var turn := new Host(history, jobs[i].own, t);
      ghost var e := ReapSlot(turn, jobs[i].s, listing, jobs[i].o);
      ghost var d := Done(e, t, turn.t, turn.effects);
      IsDone(history, listing, jobs[i], d);
      assert jobs[..i + 1] == jobs[..i] + [jobs[i]];
      OneMoreDone(history, listing, start, jobs[..i], done, now, jobs[i], d);
      done, t, now := done + [d], turn.t, turn.t;
    }
    assert jobs[..|jobs|] == jobs;
  }

  lemma IsDone(h: History, snap: Option<nat>, j: Job, d: Done)
    requires EndsWell(h, j.own, j.s, snap, j.o, d.e, d.from, d.to, [], d.effects)
    ensures JobDone(h, snap, j, d)
  {
  }

  lemma OneMoreDone(h: History, snap: Option<nat>, start: nat, jobs: seq<Job>, done: seq<Done>, now: nat, j: Job, d: Done)
    requires AllDone(h, snap, start, jobs, done, now) && JobDone(h, snap, j, d) && start <= now <= d.from <= d.to
    requires snap.Some? ==> snap.value <= now
    ensures AllDone(h, snap, start, jobs + [j], done + [d], d.to)
  {
    hide JobDone;
    var more, list := done + [d], jobs + [j];
    forall i | 0 <= i < |more| ensures JobDone(h, snap, list[i], more[i]) {
      if i < |done| { assert more[i] == done[i] && list[i] == jobs[i]; }
    }
  }

  predicate OnDevice(e: Effect, udid: string) {
    (e.ShutDown? || e.Scrub? || e.Delete?) && e.udid == udid
  }

  /** In a pass on one listing, no device is touched for two idle slots. */
  lemma SlotsKeepApart(h: History, snap: Option<nat>, start: nat, jobs: seq<Job>, done: seq<Done>, now: nat, i: nat, j: nat, k: nat, l: nat, udid: string)
    requires AllDone(h, snap, start, jobs, done, now) && snap.Some? && i < j < |done| && jobs[i].own != jobs[j].own
    requires done[i].e.Reaped? && done[i].e.c.p.Clean? && k < |done[i].effects| && OnDevice(done[i].effects[k], udid)
    requires done[j].e.Reaped? && done[j].e.c.p.Clean? && l < |done[j].effects|
    ensures !OnDevice(done[j].effects[l], udid)
  {
    hide ReapedWell, Found;
    assert JobDone(h, snap, jobs[i], done[i]) && JobDone(h, snap, jobs[j], done[j]);
    TouchedWasFound(done[i], k, udid);
    if OnDevice(done[j].effects[l], udid) {
      TouchedWasFound(done[j], l, udid);
      var c1, c2, a1, a2 := done[i].e.c, done[j].e.c, done[i].effects[k].at, done[j].effects[l].at;
      var b1: bool :| Found(c1, done[i].e.clear, udid, a1, b1);
      var b2: bool :| Found(c2, done[j].e.clear, udid, a2, b2);
      DifferentDevices(c1, c2, udid, udid, done[i].e.clear, done[j].e.clear, a1, a2, b1, b2);
    }
  }

  lemma TouchedWasFound(d: Done, k: nat, udid: string)
    requires d.e.Reaped? && d.e.c.p.Clean? && k < |d.effects| && OnDevice(d.effects[k], udid)
    requires ReapedWell(d.e, d.from, d.to, [], d.effects)
    ensures exists b: bool :: Found(d.e.c, d.e.clear, udid, d.effects[k].at, b)
  {
    hide Dealt, ReadIn, Found;
    ReapedIsWarranted(d.e, d.from, d.to, [], d.effects);
    assert forall i :: 0 <= i < |d.e.prepared| ==> d.effects[i] == d.e.prepared[i];
    assert |d.e.prepared| <= k && Justified(d.e.c, d.e.clear, d.effects[k]);
  }
}
