/** reap's --max pass: bringing an oversized group back down to `max` slots by
    deleting the coldest free ones, simulator and directory both. */
module CapEviction {
  import opened Wrappers
  import opened Sorting
  import Names

  const GRACE: nat := 1800  // seconds

  datatype Device = Device(udid: string, name: string, off: bool)

  /** lease.json: unreadable, or live until `expires` (0 for no lease). */
  datatype Lease = Unreadable | Until(expires: nat)

  /** A slot directory.  held: somebody else has its flock; an unset last use is 0. */
  datatype Slot = Slot(held: bool, lease: Lease, poisoned: bool, udid: string, lastUsed: nat, lockFile: bool, mtime: Option<nat>)

  /** Locking creates a missing lock file, which resets the directory's age. */
  function Touched(s: Slot, now: nat): Slot {
    if s.lockFile then s else s.(lockFile := true, mtime := Some(now))
  }

  predicate Alike(a: Slot, b: Slot) {
    a == b.(lockFile := a.lockFile, mtime := a.mtime)
  }

  ghost predicate SameBut(a: map<nat, Slot>, b: map<nat, Slot>, n: nat) {
    a.Keys == b.Keys && forall m :: m in a && m != n ==> a[m] == b[m]
  }

  ghost predicate AllAlike(a: map<nat, Slot>, b: map<nat, Slot>) {
    a.Keys == b.Keys && forall n :: n in a ==> Alike(a[n], b[n])
  }

  /** What classifying a slot found. */
  datatype Candidate = Candidate(n: nat, udid: string, lastUsed: nat, mtime: Option<nat>, device: Option<Device>, blocked: bool)

  datatype Effect = ShutDown(n: nat, d: Device, ok: bool) | Deleted(n: nat, d: Device, ok: bool) | Removed(n: nat)

  function Named(ds: seq<Device>, name: string): seq<Device> {
    Filter(ds, (d: Device) => d.name == name)
  }

  function ByUdid(ds: seq<Device>, udid: string): Option<Device> {
    if ds == [] then None else if ds[0].udid == udid then Some(ds[0]) else ByUdid(ds[1..], udid)
  }

  /** The idle clock: the last use, or the directory's own age. */
  function Since(s: Slot, mtime: Option<nat>): Option<nat> {
    if s.lastUsed != 0 then Some(s.lastUsed) else mtime
  }

  /** The device to delete with the slot, or why it must not be touched. */
  function TheDevice(udid: string, ds: seq<Device>, own: string): Option<Option<Device>> {
    if udid == "" then
      var ms := Named(ds, own);
      if |ms| == 0 then Some(None) else if |ms| == 1 then Some(Some(ms[0])) else None
    else
      match ByUdid(ds, udid)
      case None => Some(None)
      case Some(d) => if d.name == own then Some(Some(d)) else None
  }

  /** Free, idle past the grace, and its device is nobody else's. */
  predicate Evictable(s: Slot, mtime: Option<nat>, ds: seq<Device>, own: string, now: nat) {
    && s.lease.Until? && now >= s.lease.expires
    && !s.poisoned
    && Since(s, mtime).Some? && now >= Since(s, mtime).value + GRACE
    && TheDevice(s.udid, ds, own).Some?
  }

  /** The group and the device set.  While `quiet`, nothing but this pass
      changes them and no query or simctl call fails; otherwise anything may
      happen between two steps.  The clock runs either way. */
  class Group {
    const tag: string
    const group: string
    const quiet: bool
    var slots: map<nat, Slot>
    var devices: seq<Device>
    var now: nat
    ghost var effects: seq<Effect>
    ghost var mine: Option<nat>  // the slot whose flock this pass holds

    constructor (tag: string, group: string, quiet: bool, slots: map<nat, Slot>, devices: seq<Device>, now: nat)
      ensures this.slots == slots && this.devices == devices && this.now == now && this.quiet == quiet && effects == [] && mine == None
    {
      this.tag, this.group, this.quiet := tag, group, quiet;
      this.slots, this.devices, this.now, effects, mine := slots, devices, now, [], None;
    }

    function Own(n: nat): string {
      Names.DeviceNameForGroup(tag, group, n)
    }

    /** Time passes, and peers act. */
    method Meanwhile()
      modifies `slots, `devices, `now
      ensures now >= old(now)
      ensures quiet ==> slots == old(slots) && devices == old(devices)
    {
      var d: nat := *;
      if d > 0 { now := now + d; }
      if !quiet {
        slots := *;
        devices := *;
      }
    }

    /** simctl list. */
    method ListDevices() returns (ds: Option<seq<Device>>)
      ensures ds.Some? ==> ds.value == devices
      ensures quiet ==> ds.Some?
    {
      var ok := Succeeds();
      ds := if ok then Some(devices) else None;
    }

    /** ListSlotNumbersChecked, counted. */
    method Count() returns (count: Option<nat>)
      ensures count.Some? ==> count.value == |slots|
      ensures quiet ==> count.Some?
    {
      var ok := Succeeds();
      count := if ok then Some(|slots|) else None;
    }

    method Succeeds() returns (ok: bool)
      ensures quiet ==> ok
    {
      ok := *;
      ok := ok || quiet;
    }

    /** pool.TryLock (or LockExistingSlot): held, gone, or ours. */
    method Lock(n: nat) returns (got: bool)
      modifies `slots, `devices, `now, `mine
      requires mine == None
      ensures now >= old(now) && (quiet ==> AllAlike(slots, old(slots)) && devices == old(devices))
      ensures mine == if got then Some(n) else None
      ensures quiet ==> (got <==> n in old(slots) && !old(slots)[n].held)
      ensures quiet ==> SameBut(slots, old(slots), n)
      ensures quiet && n in slots ==>
                slots[n] == old(slots)[n] || (!old(slots)[n].lockFile && slots[n] == old(slots)[n].(lockFile := true, mtime := Some(now)))
    {
      Meanwhile();
      var ok := Succeeds();
      got := ok && n in slots && !slots[n].held;
      if ok && n in slots {
        slots := slots[n := Touched(slots[n], now)];
      }
      mine := if got then Some(n) else None;
    }

    method Unlock()
      modifies `mine
      ensures mine == None
    {
      mine := None;
    }

    /** classifyCapSlot, under the slot's flock; the world may change between
        any two of its reads. */
    method Classify(n: nat, mtime: Option<nat>) returns (c: Candidate)
      requires mine == Some(n) && (quiet ==> n in slots)
      modifies `slots, `devices, `now
      ensures now >= old(now) && (quiet ==> slots == old(slots) && devices == old(devices))
      ensures c.n == n && c.mtime == mtime
      ensures !c.blocked && c.device.Some? ==> c.device.value.name == Own(n) && c.device.value.udid == c.udid
      ensures quiet && !c.blocked ==> Evictable(slots[n], mtime, devices, Own(n), now) && c.lastUsed == slots[n].lastUsed
      ensures quiet && !c.blocked ==> TheDevice(slots[n].udid, devices, Own(n)) == Some(c.device)
      ensures quiet && c.blocked ==> !Evictable(slots[n], mtime, devices, Own(n), old(now))
    {
      c := Candidate(n, "", 0, mtime, None, true);
      Meanwhile();
      if n !in slots || slots[n].lease.Unreadable? || now < slots[n].lease.expires {
        return;
      }
      Meanwhile();
      if n !in slots {
        return;
      }
      var s := slots[n];
      if s.poisoned {
        return;
      }
      var since := if s.lastUsed != 0 then Some(s.lastUsed) else mtime;
      if since.None? || now < since.value + GRACE {
        return;
      }
      c := c.(udid := s.udid, lastUsed := s.lastUsed);
      Meanwhile();
      var listed := ListDevices();
      if listed.None? {
        return;
      }
      if s.udid == "" {
        var ms := Named(listed.value, Own(n));
        if |ms| == 0 {
          return c.(blocked := false);
        }
        if |ms| > 1 {
          return;
        }
        FilterAll(devices, (d: Device) => d.name == Own(n), ms[0]);
        return c.(udid := ms[0].udid, device := Some(ms[0]), blocked := false);
      }
      var found := ByUdid(listed.value, s.udid);
      if found.None? {
        return c.(blocked := false);
      }
      if found.value.name != Own(n) {
        return;
      }
      ByUdidHas(devices, s.udid);
      return c.(device := found, blocked := false);
    }

    /** An eviction's effects name only the slot whose flock is held, and only
        a device that carries that slot's own name. */
    ghost predicate Safe(e: Effect)
      reads this`mine
    {
      && mine == Some(e.n)
      && (!e.Removed? ==> e.d.name == Own(e.n))
    }

    method Delete(n: nat, d: Device) returns (ok: bool)
      requires Safe(Deleted(n, d, true))
      modifies `devices, `effects
      ensures effects == old(effects) + [Deleted(n, d, ok)]
      ensures devices == if ok then Without(old(devices), d.udid) else old(devices)
      ensures quiet ==> ok
    {
      ok := Succeeds();
      effects := effects + [Deleted(n, d, ok)];
      if ok { devices := Without(devices, d.udid); }
    }

    method Shutdown(n: nat, d: Device) returns (ok: bool)
      requires Safe(ShutDown(n, d, true))
      modifies `effects
      ensures effects == old(effects) + [ShutDown(n, d, ok)] && (quiet ==> ok)
    {
      ok := Succeeds();
      effects := effects + [ShutDown(n, d, ok)];
    }

    /** RemoveSlotDirAbove: counting and removing are one step. */
    method RemoveAbove(n: nat, max: nat)
      requires Safe(Removed(n))
      modifies `slots, `effects
      ensures if |old(slots)| > max then slots == old(slots) - {n} && effects == old(effects) + [Removed(n)]
              else slots == old(slots) && effects == old(effects)
    {
      if |slots| > max {
        slots := slots - {n};
        effects := effects + [Removed(n)];
      }
    }

    /** One eviction: locked again, classified again, then acted on. */
    method Evict(c: Candidate, max: nat, dryRun: bool)
      requires mine == None
      modifies this
      ensures mine == None && now >= old(now)
      ensures Acts(old(effects), effects, c.n, Own(c.n)) && (dryRun ==> effects == old(effects))
      ensures effects == old(effects) || exists device :: Stepped(old(effects), effects, c.n, device)
      ensures quiet ==> Lost(old(devices), devices, effects)
      ensures quiet && dryRun ==> AllAlike(slots, old(slots)) && devices == old(devices)
      ensures quiet && !dryRun && Ready(old(slots), c, old(devices), Own(c.n), old(now)) && |old(slots)| > max ==>
                AllAlike(slots, old(slots) - {c.n}) && OneLess(old(devices), devices)
                && TheDevice(old(slots)[c.n].udid, devices, Own(c.n)) == Some(None)
    {
      NothingLost(devices, effects);
      NothingDone(effects, c.n, Own(c.n));
      ghost var was, t := slots, now;
      hide Evictable, TheDevice, Lost, Acts, OneLess, Stepped;
      var got := Lock(c.n);
      if !got {
        return;
      }
      if quiet && Ready(was, c, devices, Own(c.n), t) {
        EvictableStays(was[c.n], slots[c.n], c.mtime, devices, Own(c.n), t, now);
      }
      var re := Classify(c.n, c.mtime);
      if re.blocked || dryRun {
        Unlock();
        return;
      }
      ghost var udid, found := if quiet then slots[c.n].udid else "", devices;
      Act(re, max);
      if quiet { NoneLeft(udid, found, Own(c.n), re.device); }
      Unlock();
    }

    /** The simulator, then the directory; a failed step stops there. */
    method Act(re: Candidate, max: nat)
      requires mine == Some(re.n) && !re.blocked
      requires re.device.Some? ==> re.device.value.name == Own(re.n) && re.device.value.udid == re.udid
      modifies `slots, `devices, `now, `effects
      ensures now >= old(now) && Acts(old(effects), effects, re.n, Own(re.n)) && Stepped(old(effects), effects, re.n, re.device)
      ensures quiet ==> Lost(old(devices), devices, effects) && OneLess(old(devices), devices)
      ensures quiet ==> devices == Rid(old(devices), re.device)
      ensures quiet && |old(slots)| > max ==> slots == old(slots) - {re.n}
    {
      NothingDone(effects, re.n, Own(re.n));
      ghost var was, before := devices, effects;
      NothingLost(was, before);
      hide Lost, Acts, OneLess, Stepped, Deletion;
      ghost var head: seq<Effect> := [];
      if re.device.Some? {
        var gone;
        gone, head := DeleteDevice(re.n, re.device.value);
        SteppedSoFar(before, head, re.n, re.device, gone);
        if !gone {
          return;
        }
      }
      assert before + head == effects;
      if re.device.None? { SteppedSoFar(before, head, re.n, re.device, true); }
      Meanwhile();
      OneDone(before, effects, re.n, Own(re.n), Removed(re.n));
      if quiet { LostMore(was, devices, effects, Removed(re.n)); }
      RemoveAbove(re.n, max);
    }

    method DeleteDevice(n: nat, d: Device) returns (gone: bool, ghost more: seq<Effect>)
      requires mine == Some(n) && d.name == Own(n)
      modifies `slots, `devices, `now, `effects
      ensures now >= old(now) && Acts(old(effects), effects, n, Own(n))
      ensures quiet ==> gone && slots == old(slots) && Lost(old(devices), devices, effects) && OneLess(old(devices), devices)
      ensures quiet ==> devices == Without(old(devices), d.udid)
      ensures effects == old(effects) + more && Deletion(more, n, d, gone)
    {
      NothingDone(effects, n, Own(n));
      ghost var before := effects;
      hide Lost, Acts, OneLess;
      Meanwhile();
      more := [];
      if !d.off {
        OneDone(before, effects, n, Own(n), ShutDown(n, d, true));
        OneDone(before, effects, n, Own(n), ShutDown(n, d, false));
        var down := Shutdown(n, d);
        more := [ShutDown(n, d, down)];
        if !down {
          return false, more;
        }
        Meanwhile();
      }
      OneDone(before, effects, n, Own(n), Deleted(n, d, true));
      OneDone(before, effects, n, Own(n), Deleted(n, d, false));
      LostOne(devices, effects, n, d);
      assert effects == before + more;
      gone := Delete(n, d);
      more := more + [Deleted(n, d, gone)];
    }

    /** ListSlotNumbers: ascending; a failed listing reads as no slots. */
    method Numbers() returns (nums: seq<nat>, ghost ok: bool)
      ensures quiet ==> ok
      ensures if ok then Ascending(nums) && forall n :: n in nums <==> n in slots else nums == []
    {
      nums := [];
      var left := slots.Keys;
      while left != {}
        invariant Distinct(nums) && forall n :: n in slots <==> n in nums || n in left
        invariant forall n :: n in nums ==> n !in left
        decreases |left|
      {
        var n :| n in left;
        left := left - {n};
        nums := nums + [n];
      }
      SortNats(nums);
      nums := Sort(nums, NatLe);
      var listed := Succeeds();
      ok := listed;
      if !listed { nums := []; }
    }

    method ClassifyAll(nums: seq<nat>) returns (blocked: seq<Candidate>, free: seq<Candidate>)
      requires mine == None && (quiet ==> Distinct(nums) && forall n :: n in nums ==> n in slots)
      modifies `slots, `devices, `now, `mine
      ensures mine == None && now >= old(now)
      ensures quiet ==> AllAlike(slots, old(slots)) && devices == old(devices)
      ensures quiet ==> Split(View(tag, group, old(slots), old(devices)), old(now), now, nums, blocked, free)
    {
      blocked, free := [], [];
      ghost var v, start := View(tag, group, slots, devices), now;
      SplitNone(v, start, nums);
      hide Split, Judged;
      for i := 0 to |nums|
        invariant mine == None && now >= start
        invariant quiet ==> AllAlike(slots, v.slots) && devices == v.devices && Split(v, start, now, nums[..i], blocked, free)
        invariant quiet ==> forall k :: i <= k < |nums| ==> slots[nums[k]] == v.slots[nums[k]]
      {
        ghost var here, t := View(tag, group, slots, devices), now;
        var c := ClassifyOne(nums[i]);
        if quiet {
          JudgedSame(v, here, t, now, c);
          SplitMore(v, start, t, now, nums, i, blocked, free, c);
        }
        if c.blocked { blocked := blocked + [c]; } else { free := free + [c]; }
      }
      assert nums[..|nums|] == nums;
    }

    /** One slot of the classification pass: its age is read before its flock
        is taken, and the flock is let go of again. */
    method ClassifyOne(n: nat) returns (c: Candidate)
      requires mine == None && (quiet ==> n in slots)
      modifies `slots, `devices, `now, `mine
      ensures mine == None && now >= old(now) && c.n == n
      ensures quiet ==> AllAlike(slots, old(slots)) && devices == old(devices)
      ensures quiet ==> SameBut(slots, old(slots), n) && Judged(View(tag, group, old(slots), old(devices)), old(now), now, c)
    {
      hide Evictable, TheDevice;
      Meanwhile();
      var mtime := if n in slots then slots[n].mtime else None;
      ghost var was := slots;
      var got := Lock(n);
      if !got {
        return Candidate(n, "", 0, mtime, None, true);
      }
      ghost var t := now;
      if quiet && was[n].mtime == mtime && Evictable(was[n], mtime, devices, Own(n), old(now)) {
        EvictableStays(was[n], slots[n], mtime, devices, Own(n), old(now), t);
      }
      c := Classify(n, mtime);
      Unlock();
      if quiet && !c.blocked {
        EvictableStays(slots[n], was[n], mtime, devices, Own(n), now, now);
      }
    }

    /** The eviction loop: the free slots past the first `keep`, in order,
        while the group is still above max. */
    method EvictAll(free: seq<Candidate>, keep: nat, max: nat, dryRun: bool, ghost v: View)
      requires mine == None && keep <= |free| && v.tag == tag && v.group == group
      requires quiet ==> AllAlike(slots, v.slots) && AllIdle(v, devices, free, now) && Apart(free)
      requires quiet ==> |slots| >= max + (|free| - keep)
      modifies this
      ensures mine == None && now >= old(now) && OwnOnly(tag, group, Ns(free[keep..]), old(effects), effects)
      ensures dryRun ==> effects == old(effects)
      ensures quiet ==> AllAlike(slots, v.slots - Gone(free, keep, |free|, dryRun)) && (dryRun ==> devices == old(devices))
      ensures quiet ==> NoDevices(v, devices, Gone(free, keep, |free|, dryRun))
      ensures quiet ==> Lost(old(devices), devices, effects)
    {
      hide *;
      ghost var start := Snap(slots, devices, effects, now);
      TurnStart(keep, free, max, dryRun, v);
      for i := keep to |free|
        invariant mine == None && Turn(i, keep, free, max, dryRun, v, start)
      {
        var stop := EvictTurn(i, keep, free, max, dryRun, v, start);
        if stop {
          return;
        }
      }
      TurnEnd(keep, free, max, dryRun, v, start);
    }

    lemma TurnStart(keep: nat, free: seq<Candidate>, max: nat, dryRun: bool, v: View)
      requires keep <= |free|
      requires quiet ==> AllAlike(slots, v.slots) && AllIdle(v, devices, free, now) && |slots| >= max + (|free| - keep)
      ensures Turn(keep, keep, free, max, dryRun, v, Snap(slots, devices, effects, now))
    {
      NothingLost(devices, effects);
      OwnNone(tag, group, Ns(free[keep..]), effects);
      MidStart(v, slots, devices, free, keep, now, max, dryRun);
    }

    lemma TurnEnd(keep: nat, free: seq<Candidate>, max: nat, dryRun: bool, v: View, start: Snap)
      requires keep <= |free| && Turn(|free|, keep, free, max, dryRun, v, start)
      ensures now >= start.now && OwnOnly(tag, group, Ns(free[keep..]), start.effects, effects) && (dryRun ==> effects == start.effects)
      ensures quiet ==> AllAlike(slots, v.slots - Gone(free, keep, |free|, dryRun)) && Lost(start.devices, devices, effects)
      ensures quiet ==> NoDevices(v, devices, Gone(free, keep, |free|, dryRun))
      ensures quiet && dryRun ==> devices == start.devices
    {
      if quiet { MidEnd(v, slots, devices, free, keep, now, max, dryRun); }
    }

    /** Where the loop is at turn i. */
    ghost predicate Turn(i: nat, keep: nat, free: seq<Candidate>, max: nat, dryRun: bool, v: View, start: Snap)
      reads this
      requires keep <= i <= |free|
    {
      && now >= start.now
      && OwnOnly(tag, group, Ns(free[keep..]), start.effects, effects) && (dryRun ==> effects == start.effects)
      && (quiet ==> Lost(start.devices, devices, effects) && (dryRun ==> devices == start.devices))
      && (quiet ==> Mid(v, slots, devices, free, i, now, Gone(free, keep, i, dryRun), max))
    }

    method EvictTurn(i: nat, keep: nat, free: seq<Candidate>, max: nat, dryRun: bool, ghost v: View, ghost start: Snap) returns (stop: bool)
      requires mine == None && keep <= i < |free| && v.tag == tag && v.group == group && (quiet ==> Apart(free))
      requires Turn(i, keep, free, max, dryRun, v, start)
      modifies this
      ensures mine == None && (!stop ==> Turn(i + 1, keep, free, max, dryRun, v, start))
      ensures stop ==> !quiet && now >= start.now && OwnOnly(tag, group, Ns(free[keep..]), start.effects, effects) && (dryRun ==> effects == start.effects)
    {
      ghost var devices0, effects0, n := devices, effects, free[i].n;
      if quiet { NotGone(free, keep, i, dryRun); }
      ghost var count;
      stop, count := EvictNext(free, i, max, dryRun, v, Gone(free, keep, i, dryRun));
      if !stop {
        InRest(free, keep, i);
        OwnMore(tag, group, Ns(free[keep..]), start.effects, effects0, effects, n);
        if quiet { LostSum(start.devices, devices0, devices, effects0, effects, n, Own(n)); }
        NsNext(free, keep, i, dryRun);
      }
      hide OwnOnly, Lost, Mid, Gone, Acts, Apart, Names.DeviceNameForGroup;
    }

    /** One turn of the loop: counted again first, and stopped if the count
        fails or the group is back within its cap. */
    method EvictNext(free: seq<Candidate>, i: nat, max: nat, dryRun: bool, ghost v: View, ghost gone: set<nat>) returns (stop: bool, ghost count: Option<nat>)
      requires mine == None && i < |free| && v.tag == tag && v.group == group
      requires quiet ==> Mid(v, slots, devices, free, i, now, gone, max) && free[i].n !in gone
      modifies this
      ensures mine == None && now >= old(now) && (stop <==> count.None? || count.value <= max)
      ensures if stop then effects == old(effects) else Acts(old(effects), effects, free[i].n, Own(free[i].n)) && (dryRun ==> effects == old(effects))
      ensures quiet ==> !stop && Lost(old(devices), devices, effects) && (dryRun ==> devices == old(devices))
      ensures quiet ==> Mid(v, slots, devices, free, i + 1, now, if dryRun then gone else gone + {free[i].n}, max)
    {
      ghost var t := now;
      Meanwhile();
      var live := Count();
      if quiet { MidAbove(v, slots, devices, free, i, t, gone, max); }
      if live.None? || live.value <= max {
        return true, live;
      }
      ghost var slots0, devices0 := slots, devices;
      if quiet { ReadyNow(v, slots, devices, free, gone, i, t, now, max); }
      hide Lost, AllAlike, AllIdle, Acts, OneLess, Mid, Ready, TheDevice;
      Evict(free[i], max, dryRun);
      if quiet {
        if dryRun { NoneLess(devices); }
        MidNext(v, slots0, slots, devices0, devices, free, i, t, now, gone, max, dryRun);
      }
      return false, live;
    }

    /** The whole pass.  On a quiet group above max it leaves the blocked slots
        and the `max` minus blocked most recently used free ones, and nothing
        else: max(max, blocked) slots in all. */
    method EnforceSlotCap(max: nat, dryRun: bool) returns (ghost blocked: seq<Candidate>, ghost free: seq<Candidate>)
      requires mine == None
      modifies this
      ensures mine == None && OwnOnly(tag, group, Ns(free[Keep(|blocked|, |free|, max)..]), old(effects), effects)
      ensures dryRun ==> effects == old(effects)
      ensures quiet ==> Lost(old(devices), devices, effects) && (dryRun ==> devices == old(devices))
      ensures quiet && |old(slots)| <= max ==> AllAlike(slots, old(slots))
      ensures quiet && |old(slots)| > max ==>
                CapEnforced(View(tag, group, old(slots), old(devices)), old(now), now, slots, devices, blocked, free, max, dryRun)
      // said of the slots themselves
      ensures quiet && |old(slots)| > max && !dryRun ==>
                ColdestGone(View(tag, group, old(slots), old(devices)), old(now), now, slots, max)
    {
      hide *;
      ghost var v, start, gone := View(tag, group, slots, devices), now, devices;
      Untouched(max);
      var nums, listed := Numbers();
      if quiet {
        Ascends(nums);
        CountNumbers(nums, slots);
      }
      if |nums| <= max {
        return [], [];
      }
      var bs, fs := ClassifyAll(nums);
      ghost var t, unranked := now, fs;
      fs := Sort(fs, Recent);
      blocked, free := bs, fs;
      if quiet { RankAll(v, start, t, slots, nums, bs, unranked, max); }
      var keep := if max > |bs| then max - |bs| else 0;
      if |fs| <= keep {
        if quiet {
          AllKept(v, start, t, slots, devices, bs, fs, max, dryRun);
          if !dryRun { CapMeans(v, start, t, slots, devices, bs, fs, max); }
        }
        return;
      }
      KeepIs(|bs|, |fs|, max, keep);
      EvictAll(fs, keep, max, dryRun, v);
      if quiet {
        Enforced(v, start, t, now, slots, devices, bs, fs, max, dryRun);
        if !dryRun { CapMeans(v, start, now, slots, devices, bs, fs, max); }
      }
    }

    lemma Untouched(max: nat)
      ensures (forall who :: OwnOnly(tag, group, who, effects, effects)) && Lost(devices, devices, effects) && AllAlike(slots, slots)
    {
    }
  }

  /** Most recently used first. */
  const Recent: (Candidate, Candidate) -> bool := (a: Candidate, b: Candidate) => a.lastUsed >= b.lastUsed

  function Keep(blocked: nat, free: nat, max: nat): (k: nat)
    ensures k <= free
  {
    if blocked >= max then 0 else if max - blocked <= free then max - blocked else free
  }

  /** The classification, ranked. */
  ghost predicate Ranked(v: View, start: nat, t: nat, blocked: seq<Candidate>, free: seq<Candidate>) {
    && v.slots.Keys == Ns(blocked) + Ns(free) && Ns(blocked) !! Ns(free) && |Ns(blocked)| == |blocked| && |Ns(free)| == |free|
    && AllJudged(v, start, t, blocked, true) && AllJudged(v, start, t, free, false) && Sorted(free, Recent)
  }

  /** What an oversized quiet group ends in: exactly the coldest free slots gone. */
  ghost predicate CapEnforced(v: View, start: nat, end: nat, slots: map<nat, Slot>, ds: seq<Device>, blocked: seq<Candidate>, free: seq<Candidate>, max: nat, dryRun: bool) {
    var keep := Keep(|blocked|, |free|, max);
    && Ranked(v, start, end, blocked, free)
    && (if dryRun then AllAlike(slots, v.slots)
        else AllAlike(slots, v.slots - Ns(free[keep..])) && NoDevices(v, ds, Ns(free[keep..]))
             && |slots| == if |blocked| >= max then |blocked| else max)
  }

  /** In nobody's hands, no live or unreadable lease, not poisoned, half an hour
      without use (or, never used, that old), and nobody else's device. */
  ghost predicate Spare(v: View, n: nat, now: nat) {
    && n in v.slots
    && var s, own := v.slots[n], Names.DeviceNameForGroup(v.tag, v.group, n);
       && !s.held && s.lease.Until? && s.lease.expires <= now && !s.poisoned
       && (if s.lastUsed != 0 then now - s.lastUsed >= 1800 else s.mtime.Some? && now - s.mtime.value >= 1800)
       && if s.udid == "" then forall i, j :: 0 <= i < j < |v.devices| && v.devices[i].name == own ==> v.devices[j].name != own
          else forall i :: 0 <= i < |v.devices| && FirstWith(v.devices, s.udid, i) ==> v.devices[i].name == own
  }

  /** The device a lookup of udid finds. */
  ghost predicate FirstWith(ds: seq<Device>, udid: string, i: nat)
    requires i < |ds|
  {
    ds[i].udid == udid && forall j :: 0 <= j < i ==> ds[j].udid != udid
  }

  /** What is gone was spare, and used no later than any spare slot that is
      left; what is left over max was not spare when the pass began. */
  ghost predicate ColdestGone(v: View, start: nat, end: nat, slots: map<nat, Slot>, max: nat) {
    && slots.Keys <= v.slots.Keys
    && (forall n :: n in v.slots && n !in slots ==> Spare(v, n, end))
    && (forall n, m :: n in v.slots && n !in slots && m in slots && Spare(v, m, start) ==> v.slots[n].lastUsed <= v.slots[m].lastUsed)
    && |slots| >= max
    && (|slots| > max ==> forall m :: m in slots ==> !Spare(v, m, start))
  }

  lemma SpareIsIdle(v: View, n: nat, now: nat)
    ensures Spare(v, n, now) <==> v.Idle(n, now)
  {
    if n in v.slots {
      var s, own := v.slots[n], Names.DeviceNameForGroup(v.tag, v.group, n);
      hide Names.DeviceNameForGroup;
      if s.udid == "" { NamedOnce(v.devices, own); } else { FirstByUdid(v.devices, s.udid, own); }
    }
  }

  lemma {:induction false} NamedOnce(ds: seq<Device>, own: string)
    ensures |Named(ds, own)| <= 1 <==> forall i, j :: 0 <= i < j < |ds| && ds[i].name == own ==> ds[j].name != own
    ensures |Named(ds, own)| == 0 <==> forall i :: 0 <= i < |ds| ==> ds[i].name != own
  {
    if ds != [] {
      NamedOnce(ds[1..], own);
      assert forall i :: 1 <= i < |ds| ==> ds[i] == ds[1..][i - 1];
      assert forall i :: 0 <= i < |ds| - 1 ==> ds[1..][i] == ds[i + 1];
    }
  }

  lemma {:induction false} FirstByUdid(ds: seq<Device>, udid: string, own: string)
    ensures (ByUdid(ds, udid).None? || ByUdid(ds, udid).value.name == own) <==>
            forall i :: 0 <= i < |ds| && FirstWith(ds, udid, i) ==> ds[i].name == own
  {
    if i: nat :| i < |ds| && FirstWith(ds, udid, i) {
      FindsFirst(ds, udid, i);
      assert forall k: nat :: k < |ds| && FirstWith(ds, udid, k) ==> k == i;
    } else {
      FindsNone(ds, udid);
    }
  }

  lemma {:induction false} FindsFirst(ds: seq<Device>, udid: string, i: nat)
    requires i < |ds| && FirstWith(ds, udid, i)
    ensures ByUdid(ds, udid) == Some(ds[i])
  {
    if i > 0 {
      assert ds[1..][i - 1] == ds[i];
      assert forall j :: 0 <= j < i - 1 ==> ds[1..][j] == ds[j + 1];
      FindsFirst(ds[1..], udid, i - 1);
    }
  }

  lemma {:induction false} FindsNone(ds: seq<Device>, udid: string)
    requires forall i: nat :: i < |ds| ==> !FirstWith(ds, udid, i)
    ensures ByUdid(ds, udid).None?
  {
    if ds != [] {
      assert !FirstWith(ds, udid, 0);
      forall i: nat | i < |ds| - 1 ensures !FirstWith(ds[1..], udid, i) {
        assert !FirstWith(ds, udid, i + 1) && ds[1..][i] == ds[i + 1];
        if FirstWith(ds[1..], udid, i) {
          forall j | 0 <= j < i + 1 ensures ds[j].udid != udid { if j > 0 { assert ds[1..][j - 1] == ds[j]; } }
        }
      }
      FindsNone(ds[1..], udid);
    }
  }

  lemma CapMeans(v: View, start: nat, end: nat, slots: map<nat, Slot>, ds: seq<Device>, blocked: seq<Candidate>, free: seq<Candidate>, max: nat)
    requires CapEnforced(v, start, end, slots, ds, blocked, free, max, false) && |v.slots| > max && start <= end
    ensures ColdestGone(v, start, end, slots, max)
  {
    hide Spare, AllJudged, Sorted, Ns;
    var keep := Keep(|blocked|, |free|, max);
    AlikeKeys(slots, v.slots - Ns(free[keep..]));
    forall n | n in v.slots && n !in slots ensures Spare(v, n, end) {
      GoneWasSpare(v, start, end, free, keep, n);
    }
    forall m | m in slots && Spare(v, m, start) ensures keep > 0 && m !in Ns(blocked) {
      KeptIsFree(v, start, end, slots, blocked, free, keep, m);
      var i :| 0 <= i < keep && free[i].n == m;
    }
    forall n, m | n in v.slots && n !in slots && m in slots && Spare(v, m, start) ensures v.slots[n].lastUsed <= v.slots[m].lastUsed {
      KeptIsFree(v, start, end, slots, blocked, free, keep, m);
      UsedNoLater(v, start, end, free, keep, n, m);
    }
  }

  lemma {:induction false} NsAt(cs: seq<Candidate>, n: nat)
    ensures n in Ns(cs) <==> exists i :: 0 <= i < |cs| && cs[i].n == n
  {
    if i :| 0 <= i < |cs| && cs[i].n == n { assert cs[i] in cs; }
  }

  lemma GoneWasSpare(v: View, start: nat, end: nat, free: seq<Candidate>, keep: nat, n: nat)
    requires AllJudged(v, start, end, free, false) && keep <= |free| && n in Ns(free[keep..])
    ensures Spare(v, n, end)
  {
    hide Spare, Evictable;
    NsAt(free[keep..], n);
    var k :| 0 <= k < |free[keep..]| && free[keep..][k].n == n;
    assert free[keep + k] in free;
    SpareIsIdle(v, n, end);
  }

  lemma UsedNoLater(v: View, start: nat, end: nat, free: seq<Candidate>, keep: nat, n: nat, m: nat)
    requires AllJudged(v, start, end, free, false) && Sorted(free, Recent) && keep <= |free| && n in Ns(free[keep..])
    requires exists i :: 0 <= i < keep && free[i].n == m
    ensures n in v.slots && m in v.slots && v.slots[n].lastUsed <= v.slots[m].lastUsed
  {
    hide Evictable;
    NsAt(free[keep..], n);
    var k :| 0 <= k < |free[keep..]| && free[keep..][k].n == n;
    var i :| 0 <= i < keep && free[i].n == m;
    assert free[keep + k] in free && free[i] in free && Recent(free[i], free[keep + k]);
  }

  /** A spare slot that is left was among those kept. */
  lemma KeptIsFree(v: View, start: nat, end: nat, slots: map<nat, Slot>, blocked: seq<Candidate>, free: seq<Candidate>, keep: nat, m: nat)
    requires Ranked(v, start, end, blocked, free) && keep <= |free| && slots.Keys == (v.slots - Ns(free[keep..])).Keys
    requires m in slots && Spare(v, m, start)
    ensures m !in Ns(blocked) && exists i :: 0 <= i < keep && free[i].n == m
  {
    hide Spare, Sorted, Ns;
    NotBlocked(v, start, end, blocked, m);
    NsAt(free, m);
    NsAt(free[keep..], m);
    assert forall k :: keep <= k < |free| ==> free[k] == free[keep..][k - keep];
  }

  lemma NotBlocked(v: View, start: nat, end: nat, blocked: seq<Candidate>, m: nat)
    requires AllJudged(v, start, end, blocked, true) && Spare(v, m, start)
    ensures m !in Ns(blocked)
  {
    hide Spare, Evictable;
    SpareIsIdle(v, m, start);
    forall c | c in blocked ensures c.n != m { assert Judged(v, start, end, c); }
  }

  lemma AlikeKeys(a: map<nat, Slot>, b: map<nat, Slot>)
    requires AllAlike(a, b)
    ensures a.Keys == b.Keys
  {
  }

  lemma CountNumbers(nums: seq<nat>, slots: map<nat, Slot>)
    requires Distinct(nums) && forall n :: n in nums <==> n in slots
    ensures |nums| == |slots|
  {
    DistinctSize(nums);
    assert Elements(nums) == slots.Keys;
  }

  lemma RankAll(v: View, start: nat, t: nat, slots: map<nat, Slot>, nums: seq<nat>, blocked: seq<Candidate>, free: seq<Candidate>, max: nat)
    requires Split(v, start, t, nums, blocked, free) && AllAlike(slots, v.slots)
    requires Distinct(nums) && |nums| > max && forall n :: n in nums <==> n in v.slots
    ensures var fs := Sort(free, Recent); Ranked(v, start, t, blocked, fs) && AllIdle(v, v.devices, fs, t) && Apart(fs)
    ensures |slots| == |blocked| + |free| > max && |Sort(free, Recent)| == |free|
  {
    var fs := Sort(free, Recent);
    SortSorts(free, Recent);
    forall c ensures c in fs <==> c in free { SameElements(free, Recent, c); }
    assert Ns(fs) == Ns(free);
    SizeApart(fs);
    CountNumbers(nums, v.slots);
    assert |slots.Keys| == |v.slots.Keys|;
    assert v.slots.Keys == Ns(blocked) + Ns(free);
    JudgedIdle(v, start, t, fs);
    hide Judged, Ns, AllIdle, Apart, Distinct;
  }

  lemma JudgedIdle(v: View, start: nat, t: nat, cs: seq<Candidate>)
    requires AllJudged(v, start, t, cs, false)
    ensures AllIdle(v, v.devices, cs, t)
  {
    hide Evictable;
  }

  lemma KeepIs(blocked: nat, free: nat, max: nat, keep: nat)
    requires keep == if max > blocked then max - blocked else 0
    ensures keep < free ==> keep == Keep(blocked, free, max) && blocked + free >= max + (free - keep)
    ensures free <= keep && blocked + free > max ==> Keep(blocked, free, max) == free && blocked >= max && free == 0
  {
  }

  lemma RankedLater(v: View, start: nat, t: nat, end: nat, blocked: seq<Candidate>, free: seq<Candidate>)
    requires Ranked(v, start, t, blocked, free) && start <= t <= end
    ensures Ranked(v, start, end, blocked, free)
  {
    AllLater(v, start, t, end, blocked, true);
    AllLater(v, start, t, end, free, false);
    hide AllJudged, Ns;
  }

  lemma AllKept(v: View, start: nat, t: nat, slots: map<nat, Slot>, ds: seq<Device>, blocked: seq<Candidate>, free: seq<Candidate>, max: nat, dryRun: bool)
    requires Ranked(v, start, t, blocked, free) && AllAlike(slots, v.slots) && |slots| == |blocked| + |free| > max
    requires |free| <= if max > |blocked| then max - |blocked| else 0
    ensures CapEnforced(v, start, t, slots, ds, blocked, free, max, dryRun)
  {
    KeepIs(|blocked|, |free|, max, if max > |blocked| then max - |blocked| else 0);
    assert free[|free|..] == [] && Ns([]) == {};
    assert v.slots - {} == v.slots;
    hide AllJudged;
  }

  lemma Enforced(v: View, start: nat, t: nat, end: nat, slots: map<nat, Slot>, ds: seq<Device>, blocked: seq<Candidate>, free: seq<Candidate>, max: nat, dryRun: bool)
    requires Ranked(v, start, t, blocked, free) && start <= t <= end && Apart(free)
    requires var keep := if max > |blocked| then max - |blocked| else 0;
             keep < |free| && AllAlike(slots, v.slots - Gone(free, keep, |free|, dryRun))
    requires NoDevices(v, ds, Gone(free, if max > |blocked| then max - |blocked| else 0, |free|, dryRun))
    ensures CapEnforced(v, start, end, slots, ds, blocked, free, max, dryRun)
  {
    var keep := if max > |blocked| then max - |blocked| else 0;
    KeepIs(|blocked|, |free|, max, keep);
    RankedLater(v, start, t, end, blocked, free);
    assert free[keep..|free|] == free[keep..];
    if !dryRun { LeftSize(v, start, t, slots, blocked, free, keep); }
    NothingGone(v.slots);
    hide Ranked, AllAlike, Ns, Apart;
  }

  lemma NothingGone(m: map<nat, Slot>)
    ensures m - {} == m
  {
  }

  lemma LeftSize(v: View, start: nat, t: nat, slots: map<nat, Slot>, blocked: seq<Candidate>, free: seq<Candidate>, keep: nat)
    requires Ranked(v, start, t, blocked, free) && Apart(free) && keep <= |free| && AllAlike(slots, v.slots - Ns(free[keep..]))
    ensures |slots| == |blocked| + keep
  {
    var gone := Ns(free[keep..]);
    SizeApart(free[keep..]);
    var left := v.slots.Keys - gone;
    assert slots.Keys == left && |slots| == |slots.Keys|;
    assert gone <= Ns(free);
    hide AllJudged, Ns, Sorted;
    assert |Ns(blocked) + Ns(free)| == |Ns(blocked)| + |Ns(free)|;
  }

  datatype Snap = Snap(slots: map<nat, Slot>, devices: seq<Device>, effects: seq<Effect>, now: nat)

  /** Where a quiet eviction loop is: the rest is still evictable, `gone` are
      gone, and the group is as far above max as there are slots to evict. */
  ghost predicate Mid(v: View, slots: map<nat, Slot>, ds: seq<Device>, free: seq<Candidate>, i: nat, now: nat, gone: set<nat>, max: nat)
    requires i <= |free|
  {
    AllIdle(v, ds, free[i..], now) && AllAlike(slots, v.slots - gone) && |slots| >= max + (|free| - i) && NoDevices(v, ds, gone)
  }

  /** Nothing is left of the simulators of these slots. */
  ghost predicate NoDevices(v: View, ds: seq<Device>, gone: set<nat>) {
    forall n :: n in gone ==> n in v.slots && NoDevice(v, ds, n)
  }

  ghost predicate NoDevice(v: View, ds: seq<Device>, n: nat)
    requires n in v.slots
  {
    TheDevice(v.slots[n].udid, ds, Names.DeviceNameForGroup(v.tag, v.group, n)) == Some(None)
  }

  lemma NoneLeft(udid: string, ds: seq<Device>, own: string, d: Option<Device>)
    requires TheDevice(udid, ds, own) == Some(d)
    ensures TheDevice(udid, Rid(ds, d), own) == Some(None)
  {
    if d.Some? {
      WithoutFinds(ds, d.value.udid, udid, own);
      if udid == "" {
        WithoutNamed(ds, d.value, own);
      } else {
        ByUdidHas(ds, udid);
      }
    }
  }

  /** The only device of a name, gone with its udid. */
  lemma WithoutNamed(ds: seq<Device>, d: Device, own: string)
    requires Named(ds, own) == [d]
    ensures Named(Without(ds, d.udid), own) == []
  {
    var left := Named(Without(ds, d.udid), own);
    if left != [] {
      FilterAll(Without(ds, d.udid), (x: Device) => x.name == own, left[0]);
      WithoutIs(ds, d.udid, left[0]);
      FilterAll(ds, (x: Device) => x.name == own, left[0]);
      assert false;
    }
  }

  lemma StillNone(v: View, ds0: seq<Device>, ds1: seq<Device>, gone: set<nat>)
    requires NoDevices(v, ds0, gone) && OneLess(ds0, ds1)
    ensures NoDevices(v, ds1, gone)
  {
    forall n | n in gone ensures n in v.slots && NoDevice(v, ds1, n) {
      assert NoDevice(v, ds0, n);
      if ds1 != ds0 {
        var u :| ds1 == Without(ds0, u);
        WithoutFinds(ds0, u, v.slots[n].udid, Names.DeviceNameForGroup(v.tag, v.group, n));
      }
    }
  }

  lemma MidStart(v: View, slots: map<nat, Slot>, ds: seq<Device>, free: seq<Candidate>, keep: nat, now: nat, max: nat, dryRun: bool)
    requires keep <= |free|
    ensures AllAlike(slots, v.slots) && AllIdle(v, ds, free, now) && |slots| >= max + (|free| - keep) ==>
              Mid(v, slots, ds, free, keep, now, Gone(free, keep, keep, dryRun), max)
  {
    NsNone(free, keep);
    hide Ready;
  }

  lemma MidEnd(v: View, slots: map<nat, Slot>, ds: seq<Device>, free: seq<Candidate>, keep: nat, now: nat, max: nat, dryRun: bool)
    requires keep <= |free| && Mid(v, slots, ds, free, |free|, now, Gone(free, keep, |free|, dryRun), max)
    ensures AllAlike(slots, v.slots - Gone(free, keep, |free|, dryRun)) && NoDevices(v, ds, Gone(free, keep, |free|, dryRun))
  {
  }

  lemma MidAbove(v: View, slots: map<nat, Slot>, ds: seq<Device>, free: seq<Candidate>, i: nat, now: nat, gone: set<nat>, max: nat)
    requires i < |free| && Mid(v, slots, ds, free, i, now, gone, max)
    ensures |slots| > max
  {
  }

  lemma NoneLess(ds: seq<Device>)
    ensures OneLess(ds, ds)
  {
  }

  lemma MidNext(v: View, s0: map<nat, Slot>, s1: map<nat, Slot>, ds0: seq<Device>, ds1: seq<Device>, free: seq<Candidate>, i: nat, t: nat, now: nat, gone: set<nat>, max: nat, dryRun: bool)
    requires i < |free| && Mid(v, s0, ds0, free, i, t, gone, max) && OneLess(ds0, ds1) && t <= now
    requires if dryRun then AllAlike(s1, s0) else AllAlike(s1, s0 - {free[i].n})
    requires !dryRun ==> free[i].n in v.slots && NoDevice(v, ds1, free[i].n)
    ensures Mid(v, s1, ds1, free, i + 1, now, if dryRun then gone else gone + {free[i].n}, max)
  {
    hide AllAlike, AllIdle, NoDevices, NoDevice, OneLess;
    IdleLeft(v, ds0, ds1, free, i, t, now);
    StillNone(v, ds0, ds1, gone);
    if dryRun {
      AlikeSame(s1, s0, v.slots - gone);
    } else {
      AlikeMinus(v.slots, s0, s1, gone, free[i].n);
      OneMoreNone(v, ds1, gone, free[i].n);
    }
  }

  lemma OneMoreNone(v: View, ds: seq<Device>, gone: set<nat>, n: nat)
    requires NoDevices(v, ds, gone) && n in v.slots && NoDevice(v, ds, n)
    ensures NoDevices(v, ds, gone + {n})
  {
    hide NoDevice;
  }

  lemma AlikeMinus(m: map<nat, Slot>, s0: map<nat, Slot>, s1: map<nat, Slot>, gone: set<nat>, n: nat)
    requires AllAlike(s0, m - gone) && AllAlike(s1, s0 - {n})
    ensures AllAlike(s1, m - (gone + {n})) && |s1| >= |s0| - 1
  {
    assert s1.Keys == s0.Keys - {n};
    assert |s1| == |s1.Keys| && |s0| == |s0.Keys|;
  }

  /** What the loop has evicted by turn i. */
  ghost function Gone(free: seq<Candidate>, keep: nat, i: nat, dryRun: bool): set<nat>
    requires keep <= i <= |free|
  {
    if dryRun then {} else Ns(free[keep..i])
  }

  lemma NsNext(free: seq<Candidate>, keep: nat, i: nat, dryRun: bool)
    requires keep <= i < |free|
    ensures Gone(free, keep, i + 1, dryRun) == if dryRun then Gone(free, keep, i, dryRun) else Gone(free, keep, i, dryRun) + {free[i].n}
  {
    assert free[keep..i + 1] == free[keep..i] + [free[i]];
    NsMore(free[keep..i], free[i]);
  }

  lemma AlikeSame(a: map<nat, Slot>, b: map<nat, Slot>, c: map<nat, Slot>)
    requires AllAlike(a, b) && AllAlike(b, c)
    ensures AllAlike(a, c) && |a| == |b|
  {
    assert |a.Keys| == |b.Keys|;
  }

  lemma NotGone(free: seq<Candidate>, keep: nat, i: nat, dryRun: bool)
    requires keep <= i < |free| && Apart(free)
    ensures free[i].n !in Gone(free, keep, i, dryRun)
  {
  }

  lemma OwnNone(tag: string, group: string, who: set<nat>, effects: seq<Effect>)
    ensures OwnOnly(tag, group, who, effects, effects)
  {
  }

  /** What was done was done to slots in `who`, each with its own device. */
  ghost predicate OwnOnly(tag: string, group: string, who: set<nat>, before: seq<Effect>, after: seq<Effect>) {
    && before <= after
    && forall i :: |before| <= i < |after| ==>
      && after[i].n in who
      && (!after[i].Removed? ==> after[i].d.name == Names.DeviceNameForGroup(tag, group, after[i].n))
  }

  ghost predicate AllIdle(v: View, ds: seq<Device>, cs: seq<Candidate>, now: nat) {
    forall c :: c in cs ==> Ready(v.slots, c, ds, Names.DeviceNameForGroup(v.tag, v.group, c.n), now)
  }

  /** No two candidates are the same slot. */
  predicate Apart(cs: seq<Candidate>) {
    forall i, j :: 0 <= i < j < |cs| ==> cs[i].n != cs[j].n
  }

  lemma SizeApart(cs: seq<Candidate>)
    ensures |Ns(cs)| <= |cs| && (|Ns(cs)| == |cs| <==> Apart(cs))
  {
    var ns := seq(|cs|, i requires 0 <= i < |cs| => cs[i].n);
    forall i | 0 <= i < |cs| ensures ns[i] in Ns(cs) && cs[i].n in ns { assert cs[i] in cs && ns[i] in ns; }
    assert Elements(ns) == Ns(cs);
    DistinctSize(ns);
    assert forall i :: 0 <= i < |cs| ==> ns[i] == cs[i].n;
  }

  lemma NsNone(free: seq<Candidate>, keep: nat)
    requires keep <= |free|
    ensures Ns(free[keep..keep]) == {} && free[keep..keep] == []
  {
  }

  lemma InRest(free: seq<Candidate>, keep: nat, i: nat)
    requires keep <= i < |free|
    ensures free[i].n in Ns(free[keep..])
  {
    assert free[i] == free[keep..][i - keep];
  }

  lemma OwnMore(tag: string, group: string, who: set<nat>, e0: seq<Effect>, e1: seq<Effect>, e2: seq<Effect>, n: nat)
    requires n in who && OwnOnly(tag, group, who, e0, e1) && Acts(e1, e2, n, Names.DeviceNameForGroup(tag, group, n))
    ensures OwnOnly(tag, group, who, e0, e2)
  {
  }

  lemma LostSum(d0: seq<Device>, d1: seq<Device>, d2: seq<Device>, e1: seq<Effect>, e2: seq<Effect>, n: nat, own: string)
    requires Lost(d0, d1, e1) && Lost(d1, d2, e2) && Acts(e1, e2, n, own)
    ensures Lost(d0, d2, e2)
  {
    forall x | x in d0 && x !in d2
      ensures exists i :: 0 <= i < |e2| && e2[i].Deleted? && e2[i].d.udid == x.udid
    {
      if x !in d1 {
        var i :| 0 <= i < |e1| && e1[i].Deleted? && e1[i].d.udid == x.udid;
        assert e2[i] == e1[i];
      }
    }
  }

  lemma ReadyNow(v: View, slots: map<nat, Slot>, ds: seq<Device>, free: seq<Candidate>, gone: set<nat>, i: nat, t: nat, now: nat, max: nat)
    requires i < |free| && Mid(v, slots, ds, free, i, t, gone, max) && t <= now && free[i].n !in gone
    ensures Ready(slots, free[i], ds, Names.DeviceNameForGroup(v.tag, v.group, free[i].n), now)
    ensures free[i].n in v.slots && free[i].n in slots && v.slots[free[i].n].udid == slots[free[i].n].udid
  {
    var c := free[i];
    assert c == free[i..][0];
    EvictableStays(v.slots[c.n], slots[c.n], c.mtime, ds, Names.DeviceNameForGroup(v.tag, v.group, c.n), t, now);
    hide Evictable;
  }

  /** Deleting one slot's simulator leaves the others as evictable as they were. */
  lemma IdleLeft(v: View, ds0: seq<Device>, ds1: seq<Device>, free: seq<Candidate>, i: nat, t: nat, now: nat)
    requires i < |free| && AllIdle(v, ds0, free[i..], t) && OneLess(ds0, ds1) && t <= now
    ensures AllIdle(v, ds1, free[i + 1..], now)
  {
    forall c | c in free[i + 1..]
      ensures Ready(v.slots, c, ds1, Names.DeviceNameForGroup(v.tag, v.group, c.n), now)
    {
      assert c in free[i..];
      var own := Names.DeviceNameForGroup(v.tag, v.group, c.n);
      StillOwned(v.slots[c.n].udid, ds0, ds1, own);
    }
    hide TheDevice, OneLess;
  }

  lemma StillOwned(udid: string, ds0: seq<Device>, ds1: seq<Device>, own: string)
    requires TheDevice(udid, ds0, own).Some? && OneLess(ds0, ds1)
    ensures TheDevice(udid, ds1, own).Some?
  {
    if ds1 != ds0 {
      var u :| ds1 == Without(ds0, u);
      WithoutFinds(ds0, u, udid, own);
    }
  }

  lemma {:induction false} WithoutFinds(ds: seq<Device>, u: string, udid: string, own: string)
    ensures ByUdid(Without(ds, u), udid) == if udid == u then None else ByUdid(ds, udid)
    ensures |Named(Without(ds, u), own)| <= |Named(ds, own)|
  {
    if ds != [] {
      WithoutFinds(ds[1..], u, udid, own);
      if ds[0].udid != u {
        assert ([ds[0]] + Without(ds[1..], u))[1..] == Without(ds[1..], u);
      }
    }
  }

  const NatLe: (nat, nat) -> bool := (a: nat, b: nat) => a <= b

  ghost predicate Ascending(nums: seq<nat>) {
    forall i, j :: 0 <= i < j < |nums| ==> nums[i] < nums[j]
  }

  lemma Ascends(nums: seq<nat>)
    requires Ascending(nums)
    ensures Distinct(nums)
  {
  }

  lemma SortNats(nums: seq<nat>)
    requires Distinct(nums)
    ensures Ascending(Sort(nums, NatLe)) && forall n :: n in Sort(nums, NatLe) <==> n in nums
  {
    SortSorts(nums, NatLe);
    DistinctPerm(nums, Sort(nums, NatLe));
    forall n ensures n in Sort(nums, NatLe) <==> n in nums { SameElements(nums, NatLe, n); }
  }

  function Ns(cs: seq<Candidate>): set<nat> {
    set c | c in cs :: c.n
  }

  /** The group as a quiet pass found it. */
  datatype View = View(tag: string, group: string, slots: map<nat, Slot>, devices: seq<Device>) {
    /** n is in nobody's hands, idle, and its device is its own. */
    predicate Idle(n: nat, now: nat) {
      && n in slots && !slots[n].held
      && Evictable(slots[n], slots[n].mtime, devices, Names.DeviceNameForGroup(tag, group, n), now)
    }
  }

  /** A verdict reached at some moment between two; a free candidate carries
      what the slot said before this pass locked it. */
  ghost predicate Judged(v: View, start: nat, end: nat, c: Candidate) {
    && c.n in v.slots
    && if c.blocked then !v.Idle(c.n, start)
       else v.Idle(c.n, end) && c.mtime == v.slots[c.n].mtime && c.lastUsed == v.slots[c.n].lastUsed
  }

  ghost predicate AllJudged(v: View, start: nat, end: nat, cs: seq<Candidate>, blocked: bool) {
    forall c :: c in cs ==> c.blocked == blocked && Judged(v, start, end, c)
  }

  /** Every slot is either blocked or free, and counted once. */
  ghost predicate Parted(nums: seq<nat>, blocked: seq<Candidate>, free: seq<Candidate>) {
    && (forall n :: n in nums <==> n in Ns(blocked) || n in Ns(free)) && Ns(blocked) !! Ns(free)
    && |Ns(blocked)| == |blocked| && |Ns(free)| == |free|
  }

  ghost predicate Split(v: View, start: nat, end: nat, nums: seq<nat>, blocked: seq<Candidate>, free: seq<Candidate>) {
    Parted(nums, blocked, free) && AllJudged(v, start, end, blocked, true) && AllJudged(v, start, end, free, false)
  }

  lemma SplitNone(v: View, start: nat, nums: seq<nat>)
    ensures Split(v, start, start, nums[..0], [], [])
  {
    assert Ns([]) == {};
  }

  lemma PartedMore(nums: seq<nat>, blocked: seq<Candidate>, free: seq<Candidate>, c: Candidate)
    requires Parted(nums, blocked, free) && c.n !in nums
    ensures Parted(nums + [c.n], blocked + [c], free) && Parted(nums + [c.n], blocked, free + [c])
  {
    NsMore(blocked, c);
    NsMore(free, c);
    hide Ns;
  }

  lemma AllLater(v: View, start: nat, t: nat, end: nat, cs: seq<Candidate>, blocked: bool)
    requires AllJudged(v, start, t, cs, blocked) && start <= t <= end
    ensures AllJudged(v, start, end, cs, blocked)
  {
    forall c | c in cs ensures Judged(v, start, end, c) { JudgedLater(v, start, start, t, end, c); }
    hide Judged;
  }

  lemma SplitMore(v: View, start: nat, t: nat, end: nat, nums: seq<nat>, i: nat, blocked: seq<Candidate>, free: seq<Candidate>, c: Candidate)
    requires i < |nums| && Distinct(nums) && nums[i] == c.n
    requires Split(v, start, t, nums[..i], blocked, free) && start <= t <= end && Judged(v, t, end, c)
    ensures c.blocked ==> Split(v, start, end, nums[..i + 1], blocked + [c], free)
    ensures !c.blocked ==> Split(v, start, end, nums[..i + 1], blocked, free + [c])
  {
    assert nums[..i + 1] == nums[..i] + [c.n] && c.n !in nums[..i];
    PartedMore(nums[..i], blocked, free, c);
    AllLater(v, start, t, end, blocked, true);
    AllLater(v, start, t, end, free, false);
    JudgedLater(v, start, t, end, end, c);
    hide Judged, Parted;
  }

  lemma JudgedSame(v: View, w: View, start: nat, end: nat, c: Candidate)
    requires Judged(w, start, end, c) && c.n in v.slots && v.slots[c.n] == w.slots[c.n]
    requires v == w.(slots := v.slots)
    ensures Judged(v, start, end, c)
  {
    hide Evictable;
  }

  lemma NsMore(cs: seq<Candidate>, c: Candidate)
    ensures Ns(cs + [c]) == Ns(cs) + {c.n}
  {
  }

  lemma JudgedLater(v: View, s0: nat, s1: nat, e0: nat, e1: nat, c: Candidate)
    requires s0 <= s1 && e0 <= e1 && Judged(v, s1, e0, c)
    ensures Judged(v, s0, e1, c)
  {
    if c.blocked && v.Idle(c.n, s0) {
      EvictableStays(v.slots[c.n], v.slots[c.n], v.slots[c.n].mtime, v.devices, Names.DeviceNameForGroup(v.tag, v.group, c.n), s0, s1);
    }
    if !c.blocked {
      EvictableStays(v.slots[c.n], v.slots[c.n], v.slots[c.n].mtime, v.devices, Names.DeviceNameForGroup(v.tag, v.group, c.n), e0, e1);
    }
    hide Evictable;
  }

  lemma NothingDone(effects: seq<Effect>, n: nat, own: string)
    ensures Acts(effects, effects, n, own)
  {
  }

  lemma OneDone(before: seq<Effect>, effects: seq<Effect>, n: nat, own: string, e: Effect)
    requires Acts(before, effects, n, own) && e.n == n && (!e.Removed? ==> e.d.name == own)
    ensures Acts(before, effects + [e], n, own)
  {
  }

  lemma LostOne(ds: seq<Device>, effects: seq<Effect>, n: nat, d: Device)
    ensures Lost(ds, Without(ds, d.udid), effects + [Deleted(n, d, true)]) && OneLess(ds, Without(ds, d.udid))
  {
    var es := effects + [Deleted(n, d, true)];
    forall x | x in ds && x !in Without(ds, d.udid)
      ensures exists i :: 0 <= i < |es| && es[i].Deleted? && es[i].d.udid == x.udid
    {
      WithoutIs(ds, d.udid, x);
      assert es[|effects|].Deleted?;
    }
  }

  lemma LostMore(before: seq<Device>, after: seq<Device>, effects: seq<Effect>, e: Effect)
    requires Lost(before, after, effects)
    ensures Lost(before, after, effects + [e])
  {
    var es := effects + [e];
    forall x | x in before && x !in after
      ensures exists i :: 0 <= i < |es| && es[i].Deleted? && es[i].d.udid == x.udid
    {
      var i :| 0 <= i < |effects| && effects[i].Deleted? && effects[i].d.udid == x.udid;
      assert es[i] == effects[i];
    }
  }

  lemma {:induction false} WithoutIs(ds: seq<Device>, udid: string, d: Device)
    ensures d in Without(ds, udid) <==> d in ds && d.udid != udid
  {
    if ds != [] { WithoutIs(ds[1..], udid, d); }
  }

  lemma EvictableStays(s: Slot, t: Slot, mtime: Option<nat>, ds: seq<Device>, own: string, now: nat, later: nat)
    requires Alike(s, t) && now <= later && Evictable(s, mtime, ds, own, now)
    ensures Evictable(t, mtime, ds, own, later)
  {
    hide TheDevice;
  }

  /** What one eviction may add to the log. */
  ghost predicate Acts(before: seq<Effect>, after: seq<Effect>, n: nat, own: string) {
    before <= after && forall i :: |before| <= i < |after| ==> after[i].n == n && (!after[i].Removed? ==> after[i].d.name == own)
  }

  /** A device is shut down unless it is off, and deleted if that worked. */
  ghost predicate Deletion(more: seq<Effect>, n: nat, d: Device, gone: bool) {
    || (!gone && !d.off && more == [ShutDown(n, d, false)])
    || more == (if d.off then [] else [ShutDown(n, d, true)]) + [Deleted(n, d, gone)]
  }

  /** Its directory goes only once its device, if it has one, is deleted. */
  ghost predicate Stepped(before: seq<Effect>, after: seq<Effect>, n: nat, device: Option<Device>) {
    exists head: seq<Effect>, gone: bool ::
      Rids(head, n, device, gone) && (after == before + head || (gone && after == before + head + [Removed(n)]))
  }

  ghost predicate Rids(head: seq<Effect>, n: nat, device: Option<Device>, gone: bool) {
    if device.Some? then Deletion(head, n, device.value, gone) else head == [] && gone
  }

  lemma SteppedSoFar(before: seq<Effect>, head: seq<Effect>, n: nat, device: Option<Device>, gone: bool)
    requires Rids(head, n, device, gone)
    ensures Stepped(before, before + head, n, device)
    ensures gone ==> Stepped(before, before + head + [Removed(n)], n, device)
  {
    hide Rids;
  }

  /** Every device missing was deleted by an effect that says so. */
  ghost predicate Lost(before: seq<Device>, after: seq<Device>, effects: seq<Effect>) {
    forall d :: d in before && d !in after ==> exists i :: 0 <= i < |effects| && effects[i].Deleted? && effects[i].d.udid == d.udid
  }

  lemma NothingLost(ds: seq<Device>, effects: seq<Effect>)
    ensures Lost(ds, ds, effects) && OneLess(ds, ds)
  {
  }

  function Without(ds: seq<Device>, udid: string): seq<Device> {
    if ds == [] then [] else if ds[0].udid == udid then Without(ds[1..], udid) else [ds[0]] + Without(ds[1..], udid)
  }

  function Rid(ds: seq<Device>, d: Option<Device>): seq<Device> {
    if d.Some? then Without(ds, d.value.udid) else ds
  }

  ghost predicate OneLess(before: seq<Device>, after: seq<Device>) {
    after == before || exists u :: after == Without(before, u)
  }

  /** A slot this pass would evict right now. */
  ghost predicate Ready(slots: map<nat, Slot>, c: Candidate, ds: seq<Device>, own: string, now: nat) {
    c.n in slots && !slots[c.n].held && Evictable(slots[c.n], c.mtime, ds, own, now)
  }

  lemma {:induction false} ByUdidHas(ds: seq<Device>, udid: string)
    ensures ByUdid(ds, udid).Some? ==> ByUdid(ds, udid).value.udid == udid
  {
    if ds != [] { ByUdidHas(ds[1..], udid); }
  }
}
