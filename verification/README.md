# simpool, verified

simpool lends iOS simulators to independent processes.  Nothing central
coordinates them: each slot has a lock file that is flocked, a group of slots
has one allocation lock, and a slot may carry an expiring lease.  This project
models that arbitration and the decisions built on it in Dafny, and proves what
they are for.

`dafny verify dfyconfig.toml` checks the whole project.

## What is modelled

**The slot ownership protocol** (`Protocol*.dfy`).  A state is what the kernel
and the file system know, plus each live process's local state: directories,
which inode each lock file links to, who holds which flock, the allocation
lock, leases, shutdown markers, boot gates and the clock.  An event is one step
of one process; 28 kinds of event cover capped claims, lease calls with sticky
renewal, preboot, eviction, reap's bare TryLock, releases, cleanups, markers,
gates, time and death at any point.  The theorems hold in every state of every
run of any number of processes; `ProtocolEffects` says what each step of a run
brings about, and `ProtocolProgress` that a process left to itself gets what it is
after, so that none of them holds merely because nothing happens.

**The algorithms on top** are loops over mutable state, each proved against a
specification whose meaning is then proved separately: the three-pass
acquisition and its lease sibling against a claim oracle that may know
everything asked so far (`Dispatch`, `Acquire*`), cap eviction (`CapEviction`),
warm ceiling and floor (`Warm`), the streaming log filter (`QuietWriter`), the process-tree walk
(`ProcessTree`), the batched query with fallback (`Chunks`), slim profiles
(`Slim`), names (`Names`), boot with one retry (`BootWait`).

**The decisions that kill, shut down or delete** (`Poison`, `Availability`,
`Reap`, `Provision`) run against a world that may change between any two reads;
an instant of it is a value, a run is an arbitrary function of time, and every
effect is logged with when it happened and on what was seen before.

## Assumptions

The protocol's claims need these.

- One census probe of one slot, one renewal's read and write, one release's or
  cleanup's read and remove, and one directory removal are each one step.  The
  code takes no lock across the renewal pair, and a finer split does not keep
  the claims: `ProtocolSplitRenewal.SplitRenewalSharesSlot` is a run that breaks
  them.
- Every claimer uses the same positive max, and reads of leases and directories
  succeed.
- Each key has one lease call in flight.  This one is needed:
  `ProtocolSharedKey.SharedKeyExceedsCap` is a run without it that ends past
  the cap.
- A live shutdown marker is written under the flock of the linked lock file, by
  reap or by a release that tidies up.
- `preboot` checks no lease when it claims by number: it is a maintenance
  holder, not an owner.  Reap's bare TryLock is an observer.
- Pids are not reused, and the clock does not go back.

Elsewhere: simctl and ps answers, failures, clocks and memory readings are
arbitrary values or functions of time; bytes are characters; times are seconds
(milliseconds in `BootWait`, with timers that fire on time); while a slot is
being provisioned nobody else touches devices with that slot's own name; and
what `ps` prints for a process does not change during one pass.

## What the proofs turned up

- A slot refused as busy in the first pass of `tryAcquireSlots` and taken in the
  last is listed twice when the call then comes up short
  (`AcquireListing.BusyThenTaken`).  Each slot is certain to be listed once
  exactly when one slot is wanted, or nothing resident serves the request and no
  slot is resident twice (`AcquireListing.WorstCase`).  The comment at
  `internal/pool/slot.go:272-280` promises one entry per slot.
- `ensureProvisioned` can succeed with the device not booted: a device found
  booted whose slim reconcile fails half way is not booted again
  (`Provision.WarmDeviceLeftDown`; `EnsureProvisioned` gives the exact condition).
- When `simctl list` fails and meta.json does not name the slot's device,
  `ensureProvisioned` creates a second one with the same name
  (`Provision.SecondDevice`; `OneDevicePerSlot` gives the exact condition); with meta.json lost
  again, every later call refuses the ambiguous name.
- The warm floor does not count a boot that failed, so it can start more boots
  than are missing (`Warm.StartsWithinMissing`).
- slot-07 and slot-7 both read as slot 7 (`Names.LeadingZeroReads`); listing is
  without repetition exactly when no two directories do that, and with a
  repetition the warm ceiling can undo the exemption of `--cold`
  (`Warm.DoubledSlot`), exactly when its cap splits the listings of one free slot
  (`Warm.CeilingAtWorst`).
- A reap pass decides on one device listing made before its first slot.  A
  device listed as down that has come up since is deleted while it is up, once
  its slot is past `--purge` (`Reap.StaleDelete`; `Reap.DeletesUp` says exactly
  when), although the comment at `internal/cli/reap.go:789-794` has it proven to
  be shut down; below `--purge` it is left up (`Reap.StaleLeftUp`), or scrubbed.
  One listed as up that has gone down is shut down again (`Reap.StaleShutDown`,
  `Reap.ShutsDownDown`).  `Reap.ListingServes` says exactly when the old listing
  makes no difference.
- After a refused write the log filter's Flush can emit quiet lines or drop
  others, exactly when the lines left in its buffer are mixed
  (`QuietWriter.FlushAtWorst`).
- An empty category in a request is never served (`Slim.EffectiveServes`);
  requests are deduplicated first, which removes it.
- The comment at `internal/pool/bootgate.go:69-73` says a slot's flock is held
  whenever a boot gate is taken; a lease call has released its flock by then
  (`ProtocolTheorems.GateOrder`).  The comments at `internal/pool/slot.go:268-269`
  and `:468-469` say a second flock by the same process would succeed; two open
  file descriptions conflict, and the model has the second claim contended.

## Model

| member | source | states |
|---|---|---|
| ProtocolTheorems.UseCap | internal/pool/usecap.go:74-182 | In every reachable state of every interleaving, slots owned by `with`/`acquire` past their check plus slots under a live lease number at most max, and no slot is both; slots the same caller already keeps are counted |
| ProtocolTheorems.ExclusiveHandOut | internal/pool/slot.go:304-381 | No slot ever has two owners past their check, nor an owner together with a live lease |
| ProtocolTheorems.RemovalSparesUsers | internal/pool/slot.go:690-718 | A directory disappears only at the hands of an eviction that holds the flock of the linked lock file, on a slot with no live lease and no owner, in a group above max |
| ProtocolTheorems.NeverBelowMax | internal/pool/slot.go:705-718 | With peer passes interleaved anywhere, a group at or above max never drops below it |
| ProtocolTheorems.LeasesOnlyEndOwn | internal/pool/lease.go:464-486 | A live lease ends only by the clock or by a release of its own key; every other step of anybody leaves it live and under the same key |
| ProtocolTheorems.LockFileIdentity | internal/pool/slot.go:644-687 | Whoever holds slot n's flock through the allocation lock holds the linked lock file, or is the one that removed the directory; so two never both hold slot n with neither having removed it |
| ProtocolTheorems.NobodyWaitsForAWaiter | internal/pool/lock.go:29-61 | Whoever is waited for waits for nobody, so the wait-for relation over the allocation lock and the boot gates has no cycle |
| ProtocolTheorems.GateOrder | internal/pool/bootgate.go:65-102 | A boot gate is never held while the allocation lock is held or asked for; its holder has a slot's flock unless it is a lease call |
| ProtocolTheorems.HolderAdvances | internal/pool/usecap.go:150-182 | The allocation lock's holder always has a step and every step brings it closer to letting go: it never waits for any lock |
| ProtocolTheorems.OthersDoNotDelay | internal/pool/slot.go:606-613 | No step of anybody else takes the allocation lock from its holder or changes what the holder does next |
| ProtocolTheorems.Reachable | internal/pool/usecap.go:119-149 | The inductive invariant holds in every state of every run |
| ProtocolTheorems.StepKeeps | internal/pool/usecap.go:150-182 | Every one of the 28 events keeps the invariant |
| ProtocolTheorems.ProbeKeeps | internal/pool/usecap.go:82-111 | Probing one slot keeps the census complete: what is in use is counted, still to be counted, or the caller's own, and a slot exempted because reap marked it is in nobody's use |
| ProtocolTheorems.DieKeeps | internal/pool/lock.go:64-75 | A process may die at any point: the kernel drops its locks and the invariant stands |
| ProtocolTheorems.TickKeeps | internal/pool/lease.go:96-102 | Time passing ends leases and markers and keeps the invariant |
| ProtocolEvents.FlockKeeps | internal/pool/usecap.go:163-175 | Taking the flock right after the count stays within the cap, since nothing can be claimed in between |
| ProtocolEvents.PeekFlockKeeps | internal/pool/lock.go:29-47 | A bare TryLock, even on an unlinked inode, disturbs nobody's claim |
| ProtocolRest.ReadLeaseKeeps | internal/pool/availability.go:158-167 | The lease read under the flock settles that no other key is live on the slot |
| ProtocolRest.SettleKeeps | internal/pool/lease.go:370-420 | Keeping a slot, or writing its lease, under the flock stays within the cap |
| ProtocolRest.ScanSlotKeeps | internal/pool/lease.go:227-252 | Sticky renewal rewrites only a lease its own key holds live, and adds no use |
| ProtocolRest.RemoveKeeps | internal/pool/slot.go:705-718 | Removing an evicted slot's directory under the allocation lock keeps the invariant |
| ProtocolRest.CleanupKeeps | internal/pool/lease.go:634-647 | Dropping an expired lease, re-read under the allocation lock, removes no live one |
| ProtocolRest.UnleaseKeeps | internal/pool/lease.go:475-486 | Releasing a key's own lease keeps the invariant |
| ProtocolRest.MarkKeeps | internal/pool/idleshutdown.go:48-76 | A shutdown marker written under the flock of the linked lock file never exempts a slot in use |
| ProtocolRest.TakeGateKeeps | internal/pool/bootgate.go:80-102 | Each boot gate has one holder at a time |
| ProtocolSharedKey.SharedKeyExceedsCap | internal/pool/usecap.go:60-90 | The one-call-per-key hypothesis is needed: two lease calls of one key that both began before either had a lease end up with two slots under live leases at max 1 |
| ProtocolSplitRenewal.SplitRenewalSharesSlot | internal/pool/lease.go:227-252 | The one-step renewal is needed: with the lease read and the rewrite apart, a run lets the lease run out in between, another process own the slot, and the rewrite then put a live lease beside the owner |
| ProtocolSplitRenewal.WholeWhenAdjacent | internal/pool/lease.go:229-240 | The two halves with nothing in between are the protocol's own step |
| ProtocolEffects.ReleaseReleases | internal/pool/lease.go:475-486 | A release's step removes its own key's lease there and then, leaves a lease of another key and every other slot's as it was, and lets go of the allocation lock |
| ProtocolEffects.ClaimIsKept | internal/pool/lease.go:370-420 | A lease call past its checks has the slot under its own live lease for the ttl it asked for, and a `with` or `acquire` owns the slot, with the flock still held; no other lease changes |
| ProtocolEffects.RenewalExtends | internal/pool/lease.go:227-252 | A renewal sets its own key's live lease to expire a ttl from now and ends the call; any other slot is only looked at |
| ProtocolEffects.CleanupDrops | internal/pool/lease.go:634-647 | A cleanup drops a lease that has a key and has expired, and leaves a live one |
| ProtocolEffects.LeaseLasts | internal/pool/lease.go:96-102 | In a run a lease once live stays live, however the others run, until the clock passes its end or its own key releases it |
| ProtocolEffects.FlockIsHad | internal/pool/lock.go:29-47 | A claim gets the flock of the file it opened exactly when nobody has that, and lets go of the allocation lock either way |
| ProtocolEffects.CheckRefuses | internal/pool/availability.go:158-188 | The check under the flock lets go of the slot exactly when it is under another key's live lease, and frees its lock file then |
| ProtocolEffects.RemovalRemoves | internal/pool/slot.go:705-718 | An eviction past its checks removes the directory with its lock file, lease and marker exactly when the group is above max, and no other |
| ProtocolEffects.OnlyClaimsMakeDirs | internal/pool/slot.go:644-687 | A directory that is not there appears exactly when a claim enters it; an eviction or a release never makes one |
| ProtocolEffects.MarkingMarks | internal/pool/idleshutdown.go:48-76 | A marker is there from marking to unmarking, stamped with its process and the time |
| ProtocolEffects.CensusCounts | internal/pool/usecap.go:82-111 | A probe counts a slot exactly when it is under a live lease that is not the caller's own key's, or its flock is held with no live reap that began shutting it down less than two minutes ago |
| ProtocolEffects.CapDecides | internal/pool/usecap.go:150-182 | With every directory counted the claim goes on exactly when those counted and those the caller keeps are fewer than max, and lets go of the allocation lock otherwise |
| ProtocolEffects.CountedWasBusy | internal/pool/usecap.go:74-111 | In a run, what a census has counted was in somebody else's hands when the same census looked at it, so a refusal for the cap saw that many in use |
| ProtocolEffects.NobodyIsStuck | internal/pool/usecap.go:150-182 | In every reachable state whoever does not wait for the allocation lock while it is taken, has not handed over, and is no reap without slots has a step to take |
| ProtocolProgress.ClaimSucceeds | internal/pool/usecap.go:119-182 | In every reachable state, a `with`, `acquire` or lease call left to itself gets the slot it claims, if nobody has its flock, no other key's lease is live on it, nobody has the allocation lock, and fewer than max slots are in use, its own included: it then owns the slot, or has it under its own live lease |
| ProtocolProgress.EvictionSucceeds | internal/pool/slot.go:690-718 | An eviction of a free slot in a group above max, left to itself, removes exactly its directory, and its lease with it |
| ProtocolProgress.ReleaseSucceeds | internal/pool/lease.go:464-486 | A release left to itself leaves no lease of its key on the slot and every other lease as it was |
| ProtocolProgress.ReleaseTidies | internal/pool/lease.go:530-618 | It can then lock the slot, if nobody has it, and put the marker there that says so |
| ProtocolProgress.ReapMarks | internal/pool/idleshutdown.go:48-76 | Reap left to itself gets a slot whose flock nobody has, and can put a marker there that the census honours |
| ProtocolProgress.ReapCleans | internal/pool/lease.go:620-647 | And drops the slot's lease exactly if it has a key and has expired |
| ProtocolProgress.RenewalSucceeds | internal/pool/lease.go:203-252 | A lease call whose key has a live lease in the group extends it and is served, taking no lock |
| ProtocolProgress.ScanEnds | internal/pool/lease.go:227-252 | One whose key has none comes to the end of its scan with nothing changed |
| ProtocolProgress.PrebootSucceeds | internal/pool/slot.go:560-640 | Preboot left to itself keeps a slot whose flock nobody has, however many are in use |
| ProcessTree.ParseTree | internal/procs/procs.go:138-159 | Each parent's children are exactly the well-formed rows that name it, in order; malformed lines are skipped |
| ProcessTree.ChildrenAreRows | internal/procs/procs.go:144-157 | A pid is listed under a parent exactly when the snapshot has that row |
| ProcessTree.Walker.Walk | internal/procs/procs.go:180-195 | Terminates on any table, cycles included; what it adds is reachable and closed under children |
| ProcessTree.Descendants | internal/procs/procs.go:175-195 | Every pid reachable from the root but the root itself, each once, and nothing else; nothing when the snapshot failed |
| ProcessTree.LiveConsumers | internal/procs/procs.go:237-265 | Exactly the matches, in order, minus every matching launchd_sim and what it reaches in the snapshot taken for it; a failed query fails the call |
| ProcessTree.OutsidersAre | internal/procs/procs.go:245-264 | A pid is a consumer exactly when it matches and is not the simulator's own |
| ProcessTree.LostSnapshotsOnlyAdd | internal/procs/procs.go:160-179 | Losing any snapshots never hides a consumer |
| ProcessTree.IsIdbCompanionFor | internal/procs/procs.go:319-338 | True exactly for an idb_companion whose first `--udid` with a value names the device |
| ProcessTree.ResidueMeans | internal/procs/procs.go:319-412 | To the letter: an `idb_companion`, bare or by path, whose first `--udid` with a value names the device; and a `simctl spawn <udid> log stream` whose parent is pid 1 |
| ProcessTree.ResidueOfOneDevice | internal/procs/procs.go:389-412 | A process is residue of at most one device, and of only one of the two kinds |
| Names.SanitizeClean | internal/pool/paths.go:63-69 | A sanitized name has only allowed characters, so never `@` or `/`, and no dash at either end |
| Names.SanitizeFixes | internal/pool/paths.go:65-69 | sanitize leaves alone exactly the clean names, and is idempotent |
| Names.TrimSpaceIsRedundant | internal/pool/paths.go:66-68 | Trimming white space first changes nothing |
| Names.SanitizeJoins | internal/pool/paths.go:63-69 | A run of characters outside the alphabet between two clean parts becomes one dash |
| Names.GroupNameInjective | internal/pool/paths.go:71-82 | Two device+OS pairs share a group exactly when both parts sanitize alike |
| Names.OSVersionOfGroup | internal/cli/runtimeimages.go:143-148 | groupOSVersion of GroupName(d, o) is sanitize(o) |
| Names.DeviceNameInjective | internal/pool/paths.go:123-137 | A device name determines tag, group and slot number, also when the group contains `_slot-` |
| Names.SpeltOut | internal/pool/paths.go:123-137 | A device name to the letter: SIMPOOL_, the tag, device@os, _slot- and the decimal number |
| Names.TagRecovered | internal/cli/doctor.go:287-299 | poolDeviceTag yields a tag exactly for names of the form prefix, eight hex digits, underscore |
| Names.TagOfDeviceName | internal/cli/doctor.go:287-299 | It recovers the tag of every device name the pool gives |
| Names.SlotNumberOfSlotDir | internal/pool/paths.go:150-171 | SlotNumberOf inverts SlotDir |
| Names.BaseMeans | internal/pool/paths.go:161-171 | Only the last part of the path counts, whatever slashes follow it |
| Names.ReadsAsOwnName | internal/pool/paths.go:161-171 | A directory name that reads as n is n's own exactly when its digits have no leading zero |
| Names.LeadingZeroReads | internal/pool/paths.go:150-171 | slot-07 and slot-7 both read as 7 |
| Names.ItoaOfValue | internal/pool/paths.go:153-155 | A digit string is what Itoa writes of its value exactly when it has no leading zero |
| Names.SortInts | internal/pool/paths.go:221-227 | The in-place sort yields a sorted permutation |
| Names.ListSlotNumbersChecked | internal/pool/paths.go:194-219 | Sorted, with exactly the numbers the directories read as; a missing group is empty and an unreadable one is an error |
| Names.NumbersAre | internal/pool/paths.go:203-217 | A number is listed exactly when some directory reads as it |
| Names.ListedOnce | internal/pool/paths.go:203-217 | A group is listed without repetition exactly when no two directories read as the same number |
| QuietWriter.Pass | internal/cli/idle.go:152-183 | However the text is cut into Write calls, after Flush the sink has received exactly the lines of the whole text with no quiet prefix, a last unterminated line included |
| QuietWriter.DeedsAreShown | internal/cli/reap.go:548-822 | What a pass did, or could not do, is always shown |
| QuietWriter.KeptOfSum | internal/cli/idle.go:162-176 | Filtering distributes over any cut at the end of a line |
| QuietWriter.Writer.Write | internal/cli/idle.go:162-176 | After each call the sink has the kept lines up to the last newline; a refused write loses that one line and leaves the rest buffered |
| QuietWriter.Writer.Flush | internal/cli/idle.go:178-183 | With no refused write, the sink now has the kept lines of everything fed; whatever was refused before, the buffer goes out whole or not at all by its first line |
| QuietWriter.FlushMayMisjudge | internal/cli/idle.go:178-183 | Flush, which judges its buffer by the first line, agrees with the filter exactly when all buffered lines are quiet or none is |
| QuietWriter.FlushAtWorst | internal/cli/idle.go:155-183 | A run: the sink refuses the first line and takes the rest; any text at all can then be left in the buffer, and Flush hands over what the filter would keep of it exactly when its lines are all quiet or none is |
| Chunks.SimRuntimeProcesses | internal/procs/simruntime.go:119-171 | Every launchd_sim, then every candidate answered for: each is asked about in exactly one chunk, in order; one alive at the end is found, one that had exited at the start is not |
| Chunks.AskInChunks | internal/procs/simruntime.go:147-169 | The same for the chunk loop alone, for any list length, in one query for every 128 candidates when none of them exits and at worst one more for each |
| Chunks.EnvForChunk | internal/procs/simruntime.go:190-205 | A refused batch falls back to one query per pid and yields the same lines |
| Chunks.BatchingIsOneAtATime | internal/procs/simruntime.go:173-205 | When no candidate exits during the pass, batching with fallback obtains exactly what asking one at a time would, for any set of exited pids |
| Chunks.LinesOfSum | internal/procs/simruntime.go:190-205 | Answers whose last line is ended can be concatenated |
| Chunks.LinesOfEnded | internal/procs/simruntime.go:201-203 | Ending an unended last line changes no line |
| Sorting.SortSorts | internal/pool/slot.go:547-557 | The stable sort yields a sorted permutation, for any total preorder |
| Sorting.SortStable | internal/cli/idle.go:122 | Elements that rank equal keep their order |
| Sorting.FilterSort | internal/cli/reap.go:481-483 | Restricting a stable ranking is ranking the restriction |
| Slim.DedupeSorted | internal/pool/slim.go:137-148 | Sorted, without repetition, exactly the non-empty names |
| Slim.CanonicalUnique | internal/pool/slim.go:137-148 | A set of names has one such list |
| Slim.Satisfies | internal/pool/slim.go:150-168 | True exactly when every wanted category is enabled |
| Slim.SurplusCategories | internal/pool/slim.go:180-192 | The number of enabled categories that were not wanted |
| Slim.NoSurplusIsExact | internal/pool/slim.go:170-192 | Among serving slots surplus zero means exactly the requested set |
| Slim.EffectiveServes | internal/pool/slim.go:194-218 | The resulting profile serves the request exactly when the request names no empty category |
| Slim.EffectiveIsStable | internal/pool/slim.go:194-218 | For a resolved request it always serves it, acquiring again changes nothing, a slot that serves keeps its own set, any other gets the request's |
| Slim.EffectiveIdempotentWhen | internal/pool/slim.go:213-218 | For an arbitrary request it is idempotent exactly outside one family, which is given |
| Dispatch.DispatchOrder | internal/pool/slot.go:536-559 | Both lists are the stable rankings of the two halves of the resident slots |
| Dispatch.DispatchSplits | internal/pool/slot.go:518-559 | Each resident slot appears once; those that serve leanest and then warmest first, the others coldest first |
| Dispatch.OrderMeans | internal/pool/slot.go:518-559 | To the letter: of two slots that serve, the one with fewer categories nobody asked for comes first, then the one used later; of two that do not, the one used earlier |
| Acquire.Call.Take | internal/pool/slot.go:304-381 | One claim either takes the slot, or lists and lets go of it, or meets the cap, or fails; the flocks held are exactly the slots taken |
| Acquire.RefusalsAre | internal/pool/slot.go:272-293 | One entry per slot that was ever refused |
| Acquire.LatestVerdict | internal/pool/slot.go:280-293 | Each entry is the latest verdict on its slot |
| AcquireListing.ListedOnce | internal/pool/slot.go:487-502 | When one slot is wanted, or nothing resident serves the request and no slot is resident twice, every failure that lists slots lists each of them once, whatever the claims come to |
| AcquireListing.WorstCase | internal/pool/slot.go:422-502 | The condition is exact: against the claims that go worst, a run of the call lists each slot once if and only if it holds |
| AcquireListing.BusyThenTaken | internal/pool/slot.go:487-502 | A run with slot 0 resident, two slots wanted and room for two fails at capacity and lists a slot twice |
| AcquirePasses.TryAcquireSlots | internal/pool/slot.go:237-516 | Success is exactly count distinct slots, the only flocks held; any failure holds none; the passes run in order, stop as soon as enough is held, never propose past max; each failure means what it says |
| AcquirePasses.PassTwo | internal/pool/slot.go:450-463 | New numbers are the least free ones, the resident set never passes max, and the loop ends with enough slots, the cap met, or the group full |
| AcquirePasses.ReconfigureIsLastResort | internal/pool/slot.go:465-485 | A resident slot that does not serve is tried only after every one that does was taken or refused, with the group full or the memory floor declining |
| AcquirePasses.HeardIsListed | internal/pool/slot.go:487-512 | A failure the caller may queue on names every resident slot |
| AcquirePasses.CountFallbacks | internal/pool/slot.go:422-446 | The floor's fallbacks are the slots not taken whose latest refusal, if any, is somebody's work in progress |
| AcquireMeaning.AcquiredMeans | internal/pool/slot.go:487-516 | A success hands over exactly the slots whose flock was got and that were free or freed, as many as were asked for |
| AcquireMeaning.FloorMeans | internal/pool/coldfloor.go:88-103 | A failure for the memory floor, or a last pass in a group with room, means that after pass one free memory was read below the floor and at least as many resident slots as were still short were worth waiting for: not taken, and never refused or last refused as held or leased; and when that is so no slot is created |
| AcquireMeaning.NobodyToWaitFor | internal/pool/coldfloor.go:89 | A group with nobody in it worth waiting for never fails for the memory floor |
| AcquireLease.AcquireLease | internal/pool/lease.go:203-337 | A live lease of the key's own is renewed and nothing claimed; else the passes run in order, the busy slots that are being shut down are waited out before any is created, and the call ends at the first slot leased; no flock is kept on any path |
| AcquireLease.LeaseCall.ClaimForLease | internal/pool/lease.go:370-420 | The lease is written only with the flock held, which is always released; it is given only on a free or recovered slot, and a refusal is listed |
| AcquireLease.LeaseCall.WaitOut | internal/pool/idleshutdown.go:80-97 | A slot being shut down is claimed again until a claim ends the call, eight have been made or the time is up; any other slot is not |
| AcquireLease.ReconfigureIsLastResort | internal/pool/lease.go:296-334 | A slot that does not serve is claimed only after every one that does was tried and refused, with the group at max |
| AcquireLease.FullListsAll | internal/pool/lease.go:280-336 | A full group's failure names every resident slot, once, in the order of the passes |
| AcquireLease.RetriesWereTried | internal/pool/lease.go:302-316 | Retries are of slots already refused as busy and marked as shutting down |
| CapEviction.Group.EnforceSlotCap | internal/cli/slotcap.go:99-246 | On an oversized quiet group: exactly the blocked slots and the most recently used free ones are left, max(max, blocked) in all, no slot that went was used after a free one that was kept, and nothing is left of the evicted slots' simulators; always: effects only on those slots and devices that carry their own names, and nothing under dry-run |
| CapEviction.Group.Evict | internal/cli/slotcap.go:192-243 | One eviction re-locks and re-classifies first and acts only on that slot and its own device: shut down unless it is off, deleted if that worked, and the directory removed only once the device is gone and from a group above max |
| CapEviction.Group.Classify | internal/cli/slotcap.go:275-370 | Not blocked means idle past the grace, unleased, unpoisoned, and any device is the slot's own; the age is the one read before the flock |
| CapEviction.StillOwned | internal/cli/slotcap.go:321-369 | Deleting one slot's simulator leaves the other slots as evictable as they were |
| CapEviction.EvictableStays | internal/cli/slotcap.go:299-317 | Time passing and the pass's own locking never make an evictable slot blocked |
| Warm.Group.WarmKept | internal/cli/idle.go:102-128 | The n most recently used slots that are unleased and provisioned |
| Warm.Group.EnforceWarmCap | internal/cli/reap.go:460-520 | Whatever each look finds, exactly the slots past n in the ranking of those found up are looked at again and shut down if found up still; they are free slots past n in the whole ranking, so none of warmKept(n) unless a slot is listed both within n and past it; if what is up stays so, exactly the free slots up that rank past n are shut down, each once, in order |
| Warm.Group.CeilingMeans | internal/cli/reap.go:460-488 | Of the slots found up and nobody's, as many are past the cap as there are more than the cap, and none of them was used after one that is let be |
| Warm.Group.KeptMeans | internal/cli/idle.go:102-128 | The exemption names as many free slots as the cap says, or all of them, and no other free slot was used after one it names |
| Warm.Group.DownedMeans | internal/cli/reap.go:488-520 | A slot past the cap that is not shut down was leased, unprovisioned or not found up when its turn came |
| Warm.Group.RankedPast | internal/cli/reap.go:481-488 | Past the cap in the ranking of whatever passed the first look is past it in the whole ranking |
| Warm.ApartExactlyWhenListedOnce | internal/cli/idle.go:111-126 | No cap, whatever it is, splits the listings of one slot exactly when no free slot is listed twice |
| Warm.CeilingAtWorst | internal/cli/reap.go:460-520 | Where every free slot is up, a run of the ceiling shuts down a slot of warmKept(n) exactly when n splits the listings of one |
| Warm.DoubledSlot | internal/cli/idle.go:111-126 | A run: slot-7 and slot-07 both listed as 7, and the ceiling of one shuts down the very slot that warmKept(1) names |
| Warm.EnforceWarmFloor | internal/cli/warmfloor.go:133-239 | The boots are those of the floor's specification, on the cold slots warmest first |
| Warm.FloorHolds | internal/cli/warmfloor.go:190-239 | Each boot follows a latest reading at or above the floor, at most the missing number succeed, and no slot is tried twice |
| Warm.FloorMeans | internal/cli/warmfloor.go:190-239 | A cold slot is booted exactly if some are still missing after those before it, memory was read after each boot that worked and was enough, and it is neither busy nor unfit; the reading behind it is the latest |
| Warm.WarmestFirst | internal/cli/warmfloor.go:133-185 | The floor's candidates are exactly the cold slots, the ones used last first |
| Warm.StartsWithinMissing | internal/cli/warmfloor.go:222-228 | At most the missing number are started in every run exactly when there are no more cold slots than that; failed boots are not counted |
| Poison.Host.CheckPoison | internal/pool/poison.go:282-300 | The verdict is the decision on a view assembled from reads made during the call |
| Poison.JudgeMeans | internal/pool/poison.go:282-300 | The verdict case by case: when each is given, to the letter, and which of the three grounds makes residue |
| Poison.OfflineMeans | internal/pool/poison.go:314-361 | The target counts as not running exactly when the device listing was read and non-empty and has the device as Shutdown or not at all |
| Poison.OwnDeviceMeans | internal/pool/poison.go:577-583 | A device is the slot's own exactly when the listing was read and the first entry with its udid carries the slot's name |
| Poison.DeclarationOnlyReleases | internal/pool/poison.go:461-492 | A declaration can only turn live consumers into released residue, and no observer can produce that evidence |
| Poison.NeverGuessed | internal/pool/poison.go:282-300 | A failed check is never clean or residue; one process outside the residue classes rules residue out; residue is the whole live set |
| Poison.Host.AllReclaimableResidue | internal/pool/poison.go:417-450 | The grounds found are those of the same assembled view |
| Poison.Host.ReclaimOrphanedResidue | internal/pool/poison.go:780-828 | Nothing is signalled unless the device is the slot's own and a second look finds the same pids as a multiset on the same evidence; success means each of them is gone |
| Poison.SignalledIsResidue | internal/pool/poison.go:780-812 | Every pid signalled was seen to be residue of this device in between, and the evidence was seen then too |
| Poison.Host.AttemptRecovery | internal/pool/poison.go:647-720 | Otherwise only a `with` group whose leader still has the recorded start time is signalled, once; success means the group is gone, and only the slot's own device may be shut down |
| Poison.Host.DisownPoisonedSlot | internal/pool/poison.go:917-940 | A consumer group is given up without any signal; at most its own device is shut down and deleted; and when nothing is given up a reason is named |
| Poison.Host.DisownOrphanedResidue | internal/pool/poison.go:986-1040 | Only pids re-verified as residue, on a device confirmed not running, are signalled, and the slot lets go only once they are gone |
| Poison.DisownedIsDown | internal/pool/poison.go:986-1040 | Whoever is signalled there was seen as residue of a device that a listing read in between had as Shutdown or not at all |
| Poison.Host.ReclaimResidue | internal/pool/lease.go:530-618 | A session tidying up after itself, whatever it declares, signals only residue of the slot's own device found so twice; success means those processes are gone |
| Poison.SamePidSet | internal/pool/poison.go:830-844 | Equality as multisets |
| Availability.FreeMeans | internal/pool/availability.go:158-188 | Free means a readable lease that is not live under another key, and nothing left behind but the key's own lease residue; `with`/`acquire` are exempt from nothing |
| Availability.AnswerMeans | internal/pool/availability.go:158-188 | The answer case by case, to the letter: unreadable, another key's live lease, clean, left behind by this key's own lease session, or quarantined |
| Availability.OneConsumer | internal/pool/availability.go:399-412 | On a slot with anything left behind or a live lease, at most one key is told it is free |
| Availability.ViewerIsToldTheTruth | internal/pool/availability.go:180-187 | A keyless viewer is told of the exemption exactly when some key has it |
| Availability.OwnKeyGetsBackIn | internal/pool/availability.go:370-412 | However much later, a key is refused its own slot only for a live process group or a failed check |
| Reap.ReapSlot | internal/cli/reap.go:548-822 | How the pass over a slot ends: somebody has the flock, and only a stuck holder is signalled; or the slot is left alone because its lock could not be tried, its lease may be live, or the expired lease was renewed or would not go; else it is reaped, under the flock: an expired lease is dropped, old run directories go, and what its state calls for is done |
| Reap.PruneRuns | internal/cli/reap.go:869-896 | Of the run directories exactly those past their time, with no live process of their own, go |
| Reap.ReapedIsWarranted | internal/cli/reap.go:548-822 | Under dry-run nothing is done; every shutdown, delete and directory removal comes under the flock after a lease read that found none live; each effect has its grounds, those on a device from the pass's listing or from a fresh look in recovery; without --disown-poisoned no pass both kills or shuts down and deletes |
| Reap.ReapPoisoned | internal/cli/reap.go:613-731 | Recovery comes first and ends the pass when it works; otherwise the slot is given up on request, or its own device, listed as booted, is shut down |
| Reap.HandledIsWarranted | internal/cli/reap.go:613-731 | Whatever is done to a poisoned slot has its grounds: pids seen to be residue, a group with the recorded leader, the slot's own device; without --disown-poisoned nothing is deleted |
| Reap.ReapIdle | internal/cli/reap.go:733-822 | Exactly when an idle slot is shut down, scrubbed or purged, from its idle time, its device's listed name and state and the three thresholds; its directory goes only after its device or if it never had one |
| Reap.IdledIsWarranted | internal/cli/reap.go:733-822 | An idle slot's own device is shut down or, listed as already down, scrubbed and purged, never both |
| Reap.IdledMeans | internal/cli/reap.go:733-822 | To the letter: a slot idle past --cold whose device is listed as its own is shut down if listed as Booted and not to be kept, and otherwise scrubbed and deleted past --scrub and --purge minutes; one never used counts as idle for 999999 hours |
| Reap.ReapAll | internal/cli/reap.go:116-127 | The per-slot pass: one listing first (none if it fails), then every slot in turn, each on that listing and after it |
| Reap.SlotsKeepApart | internal/cli/idle.go:131-133 | In a pass on one listing no device is touched for two idle slots with different device names |
| Reap.ListingServes | internal/cli/reap.go:116-127 | A turn on the listing is what a look at the devices in the turn would have made it exactly when nothing may be done to the slot, or the listed device and the present one both call for nothing, or both call for something and are up in both or in neither |
| Reap.UnchangedServes | internal/cli/idle.go:128-133 | That is so whenever the device has the same entry in both |
| Reap.DeletesUp | internal/cli/reap.go:789-804 | Outside --dry-run, a device that is up is deleted exactly when its slot is past --cold and --purge, the listing (or the lookup) has it there with the slot's name and down, and it is up when the delete is made |
| Reap.ShutsDownDown | internal/cli/reap.go:773-786 | Outside --dry-run, a device that is not up is shut down exactly when its slot is past --cold and none to keep, the listing has it up, and it no longer is when its turn comes |
| Reap.LeavesUp | internal/cli/reap.go:747-804 | Past --cold and none to keep, a slot's device is neither shut down nor deleted exactly when the listing does not have it up and does not have it down and past --purge |
| Reap.StaleDelete | internal/cli/reap.go:789-804 | A run: listed as down and started before its turn, a device past --purge is deleted while it is up |
| Reap.StaleLeftUp | internal/cli/reap.go:747-800 | A run: listed as down and started before its turn, with no --purge, a device is left up |
| Reap.DifferentDevices | internal/cli/idle.go:131-133 | Decided on one listing, two slots never touch the same device, so one slot's turn never makes the listing wrong for another |
| Reap.StaleShutDown | internal/cli/reap.go:747-790 | A run: the device was listed as booted and is down when its turn comes; it is shut down all the same |
| Reap.ShutdownQuarantined | internal/cli/reap.go:342-371 | The device is shut down exactly when it is listed as the slot's own and booted |
| Reap.ReapHeldSlot | internal/cli/reap.go:898-973 | Of the processes with the lock file open exactly the recorded `with` holder is signalled, if it is alive, a `simpool with`, without a child, and past its grace |
| Provision.World.EnsureProvisioned | internal/pool/provision.go:287-576 | Exactly when a call succeeds, from what the host answers; then the recorded udid names an existing device with this slot's name, the recorded runtime is that device's own, strict checking holds, the device is the one the slot had unless that did not match, and it is left not booted exactly when it was found booted and the slim reconcile took it down |
| Provision.WarmDeviceLeftDown | internal/pool/provision.go:434-462 | A run: a warm device, taken down by the slim reconcile, and a call that succeeds all the same |
| Provision.OneDevicePerSlot | internal/pool/provision.go:306-430 | A successful call leaves more devices of the slot's name than there were, and than one, exactly when the listing fails while there is one that meta.json does not name |
| Provision.WithADevice | internal/pool/provision.go:306-516 | When a call succeeds if the slot has a device it can name, and what it is left with: the device is kept if it will do, else replaced, for which it must be clean, under nobody else's lease, and go |
| Provision.WithoutOne | internal/pool/provision.go:306-516 | And if it has none it can name: one is made, if what to make is known and at least a second is left to boot it |
| Provision.DeletedIsWrong | internal/pool/provision.go:154-180 | Nothing is deleted but a device of the slot's own name that cannot be used or has another runtime or type than was insisted on |
| Provision.SecondDevice | internal/pool/provision.go:333-397 | A run: meta.json lost, the listing failing, and the slot ends with two devices of its name |
| Provision.World.Prepare | internal/pool/provision.go:306-430 | Exactly when the call gets hold of a device, which one, and whether it was found booted |
| Provision.World.ResolveSubstanceMismatch | internal/pool/provision.go:154-180 | A deletion is of a device with this slot's name that does not match under strict checking, right after its shutdown, a lease read that found no other key's live and a clean poison check; success means it is gone and no other was touched |
| Provision.World.Adopt | internal/pool/provision.go:306-376 | The adopted device is the one meta.json names if it has this slot's name, else the only one with that name; an ambiguous name is refused |
| Provision.World.BringUp | internal/pool/provision.go:434-516 | A cold device is booted by a boot that was answered, within the timeout less the wait for the boot gate, or the whole timeout after a slim reconcile, and not at all when too little is left |
| BootWait.Simulator.BootAndWait | internal/simctl/simctl.go:288-332 | One attempt with two thirds of the budget; if it times out with at least a second left, a shutdown and one more attempt with what is left; the settle second after success; the total is bounded by timeout, settle margin and the time of the Shutdown and Find calls when probes honour their deadline |
| BootWait.Simulator.WaitForReadyOnce | internal/simctl/simctl.go:342-364 | One attempt: bootstatus, if that fails a look at the device that ends it unless it is booted, then the probes; it exceeds its deadline only by Find |
| BootWait.Simulator.Poll | internal/simctl/simctl.go:352-363 | A probe half a second after each one not answered, until one is or no half second is left; it ends at its deadline or with its last probe |
| BootWait.CourseMeans | internal/simctl/simctl.go:288-332 | Success comes only right after a probe that answered; bootstatus runs at most twice, and Shutdown at most once, between the two |
| BootWait.FirstShareMeans | internal/simctl/simctl.go:288-291 | The first attempt's share is two thirds of the budget, rounded towards zero |

## Left out

- ProtocolTheorems.UseCap: holds under the assumptions above; a finer split of the renewal or release pair, several lease calls sharing a key, or differing values of max are outside it.
- ProtocolTheorems.LockFileIdentity: covers processes that open through the allocation lock; `reap --purge` opens with a bare TryLock and its directory removal is covered only by the per-slot log in `Reap`.
- CapEviction.Group.EnforceSlotCap: the final state is stated for a group that nothing else touches and calls that do not fail; with peers only the safety clauses, the order of one eviction's steps and the protocol's size theorem apply.
- Reap.DifferentDevices: is about what is decided on the listing; recovery and disowning look at the devices afresh and are covered by their own grounds.
- BootWait.Simulator.BootAndWait: timers fire exactly on time, and the bound is for probes that return by their deadline.
- Provision.World.EnsureProvisioned: what a presentation reset changes and the fields of meta.json that only record who did what are not modelled; a created device is taken to be available, and its udid to be new.
- Chunks.SimRuntimeProcesses: reading a pid and a device tag out of one line of text is a parameter; the marker is checked by that parameter.
- AcquireSlots' polling loop and its wait notices: nothing is promised about fairness or waiting times.
- Updating the package variable of requested capabilities and resolving capability names: configuration.
- The sweeps of `doctor`, `status`, `reap --orphans` and ghost slots: reporting, or thin wrappers of what is modelled.
- JSON files, temporary files and renames: a file is an atomic cell.
- SHA-256 in the root tag: any eight lower-case hex digits.
- The Bazel runner template and the scripts around it.
