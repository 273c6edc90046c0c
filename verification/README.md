# simple-zfs-csi: a verified model

A Dafny model of the hard parts of the driver, with proofs that hold for every
input, every run and every reachable state.

**The clone graph and the delete paths on it** (the core).

- `Pool.dfy`, `PoolInvariant.dfy`, `Promote.dfy`: datasets, snapshots, origins and
  what each zfs command does to them, as values. The invariant (parents exist, no
  dangling origin, marked implies cloned, every snapshot newer than its dataset's
  origin) and the theory of `zfs promote`: a bijection on snapshots that keeps clone
  counts and the history every dataset sees.
- `Mem.dfy`: the in-memory ZFS as a class whose methods update the pool in place,
  loop by loop, proved equal to those values.
- `Confluence.dfy`: promoting the clones of a volume in any order ends in one graph.
- `Detach.dfy`, `DetachLoop.dfy`: the promote fixpoint that empties a dataset before
  it is destroyed, as a bounded loop that may be stopped after any command.
- `Lifecycle.dfy`, `Guarantees.dfy`: volumes and snapshots over their whole life.
  Creates are complete, deletes are broken into lookups and single zfs commands, which
  may be interleaved and may stop anywhere. The ownership invariant, and what it means
  for the objects. It holds as long as no command comes too late for what was read before
  it; the exact condition is `InTime`.
- `Overtaken.dfy`, `Collision.dfy`: the two controllers promote what they read to be a
  dependent, perhaps after the other one has changed that. What the other does in
  between makes it do no harm, unless the other is late in the same way.
- `Ghosts.dfy`: a controller marks the snapshot it has looked up, perhaps after the other
  one has moved it. Then nothing is marked, the delete goes on, and a snapshot is left
  behind that belongs to nobody.
- `Reach.dfy`: building runs, and the states they reach.
- `Shapes.dfy`: over whole runs, the kind and size of every volume, clone, backing clone
  and restore, and which datasets are labelled as backing clones.
- `Driver.dfy`: the two reconcilers as a class; everything they do is such a run,
  a delete is never refused or wedged, and deleting everything leaves the pool as found.

**Independent parts.**

- `Groups.dfy`, `Provisioning.dfy`: the group snapshot protocol, cut at most once; when it
  is provisioned, adopted, refused, cut again or cleared, for groups of any size.
- `Attach.dfy`: attach requests of a single-node volume, the oldest wins.
- `Exports.dfy`, `Gating.dfy`, `OpenGate.dfy`: shares, exports and node tables;
  finalizers, what a status that claims the current generation says of the node, and
  when it says nothing.
- `Migrate.dfy`, `Migration.dfy`: the migration audit and its execution.
- `Audit.dfy`: what the audit asks for, what blocks it and when it is clean, said over
  the names on the pool and the fields of the objects alone.
- `Nvmet.dfy`: the incremental configfs reconciler.
- `Sizes.dfy`: rounding and growing a zvol in 64-bit arithmetic.
- `Seqs.dfy`, `Options.dfy`: facts about sequences; optional values.

The reconcilers of the protocols (`Groups`, `Attach`, `Exports`) run against each
other, so they are state machines whose steps are the single reads and writes of the
code. What one object updates by itself (`Mem`, `Driver`, `Target`, `Migrator`,
`Zvol`) is a class.

Assumptions, all visible as `requires` clauses or guards of steps: one pool with a
flat layout under a prefix; object and snapshot names are never reused; the driver is
the only actor on the pool; an object is Ready before it is deleted; reads of objects
are authoritative; a share is not deleted and made again under its name.

Seven properties one would expect hold of the code only under a condition. Each has lemmas
that reach the failing states, and the theorem carries the condition:

- a delete gives up the object's own snapshot exactly if the name it looked up still exists
  when it is marked, or if no unmarked snapshot of that name has a clone by then
  (`Lifecycle.MarkKeepsInv`). Every other mark lets the delete end with an unmarked snapshot
  that belongs to nobody (`Ghosts.LateMarkLeavesAGhost`), and a volume, its snapshot and a
  restore are enough for that (`Ghosts.LateMarkIsReached`): the volume's delete promotes
  the backing clone between the lookup and the mark;
- a promote keeps the ownership invariant if and only if the object of the dataset that
  is taken apart has no snapshot of its own, gave it up, or keeps or follows it
  (`Lifecycle.PromoteKeepsInvExactlyIfTame`). A dependent that was picked before the other
  controller went on meets this (`Overtaken.OvertakenPickIsHarmless`); of two that wait for
  each other the second may not: a live volume then loses the snapshot it was cloned from
  (`Collision.TwoPicksCollide`, `Collision.KnotIsReached`);
- a share that is Bound for its current generation is served by the node its export is
  pinned to if its status was written since the pool last moved, if at no move an exporter
  left behind was still going to mark the export, and if nobody deletes the export by hand
  (`Gating.BoundIsServed`). From every bound share a move without a status, from every
  share a move that leaves such an exporter behind, and from every bound share a delete by
  hand leads to one that is Bound and not served (`OpenGate.PoolMoveOpensTheGate`,
  `OpenGate.LeftBehindOpensTheGate`, `OpenGate.HandDeleteOpensTheGate`);
- at most one attach request is Ready as long as no request is made that sorts before the
  one that is ready or about to be; every such request leads to two
  (`Attach.OneNodeAtATime`, `Attach.EarlierRequestSteals`);
- a group is cut again only if the child of every member is deleted from outside, and
  is cut again if no raw snapshot is left before `provisionedAt` is set
  (`Groups.CutAtMostOnce`, `Provisioning.ForgottenIsCut`,
  `Provisioning.OutsideDeletesCutAgain`);
- the migration is completed by one undisturbed pass exactly if no ZfsSnapshot whose raw
  snapshot is named `restore-source`, is unmarked and has no clone, lacks a label
  (`Migration.Migrator.Apply`, `Migrate.DoomedIsDestroyed`). Otherwise that pass stops at
  the label, and the next one completes;
- an nvmet reconcile succeeds exactly if no wanted subsystem is to allow any host while
  hosts are linked to it, which the kernel refuses (`Nvmet.Target.Reconcile`). So an
  allow-list, once in place, cannot be emptied (`Nvmet.EmptiedListIsBarred`).

Two more are exact: a second nvmet reconcile writes nothing if and only if every host
has one key (`Nvmet.Target.Reconcile`), and rounding a size up is right if and only
if some multiple of the block size that fits in an int64 reaches it
(`Sizes.AlignUpIsLeast`).

## Model

| member | source | states |
|---|---|---|
| `PoolInvariant.WellFormedPassesCheck` | internal/zpool/memzfs/mem.go:606-635 | the invariant implies all that `Check` looks for, in particular that no chain of origins leads back to where it began |
| `PoolInvariant.HopRank` | internal/zpool/memzfs/mem.go:624-632 | following origins, the instant of the origin strictly decreases with every hop: why there is no cycle |
| `PoolInvariant.CreatedKeepsWF` | internal/zpool/memzfs/mem.go:179-195 | creating a dataset keeps the invariant |
| `PoolInvariant.CutKeepsWF` | internal/zpool/memzfs/mem.go:258-262 | cutting a snapshot now keeps the invariant |
| `PoolInvariant.ClonedKeepsWF` | internal/zpool/memzfs/mem.go:267-290 | cloning keeps the invariant |
| `PoolInvariant.DeferredClones` | internal/zpool/memzfs/mem.go:408-429 | a deferred destroy changes nobody's clones |
| `PoolInvariant.DeferredKeepsWF` | internal/zpool/memzfs/mem.go:408-429 | a deferred destroy keeps the invariant: what it marks has a clone |
| `PoolInvariant.WithoutSnapKeepsWF` | internal/zpool/memzfs/mem.go:344-354 | destroying a clone-less snapshot keeps the invariant |
| `PoolInvariant.DestroyedKeepsWF` | internal/zpool/memzfs/mem.go:355-405 | destroying a dataset tree nothing outside clones, marked snapshots going with their last clone, keeps the invariant |
| `Promote.PromoteRelocates` | internal/zpool/memzfs/mem.go:308-333 | promote is a bijection on snapshots: each is found again under the same short name with the same content, and nothing else appears |
| `Promote.PromoteClones` | internal/zpool/memzfs/mem.go:308-333 | the clones of a relocated snapshot are the same but for parent and promoted dataset trading places, so every clone count is kept |
| `Promote.PromotedKeepsWF` | internal/zpool/memzfs/mem.go:294-334 | a promote without a name conflict keeps the invariant; no marked snapshot becomes clone-less |
| `Promote.PromoteChangesOrigin` | internal/zpool/zfs.go:366-404 | the origin of the promoted dataset is different afterwards |
| `Promote.PromoteShrinksParent` | internal/controller/promote.go:41-46 | the parent owns strictly fewer snapshots afterwards |
| `Promote.PromotePreservesHistory` | internal/zpool/memzfs/mem.go:292-334 | every dataset sees the same snapshots, with the same content, back through its chain of origins as before: a promote changes who owns history, not what it is |
| `MemZfs.Mem.constructor` | internal/zpool/memzfs/mem.go:59-65 | a new pool is well-formed, has its roots and nothing else |
| `MemZfs.Mem.Create` | internal/zpool/memzfs/mem.go:179-222 | succeeds exactly for a new name with an existing parent and, for a zvol, a positive size, and then there is just the new dataset, of the kind, size and properties asked for, without origin and snapshots; otherwise nothing changes, and the error says which |
| `MemZfs.Mem.Snapshot` | internal/zpool/memzfs/mem.go:226-264 | all names are cut in one new txg or the pool is unchanged; the error tells which, and an existing set is adopted |
| `MemZfs.Mem.Clone` | internal/zpool/memzfs/mem.go:267-290 | clones an existing snapshot under an existing parent: the new dataset has the kind and size of the snapshot's dataset, the properties given, the snapshot as origin and no snapshots; does nothing if the destination exists; each error exactly in its case |
| `MemZfs.Mem.SortedSnaps` | internal/zpool/memzfs/mem.go:149-161 | each snapshot of the dataset once, ordered by txg |
| `MemZfs.InsertByAge` | internal/zpool/memzfs/mem.go:149-161 | insertion keeps a list ordered by txg and adds just the one element |
| `MemZfs.Mem.Promote` | internal/zpool/memzfs/mem.go:294-334 | the loops that move snapshots, re-parent siblings and swap origins refine the one-step promote; a conflict or a missing dataset leaves the pool alone |
| `MemZfs.Mem.DestroySnapshot` | internal/zpool/memzfs/mem.go:344-354 | refused exactly while a clone exists |
| `MemZfs.Mem.DestroySnapshotDeferred` | internal/zpool/memzfs/mem.go:408-429 | gone at once without clones, otherwise marked |
| `MemZfs.Mem.Destroy` | internal/zpool/memzfs/mem.go:337-405 | refused for children, own snapshots or outside clones; otherwise the tree is gone, and with it exactly the marked snapshots it was the last to clone |
| `MemZfs.DestroyedIsFelled` | internal/zpool/memzfs/mem.go:355-405 | after a destroy every dataset outside the tree is there as it was, but for the marked snapshots whose only clones were in the tree |
| `MemZfs.InheritedIsNearest` | internal/zpool/memzfs/mem.go:458-469 | a property is inherited from the nearest dataset above that sets it |
| `MemZfs.InheritedOfNobody` | internal/zpool/memzfs/mem.go:458-469 | and there is none exactly if nobody above sets it |
| `MemZfs.DoneWereOrigins` | internal/zpool/memzfs/mem.go:393-404 | looking only at the origins of the destroyed tree misses no snapshot that is due |
| `MemZfs.CliPromote` | internal/zpool/zfs.go:358-404 | the verify-and-retry loop stops after one attempt, with the result of that one |
| `Confluence.LayoutStep` | internal/zpool/memzfs/mem.go:294-334 | promoting one more clone of the fan moves just the older part of the holder's run of snapshots, and never conflicts |
| `Confluence.CanonicalStep` | internal/controller/zfsdataset_controller_test.go:379-424 | after any set of promotes each snapshot is on the next promoted clone, which is a clone of the previous one, whatever the order was |
| `Confluence.PromoteOrderIsIrrelevant` | internal/controller/zfsdataset_controller_test.go:379-424 | for n snapshots with one clone each, every order of promotes ends in one graph: clone i owns snapshot i and hangs off clone i-1, the volume owns none and hangs off clone n |
| `Detach.DetachSurvival` | internal/controller/promote.go:113-183 | however far the loop got: every other snapshot of the pool survives with its short name, txg, properties, mark and number of clones, at one place each |
| `Detach.DetachIsExact` | internal/controller/promote.go:113-183 | once the dataset is empty, exactly its snapshots that had no clone on entry are gone |
| `Detach.NoNewClones` | internal/controller/promote.go:113-183 | a detach makes no other dataset a clone |
| `Detach.DependentsShrink` | internal/controller/promote.go:162-178 | along the loop the dataset gets no dependent it did not have on entry |
| `Detach.PickedIsFirst` | internal/controller/promote.go:162-173 | the dependent to promote, over origins, txgs and the inherited label: no other is labelled as a backing clone unless it is, and none was cloned from an older snapshot unless only it has the label |
| `DetachLoop.Clean` | internal/controller/promote.go:139-160 | destroys exactly the clone-less snapshots, in one pass, and collects the clones of the others ordered by the age of what they clone |
| `DetachLoop.Pick` | internal/controller/promote.go:162-173 | a backing clone of the oldest possible snapshot if there is any, else a clone of the oldest |
| `DetachLoop.AllKnown` | internal/controller/promote.go:191-227 | true exactly if every clone is a known dataset or backing clone |
| `DetachLoop.OfDriverMeans` | internal/controller/promote.go:62-62 | a snapshot name is the driver's exactly if it is "clone-" or "csi-snap-" and at least one more character |
| `DetachLoop.DriverShortMeans` | internal/controller/promote.go:233-239 | the names the loop lets pass are those, as they are written on the pool |
| `DetachLoop.AnyForeign` | internal/controller/promote.go:233-239 | true exactly if some snapshot's written name is neither "clone-" nor "csi-snap-" followed by something |
| `DetachLoop.DetachAndClean` | internal/controller/promote.go:113-183 | ends empty, stopped, after 100 snapshots less, or refused for a reason visible on entry: a snapshot whose name is not of the driver, exactly then, and before anything is touched; a dependent that is no known dataset; or an ambiguous name. Nothing unknown is ever promoted; each command is a drop or a promote of the picked dependent and takes a snapshot off |
| `DetachLoop.RefusedFromTheStart` | internal/controller/promote.go:113-183 | a refusal in a later round has its cause in the pool the loop started from: the unknown dataset was a dependent on entry |
| `DetachLoop.UniqueAlong` | internal/controller/promote.go:174-176 | pool-wide uniqueness of short names is kept by every command |
| `DetachLoop.ConflictIsAmbiguous` | internal/zpool/memzfs/mem.go:317-322 | a promote conflicts only if a short name exists twice |
| `DetachLoop.RetryDetach` | internal/controller/promote.go:41-46 | if the dependents are known, k calls take off 100 snapshots each or finish, so with fewer than 100k snapshots k calls are enough |
| `Lifecycle.LocateRawMeans` | internal/controller/rawlocate.go:32-61 | on any pool the lookup of a raw snapshot finds one of that name that exists; it finds one if it is on the backing clone or where it was recorded, and that one if it is the backing clone's origin or there is no backing clone |
| `Lifecycle.LocateFinds` | internal/controller/rawlocate.go:32-61 | for any object that has not released its snapshot the constant-time lookup finds it; afterwards it finds nothing or a marked one |
| `Lifecycle.AppearsKeepsInv` | internal/controller/zfssnapshot_controller.go:356-393 | a new volume, snapshot, clone or restore keeps the ownership invariant |
| `Lifecycle.MarkKeepsInv` | internal/controller/zfssnapshot_controller.go:284-305 | marking a name that was looked up earlier keeps who holds what, and leaves the object with nothing to lose exactly if the name still exists or no unmarked snapshot of that name has a clone |
| `Lifecycle.MarkAtOnceIsTimely` | internal/controller/zfsdataset_controller.go:374-397 | a mark that directly follows its lookup is always in time |
| `Lifecycle.PartingStays` | internal/controller/zfssnapshot_controller.go:261-282 | who has nothing to lose keeps it so through everything the others do |
| `Lifecycle.NothingToDrop` | internal/controller/promote.go:139-154 | once an object has given up its snapshot, every snapshot on its dataset has a clone: the detach of the closed world only promotes |
| `Lifecycle.DropKeepsInv` | internal/controller/promote.go:148-154 | the only snapshot a delete ever drops is its own, that its mark missed and nothing clones; that gives it up |
| `Lifecycle.NeverConflicts` | internal/controller/promote.go:174-176 | in the closed world no promote meets a name conflict |
| `Lifecycle.PromoteKeepsInv` | internal/controller/promote.go:162-178 | promoting any dependent away from a terminating object's dataset keeps every other object's snapshot on its dataset or as its origin |
| `Lifecycle.TameKeepsInv` | internal/controller/promote.go:174-178 | promoting any clone, whoever picked it when, keeps the invariant if the object of the dataset it hangs off gave up its own snapshot, has none, or that snapshot stays or is the one the clone came from |
| `Lifecycle.PromoteKeepsInvExactlyIfTame` | internal/controller/promote.go:174-178 | and only then: this is the exact condition |
| `Lifecycle.DestroyKeepsInv` | internal/controller/zfsdataset_controller.go:129-134 | the final destroy keeps the invariant |
| `Lifecycle.NextKeepsInv` | internal/controller/lifecycle_test.go:242-295 | every lookup and every single command of every create and delete, if in time for what was read before it, keeps the ownership invariant |
| `Lifecycle.NextKeepsBothExactlyInTime` | internal/controller/lifecycle_test.go:242-295 | and only then are both kept, who holds what and that a delete past its mark has nothing to lose |
| `Lifecycle.RunKeepsInv` | internal/controller/lifecycle_test.go:242-295 | the ownership invariant holds in every state of every run in which nothing comes too late, deletes stopped anywhere and re-run included |
| `Overtaken.OvertakenPickIsHarmless` | internal/controller/promote.go:139-178 | a dependent is picked, and any number of lookups and commands of other creates and deletes follow; if the dataset is still there, promoting it then is in time and keeps the invariant, also where it hangs off a live object by now |
| `Collision.TwoPicksCollide` | cmd/zpool-discovery/main.go:107-125 | from every reached state with such a chain of clones, two deletes that wait to promote the same dataset, one after the other, leave a live directly cloned volume without its clone snapshot |
| `Collision.KnotIsReached` | internal/controller/zfsdataset_controller.go:317-361 | such a state is reached from every empty driver world, under any names |
| `Ghosts.Emptied` | internal/controller/promote.go:113-183 | on every well-formed pool with unique short names the loop can empty every dataset |
| `Ghosts.LateMarkLeavesAGhost` | internal/controller/zfssnapshot_controller.go:291-305 | from every state in which a mark comes too late, its delete, by itself, goes on to the end and leaves an unmarked snapshot without an owner, which the checks of the lifecycle tests report |
| `Ghosts.LateMarkIsReached` | internal/zpool/zfs.go:224-234 | such a state is reached from every empty driver world, under any names, by the lookup and one promote of the other controller |
| `Ghosts.DropIsReached` | internal/controller/promote.go:148-154 | a delete whose mark missed and that drops its own snapshot later is reached too |
| `Guarantees.EveryRunVerifies` | internal/controller/lifecycle_test.go:242-295 | in every state of every run in which nothing comes too late: live volumes and backing clones exist, live snapshots are found and unmarked, every dataset belongs to an object, and every snapshot belongs to one or is marked and pinned by a clone |
| `Guarantees.DrainedLeavesTheFloor` | internal/controller/lifecycle_test.go:297-332 | with no object left after such a run the pool is the one the run began with |
| `Guarantees.LocateAgreesWithScan` | internal/controller/rawlocate.go:18-61 | the lookup finds the one snapshot a scan of the whole pool finds, cut at the object's creation and unmarked |
| `Guarantees.InstantIsForever` | internal/controller/zfssnapshot_controller.go:307-318 | in every run an object stands for one instant as long as it exists |
| `Guarantees.RestoreClonesTheInstant` | internal/controller/zfsdataset_controller.go:401-434 | whatever was deleted or promoted in between, a restore is a clone of the snapshot cut when the ZfsSnapshot was made |
| `Guarantees.LiveIsUnharmed` | internal/controller/zfssnapshot_controller.go:284-305 | no command of anybody's delete, if in time, touches a live object: its dataset stays and its snapshot is found, unmarked, of the same instant |
| `Shapes.NatureIsForever` | internal/controller/promote.go:113-183 | in every run a dataset keeps its kind, size and properties as long as it exists |
| `Shapes.VolumeIsAsAsked` | internal/controller/zfsdataset_controller.go:261-276 | in every run a volume that was created has the kind and size asked for, as long as it exists |
| `Shapes.CloneIsLikeItsSource` | internal/controller/zfsdataset_controller.go:317-361 | in every run a direct clone and a backing clone have the kind and size of the volume they were made from, whatever was promoted or deleted since |
| `Shapes.RestoreIsLikeItsSource` | internal/controller/zfsdataset_controller.go:317-333 | and a restore those of the volume its snapshot was taken of, also if that is gone by then |
| `Shapes.BackingIsOfSnapshots` | internal/controller/zfssnapshot_controller.go:374-387 | in every run whose creates label as the driver does, the dataset of an object is a backing clone exactly if the object is a ZfsSnapshot |
| `Driver.Driver.constructor` | internal/controller/lifecycle_test.go:78-104 | taking over a pool starts a run |
| `Driver.Driver.Roles` | internal/controller/zfssnapshot_controller.go:374-387 | in every state of the driver the dataset of an object is a backing clone exactly if the object is a snapshot |
| `Driver.Driver.CreateVolume` | internal/controller/zfsdataset_controller.go:261-276 | a volume appears, or nothing changes for a zvol without a size |
| `Driver.Driver.CreateSnapshot` | internal/controller/zfssnapshot_controller.go:356-393 | a raw snapshot and its backing clone, of the kind and size of the volume, appear together, on a run |
| `Driver.Driver.CreateClone` | internal/controller/zfsdataset_controller.go:317-361 | a directly cloned volume of the kind and size of its source, and its clone snapshot, appear, on a run, also from a source that is being deleted |
| `Driver.Driver.CreateRestore` | internal/controller/zfsdataset_controller.go:317-333 | a restore clones the raw snapshot where the lookup finds it, and is of the kind and size of the backing clone; the lookup never fails for a live snapshot |
| `Driver.Driver.Delete` | internal/controller/zfsdataset_controller.go:99-105 | only the deletion mark changes |
| `Driver.Driver.LookOwn` | internal/controller/rawlocate.go:32-61 | the lookup finds the snapshot where it is, or there is none to give up |
| `Driver.Driver.ReleaseOwn` | internal/controller/zfsdataset_controller.go:374-397 | lookup and mark with nothing in between: afterwards every snapshot of that name is gone or marked, before anything is promoted |
| `Driver.Driver.DetachHome` | internal/controller/promote.go:86-92 | emptying an object's dataset is never refused and destroys no snapshot: each survives with its content and its number of clones; every command is a step of the run |
| `Driver.Driver.DestroyOwn` | internal/controller/zfsdataset_controller.go:129-134 | the non-recursive destroy meets no snapshot, child or outside clone |
| `Driver.Driver.Remove` | internal/controller/zfsdataset_controller.go:129-143 | the emptied dataset and then the object are gone, unless stopped before the one command |
| `Driver.NothingToRefuse` | internal/controller/promote.go:130-134 | in the closed world there is no foreign snapshot, no unknown clone and no ambiguous name |
| `Driver.DetachKeepsAll` | internal/controller/promote.go:113-183 | however far such a detach got, every snapshot of the pool survives it |
| `Driver.Driver.ReconcileDelete` | internal/controller/zfssnapshot_controller.go:240-282 | one pass, stopped after any number of commands, is part of a run; it ends early only when stopped or when 100 snapshots were taken off |
| `Driver.Driver.DeleteUntilGone` | internal/controller/zfsdataset_controller.go:102-143 | repeated, a delete always finishes |
| `Driver.Driver.DeleteEverything` | internal/controller/lifecycle_test.go:297-332 | deleting all objects in any order ends with the pool as it was found |
| `Groups.Preserved` | internal/controller/zfsgroupsnapshot_controller.go:144-311 | every read and write of a pass, every crash, source deletion, group deletion and outside delete keeps: the raw snapshots there are share one instant, and children come only after a cut |
| `Groups.OncePreserved` | internal/controller/zfsgroupsnapshot_controller.go:144-274 | every step but the outside delete of the one child keeps: if its raw snapshot is lost then so is its source, as long as the group may still be provisioned |
| `Groups.CutAtMostOnce` | internal/controller/zfsgroupsnapshot_controller.go:139-228 | in every run in which the child of at least one member is never deleted from outside, the group is cut at most once |
| `Groups.OneInstant` | internal/controller/zfsgroupsnapshot_controller.go:200-228 | in every run the raw snapshots that exist share one txg, and children and provisionedAt come only after a cut |
| `Groups.NeverFilled` | internal/controller/zfsgroupsnapshot_controller.go:194-214 | in every run raw snapshots appear all together where there was none, never to complete a partial set; nothing appears once provisionedAt is set |
| `Groups.CutExactly` | internal/controller/zfsgroupsnapshot_controller.go:198-214 | the cut takes all members at one new txg exactly if no raw snapshot is left and no source is gone; otherwise it takes none |
| `Groups.GoneHasNoRaw` | internal/controller/zfsgroupsnapshot_controller.go:200-214 | in every run a source that is gone has no raw snapshot |
| `Provisioning.GroupIsProvisioned` | internal/controller/zfsgroupsnapshot_controller.go:144-228 | a group of any size whose sources are there is provisioned, by a run with one cut, with a raw snapshot and a child for every member |
| `Provisioning.CompleteIsAdopted` | internal/controller/zfsgroupsnapshot_controller.go:194-228 | from every state with all raw snapshots there, the next pass provisions the group without another cut |
| `Provisioning.ProvisionedExactly` | internal/controller/zfsgroupsnapshot_controller.go:282-305 | in every run provisionedAt is set by the end of a pass that read every child and found each ready, as the actions say, and by nothing else |
| `Provisioning.JudgedExactly` | internal/controller/zfsgroupsnapshot_controller.go:166-214 | in every run a pass adopts exactly if it found all raw snapshots, cuts exactly if it found none, and is refused otherwise |
| `Provisioning.UnfinishedIsCleared` | internal/controller/zfsgroupsnapshot_controller.go:317-362 | from every state of a group that is deleted before provisionedAt, its deletion can leave no raw snapshot and no child |
| `Provisioning.ForgottenIsCut` | internal/controller/zfsgroupsnapshot_controller.go:179-198 | from every state with no raw snapshot left, all sources live and the group not provisioned, of any size, the next pass cuts it, again if it was cut before |
| `Provisioning.OutsideDeletesCutAgain` | internal/controller/zfsgroupsnapshot_controller.go:179-198 | for a group of any size a run with two cuts: all children are deleted from outside before provisionedAt |
| `Attach.OldestAttachNode` | internal/controller/zfsshareattachrequest_controller.go:338-367 | the node of the active request with the least timestamp, and among those the least name: a proper prefix, or the lesser character where the two first differ; in whatever order they are listed; none exactly if none is active |
| `Attach.LessIsSooner` | internal/controller/zfsshareattachrequest_controller.go:349-362 | the order of names is that of their first differing character, a proper prefix first |
| `Attach.Preserved` | internal/controller/zfsshareattachrequest_controller.go:96-155 | every read, share write, status patch, creation, deletion and crash keeps: who is ready is the winner, and the share allows nobody else |
| `Attach.OneNodeAtATime` | internal/controller/zfsshareattachrequest_controller.go:276-300 | in no state of any run are two waiting requests ready, and the share never allows a node while another's request is ready, if no new request sorts before the one that is ready or that the worker is about to make ready |
| `Attach.BornLaterIsLater` | internal/controller/zfsshareattachrequest_controller.go:349-362 | a request made in a later second than all that wait disturbs nobody |
| `Attach.WinnerIsForemost` | internal/controller/zfsshareattachrequest_controller.go:338-367 | of all that wait the winner has the least timestamp, and the least name among those |
| `Attach.SomeWinner` | internal/controller/zfsshareattachrequest_controller.go:338-367 | where somebody waits there is one |
| `Attach.WinnerIsServed` | internal/controller/zfsshareattachrequest_controller.go:96-155 | from every state, whatever the worker is doing, the winner can be made ready and gets the share |
| `Attach.ReadyExactly` | internal/controller/zfsshareattachrequest_controller.go:125-152 | one pass on behalf of a request leaves it ready exactly if it was the winner and the share was ready for its generation or not needed, and touches no other |
| `Attach.ReadyIsBacked` | internal/controller/zfsshareattachrequest_controller.go:132-147 | in every run a request is ready only after its share was written for it as the winner and found ready, or none was needed |
| `Attach.LeaverHasFinalizer` | internal/controller/zfsshareattachrequest_controller.go:103-124 | in every run a request that terminates has its finalizer |
| `Attach.LeaverIsReleased` | internal/controller/zfsshareattachrequest_controller.go:103-116 | such a request can always go, and takes nobody else's with it |
| `Attach.EarlierRequestSteals` | internal/controller/zfsshareattachrequest_controller.go:349-362 | conversely, from every such state, whatever the worker is doing, a request that sorts before one of those leads to both being ready |
| `Gating.GateStep` | internal/controller/zfsshare_controller.go:86-127 | every get, render, list, apply and patch, in any interleaving, with restarts and moves of the pool, keeps: a status that claims the current generation is backed by the table of the pinned node, if it was written since the last move |
| `Gating.HolderStep` | internal/controller/nfs_controller.go:36-100 | every such step keeps: what an exporter left behind has in hand is of an older generation and will not mark the export Exported |
| `Gating.BoundIsServed` | internal/controller/zfsshare_controller.go:97-127 | in every run, wherever the pool has been, a share Bound for its current generation is served by the node its export is pinned to, to exactly the nodes it allows, if its status was written since the last move, no exporter was left behind by a move while it was going to mark the export, and nobody deletes the export by hand |
| `Gating.ReadyIsServed` | internal/controller/zfsshareattachrequest_controller.go:133-152 | a request is made ready only while its share allows what was written for it and is served to exactly those, under the same condition at the write |
| `OpenGate.PoolMoveOpensTheGate` | internal/controller/zfsshare_controller.go:81-94 | from every bound share, moving the pool leads to a state where it is still bound, its status is not yet written again, and its new node does not serve it |
| `OpenGate.LeftBehindOpensTheGate` | internal/controller/common.go:72-97 | from every move that leaves an exporter behind that is going to mark the export, wherever it is, the share becomes Bound by a status written after the move though its node does not serve it, because a merge patch carries only what the writer changed |
| `OpenGate.HandDeleteOpensTheGate` | internal/controller/nfs_controller.go:36-54 | from every bound share that allows somebody, a delete of the export by hand leaves it Bound and not served |
| `OpenGate.BoundIsReached` | internal/controller/nfs_controller.go:36-70 | a bound share is reached by a run that meets all conditions |
| `OpenGate.ReadyIsReached` | internal/controller/zfsshareattachrequest_controller.go:132-147 | a request about to be made ready under that condition is reached from every such bound share, by writing the same allow-list again |
| `OpenGate.LeftBehindIsReached` | internal/controller/nfs_controller.go:36-70 | a move that leaves an exporter behind is reached |
| `Exports.DeletionStep` | internal/controller/nfs_controller.go:36-70 | every step keeps: what an exporter holds of an export is its present state if the version is the same, and a deleting export is in no row |
| `Exports.VanishingStep` | internal/controller/nfs_controller.go:42-52 | an export with a finalizer disappears only by its own node's release |
| `Exports.DeletedIsUnexported` | internal/controller/common.go:22-37 | from the moment such an export's object is gone, because of its share or by hand, its node does not serve it, through other renders, restarts and pool moves, until it is made again |
| `OpenGate.DeletedCanGo` | internal/controller/nfs_controller.go:42-52 | from every state an export that is being deleted can go, and its node does not serve it then |
| `OpenGate.ListedAsBad` | internal/controller/nfs_controller.go:82-89 | a listing finds wrong exactly the exports of the node that name no client and are not being deleted |
| `OpenGate.NamelessIsRefused` | internal/controller/nfs_controller.go:82-109 | from every state such an export can be marked Error for its generation, and its node keeps no row for it |
| `Migrate.AlikeClaims` | internal/migrate/migrate.go:202-258 | who owns what is left does not depend on labels, stamps, source types or old self-snapshots |
| `Migrate.StepWanted` | internal/migrate/migrate.go:156-321 | carrying out one action takes just that one off the next audit's list, and the labels of a snapshot it destroyed |
| `Migrate.StepUnblocked` | internal/migrate/migrate.go:140-151 | carrying out any wanted action that can be carried out blocks nothing |
| `Migrate.NamesakeOfACloneBlocks` | internal/migrate/migrate.go:202-247 | a ZfsSnapshot named like the clone snapshot of a ZfsDataset blocks the audit |
| `Migrate.DoomedIsDestroyed` | internal/migrate/migrate.go:244-306 | for every owned raw snapshot named `restore-source` that is unmarked, without a clone and lacks a label, one plan has both its destruction and that label, and the label can then not be set |
| `Migrate.SoundLosesNoLabel` | internal/migrate/migrate.go:270-306 | without such a snapshot no action destroys what another one labels |
| `Migrate.SoundStays` | internal/migrate/migrate.go:324-344 | and carrying out an action makes none |
| `Audit.DirIsPath` | internal/migrate/migrate.go:165-191 | a directory is its components one below the other, and no two are the same path |
| `Audit.OwnSnapshotsAreDue` | internal/migrate/migrate.go:216-219 | the snapshot the driver cuts for a direct clone, under its own name, is to be labelled as the clone origin of that volume |
| `Audit.RawSnapshotIsDue` | internal/migrate/migrate.go:236-240 | and the one snapshot named after a ZfsSnapshot as its raw snapshot |
| `Audit.ClaimedIsDue` | internal/migrate/migrate.go:202-258 | who owns what, said over names: volumes their dataset, snapshots called "clone-" and a volume's name that volume, the one snapshot named after a ZfsSnapshot that one, and the dataset of its name beside its source |
| `Audit.BlockedExactly` | internal/migrate/migrate.go:163-306 | blocked exactly by an unknown pool, an object with two claims, an ambiguous raw name, a source type nobody knows, a label that differs, or an old self-snapshot on a dataset not owned |
| `Audit.WantedExactly` | internal/migrate/migrate.go:220-306 | what is asked for, over the same names and fields |
| `Audit.CleanExactly` | internal/migrate/migrate.go:150-151 | nothing blocks and nothing is asked for exactly if all due labels are there, all settled objects are stamped, all source types are set and no old self-snapshot is unmarked |
| `Migration.Gather` | internal/migrate/migrate.go:202-258 | the claims recorded are all there are, one on each name, and a conflict is reported exactly if two disagree |
| `Migration.SelfSnapshots` | internal/migrate/migrate.go:270-282 | exactly the unmarked old self-snapshots on owned datasets, blocked exactly by one that is not |
| `Migration.Labels` | internal/migrate/migrate.go:284-306 | exactly the missing labels, blocked exactly by a wrong one |
| `Migration.Compute` | internal/migrate/migrate.go:156-321 | blocked exactly if something is; otherwise each action that the names and fields ask for once, and no other |
| `Migration.OneDone` | internal/migrate/migrate.go:324-344 | after the first action of a plan the rest of it is the plan of the new state, but for labels of a snapshot that is gone |
| `Migration.Migrator.Apply` | internal/migrate/migrate.go:324-344 | run completely or interrupted anywhere, what is left of the plan is what the next audit asks for; no label is overwritten, no dataset and no cloned snapshot is gone, and no field of an object changes but a missing stamp or source type; a complete run succeeds exactly if no such snapshot exists, and if it fails there is none any more |
| `Migration.Migrator.Migrate` | cmd/zfs-migrate/main.go:143-178 | for every cluster: blocked, nothing is changed; otherwise, interrupted anywhere any number of times and then completed, the audit afterwards is clean, with every label, stamp and source type in place, or the run stopped at the one label and the next run ends clean |
| `Nvmet.Target.EnsurePort` | internal/nvmet/configfs.go:118-140 | the port has the configured attributes; something is written exactly if one differed |
| `Nvmet.Target.LinkHosts` | internal/nvmet/configfs.go:253-272 | host objects, keys and links exist for the whole list, written only where they were missing |
| `Nvmet.Target.EnsureNamespace` | internal/nvmet/configfs.go:221-243 | the namespace serves the device, enabled; the device changes only while it is disabled, and an unchanged value is never written |
| `Nvmet.Target.EnsureSubsystem` | internal/nvmet/configfs.go:203-251 | fails exactly if the kernel refuses to allow any host, and then changes nothing; quiet exactly if the subsystem and its hosts were right; only host objects are written if the subsystem was |
| `Nvmet.Target.RemoveSubsystem` | internal/nvmet/configfs.go:288-312 | the subsystem and its link are gone and nothing else changed, in an order the modelled kernel accepts |
| `Nvmet.Target.Reconcile` | internal/nvmet/configfs.go:144-184 | from any well-formed tree: succeeds exactly if no wanted subsystem is to allow any host while hosts are linked to it. Then exactly the wanted subsystems exist and are right, those right before are not written to, nothing is written exactly if nothing differed, and the tree is settled exactly if each host has one key. Otherwise each is right or as it was, and every later attempt fails too |
| `Nvmet.OpenExactly` | internal/nvmet/configfs.go:209-222 | once settled, a subsystem exists exactly if it is wanted, is open to everyone exactly if it names no host, and else to exactly the hosts named |
| `Nvmet.SettledIsNotBarred` | internal/nvmet/configfs.go:209-222 | a settled tree is never refused |
| `Nvmet.LastOneWins` | internal/nvmet/configfs.go:149-152 | of several with one name the last one is wanted |
| `Nvmet.HostsNeedOneKey` | internal/nvmet/configfs.go:262-267 | two keys for one host object are never both in place |
| `Nvmet.EmptiedListIsBarred` | internal/nvmet/configfs.go:209-222 | emptying an allow-list that is in place is always such a case |
| `Nvmet.RightTreesLookAlike` | internal/nvmet/configfs.go:142-184 | what initiators see is fixed by what is wanted |
| `Nvmet.Target.ReconcileAndRebuild` | internal/nvmet/configfs.go:142-184 | a tree reconciled in place, if that is not refused, and one reconciled from nothing, which never is, look the same to initiators |
| `Sizes.AlignUpIsLeast` | internal/controller/zfsdataset_controller.go:500-513 | the least multiple of the block not below the size exactly if that fits in an int64; beyond, the sum overflows to a negative number |
| `Sizes.AlignUpOtherwise` | internal/controller/zfsdataset_controller.go:500-513 | without a block size the size itself, and never less than zero |
| `Sizes.Zvol.EnsureSize` | internal/controller/zfsdataset_controller.go:469-483 | never shrinks, reaches the size if it can be reached, and writes only to grow |
| `Sizes.Zvol.Follow` | internal/controller/zfsdataset_controller.go:451-485 | over any history of sizes the volume only grows, holds each size that can be reached, and following it again writes nothing |

## Left out

- Kubernetes plumbing: client, informer caches, watches, conflict retries, conditions, events and error texts. Reads are authoritative; stale caches are not modelled.
- Several pools and nested layouts: the lifecycle is on one pool, with all volumes and backing clones directly under one dataset.
- Reuse of names: a name given out once is never given out again, as the generated object names are.
- Interrupted creates that are then deleted: a create is one step, because such a run can leave an unmarked clone snapshot behind.
- Restores whose lookup is out of date: the clone of a name that is gone fails and is tried again.
- Liveness of two dying datasets that clone each other while both controllers run at once: only safety is claimed across interleavings; `Driver` finishes deletes one at a time.
- Labels on snapshots, `SetProperty`, `Get` and `List` of the in-memory ZFS, its injected failures and busy zvols: a failing command is a delete that stops there.
- Order of clones in a listing: a set, so the pick among clones of one age is any of them; snapshots cut in one txg are in any order.
- Removed or renamed sources, `Lost` snapshots and the settled branch of the snapshot controller: no zfs command is issued there.
- Members of a group as objects of the lifecycle: the group protocol is modelled by itself, and a raw snapshot is present when it is where the reconciler looks for it.
- Groups without members: not modelled, the code indexes the first one.
- `activeNodes`, multi-node volumes and node addresses: an allow-list is a set of nodes and any set may be written.
- NVMe-oF exports in the gating protocol: the exporter is the NFS one, and a table maps a volume to the nodes it is exported to.
- A share deleted and made again under its name: a status patch computed before the deletion would be applied to the new share, so one incarnation of each share is assumed.
- Removal from the old node when a pool moves: the old node is not told, so nothing is claimed about its table.
- Failing filesystem calls of the nvmet reconciler, but for the kernel refusing to allow any host while hosts are linked: each other call succeeds. What else the kernel refuses are preconditions, proved at every call: making or linking what exists, linking a host that does not exist or while any host is allowed, changing the device of an enabled namespace, and removing a subsystem that is linked or not empty.
- Other contents of the 0/1 attribute files than 0 and 1.
- Times of stamps, findings that do not block, and counters of the migration; what a blocked plan lists is left open.
- Filesystem quotas and the parsing of sizes and block sizes.
- Growing a volume, and labels set after the create, in the lifecycle: kinds, sizes and properties there are those of the create; `Sizes` models growing by itself.
- Scrub jobs, discovery, pool watcher, mounting, NVMe connect, NFS daemon, CSI front end, DH-CHAP key generation: input and output, or easy.
- MemZfs.Mem.SortedSnaps: does not order snapshots of one txg by name, because no property depends on that order.
- MemZfs.InsertByAge: does not order snapshots of one txg by name, for the same reason.
- MemZfs.Mem.Destroy: does not model the busy answer for a zvol that was just made; a command that fails is a delete that stops there.
- DetachLoop.Pick: does not order clones of one snapshot by name, so what holds holds of every choice among them.
- DetachLoop.OfDriverMeans: does not exclude names with a line break, which the expression of the code does and ZFS does not allow anyway.
- DetachLoop.AllKnown: takes the set of known datasets as it is; that the driver's is made of its objects is in `Driver.Driver.DetachHome`.
- Overtaken.OvertakenPickIsHarmless: the other deletes promote what they have just read; `Collision.TwoPicksCollide` is why.
- Gating.BoundIsServed: excludes exports deleted by hand while their share exists; `OpenGate.HandDeleteOpensTheGate` is why.
