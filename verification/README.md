# The grootfs store, modelled and verified

grootfs keeps container images in a store: every layer of an image is unpacked into a volume of its own, volumes are
stacked with an overlay mount, and volumes that no image needs are cleaned up. Creates, deletes and cleans of many
processes share one store and coordinate through `flock` and through the order of their file-system calls.

`dafny verify dfyconfig.toml` checks the whole project.

## What is modelled

**The store protocol** (`Protocol`, `Invariant`, `Locking`, `ClaimProofs`, `Surviving`, `Imaging`, `Publishing`,
`CleaningProofs`, `Indexing`, `Stepping`, `Safety`, `Registering`, `Reclaiming`, `Interrupted`, `History`, `Progress`). A
state machine over the volume directories, link files, short-id symlinks, metadata, images, dependency files and the flock
table. Each step is one file-system or flock call of one process. Fetch, owner, unpack, opaque-attribute, metadata and
registration failures, images that cannot be unmounted, lock timeouts and failing scans are ordinary steps. A crash event
ends any process at any call: its flocks go, its half-done work stays. It stands for a killed process, for a clean that
runs into its time limit, and for one that cannot list the volumes it should collect. A chain id is written as the list of
diff ids it stands for, so that its length is the depth of its layer; module `ChainIds` shows that the hashed names
determine these lists, and that file names tell volumes apart.

The main theorems speak of every finite run. With crashes anywhere: GC safety, what exactly a clean reclaims, that images
stay registered, single publication, deadlock freedom, and that every run can wind down. As long as no clean is cut off
while a gc volume exists, whatever else crashes: ancestor closure, atomic publication, and that no rename meets an
existing volume. As long as nothing crashes: the index is in bijection when all processes have ended. `Interrupted` has
runs which show that the second group fails without its hypothesis, and which images GC safety has to leave out.

**The volume driver** (`Disk`, `Volumes`, `Drivers`, `Names`). The driver's operations, one file-system call at a time.
The same steps serve the protocol, where they interleave, and the class `Drivers.Driver`, whose methods are proved to do
what the steps do when run to the end. `Names` is about the file names the code derives by string replacement.

**Sequential operations on a store** (`Images`, `Pulling`, `Stores`, `GarbageCollection`, `Cleaners`, `Measuring`). Classes
with the source's methods: creating an image with its roll-backs and the clean it starts, deleting it, finding orphans,
marking, collecting, and measuring.

**Unpacking and stacking** (`Trees`, `Unpacking`, `Overlay`, `Changesets`, `Layers`, `Stacking`, `Archives`). Unpacking an
archive into a volume as the unpacker does it, looking a path up through a stack of volumes as an overlay mount does it,
and the sections "Applying Changesets" and "Whiteouts" (with "Opaque Whiteout") of the OCI image specification's layer
document as the reference that both together meet.

**Arithmetic and formats** (`ChainIds`, `Quota`, `ProjectIds`, `DiskLimit`, `Namespacer`, `IdTranslator`, with `Decimals`,
`Sorting` and `Listings`). Chain ids and what they determine, the byte-limited reader and the quota across layers,
project-id allocation alone and under interference, the disk limit, the stored id mappings, and id translation.

## What turned out not to hold

- A clean that is cut off while a gc volume exists, by a crash or by its own time limit, leaves gc volumes behind, and can
  leave a layer published without its parent or without its link file (`Interrupted.CutOffClean`). A later clean may then
  rename a layer onto a gc volume that is still there, after which the layer has a directory but no link file
  (`Interrupted.MarkedOntoLeftover`). No finished image is harmed (`Safety.GcSafety`). `Safety.NoGcIff` says that gc volumes
  outlive their clean exactly if some clean was cut off while one existed, and unless that has happened the rest does not
  either (`Safety.AncestorClosure`, `Safety.AtomicPublication`, `Safety.RenamesAreFresh`); a clean that is cut off with
  nothing marked does no harm.
- When a create crashes, or fails to undo its work, before it has registered its image, the image stays. It keeps its base
  volumes all the same, unless a delete of the same id crashed earlier and its old dependency file does not list all layers
  of the new image: then a clean can take layers from it (`Interrupted.ExposedImageLosesLayer`). `Safety.LeftBehindOnly`
  says exactly which images are exposed to this; `Safety.GcSafety` covers all others.
- A clean does not reclaim everything that no image needs. It reclaims a volume exactly if that has a link file and no gc
  volume of its name was left over (`Reclaiming.Reclaimed`). A temporary volume whose create was killed inside
  `CreateVolume`, after making the directory and before writing the link file (`Interrupted.StopHalfMade`), stays for ever
  (`Reclaiming.HalfMadeStays`).
- A delete removes the image first and its dependency file later, without a lock. If a create completes a new image of the
  same id in between, the delete takes the new image's dependency file, and from then on cleans find nothing unused
  (`Registering.Unregistered`). `Registering.CompletedRegistered` says that this is the only way in which a completed image
  loses it.
- `MoveVolume` onto an existing volume returns success after the link file and symlink have moved
  (`Volumes.MoveOntoExisting`); `Volumes.MoveCoherentIff` says exactly when a move keeps the index.
- The rename target of a marked volume, and the path a whiteout hides, come from replacing a first occurrence in a
  whole path; `Names.MarkTarget` and `Names.WhiteoutTarget` say exactly when that is right.
- A layer that whites a path out and also adds it as a directory unpacks without error and loses the directory
  (`Layers.WhiteoutThenDirectory`); with a symlink in its place nothing is lost (`Layers.WhiteoutThenSymlink`).
  `Layers.LayerAgreesIff` says exactly for which layers, among all that unpack, the volume shows what the layer means, and
  `Changesets.PlaceAgrees` the same of one member.
- Chain ids are hashed from bare hexadecimal digits, while section "Layer ChainID" of the OCI image specification's
  config document hashes digests with their algorithm prefix. They determine layers for archives
  (`ChainIds.IdsDetermineLayers`), not for arbitrary contents (`ChainIds.ConfusedWithoutArchives`).
- When changing the owner of a new image fails, the deferred clean-up does not see the error: the image stays without a
  dependency file (`Images.ImageManager.Create`), and from then on cleans find nothing unused
  (`Cleaners.UnregisteredProtects`). A create that crashes before it registers its image leaves the same.
- A create that collides with an existing image directory destroys it (`Images.ImageManager.Create`).
- `translateID` subtracts 1, not the namespace start, and sends id 0 to the host id of the first mapping of size 1, or to
  the host's root if there is none (`IdTranslator.RootUnmapped`). `IdTranslator.AgreeIff` says for every mapped id exactly
  when that is the kernel's translation.
- The committed space exceeds an inclusive limit exactly when the minimum quota does not fit beside the base volumes
  (`DiskLimit.LimitAndStats`).

## What is assumed

- No two creates in flight have the same image id: the existence check happens before the lock is taken, and
  `Protocol.MaySpawn` demands it.
- Generated short ids and temporary names do not repeat; link files, which are named by volume ids, and symlinks, which
  are named by short ids, do not have a name in common.
- The calls of `CreateVolume`, `MoveVolume` and `DestroyVolume` fail only where the model shows it: for a missing source,
  an existing target or missing metadata.
- Volume ids do not occur in the store's own path, and chain ids and temporary names do not start with the gc prefix;
  the first is what `Names.MarkTarget` asks for, the second is `ChainIds.GcPrefixIff`.
- For project ids: no two destroys of one image run at once, and a disk limit is applied once to an image.
- Integers are unbounded; sizes, quotas and ids of the source are 64-bit or 32-bit. The project-id search wraps around at
  32 bits, quota sums at 64.

## Model

| member | source | states |
|---|---|---|
| `Safety.GcSafety` | groot/cleaner.go:97-117 | With any number of creates, deletes and cleans interleaved at file-system-call granularity, any of which may crash or run into its time limit at any call, in every state of every run each finished image, unless exposed, has all its base volumes, with metadata and link files, and each short id in its lowerdir option is a symlink to the right volume |
| `Safety.CompletedReady` | groot/creator.go:117-131 | An image that no create in flight is still making, and that has not been left behind, is finished, so GcSafety speaks of every completed image; a dependency file under its id, if there is one, lists its layers |
| `Registering.CompletedRegistered` | groot/deleter.go:27-47 | And there is one, unless a delete that had removed an earlier image of the same id took it after this image was completed |
| `Registering.DepsAfterImage` | groot/deleter.go:34-44 | Whatever crashes, a process removes a dependency file only after it has itself removed the image of that id |
| `Registering.DeleteEnds` | groot/deleter.go:34-44 | A delete that ends without a crash removes the dependency file if and only if it has removed the image: an image that is not there, or cannot be unmounted, keeps its registration |
| `Registering.Unregistered` | groot/deleter.go:34-44 | A run in which a delete and a create of the same id overlap: an image that its create has completed ends up without a dependency file, with no process left |
| `Safety.LeftBehindOnly` | groot/creator.go:117-129 | An image is left behind only when the create that was making it crashes, or could not remove it or change its owner, before it was registered; and it is exposed exactly if an old dependency file that does not list all its layers is then under its id |
| `Interrupted.ExposedImageLosesLayer` | groot/deleter.go:27-47 | A run in which a delete crashes between removing the image and its dependency file, a create of the same id crashes before registering, and a clean then takes a layer from the image that was left |
| `Safety.NeededAtRest` | store/garbage_collector/gc.go:127-163 | While an image that is not exposed exists, no operation in flight works on a base volume it has, and one with a link file has its symlink too |
| `Safety.PublishedOnce` | base_image_puller/base_image_puller.go:241-252 | Whatever crashes, the rename that publishes a layer finds its source and no target, and the layer is then at rest |
| `Safety.UndoSparesOthers` | base_image_puller/base_image_puller.go:277-282 | Whatever crashes, the DestroyVolume of the chain id after a failed unpack removes no directory, and no link file, metadata or symlink of a volume that has one |
| `Safety.AncestorClosure` | base_image_puller/base_image_puller.go:141-177 | As long as no clean has been cut off while a gc volume existed, and while none holds the exclusive lock, every layer below a published layer is published, whatever else has crashed |
| `Safety.PullComplete` | base_image_puller/base_image_puller.go:97-107 | As long as no clean has been cut off while a gc volume existed, a create that has pulled its layers finds every one of them, however many other creates built and wherever buildLayer returned early |
| `Safety.AtomicPublication` | base_image_puller/base_image_puller.go:241-252 | As long as no clean has been cut off while a gc volume existed, and while none holds the exclusive lock, a layer whose directory exists has metadata, a link file and a symlink back to it, though creates look without a lock |
| `Safety.LowerDirsSucceed` | store/filesystems/overlayxfs/driver.go:502-529 | As long as no clean has been cut off while a gc volume existed, reading the lower directories never fails: the next step of a create that does so is not a roll-back |
| `Safety.RenamesAreFresh` | store/filesystems/overlayxfs/driver.go:349-359 | As long as no clean has been cut off while a gc volume existed, every rename of a volume directory, to publish or to mark, finds its source and no target: the "already exists" branch is never taken |
| `Safety.NoGcOutsideClean` | commands/clean.go:66-82 | As long as no clean has been cut off while a gc volume existed, no gc volume exists, as directory or link file, while no clean holds the GC lock |
| `Safety.NoGcIff` | commands/clean.go:66-82 | And exactly then: no gc volume has ever existed with the GC lock free if and only if no clean was cut off while a gc volume existed |
| `Interrupted.CutOffClean` | commands/clean.go:113-130 | A run whose last event stops a clean at its time limit: no process and no lock is left, but a layer is published without its parent and without its link file, and a gc volume remains |
| `Interrupted.MarkedOntoLeftover` | store/filesystems/overlayxfs/driver.go:349-359 | A run in which, after a clean was cut off, the next one renames a layer published again onto the gc volume that was left: success is reported, and the layer stays without its link file |
| `Reclaiming.Reclaimed` | groot/cleaner.go:97-117 | Whatever other processes do and wherever they crash: a clean that comes to its end, and whose scan did not fail, has taken away an unmarked volume that no dependency file listed while it scanned if and only if that had a link file and no gc volume of its name was left over; and no marked volume is left |
| `Reclaiming.MarkedIff` | store/filesystems/overlayxfs/driver.go:405-426 | Of the volumes that a clean has found, it has renamed, when it gives up the exclusive lock, exactly those with a link file and without a leftover under their gc name |
| `Reclaiming.AllCollected` | store/garbage_collector/gc.go:74-125 | A clean that comes to its end has collected every marked volume, also those that cut-off cleans had left |
| `Reclaiming.HalfMadeStays` | store/filesystems/overlayxfs/driver.go:170-193 | A temporary volume without a link file, of which no create knows any more, stays in every later state of every run: no clean can mark it |
| `Interrupted.StopHalfMade` | store/filesystems/overlayxfs/driver.go:170-193 | A run that leaves such a volume, by a crash within CreateVolume |
| `Safety.AtTheEnd` | store/locksmith/filesystem.go:92-96 | When no process is left, whatever has crashed: every lock is free, and every image that is not exposed is ready or left behind, and mountable if ready |
| `Safety.OrderlyAtTheEnd` | groot/cleaner.go:97-117 | If besides no clean was cut off while a gc volume existed: nothing is marked, and published layers are at rest, measured and closed under parent |
| `Safety.Quiescent` | store/filesystems/overlayxfs/driver.go:170-243 | If nothing crashed at all: link files, symlinks and directories are in bijection |
| `Safety.UndoHarmless` | base_image_puller/base_image_puller.go:277-282 | If nothing crashed, the DestroyVolume of the chain id after a failed unpack removes no directory, link file or symlink at all |
| `Safety.RunKeepsRobust` | groot/creator.go:86-131 | The robust invariant holds in every state of every run, with crashes of any process at any call |
| `Safety.RunKeepsOrderly` | groot/cleaner.go:97-117 | The orderly invariant holds in every state as long as no clean has been cut off while a gc volume existed |
| `Safety.RunKeepsTidy` | store/filesystems/overlayxfs/driver.go:170-243 | The tidy invariant holds in every state as long as nothing has crashed |
| `Stepping.StepKeepsRobust` | base_image_puller/base_image_puller.go:141-177 | Any step of any process keeps the flock table, what operations in flight need, the names of locked layers, and images backed and settled |
| `Stepping.CrashKeepsRobust` | store/locksmith/filesystem.go:70-96 | So does a crash of any process, whose flocks are released and whose half-done work stays |
| `Stepping.StepKeepsOrderly` | base_image_puller/base_image_puller.go:141-177 | Any step keeps closure, link files and metadata of published layers, and what creates have pulled and the running clean has found |
| `Stepping.CrashKeepsOrderly` | store/locksmith/filesystem.go:70-96 | So does a crash of any process, unless it is the clean that holds the GC lock and a gc volume exists |
| `Stepping.StepKeepsTidy` | store/filesystems/overlayxfs/driver.go:170-362 | Any step keeps every volume at rest except those an operation in flight accounts for, and each operation finds its entries exactly as it expects |
| `Safety.ReadyMountable` | store/filesystems/overlayxfs/driver.go:502-529 | The robust invariant makes a finished image mountable |
| `History.OnlyRenames` | base_image_puller/base_image_puller.go:241-252 | Whatever crashes, the directory renames of MoveVolume are the only events that make a layer appear or disappear |
| `History.PublicationBalance` | base_image_puller/base_image_puller.go:152-164 | In every run a layer has been published once more than marked if it exists, and as often if not |
| `History.SinglePublication` | base_image_puller/base_image_puller.go:152-164 | Between two publications of a layer lies a mark of it |
| `History.MarkedBetween` | store/garbage_collector/gc.go:47-72 | A layer that was there and is gone was marked in between |
| `Progress.DeadlockFree` | base_image_puller/base_image_puller.go:152-166 | In every reachable state with a process in it some process can take a step other than giving up on a lock |
| `Progress.WindsDown` | base_image_puller/base_image_puller.go:152-166 | Every run can be continued by steps alone, without a start, a crash or giving up on a lock, until no process is left |
| `Progress.ChainHolder` | base_image_puller/base_image_puller.go:156-160 | Following the holders of chain locks from a waiting create reaches a process that is not blocked |
| `Progress.SomeUnblocked` | commands/clean.go:66-82 | In every state with a process, one is not blocked: locks are taken in the order GC, global, chain from top to root |
| `Progress.StepsDecrease` | groot/cleaner.go:97-117 | Every step of a process strictly decreases a lexicographic measure of what it has left, whatever the others do |
| `Locking.StepKeepsLocks` | store/locksmith/filesystem.go:70-96 | Every step keeps the flock table in agreement with the processes: shared and exclusive holders exclude each other, each exclusive lock has one holder |
| `Locking.StepKeepsChains` | store/locksmith/filesystem.go:70-96 | A create holds exactly the chain locks from its lowest depth to its top, each alone |
| `Locking.CrashKeepsLocks` | commands/clean.go:72-82 | A crash releases exactly the locks of the crashed process |
| `ClaimProofs.ClaimsDisjoint` | base_image_puller/base_image_puller.go:152-164 | No volume name is worked on by two processes at once |
| `ClaimProofs.Claimant` | base_image_puller/base_image_puller.go:220-252 | Only a create that holds the chain lock, or made up the temporary name, or the clean works on a volume name |
| `Surviving.PublishedClaim` | store/garbage_collector/gc.go:47-72 | Whatever crashes, an operation in flight on a published layer belongs to the clean that holds the exclusive lock |
| `Surviving.StepKeepsSafe` | store/filesystems/overlayxfs/driver.go:170-362 | A step of one process leaves every other operation in flight what it needs, whatever has been left half done |
| `Surviving.StepKeepsIntact` | store/filesystems/overlayxfs/driver.go:321-362 | An unmarked volume with a directory and a link file that nobody works on has the symlink back to it |
| `Surviving.DropIntact` | store/filesystems/overlayxfs/driver.go:321-362 | Wherever an operation is cut short, the unmarked volumes it was working on are not left with directory and link file but without the symlink |
| `Publishing.PublishedAtRest` | store/filesystems/overlayxfs/driver.go:321-362 | In an orderly state without an exclusive holder a published layer has directory, link file and symlink in agreement |
| `Publishing.ClosedDown` | base_image_puller/base_image_puller.go:141-177 | Under ancestor closure all layers below a published one are published |
| `Publishing.StepKeepsPulled` | base_image_puller/base_image_puller.go:141-218 | Every step leaves each create its pulled layers, the metadata of the one it is publishing included |
| `Publishing.StepKeepsLinked` | store/filesystems/overlayxfs/driver.go:405-426 | Every step keeps a published layer's link file, unless the clean is just renaming it |
| `Publishing.StepKeepsClosure` | base_image_puller/base_image_puller.go:166-175 | Every step keeps published layers closed under parent while no clean holds the exclusive lock |
| `CleaningProofs.MarkingOk` | store/filesystems/overlayxfs/driver.go:405-426 | While an orphan is renamed the remaining orphans stay closed upwards, and no gc link file is left without its directory |
| `CleaningProofs.SpareChain` | store/garbage_collector/gc.go:149-156 | Removing the dependencies of an image from the orphans leaves them closed upwards, as dependencies are whole chains |
| `CleaningProofs.CleanerStepOk` | store/garbage_collector/gc.go:47-163 | A clean's own step keeps what it knows about orphans, marked volumes and closure |
| `CleaningProofs.StepKeepsClean` | groot/cleaner.go:97-117 | Every step of any process keeps what the running clean relies on, and no gc volume without one |
| `Imaging.StepKeepsReady` | store/filesystems/overlayxfs/driver.go:502-529 | Every step keeps the lower directories of all finished images backed by their volumes |
| `Imaging.StepKeepsSettled` | groot/creator.go:117-131 | Every image is being made, is exposed, or is ready with its own layers in any dependency file under its id, or left behind with at least its layers in it |
| `Imaging.StepKeepsSpared` | store/garbage_collector/gc.go:149-163 | What the clean with the exclusive lock has yet to mark is not needed by any image it has looked at |
| `Imaging.CrashKeepsImages` | groot/creator.go:117-131 | A crash leaves behind the image that the crashed create was making, and keeps all others as they were |
| `Indexing.StepKeepsRest` | store/filesystems/overlayxfs/driver.go:170-243 | While nothing crashes, every volume is at rest except those an operation in flight works on, and every symlink belongs to a link file or to such an operation |
| `Indexing.CreatorStepOk` | base_image_puller/base_image_puller.go:141-218 | While nothing crashes, a create again finds after its own step the entries its next call expects |
| `Disk.OpPreserved` | store/filesystems/overlayxfs/driver.go:170-243 | An operation whose entries are as expected never fails half way, except that a metadata rename needs metadata; its next call again finds its entries as expected |
| `Disk.OpFinished` | store/filesystems/overlayxfs/driver.go:321-362 | A finished operation leaves each of its ids with all entries in agreement or with none |
| `Disk.OpFrame` | store/filesystems/overlayxfs/driver.go:225-243 | A call leaves the entries of all other ids alone |
| `Disk.OpNoninterference` | store/filesystems/overlayxfs/driver.go:170-362 | Two operations on different ids do not disturb each other at any pair of calls |
| `Disk.SafePreserved` | store/filesystems/overlayxfs/driver.go:170-362 | The same where processes have crashed: an operation never fails half way through a move, and its next call again knows what it needs |
| `Disk.SafeFrame` | store/filesystems/overlayxfs/driver.go:225-243 | Even then a call leaves the entries of all other ids alone |
| `Disk.SafeNoninterference` | store/filesystems/overlayxfs/driver.go:170-362 | Even then two operations on different ids do not disturb each other |
| `Volumes.CreateCompletes` | store/filesystems/overlayxfs/driver.go:170-200 | CreateVolume run to its end adds directory, link file and symlink of one volume, or fails without a trace when the id is taken |
| `Volumes.MoveCompletes` | store/filesystems/overlayxfs/driver.go:321-362 | MoveVolume to a free name carries directory, link file and symlink along, or fails without a trace when there is no source |
| `Volumes.DestroyCompletes` | store/filesystems/overlayxfs/driver.go:202-243 | DestroyVolume always succeeds, removes every trace of its id and of nothing else |
| `Volumes.MoveOntoExisting` | store/filesystems/overlayxfs/driver.go:349-355 | MoveVolume onto an existing volume reports success, yet its source stays without a link file |
| `Volumes.MoveCoherentIff` | store/filesystems/overlayxfs/driver.go:321-362 | MoveVolume keeps the index a bijection exactly when it does not move one volume onto another |
| `Volumes.SequenceKeepsIndex` | store/filesystems/overlayxfs/driver.go:170-426 | Over any sequence of completed create, move, mark and destroy operations the link index stays a bijection onto the directories, and a volume that none of them names keeps all entries |
| `Volumes.CommandKeepsIndex` | store/filesystems/overlayxfs/driver.go:170-426 | One completed operation does so |
| `Drivers.Driver.CreateVolume` | store/filesystems/overlayxfs/driver.go:170-200 | The method leaves the store as running its file-system calls one by one does, failing where they fail |
| `Drivers.Driver.DestroyVolume` | store/filesystems/overlayxfs/driver.go:202-223 | The same for destroying |
| `Drivers.Driver.RemoveVolumeLink` | store/filesystems/overlayxfs/driver.go:225-243 | Removes the link file and the symlink it names, if there is one |
| `Drivers.Driver.MoveVolume` | store/filesystems/overlayxfs/driver.go:321-362 | The same for moving, including the half-done states in which it fails |
| `Drivers.Driver.MarkVolumeArtifacts` | store/filesystems/overlayxfs/driver.go:405-426 | Moves the volume to its gc name and then renames its metadata, failing if there is none |
| `Drivers.Driver.WriteVolumeMeta` | store/filesystems/overlayxfs/driver.go:389-403 | Records the size of one volume |
| `Drivers.Driver.Volumes` | store/filesystems/overlayxfs/driver.go:245-261 | Lists every volume once |
| `Drivers.Driver.GetLowerDirs` | store/filesystems/overlayxfs/driver.go:502-529 | Gives the short ids topmost first and the sum of sizes, exactly when every volume has directory, metadata and link file |
| `Names.MarkTarget` | store/filesystems/overlayxfs/driver.go:411-413 | Replacing the first occurrence of the id in the volume path gives the gc volume's path exactly when the id does not occur earlier in the path |
| `Names.MarkTargetMissed` | store/filesystems/overlayxfs/driver.go:411-413 | A store path that contains the id sends the marked volume elsewhere |
| `Names.WhiteoutTarget` | base_image_puller/unpacker/whiteout_handler_linux.go:17-21 | Removing the first ".wh." from a whiteout's path gives the path to hide exactly when none occurs earlier |
| `Names.DependencyFilesDistinct` | store/dependency_manager/dependency_manager.go:52-55 | Image ids without a slash have dependency files of their own |
| `Names.DependencyFilesClash` | store/dependency_manager/dependency_manager.go:52-55 | With slashes the escaping is not injective |
| `GarbageCollection.DependencyManager.Register` | store/dependency_manager/dependency_manager.go:22-29 | Writes the image's dependency file and no other |
| `GarbageCollection.DependencyManager.Deregister` | store/dependency_manager/dependency_manager.go:31-33 | Removes it, reporting whether it was there |
| `GarbageCollection.DependencyManager.Dependencies` | store/dependency_manager/dependency_manager.go:35-50 | Reads it back, or fails when it is missing |
| `GarbageCollection.GarbageCollector.UnusedVolumes` | store/garbage_collector/gc.go:127-163 | Lists, in some order, exactly the unmarked volumes that no listed image depends on; fails exactly when a listed image has no dependency file |
| `GarbageCollection.GarbageCollector.RemoveDependencies` | store/garbage_collector/gc.go:165-169 | Removes exactly the volumes an image uses |
| `GarbageCollection.GarbageCollector.MarkUnused` | store/garbage_collector/gc.go:47-72 | Marks the volumes in turn, going on after failures, and counts those |
| `GarbageCollection.GarbageCollector.Collect` | store/garbage_collector/gc.go:74-125 | Destroys exactly the volumes with the gc prefix, whatever the order of the listing, or nothing, with an error, if they cannot be listed |
| `GarbageCollection.MarkAllMoves` | store/garbage_collector/gc.go:47-72 | On a coherent store with free gc names every listed volume ends up under its gc name, even one counted as a failure for want of metadata; nothing else is touched; no failure exactly when all had metadata |
| `GarbageCollection.MarkAllKeepsTotal` | store/filesystems/overlayxfs/driver.go:405-426 | Marking carries each recorded size along to the gc name, and the sum over all volumes stays the same |
| `Cleaners.Locksmith.LockWithTimeout` | store/locksmith/filesystem.go:52-68 | Gets the lock exactly if it is granted in time and not held by the process itself, and otherwise times out with nothing changed |
| `Cleaners.Locksmith.Unlock` | store/locksmith/filesystem.go:92-96 | Gives up that lock only |
| `Cleaners.Cleaner.Run` | groot/cleaner.go:69-95 | No operation exactly for a negative threshold (an error) or a positive one that committed space plus volume sizes do not reach. Succeeds exactly if the threshold is not negative, quota files that are needed can be read, and it is no operation or gets the lock and the list of marked volumes; changes nothing without the lock, and otherwise sweeps the store or leaves the marked volumes unlisted |
| `Cleaners.Cleaner.CollectGarbage` | groot/cleaner.go:97-117 | Succeeds exactly with the lock and the list of marked volumes. Without the lock nothing changes; with it the unused volumes, none if the scan fails, are marked, and all marked ones destroyed if they can be listed; the lock is released |
| `Cleaners.OrphansMarked` | store/garbage_collector/gc.go:47-72 | Marking what is unused renames exactly the orphans and touches no other volume |
| `Cleaners.CompleteCollection` | groot/cleaner.go:97-117 | A clean on a quiescent store leaves exactly the volumes that some image depends on, their entries untouched; temporary and earlier marked volumes go |
| `Cleaners.UnregisteredProtects` | store/garbage_collector/gc.go:149-154 | If a listed image has no dependency file, a clean leaves every unmarked volume as it was |
| `Measuring.StoreMeasurer.CountVolumesSize` | store/measurer_linux.go:69-80 | The sum of recorded sizes, missing metadata counting 0 |
| `Measuring.StoreMeasurer.TotalVolumesSize` | store/measurer_linux.go:61-67 | The sum over all volumes, whatever the order |
| `Measuring.StoreMeasurer.UnusedVolumesSize` | store/measurer_linux.go:39-45 | The sum over the orphans, whatever the map order; fails exactly when the scan does |
| `Measuring.StoreMeasurer.UsedVolumesSize` | store/measurer_linux.go:47-59 | Exactly the sum over volumes that are depended on or already marked |
| `Measuring.StoreMeasurer.CommittedQuota` | store/measurer_linux.go:82-128 | The sum of the quota files: for images whose files are missing or empty, or hold a printed number, the sum of these numbers; fails exactly when a file cannot be parsed |
| `Measuring.UsedAndUnused` | store/measurer_linux.go:47-59 | Used plus unused is total |
| `Listings.SizesSnoc` | store/measurer_linux.go:69-80 | A sum of recorded sizes grows with each volume by its own size, or by nothing if none is recorded |
| `Listings.TotalSizeLess` | store/measurer_linux.go:61-67 | The sum over a set of volumes is the size of any one of them plus the sum over the rest |
| `Measuring.ReadPrinted` | store/measurer_linux.go:111-128 | A quota file that the driver writes is read back |
| `Measuring.RecordedTotal` | store/measurer_linux.go:82-128 | Files that are missing, empty or hold a printed number are readable, and add up to these numbers, missing and empty ones counting 0 |
| `Measuring.QuotaOfNewImage` | store/filesystems/overlayxfs/driver.go:750-790 | The quota file of a new image reads as its limit less its base volumes, or its whole limit if that is exclusive, but at least 256 KiB; without a limit there is none |
| `Images.ImageManager.ImageIDs` | store/image_manager/image_manager.go:45-58 | Lists every image once |
| `Images.ImageManager.CreateImage` | store/filesystems/overlayxfs/driver.go:263-319 | Makes the image from the lower directories it finds, exactly when they are all there and the quota allows |
| `Images.ImageManager.Create` | store/image_manager/image_manager.go:60-124 | An existing image is destroyed by the clean-up of the create that collides with it; a driver failure leaves no image; a failed owner change leaves the image in place though an error is returned |
| `Images.ImageManager.Destroy` | store/image_manager/image_manager.go:126-151 | Removes the image exactly when it exists and unmounts |
| `Pulling.BaseImagePuller.QuotaExceeded` | base_image_puller/base_image_puller.go:109-126 | Refuses exactly when the declared sizes exceed an inclusive limit |
| `Pulling.BaseImagePuller.LayersSizeOf` | base_image_puller/base_image_puller.go:254-260 | The sum of the declared sizes |
| `Pulling.BaseImagePuller.Pull` | base_image_puller/base_image_puller.go:97-107 | Builds all layers unless they exceed the limit, and releases every lock |
| `Pulling.BaseImagePuller.BuildLayer` | base_image_puller/base_image_puller.go:141-177 | Returns at the first existing layer counting down, builds upwards from there, stops at the first failure, and releases every lock on every path |
| `Pulling.BaseImagePuller.DownloadLayer` | base_image_puller/base_image_puller.go:179-291 | Stream, temporary volume, owner, base directory, unpack, opaque attributes, metadata, rename, with each failure's own remains; what these come to is DownloadedLeaves |
| `Pulling.BuiltLeaves` | base_image_puller/base_image_puller.go:141-177 | A pull succeeds exactly when every missing layer can be locked and arrives without a failure, and then all layers are there. Successful or not, it records for each new layer the bytes that unpacking reported, keeps the index coherent and layers closed downwards and measured, loses no volume and touches none but missing layers and new temporary names |
| `Pulling.DownloadedLeaves` | base_image_puller/base_image_puller.go:196-252 | A download succeeds exactly when stream, owner, base directory, unpacking, opaque attributes and metadata all go well. It then adds the layer's volume with the number of bytes that unpacking reported as its size; otherwise it leaves at most the temporary volume |
| `Pulling.LayersSizeConcat` | base_image_puller/base_image_puller.go:254-260 | The declared size of two lists of layers is the sum of theirs, that of one layer its own, and that of none 0 |
| `Stores.Store.Make` | groot/creator.go:102-131 | Succeeds exactly when the declared sizes fit an inclusive limit, every missing layer arrives, the recorded sizes of the base volumes fit it too, and driver, owner change and registration go well; then image and dependency file are there. Otherwise the image is there exactly when it was made, and changing its owner failed or it could neither be registered nor unmounted |
| `Stores.Store.MakeImage` | groot/creator.go:117-131 | The part after the pull: image directory and dependency file, exactly when the driver can make the image and owner change and registration go well |
| `Stores.OutcomeOf` | groot/creator.go:102-131 | The pull succeeds and the driver makes the image exactly when sizes, arrivals and limit allow; the base volumes then have the sizes recorded before plus what unpacking the missing layers reported |
| `Stores.Store.Create` | groot/creator.go:51-132 | Succeeds exactly for a new id without a slash when image information and lock can be had, the image can be made as Make says, and the clean that was asked for starts; then the image is there and registered, all images are backed, and its base volumes have their recorded sizes. A refusal changes nothing; after a failure all other images are as before. A clean is started exactly when it was asked for and the request was not refused |
| `Stores.Store.ChainIDsOf` | groot/creator.go:134-140 | The layers' chain ids in order |
| `Stores.Store.Delete` | groot/deleter.go:27-47 | Removes the image and then its dependency file, or nothing; all other images stay registered and backed |
| `Stores.Store.Clean` | groot/cleaner.go:69-117 | Keeps every image backed, even when the marked volumes cannot be listed in the end; with threshold 0 it succeeds exactly with the lock and that list, and then leaves exactly the volumes depended on; with an unregistered image it touches no unmarked volume |
| `Stores.MarkedKeepsImages` | groot/cleaner.go:97-117 | Marking alone keeps the index coherent and every image backed |
| `Stores.SweptKeepsImages` | groot/cleaner.go:97-117 | A clean of a sound store leaves it sound and with exactly the wanted volumes |
| `Unpacking.Volume.EnsureParentDir` | base_image_puller/unpacker/tar.go:183-205 | Creates exactly the missing ancestors, or fails with nothing changed when one is not a directory |
| `Unpacking.Volume.HandleEntry` | base_image_puller/unpacker/tar.go:89-121 | Places one member, or fails with the tree as it was |
| `Unpacking.Volume.CreateDirectory` | base_image_puller/unpacker/tar.go:123-153 | Keeps whatever exists at the path, even if it is not a directory |
| `Unpacking.Volume.CreateSymlink` | base_image_puller/unpacker/tar.go:155-177 | Replaces anything but a directory with something in it |
| `Unpacking.Volume.CreateRegularFile` | base_image_puller/unpacker/tar.go:207-256 | Truncates an existing file, fails on anything else that exists |
| `Unpacking.Volume.RemoveWhiteout` | base_image_puller/unpacker/whiteout_handler_linux.go:17-52 | Removes the path with all that is in it and puts the whiteout device there, if its directory exists |
| `Unpacking.Volume.Unpack` | base_image_puller/unpacker/tar.go:40-87 | Places the members in order, collecting opaque marks and counting bytes of files, and fails at the first that fails; what the names of members mean is stated in Archives |
| `Unpacking.Volume.HandleOpaqueWhiteouts` | store/filesystems/overlayxfs/driver.go:364-387 | Makes the marked directories opaque, or fails at one that does not exist |
| `Unpacking.PlaceWellFormed` | base_image_puller/unpacker/tar.go:89-121 | Every member keeps the tree one in which everything is in a directory |
| `Unpacking.PlaceOkayIff` | base_image_puller/unpacker/tar.go:89-256 | When a member succeeds, per kind and by the old tree alone: a directory over anything but a symlink, a file over a file, a symlink over anything but a directory with something in it, and otherwise when nothing but directories is above |
| `Unpacking.PlaceAdds` | base_image_puller/unpacker/tar.go:89-256 | What the tree has at every path after a member: the member at its own, new directories above it, and all else as before |
| `Archives.WhiteoutMember` | base_image_puller/unpacker/tar.go:68-73 | Unpacking a member d/.wh.b puts a whiteout at d/b with nothing inside and changes nothing else; it succeeds exactly when d is a directory |
| `Archives.OpaqueMember` | base_image_puller/unpacker/tar.go:63-66 | Unpacking a member d/.wh..wh..opq changes no path and yields d as the directory to make opaque |
| `Archives.OtherMember` | base_image_puller/unpacker/tar.go:75-80 | A member of any other name adds what it holds at that name |
| `Archives.ArchiveSize` | base_image_puller/unpacker/tar.go:75-86 | The bytes reported for an archive are those of its regular files, member by member |
| `Archives.UnpackArchive` | base_image_puller/base_image_puller.go:262-291 | Unpacks an archive into a new volume and sets its opaque attributes |
| `Archives.WhiteoutPath` | base_image_puller/unpacker/whiteout_handler_linux.go:17-21 | The source finds the path to hide by removing the first marker from the text of the whiteout's path: that is the path which its name stands for exactly when no marker occurs earlier |
| `Overlay.LookupFlatten` | store/filesystems/overlayxfs/driver.go:502-529 | Component-wise lookup through the stack, topmost first, sees exactly what merging the volumes one by one gives |
| `Changesets.PlaceAgrees` | base_image_puller/unpacker/tar.go:89-121 | A successful member shows through the volume as if applied to what was seen before, over any lower tree, if and only if it is not swallowed by the layer's own file or whiteout |
| `Changesets.OpaqueAgrees` | store/filesystems/overlayxfs/driver.go:364-387 | Opaque attributes set after unpacking hide exactly what lower layers have inside those directories |
| `Changesets.SwallowedUnchanged` | base_image_puller/unpacker/tar.go:123-125 | A member that is swallowed leaves the volume as it was |
| `Layers.LayerAgreesIff` | base_image_puller/unpacker/tar.go:52-87 | For every layer that unpacks and every lower tree, its volume shows over the tree what applying the layer gives, if and only if every member added at or inside a whiteout of the layer, or inside an earlier file or symlink, is a device at that path or is covered by a file or symlink that comes after both |
| `Layers.NamedOnceAgreesIff` | base_image_puller/unpacker/tar.go:52-87 | For a layer that names no path twice the condition is that there is no such member at all |
| `Layers.MeantAt` | base_image_puller/unpacker/tar.go:89-121 | What applying a layer puts at a path is decided by the last addition that decides the path |
| `Layers.HarmlessSeen` | base_image_puller/unpacker/tar.go:89-121 | And so is what the volume shows there, for a layer that meets the condition |
| `Layers.ConflictShows` | base_image_puller/unpacker/tar.go:123-125 | One member that breaks the condition makes the volume differ from what the layer means, over every lower tree |
| `Layers.LeafAboveLater` | base_image_puller/unpacker/tar.go:183-205 | In a layer that unpacks, a file or symlink added above an earlier one has a whiteout of its path between them |
| `Layers.NoLeafAfter` | base_image_puller/unpacker/tar.go:183-205 | And none is added below an earlier one |
| `Layers.WhiteoutThenDirectory` | base_image_puller/unpacker/tar.go:123-125 | Over any tree, a layer that whites a path out and adds it as a directory unpacks, but does not show what it means |
| `Layers.WhiteoutThenSymlink` | base_image_puller/unpacker/tar.go:155-177 | With a symlink in place of the directory it does |
| `Stacking.StackingPreservesMeaning` | base_image_puller/unpacker/tar.go:52-87 | For any layers that unpack and meet the condition, lookup through their volumes, topmost first, gives at every path the node that applying the layers in order to one tree has there, or none |
| `Archives.ArchivesKeepMeaning` | base_image_puller/unpacker/tar.go:52-87 | The same for archives, with a reference that reads the members' names itself: lookup through the volumes of archives gives at every path what whiteouts, opaque marks and additions, read one archive after another, put there |
| `Archives.ArchiveIsLayer` | base_image_puller/unpacker/tar.go:60-80 | Reading the names member by member gives the layer that the archive unpacks as |
| `ChainIds.CreateLayerInfos` | fetcher/layer_fetcher/layer_fetcher.go:94-119 | The lowest layer has its diff id as chain id and no parent; every other one has as chain id the hash of the chain id below it, a blank and its own diff id, and names the layer below as its parent; blob ids, sizes and diff ids are taken over |
| `ChainIds.SplitDigests` | fetcher/layer_fetcher/layer_fetcher.go:121-124 | The hexadecimal parts of the diff ids |
| `ChainIds.HexOfDigest` | fetcher/layer_fetcher/layer_fetcher.go:121-124 | Splitting a digest at the colon gives its hash |
| `ChainIds.EqualIdsIff` | fetcher/layer_fetcher/layer_fetcher.go:121-133 | Exactly when two images have equal chain ids at two positions, for any diff ids |
| `ChainIds.IdsDetermineLayers` | fetcher/layer_fetcher/layer_fetcher.go:94-133 | For a hash without collisions among the texts in play, two images of archives have equal chain ids exactly at equal positions with equal layers up to there |
| `ChainIds.ConfusedWithoutArchives` | fetcher/layer_fetcher/layer_fetcher.go:121-133 | A layer whose content is a chain text gives a one-layer image the chain id of another image's higher layer, for any hash |
| `ChainIds.GcPrefixIff` | store/garbage_collector/gc.go:95-98 | A volume's file name starts with the gc prefix exactly when it has been marked |
| `ChainIds.FileNamesDistinct` | base_image_puller/base_image_puller.go:220-226 | Different volumes of the protocol have different file names, if chain ids tell their layers apart |
| `Quota.QuotaedReader.Read` | fetcher/layer_fetcher/quotaed_reader.go:24-37 | The slice is within the buffer, what is left never falls below -1, and the quota error comes exactly when it is negative |
| `Quota.Copy` | fetcher/layer_fetcher/quotaed_reader.go:24-37 | Whatever the sizes of reads and buffer, copying ends with the whole stream when it is no longer than the quota, one byte over with the quota error when it is longer, or, only if the stream is faulty, with a failure after some start of it |
| `Quota.LayerSource.Fetch` | fetcher/layer_fetcher/source/layer_source.go:121-240 | A layer whose stream does not fail is accepted exactly if validation is skipped, the manifest gives no size, or each reported size is unknown or the manifest's; it can be read; its checksums match, or validation is skipped and the image is an OCI layout; and its content fits the quota, if that is enforced. An accepted layer's content comes off the quota; otherwise the quota stays |
| `Quota.LayerSource.FetchAll` | fetcher/layer_fetcher/source/layer_source.go:165-193 | With the quota enforced, what is left plus the sizes of accepted layers is the limit, and never negative |
| `Quota.AllFetchedIff` | fetcher/layer_fetcher/source/layer_source.go:165-208 | All layers are accepted exactly when each is valid and together they fit |
| `ProjectIds.Discoverer.Alloc` | store/filesystems/overlayxfs/tardis/ids/discoverer.go:23-38 | Takes the first free id from n + 1 on, never 0 or 1, at most 2n + 2 |
| `ProjectIds.Discoverer.UntilSucceeds` | store/filesystems/overlayxfs/tardis/ids/discoverer.go:40-57 | Skips 1 and ids that are taken, and no other |
| `ProjectIds.IdsNotShared` | store/filesystems/overlayxfs/driver.go:531-554 | However allocations and destroys interleave, no two existing images share a project id |
| `ProjectIds.EventKeepsInv` | store/filesystems/overlayxfs/driver.go:531-554 | Every step keeps each id owned by one image or process, and taken |
| `DiskLimit.ImageQuota.ApplyDiskLimit` | store/filesystems/overlayxfs/driver.go:750-790 | Records the larger of the minimum quota and the limit less base volumes, or the whole limit if that is exclusive, in whole blocks; fails exactly when the base volumes exceed an inclusive limit; 0 means no limit |
| `DiskLimit.ImageQuota.QuotaSize` | store/filesystems/overlayxfs/quota/quotas_cgo.go:106-108 | The quota as the kernel reports it is the largest whole number of blocks within the recorded one |
| `DiskLimit.ImageQuota.CommittedSpace` | store/filesystems/overlayxfs/tardis/stats/stats.go:38-45 | The committed space lies within 511 bytes below base volumes plus recorded quota, and reaches it for whole blocks |
| `DiskLimit.LimitAndStats` | store/filesystems/overlayxfs/driver.go:750-790 | Set a limit and read the statistics: an inclusive limit L is refused exactly when the base volumes exceed it; else the committed space is at least L - 511, and at most L exactly when L leaves the minimum quota beside the base volumes; an exclusive limit is never refused and is committed on top of them |
| `Namespacer.StoreNamespacer.ApplyMappings` | groot/store_namespacer.go:32-43 | The first call stores both lists; a later one changes nothing and succeeds exactly when the normal forms agree |
| `Namespacer.StoreNamespacer.Read` | groot/store_namespacer.go:45-69 | Parses what is stored, failing on a missing file or a bad line |
| `Namespacer.StoreNamespacer.NormalizeMappings` | groot/store_namespacer.go:115-123 | Prints and sorts |
| `Namespacer.StoreNamespacer.ParseIDMappings` | groot/store_namespacer.go:125-138 | Parses line by line, failing at the first bad one |
| `Namespacer.NormalIff` | groot/store_namespacer.go:115-123 | Normal forms are equal exactly for permutations |
| `Namespacer.NormalRoundTrip` | groot/store_namespacer.go:115-138 | What is stored parses back to a permutation of what was given |
| `Namespacer.NormalLists` | groot/store_namespacer.go:115-123 | The stored form has the text namespace:host:size of every mapping, in ascending order |
| `Namespacer.LeqIff` | groot/store_namespacer.go:121-122 | The order of the texts: a prefix comes first, and otherwise the first difference decides |
| `Namespacer.StoredExample` | groot/store_namespacer.go:115-123 | Two mappings as they are stored |
| `Namespacer.ParseShow` | groot/store_namespacer.go:118-130 | A printed mapping parses back to itself |
| `Namespacer.ApplyReadApply` | groot/store_namespacer.go:32-69 | After a first ApplyMappings, Read gives permutations of both lists, and a second call succeeds exactly with permutations of both |
| `Sorting.SortCanonical` | groot/store_namespacer.go:121-122 | Two lists sort alike exactly when they are permutations of each other |
| `Decimals.ScanPrint` | groot/store_namespacer.go:118-130 | A printed number is scanned back, and scanning stops where it ended |
| `IdTranslator.RangedAt` | base_image_puller/unpacker/id_translator.go:55-61 | An id other than 0 that a range covers goes to the host id of the range plus the id less 1, and one that a single mapping covers to itself |
| `IdTranslator.NotRanged` | base_image_puller/unpacker/id_translator.go:55-61 | An id that no mapping covers goes to itself |
| `IdTranslator.RootAt` | base_image_puller/unpacker/id_translator.go:63-71 | Id 0 goes to the host id of the first mapping of size 1, or to host id 0 if there is none |
| `IdTranslator.AgreeIff` | base_image_puller/unpacker/id_translator.go:45-71 | For every mapped id, exactly when the in-process translation is the kernel's: for an id other than 0, the covering mapping is a range from namespace id 1, or a single id mapped to itself; for id 0, it sends it to the host id of the first mapping of size 1, or to host id 0 if there is none |
| `IdTranslator.RootUnmapped` | base_image_puller/unpacker/id_translator.go:63-71 | A single range from namespace id 0 has no mapping of size 1: the host's id 0 instead of the kernel's 100000 |
| `IdTranslator.UsualAgrees` | base_image_puller/unpacker/id_translator.go:45-71 | With the single mapping at namespace id 0 and every range at 1 the two agree on every mapped id |
| `IdTranslator.UsualInjective` | base_image_puller/unpacker/id_translator.go:45-71 | And then mapped ids stay distinct, if host ranges do not overlap |
| `IdTranslator.OffsetWrong` | base_image_puller/unpacker/id_translator.go:55-57 | A range that starts elsewhere is translated to other host ids than the kernel's |

## Left out

- Registry, TLS and OCI transport, retries, decompression and real SHA-256: blobs are byte sequences, and the hash is a
  parameter.
- Mounting, loop devices, `mkfs`, extended attributes other than the opaque mark, quota and project-id system calls, the
  suid helper, re-execution and namespace cloning: each has a small effect in the model, such as the kernel keeping
  whole blocks of a limit.
- Command-line commands, configuration, logging, metrics, `InitStore` and `DeleteStore`.
- Power loss: a crash ends a process, and what it has written stays.
- The time that `Clean` and `LockWithTimeout` wait: a timeout is a step that gives up a lock, or a crash of the clean.
- Cleaners.Locksmith.LockWithTimeout: a lock that is granted after the time-out, to a goroutine nobody waits for any more,
  is not modelled, because the process then exits and flock releases it.
- Unpacking.Volume.HandleEntry: hard links, modes, owners and times, `BaseDirectory`, `..` in names, and names in which the
  whiteout marker is not at the start of the last component or nothing follows it are not modelled; paths are lists of
  plain components.
- Unpacking.Volume.CreateDirectory: a symlink in the way is an error in the model, where the source follows it, because
  what it leads to may lie outside the volume.
- Unpacking.Volume.CreateRegularFile: the same.
- The kernel's treatment of an opaque mark on the root of a layer: the lookup honours it as on any other directory.
- Files in the images directory that are not directories, and hand-edited namespace files with leading spaces or signs
  in unusual places.
- `formatMountData`, which abbreviates paths in mount options in place.
- Pulling.BaseImagePuller.BuildLayer: the second look at the volume, under its lock, is in module Protocol only, because
  with no other process at work it finds what the first did.
- ChainIds.IdsDetermineLayers: layer contents are archives in 512-byte blocks, which is what makes a diff id different
  from every chain id above it.
- Stacking.StackingPreservesMeaning: an image without layers is not covered, as an overlay mount needs a lower
  directory.
- Progress.WindsDown: fairness is not modelled; it says that some continuation ends, and Progress.StepsDecrease that every
  process ends if it keeps being scheduled.
- GarbageCollection.GarbageCollector.Collect: a volume that cannot be destroyed is not modelled, because the calls of
  `DestroyVolume` are assumed to succeed.
