/** Cleaning a store. */
module Cleaners {
  import opened Disk
  import opened Volumes
  import opened Names
  import opened Listings
  import opened GarbageCollection
  import opened Measuring

  const GLOBAL_LOCK_KEY := "global-groot-lock"

  /** The locks that this process holds. */
  class Locksmith {
    var held: set<string>

    constructor ()
      ensures held == {}
    {
      held := {};
    }

    /** Gets the lock, if other processes give it up in time and this one does not hold it, or times out. */
    method LockWithTimeout(key: string, granted: bool) returns (ok: bool)
      modifies this
      ensures ok <==> granted && key !in old(held)
      ensures held == if ok then old(held) + {key} else old(held)
    {
      ok := granted && key !in held;
      if ok { held := held + {key}; }
    }

    method Unlock(key: string)
      modifies this
      ensures held == old(held) - {key}
    {
      held := held - {key};
    }
  }

  /** The disk after marking the listed volumes and then destroying everything marked. */
  function Swept(d: Disk<string>, unused: seq<string>): Disk<string> {
    var marked := MarkAll(d, unused).0;
    Without(marked, Collectable(marked.vols))
  }

  /** What a clean finds unused: nothing at all if some image has no dependency file. */
  ghost predicate Unused(vols: set<string>, ids: set<string>, files: map<string, seq<string>>, unused: seq<string>) {
    if AllRegistered(ids, files) then Lists(unused, Orphans(vols, ids, files)) else unused == []
  }

  /** The disk d' after finding what is unused in d and marking it, and, if `swept`, destroying everything marked. */
  ghost predicate Cleaned(d: Disk<string>, d': Disk<string>, ids: set<string>, files: map<string, seq<string>>, swept: bool) {
    exists unused :: Unused(d.vols, ids, files, unused) && d' == if swept then Swept(d, unused) else MarkAll(d, unused).0
  }

  class Cleaner {
    const locksmith: Locksmith
    const measurer: StoreMeasurer
    const gc: GarbageCollector

    constructor (locksmith: Locksmith, measurer: StoreMeasurer, gc: GarbageCollector)
      ensures this.locksmith == locksmith && this.measurer == measurer && this.gc == gc
    {
      this.locksmith, this.measurer, this.gc := locksmith, measurer, gc;
    }

    /** Does nothing unless the threshold is 0 or what is committed and stored reaches it; fails for a negative
        threshold, an unreadable quota file, without the lock, or when the marked volumes cannot be listed. Without the
        lock nothing has changed; without the list the marked volumes are still there. */
    method Run(threshold: int, granted: bool, lists: bool) returns (noop: bool, ok: bool)
      requires GLOBAL_LOCK_KEY !in locksmith.held
      modifies gc.driver, locksmith
      ensures var images, d := measurer.gc.imageManager.images, old(measurer.driver.Snapshot());
              noop <==> threshold < 0 || (threshold > 0 && QuotasReadable(images)
                                          && TotalSize(Quotas(images), images.Keys) + TotalSize(d.metas, d.vols) < threshold)
      ensures ok <==> threshold >= 0 && (threshold == 0 || QuotasReadable(measurer.gc.imageManager.images))
                      && (noop || (granted && lists))
      ensures if noop || (threshold > 0 && !QuotasReadable(measurer.gc.imageManager.images)) || !granted
              then gc.driver.Snapshot() == old(gc.driver.Snapshot())
              else Cleaned(old(gc.driver.Snapshot()), gc.driver.Snapshot(), gc.imageManager.images.Keys,
                           gc.dependencyManager.files, lists)
      ensures locksmith.held == old(locksmith.held)
    {
      if threshold > 0 {
        var committed := measurer.CommittedQuota();
        if committed.Error? { return false, false; }
        var total := measurer.TotalVolumesSize();
        if committed.value + total < threshold { return true, true; }
      } else if threshold < 0 {
        return true, false;
      }
      ok := CollectGarbage(granted, lists);
      noop := false;
    }

    /** Holds the global lock while finding and marking, not while destroying. */
    method CollectGarbage(granted: bool, lists: bool) returns (ok: bool)
      requires GLOBAL_LOCK_KEY !in locksmith.held
      modifies gc.driver, locksmith
      ensures ok <==> granted && lists
      ensures if granted
              then Cleaned(old(gc.driver.Snapshot()), gc.driver.Snapshot(), gc.imageManager.images.Keys,
                           gc.dependencyManager.files, lists)
              else gc.driver.Snapshot() == old(gc.driver.Snapshot())
      ensures locksmith.held == old(locksmith.held)
    {
      ok := locksmith.LockWithTimeout(GLOBAL_LOCK_KEY, granted);
      if !ok { return; }
      var found := gc.UnusedVolumes();
      var unused := if found.Okay? then found.value else [];
      var failed := gc.MarkUnused(unused);
      locksmith.Unlock(GLOBAL_LOCK_KEY);
      ok := gc.Collect(lists);
      assert Unused(old(gc.driver.vols), gc.imageManager.images.Keys, gc.dependencyManager.files, unused);
    }
  }

  // ------------------------------------------------------------------ what a clean leaves

  /** The gc names of the orphans are free. */
  ghost predicate GcNamesFree(vols: set<string>, ids: set<string>, files: map<string, seq<string>>) {
    forall v :: v in Orphans(vols, ids, files) ==> GcName(v) !in vols
  }

  function Wanted(vols: set<string>, ids: set<string>, files: map<string, seq<string>>): set<string> {
    set v | v in vols && !HasPrefix(v, "gc.") && DependedOn(v, ids, files)
  }

  /** Marking what is unused renames exactly the orphans. */
  lemma OrphansMarked(d: Disk<string>, ids: set<string>, files: map<string, seq<string>>, unused: seq<string>)
    requires Coherent(d) && AllRegistered(ids, files) && Unused(d.vols, ids, files, unused)
    requires GcNamesFree(d.vols, ids, files)
    ensures Marked(d, MarkAll(d, unused).0, MarkAll(d, unused).1, Orphans(d.vols, ids, files))
  {
    forall i | 0 <= i < |unused|
      ensures unused[i] in d.vols && !HasPrefix(unused[i], "gc.") && GcName(unused[i]) !in d.vols
    {
      assert unused[i] in Elements(unused);
    }
    MarkAllMoves(d, unused);
  }

  lemma GcNamesMarked(orphans: set<string>)
    ensures forall v :: v in GcNames(orphans) ==> HasPrefix(v, "gc.")
  {
    forall v | v in GcNames(orphans) ensures HasPrefix(v, "gc.") {
      var w :| w in orphans && v == GcName(w);
      GcNamePrefixed(w);
    }
  }

  /** Complete collection: with nothing else going on, a clean leaves exactly the volumes that some image depends
      on, with all their entries as they were. Temporary volumes go too, though marking them is reported as a
      failure for want of metadata, and so does what an earlier clean had marked. */
  lemma CompleteCollection(d: Disk<string>, ids: set<string>, files: map<string, seq<string>>, unused: seq<string>)
    requires Coherent(d) && AllRegistered(ids, files) && Unused(d.vols, ids, files, unused)
    requires GcNamesFree(d.vols, ids, files)
    ensures var d' := Swept(d, unused);
            && Coherent(d') && d'.vols == Wanted(d.vols, ids, files)
            && forall v :: v in d'.vols ==> SameVolume(d, d', v)
  {
    OrphansMarked(d, ids, files, unused);
    GcNamesMarked(Orphans(d.vols, ids, files));
    var marked := MarkAll(d, unused).0;
    WithoutCoherent(marked, Collectable(marked.vols));
    forall v | v in Swept(d, unused).vols ensures SameVolume(d, Swept(d, unused), v) {
      SameVolumeTwice(d, marked, Swept(d, unused), v);
    }
  }

  /** An image without a dependency file protects every volume that is not already marked. */
  lemma UnregisteredProtects(d: Disk<string>, ids: set<string>, files: map<string, seq<string>>, unused: seq<string>)
    requires Coherent(d) && !AllRegistered(ids, files) && Unused(d.vols, ids, files, unused)
    ensures forall v :: !HasPrefix(v, "gc.") ==> SameVolume(d, Swept(d, unused), v)
    ensures MarkAll(d, unused).0 == d
  {
    WithoutCoherent(d, Collectable(d.vols));
  }
}
