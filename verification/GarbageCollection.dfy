/** Finding orphaned volumes, marking and collecting them. */
module GarbageCollection {
  import opened Wrappers
  import opened Disk
  import opened Volumes
  import opened Names
  import opened Drivers
  import opened Listings
  import opened Images

  class DependencyManager {
    var files: map<string, seq<string>>       // dependency files by file name

    constructor ()
      ensures files == map[]
    {
      files := map[];
    }

    method Register(id: string, chainIDs: seq<string>)
      modifies this
      ensures files == old(files)[DependencyFile(id) := chainIDs]
    {
      files := files[DependencyFile(id) := chainIDs];
    }

    method Deregister(id: string) returns (found: bool)
      modifies this
      ensures found <==> DependencyFile(id) in old(files)
      ensures files == old(files) - {DependencyFile(id)}
    {
      found := DependencyFile(id) in files;
      files := files - {DependencyFile(id)};
    }

    method Dependencies(id: string) returns (r: Result<seq<string>>)
      ensures r == if DependencyFile(id) in files then Okay(files[DependencyFile(id)]) else Error
    {
      if DependencyFile(id) in files {
        r := Okay(files[DependencyFile(id)]);
      } else {
        r := Error;
      }
    }
  }

  /** Some listed image's dependency file names the volume. */
  predicate DependedOn(v: string, ids: set<string>, files: map<string, seq<string>>) {
    exists id :: id in ids && DependencyFile(ImageRef(id)) in files && v in files[DependencyFile(ImageRef(id))]
  }

  function Orphans(vols: set<string>, ids: set<string>, files: map<string, seq<string>>): set<string> {
    set v | v in vols && !HasPrefix(v, "gc.") && !DependedOn(v, ids, files)
  }

  /** Every listed image has a dependency file. */
  predicate AllRegistered(ids: set<string>, files: map<string, seq<string>>) {
    forall id :: id in ids ==> DependencyFile(ImageRef(id)) in files
  }

  // ------------------------------------------------------------------ marking and destroying many volumes

  /** The disk after marking the volumes one after another, and how many of them were reported as failures. */
  function MarkAll(d: Disk<string>, ids: seq<string>): (Disk<string>, nat) {
    if ids == [] then (d, 0)
    else
      var (before, failed) := MarkAll(d, ids[..|ids| - 1]);
      var (after, ok) := Mark(before, ids[|ids| - 1], GcName(ids[|ids| - 1]));
      (after, if ok then failed else failed + 1)
  }

  function GcNames(ids: set<string>): set<string> {
    set id | id in ids :: GcName(id)
  }

  /** The listed volumes exist, once each, under ordinary names, and their gc names are free. */
  ghost predicate Markable(d: Disk<string>, ids: seq<string>) {
    && Coherent(d) && Distinct(ids)
    && forall i :: 0 <= i < |ids| ==> ids[i] in d.vols && !HasPrefix(ids[i], "gc.") && GcName(ids[i]) !in d.vols
  }

  /** d' is d with the volumes renamed to their gc names: the index is coherent, no other volume is touched, and
      no failure was reported exactly if all of them had metadata. */
  ghost predicate Marked(d: Disk<string>, d': Disk<string>, failed: nat, ids: set<string>) {
    && Coherent(d')
    && d'.vols == d.vols - ids + GcNames(ids)
    && (failed == 0 <==> ids <= d.metas.Keys)
    && forall v :: v !in ids && v !in GcNames(ids) ==> SameVolume(d, d', v)
  }

  /** Every volume that can be marked ends up under its gc name, even one that is counted as a failure because
      its metadata is missing. */
  lemma {:induction false} MarkAllMoves(d: Disk<string>, ids: seq<string>)
    requires Markable(d, ids)
    ensures Marked(d, MarkAll(d, ids).0, MarkAll(d, ids).1, Elements(ids))
  {
    if ids == [] {
    } else {
      var front, id := ids[..|ids| - 1], ids[|ids| - 1];
      MarkAllMoves(d, front);
      TakeAll(ids);
      ElementsSnoc(ids, |ids| - 1);
      GcNamesApart(d, ids, id);
      var (before, failed) := MarkAll(d, front);
      MarkOneMore(d, before, failed, Elements(front), id);
    }
  }

  lemma MarkOneMore(d: Disk<string>, before: Disk<string>, failed: nat, marked: set<string>, id: string)
    requires Marked(d, before, failed, marked) && id in d.vols && GcName(id) !in d.vols
    requires id !in marked && id !in GcNames(marked) && GcName(id) !in GcNames(marked)
    ensures var (after, ok) := Mark(before, id, GcName(id));
            Marked(d, after, if ok then failed else failed + 1, marked + {id})
  {
    assert GcNames(marked + {id}) == GcNames(marked) + {GcName(id)};
    assert SameVolume(d, before, id);
    MarkMoves(before, id);
    var after := Mark(before, id, GcName(id)).0;
    forall v | v !in marked + {id} && v !in GcNames(marked + {id}) ensures SameVolume(d, after, v) {
      SameVolumeTwice(d, before, after, v);
    }
  }

  lemma SameVolumeTwice(a: Disk<string>, b: Disk<string>, c: Disk<string>, v: string)
    requires SameVolume(a, b, v) && SameVolume(b, c, v)
    ensures SameVolume(a, c, v)
  {
  }

  /** The gc names of the volumes marked so far are neither the next volume's name nor its gc name. */
  lemma GcNamesApart(d: Disk<string>, ids: seq<string>, id: string)
    requires Markable(d, ids) && ids != [] && id == ids[|ids| - 1]
    ensures var marked := Elements(ids[..|ids| - 1]);
            id !in marked && id !in GcNames(marked) && GcName(id) !in GcNames(marked)
  {
    var marked := Elements(ids[..|ids| - 1]);
    forall w | w in marked ensures GcName(w) != GcName(id) && GcName(w) != id {
      GcNamePrefixed(w);
      if GcName(w) == GcName(id) { GcNameInjective(w, id); }
    }
  }

  lemma MarkMoves(d: Disk<string>, id: string)
    requires Coherent(d) && id in d.vols && GcName(id) !in d.vols
    ensures var (d', ok) := Mark(d, id, GcName(id));
            && Coherent(d')
            && d'.vols == d.vols - {id} + {GcName(id)}
            && (ok <==> id in d.metas)
            && d'.metas == (if id in d.metas then (d.metas - {id})[GcName(id) := d.metas[id]] else d.metas)
            && forall v :: v != id && v != GcName(id) ==> SameVolume(d, d', v)
  {
    MoveCompletes(d, id, GcName(id), "");
    CommandKeepsIndex(d, MarkAs(id, GcName(id)));
  }

  /** Marking takes the size along: the sum over all volumes stays the same. */
  lemma MarkKeepsTotal(d: Disk<string>, id: string)
    requires Coherent(d) && id in d.vols && GcName(id) !in d.vols && GcName(id) !in d.metas
    ensures var d' := Mark(d, id, GcName(id)).0; TotalSize(d'.metas, d'.vols) == TotalSize(d.metas, d.vols)
  {
    var d', gc := Mark(d, id, GcName(id)).0, GcName(id);
    MarkMoves(d, id);
    TotalSizeLess(d.metas, d.vols, id);
    TotalSizeLess(d'.metas, d'.vols, gc);
    assert d'.vols - {gc} == d.vols - {id};
    TotalSizeSame(d.metas, d'.metas, d.vols - {id});
  }

  /** And so it does for all of them. */
  lemma {:induction false} MarkAllKeepsTotal(d: Disk<string>, ids: seq<string>)
    requires Markable(d, ids) && forall i :: 0 <= i < |ids| ==> GcName(ids[i]) !in d.metas
    ensures var d' := MarkAll(d, ids).0; TotalSize(d'.metas, d'.vols) == TotalSize(d.metas, d.vols)
    ensures forall i :: 0 <= i < |ids| && ids[i] in d.metas ==>
              var d' := MarkAll(d, ids).0; GcName(ids[i]) in d'.metas && d'.metas[GcName(ids[i])] == d.metas[ids[i]]
  {
    if ids != [] {
      var n := |ids| - 1;
      var front, id, before := ids[..n], ids[n], MarkAll(d, ids[..n]).0;
      MarkAllKeepsTotal(d, front);
      MarkAllMoves(d, front);
      GcNamesApart(d, ids, id);
      assert SameVolume(d, before, id) && SameVolume(d, before, GcName(id));
      MarkKeepsTotal(before, id);
      MarkMoves(before, id);
      forall i | 0 <= i < n && ids[i] in d.metas
        ensures var d' := MarkAll(d, ids).0; GcName(ids[i]) in d'.metas && d'.metas[GcName(ids[i])] == d.metas[ids[i]]
      {
        assert front[i] == ids[i] && ids[i] in Elements(front);
        assert GcName(ids[i]) in GcNames(Elements(front));
        assert GcName(ids[i]) in before.metas;
      }
    }
  }

  function ShortsOf(d: Disk<string>, ids: set<string>): set<ShortId> {
    set id | id in ids && id in d.links :: d.links[id]
  }

  /** The disk without a set of volumes and everything that belongs to them. */
  function Without(d: Disk<string>, gone: set<string>): Disk<string> {
    Disk(d.vols - gone, d.links - gone, d.syms - ShortsOf(d, gone), d.metas - gone)
  }

  lemma WithoutOneMore(d: Disk<string>, gone: set<string>, id: string)
    ensures Complete(Without(d, gone), DvRead(id), "").0 == Without(d, gone + {id})
  {
    var d1 := Without(d, gone);
    DestroyCases(d1, id, "");
    if id in d1.links {
      assert ShortsOf(d, gone + {id}) == ShortsOf(d, gone) + {d.links[id]};
    } else {
      assert ShortsOf(d, gone + {id}) == ShortsOf(d, gone);
    }
  }

  lemma WithoutCoherent(d: Disk<string>, gone: set<string>)
    requires Coherent(d)
    ensures Coherent(Without(d, gone))
    ensures forall v :: v !in gone ==> SameVolume(d, Without(d, gone), v)
  {
  }

  function Collectable(vols: set<string>): set<string> {
    set v | v in vols && HasPrefix(v, "gc.")
  }

  class GarbageCollector {
    const driver: Driver
    const imageManager: ImageManager
    const dependencyManager: DependencyManager

    constructor (driver: Driver, imageManager: ImageManager, dependencyManager: DependencyManager)
      ensures this.driver == driver && this.imageManager == imageManager && this.dependencyManager == dependencyManager
    {
      this.driver, this.imageManager, this.dependencyManager := driver, imageManager, dependencyManager;
    }

    /** The volumes that no image depends on; an error, and so no orphan at all, if any listed image has no
        dependency file. */
    method UnusedVolumes() returns (r: Result<seq<string>>)
      ensures r.Okay? <==> AllRegistered(imageManager.images.Keys, dependencyManager.files)
      ensures r.Okay? ==>
                Lists(r.value, Orphans(driver.vols, imageManager.images.Keys, dependencyManager.files))
    {
      var volumes := driver.Volumes();
      var orphaned: set<string> := {};
      for i := 0 to |volumes|
        invariant orphaned == set v | v in volumes[..i] && !HasPrefix(v, "gc.")
      {
        if !HasPrefix(volumes[i], "gc.") {
          orphaned := orphaned + {volumes[i]};
        }
      }
      assert volumes[..|volumes|] == volumes;
      ghost var all := orphaned;
      var ids := imageManager.ImageIDs();
      for i := 0 to |ids|
        invariant AllRegistered(Elements(ids[..i]), dependencyManager.files)
        invariant orphaned == Remaining(all, Elements(ids[..i]), dependencyManager.files)
      {
        assert ids[i] in Elements(ids);
        ElementsSnoc(ids, i);
        var used := dependencyManager.Dependencies(ImageRef(ids[i]));
        if used.Error? { return Error; }
        orphaned := RemoveDependencies(orphaned, used.value);
      }
      TakeAll(ids);
      var list := List(orphaned);
      r := Okay(list);
    }

    static method RemoveDependencies(volumes: set<string>, used: seq<string>) returns (rest: set<string>)
      ensures rest == volumes - Elements(used)
    {
      rest := volumes;
      for i := 0 to |used|
        invariant rest == volumes - Elements(used[..i])
      {
        ElementsSnoc(used, i);
        rest := rest - {used[i]};
      }
      TakeAll(used);
    }

    /** Marks the volumes in turn and counts the failures; the caller logs them and goes on. */
    method MarkUnused(ids: seq<string>) returns (failed: nat)
      modifies driver
      ensures (driver.Snapshot(), failed) == MarkAll(old(driver.Snapshot()), ids)
    {
      failed := 0;
      for i := 0 to |ids|
        invariant (driver.Snapshot(), failed) == MarkAll(old(driver.Snapshot()), ids[..i])
      {
        assert ids[..i + 1][..i] == ids[..i];
        var ok := driver.MarkVolumeArtifacts(ids[i]);
        if !ok { failed := failed + 1; }
      }
      TakeAll(ids);
    }

    /** Destroys exactly the volumes whose names start with the gc prefix, in whatever order they are listed; nothing,
        and an error, if they cannot be listed. */
    method Collect(lists: bool) returns (ok: bool)
      modifies driver
      ensures ok == lists
      ensures driver.Snapshot() == if lists then Without(old(driver.Snapshot()), Collectable(old(driver.vols)))
                                   else old(driver.Snapshot())
    {
      if !lists { return false; }
      var volumes := driver.Volumes();
      ghost var d := driver.Snapshot();
      ghost var gone: set<string> := {};
      assert d.links - {} == d.links && d.syms - ShortsOf(d, {}) == d.syms && d.metas - {} == d.metas;
      for i := 0 to |volumes|
        invariant gone == Collectable(Elements(volumes[..i]))
        invariant driver.Snapshot() == Without(d, gone)
      {
        ElementsSnoc(volumes, i);
        if HasPrefix(volumes[i], "gc.") {
          WithoutOneMore(d, gone, volumes[i]);
          driver.DestroyVolume(volumes[i]);
          gone := gone + {volumes[i]};
        }
      }
      TakeAll(volumes);
      ok := true;
    }
  }

  /** The volumes that none of the listed images depends on. */
  function Remaining(vols: set<string>, ids: set<string>, files: map<string, seq<string>>): set<string> {
    set v | v in vols && !DependedOn(v, ids, files)
  }
}
