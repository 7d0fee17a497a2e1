/** Creating and deleting images, and cleaning, one after another on one store. */
module Stores {
  import opened Wrappers
  import opened Disk
  import opened Volumes
  import opened Names
  import opened Drivers
  import opened Listings
  import opened Images
  import opened GarbageCollection
  import opened Measuring
  import opened Cleaners
  import opened Pulling

  // ------------------------------------------------------------------ what every operation keeps

  /** The image's lower directories are the short ids of the volumes, topmost first. */
  ghost predicate Backed(d: Disk<string>, im: Image, volumeIDs: seq<string>) {
    && |im.lowers| == |volumeIDs|
    && forall k :: 0 <= k < |volumeIDs| ==>
         volumeIDs[k] in d.vols && volumeIDs[k] in d.links && d.links[volumeIDs[k]] == im.lowers[|im.lowers| - 1 - k]
  }

  function FileOf(id: string): string {
    DependencyFile(ImageRef(id))
  }

  ghost predicate NoneMarked(vols: set<string>) {
    forall v :: v in vols ==> !HasPrefix(v, "gc.")
  }

  ghost predicate ImagesOk(d: Disk<string>, images: map<string, Image>, files: map<string, seq<string>>) {
    forall id :: id in images ==> '/' !in id && FileOf(id) in files && Backed(d, images[id], files[FileOf(id)])
  }

  /** The index is coherent, nothing is marked, and every image has a dependency file that lists the volumes its
      lower directories stand for. */
  ghost predicate StoreOk(d: Disk<string>, images: map<string, Image>, files: map<string, seq<string>>) {
    Coherent(d) && NoneMarked(d.vols) && ImagesOk(d, images, files)
  }

  lemma BackedKept(d: Disk<string>, d': Disk<string>, im: Image, volumeIDs: seq<string>)
    requires Backed(d, im, volumeIDs) && forall v :: v in volumeIDs ==> SameVolume(d, d', v)
    ensures Backed(d', im, volumeIDs)
  {
    forall k | 0 <= k < |volumeIDs| ensures SameVolume(d, d', volumeIDs[k]) {
      assert volumeIDs[k] in volumeIDs;
    }
  }

  /** Pulling leaves every image as it was. */
  lemma GrownKeepsImages(d: Disk<string>, d': Disk<string>, names: set<string>, gens: set<ShortId>,
                         images: map<string, Image>, files: map<string, seq<string>>)
    requires StoreOk(d, images, files) && Grown(d, d', names, gens) && NoneMarked(names)
    ensures StoreOk(d', images, files)
  {
    forall id | id in images ensures Backed(d', images[id], files[FileOf(id)]) {
      forall v | v in files[FileOf(id)] ensures SameVolume(d, d', v) {
        var k :| 0 <= k < |files[FileOf(id)]| && files[FileOf(id)][k] == v;
      }
      BackedKept(d, d', images[id], files[FileOf(id)]);
    }
  }

  /** A clean leaves every image as it was. */
  lemma SweptKeepsImages(d: Disk<string>, images: map<string, Image>, files: map<string, seq<string>>, unused: seq<string>)
    requires StoreOk(d, images, files) && Unused(d.vols, images.Keys, files, unused)
    ensures StoreOk(Swept(d, unused), images, files)
    ensures Swept(d, unused).vols == Wanted(d.vols, images.Keys, files)
  {
    var d' := Swept(d, unused);
    forall v | v in Orphans(d.vols, images.Keys, files) ensures GcName(v) !in d.vols { GcNamePrefixed(v); }
    CompleteCollection(d, images.Keys, files, unused);
    forall id | id in images ensures Backed(d', images[id], files[FileOf(id)]) {
      var needed := files[FileOf(id)];
      forall v | v in needed ensures SameVolume(d, d', v) {
        var k :| 0 <= k < |needed| && needed[k] == v;
        assert DependedOn(v, images.Keys, files);
        assert v in Wanted(d.vols, images.Keys, files);
      }
      BackedKept(d, d', images[id], needed);
    }
  }

  /** So does a clean that cannot list what it has marked. */
  lemma MarkedKeepsImages(d: Disk<string>, images: map<string, Image>, files: map<string, seq<string>>, unused: seq<string>)
    requires StoreOk(d, images, files) && Unused(d.vols, images.Keys, files, unused)
    ensures var d' := MarkAll(d, unused).0; Coherent(d') && ImagesOk(d', images, files)
  {
    var d' := MarkAll(d, unused).0;
    forall v | v in Orphans(d.vols, images.Keys, files) ensures GcName(v) !in d.vols { GcNamePrefixed(v); }
    OrphansMarked(d, images.Keys, files, unused);
    GcNamesMarked(Orphans(d.vols, images.Keys, files));
    forall id | id in images ensures Backed(d', images[id], files[FileOf(id)]) {
      var needed := files[FileOf(id)];
      forall v | v in needed ensures SameVolume(d, d', v) {
        var k :| 0 <= k < |needed| && needed[k] == v;
        assert DependedOn(v, images.Keys, files);
      }
      BackedKept(d, d', images[id], needed);
    }
  }

  // ------------------------------------------------------------------ the operations

  datatype Request = Request(
    id: string,
    layers: seq<Layer>,
    diskLimit: int,
    exclusive: bool,
    cleanThreshold: Option<int>)

  /** What the surroundings do during a create. */
  datatype Luck = Luck(
    infoFetched: bool,
    locked: bool,
    arrivals: seq<Arrival>,
    faults: Faults,
    registers: bool,
    unmounts: bool,
    cleanStarts: bool)

  /** The size of the layers' volumes once they are all there: what was recorded for those that exist, and what
      unpacking reports for those that are missing. */
  function BaseSize(d: Disk<string>, layers: seq<Layer>, arrivals: seq<Arrival>): int
    requires |layers| == |arrivals|
  {
    if layers == [] then 0
    else
      var n := |layers| - 1;
      var id := layers[n].chainID;
      BaseSize(d, layers[..n], arrivals[..n])
      + (if id in d.vols then if id in d.metas then d.metas[id] else 0
         else if arrivals[n].unpacked.Some? then arrivals[n].unpacked.value else 0)
  }

  /** An inclusive limit allows for the bytes. */
  predicate Within(req: Request, bytes: int) {
    req.exclusive || req.diskLimit == 0 || bytes <= req.diskLimit
  }

  /** The image can be made: its declared size is within the limit, every missing layer arrives, and so is its actual
      size. */
  ghost predicate Buildable(d: Disk<string>, req: Request, luck: Luck)
    requires |luck.arrivals| == |req.layers|
  {
    && Within(req, LayersSize(req.layers))
    && AllArrive(d, req.layers, luck.arrivals, |req.layers|)
    && Within(req, BaseSize(d, req.layers, luck.arrivals))
    && !luck.faults.driver
  }

  class Store {
    const driver: Driver
    const locksmith: Locksmith
    const imageManager: ImageManager
    const dependencyManager: DependencyManager
    const puller: BaseImagePuller
    const cleaner: Cleaner

    constructor ()
      ensures Wired() && StoreOk(driver.Snapshot(), imageManager.images, dependencyManager.files)
      ensures locksmith.held == {}
    {
      var d := new Driver();
      var l := new Locksmith();
      var im := new ImageManager(d);
      var dm := new DependencyManager();
      var gc := new GarbageCollector(d, im, dm);
      var m := new StoreMeasurer(d, gc);
      driver, locksmith, imageManager, dependencyManager := d, l, im, dm;
      puller := new BaseImagePuller(d, l);
      cleaner := new Cleaner(l, m, gc);
    }

    /** All parts work on the same store. */
    predicate Wired() {
      && puller.driver == driver && puller.locksmith == locksmith
      && imageManager.driver == driver
      && cleaner.locksmith == locksmith
      && cleaner.gc.driver == driver && cleaner.gc.imageManager == imageManager
      && cleaner.gc.dependencyManager == dependencyManager
      && cleaner.measurer.driver == driver && cleaner.measurer.gc == cleaner.gc
    }

    ghost predicate Ok()
      reads this, driver, imageManager, dependencyManager
    {
      StoreOk(driver.Snapshot(), imageManager.images, dependencyManager.files)
    }

    /** What chain ids and generated names must be like for a create. */
    ghost predicate Sensible(req: Request, luck: Luck)
      reads this, driver
    {
      && |luck.arrivals| == |req.layers| && NoneLocked(req.layers, {GLOBAL_LOCK_KEY})
      && ClosedDown(driver.vols, req.layers) && AllMeasured(driver.Snapshot(), req.layers)
      && NamesFresh(driver.Snapshot(), req.layers, luck.arrivals)
      && NoneMarked(NamesUsed(req.layers, luck.arrivals, |req.layers|))
    }

    /** The part of a create that runs under the shared global lock. It succeeds exactly when the image can be made, its
        owner changed and its dependencies registered, with the image backed by its layers and registered. Otherwise it
        leaves the image exactly when that was made, and changing the owner failed or it could neither be registered
        nor unmounted. */
    method Make(req: Request, luck: Luck) returns (r: Result<Image>)
      requires Wired() && Ok() && Sensible(req, luck) && locksmith.held == {GLOBAL_LOCK_KEY}
      requires '/' !in req.id && req.id !in imageManager.images
      modifies driver, locksmith, imageManager, dependencyManager
      ensures locksmith.held == old(locksmith.held)
      ensures r.Okay? ==>
                && Ok()
                && imageManager.images == old(imageManager.images)[req.id := r.value]
                && dependencyManager.files == old(dependencyManager.files)[FileOf(req.id) := ChainIDs(req.layers)]
                && r.value.volumesSize == BaseSize(old(driver.Snapshot()), req.layers, luck.arrivals)
      ensures r.Okay? <==> Buildable(old(driver.Snapshot()), req, luck) && !luck.faults.ownership && luck.registers
      ensures r.Error? ==>
                && dependencyManager.files == old(dependencyManager.files)
                && StoreOk(driver.Snapshot(), old(imageManager.images), dependencyManager.files)
                && imageManager.images - {req.id} == old(imageManager.images)
                && (req.id in imageManager.images <==>
                      && Buildable(old(driver.Snapshot()), req, luck)
                      && (luck.faults.ownership || (!luck.registers && !luck.unmounts)))
    {
      ghost var d, images, files := driver.Snapshot(), imageManager.images, dependencyManager.files;
      assert images - {req.id} == images;
      var pulled := puller.Pull(req.layers, luck.arrivals, req.diskLimit, req.exclusive);
      PullKeepsImages(d, driver.Snapshot(), pulled, req, luck, images, files);
      OutcomeOf(d, driver.Snapshot(), pulled, req, luck);
      if !pulled { return Error; }
      var volumeIDs := ChainIDsOf(req.layers);
      r := MakeImage(Spec(req.id, req.diskLimit, req.exclusive, volumeIDs), luck);
    }

    /** The image directory and its dependency file, once the layers are there. */
    method MakeImage(spec: Spec, luck: Luck) returns (r: Result<Image>)
      requires Wired() && Ok() && '/' !in spec.id && spec.id !in imageManager.images
      modifies imageManager, dependencyManager
      ensures r.Okay? <==> Makeable(driver.Snapshot(), spec) && !luck.faults.driver && !luck.faults.ownership && luck.registers
      ensures r.Okay? ==>
                && Ok() && Makes(driver.Snapshot(), spec, r.value)
                && imageManager.images == old(imageManager.images)[spec.id := r.value]
                && dependencyManager.files == old(dependencyManager.files)[FileOf(spec.id) := spec.volumeIDs]
      ensures r.Error? ==>
                && dependencyManager.files == old(dependencyManager.files)
                && imageManager.images - {spec.id} == old(imageManager.images)
                && (spec.id in imageManager.images <==>
                      && Makeable(driver.Snapshot(), spec) && !luck.faults.driver
                      && (luck.faults.ownership || (!luck.registers && !luck.unmounts)))
    {
      ghost var images, files := imageManager.images, dependencyManager.files;
      assert images - {spec.id} == images;
      r := imageManager.Create(spec, luck.faults);
      assert imageManager.images - {spec.id} == images;
      if r.Error? { return; }
      if !luck.registers {
        var destroyed := imageManager.Destroy(spec.id, luck.unmounts);
        assert imageManager.images - {spec.id} == images;
        return Error;
      }
      dependencyManager.Register(ImageRef(spec.id), spec.volumeIDs);
      RegisteredOk(driver.Snapshot(), images, files, spec, r.value);
    }

    static method ChainIDsOf(layers: seq<Layer>) returns (ids: seq<string>)
      ensures ids == ChainIDs(layers)
    {
      ids := [];
      for i := 0 to |layers|
        invariant ids == ChainIDs(layers[..i])
      {
        assert layers[..i + 1][..i] == layers[..i];
        ids := ids + [layers[i].chainID];
      }
      assert layers[..|layers|] == layers;
    }

    /** Creates an image. An id with a slash, or of an existing image, is refused with nothing changed. It succeeds
        exactly when the image's information and the lock can be had, the image can be made, owned and registered, and
        a clean that is asked for can be started. Unless it is refused, the image is there and registered, with every
        image backed by its volumes; or it is not registered, and all others are as before. The clean is a process of
        its own, started whether the image could be made or not; when it cannot be started, an image that has been made
        is reported as an error and stays. */
    method Create(req: Request, luck: Luck) returns (r: Result<Image>, cleaning: Option<int>)
      requires Wired() && Ok() && Sensible(req, luck) && locksmith.held == {}
      modifies driver, locksmith, imageManager, dependencyManager
      ensures locksmith.held == {}
      ensures r.Okay? <==>
                && '/' !in req.id && req.id !in old(imageManager.images) && luck.infoFetched && luck.locked
                && Buildable(old(driver.Snapshot()), req, luck) && !luck.faults.ownership && luck.registers
                && (req.cleanThreshold.Some? ==> luck.cleanStarts)
      ensures '/' in req.id || req.id in old(imageManager.images) || !luck.infoFetched || !luck.locked ==>
                && r.Error? && driver.Snapshot() == old(driver.Snapshot())
                && imageManager.images == old(imageManager.images)
                && dependencyManager.files == old(dependencyManager.files)
      ensures r.Okay? ==>
                && Ok()
                && imageManager.images == old(imageManager.images)[req.id := r.value]
                && dependencyManager.files == old(dependencyManager.files)[FileOf(req.id) := ChainIDs(req.layers)]
                && r.value.volumesSize == BaseSize(old(driver.Snapshot()), req.layers, luck.arrivals)
      ensures req.id !in old(imageManager.images) ==>
                && imageManager.images - {req.id} == old(imageManager.images)
                && (|| (Ok() && req.id in imageManager.images && (r.Error? ==> req.cleanThreshold.Some? && !luck.cleanStarts)
                       && dependencyManager.files == old(dependencyManager.files)[FileOf(req.id) := ChainIDs(req.layers)])
                   || (r.Error? && dependencyManager.files == old(dependencyManager.files)
                       && StoreOk(driver.Snapshot(), old(imageManager.images), dependencyManager.files)
                       && (req.id in imageManager.images ==>
                             && Buildable(old(driver.Snapshot()), req, luck)
                             && (luck.faults.ownership || (!luck.registers && !luck.unmounts)))))
      ensures cleaning == if '/' in req.id || req.id in old(imageManager.images) || !luck.infoFetched || !luck.locked
                             || !luck.cleanStarts
                          then None else req.cleanThreshold
    {
      cleaning := None;
      if '/' in req.id { return Error, None; }
      var taken := imageManager.Exists(req.id);
      if taken { return Error, None; }
      if !luck.infoFetched { return Error, None; }
      if !luck.locked { return Error, None; }
      locksmith.held := locksmith.held + {GLOBAL_LOCK_KEY};
      r := Make(req, luck);
      locksmith.Unlock(GLOBAL_LOCK_KEY);
      assert imageManager.images - {req.id} == old(imageManager.images);
      if req.cleanThreshold.Some? {
        if luck.cleanStarts { cleaning := req.cleanThreshold; } else { r := Error; }
      }
    }

    /** Cleans the store. Every image keeps its volumes, even if the marked ones cannot be listed in the end; and if the
        clean ran through, nothing else is left. */
    method Clean(threshold: int, granted: bool, lists: bool) returns (ok: bool)
      requires Wired() && locksmith.held == {}
      modifies driver, locksmith
      ensures locksmith.held == {}
      ensures old(Ok()) ==> Coherent(driver.Snapshot())
                            && ImagesOk(driver.Snapshot(), imageManager.images, dependencyManager.files)
      ensures old(Ok()) && (ok || lists) ==> Ok()
      ensures threshold == 0 ==> (ok <==> granted && lists)
      ensures old(Ok()) && threshold == 0 && ok ==>
                forall v :: v in driver.vols <==>
                  && v in old(driver.vols) && !HasPrefix(v, "gc.")
                  && exists id :: id in imageManager.images && FileOf(id) in dependencyManager.files
                                  && v in dependencyManager.files[FileOf(id)]
      ensures !old(AllRegistered(imageManager.images.Keys, dependencyManager.files)) && old(Coherent(driver.Snapshot())) ==>
                forall v :: !HasPrefix(v, "gc.") ==> SameVolume(old(driver.Snapshot()), driver.Snapshot(), v)
    {
      ghost var d := driver.Snapshot();
      var noop;
      noop, ok := cleaner.Run(threshold, granted, lists);
      if driver.Snapshot() != d || (!noop && ok) {
        ghost var unused :|
          && Unused(d.vols, imageManager.images.Keys, dependencyManager.files, unused)
          && driver.Snapshot() == if lists then Swept(d, unused) else MarkAll(d, unused).0;
        CleanLeaves(d, imageManager.images, dependencyManager.files, unused);
      }
    }

    /** Deletes an image: its directory first, then its dependency file. */
    method Delete(id: string, unmounts: bool) returns (ok: bool)
      requires Wired() && Ok()
      modifies imageManager, dependencyManager
      ensures Ok()
      ensures ok <==> id in old(imageManager.images) && unmounts
      ensures ok ==>
                && imageManager.images == old(imageManager.images) - {id}
                && dependencyManager.files == old(dependencyManager.files) - {FileOf(id)}
      ensures !ok ==>
                imageManager.images == old(imageManager.images) && dependencyManager.files == old(dependencyManager.files)
    {
      ok := imageManager.Destroy(id, unmounts);
      if !ok { return; }
      var found := dependencyManager.Deregister(ImageRef(id));
      DeletedOk(driver.Snapshot(), old(imageManager.images), old(dependencyManager.files), id);
    }
  }

  /** What a clean leaves of a sound store, and of one with an unregistered image. */
  lemma CleanLeaves(d: Disk<string>, images: map<string, Image>, files: map<string, seq<string>>, unused: seq<string>)
    requires Unused(d.vols, images.Keys, files, unused)
    ensures StoreOk(d, images, files) ==>
              && StoreOk(Swept(d, unused), images, files)
              && Swept(d, unused).vols == Wanted(d.vols, images.Keys, files)
              && Coherent(MarkAll(d, unused).0) && ImagesOk(MarkAll(d, unused).0, images, files)
    ensures Coherent(d) && !AllRegistered(images.Keys, files) ==>
              && (forall v :: !HasPrefix(v, "gc.") ==> SameVolume(d, Swept(d, unused), v))
              && MarkAll(d, unused).0 == d
  {
    if StoreOk(d, images, files) {
      SweptKeepsImages(d, images, files, unused);
      MarkedKeepsImages(d, images, files, unused);
    } else if Coherent(d) && !AllRegistered(images.Keys, files) {
      UnregisteredProtects(d, images.Keys, files, unused);
    }
  }

  /** A pull, successful or not, leaves every image as it was; if it is successful the new layers are there. */
  lemma PullKeepsImages(d: Disk<string>, d': Disk<string>, pulled: bool, req: Request, luck: Luck,
                        images: map<string, Image>, files: map<string, seq<string>>)
    requires StoreOk(d, images, files) && |luck.arrivals| == |req.layers| && NoneLocked(req.layers, {GLOBAL_LOCK_KEY})
    requires ClosedDown(d.vols, req.layers) && AllMeasured(d, req.layers) && NamesFresh(d, req.layers, luck.arrivals)
    requires NoneMarked(NamesUsed(req.layers, luck.arrivals, |req.layers|))
    requires (d', pulled) == (d, false) || (d', pulled) == Built(d, req.layers, luck.arrivals, |req.layers|)
    ensures StoreOk(d', images, files)
  {
    var n := |req.layers|;
    if d' != d {
      BuiltLeaves(d, req.layers, luck.arrivals, n);
      GrownKeepsImages(d, d', NamesUsed(req.layers, luck.arrivals, n), Generated(luck.arrivals, n), images, files);
    }
  }

  lemma {:induction false} SizesOfLayers(d: Disk<string>, d': Disk<string>, layers: seq<Layer>, arrivals: seq<Arrival>, n: nat)
    requires n <= |layers| == |arrivals| && SizesRecorded(d, d', layers, arrivals, |layers|)
    requires AllMeasured(d, layers) && AllArrive(d, layers, arrivals, |layers|)
    requires forall v :: v in d.vols ==> SameVolume(d, d', v)
    requires forall i :: 0 <= i < |layers| ==> layers[i].chainID in d'.vols
    ensures Sizes(d'.metas, ChainIDs(layers[..n])) == BaseSize(d, layers[..n], arrivals[..n])
  {
    if n > 0 {
      SizesOfLayers(d, d', layers, arrivals, n - 1);
      var front, id := layers[..n], layers[n - 1].chainID;
      assert front[..n - 1] == layers[..n - 1] && arrivals[..n][..n - 1] == arrivals[..n - 1];
      assert ChainIDs(front) == ChainIDs(layers[..n - 1]) + [id];
      assert ChainIDs(front)[..n - 1] == ChainIDs(layers[..n - 1]);
      if id in d.vols { assert SameVolume(d, d', id); }
    }
  }

  lemma AllLayersThere(d: Disk<string>, d': Disk<string>, layers: seq<Layer>, arrivals: seq<Arrival>)
    requires |layers| == |arrivals| && Pulled(d, d', true, layers, arrivals, |layers|) && AllMeasured(d, layers)
    ensures AllThere(d', ChainIDs(layers)) && Sizes(d'.metas, ChainIDs(layers)) == BaseSize(d, layers, arrivals)
  {
    var n := |layers|;
    forall id | id in ChainIDs(layers) ensures id in d'.vols && id in d'.metas && id in d'.links {
      var i :| 0 <= i < n && ChainIDs(layers)[i] == id;
      assert layers[i].chainID == id;
    }
    SizesOfLayers(d, d', layers, arrivals, n);
    assert layers[..n] == layers && arrivals[..n] == arrivals;
  }

  /** When a pull succeeds. */
  lemma PullOutcome(d: Disk<string>, d': Disk<string>, pulled: bool, req: Request, luck: Luck)
    requires Coherent(d) && |luck.arrivals| == |req.layers| && NoneLocked(req.layers, {GLOBAL_LOCK_KEY})
    requires ClosedDown(d.vols, req.layers) && AllMeasured(d, req.layers) && NamesFresh(d, req.layers, luck.arrivals)
    requires (d', pulled) == if !Within(req, LayersSize(req.layers)) then (d, false)
                             else Built(d, req.layers, luck.arrivals, |req.layers|)
    ensures pulled <==> Within(req, LayersSize(req.layers)) && AllArrive(d, req.layers, luck.arrivals, |req.layers|)
    ensures pulled ==> Pulled(d, d', true, req.layers, luck.arrivals, |req.layers|)
  {
    BuiltLeaves(d, req.layers, luck.arrivals, |req.layers|);
  }

  /** After it, when the driver makes the image. */
  lemma MakeableOutcome(d': Disk<string>, req: Request, spec: Spec)
    requires AllThere(d', spec.volumeIDs) && spec.diskLimit == req.diskLimit && spec.exclusive == req.exclusive
    ensures Makeable(d', spec) <==> Within(req, Sizes(d'.metas, spec.volumeIDs))
  {
  }

  /** When the pull succeeds and the driver makes the image, and how large its base volumes then are. */
  lemma OutcomeOf(d: Disk<string>, d': Disk<string>, pulled: bool, req: Request, luck: Luck)
    requires Coherent(d) && |luck.arrivals| == |req.layers| && NoneLocked(req.layers, {GLOBAL_LOCK_KEY})
    requires ClosedDown(d.vols, req.layers) && AllMeasured(d, req.layers) && NamesFresh(d, req.layers, luck.arrivals)
    requires (d', pulled) == if !Within(req, LayersSize(req.layers)) then (d, false)
                             else Built(d, req.layers, luck.arrivals, |req.layers|)
    ensures var spec := Spec(req.id, req.diskLimit, req.exclusive, ChainIDs(req.layers));
            && (Buildable(d, req, luck) <==> pulled && Makeable(d', spec) && !luck.faults.driver)
            && (pulled ==> Sizes(d'.metas, spec.volumeIDs) == BaseSize(d, req.layers, luck.arrivals))
  {
    PullOutcome(d, d', pulled, req, luck);
    if pulled {
      AllLayersThere(d, d', req.layers, luck.arrivals);
      MakeableOutcome(d', req, Spec(req.id, req.diskLimit, req.exclusive, ChainIDs(req.layers)));
    }
  }

  /** An image that has just been made and registered is backed, and the others stay so. */
  lemma RegisteredOk(d: Disk<string>, images: map<string, Image>, files: map<string, seq<string>>,
                     spec: Spec, im: Image)
    requires StoreOk(d, images, files) && '/' !in spec.id && Makes(d, spec, im)
    ensures StoreOk(d, images[spec.id := im], files[FileOf(spec.id) := spec.volumeIDs])
  {
    forall x | x in images && x != spec.id ensures FileOf(x) != FileOf(spec.id) { DependencyFilesDistinct(x, spec.id); }
    forall k | 0 <= k < |spec.volumeIDs| ensures spec.volumeIDs[k] in d.vols && spec.volumeIDs[k] in d.links {
      assert spec.volumeIDs[k] in spec.volumeIDs;
    }
  }

  lemma DeletedOk(d: Disk<string>, images: map<string, Image>, files: map<string, seq<string>>, id: string)
    requires StoreOk(d, images, files) && id in images
    ensures StoreOk(d, images - {id}, files - {FileOf(id)})
  {
    forall x | x in images && x != id ensures FileOf(x) != FileOf(id) { DependencyFilesDistinct(x, id); }
  }
}
