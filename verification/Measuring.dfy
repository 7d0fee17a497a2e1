/** Measuring a store: the sizes of its volumes and the space committed to its images. */
module Measuring {
  import opened Wrappers
  import opened Disk
  import opened Decimals
  import opened Names
  import opened Drivers
  import opened Listings
  import opened Images
  import DiskLimit
  import opened GarbageCollection

  /** The volumes that are depended on, or already marked. */
  function Kept(vols: set<string>, ids: set<string>, files: map<string, seq<string>>): set<string> {
    set v | v in vols && (HasPrefix(v, "gc.") || DependedOn(v, ids, files))
  }

  /** strconv.ParseInt of a quota file; a missing or empty one counts as 0. */
  function ReadQuota(file: Option<string>): Result<int> {
    match file
    case None => Okay(0)
    case Some(text) =>
      if text == "" then Okay(0)
      else
        match ScanInt(text)
        case Error => Error
        case Okay((n, rest)) => if rest == "" then Okay(n) else Error
  }

  /** A quota file that the driver writes is read back. */
  lemma ReadPrinted(n: int)
    ensures ReadQuota(Some(Print(n))) == Okay(n)
  {
    ScanPrint(n, "");
    assert Print(n) + "" == Print(n);
  }

  predicate QuotasReadable(images: map<string, Image>) {
    forall id :: id in images ==> ReadQuota(images[id].quotaFile).Okay?
  }

  /** What the quota files say: an image without an entry has none, or an empty one; the others have their entry
      printed. */
  ghost predicate Records(images: map<string, Image>, quotas: map<string, int>) {
    forall id :: id in images ==>
      if id in quotas then images[id].quotaFile == Some(Print(quotas[id]))
      else images[id].quotaFile == None || images[id].quotaFile == Some("")
  }

  /** Such files are readable, and add up to the entries. */
  lemma RecordedTotal(images: map<string, Image>, quotas: map<string, int>)
    requires Records(images, quotas)
    ensures QuotasReadable(images)
    ensures TotalSize(Quotas(images), images.Keys) == TotalSize(quotas, images.Keys)
  {
    forall id | id in images
      ensures ReadQuota(images[id].quotaFile) == Okay(if id in quotas then quotas[id] else 0)
    {
      if id in quotas { ReadPrinted(quotas[id]); }
    }
    TotalSizeSame(Quotas(images), quotas, images.Keys);
  }

  /** The quota of a new image is the limit less its base volumes, or the whole limit if that is exclusive, but at least
      256 KiB; without a limit it has none. */
  lemma QuotaOfNewImage(d: Disk<string>, spec: Spec, im: Image)
    requires Makes(d, spec, im)
    ensures spec.diskLimit == 0 ==> im.quotaFile == None
    ensures spec.diskLimit != 0 ==>
              var left := if spec.exclusive then spec.diskLimit else spec.diskLimit - Sizes(d.metas, spec.volumeIDs);
              ReadQuota(im.quotaFile) == Okay(if left < 262144 then 262144 else left)
  {
    if spec.diskLimit != 0 { ReadPrinted(DiskLimit.Quota(spec.diskLimit, spec.exclusive, im.volumesSize).value); }
  }

  /** The images' recorded quotas. */
  function Quotas(images: map<string, Image>): map<string, int> {
    map id | id in images && ReadQuota(images[id].quotaFile).Okay? :: ReadQuota(images[id].quotaFile).value
  }

  class StoreMeasurer {
    const driver: Driver
    const gc: GarbageCollector

    constructor (driver: Driver, gc: GarbageCollector)
      ensures this.driver == driver && this.gc == gc
    {
      this.driver, this.gc := driver, gc;
    }

    method CountVolumesSize(volumes: seq<string>) returns (size: int)
      ensures size == Sizes(driver.metas, volumes)
    {
      size := 0;
      for i := 0 to |volumes|
        invariant size == Sizes(driver.metas, volumes[..i])
      {
        assert volumes[..i + 1][..i] == volumes[..i];
        size := size + (if volumes[i] in driver.metas then driver.metas[volumes[i]] else 0);
      }
      TakeAll(volumes);
    }

    method TotalVolumesSize() returns (size: int)
      ensures size == TotalSize(driver.metas, driver.vols)
    {
      var volumes := driver.Volumes();
      size := CountVolumesSize(volumes);
      ListingSize(driver.metas, volumes, driver.vols);
    }

    method UnusedVolumesSize() returns (r: Result<int>)
      ensures r.Okay? <==> AllRegistered(gc.imageManager.images.Keys, gc.dependencyManager.files)
      ensures r.Okay? ==> r.value == TotalSize(driver.metas,
                Orphans(gc.driver.vols, gc.imageManager.images.Keys, gc.dependencyManager.files))
    {
      var unused := gc.UnusedVolumes();
      if unused.Error? { return Error; }
      var size := CountVolumesSize(unused.value);
      ListingSize(driver.metas, unused.value,
                  Orphans(gc.driver.vols, gc.imageManager.images.Keys, gc.dependencyManager.files));
      r := Okay(size);
    }

    /** Used is total less unused: exactly the sizes of the volumes that are depended on or already marked, a
        volume without metadata counting as 0. */
    method UsedVolumesSize() returns (r: Result<int>)
      requires gc.driver == driver
      ensures r.Okay? <==> AllRegistered(gc.imageManager.images.Keys, gc.dependencyManager.files)
      ensures r.Okay? ==> r.value == TotalSize(driver.metas,
                Kept(driver.vols, gc.imageManager.images.Keys, gc.dependencyManager.files))
    {
      var total := TotalVolumesSize();
      var unused := UnusedVolumesSize();
      if unused.Error? { return Error; }
      UsedAndUnused(driver.metas, driver.vols, gc.imageManager.images.Keys, gc.dependencyManager.files);
      r := Okay(total - unused.value);
    }

    /** The sum of the images' quotas, a missing or empty file counting 0; an error if one of them cannot be parsed. */
    method CommittedQuota() returns (r: Result<int>)
      ensures r.Okay? <==> QuotasReadable(gc.imageManager.images)
      ensures r.Okay? ==> r.value == TotalSize(Quotas(gc.imageManager.images), gc.imageManager.images.Keys)
      ensures forall quotas :: Records(gc.imageManager.images, quotas) ==>
                r == Okay(TotalSize(quotas, gc.imageManager.images.Keys))
    {
      var images := gc.imageManager.images;
      var ids := gc.imageManager.ImageIDs();
      var total := 0;
      for i := 0 to |ids|
        invariant forall k :: 0 <= k < i ==> ReadQuota(images[ids[k]].quotaFile).Okay?
        invariant total == Sizes(Quotas(images), ids[..i])
      {
        assert ids[i] in Elements(ids);
        assert ids[..i + 1][..i] == ids[..i];
        var quota := ReadQuota(images[ids[i]].quotaFile);
        if quota.Error? {
          forall quotas ensures !Records(images, quotas) { if Records(images, quotas) { RecordedTotal(images, quotas); } }
          return Error;
        }
        total := total + quota.value;
      }
      TakeAll(ids);
      forall id | id in images ensures ReadQuota(images[id].quotaFile).Okay? {
        assert id in Elements(ids);
        var k :| 0 <= k < |ids| && ids[k] == id;
      }
      ListingSize(Quotas(images), ids, images.Keys);
      forall quotas | Records(images, quotas) ensures total == TotalSize(quotas, images.Keys) {
        RecordedTotal(images, quotas);
      }
      r := Okay(total);
    }
  }

  lemma UsedAndUnused(sizes: map<string, int>, vols: set<string>, ids: set<string>, files: map<string, seq<string>>)
    ensures TotalSize(sizes, vols)
            == TotalSize(sizes, Kept(vols, ids, files)) + TotalSize(sizes, Orphans(vols, ids, files))
  {
    TotalSizeUnion(sizes, Kept(vols, ids, files), Orphans(vols, ids, files));
    assert Kept(vols, ids, files) + Orphans(vols, ids, files) == vols;
  }
}
