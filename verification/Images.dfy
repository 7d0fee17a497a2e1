/** Image directories: creating, listing and destroying them. */
module Images {
  import opened Wrappers
  import opened Disk
  import opened Drivers
  import opened Decimals
  import opened Listings
  import DiskLimit

  /** An image directory: the lower directories in its mount options, topmost first, the size of its base
      volumes, and its quota file, if it has one. */
  datatype Image = Image(lowers: seq<ShortId>, volumesSize: int, quotaFile: Option<string>)

  datatype Spec = Spec(id: string, diskLimit: int, exclusive: bool, volumeIDs: seq<string>)

  /** What can go wrong outside the model: setting the quota, making directories, mounting, writing the image
      info (all in the driver), or changing the owner. */
  datatype Faults = Faults(driver: bool, ownership: bool)

  /** The quota file for a disk limit, given the size of the base volumes; an error if they exceed the limit. */
  function QuotaFile(spec: Spec, volumesSize: int): Result<Option<string>> {
    if spec.diskLimit == 0 then Okay(None)
    else
      match DiskLimit.Quota(spec.diskLimit, spec.exclusive, volumesSize)
      case Error => Error
      case Okay(q) => Okay(Some(Print(q)))
  }

  /** The image that the driver makes from the volumes it finds. */
  ghost predicate Makes(d: Disk<string>, spec: Spec, im: Image) {
    && AllThere(d, spec.volumeIDs) && LowersOf(d.links, spec.volumeIDs, im.lowers)
    && im.volumesSize == Sizes(d.metas, spec.volumeIDs)
    && QuotaFile(spec, im.volumesSize) == Okay(im.quotaFile)
  }

  ghost predicate Makeable(d: Disk<string>, spec: Spec) {
    AllThere(d, spec.volumeIDs) && QuotaFile(spec, Sizes(d.metas, spec.volumeIDs)).Okay?
  }

  class ImageManager {
    const driver: Driver
    var images: map<string, Image>

    constructor (driver: Driver)
      ensures this.driver == driver && images == map[]
    {
      this.driver := driver;
      images := map[];
    }

    method ImageIDs() returns (ids: seq<string>)
      ensures Lists(ids, images.Keys)
    {
      ids := List(images.Keys);
    }

    method Exists(id: string) returns (ok: bool)
      ensures ok <==> id in images
    {
      ok := id in images;
    }

    /** The driver's part, given a directory for the image. */
    method CreateImage(spec: Spec, faults: Faults) returns (r: Result<Image>)
      ensures r.Okay? <==> Makeable(driver.Snapshot(), spec) && !faults.driver
      ensures r.Okay? ==> Makes(driver.Snapshot(), spec, r.value)
    {
      var lower := driver.GetLowerDirs(spec.volumeIDs);
      if lower.Error? { return Error; }
      var (lowers, size) := lower.value;
      var quotaFile := None;
      if spec.diskLimit != 0 {
        var q := DiskLimit.Quota(spec.diskLimit, spec.exclusive, size);
        if q.Error? { return Error; }
        quotaFile := Some(Print(q.value));
      }
      if faults.driver { return Error; }
      r := Okay(Image(lowers, size, quotaFile));
    }

    /** Makes an image. When the directory cannot be made because there is one, the clean-up destroys the image
        that was there. When the driver fails, the clean-up leaves no image. When changing the owner fails, the
        clean-up does not see the error, and the image stays. */
    method Create(spec: Spec, faults: Faults) returns (r: Result<Image>)
      modifies this`images
      ensures spec.id in old(images) ==> r.Error? && images == old(images) - {spec.id}
      ensures spec.id !in old(images) ==>
                if !Makeable(driver.Snapshot(), spec) || faults.driver then
                  r.Error? && images == old(images)
                else
                  && spec.id in images && images == old(images)[spec.id := images[spec.id]]
                  && Makes(driver.Snapshot(), spec, images[spec.id])
                  && r == if faults.ownership then Error else Okay(images[spec.id])
    {
      if spec.id in images {
        images := images - {spec.id};         // deferred clean-up
        return Error;
      }
      images := images[spec.id := Image([], 0, None)];
      var made := CreateImage(spec, faults);
      if made.Error? {
        images := images - {spec.id};         // deferred clean-up
        return Error;
      }
      images := images[spec.id := made.value];
      if faults.ownership { return Error; }
      r := made;
    }

    /** `unmounts` says whether the image can be unmounted. */
    method Destroy(id: string, unmounts: bool) returns (ok: bool)
      modifies this`images
      ensures ok <==> id in old(images) && unmounts
      ensures images == if ok then old(images) - {id} else old(images)
    {
      if id !in images { return false; }
      if unmounts { images := images - {id}; }
      ok := id !in images;
    }
  }
}
