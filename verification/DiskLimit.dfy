/** The disk limit of an image: the quota that is set for it and the space that is reported as committed. */
module DiskLimit {
  import opened Wrappers

  const MIN_QUOTA := 1024 * 256

  const BLOCK := 512

  /** An image's quota as the kernel holds it, in blocks, and as the quota file records it, in bytes. */
  datatype Limit = Unlimited | Limited(blocks: nat, recorded: nat)

  /** The quota for an image whose base volumes have `volumeSize` bytes: the limit less that size, unless the limit
      is exclusive, but at least MIN_QUOTA; an error if the base volumes alone exceed the limit. */
  function Quota(diskLimit: int, exclusive: bool, volumeSize: int): Result<int> {
    var left := if exclusive then diskLimit else diskLimit - volumeSize;
    if !exclusive && left < 0 then Error
    else Okay(if left < MIN_QUOTA then MIN_QUOTA else left)
  }

  class ImageQuota {
    var limit: Limit

    /** The kernel holds as many whole blocks as fit into the recorded quota. */
    ghost predicate Valid()
      reads this
    {
      limit.Limited? ==> limit.blocks == limit.recorded / BLOCK
    }

    constructor ()
      ensures Valid() && limit == Unlimited
    {
      limit := Unlimited;
    }

    /** A limit of 0 means none. The kernel counts whole blocks. */
    method ApplyDiskLimit(diskLimit: int, exclusive: bool, volumeSize: int) returns (ok: bool)
      requires limit == Unlimited
      modifies this
      ensures Valid()
      ensures ok <==> diskLimit == 0 || Quota(diskLimit, exclusive, volumeSize).Okay?
      ensures !ok || diskLimit == 0 ==> limit == Unlimited
      ensures ok && diskLimit != 0 ==>
                && limit.Limited? && limit.recorded == Quota(diskLimit, exclusive, volumeSize).value
                && limit.recorded == var left := if exclusive then diskLimit else diskLimit - volumeSize;
                                     if left < MIN_QUOTA then MIN_QUOTA else left
    {
      if diskLimit == 0 { return true; }
      var left := diskLimit;
      if !exclusive {
        left := left - volumeSize;
        if left < 0 { return false; }
      }
      if left < MIN_QUOTA { left := MIN_QUOTA; }
      limit := Limited(left / BLOCK, left);
      ok := true;
    }

    /** The quota as the kernel reports it, in bytes: the largest number of whole blocks within the recorded
        quota, and 0 for an image without a limit. */
    method QuotaSize() returns (bytes: nat)
      requires Valid()
      ensures limit.Limited? ==> bytes <= limit.recorded < bytes + BLOCK && bytes % BLOCK == 0
      ensures limit.Unlimited? ==> bytes == 0
    {
      bytes := if limit == Unlimited then 0 else limit.blocks * BLOCK;
    }

    /** The committed space of the image's statistics: its base volumes and the quota that the kernel reports. */
    method CommittedSpace(volumeSize: int) returns (bytes: int)
      requires Valid()
      ensures limit.Limited? ==> bytes <= volumeSize + limit.recorded < bytes + BLOCK
      ensures limit.Unlimited? ==> bytes == volumeSize
      ensures limit.Limited? && limit.recorded % BLOCK == 0 ==> bytes == volumeSize + limit.recorded
    {
      var quota := QuotaSize();
      bytes := volumeSize + quota;
    }
  }

  /** Setting a limit and reading the statistics: an inclusive limit L is refused exactly when the base volumes
      exceed it; otherwise the committed space is at least L - 511, and at most L exactly when L leaves MIN_QUOTA
      beside the base volumes. An exclusive limit is never refused, and committed on top of the base volumes. */
  method LimitAndStats(diskLimit: int, exclusive: bool, volumeSize: nat) returns (ok: bool, committed: int)
    requires diskLimit > 0
    ensures ok <==> exclusive || volumeSize <= diskLimit
    ensures ok && !exclusive ==>
              diskLimit - 511 <= committed && (committed <= diskLimit <==> diskLimit - volumeSize >= MIN_QUOTA)
    ensures ok && !exclusive && diskLimit - volumeSize < MIN_QUOTA ==> committed == volumeSize + MIN_QUOTA
    ensures ok && exclusive && diskLimit < MIN_QUOTA ==> committed == volumeSize + MIN_QUOTA
    ensures ok && exclusive ==> volumeSize + diskLimit - 511 <= committed
    ensures ok && exclusive && diskLimit >= MIN_QUOTA ==> committed <= volumeSize + diskLimit
  {
    var image := new ImageQuota();
    ok := image.ApplyDiskLimit(diskLimit, exclusive, volumeSize);
    committed := image.CommittedSpace(volumeSize);
  }
}
