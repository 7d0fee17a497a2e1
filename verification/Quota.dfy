/** Limiting how much an image's layers may unpack to: the byte-limited reader and the quota kept across layers. */
module Quota {

  type Bytes = seq<bv8>

  datatype ReadError = Nil | Eof | QuotaExceeded | Failed

  /** A stream that hands out its bytes in pieces of any size. Some reads may give nothing without an error, and
      the end may or may not be reported together with the last bytes. A faulty stream may fail at any read. */
  class Stream {
    var rest: Bytes
    var stalls: nat                           // how many more reads may give nothing
    const faulty: bool

    constructor (content: Bytes, stalls: nat, faulty: bool)
      ensures rest == content && this.stalls == stalls && this.faulty == faulty
    {
      rest, this.stalls, this.faulty := content, stalls, faulty;
    }

    /** Reads into the first `limit` bytes of p. */
    method Read(p: array<bv8>, limit: nat) returns (n: nat, err: ReadError)
      requires limit <= p.Length
      modifies this, p
      ensures n <= limit && n <= |old(rest)|
      ensures p[..n] == old(rest)[..n] && p[n..] == old(p[n..]) && rest == old(rest)[n..]
      ensures err != QuotaExceeded && (err == Eof ==> rest == []) && (err == Failed ==> faulty)
      ensures stalls <= old(stalls)
      ensures limit > 0 && err == Nil ==> n > 0 || stalls < old(stalls)
    {
      n := if limit < |rest| then limit else |rest|;
      if n > 1 {
        var fewer: nat :| 0 < fewer <= n;
        n := fewer;
      }
      var stall: bool, fault: bool, early: bool := *, *, *;
      stall := stall && stalls > 0;
      if stall { n, stalls := 0, stalls - 1; }
      for i := 0 to n
        invariant rest == old(rest) && n <= |rest| && n <= limit
        invariant stalls == if stall then old(stalls) - 1 else old(stalls)
        invariant p[..i] == rest[..i] && p[n..] == old(p[n..])
      {
        p[i] := rest[i];
      }
      err := if faulty && fault then Failed
             else if n == |rest| && (early || n == 0) && !stall then Eof
             else Nil;
      rest := rest[n..];
    }
  }

  class QuotaedReader {
    const delegate: Stream
    var quotaLeft: int

    constructor (delegate: Stream, quota: int)
      ensures this.delegate == delegate && quotaLeft == quota
    {
      this.delegate := delegate;
      quotaLeft := quota;
    }

    /** Asks the delegate for at most one byte more than is left of the quota, so that the slice of p is within
        bounds and what is left never falls below -1. */
    method Read(p: array<bv8>) returns (n: nat, err: ReadError)
      requires quotaLeft >= -1
      modifies this, delegate, p
      ensures n <= p.Length && n <= |old(delegate.rest)|
      ensures p[..n] == old(delegate.rest)[..n] && delegate.rest == old(delegate.rest)[n..]
      ensures quotaLeft == old(quotaLeft) - n && quotaLeft >= -1
      ensures err == QuotaExceeded <==> quotaLeft < 0
      ensures (err == Eof ==> delegate.rest == []) && (err == Failed ==> delegate.faulty)
      ensures delegate.stalls <= old(delegate.stalls)
      ensures p.Length > 0 && old(quotaLeft) >= 0 && err == Nil ==> n > 0 || delegate.stalls < old(delegate.stalls)
    {
      var limit: nat := p.Length;
      if p.Length > quotaLeft {
        limit := quotaLeft + 1;
      }
      n, err := delegate.Read(p, limit);
      quotaLeft := quotaLeft - n;
      if quotaLeft < 0 {
        err := QuotaExceeded;
      }
    }
  }

  /** io.Copy through the reader, with a buffer of any size: however the stream is chopped up, if it does not fail
      the copy succeeds exactly when the stream is no longer than the quota, and then it has copied all of it;
      otherwise it stops one byte over. If the stream fails, what has been copied is the stream's start. */
  method Copy(q: QuotaedReader, buffer: array<bv8>) returns (written: Bytes, err: ReadError)
    requires q.quotaLeft >= 0 && buffer.Length > 0
    modifies q, q.delegate, buffer
    ensures err != Nil && (err == Failed ==> q.delegate.faulty)
    ensures err == Eof ==> |old(q.delegate.rest)| <= old(q.quotaLeft) && written == old(q.delegate.rest)
    ensures err == QuotaExceeded ==>
              |old(q.delegate.rest)| > old(q.quotaLeft) && written == old(q.delegate.rest)[..old(q.quotaLeft) + 1]
    ensures |written| <= |old(q.delegate.rest)| && written == old(q.delegate.rest)[..|written|]
    ensures q.quotaLeft == old(q.quotaLeft) - |written| >= -1
  {
    ghost var content, quota := q.delegate.rest, q.quotaLeft;
    written, err := [], Nil;
    while err == Nil
      invariant |written| <= |content| && written == content[..|written|]
      invariant q.delegate.rest == content[|written|..]
      invariant q.quotaLeft == quota - |written| && q.quotaLeft >= -1
      invariant err == QuotaExceeded <==> q.quotaLeft < 0
      invariant (err == Eof ==> q.delegate.rest == []) && (err == Failed ==> q.delegate.faulty)
      decreases |q.delegate.rest| + q.delegate.stalls, err == Nil
    {
      var n: nat;
      n, err := q.Read(buffer);
      assert content[..|written|] + content[|written|..][..n] == content[..|written| + n];
      written := written + buffer[..n];
    }
  }

  // ------------------------------------------------------------------ layers

  const UNKNOWN_LAYER_SIZE := -1

  /** A layer's blob as it arrives: the size in the manifest, the size the registry reports, the number of bytes
      read, what it unpacks to, whether its compression can be read, whether its checksums are the manifest's, and
      whether reading it may fail. */
  datatype Blob = Blob(
    manifestSize: int,
    reportedSize: int,
    actualSize: int,
    content: Bytes,
    readable: bool,
    sumsMatch: bool,
    faulty: bool)

  /** Whether layer validation is skipped, whether the base image is an OCI layout, where that covers checksums, and
      whether the quota is enforced. */
  datatype Policy = Policy(skipValidation: bool, oci: bool, skipQuota: bool)

  predicate SizeValid(skip: bool, manifestSize: int, size: int) {
    skip || manifestSize == -1 || size == UNKNOWN_LAYER_SIZE || manifestSize == size
  }

  predicate SumsValid(p: Policy, b: Blob) {
    (p.skipValidation && p.oci) || b.sumsMatch
  }

  /** The quota has room for the layer, or is not enforced. */
  predicate Accepted(p: Policy, quota: int, b: Blob) {
    && SizeValid(p.skipValidation, b.manifestSize, b.reportedSize)
    && SizeValid(p.skipValidation, b.manifestSize, b.actualSize)
    && (p.skipQuota || |b.content| <= quota)
    && b.readable && SumsValid(p, b)
  }

  class LayerSource {
    const policy: Policy
    var imageQuota: int

    constructor (policy: Policy, diskLimit: int)
      ensures this.policy == policy && imageQuota == diskLimit
    {
      this.policy := policy;
      imageQuota := diskLimit;
    }

    /** Takes the layer's unpacked size off the quota, or fails and leaves the quota alone. Unless reading fails,
        it succeeds exactly if: each size is the manifest's, or unknown, or the manifest has none, or validation is
        skipped; the checksums match, or validation is skipped for an OCI layout; and what it unpacks to is within the
        quota, if that is enforced. */
    method Fetch(b: Blob, buffer: array<bv8>, stalls: nat) returns (ok: bool)
      requires buffer.Length > 0 && (policy.skipQuota || imageQuota >= 0)
      modifies this, buffer
      ensures ok ==> Accepted(policy, old(imageQuota), b)
      ensures !b.faulty ==>
                (ok <==>
                  && (policy.skipValidation || b.manifestSize == -1
                      || (b.reportedSize in {-1, b.manifestSize} && b.actualSize in {-1, b.manifestSize}))
                  && b.readable && (b.sumsMatch || (policy.skipValidation && policy.oci))
                  && (policy.skipQuota || |b.content| <= old(imageQuota)))
      ensures imageQuota == if ok then old(imageQuota) - |b.content| else old(imageQuota)
    {
      if !SizeValid(policy.skipValidation, b.manifestSize, b.reportedSize) { return false; }
      if !b.readable { return false; }
      var size := |b.content|;
      if !policy.skipQuota {
        var stream := new Stream(b.content, stalls, b.faulty);
        var reader := new QuotaedReader(stream, imageQuota);
        var written, err := Copy(reader, buffer);
        if err != Eof { return false; }
        size := |written|;
      } else {
        var fault: bool := *;
        if b.faulty && fault { return false; }
      }
      if !SizeValid(policy.skipValidation, b.manifestSize, b.actualSize) { return false; }
      if !SumsValid(policy, b) { return false; }
      imageQuota := imageQuota - size;
      ok := true;
    }

    /** Conservation: over any layers, fetched one after another with the quota enforced, what is left and what
        the accepted layers unpack to add up to what there was, and nothing negative is ever left. */
    method FetchAll(blobs: seq<Blob>, buffer: array<bv8>, stalls: nat) returns (fetched: seq<Blob>)
      requires buffer.Length > 0 && !policy.skipQuota && imageQuota >= 0
      modifies this, buffer
      ensures imageQuota + Unpacked(fetched) == old(imageQuota) && imageQuota >= 0
      ensures (forall i :: 0 <= i < |blobs| ==> !blobs[i].faulty) ==>
                fetched == Fetched(policy, old(imageQuota), blobs).0
    {
      fetched := [];
      for i := 0 to |blobs|
        invariant imageQuota >= 0
        invariant (forall k :: 0 <= k < i ==> !blobs[k].faulty) ==>
                    (fetched, imageQuota) == Fetched(policy, old(imageQuota), blobs[..i])
        invariant imageQuota + Unpacked(fetched) == old(imageQuota)
      {
        assert blobs[..i + 1][..i] == blobs[..i];
        var ok := Fetch(blobs[i], buffer, stalls);
        if ok {
          assert (fetched + [blobs[i]])[..|fetched|] == fetched;
          fetched := fetched + [blobs[i]];
        }
      }
      assert blobs[..|blobs|] == blobs;
    }
  }

  function Unpacked(blobs: seq<Blob>): nat {
    if blobs == [] then 0 else Unpacked(blobs[..|blobs| - 1]) + |blobs[|blobs| - 1].content|
  }

  /** The layers that are accepted, and the quota that is left. */
  function Fetched(p: Policy, quota: int, blobs: seq<Blob>): (seq<Blob>, int) {
    if blobs == [] then ([], quota)
    else
      var (done, left) := Fetched(p, quota, blobs[..|blobs| - 1]);
      var b := blobs[|blobs| - 1];
      if Accepted(p, left, b) then (done + [b], left - |b.content|) else (done, left)
  }

  /** The layer is acceptable, apart from the quota. */
  predicate Valid(p: Policy, b: Blob) {
    Accepted(p.(skipQuota := true), 0, b)
  }

  /** All layers of an image are accepted exactly when every one is valid and together they fit the quota. */
  lemma {:induction false} AllFetchedIff(p: Policy, quota: int, blobs: seq<Blob>)
    requires quota >= 0 && !p.skipQuota
    ensures Fetched(p, quota, blobs).0 == blobs
            <==> (forall i :: 0 <= i < |blobs| ==> Valid(p, blobs[i])) && Unpacked(blobs) <= quota
    ensures |Fetched(p, quota, blobs).0| <= |blobs|
    ensures Fetched(p, quota, blobs).0 == blobs ==> Fetched(p, quota, blobs).1 == quota - Unpacked(blobs)
  {
    if blobs != [] {
      var front, b := blobs[..|blobs| - 1], blobs[|blobs| - 1];
      AllFetchedIff(p, quota, front);
      assert blobs == front + [b];
      var all := Fetched(p, quota, blobs).0;
      if all == blobs { assert all[..|front|] == front; }
      assert (forall i :: 0 <= i < |blobs| ==> Valid(p, blobs[i])) ==> forall i :: 0 <= i < |front| ==> Valid(p, front[i]);
    }
  }
}
