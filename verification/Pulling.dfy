/** Pulling an image's layers into volumes, with no other process at work. */
module Pulling {
  import opened Wrappers
  import opened Disk
  import opened Volumes
  import opened Drivers
  import opened GarbageCollection
  import opened Cleaners

  datatype Layer = Layer(chainID: string, size: int)

  /** What happens if a layer has to be built: whether its lock, its blob, the owner change and the base directory
      succeed, what unpacking gives, whether opaque attributes can be set and metadata written, and the names that are
      generated for it. */
  datatype Arrival = Arrival(
    locks: bool,
    streams: bool,
    chowns: bool,
    bases: bool,
    unpacked: Option<int>,
    opaques: bool,
    measures: bool,
    temp: string,
    gen: ShortId)

  /** Downloading and unpacking a layer into a temporary volume, and giving that its final name. */
  function Downloaded(d: Disk<string>, layer: Layer, a: Arrival): (Disk<string>, bool) {
    if !a.streams then (d, false)
    else
      var (d1, made) := Complete(d, CvMkdir(a.temp), a.gen);
      if !made || !a.chowns || !a.bases then (d1, false)
      else if a.unpacked.None? then (Complete(d1, DvRead(layer.chainID), "").0, false)
      else if !a.opaques || !a.measures then (d1, false)
      else Complete(d1.(metas := d1.metas[layer.chainID := a.unpacked.value]), MvStat(a.temp, layer.chainID), "")
  }

  /** Building the lowest n layers, from the topmost missing one downwards. */
  function Built(d: Disk<string>, layers: seq<Layer>, arrivals: seq<Arrival>, n: nat): (Disk<string>, bool)
    requires n <= |layers| == |arrivals|
  {
    if n == 0 || layers[n - 1].chainID in d.vols then (d, true)
    else if !arrivals[n - 1].locks then (d, false)
    else
      var (d1, ok) := Built(d, layers, arrivals, n - 1);
      if ok then Downloaded(d1, layers[n - 1], arrivals[n - 1]) else (d1, false)
  }

  function LayersSize(layers: seq<Layer>): int {
    if layers == [] then 0 else LayersSize(layers[..|layers| - 1]) + layers[|layers| - 1].size
  }

  function ChainIDs(layers: seq<Layer>): (ids: seq<string>)
    ensures |ids| == |layers| && forall i :: 0 <= i < |ids| ==> ids[i] == layers[i].chainID
  {
    if layers == [] then [] else ChainIDs(layers[..|layers| - 1]) + [layers[|layers| - 1].chainID]
  }

  class BaseImagePuller {
    const driver: Driver
    const locksmith: Locksmith

    constructor (driver: Driver, locksmith: Locksmith)
      ensures this.driver == driver && this.locksmith == locksmith
    {
      this.driver, this.locksmith := driver, locksmith;
    }

    method LayersSizeOf(layers: seq<Layer>) returns (total: int)
      ensures total == LayersSize(layers)
    {
      total := 0;
      for i := 0 to |layers|
        invariant total == LayersSize(layers[..i])
      {
        assert layers[..i + 1][..i] == layers[..i];
        total := total + layers[i].size;
      }
      assert layers[..|layers|] == layers;
    }

    /** The layers' declared sizes exceed an inclusive limit. */
    method QuotaExceeded(layers: seq<Layer>, diskLimit: int, exclusive: bool) returns (exceeded: bool)
      ensures exceeded <==> !exclusive && diskLimit != 0 && LayersSize(layers) > diskLimit
    {
      if exclusive || diskLimit == 0 { return false; }
      var total := LayersSizeOf(layers);
      exceeded := total > diskLimit;
    }

    method Pull(layers: seq<Layer>, arrivals: seq<Arrival>, diskLimit: int, exclusive: bool) returns (ok: bool)
      requires |layers| == |arrivals| && NoneLocked(layers, locksmith.held)
      modifies driver, locksmith
      ensures locksmith.held == old(locksmith.held)
      ensures (driver.Snapshot(), ok)
              == if !exclusive && diskLimit != 0 && LayersSize(layers) > diskLimit then (old(driver.Snapshot()), false)
                 else Built(old(driver.Snapshot()), layers, arrivals, |layers|)
    {
      var exceeded := QuotaExceeded(layers, diskLimit, exclusive);
      if exceeded { return false; }
      ok := BuildLayer(|layers| - 1, layers, arrivals);
    }

    /** Returns at the first layer that exists, counting downwards; every lock taken is released again. */
    method BuildLayer(index: int, layers: seq<Layer>, arrivals: seq<Arrival>) returns (ok: bool)
      requires -1 <= index < |layers| == |arrivals| && NoneLocked(layers[..index + 1], locksmith.held)
      modifies driver, locksmith
      ensures locksmith.held == old(locksmith.held)
      ensures (driver.Snapshot(), ok) == Built(old(driver.Snapshot()), layers, arrivals, index + 1)
      decreases index + 1
    {
      if index < 0 { return true; }
      var layer, arrival := layers[index], arrivals[index];
      var found := driver.VolumeExists(layer.chainID);
      if found { return true; }
      assert layers[..index + 1][index] == layer;
      if !arrival.locks { return false; }
      locksmith.held := locksmith.held + {layer.chainID};
      // With no other process at work, the second look at this point finds nothing new; module Protocol has it.
      LowerNotLocked(layers, index, old(locksmith.held));
      ok := BuildLayer(index - 1, layers, arrivals);
      if ok { ok := DownloadLayer(layer, arrival); }
      locksmith.Unlock(layer.chainID);
    }

    method DownloadLayer(layer: Layer, a: Arrival) returns (ok: bool)
      modifies driver
      ensures (driver.Snapshot(), ok) == Downloaded(old(driver.Snapshot()), layer, a)
    {
      if !a.streams { return false; }
      ok := driver.CreateVolume(a.temp, a.gen);
      if !ok { return; }
      if !a.chowns { return false; }
      if !a.bases { return false; }
      if a.unpacked.None? {
        driver.DestroyVolume(layer.chainID);
        return false;
      }
      if !a.opaques { return false; }
      if !a.measures { return false; }
      driver.WriteVolumeMeta(layer.chainID, a.unpacked.value);
      ok := driver.MoveVolume(a.temp, layer.chainID);
    }
  }

  /** The layers' chain ids are distinct, and none is locked. */
  ghost predicate NoneLocked(layers: seq<Layer>, held: set<string>) {
    && (forall i :: 0 <= i < |layers| ==> layers[i].chainID !in held)
    && (forall i, j :: 0 <= i < j < |layers| ==> layers[i].chainID != layers[j].chainID)
  }

  lemma LowerNotLocked(layers: seq<Layer>, index: nat, held: set<string>)
    requires index < |layers| && NoneLocked(layers[..index + 1], held)
    ensures NoneLocked(layers[..index], held + {layers[index].chainID})
  {
    assert layers[..index + 1][index] == layers[index];
    forall i | 0 <= i < index ensures layers[..index][i] == layers[..index + 1][i] {
    }
  }

  // ------------------------------------------------------------------ what a pull leaves

  /** The generated names are new, and distinct. */
  ghost predicate NamesFresh(d: Disk<string>, layers: seq<Layer>, arrivals: seq<Arrival>) {
    && (forall i :: 0 <= i < |arrivals| ==> arrivals[i].temp !in d.vols && arrivals[i].gen !in d.syms)
    && (forall i, j :: 0 <= i < |arrivals| && 0 <= j < |layers| ==> arrivals[i].temp != layers[j].chainID)
    && (forall i, j :: 0 <= i < j < |arrivals| ==>
          arrivals[i].temp != arrivals[j].temp && arrivals[i].gen != arrivals[j].gen)
  }

  /** A layer's volume exists only if those of all layers below it do. */
  ghost predicate ClosedDown(vols: set<string>, layers: seq<Layer>) {
    forall i, j :: 0 <= i < j < |layers| && layers[j].chainID in vols ==> layers[i].chainID in vols
  }

  /** Every layer that has a volume has its metadata. */
  ghost predicate AllMeasured(d: Disk<string>, layers: seq<Layer>) {
    forall i :: 0 <= i < |layers| && layers[i].chainID in d.vols ==> layers[i].chainID in d.metas
  }

  /** The names and short ids that building the lowest n layers works with. */
  function NamesUsed(layers: seq<Layer>, arrivals: seq<Arrival>, n: nat): set<string>
    requires n <= |layers| == |arrivals|
  {
    if n == 0 then {} else NamesUsed(layers, arrivals, n - 1) + {layers[n - 1].chainID, arrivals[n - 1].temp}
  }

  function Generated(arrivals: seq<Arrival>, n: nat): set<ShortId>
    requires n <= |arrivals|
  {
    if n == 0 then {} else Generated(arrivals, n - 1) + {arrivals[n - 1].gen}
  }

  /** d' is d with volumes added under some of the names: the index is coherent, and no volume that was there,
      and no other name, is touched. */
  ghost predicate Grown(d: Disk<string>, d': Disk<string>, names: set<string>, gens: set<ShortId>) {
    && Coherent(d') && d.vols <= d'.vols <= d.vols + names && d'.syms.Keys <= d.syms.Keys + gens
    && forall v :: v in d.vols || v !in names ==> SameVolume(d, d', v)
  }

  lemma GrownTwice(a: Disk<string>, b: Disk<string>, c: Disk<string>,
                   names: set<string>, names': set<string>, gens: set<ShortId>, gens': set<ShortId>)
    requires Grown(a, b, names, gens) && Grown(b, c, names', gens')
    ensures Grown(a, c, names + names', gens + gens')
  {
    forall v | v in a.vols || v !in names + names' ensures SameVolume(a, c, v) {
      SameVolumeTwice(a, b, c, v);
    }
  }

  /** Everything goes well when the layer is downloaded. */
  predicate Arrives(a: Arrival) {
    a.streams && a.chowns && a.bases && a.unpacked.Some? && a.opaques && a.measures
  }

  /** A download succeeds exactly when everything goes well. It adds the layer's volume, with the number of bytes that
      unpacking reported as its size, or leaves at most the temporary one. */
  lemma DownloadedLeaves(d: Disk<string>, layer: Layer, a: Arrival)
    requires Coherent(d) && a.temp !in d.vols && a.gen !in d.syms && layer.chainID !in d.vols && a.temp != layer.chainID
    ensures var (d', ok) := Downloaded(d, layer, a);
            && Grown(d, d', {layer.chainID, a.temp}, {a.gen})
            && (ok <==> Arrives(a))
            && if ok then
                 && d'.vols == d.vols + {layer.chainID}
                 && layer.chainID in d'.metas && d'.metas[layer.chainID] == a.unpacked.value
               else layer.chainID !in d'.vols
  {
    CreateCompletes(d, a.temp, a.gen);
    var d1 := Complete(d, CvMkdir(a.temp), a.gen).0;
    if a.streams && a.chowns && a.bases && a.unpacked.None? {
      DestroyCompletes(d1, layer.chainID, "");
    } else if a.streams && a.chowns && a.bases && a.opaques && a.measures {
      FinalizedLeaves(d, d1, layer, a);
    }
  }

  /** Writing the metadata and giving the temporary volume its final name. */
  lemma FinalizedLeaves(d: Disk<string>, d1: Disk<string>, layer: Layer, a: Arrival)
    requires Coherent(d) && a.temp !in d.vols && a.gen !in d.syms && layer.chainID !in d.vols && a.temp != layer.chainID
    requires d1 == Disk(d.vols + {a.temp}, d.links[a.temp := a.gen], d.syms[a.gen := a.temp], d.metas)
    requires a.unpacked.Some?
    ensures var (d', ok) :=
              Complete(d1.(metas := d1.metas[layer.chainID := a.unpacked.value]), MvStat(a.temp, layer.chainID), "");
            && Grown(d, d', {layer.chainID, a.temp}, {a.gen})
            && ok && d'.vols == d.vols + {layer.chainID}
            && layer.chainID in d'.metas && d'.metas[layer.chainID] == a.unpacked.value
  {
    var d2 := d1.(metas := d1.metas[layer.chainID := a.unpacked.value]);
    assert Coherent(d2);
    MoveCompletes(d2, a.temp, layer.chainID, "");
  }

  lemma {:induction false} NotTouched(layers: seq<Layer>, arrivals: seq<Arrival>, n: nat, k: nat)
    requires n <= k < |layers| == |arrivals| && NoneLocked(layers, {})
    requires forall i, j :: 0 <= i < |arrivals| && 0 <= j < |layers| ==> arrivals[i].temp != layers[j].chainID
    requires forall i, j :: 0 <= i < j < |arrivals| ==>
               arrivals[i].temp != arrivals[j].temp && arrivals[i].gen != arrivals[j].gen
    ensures layers[k].chainID !in NamesUsed(layers, arrivals, n) && arrivals[k].temp !in NamesUsed(layers, arrivals, n)
    ensures arrivals[k].gen !in Generated(arrivals, n)
  {
    if n > 0 { NotTouched(layers, arrivals, n - 1, k); }
  }

  /** The layers among the lowest n that were missing in d and are there in d' have the sizes that unpacking reported. */
  ghost predicate SizesRecorded(d: Disk<string>, d': Disk<string>, layers: seq<Layer>, arrivals: seq<Arrival>, n: nat)
    requires n <= |layers| == |arrivals|
  {
    forall i :: 0 <= i < n && layers[i].chainID in d'.vols && layers[i].chainID !in d.vols ==>
      layers[i].chainID in d'.metas && arrivals[i].unpacked == Some(d'.metas[layers[i].chainID])
  }

  /** Every missing layer among the lowest n can be locked and arrives. */
  ghost predicate AllArrive(d: Disk<string>, layers: seq<Layer>, arrivals: seq<Arrival>, n: nat)
    requires n <= |layers| == |arrivals|
  {
    forall i :: 0 <= i < n && layers[i].chainID !in d.vols ==> arrivals[i].locks && Arrives(arrivals[i])
  }

  /** What building the lowest n layers makes of d, successful or not. */
  ghost predicate Pulled(d: Disk<string>, d': Disk<string>, ok: bool, layers: seq<Layer>, arrivals: seq<Arrival>, n: nat)
    requires n <= |layers| == |arrivals|
  {
    && Grown(d, d', NamesUsed(layers, arrivals, n), Generated(arrivals, n))
    && ClosedDown(d'.vols, layers) && AllMeasured(d', layers)
    && SizesRecorded(d, d', layers, arrivals, n)
    && (ok <==> AllArrive(d, layers, arrivals, n))
    && (ok ==> forall i :: 0 <= i < n ==> layers[i].chainID in d'.vols)
  }

  lemma NothingPulled(d: Disk<string>, layers: seq<Layer>, arrivals: seq<Arrival>, n: nat)
    requires n <= |layers| == |arrivals| && Coherent(d) && ClosedDown(d.vols, layers) && AllMeasured(d, layers)
    ensures n == 0 || layers[n - 1].chainID in d.vols ==> Pulled(d, d, true, layers, arrivals, n)
    ensures n > 0 && layers[n - 1].chainID !in d.vols && !arrivals[n - 1].locks ==> Pulled(d, d, false, layers, arrivals, n)
  {
  }

  lemma GrownMore(d: Disk<string>, d': Disk<string>, names: set<string>, names': set<string>,
                  gens: set<ShortId>, gens': set<ShortId>)
    requires Grown(d, d', names, gens) && names <= names' && gens <= gens'
    ensures Grown(d, d', names', gens')
  {
  }

  lemma StoppedBelow(d: Disk<string>, d1: Disk<string>, layers: seq<Layer>, arrivals: seq<Arrival>, n: nat)
    requires n < |layers| == |arrivals| && NoneLocked(layers, {}) && NamesFresh(d, layers, arrivals)
    requires layers[n].chainID !in d.vols && Pulled(d, d1, false, layers, arrivals, n)
    ensures Pulled(d, d1, false, layers, arrivals, n + 1)
  {
    NotTouched(layers, arrivals, n, n);
    assert layers[n].chainID !in d1.vols;
    GrownMore(d, d1, NamesUsed(layers, arrivals, n), NamesUsed(layers, arrivals, n + 1),
              Generated(arrivals, n), Generated(arrivals, n + 1));
    SizesRecordedMore(d, d1, layers, arrivals, n);
  }

  lemma SizesRecordedMore(d: Disk<string>, d1: Disk<string>, layers: seq<Layer>, arrivals: seq<Arrival>, n: nat)
    requires n < |layers| == |arrivals| && SizesRecorded(d, d1, layers, arrivals, n) && layers[n].chainID !in d1.vols
    ensures SizesRecorded(d, d1, layers, arrivals, n + 1)
  {
  }

  lemma OneMorePulled(d: Disk<string>, d1: Disk<string>, layers: seq<Layer>, arrivals: seq<Arrival>, n: nat)
    requires n < |layers| == |arrivals| && NoneLocked(layers, {}) && NamesFresh(d, layers, arrivals)
    requires layers[n].chainID !in d.vols && arrivals[n].locks && Pulled(d, d1, true, layers, arrivals, n)
    ensures var (d', ok) := Downloaded(d1, layers[n], arrivals[n]); Pulled(d, d', ok, layers, arrivals, n + 1)
  {
    LayerLeaves(d, d1, layers, arrivals, n);
  }

  /** Pulling succeeds exactly when every missing layer can be locked and arrives. It adds volumes under the missing
      layers' and the generated names only, records the sizes that unpacking reported, and keeps the layers closed
      downwards and measured. If it succeeds, all layers are there. */
  lemma {:induction false} BuiltLeaves(d: Disk<string>, layers: seq<Layer>, arrivals: seq<Arrival>, n: nat)
    requires n <= |layers| == |arrivals| && NoneLocked(layers, {})
    requires Coherent(d) && ClosedDown(d.vols, layers) && AllMeasured(d, layers) && NamesFresh(d, layers, arrivals)
    ensures var (d', ok) := Built(d, layers, arrivals, n); Pulled(d, d', ok, layers, arrivals, n)
  {
    if n == 0 || layers[n - 1].chainID in d.vols || !arrivals[n - 1].locks {
      NothingPulled(d, layers, arrivals, n);
    } else {
      BuiltLeaves(d, layers, arrivals, n - 1);
      BuiltOnTop(d, layers, arrivals, n - 1);
    }
  }

  lemma BuiltOnTop(d: Disk<string>, layers: seq<Layer>, arrivals: seq<Arrival>, n: nat)
    requires n < |layers| == |arrivals| && NoneLocked(layers, {}) && NamesFresh(d, layers, arrivals)
    requires layers[n].chainID !in d.vols && arrivals[n].locks
    requires Pulled(d, Built(d, layers, arrivals, n).0, Built(d, layers, arrivals, n).1, layers, arrivals, n)
    ensures var (d', ok) := Built(d, layers, arrivals, n + 1); Pulled(d, d', ok, layers, arrivals, n + 1)
  {
    var (d1, ok) := Built(d, layers, arrivals, n);
    if ok {
      OneMorePulled(d, d1, layers, arrivals, n);
    } else {
      StoppedBelow(d, d1, layers, arrivals, n);
    }
  }

  lemma LayerLeaves(d: Disk<string>, d1: Disk<string>, layers: seq<Layer>, arrivals: seq<Arrival>, n: nat)
    requires n < |layers| == |arrivals| && NoneLocked(layers, {}) && NamesFresh(d, layers, arrivals)
    requires layers[n].chainID !in d.vols && Grown(d, d1, NamesUsed(layers, arrivals, n), Generated(arrivals, n))
    requires ClosedDown(d1.vols, layers) && AllMeasured(d1, layers)
    requires forall i :: 0 <= i < n ==> layers[i].chainID in d1.vols
    ensures var (d', ok) := Downloaded(d1, layers[n], arrivals[n]);
            && Grown(d, d', NamesUsed(layers, arrivals, n + 1), Generated(arrivals, n + 1))
            && ClosedDown(d'.vols, layers) && AllMeasured(d', layers)
            && (ok ==> layers[n].chainID in d'.vols) && d1.vols <= d'.vols
            && (ok <==> Arrives(arrivals[n]))
            && (SizesRecorded(d, d1, layers, arrivals, n) ==> SizesRecorded(d, d', layers, arrivals, n + 1))
  {
    var id, a := layers[n].chainID, arrivals[n];
    NotTouched(layers, arrivals, n, n);
    DownloadedLeaves(d1, layers[n], a);
    var d' := Downloaded(d1, layers[n], a).0;
    GrownTwice(d, d1, d', NamesUsed(layers, arrivals, n), {id, a.temp}, Generated(arrivals, n), {a.gen});
    forall i | 0 <= i < |layers| && i != n
      ensures SameVolume(d1, d', layers[i].chainID)
    {
      assert layers[i].chainID != id && layers[i].chainID != a.temp;
    }
  }

  // ------------------------------------------------------------------ declared sizes

  /** The declared size of layers is the sum of their sizes. */
  lemma {:induction false} LayersSizeConcat(a: seq<Layer>, b: seq<Layer>)
    ensures LayersSize(a + b) == LayersSize(a) + LayersSize(b)
    ensures |b| == 1 ==> LayersSize(b) == b[0].size
  {
    if b == [] {
      assert a + b == a;
    } else {
      assert (a + b)[..|a + b| - 1] == a + b[..|b| - 1];
      LayersSizeConcat(a, b[..|b| - 1]);
    }
  }
}
