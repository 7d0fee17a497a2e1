/** All layers of an image: looking a path up through the stack of their volumes shows what the layers mean. */
module Stacking {
  import opened Wrappers
  import opened Trees
  import opened Overlay
  import opened Unpacking
  import opened Changesets
  import opened Layers

  lemma MergeWellFormed(u: Tree, base: Tree)
    requires WellFormed(u) && WellFormed(base) && Plain(base)
    ensures WellFormed(Merge(u, base)) && Plain(Merge(u, base))
  {
    var m := Merge(u, base);
    forall p, d | p in m && Inside(p, d) ensures IsDir(m, d) {
      if p !in u {
        assert IsDir(base, d);
        assert forall x :: Inside(d, x) ==> Inside(p, x);
      }
    }
  }

  /** The volumes of a list of layers, lowest first. */
  ghost predicate Unpacked(layers: seq<seq<Entry>>, volumes: seq<Tree>) {
    && |volumes| == |layers|
    && forall i :: 0 <= i < |layers| ==> UnpackLayer(layers[i]) == Okay(volumes[i])
  }

  ghost predicate AllHarmless(layers: seq<seq<Entry>>) {
    forall i :: 0 <= i < |layers| ==> Harmless(layers[i])
  }

  function TopFirst(volumes: seq<Tree>): (stack: seq<Tree>)
    ensures |stack| == |volumes| && forall i :: 0 <= i < |stack| ==> stack[i] == volumes[|volumes| - 1 - i]
  {
    if volumes == [] then [] else [volumes[|volumes| - 1]] + TopFirst(volumes[..|volumes| - 1])
  }

  lemma {:induction false} FlattenIsImage(layers: seq<seq<Entry>>, volumes: seq<Tree>)
    requires layers != [] && Unpacked(layers, volumes) && AllHarmless(layers)
    ensures Flatten(TopFirst(volumes)) == ImageTree(layers)
    ensures WellFormed(ImageTree(layers)) && Plain(ImageTree(layers))
  {
    var n := |layers| - 1;
    var u := volumes[n];
    var below := ImageTree(layers[..n]);
    UnpackedWellFormed(layers[n]);
    assert TopFirst(volumes)[1..] == TopFirst(volumes[..n]);
    if n == 0 {
      assert layers[..n] == [];
      OverNothing(u);
    } else {
      FlattenIsImage(layers[..n], volumes[..n]);
    }
    MergeWellFormed(u, below);
    LayerAgreesIff(below, layers[n]);
  }

  lemma OverNothing(u: Tree)
    requires WellFormed(u)
    ensures Merge(u, map[]) == Merge(u, EMPTY_ROOT)
  {
  }

  lemma VolumeWellFormed(layers: seq<seq<Entry>>, volumes: seq<Tree>, i: nat)
    requires Unpacked(layers, volumes) && i < |layers|
    ensures WellFormed(volumes[i])
  {
    UnpackedWellFormed(layers[i]);
  }

  lemma StackWellFormed(layers: seq<seq<Entry>>, volumes: seq<Tree>)
    requires Unpacked(layers, volumes)
    ensures AllWellFormed(TopFirst(volumes))
  {
    forall i | 0 <= i < |volumes| ensures WellFormed(volumes[i]) { VolumeWellFormed(layers, volumes, i); }
  }

  /** Stacking preserves meaning: for any layers that unpack successfully and whose conflicts are all excused, looking a path up
      through the volumes, topmost first, with whiteouts and opaque directories ending the search, gives the
      node that applying the layers one after another to a single tree has there, or nothing if it has none. */
  lemma StackingPreservesMeaning(layers: seq<seq<Entry>>, volumes: seq<Tree>, p: Path)
    requires layers != [] && Unpacked(layers, volumes) && AllHarmless(layers)
    ensures Lookup(TopFirst(volumes), p) == Get(ImageTree(layers), p)
  {
    FlattenIsImage(layers, volumes);
    StackWellFormed(layers, volumes);
    LookupFlatten(TopFirst(volumes), p);
  }
}
