/**
 Unpacking each layer into a volume of its own and stacking the volumes shows what applying the layers in order
 to one tree gives. The reference follows "Applying Changesets" and "Whiteouts" of the OCI image specification's
 layer document: whiteouts and opaque whiteouts hide what lower layers have, then the layer's own members are
 added, replacing what is in their way.
 */
module Changesets {
  import opened Trees
  import opened Overlay
  import opened Unpacking

  // ------------------------------------------------------------------ the reference

  /** d and every path it is in become directories. */
  function MakeDirs(m: Tree, d: Path): Tree {
    map q | q in m.Keys + Prefixes(d) :: if Within(d, q) then Dir(false) else m[q]
  }

  /** p becomes a file or symlink, in place of whatever is there. */
  function Put(m: Tree, p: Path, n: Node): Tree {
    Prune(MakeDirs(m, Parent(p)), p)[p := n]
  }

  /** One member applied to a single tree. */
  function Apply(m: Tree, e: Entry): Tree {
    match e
    case AddDir(p) => MakeDirs(m, p)
    case AddFile(p, data) => Put(m, p, File(data))
    case AddSymlink(p, target) => Put(m, p, Symlink(target))
    case AddDevice(p) => MakeDirs(m, Parent(p))
    case Remove(p) => Prune(m, p)
    case Opaque(_) => m
  }

  predicate Adds(e: Entry) {
    !e.Remove? && !e.Opaque?
  }

  /** The layer's whiteouts hide the path, if a lower layer has it. */
  predicate Hidden(es: seq<Entry>, q: Path) {
    Removed(es, q) || Emptied(es, q)
  }

  predicate WhitesOut(e: Entry, q: Path) {
    e.Remove? && Within(q, e.path)
  }

  predicate Removed(es: seq<Entry>, q: Path) {
    exists i :: 0 <= i < |es| && WhitesOut(es[i], q)
  }

  predicate Emptied(es: seq<Entry>, q: Path) {
    exists i :: 0 <= i < |es| && es[i].Opaque? && Inside(q, es[i].path)
  }

  function Hide(m: Tree, es: seq<Entry>): Tree {
    map q | q in m && !Hidden(es, q) :: m[q]
  }

  function AddAll(m: Tree, es: seq<Entry>): Tree {
    if es == [] then m
    else
      var m1 := AddAll(m, es[..|es| - 1]);
      if Adds(es[|es| - 1]) then Apply(m1, es[|es| - 1]) else m1
  }

  function ApplyLayer(m: Tree, es: seq<Entry>): Tree {
    AddAll(Hide(m, es), es)
  }

  /** The tree that a list of layers stands for, lowest layer first. */
  function ImageTree(layers: seq<seq<Entry>>): Tree {
    if layers == [] then EMPTY_ROOT
    else ApplyLayer(ImageTree(layers[..|layers| - 1]), layers[|layers| - 1])
  }

  // ------------------------------------------------------------------ one member

  ghost predicate NoneHides(u: Tree) {
    forall p :: p in u && u[p].Dir? ==> !u[p].hides
  }

  /** Unpacking reports success, but the member is not there: a directory over the layer's own file or whiteout
      stays that file or whiteout. */
  predicate Swallowed(u: Tree, e: Entry) {
    || (e.AddDir? && e.path in u && !u[e.path].Dir?)
    || (e.AddDevice? && Parent(e.path) in u && !u[Parent(e.path)].Dir?)
  }

  /** u' is u with directories added down to d. */
  ghost predicate Grown(u: Tree, u': Tree, d: Path) {
    && IsDir(u', d)
    && (forall q :: q in u' <==> q in u || Within(d, q))
    && (forall q :: q in u ==> u'[q] == u[q])
    && (forall q :: q in u' && q !in u ==> u'[q] == Dir(false))
  }

  lemma GrownAgrees(u: Tree, u': Tree, base: Tree, d: Path)
    requires WellFormed(u') && NoneHides(u') && WellFormed(base) && Plain(base) && Grown(u, u', d)
    ensures Merge(u', base) == MakeDirs(Merge(u, base), d)
  {
    var l, r := Merge(u', base), MakeDirs(Merge(u, base), d);
    forall q ensures (q in l <==> q in r) && (q in l ==> l[q] == r[q]) {
      PrefixesOf(d, q);
      WithinOrSame(d, q);
      if Within(d, q) {
        assert IsDir(u', q);
      } else if q !in u {
        GrownBlocks(u, u', d, q);
      }
    }
  }

  lemma GrownBlocks(u: Tree, u': Tree, d: Path, q: Path)
    requires NoneHides(u') && Grown(u, u', d)
    ensures Blocked(u', q) <==> Blocked(u, q)
  {
    if Blocked(u, q) {
      var x :| Inside(q, x) && Stops(u, x);
      assert Stops(u', x);
    }
    if Blocked(u', q) {
      var x :| Inside(q, x) && Stops(u', x);
      assert Stops(u, x);
    }
  }

  /** A leaf put into a directory of the volume hides whatever lower layers have at and inside its path. */
  lemma LeafAgrees(u: Tree, base: Tree, p: Path, n: Node)
    requires !n.Dir? && forall q :: q in u ==> !Inside(q, p)
    ensures Merge(u[p := n], base)
            == if n.Whiteout? then Prune(Merge(u, base), p) else Prune(Merge(u, base), p)[p := n]
  {
    var u' := u[p := n];
    var l := Merge(u', base);
    forall q | q != p
      ensures q in l <==> q in Merge(u, base) && !Within(q, p)
      ensures q in l ==> l[q] == Merge(u, base)[q]
    {
      WithinOrSame(q, p);
      if Inside(q, p) {
        assert Stops(u', p);
      } else {
        LeafBlocks(u, p, n, q);
      }
    }
    assert Within(p, p);
  }

  lemma LeafBlocks(u: Tree, p: Path, n: Node, q: Path)
    requires !Inside(q, p)
    ensures Blocked(u[p := n], q) <==> Blocked(u, q)
  {
    var u' := u[p := n];
    if Blocked(u, q) {
      var x :| Inside(q, x) && Stops(u, x);
      assert Stops(u', x);
    }
    if Blocked(u', q) {
      var x :| Inside(q, x) && Stops(u', x);
      assert Stops(u, x);
    }
  }

  /** Pruning the volume before the whiteout goes in changes nothing that is seen outside. */
  lemma RemoveAgrees(u: Tree, base: Tree, p: Path)
    ensures Merge(Prune(u, p)[p := Whiteout], base) == Prune(Merge(u, base), p)
  {
    var u1 := Prune(u, p);
    LeafAgrees(u1, base, p, Whiteout);
    var l, r := Prune(Merge(u1, base), p), Prune(Merge(u, base), p);
    forall q ensures (q in l <==> q in r) && (q in l ==> l[q] == r[q]) {
      if !Within(q, p) && q !in u { PruneBlocks(u, p, q); }
    }
  }

  lemma PruneBlocks(u: Tree, p: Path, q: Path)
    requires !Within(q, p)
    ensures Blocked(Prune(u, p), q) <==> Blocked(u, q)
  {
    if Blocked(u, q) {
      var x :| Inside(q, x) && Stops(u, x);
      assert !Within(x, p);
      assert Stops(Prune(u, p), x);
    }
    if Blocked(Prune(u, p), q) {
      var x :| Inside(q, x) && Stops(Prune(u, p), x);
      assert Stops(u, x);
    }
  }

  /** The directories made on the way to d are directories of the grown volume. */
  lemma EnsuredGrown(u: Tree, d: Path)
    requires WellFormed(u) && NoneHides(u) && EnsureDir(u, d).Okay? && IsDir(EnsureDir(u, d).value, d)
    ensures Grown(u, EnsureDir(u, d).value, d) && WellFormed(EnsureDir(u, d).value) && NoneHides(EnsureDir(u, d).value)
  {
    EnsureDirGrows(u, d);
  }

  lemma PutAgrees(u: Tree, base: Tree, p: Path, n: Node)
    requires WellFormed(u) && NoneHides(u) && WellFormed(base) && Plain(base) && !n.Dir? && !n.Whiteout?
    requires EnsureDir(u, Parent(p)).Okay? && IsDir(EnsureDir(u, Parent(p)).value, Parent(p))
    requires var u1 := EnsureDir(u, Parent(p)).value; IsDir(u1, p) ==> EmptyDir(u1, p)
    ensures Merge(EnsureDir(u, Parent(p)).value[p := n], base) == Put(Merge(u, base), p, n)
  {
    var u1 := EnsureDir(u, Parent(p)).value;
    EnsuredGrown(u, Parent(p));
    GrownAgrees(u, u1, base, Parent(p));
    forall q | q in u1 ensures !Inside(q, p) { if !IsDir(u1, p) { LeafIsEmpty(u1, p, q); } }
    LeafAgrees(u1, base, p, n);
  }

  lemma DirAgrees(u: Tree, base: Tree, p: Path)
    requires WellFormed(u) && NoneHides(u) && WellFormed(base) && Plain(base)
    requires Place(u, AddDir(p)).Okay? && !Swallowed(u, AddDir(p))
    ensures Merge(Place(u, AddDir(p)).value, base) == MakeDirs(Merge(u, base), p)
  {
    var u1, u' := EnsureDir(u, Parent(p)).value, Place(u, AddDir(p)).value;
    EnsureDirGrows(u, Parent(p));
    PlaceWellFormed(u, AddDir(p));
    forall q ensures q in u' <==> q in u || Within(p, q) {
      WithinOrSame(p, q);
      if p != [] { InsideParent(p, q); }
    }
    if p in u { assert Within(p, p); }
    GrownAgrees(u, u', base, p);
  }

  /** A successful member shows through the volume exactly as if it had been applied to what was seen before,
      whatever lies below, if and only if it is not swallowed. */
  lemma PlaceAgrees(u: Tree, base: Tree, e: Entry)
    requires WellFormed(u) && NoneHides(u) && WellFormed(base) && Plain(base) && Place(u, e).Okay?
    ensures Merge(Place(u, e).value, base) == Apply(Merge(u, base), e) <==> !Swallowed(u, e)
  {
    if Swallowed(u, e) {
      SwallowedDiffers(u, base, e);
    } else {
      match e
      case AddDir(p) => DirAgrees(u, base, p);
      case AddFile(p, data) => PutAgrees(u, base, p, File(data));
      case AddSymlink(p, target) => PutAgrees(u, base, p, Symlink(target));
      case AddDevice(p) =>
        EnsureDirGrows(u, Parent(p));
        EnsuredGrown(u, Parent(p));
        GrownAgrees(u, EnsureDir(u, Parent(p)).value, base, Parent(p));
      case Remove(p) => RemoveAgrees(u, base, p);
      case Opaque(_) =>
    }
  }

  lemma SwallowedDiffers(u: Tree, base: Tree, e: Entry)
    requires WellFormed(u) && Place(u, e).Okay? && Swallowed(u, e)
    ensures Merge(Place(u, e).value, base) != Apply(Merge(u, base), e)
  {
    var d := if e.AddDir? then e.path else Parent(e.path);
    EnsureDirGrows(u, Parent(e.path));
    if e.AddDir? { ParentInTree(u, e.path); }
    PrefixesOf(d, d);
    assert Within(d, d);
    assert IsDir(MakeDirs(Merge(u, base), d), d);
    assert !IsDir(Merge(u, base), d);
  }

  /** A swallowed member leaves the volume as it was. */
  lemma SwallowedUnchanged(u: Tree, e: Entry)
    requires WellFormed(u) && Place(u, e).Okay? && Swallowed(u, e)
    ensures Place(u, e).value == u
  {
    if e.AddDir? { ParentInTree(u, e.path); }
    EnsureDirGrows(u, Parent(e.path));
  }

  // ------------------------------------------------------------------ opaque attributes

  /** The tree without what is inside any of the directories. */
  function Cleared(m: Tree, ds: seq<Path>): Tree {
    map q | q in m && !InsideAny(ds, q) :: m[q]
  }

  predicate InsideAny(ds: seq<Path>, q: Path) {
    exists i :: 0 <= i < |ds| && Inside(q, ds[i])
  }

  lemma {:induction false} SetOpaqueAt(u: Tree, ds: seq<Path>)
    requires SetOpaque(u, ds).Okay?
    ensures SetOpaque(u, ds).value.Keys == u.Keys && forall d :: d in ds ==> d in u
    ensures forall q :: q in u ==>
              SetOpaque(u, ds).value[q] == if u[q].Dir? && q in ds then Dir(true) else u[q]
  {
    if ds != [] {
      SetOpaqueAt(u, ds[..|ds| - 1]);
      assert ds == ds[..|ds| - 1] + [ds[|ds| - 1]];
    }
  }

  lemma OpaqueAgrees(u: Tree, ds: seq<Path>, base: Tree)
    requires SetOpaque(u, ds).Okay?
    ensures Merge(SetOpaque(u, ds).value, base) == Merge(u, Cleared(base, ds))
  {
    var u' := SetOpaque(u, ds).value;
    var l, r := Merge(u', base), Merge(u, Cleared(base, ds));
    SetOpaqueAt(u, ds);
    forall q ensures (q in l <==> q in r) && (q in l ==> l[q] == r[q]) {
      if q in base && q !in u { OpaqueBlocks(u, u', ds, q); }
    }
  }

  lemma OpaqueBlocks(u: Tree, u': Tree, ds: seq<Path>, q: Path)
    requires u'.Keys == u.Keys && forall d :: d in ds ==> d in u
    requires forall x :: x in u ==> u'[x] == if u[x].Dir? && x in ds then Dir(true) else u[x]
    ensures Blocked(u', q) <==> Blocked(u, q) || InsideAny(ds, q)
  {
    if Blocked(u, q) {
      var x :| Inside(q, x) && Stops(u, x);
      assert Stops(u', x);
    }
    if Blocked(u', q) {
      var x :| Inside(q, x) && Stops(u', x);
      if !Stops(u, x) { var i :| 0 <= i < |ds| && ds[i] == x; }
    }
    if i :| 0 <= i < |ds| && Inside(q, ds[i]) {
      assert ds[i] in ds && Stops(u', ds[i]);
    }
  }
}
