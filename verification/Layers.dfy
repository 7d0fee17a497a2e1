/**
 One layer: exactly when its volume shows over a tree what applying the layer to that tree gives. The argument looks
 at one path at a time: the last member that decides what is there decides for both.
 */
module Layers {
  import opened Wrappers
  import opened Trees
  import opened Overlay
  import opened Unpacking
  import opened Changesets

  // ------------------------------------------------------------------ conflicts

  predicate Leaf(e: Entry) {
    e.AddFile? || e.AddSymlink? || e.Remove?
  }

  /** Member j is added at or inside the path of member i, which is a whiteout, or came earlier and is a file or a
      symlink. */
  predicate Conflict(es: seq<Entry>, i: nat, j: nat)
    requires i < |es| && j < |es|
  {
    && Leaf(es[i]) && Adds(es[j]) && Within(es[j].path, es[i].path)
    && (i < j || (es[i].Remove? && j < i))
  }

  /** A later file or symlink replaces what the conflict is about. */
  predicate Covered(es: seq<Entry>, i: nat, j: nat)
    requires i < |es| && j < |es|
  {
    exists k :: i <= k < |es| && j <= k && (es[k].AddFile? || es[k].AddSymlink?) && Within(es[i].path, es[k].path)
  }

  /** A device at the path adds only the directories above it. */
  predicate Excused(es: seq<Entry>, i: nat, j: nat)
    requires i < |es| && j < |es|
  {
    (es[j].AddDevice? && es[j].path == es[i].path) || Covered(es, i, j)
  }

  predicate Harmless(es: seq<Entry>) {
    forall i, j :: 0 <= i < |es| && 0 <= j < |es| && Conflict(es, i, j) ==> Excused(es, i, j)
  }

  predicate NoConflict(es: seq<Entry>) {
    forall i, j :: 0 <= i < |es| && 0 <= j < |es| ==> !Conflict(es, i, j)
  }

  // ------------------------------------------------------------------ one path at a time

  /** The member decides what is at q. */
  predicate Decides(e: Entry, q: Path) {
    match e
    case AddDir(p) => Within(p, q)
    case AddFile(p, _) => Within(q, p) || Within(Parent(p), q)
    case AddSymlink(p, _) => Within(q, p) || Within(Parent(p), q)
    case AddDevice(p) => Within(Parent(p), q)
    case Remove(p) => Within(q, p)
    case Opaque(_) => false
  }

  /** What a member that decides it puts at q. */
  function Decided(e: Entry, q: Path): Option<Node> {
    match e
    case AddFile(p, data) => if q == p then Some(File(data)) else if Within(q, p) then None else Some(Dir(false))
    case AddSymlink(p, target) => if q == p then Some(Symlink(target)) else if Within(q, p) then None else Some(Dir(false))
    case Remove(_) => None
    case _ => Some(Dir(false))
  }

  lemma ApplyAt(m: Tree, e: Entry, q: Path)
    ensures Get(Apply(m, e), q) == if Decides(e, q) then Decided(e, q) else Get(m, q)
  {
    PrefixesOf(e.path, q);
    PrefixesOf(Parent(e.path), q);
    assert Within(e.path, e.path);
  }

  /** The last addition that decides what is at q, or -1. */
  function LastAdd(es: seq<Entry>, q: Path): (a: int)
    ensures -1 <= a < |es| && (a >= 0 ==> Adds(es[a]) && Decides(es[a], q))
    ensures forall k :: a < k < |es| ==> !(Adds(es[k]) && Decides(es[k], q))
  {
    if es == [] then -1
    else if Adds(es[|es| - 1]) && Decides(es[|es| - 1], q) then |es| - 1
    else LastAdd(es[..|es| - 1], q)
  }

  lemma {:induction false} MeantAt(m: Tree, es: seq<Entry>, q: Path)
    ensures Get(AddAll(m, es), q) == if LastAdd(es, q) < 0 then Get(m, q) else Decided(es[LastAdd(es, q)], q)
  {
    if es != [] {
      var front, e := es[..|es| - 1], es[|es| - 1];
      MeantAt(m, front, q);
      if Adds(e) { ApplyAt(AddAll(m, front), e, q); }
    }
  }

  // ------------------------------------------------------------------ the volume, member by member

  /** The volume after the first i members of a layer. */
  function Partial(es: seq<Entry>, i: nat): Result<Tree>
    requires i <= |es|
  {
    PlaceAll(EMPTY_ROOT, es[..i])
  }

  lemma PlaceNoneHides(u: Tree, e: Entry)
    requires WellFormed(u) && NoneHides(u) && Place(u, e).Okay?
    ensures NoneHides(Place(u, e).value)
  {
    if !e.Remove? && !e.Opaque? { EnsureDirGrows(u, Parent(e.path)); }
  }

  lemma {:induction false} PlacedVolume(es: seq<Entry>)
    requires PlaceAll(EMPTY_ROOT, es).Okay?
    ensures WellFormed(PlaceAll(EMPTY_ROOT, es).value) && NoneHides(PlaceAll(EMPTY_ROOT, es).value)
  {
    if es != [] {
      var front := es[..|es| - 1];
      PlacedVolume(front);
      PlaceWellFormed(PlaceAll(EMPTY_ROOT, front).value, es[|es| - 1]);
      PlaceNoneHides(PlaceAll(EMPTY_ROOT, front).value, es[|es| - 1]);
    }
  }

  lemma PrefixOkay(es: seq<Entry>, k: nat)
    requires k <= |es| && PlaceAll(EMPTY_ROOT, es).Okay?
    ensures Partial(es, k).Okay?
  {
    if Partial(es, k).Error? { ErrorStays(EMPTY_ROOT, es, k); }
  }

  /** The step from the volume after k members to the next. */
  lemma NextVolume(es: seq<Entry>, k: nat)
    requires k < |es| && PlaceAll(EMPTY_ROOT, es).Okay?
    ensures Partial(es, k).Okay? && Partial(es, k + 1).Okay?
    ensures Place(Partial(es, k).value, es[k]) == Partial(es, k + 1)
    ensures WellFormed(Partial(es, k).value) && WellFormed(Partial(es, k + 1).value)
  {
    PrefixOkay(es, k);
    PrefixOkay(es, k + 1);
    assert es[..k + 1][..k] == es[..k];
    PlacedVolume(es[..k]);
    PlacedVolume(es[..k + 1]);
  }

  /** What is seen over `base` after the first n members. */
  ghost function View(es: seq<Entry>, base: Tree, n: nat): Tree
    requires n <= |es| && PlaceAll(EMPTY_ROOT, es).Okay?
  {
    PrefixOkay(es, n);
    Merge(Partial(es, n).value, base)
  }

  lemma MergeEmptyRoot(base: Tree)
    requires WellFormed(base) && Plain(base)
    ensures Merge(EMPTY_ROOT, base) == base
  {
    forall q | q in base ensures !Blocked(EMPTY_ROOT, q) {
    }
  }

  /** The next member is applied to what is seen, or swallowed. */
  lemma ViewStep(es: seq<Entry>, base: Tree, n: nat, q: Path)
    requires n < |es| && PlaceAll(EMPTY_ROOT, es).Okay? && WellFormed(base) && Plain(base)
    ensures Partial(es, n).Okay?
    ensures Get(View(es, base, n + 1), q)
            == if Decides(es[n], q) && !Swallowed(Partial(es, n).value, es[n]) then Decided(es[n], q)
               else Get(View(es, base, n), q)
  {
    NextVolume(es, n);
    PlacedVolume(es[..n]);
    var u := Partial(es, n).value;
    PlaceAgrees(u, base, es[n]);
    if Swallowed(u, es[n]) { SwallowedUnchanged(u, es[n]); } else { ApplyAt(Merge(u, base), es[n], q); }
  }

  lemma {:induction false} LeafOrigin(es: seq<Entry>, q: Path) returns (i: nat)
    requires PlaceAll(EMPTY_ROOT, es).Okay? && q in PlaceAll(EMPTY_ROOT, es).value
    requires !PlaceAll(EMPTY_ROOT, es).value[q].Dir?
    ensures i < |es| && Leaf(es[i]) && es[i].path == q
  {
    var n := |es| - 1;
    var u := PlaceAll(EMPTY_ROOT, es[..n]).value;
    PlacedVolume(es[..n]);
    if !es[n].Remove? && !es[n].Opaque? { EnsureDirGrows(u, Parent(es[n].path)); }
    if Leaf(es[n]) && es[n].path == q {
      i := n;
    } else {
      i := LeafOrigin(es[..n], q);
    }
  }

  /** A member is swallowed only by an earlier one with which it is in conflict. */
  lemma SwallowedBy(es: seq<Entry>, n: nat) returns (i: nat)
    requires n < |es| && Partial(es, n).Okay? && Swallowed(Partial(es, n).value, es[n])
    ensures i < n && Conflict(es, i, n)
    ensures es[i].path == if es[n].AddDir? then es[n].path else Parent(es[n].path)
  {
    var d := if es[n].AddDir? then es[n].path else Parent(es[n].path);
    i := LeafOrigin(es[..n], d);
    assert es[..n][i] == es[i];
    assert Within(es[n].path, d);
  }

  // ------------------------------------------------------------------ without harmful conflicts

  function HideRemoved(m: Tree, es: seq<Entry>): Tree {
    map q | q in m && !Removed(es, q) :: m[q]
  }

  lemma {:induction false} OpaqueDirsOf(es: seq<Entry>, d: Path)
    ensures d in OpaqueDirs(es) <==> exists i :: 0 <= i < |es| && es[i].Opaque? && es[i].path == d
  {
    if es != [] {
      var front, e := es[..|es| - 1], es[|es| - 1];
      OpaqueDirsOf(front, d);
      assert forall i :: 0 <= i < |front| ==> front[i] == es[i];
      if d in OpaqueDirs(front) {
        var i :| 0 <= i < |front| && front[i].Opaque? && front[i].path == d;
        assert es[i].Opaque? && es[i].path == d;
      }
      if i :| 0 <= i < |es| && es[i].Opaque? && es[i].path == d {
        assert i < |front| ==> front[i].Opaque? && front[i].path == d;
      }
    }
  }

  lemma HideSplits(m: Tree, es: seq<Entry>)
    ensures Hide(m, es) == HideRemoved(Cleared(m, OpaqueDirs(es)), es)
  {
    var ds := OpaqueDirs(es);
    forall q ensures Emptied(es, q) <==> InsideAny(ds, q) {
      if i :| 0 <= i < |es| && es[i].Opaque? && Inside(q, es[i].path) {
        OpaqueDirsOf(es, es[i].path);
        var k :| 0 <= k < |ds| && ds[k] == es[i].path;
        assert Inside(q, ds[k]);
      }
      if k :| 0 <= k < |ds| && Inside(q, ds[k]) {
        OpaqueDirsOf(es, ds[k]);
        assert ds[k] in ds;
      }
    }
  }

  /** A member that does not decide q leaves it as it is seen; a whiteout of q takes it away. */
  lemma ViewStepNoAddition(es: seq<Entry>, base: Tree, n: nat, q: Path)
    requires n < |es| && PlaceAll(EMPTY_ROOT, es).Okay? && WellFormed(base) && Plain(base)
    requires !(Adds(es[n]) && Decides(es[n], q))
    ensures Get(View(es, base, n + 1), q) == if WhitesOut(es[n], q) then None else Get(View(es, base, n), q)
  {
    ViewStep(es, base, n, q);
  }

  /** No addition decides what is at q: it is as below, unless whited out. */
  lemma {:induction false} SeenNone(es: seq<Entry>, base: Tree, n: nat, q: Path)
    requires n <= |es| && PlaceAll(EMPTY_ROOT, es).Okay? && WellFormed(base) && Plain(base)
    requires forall k :: 0 <= k < n ==> !(Adds(es[k]) && Decides(es[k], q))
    ensures Get(View(es, base, n), q) == if Removed(es[..n], q) then None else Get(base, q)
  {
    if n == 0 {
      assert es[..0] == [];
      MergeEmptyRoot(base);
    } else {
      SeenNone(es, base, n - 1, q);
      ViewStepNoAddition(es, base, n - 1, q);
      RemovedSnoc(es, n - 1, q);
    }
  }

  lemma RemovedSnoc(es: seq<Entry>, n: nat, q: Path)
    requires n < |es|
    ensures Removed(es[..n + 1], q) <==> Removed(es[..n], q) || WhitesOut(es[n], q)
  {
    var s, t := es[..n], es[..n + 1];
    assert t == s + [es[n]];
    assert forall i :: 0 <= i < n ==> s[i] == t[i];
  }

  /** What the last addition that decides q puts there is seen, if it is not swallowed and not whited out later. */
  lemma {:induction false} SeenAfter(es: seq<Entry>, base: Tree, n: nat, q: Path, a: nat)
    requires a < n <= |es| && PlaceAll(EMPTY_ROOT, es).Okay? && WellFormed(base) && Plain(base)
    requires Adds(es[a]) && Decides(es[a], q) && Partial(es, a).Okay? && !Swallowed(Partial(es, a).value, es[a])
    requires forall k :: a < k < n ==> !(Adds(es[k]) && Decides(es[k], q))
    requires forall k :: a < k < n && WhitesOut(es[k], q) ==> Decided(es[a], q) == None
    ensures Get(View(es, base, n), q) == Decided(es[a], q)
  {
    if n - 1 > a {
      SeenAfter(es, base, n - 1, q, a);
      ViewStepNoAddition(es, base, n - 1, q);
    } else {
      ViewStep(es, base, a, q);
    }
  }

  /** A file or symlink at or above d decides everything at or above d. */
  lemma CoverDecides(d: Path, e: Entry, q: Path)
    requires (e.AddFile? || e.AddSymlink?) && Within(d, e.path) && Within(d, q)
    ensures Decides(e, q)
  {
    WithinOrSame(q, e.path);
    if !Within(q, e.path) {
      assert Inside(e.path, q);
      InsideParent(e.path, q);
    }
  }

  /** In a harmless layer the last addition that decides q is in no conflict about a path at or below q, from which
      a later file or symlink could excuse it. */
  lemma NotCovered(es: seq<Entry>, q: Path, a: nat, i: nat)
    requires a < |es| && a == LastAdd(es, q) && i < |es| && Within(es[i].path, q) && (es[a].AddDir? || es[a].AddDevice?)
    ensures !Covered(es, i, a)
  {
    forall k | i <= k < |es| && a <= k && (es[k].AddFile? || es[k].AddSymlink?) ensures !Within(es[i].path, es[k].path) {
      if Within(es[i].path, es[k].path) { CoverDecides(es[i].path, es[k], q); }
    }
  }

  /** In a harmless layer the last addition that decides q is not swallowed. */
  lemma NotSwallowed(es: seq<Entry>, q: Path, a: nat)
    requires Harmless(es) && a < |es| && a == LastAdd(es, q) && PlaceAll(EMPTY_ROOT, es).Okay?
    ensures Partial(es, a).Okay? && !Swallowed(Partial(es, a).value, es[a])
  {
    PrefixOkay(es, a);
    PlacedVolume(es[..a]);
    if (es[a].AddDir? || es[a].AddDevice?) && es[a].path != [] {
      var d := if es[a].AddDir? then es[a].path else Parent(es[a].path);
      forall i | 0 <= i < a && es[i].path == d ensures !Conflict(es, i, a) {
        NotCovered(es, q, a, i);
        assert !Excused(es, i, a);
      }
      if Swallowed(Partial(es, a).value, es[a]) { var i := SwallowedBy(es, a); }
    }
  }

  /** In a harmless layer a whiteout after that addition is of a path that does not contain the addition. */
  lemma NotWhitedOut(es: seq<Entry>, q: Path, a: nat, k: nat)
    requires Harmless(es) && a < k < |es| && a == LastAdd(es, q) && es[k].Remove? && Within(q, es[k].path)
    requires es[k].path != []
    ensures !Within(es[a].path, es[k].path)
  {
    forall c | k <= c < |es| && (es[c].AddFile? || es[c].AddSymlink?) ensures !Within(es[k].path, es[c].path) {
      assert !Decides(es[c], q);
    }
    assert !Covered(es, k, a);
    assert !(es[a].AddDevice? && es[a].path == es[k].path);
    assert !Excused(es, k, a);
    assert !Conflict(es, k, a);
  }

  /** So it can only take away what the addition took away. */
  lemma WhitedOutLater(es: seq<Entry>, q: Path, a: nat, k: nat)
    requires Harmless(es) && a < k < |es| && a == LastAdd(es, q) && WhitesOut(es[k], q)
    requires PlaceAll(EMPTY_ROOT, es).Okay?
    ensures Decided(es[a], q) == None
  {
    NextVolume(es, k);
    NotWhitedOut(es, q, a, k);
    assert Parent(es[a].path) <= es[a].path;
  }

  lemma HarmlessSeen(es: seq<Entry>, base: Tree, q: Path)
    requires Harmless(es) && PlaceAll(EMPTY_ROOT, es).Okay? && WellFormed(base) && Plain(base)
    ensures Get(View(es, base, |es|), q) == Get(AddAll(HideRemoved(base, es), es), q)
  {
    MeantAt(HideRemoved(base, es), es, q);
    var a := LastAdd(es, q);
    assert es[..|es|] == es;
    if a < 0 {
      SeenNone(es, base, |es|, q);
    } else {
      NotSwallowed(es, q, a);
      forall k | a < k < |es| && WhitesOut(es[k], q) ensures Decided(es[a], q) == None {
        WhitedOutLater(es, q, a, k);
      }
      SeenAfter(es, base, |es|, q, a);
    }
  }

  // ------------------------------------------------------------------ with a harmful conflict

  /** At or above r there is something that is not a directory. */
  ghost predicate Sealed(u: Tree, r: Path) {
    exists d :: Within(r, d) && d in u && !u[d].Dir?
  }

  /** A path stays sealed: nothing that is in the way ever becomes a directory. */
  lemma SealedStep(es: seq<Entry>, k: nat, r: Path)
    requires k < |es| && PlaceAll(EMPTY_ROOT, es).Okay?
    requires Partial(es, k).Okay? && Sealed(Partial(es, k).value, r)
    ensures Partial(es, k + 1).Okay? && Sealed(Partial(es, k + 1).value, r)
  {
    NextVolume(es, k);
    var u, u' := Partial(es, k).value, Partial(es, k + 1).value;
    var d :| Within(r, d) && d in u && !u[d].Dir?;
    if es[k].Remove? {
      if Within(d, es[k].path) {
        assert Within(r, es[k].path) && es[k].path in u';
      } else {
        assert d in u';
      }
    } else if !es[k].Opaque? {
      EnsureDirGrows(u, Parent(es[k].path));
      assert d in u' && !u'[d].Dir?;
    }
  }

  lemma {:induction false} SealedStays(es: seq<Entry>, i: nat, k: nat, r: Path)
    requires i <= k <= |es| && PlaceAll(EMPTY_ROOT, es).Okay?
    requires Partial(es, i).Okay? && Sealed(Partial(es, i).value, r)
    ensures Partial(es, k).Okay? && Sealed(Partial(es, k).value, r)
    decreases k - i
  {
    if i < k {
      SealedStep(es, i, r);
      SealedStays(es, i + 1, k, r);
    }
  }

  lemma LeafSeals(es: seq<Entry>, i: nat, k: nat)
    requires i < k <= |es| && PlaceAll(EMPTY_ROOT, es).Okay? && Leaf(es[i])
    ensures Partial(es, k).Okay? && Sealed(Partial(es, k).value, es[i].path)
  {
    NextVolume(es, i);
    var u', r := Partial(es, i + 1).value, es[i].path;
    assert Within(r, r) && r in u' && !u'[r].Dir?;
    SealedStays(es, i + 1, k, r);
  }

  /** A file, symlink or whiteout cannot be made below something that is not a directory. */
  lemma NoLeafBelow(u: Tree, e: Entry, d: Path)
    requires WellFormed(u) && d in u && !u[d].Dir? && Leaf(e) && Inside(e.path, d)
    ensures Place(u, e).Error?
  {
    if Place(u, e).Okay? {
      InsideParent(e.path, d);
      WithinOrSame(Parent(e.path), d);
      if !e.Remove? { EnsureDirGrows(u, Parent(e.path)); }
    }
  }

  /** After a file, symlink or whiteout no leaf can be made below it. */
  lemma NoLeafAfter(es: seq<Entry>, k: nat, i: nat)
    requires k < i < |es| && PlaceAll(EMPTY_ROOT, es).Okay? && Leaf(es[k]) && Leaf(es[i])
    ensures !Inside(es[i].path, es[k].path)
  {
    LeafSeals(es, k, i);
    NextVolume(es, i);
    var u := Partial(es, i).value;
    var d :| Within(es[k].path, d) && d in u && !u[d].Dir?;
    if Inside(es[i].path, es[k].path) { NoLeafBelow(u, es[i], d); }
  }

  lemma UnpackedWellFormed(es: seq<Entry>)
    requires UnpackLayer(es).Okay?
    ensures WellFormed(UnpackLayer(es).value)
  {
    PlacedVolume(es);
    SetOpaqueAt(PlaceAll(EMPTY_ROOT, es).value, OpaqueDirs(es));
  }

  /** What is sealed in the unpacked volume is not seen as a directory, whatever lies below. */
  lemma SealedNotSeen(es: seq<Entry>, base: Tree, p: Path)
    requires UnpackLayer(es).Okay? && PlaceAll(EMPTY_ROOT, es).Okay? && Sealed(PlaceAll(EMPTY_ROOT, es).value, p)
    ensures !IsDir(Merge(UnpackLayer(es).value, base), p)
  {
    var u, u' := PlaceAll(EMPTY_ROOT, es).value, UnpackLayer(es).value;
    SetOpaqueAt(u, OpaqueDirs(es));
    UnpackedWellFormed(es);
    var d :| Within(p, d) && d in u && !u[d].Dir?;
    assert u'[d] == u[d];
    WithinOrSame(p, d);
    if d != p { assert Inside(p, d) && Stops(u', d); }
  }

  /** What is whited out, and not decided by an addition afterwards, is not seen. */
  lemma {:induction false} StaysAbsent(es: seq<Entry>, base: Tree, i: nat, n: nat)
    requires i < n <= |es| && PlaceAll(EMPTY_ROOT, es).Okay? && WellFormed(base) && Plain(base) && es[i].Remove?
    requires forall k :: i < k < n ==> !(Adds(es[k]) && Decides(es[k], es[i].path))
    ensures Get(View(es, base, n), es[i].path) == None
  {
    if n - 1 > i {
      StaysAbsent(es, base, i, n - 1);
      ViewStepNoAddition(es, base, n - 1, es[i].path);
    } else {
      assert WhitesOut(es[i], es[i].path);
      ViewStepNoAddition(es, base, i, es[i].path);
    }
  }

  /** The added member decides what is at the path it is in conflict about. */
  lemma ConflictDecides(es: seq<Entry>, i: nat, j: nat)
    requires i < |es| && j < |es| && Conflict(es, i, j) && !(es[j].AddDevice? && es[j].path == es[i].path)
    ensures Decides(es[j], es[i].path)
  {
    var p, x := es[i].path, es[j].path;
    WithinOrSame(x, p);
    if x != p { InsideParent(x, p); }
    assert Within(p, p);
  }

  /** A conflict that is not excused shows at the path it is about: what the layer means has a node there that is
      not seen. */
  lemma ConflictShows(es: seq<Entry>, base: Tree, i: nat, j: nat)
    requires UnpackLayer(es).Okay? && i < |es| && j < |es| && Conflict(es, i, j) && !Excused(es, i, j)
    requires WellFormed(base) && Plain(base)
    ensures Merge(UnpackLayer(es).value, base) != ApplyLayer(base, es)
  {
    var p, ds := es[i].path, OpaqueDirs(es);
    assert es[..|es|] == es;
    LeafSeals(es, i, |es|);
    SealedNotSeen(es, base, p);
    ConflictDecides(es, i, j);
    MeantAt(Hide(base, es), es, p);
    var a := LastAdd(es, p);
    assert a >= j;
    if Decided(es[a], p) != Some(Dir(false)) {
      assert Within(p, es[a].path);
      assert a < i;
      NoLeafAfter(es, a, i);
      WithinOrSame(p, es[a].path);
      ClearedWellFormed(base, ds);
      StaysAbsent(es, Cleared(base, ds), i, |es|);
      OpaqueAgrees(PlaceAll(EMPTY_ROOT, es).value, ds, base);
    }
  }

  // ------------------------------------------------------------------ the layer

  lemma ClearedWellFormed(m: Tree, ds: seq<Path>)
    requires WellFormed(m) && Plain(m)
    ensures WellFormed(Cleared(m, ds)) && Plain(Cleared(m, ds))
  {
    var c := Cleared(m, ds);
    forall p, d | p in c && Inside(p, d) ensures IsDir(c, d) {
      assert forall x :: Inside(d, x) ==> Inside(p, x);
    }
  }

  /** For every layer that unpacks, and every tree below it: the volume shows over the tree what applying the layer
      to it gives, exactly when every conflict is excused. */
  lemma LayerAgreesIff(base: Tree, es: seq<Entry>)
    requires WellFormed(base) && Plain(base) && UnpackLayer(es).Okay?
    ensures Merge(UnpackLayer(es).value, base) == ApplyLayer(base, es) <==> Harmless(es)
  {
    if Harmless(es) {
      var ds := OpaqueDirs(es);
      ClearedWellFormed(base, ds);
      OpaqueAgrees(PlaceAll(EMPTY_ROOT, es).value, ds, base);
      HideSplits(base, es);
      assert es[..|es|] == es;
      var l, r := View(es, Cleared(base, ds), |es|), AddAll(HideRemoved(Cleared(base, ds), es), es);
      forall q ensures Get(l, q) == Get(r, q) { HarmlessSeen(es, Cleared(base, ds), q); }
      SameTree(l, r);
    } else {
      var i, j :| 0 <= i < |es| && 0 <= j < |es| && Conflict(es, i, j) && !Excused(es, i, j);
      ConflictShows(es, base, i, j);
    }
  }

  lemma SameTree(l: Tree, r: Tree)
    requires forall q :: Get(l, q) == Get(r, q)
    ensures l == r
  {
    forall q ensures (q in l <==> q in r) && (q in l ==> l[q] == r[q]) {
      assert Get(l, q) == Get(r, q);
    }
  }

  /** No path is named twice, whether added or whited out. */
  predicate NamedOnce(es: seq<Entry>) {
    forall i, j :: 0 <= i < j < |es| && !es[i].Opaque? && !es[j].Opaque? ==> es[i].path != es[j].path
  }

  lemma FullDirStays(u: Tree, e: Entry, d: Path)
    requires WellFormed(u) && d in u && Inside(d, e.path) && (e.AddFile? || e.AddSymlink?)
    ensures Place(u, e).Error?
  {
    assert IsDir(u, e.path);
    ParentInTree(u, e.path);
  }

  /** Something that is not a directory lies at or above p, inside x. */
  ghost predicate Deep(u: Tree, p: Path, x: Path) {
    exists d :: Within(p, d) && Inside(d, x) && d in u && !u[d].Dir?
  }

  lemma DeepStep(es: seq<Entry>, n: nat, p: Path, x: Path)
    requires n < |es| && PlaceAll(EMPTY_ROOT, es).Okay? && Partial(es, n).Okay? && Deep(Partial(es, n).value, p, x)
    requires es[n].Remove? ==> es[n].path != x && !Inside(x, es[n].path)
    ensures Partial(es, n + 1).Okay? && Deep(Partial(es, n + 1).value, p, x)
  {
    NextVolume(es, n);
    var u, u' := Partial(es, n).value, Partial(es, n + 1).value;
    var d :| Within(p, d) && Inside(d, x) && d in u && !u[d].Dir?;
    if es[n].Remove? {
      var y := es[n].path;
      if Within(d, y) {
        WithinOrSame(x, y);
        assert Within(p, y) && Inside(y, x) && y in u';
      } else {
        assert d in u';
      }
    } else if !es[n].Opaque? {
      EnsureDirGrows(u, Parent(es[n].path));
      assert d in u' && !u'[d].Dir?;
    }
  }

  lemma {:induction false} DeepUntil(es: seq<Entry>, n: nat, k: nat, p: Path) returns (r: nat)
    requires n <= k < |es| && PlaceAll(EMPTY_ROOT, es).Okay? && (es[k].AddFile? || es[k].AddSymlink?)
    requires Partial(es, n).Okay? && Deep(Partial(es, n).value, p, es[k].path)
    ensures n <= r < k && es[r].Remove? && es[r].path == es[k].path
    decreases k - n
  {
    var x := es[k].path;
    if n == k {
      NextVolume(es, k);
      var d :| Within(p, d) && Inside(d, x) && d in Partial(es, n).value && !Partial(es, n).value[d].Dir?;
      FullDirStays(Partial(es, n).value, es[k], d);
    } else if es[n].Remove? && es[n].path == x {
      r := n;
    } else {
      if es[n].Remove? { NoLeafAfter(es, n, k); }
      DeepStep(es, n, p, x);
      r := DeepUntil(es, n + 1, k, p);
    }
  }

  /** In a layer that unpacks, a file or symlink comes to lie above an earlier file, symlink or whiteout only after
      its own path has been whited out. */
  lemma LeafAboveLater(es: seq<Entry>, i: nat, k: nat) returns (r: nat)
    requires i < k < |es| && PlaceAll(EMPTY_ROOT, es).Okay?
    requires Leaf(es[i]) && (es[k].AddFile? || es[k].AddSymlink?) && Inside(es[i].path, es[k].path)
    ensures i < r < k && es[r].Remove? && es[r].path == es[k].path
  {
    NextVolume(es, i);
    var p := es[i].path;
    assert Within(p, p) && p in Partial(es, i + 1).value;
    r := DeepUntil(es, i + 1, k, p);
  }

  lemma NeverExcused(es: seq<Entry>, i: nat, j: nat)
    requires PlaceAll(EMPTY_ROOT, es).Okay? && NamedOnce(es) && i < |es| && j < |es| && Conflict(es, i, j)
    ensures !Excused(es, i, j)
  {
    forall k | i <= k < |es| && j <= k && (es[k].AddFile? || es[k].AddSymlink?)
      ensures !Within(es[i].path, es[k].path)
    {
      WithinOrSame(es[i].path, es[k].path);
      if k == j {
        WithinOrSame(es[j].path, es[i].path);
      } else if i < k && Inside(es[i].path, es[k].path) {
        var r := LeafAboveLater(es, i, k);
      }
    }
  }

  /** In a layer that names no path twice no conflict is excused: its volume shows what it means exactly when it has
      no conflict at all. */
  lemma NamedOnceAgreesIff(base: Tree, es: seq<Entry>)
    requires WellFormed(base) && Plain(base) && UnpackLayer(es).Okay? && NamedOnce(es)
    ensures Merge(UnpackLayer(es).value, base) == ApplyLayer(base, es) <==> NoConflict(es)
  {
    LayerAgreesIff(base, es);
    if i, j :| 0 <= i < |es| && 0 <= j < |es| && Conflict(es, i, j) { NeverExcused(es, i, j); }
  }

  /** A whiteout and a directory of one path unpack without error, but the directory is not seen. */
  lemma WhiteoutThenDirectory(base: Tree)
    requires WellFormed(base) && Plain(base)
    ensures var es := [Remove(["a"]), AddDir(["a"])];
            UnpackLayer(es).Okay? && Merge(UnpackLayer(es).value, base) != ApplyLayer(base, es)
  {
    var p: Path := ["a"];
    var es := [Remove(p), AddDir(p)];
    SmallLayer(Remove(p), AddDir(p));
    LayerAgreesIff(base, es);
    assert Within(p, p);
    assert Conflict(es, 0, 1) && !Excused(es, 0, 1);
  }

  /** A whiteout and a symlink of one path are in conflict too, but the symlink is seen. */
  lemma WhiteoutThenSymlink(base: Tree, target: string)
    requires WellFormed(base) && Plain(base)
    ensures var es := [Remove(["a"]), AddSymlink(["a"], target)];
            && !NoConflict(es) && UnpackLayer(es).Okay?
            && Merge(UnpackLayer(es).value, base) == ApplyLayer(base, es)
  {
    var p: Path := ["a"];
    var es := [Remove(p), AddSymlink(p, target)];
    SmallLayer(Remove(p), AddSymlink(p, target));
    LayerAgreesIff(base, es);
    assert Within(p, p);
    assert Conflict(es, 0, 1);
    assert Covered(es, 0, 1);
  }

  /** Unpacking a layer of two members, neither an opaque mark. */
  lemma SmallLayer(e: Entry, f: Entry)
    requires e == Remove(["a"]) && (f == AddDir(["a"]) || (f.AddSymlink? && f.path == ["a"]))
    ensures UnpackLayer([e, f]).Okay?
  {
    var p: Path := ["a"];
    var es := [e, f];
    var u := Prune(EMPTY_ROOT, p)[p := Whiteout];
    assert Parent(p) == [] && !Within([], p);
    assert es[..|es| - 1] == [e] && [e][..0] == [];
    assert PlaceAll(EMPTY_ROOT, [e]) == Place(EMPTY_ROOT, e) == Okay(u);
    assert PlaceAll(EMPTY_ROOT, es) == Place(u, f);
    assert OpaqueDirs([e]) == [] && OpaqueDirs(es) == [];
  }
}
