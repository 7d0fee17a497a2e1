/** Unpacking one layer's archive into a volume of its own. */
module Unpacking {
  import opened Wrappers
  import opened Trees
  import opened Names

  datatype Body = Directory | Regular(data: Bytes) | Link(target: string) | Device

  /** An archive member. */
  datatype Header = Header(name: Path, body: Body)

  /** What a member means for the volume. */
  datatype Entry =
    | AddDir(path: Path)
    | AddFile(path: Path, data: Bytes)
    | AddSymlink(path: Path, target: string)
    | AddDevice(path: Path)
    | Remove(path: Path)                      // whiteout of a path in lower layers
    | Opaque(path: Path)                      // hides what lower layers have below a directory

  const OPAQUE_MARK := ".wh..wh..opq"

  function EntryOf(h: Header): Entry {
    if h.name != [] && h.name[|h.name| - 1] == OPAQUE_MARK then Opaque(Trees.Parent(h.name))
    else if h.name != [] && HasPrefix(h.name[|h.name| - 1], ".wh.") then
      Remove(Trees.Parent(h.name) + [h.name[|h.name| - 1][4..]])
    else
      match h.body
      case Directory => AddDir(h.name)
      case Regular(data) => AddFile(h.name, data)
      case Link(target) => AddSymlink(h.name, target)
      case Device => AddDevice(h.name)
  }

  function Entries(hs: seq<Header>): (es: seq<Entry>)
    ensures |es| == |hs| && forall i :: 0 <= i < |hs| ==> es[i] == EntryOf(hs[i])
  {
    if hs == [] then [] else Entries(hs[..|hs| - 1]) + [EntryOf(hs[|hs| - 1])]
  }

  /** The tree with directory d, created together with its missing ancestors if nothing is there; an error if
      an ancestor is not a directory. */
  function EnsureDir(t: Tree, d: Path): Result<Tree>
    decreases |d|
  {
    if d in t then Okay(t)
    else if d == [] then Error
    else
      match EnsureDir(t, Parent(d))
      case Error => Error
      case Okay(t1) => if IsDir(t1, Parent(d)) then Okay(t1[d := Dir(false)]) else Error
  }

  predicate EmptyDir(t: Tree, p: Path) {
    forall q :: q in t ==> !Inside(q, p)
  }

  /** The tree after one member, or an error that leaves the tree as it was. */
  function Place(t: Tree, e: Entry): Result<Tree> {
    match e
    case Opaque(_) => Okay(t)
    case Remove(p) =>
      if p != [] && IsDir(t, Parent(p)) then Okay(Prune(t, p)[p := Whiteout]) else Error
    case AddDevice(p) => EnsureDir(t, Parent(p))
    case AddDir(p) => (
      match EnsureDir(t, Parent(p))
      case Error => Error
      case Okay(t1) =>
        if p in t1 then if t1[p].Symlink? then Error else Okay(t1)
        else if IsDir(t1, Parent(p)) then Okay(t1[p := Dir(false)]) else Error)
    case AddFile(p, data) => (
      match EnsureDir(t, Parent(p))
      case Error => Error
      case Okay(t1) =>
        if IsDir(t1, Parent(p)) && (p in t1 ==> t1[p].File?) then Okay(t1[p := File(data)]) else Error)
    case AddSymlink(p, target) =>
      match EnsureDir(t, Parent(p))
      case Error => Error
      case Okay(t1) =>
        if p != [] && IsDir(t1, Parent(p)) && (IsDir(t1, p) ==> EmptyDir(t1, p))
        then Okay(t1[p := Symlink(target)]) else Error
  }

  function PlaceAll(t: Tree, es: seq<Entry>): Result<Tree> {
    if es == [] then Okay(t)
    else
      match PlaceAll(t, es[..|es| - 1])
      case Error => Error
      case Okay(t1) => Place(t1, es[|es| - 1])
  }

  function Size(e: Entry): nat {
    if e.AddFile? then |e.data| else 0
  }

  function TotalSize(es: seq<Entry>): nat {
    if es == [] then 0 else TotalSize(es[..|es| - 1]) + Size(es[|es| - 1])
  }

  /** The opaque marks' directories, in order. */
  function OpaqueDirs(es: seq<Entry>): seq<Path> {
    if es == [] then []
    else OpaqueDirs(es[..|es| - 1]) + (if es[|es| - 1].Opaque? then [es[|es| - 1].path] else [])
  }

  /** Setting the opaque attribute needs the path to exist, and matters for directories only. */
  function SetOpaque(t: Tree, ds: seq<Path>): Result<Tree> {
    if ds == [] then Okay(t)
    else
      match SetOpaque(t, ds[..|ds| - 1])
      case Error => Error
      case Okay(t1) =>
        var d := ds[|ds| - 1];
        if d !in t1 then Error
        else if t1[d].Dir? then Okay(t1[d := Dir(true)])
        else Okay(t1)
  }

  /** A new volume after its layer's members and then its opaque attributes. */
  function UnpackLayer(es: seq<Entry>): Result<Tree> {
    match PlaceAll(EMPTY_ROOT, es)
    case Error => Error
    case Okay(t) => SetOpaque(t, OpaqueDirs(es))
  }

  class Volume {
    var tree: Tree

    constructor ()
      ensures tree == EMPTY_ROOT
    {
      tree := EMPTY_ROOT;
    }

    /** Creates the missing ancestors of `child`. */
    method EnsureParentDir(child: Path) returns (ok: bool)
      requires WellFormed(tree)
      modifies this
      ensures ok <==> EnsureDir(old(tree), Parent(child)).Okay?
      ensures tree == if ok then EnsureDir(old(tree), Parent(child)).value else old(tree)
      ensures WellFormed(tree)
      decreases |child|
    {
      var dir := Parent(child);
      if dir in tree { return true; }
      ok := EnsureParentDir(dir);
      if !ok { return; }
      EnsureDirGrows(old(tree), Parent(dir));
      if !IsDir(tree, Parent(dir)) { return false; }
      PutWellFormed(tree, dir, Dir(false));
      tree := tree[dir := Dir(false)];
    }

    method HandleEntry(h: Header) returns (size: nat, ok: bool)
      requires WellFormed(tree) && !EntryOf(h).Remove? && !EntryOf(h).Opaque?
      modifies this
      ensures ok <==> Place(old(tree), EntryOf(h)).Okay?
      ensures tree == if ok then Place(old(tree), EntryOf(h)).value else old(tree)
      ensures ok ==> size == Size(EntryOf(h))
      ensures WellFormed(tree)
    {
      size := 0;
      ok := EnsureParentDir(h.name);
      if !ok { return; }
      if Place(old(tree), EntryOf(h)).Okay? {
        PlaceWellFormed(old(tree), EntryOf(h));
      } else {
        PlaceRestores(old(tree), EntryOf(h));
      }
      match h.body {
        case Device =>
        case Directory =>
          ok := CreateDirectory(h.name);
        case Link(target) =>
          ok := CreateSymlink(h.name, target);
        case Regular(data) =>
          ok := CreateRegularFile(h.name, data);
          size := |data|;
      }
    }

    method CreateDirectory(path: Path) returns (ok: bool)
      modifies this
      ensures ok <==> (path in old(tree) && !old(tree)[path].Symlink?) || (path !in old(tree) && IsDir(old(tree), Parent(path)))
      ensures tree == if ok && path !in old(tree) then old(tree)[path := Dir(false)] else old(tree)
    {
      if path in tree { return !tree[path].Symlink?; }
      if !IsDir(tree, Parent(path)) { return false; }
      tree := tree[path := Dir(false)];
      ok := true;
    }

    method CreateSymlink(path: Path, target: string) returns (ok: bool)
      modifies this
      ensures ok <==> path != [] && IsDir(old(tree), Parent(path)) && (IsDir(old(tree), path) ==> EmptyDir(old(tree), path))
      ensures tree == if ok then old(tree)[path := Symlink(target)] else old(tree)
    {
      if path == [] || !IsDir(tree, Parent(path)) { return false; }
      if path in tree {
        if IsDir(tree, path) && !EmptyDir(tree, path) { return false; }
        tree := tree - {path};
      }
      tree := tree[path := Symlink(target)];
      ok := true;
    }

    method CreateRegularFile(path: Path, data: Bytes) returns (ok: bool)
      modifies this
      ensures ok <==> IsDir(old(tree), Parent(path)) && (path in old(tree) ==> old(tree)[path].File?)
      ensures tree == if ok then old(tree)[path := File(data)] else old(tree)
    {
      if !IsDir(tree, Parent(path)) { return false; }
      if path in tree && !tree[path].File? { return false; }
      tree := tree[path := File(data)];
      ok := true;
    }

    method RemoveWhiteout(path: Path) returns (ok: bool)
      modifies this
      ensures ok <==> Place(old(tree), Remove(path)).Okay?
      ensures tree == if ok then Place(old(tree), Remove(path)).value else old(tree)
    {
      if path == [] || !IsDir(tree, Parent(path)) { return false; }
      tree := Prune(tree, path);
      tree := tree[path := Whiteout];
      ok := true;
    }

    /** Unpacks the archive: the directories to mark opaque and the number of bytes written. */
    method Unpack(hs: seq<Header>) returns (r: Result<(seq<Path>, nat)>)
      requires WellFormed(tree)
      modifies this
      ensures r.Okay? <==> PlaceAll(old(tree), Entries(hs)).Okay?
      ensures r.Okay? ==> tree == PlaceAll(old(tree), Entries(hs)).value
      ensures r.Okay? ==> r.value == (OpaqueDirs(Entries(hs)), TotalSize(Entries(hs)))
    {
      var marks, total := [], 0;
      ghost var es := Entries(hs);
      for i := 0 to |hs|
        invariant WellFormed(tree)
        invariant PlaceAll(old(tree), es[..i]) == Okay(tree)
        invariant marks == OpaqueDirs(es[..i]) && total == TotalSize(es[..i])
      {
        var name := hs[i].name;
        var ok, size := true, 0;
        PlaceNext(old(tree), es, i, tree);
        if name != [] && name[|name| - 1] == OPAQUE_MARK {
          marks := marks + [Parent(name)];
        } else if name != [] && HasPrefix(name[|name| - 1], ".wh.") {
          ok := RemoveWhiteout(Parent(name) + [name[|name| - 1][4..]]);
        } else {
          size, ok := HandleEntry(hs[i]);
        }
        if !ok {
          ErrorStays(old(tree), es, i + 1);
          return Error;
        }
        total := total + size;
      }
      assert es[..|hs|] == es;
      r := Okay((marks, total));
    }

    method HandleOpaqueWhiteouts(ds: seq<Path>) returns (ok: bool)
      modifies this
      ensures ok <==> SetOpaque(old(tree), ds).Okay?
      ensures ok ==> tree == SetOpaque(old(tree), ds).value
    {
      for i := 0 to |ds|
        invariant SetOpaque(old(tree), ds[..i]) == Okay(tree)
      {
        assert ds[..i + 1][..i] == ds[..i];
        if ds[i] !in tree {
          OpaqueErrorStays(old(tree), ds, i + 1);
          return false;
        }
        if tree[ds[i]].Dir? { tree := tree[ds[i] := Dir(true)]; }
      }
      assert ds[..|ds|] == ds;
      ok := true;
    }
  }

  /** What one more member does. */
  lemma PlaceNext(t: Tree, es: seq<Entry>, i: nat, t1: Tree)
    requires i < |es| && PlaceAll(t, es[..i]) == Okay(t1) && WellFormed(t1)
    ensures PlaceAll(t, es[..i + 1]) == Place(t1, es[i])
    ensures Place(t1, es[i]).Okay? ==> WellFormed(Place(t1, es[i]).value)
    ensures OpaqueDirs(es[..i + 1]) == OpaqueDirs(es[..i]) + (if es[i].Opaque? then [es[i].path] else [])
    ensures TotalSize(es[..i + 1]) == TotalSize(es[..i]) + Size(es[i])
  {
    assert es[..i + 1][..i] == es[..i];
    if Place(t1, es[i]).Okay? { PlaceWellFormed(t1, es[i]); }
  }

  lemma {:induction false} ErrorStays(t: Tree, es: seq<Entry>, i: nat)
    requires i <= |es| && PlaceAll(t, es[..i]).Error?
    ensures PlaceAll(t, es).Error?
    decreases |es| - i
  {
    if i == |es| {
      assert es[..i] == es;
    } else {
      assert es[..i + 1][..i] == es[..i];
      ErrorStays(t, es, i + 1);
    }
  }

  lemma {:induction false} OpaqueErrorStays(t: Tree, ds: seq<Path>, i: nat)
    requires i <= |ds| && SetOpaque(t, ds[..i]).Error?
    ensures SetOpaque(t, ds).Error?
    decreases |ds| - i
  {
    if i == |ds| {
      assert ds[..i] == ds;
    } else {
      assert ds[..i + 1][..i] == ds[..i];
      OpaqueErrorStays(t, ds, i + 1);
    }
  }

  lemma {:induction false} EnsureDirGrows(t: Tree, d: Path)
    requires WellFormed(t) && EnsureDir(t, d).Okay?
    ensures WellFormed(EnsureDir(t, d).value) && d in EnsureDir(t, d).value
    ensures d !in t ==> IsDir(EnsureDir(t, d).value, d)
    ensures d in t ==> EnsureDir(t, d).value == t
    ensures forall q :: q in EnsureDir(t, d).value <==> q in t || Within(d, q)
    ensures forall q :: q in EnsureDir(t, d).value ==> EnsureDir(t, d).value[q] == if q in t then t[q] else Dir(false)
    decreases |d|
  {
    var t' := EnsureDir(t, d).value;
    if d in t {
      forall q | Within(d, q) ensures q in t { if q != d { assert Inside(d, q); } }
    } else {
      EnsureDirGrows(t, Parent(d));
      PutWellFormed(EnsureDir(t, Parent(d)).value, d, Dir(false));
      forall q ensures q in t' <==> q in t || Within(d, q) { InsideParent(d, q); WithinOrSame(d, q); }
    }
  }

  /** A failing entry leaves the tree as it was: its parent directory was there already. */
  lemma PlaceRestores(t: Tree, e: Entry)
    requires WellFormed(t) && EnsureDir(t, Parent(e.path)).Okay? && Place(t, e).Error? && !e.Remove?
    ensures EnsureDir(t, Parent(e.path)).value == t
  {
    EnsureDirGrows(t, Parent(e.path));
    if Parent(e.path) !in t {
      if e.path in t { ParentInTree(t, e.path); }
    }
  }

  lemma PlaceWellFormed(t: Tree, e: Entry)
    requires WellFormed(t) && Place(t, e).Okay?
    ensures WellFormed(Place(t, e).value)
  {
    if e.Remove? {
      PruneWellFormed(t, e.path);
      assert Inside(e.path, Parent(e.path));
      PutWellFormed(Prune(t, e.path), e.path, Whiteout);
    } else if !e.Opaque? {
      EnsureDirGrows(t, Parent(e.path));
      var t1 := EnsureDir(t, Parent(e.path)).value;
      if e.AddDir? && e.path !in t1 {
        PutWellFormed(t1, e.path, Dir(false));
      } else if e.AddFile? {
        PutWellFormed(t1, e.path, File(e.data));
      } else if e.AddSymlink? {
        PutWellFormed(t1, e.path, Symlink(e.target));
      }
    }
  }

  // ------------------------------------------------------------------ when a member can be placed, and what it does

  /** Whatever there is above p is a directory. */
  ghost predicate ClearAbove(t: Tree, p: Path) {
    forall d :: d in t && Inside(p, d) ==> IsDir(t, d)
  }

  lemma {:induction false} EnsureDirIff(t: Tree, d: Path)
    requires WellFormed(t)
    ensures EnsureDir(t, d).Okay? <==> d in t || ClearAbove(t, d)
    decreases |d|
  {
    if d !in t {
      var p := Parent(d);
      EnsureDirIff(t, p);
      assert Inside(d, p);
      if p in t {
        forall x | x in t && Inside(d, x) && x != p ensures IsDir(t, x) { assert Inside(p, x); }
      } else {
        forall x ensures Inside(d, x) <==> x == p || Inside(p, x) { InsideParent(d, x); WithinOrSame(p, x); }
        if EnsureDir(t, p).Okay? { EnsureDirGrows(t, p); }
      }
    }
  }

  /** A member can be placed exactly if: for a whiteout, its directory is there; for a device, the directories above it
      can be made; for the others, besides, there is nothing at the path, or, for a directory, anything but a symlink, for
      a file, a file, and for a symlink, anything but a directory that has something in it. */
  lemma PlaceOkayIff(t: Tree, e: Entry)
    requires WellFormed(t)
    ensures Place(t, e).Okay? <==>
              match e
              case Opaque(_) => true
              case Remove(p) => p != [] && IsDir(t, Parent(p))
              case AddDevice(p) => Parent(p) in t || ClearAbove(t, Parent(p))
              case AddDir(p) => if p in t then !t[p].Symlink? else ClearAbove(t, p)
              case AddFile(p, _) => if p in t then t[p].File? else ClearAbove(t, p)
              case AddSymlink(p, _) => p != [] && if IsDir(t, p) then EmptyDir(t, p) else ClearAbove(t, p)
  {
    if !e.Opaque? && !e.Remove? {
      EnsureDirIff(t, Parent(e.path));
      AboveParent(t, e.path);
      if EnsureDir(t, Parent(e.path)).Okay? { EnsureDirGrows(t, Parent(e.path)); }
      if e.path in t { ParentInTree(t, e.path); }
    }
  }

  lemma AboveParent(t: Tree, p: Path)
    requires WellFormed(t)
    ensures p != [] ==> (ClearAbove(t, p) <==> ClearAbove(t, Parent(p)) && (Parent(p) in t ==> IsDir(t, Parent(p))))
    ensures p in t || (Parent(p) in t && IsDir(t, Parent(p))) ==> ClearAbove(t, p)
  {
    if p != [] {
      forall x ensures Inside(p, x) <==> x == Parent(p) || Inside(Parent(p), x) {
        InsideParent(p, x);
        WithinOrSame(Parent(p), x);
      }
    }
  }

  /** What there is at q after a member other than a whiteout. */
  function Placed(t: Tree, e: Entry, q: Path): Option<Node> {
    if e.AddFile? && q == e.path then Some(File(e.data))
    else if e.AddSymlink? && q == e.path then Some(Symlink(e.target))
    else if q in t then Some(t[q])
    else if Within(Parent(e.path), q) || (e.AddDir? && q == e.path) then Some(Dir(false))
    else None
  }

  /** It adds what it says at its path and the missing directories above, and leaves everything else as it was. */
  lemma PlaceAdds(t: Tree, e: Entry, q: Path)
    requires WellFormed(t) && Place(t, e).Okay? && !e.Opaque? && !e.Remove?
    ensures var r := Place(t, e).value; (if q in r then Some(r[q]) else None) == Placed(t, e, q)
  {
    EnsureDirGrows(t, Parent(e.path));
  }
}
