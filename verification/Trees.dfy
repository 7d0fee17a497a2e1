/** File trees: what a volume directory, or a root file system, contains. */
module Trees {

  type Name = string

  /** The components of a path below a volume; the volume itself is the empty path. */
  type Path = seq<Name>

  type Bytes = seq<bv8>

  /** A directory with the overlay "opaque" attribute hides what lower layers have in it; a whiteout is a 0/0 character device. */
  datatype Node = Dir(hides: bool) | File(data: Bytes) | Symlink(target: string) | Whiteout

  type Tree = map<Path, Node>

  function Parent(p: Path): Path {
    if p == [] then [] else p[..|p| - 1]
  }

  predicate IsDir(t: Tree, p: Path) {
    p in t && t[p].Dir?
  }

  /** p is d or inside it. */
  predicate Within(p: Path, d: Path) {
    d <= p
  }

  predicate Inside(p: Path, d: Path) {
    d < p
  }

  /** The volume directory is there, and everything else is in a directory. */
  ghost predicate WellFormed(t: Tree) {
    IsDir(t, []) && forall p, d :: p in t && Inside(p, d) ==> IsDir(t, d)
  }

  /** A tree as a process sees it: no whiteouts and no attributes. */
  ghost predicate Plain(t: Tree) {
    forall p :: p in t ==> !t[p].Whiteout? && (t[p].Dir? ==> !t[p].hides)
  }

  const EMPTY_ROOT: Tree := map[[] := Dir(false)]

  /** The tree without p and everything inside it. */
  function Prune(t: Tree, p: Path): Tree {
    map q | q in t && !Within(q, p) :: t[q]
  }

  lemma WithinOrSame(p: Path, d: Path)
    ensures Within(p, d) <==> p == d || Inside(p, d)
  {
  }

  lemma InsideParent(p: Path, d: Path)
    requires p != []
    ensures Inside(p, d) <==> Within(Parent(p), d)
  {
  }

  lemma ParentInTree(t: Tree, p: Path)
    requires WellFormed(t) && p in t
    ensures IsDir(t, Parent(p))
  {
    if p != [] { assert Inside(p, Parent(p)); }
  }

  lemma PruneWellFormed(t: Tree, p: Path)
    requires WellFormed(t) && p != []
    ensures WellFormed(Prune(t, p))
  {
    forall q, d | q in Prune(t, p) && Inside(q, d) ensures IsDir(Prune(t, p), d) {
      assert !Within(d, p);
    }
  }

  /** Adding a node in a directory, not in place of a directory that has something in it. */
  lemma PutWellFormed(t: Tree, p: Path, n: Node)
    requires WellFormed(t) && p != [] && IsDir(t, Parent(p))
    requires n.Dir? || forall q :: q in t ==> !Inside(q, p)
    ensures WellFormed(t[p := n])
  {
    forall q, d | q in t[p := n] && Inside(q, d) ensures IsDir(t[p := n], d) {
      if q == p {
        InsideParent(p, d);
        if d != Parent(p) { assert Inside(Parent(p), d); }
      }
    }
  }

  /** Nothing is inside a node that is not a directory. */
  lemma LeafIsEmpty(t: Tree, p: Path, q: Path)
    requires WellFormed(t) && !IsDir(t, p) && q in t
    ensures !Inside(q, p)
  {
  }

  /** A path and the directories it is in. */
  function Prefixes(p: Path): set<Path> {
    set k | 0 <= k <= |p| :: p[..k]
  }

  lemma PrefixesOf(p: Path, q: Path)
    ensures q in Prefixes(p) <==> Within(p, q)
  {
    if q <= p { assert q == p[..|q|]; }
  }
}
