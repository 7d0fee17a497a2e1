/** Looking a path up in an overlay mount: a stack of volumes, topmost first. */
module Overlay {
  import opened Wrappers
  import opened Trees

  /** What a process sees of a node. */
  function Bare(n: Node): Node {
    if n.Dir? then Dir(false) else n
  }

  /** The topmost layer that has the path decides; a whiteout there means that nothing is seen. */
  function Find(layers: seq<Tree>, p: Path): Option<Node> {
    if layers == [] then None
    else if p !in layers[0] then Find(layers[1..], p)
    else if layers[0][p].Whiteout? then None
    else Some(Bare(layers[0][p]))
  }

  /** The layers whose directories at p are merged: down to the first that is opaque, or not a directory. */
  function Merged(layers: seq<Tree>, p: Path): seq<Tree> {
    if layers == [] then []
    else if p !in layers[0] then Merged(layers[1..], p)
    else if !layers[0][p].Dir? then []
    else if layers[0][p].hides then [layers[0]]
    else [layers[0]] + Merged(layers[1..], p)
  }

  /** The layers in which a name in directory p is looked up, one path component after another. */
  function Searched(stack: seq<Tree>, p: Path): seq<Tree>
    decreases |p|
  {
    Merged(if p == [] then stack else Searched(stack, Parent(p)), p)
  }

  function Lookup(stack: seq<Tree>, p: Path): Option<Node> {
    Find(if p == [] then stack else Searched(stack, Parent(p)), p)
  }

  // ------------------------------------------------------------------ one volume over one tree

  /** Below d, volume u hides what is in the layers under it. */
  predicate Stops(u: Tree, d: Path) {
    d in u && (!u[d].Dir? || u[d].hides)
  }

  ghost predicate Blocked(u: Tree, p: Path) {
    exists d :: Inside(p, d) && Stops(u, d)
  }

  /** What is seen when volume u lies over the tree `base`. */
  ghost function Merge(u: Tree, base: Tree): Tree {
    map p | p in u.Keys + base.Keys && (if p in u then !u[p].Whiteout? else !Blocked(u, p)) ::
      if p in u then Bare(u[p]) else base[p]
  }

  /** What is seen through a stack, as one tree. */
  ghost function Flatten(stack: seq<Tree>): Tree {
    if stack == [] then map[] else Merge(stack[0], Flatten(stack[1..]))
  }

  function Get(t: Tree, p: Path): Option<Node> {
    if p in t then Some(t[p]) else None
  }

  ghost predicate AllWellFormed(stack: seq<Tree>) {
    forall i :: 0 <= i < |stack| ==> WellFormed(stack[i])
  }

  lemma BlockedParent(u: Tree, p: Path)
    requires p != []
    ensures Blocked(u, p) <==> Blocked(u, Parent(p)) || Stops(u, Parent(p))
  {
    var q := Parent(p);
    assert Inside(p, q);
    if Blocked(u, p) {
      var d :| Inside(p, d) && Stops(u, d);
      InsideParent(p, d);
      WithinOrSame(q, d);
    }
    if Blocked(u, q) {
      var d :| Inside(q, d) && Stops(u, d);
      assert Inside(p, d);
    }
  }

  /** Adding a volume on top of a stack, as far as the search for names is concerned. */
  lemma {:induction false} SearchedUnder(u: Tree, rest: seq<Tree>, p: Path)
    requires WellFormed(u)
    ensures Searched([u] + rest, p)
            == (if p in u && u[p].Dir? then [u] else [])
               + (if Blocked(u, p) || Stops(u, p) then [] else Searched(rest, p))
    decreases |p|
  {
    if p == [] {
      assert ([u] + rest)[1..] == rest;
      assert !Blocked(u, p);
    } else {
      var q := Parent(p);
      SearchedUnder(u, rest, q);
      BlockedParent(u, p);
      if p in u { ParentInTree(u, p); }
      var under := if Blocked(u, q) || Stops(u, q) then [] else Searched(rest, q);
      if IsDir(u, q) {
        assert ([u] + under)[1..] == under;
      } else {
        assert Searched([u] + rest, q) == under;
      }
      assert under == [] ==> Merged(under, p) == [];
    }
  }

  lemma LookupUnder(u: Tree, rest: seq<Tree>, p: Path)
    requires WellFormed(u)
    ensures Lookup([u] + rest, p)
            == if p in u then if u[p].Whiteout? then None else Some(Bare(u[p]))
               else if Blocked(u, p) then None
               else Lookup(rest, p)
  {
    if p == [] {
      assert ([u] + rest)[1..] == rest;
    } else {
      var q := Parent(p);
      SearchedUnder(u, rest, q);
      BlockedParent(u, p);
      if p in u { ParentInTree(u, p); }
      var under := if Blocked(u, q) || Stops(u, q) then [] else Searched(rest, q);
      if IsDir(u, q) {
        assert Searched([u] + rest, q) == [u] + under;
        assert ([u] + under)[1..] == under;
        assert p !in u ==> Find([u] + under, p) == Find(under, p);
      } else {
        assert Searched([u] + rest, q) == under;
      }
    }
  }

  lemma {:induction false} LookupNothing(p: Path)
    ensures Searched([], p) == [] && Lookup([], p) == None
    decreases |p|
  {
    if p != [] { LookupNothing(Parent(p)); }
  }

  /** The component-wise lookup through a stack sees exactly what merging its volumes one by one gives. */
  lemma {:induction false} LookupFlatten(stack: seq<Tree>, p: Path)
    requires AllWellFormed(stack)
    ensures Lookup(stack, p) == Get(Flatten(stack), p)
  {
    if stack == [] {
      LookupNothing(p);
    } else {
      assert stack == [stack[0]] + stack[1..];
      LookupUnder(stack[0], stack[1..], p);
      LookupFlatten(stack[1..], p);
    }
  }
}
