/** Directory listings and map iteration: the same entries, in an order that the code cannot rely on. */
module Listings {

  function Elements<T(==)>(ids: seq<T>): set<T> {
    set id | id in ids
  }

  predicate Distinct<T(==)>(ids: seq<T>) {
    forall i, j :: 0 <= i < j < |ids| ==> ids[i] != ids[j]
  }

  /** A directory listing names every entry once, in some order. */
  predicate Lists<T(==)>(ids: seq<T>, entries: set<T>) {
    Elements(ids) == entries && Distinct(ids)
  }

  method List<T(==)>(entries: set<T>) returns (ids: seq<T>)
    ensures Lists(ids, entries)
  {
    ids := [];
    var rest := entries;
    while rest != {}
      invariant rest <= entries && Elements(ids) == entries - rest && Distinct(ids)
      decreases rest
    {
      var id :| id in rest;
      assert Elements(ids + [id]) == Elements(ids) + {id};
      ids, rest := ids + [id], rest - {id};
    }
  }

  lemma ElementsSnoc<T>(ids: seq<T>, i: nat)
    requires i < |ids|
    ensures Elements(ids[..i + 1]) == Elements(ids[..i]) + {ids[i]}
  {
    assert ids[..i + 1] == ids[..i] + [ids[i]];
  }

  lemma TakeAll<T>(ids: seq<T>)
    ensures ids[..|ids|] == ids
  {
  }

  // ------------------------------------------------------------------ sums

  /** What is recorded for the ids, counting 0 for those that have no record. */
  function Sizes(sizes: map<string, int>, ids: seq<string>): int {
    if ids == [] then 0
    else Sizes(sizes, ids[..|ids| - 1]) + SizeOf(sizes, ids[|ids| - 1])
  }

  function SizeOf(sizes: map<string, int>, id: string): int {
    if id in sizes then sizes[id] else 0
  }

  ghost function TotalSize(sizes: map<string, int>, ids: set<string>): int {
    if ids == {} then 0
    else var id :| id in ids; SizeOf(sizes, id) + TotalSize(sizes, ids - {id})
  }

  /** A sum over a set can be taken in any order. */
  lemma {:induction false} TotalSizeLess(sizes: map<string, int>, ids: set<string>, id: string)
    requires id in ids
    ensures TotalSize(sizes, ids) == SizeOf(sizes, id) + TotalSize(sizes, ids - {id})
  {
    var x :| x in ids && TotalSize(sizes, ids) == SizeOf(sizes, x) + TotalSize(sizes, ids - {x});
    if x != id {
      TotalSizeLess(sizes, ids - {x}, id);
      TotalSizeLess(sizes, ids - {id}, x);
      assert ids - {x} - {id} == ids - {id} - {x};
    }
  }

  /** A list's sum, one id at a time: an id without a record counts 0. */
  lemma SizesSnoc(sizes: map<string, int>, ids: seq<string>, id: string)
    ensures Sizes(sizes, []) == 0
    ensures Sizes(sizes, ids + [id]) == Sizes(sizes, ids) + (if id in sizes then sizes[id] else 0)
  {
    assert (ids + [id])[..|ids|] == ids;
  }

  /** Only the sizes of the ids matter. */
  lemma {:induction false} TotalSizeSame(a: map<string, int>, b: map<string, int>, ids: set<string>)
    requires forall id :: id in ids ==> SizeOf(a, id) == SizeOf(b, id)
    ensures TotalSize(a, ids) == TotalSize(b, ids)
  {
    if ids != {} {
      var id :| id in ids;
      TotalSizeLess(a, ids, id);
      TotalSizeLess(b, ids, id);
      TotalSizeSame(a, b, ids - {id});
    }
  }

  /** So every listing gives the same sum. */
  lemma {:induction false} ListingSize(sizes: map<string, int>, list: seq<string>, ids: set<string>)
    requires Lists(list, ids)
    ensures Sizes(sizes, list) == TotalSize(sizes, ids)
  {
    if list == [] {
      assert ids == {};
    } else {
      var front, last := list[..|list| - 1], list[|list| - 1];
      TakeAll(list);
      ElementsSnoc(list, |list| - 1);
      assert last !in Elements(front);
      assert Elements(front) == ids - {last};
      ListingSize(sizes, front, ids - {last});
      TotalSizeLess(sizes, ids, last);
    }
  }

  /** Sums over disjoint sets add up. */
  lemma {:induction false} TotalSizeUnion(sizes: map<string, int>, a: set<string>, b: set<string>)
    requires a !! b
    ensures TotalSize(sizes, a + b) == TotalSize(sizes, a) + TotalSize(sizes, b)
  {
    if a == {} {
      assert a + b == b;
    } else {
      var id :| id in a;
      TotalSizeLess(sizes, a, id);
      TotalSizeLess(sizes, a + b, id);
      assert a + b - {id} == (a - {id}) + b;
      TotalSizeUnion(sizes, a - {id}, b);
    }
  }
}
