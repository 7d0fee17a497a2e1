/**
 Driver operations run to completion with nothing else going on: what they do to a store whose link files,
 symlinks and directories agree.
 */
module Volumes {
  import opened Disk

  /** Calls left until an operation is done. */
  function Rank<V>(op: Op<V>): nat {
    match op
    case CvMkdir(_) => 2
    case CvSymlink(_) => 1
    case CvLink(_, _) => 0
    case MvStat(_, _) => 5
    case MvRead(_, _) => 4
    case MvLink(_, _, _) => 3
    case MvUnlink(_, _, _) => 2
    case MvSymlink(_, _, _) => 1
    case MvDir(_, _, _) => 0
    case MvMeta(_, _) => 0
    case DvRead(_) => 4
    case DvUnlink(_, _) => 3
    case DvLink(_) => 2
    case DvMeta(_) => 1
    case DvDir(_) => 0
  }

  /** The disk after all calls of an operation, and whether it reported success. */
  function Complete<V(==)>(d: Disk<V>, op: Op<V>, gen: ShortId): (Disk<V>, bool)
    decreases Rank(op)
  {
    var r := OpStep(d, op, gen);
    match r.outcome
    case Go(next) => Complete(r.disk, next, gen)
    case Ok => (r.disk, true)
    case Err => (r.disk, false)
  }

  /** CreateVolume, call by call. */
  lemma CreateCases<V(!new)>(d: Disk<V>, id: V, gen: ShortId)
    ensures Complete(d, CvMkdir(id), gen)
            == (if id in d.vols then (d, false)
                else if gen in d.syms then (d.(vols := d.vols + {id}), false)
                else (Disk(d.vols + {id}, d.links[id := gen], d.syms[gen := id], d.metas), true))
  {
    if id !in d.vols {
      var d1 := OpStep(d, CvMkdir(id), gen).disk;
      if gen !in d.syms {
        var d2 := OpStep(d1, CvSymlink(id), gen).disk;
        assert Complete(d1, CvSymlink(id), gen) == Complete(d2, CvLink(id, gen), gen);
      }
    }
  }

  /** DestroyVolume, call by call. */
  lemma DestroyCases<V(!new)>(d: Disk<V>, id: V, gen: ShortId)
    ensures Complete(d, DvRead(id), gen)
            == (Disk(d.vols - {id}, d.links - {id}, if id in d.links then d.syms - {d.links[id]} else d.syms,
                     d.metas - {id}), true)
  {
    var d0 := d;
    if id in d.links {
      var short := d.links[id];
      var d1 := OpStep(d, DvUnlink(id, short), gen).disk;
      var d2 := OpStep(d1, DvLink(id), gen).disk;
      assert Complete(d, DvUnlink(id, short), gen) == Complete(d1, DvLink(id), gen) == Complete(d2, DvMeta(id), gen);
      d0 := d2;
    } else {
      assert d.links - {id} == d.links;
    }
    var d3 := OpStep(d0, DvMeta(id), gen).disk;
    assert Complete(d0, DvMeta(id), gen) == Complete(d3, DvDir(id), gen);
  }

  /** MoveVolume, call by call. */
  lemma MoveCases<V(!new)>(d: Disk<V>, from: V, to: V, gen: ShortId)
    ensures from !in d.vols || from !in d.links ==> Complete(d, MvStat(from, to), gen) == (d, false)
    ensures from in d.vols && from in d.links && d.links[from] !in d.syms ==>
              Complete(d, MvStat(from, to), gen)
              == (d.(links := (d.links - {from})[to := d.links[from]]), false)
    ensures from in d.vols && from in d.links && d.links[from] in d.syms ==>
              Complete(d, MvStat(from, to), gen)
              == (d.(links := (d.links - {from})[to := d.links[from]], syms := d.syms[d.links[from] := to],
                     vols := if to in d.vols then d.vols else d.vols - {from} + {to}), true)
  {
    if from in d.vols && from in d.links {
      var short := d.links[from];
      assert Complete(d, MvRead(from, to), gen) == Complete(d, MvLink(from, to, short), gen);
      if short in d.syms {
        MoveUnrolled(d, from, to, gen);
      } else {
        var d1 := OpStep(d, MvLink(from, to, short), gen).disk;
        assert Complete(d1, MvUnlink(from, to, short), gen) == (d1, false);
      }
    }
  }

  /** MoveVolume up to its last call: the link file is renamed and the symlink replaced. */
  lemma MoveUnrolled<V(!new)>(d: Disk<V>, from: V, to: V, gen: ShortId)
    requires from in d.vols && from in d.links && d.links[from] in d.syms
    ensures var short := d.links[from];
            Complete(d, MvStat(from, to), gen)
            == Complete(d.(links := (d.links - {from})[to := short], syms := d.syms[short := to]),
                        MvDir(from, to, short), gen)
  {
    var short := d.links[from];
    var d1 := OpStep(d, MvLink(from, to, short), gen).disk;
    var d2 := OpStep(d1, MvUnlink(from, to, short), gen).disk;
    var d3 := OpStep(d2, MvSymlink(from, to, short), gen).disk;
    assert d3.syms == d.syms[short := to];
    assert Complete(d2, MvSymlink(from, to, short), gen) == Complete(d3, MvDir(from, to, short), gen);
    assert Complete(d1, MvUnlink(from, to, short), gen) == Complete(d2, MvSymlink(from, to, short), gen);
    assert Complete(d, MvLink(from, to, short), gen) == Complete(d1, MvUnlink(from, to, short), gen);
    assert Complete(d, MvRead(from, to), gen) == Complete(d, MvLink(from, to, short), gen);
  }

  /** Ids, short ids and symlink targets are in bijection with the volume directories. */
  ghost predicate Coherent<V(!new)>(d: Disk<V>) {
    && d.links.Keys == d.vols
    && (forall v :: v in d.links ==> d.links[v] in d.syms && d.syms[d.links[v]] == v)
    && (forall short :: short in d.syms ==> d.syms[short] in d.links && d.links[d.syms[short]] == short)
  }

  /** Volume v's directory, link file, symlink and metadata are the same in d' as in d. */
  predicate SameVolume<V(==)>(d: Disk<V>, d': Disk<V>, v: V) {
    && (v in d'.vols <==> v in d.vols)
    && (v in d'.links <==> v in d.links) && (v in d.links ==> d'.links[v] == d.links[v])
    && (v in d.links && d.links[v] in d.syms ==> d.links[v] in d'.syms && d'.syms[d.links[v]] == d.syms[d.links[v]])
    && (v in d'.metas <==> v in d.metas) && (v in d.metas ==> d'.metas[v] == d.metas[v])
  }

  /** CreateVolume adds one volume, and fails without a trace when the id is taken. */
  lemma CreateCompletes<V(!new)>(d: Disk<V>, id: V, gen: ShortId)
    requires Coherent(d) && gen !in d.syms
    ensures var (d', ok) := Complete(d, CvMkdir(id), gen);
            && (ok <==> id !in d.vols)
            && d' == (if ok then Disk(d.vols + {id}, d.links[id := gen], d.syms[gen := id], d.metas) else d)
            && Coherent(d')
            && forall v :: v != id ==> SameVolume(d, d', v)
  {
    CreateCases(d, id, gen);
  }

  /** MoveVolume to a free name carries the link along; it fails without a trace when there is no source. */
  lemma MoveCompletes<V(!new)>(d: Disk<V>, from: V, to: V, gen: ShortId)
    requires Coherent(d) && (from in d.vols ==> to !in d.vols)
    ensures var (d', ok) := Complete(d, MvStat(from, to), gen);
            && (ok <==> from in d.vols)
            && d' == (if ok then Disk(d.vols - {from} + {to}, (d.links - {from})[to := d.links[from]],
                                      d.syms[d.links[from] := to], d.metas) else d)
            && Coherent(d')
            && forall v :: v != from && v != to ==> SameVolume(d, d', v)
  {
    MoveCases(d, from, to, gen);
  }

  /** DestroyVolume always succeeds and removes every trace of the id, and of nothing else. */
  lemma DestroyCompletes<V(!new)>(d: Disk<V>, id: V, gen: ShortId)
    requires Coherent(d)
    ensures var (d', ok) := Complete(d, DvRead(id), gen);
            && ok
            && d' == Disk(d.vols - {id}, d.links - {id},
                          if id in d.links then d.syms - {d.links[id]} else d.syms, d.metas - {id})
            && Coherent(d')
            && forall v :: v != id ==> SameVolume(d, d', v)
  {
    DestroyCases(d, id, gen);
  }

  /** MoveVolume onto a volume that exists reports success, yet its source keeps its directory and loses its
      link file. */
  lemma MoveOntoExisting<V(!new)>(d: Disk<V>, from: V, to: V, gen: ShortId)
    requires Coherent(d) && from in d.vols && to in d.vols && from != to
    ensures var (d', ok) := Complete(d, MvStat(from, to), gen);
            ok && from in d'.vols && from !in d'.links && !Coherent(d')
  {
    MoveCases(d, from, to, gen);
  }

  /** A MoveVolume keeps the index coherent exactly when it does not move one volume onto another. */
  lemma MoveCoherentIff<V(!new)>(d: Disk<V>, from: V, to: V, gen: ShortId)
    requires Coherent(d)
    ensures Coherent(Complete(d, MvStat(from, to), gen).0) <==> from !in d.vols || to !in d.vols || from == to
  {
    if from !in d.vols || to !in d.vols {
      MoveCompletes(d, from, to, gen);
    } else if from != to {
      MoveOntoExisting(d, from, to, gen);
    } else {
      MoveOntoSelf(d, from, gen);
    }
  }

  lemma MoveOntoSelf<V(!new)>(d: Disk<V>, id: V, gen: ShortId)
    requires Coherent(d) && id in d.vols
    ensures Complete(d, MvStat(id, id), gen) == (d, true)
  {
    MoveCases(d, id, id, gen);
    assert (d.links - {id})[id := d.links[id]] == d.links;
    assert d.syms[d.links[id] := id] == d.syms;
  }

  // ------------------------------------------------------------------ sequences of operations

  /** A completed operation of the driver. */
  datatype Command<V> =
    | Create(id: V, gen: ShortId)
    | Rename(from: V, to: V)
    | MarkAs(id: V, gcId: V)
    | Remove(id: V)

  function Mark<V(==)>(d: Disk<V>, id: V, gcId: V): (Disk<V>, bool) {
    var (d', ok) := Complete(d, MvStat(id, gcId), "");
    if ok then Complete(d', MvMeta(id, gcId), "") else (d', false)
  }

  function Do<V(==)>(d: Disk<V>, c: Command<V>): Disk<V> {
    match c
    case Create(id, gen) => Complete(d, CvMkdir(id), gen).0
    case Rename(from, to) => Complete(d, MvStat(from, to), "").0
    case MarkAs(id, gcId) => Mark(d, id, gcId).0
    case Remove(id) => Complete(d, DvRead(id), "").0
  }

  /** The short id generator does not repeat itself, and no volume is moved onto another. */
  predicate Safe<V(==)>(d: Disk<V>, c: Command<V>) {
    match c
    case Create(_, gen) => gen !in d.syms
    case Rename(from, to) => from in d.vols ==> to !in d.vols
    case MarkAs(id, gcId) => id in d.vols ==> gcId !in d.vols
    case Remove(_) => true
  }

  function Touched<V(==)>(c: Command<V>): set<V> {
    match c
    case Create(id, _) => {id}
    case Rename(from, to) => {from, to}
    case MarkAs(id, gcId) => {id, gcId}
    case Remove(id) => {id}
  }

  lemma CommandKeepsIndex<V(!new)>(d: Disk<V>, c: Command<V>)
    requires Coherent(d) && Safe(d, c)
    ensures Coherent(Do(d, c)) && forall v :: v !in Touched(c) ==> SameVolume(d, Do(d, c), v)
  {
    match c
    case Create(id, gen) => CreateCompletes(d, id, gen);
    case Rename(from, to) => MoveCompletes(d, from, to, "");
    case MarkAs(id, gcId) => MoveCompletes(d, id, gcId, "");
    case Remove(id) => DestroyCompletes(d, id, "");
  }

  function DoAll<V(==)>(d: Disk<V>, cs: seq<Command<V>>): Disk<V>
    decreases |cs|
  {
    if cs == [] then d else DoAll(Do(d, cs[0]), cs[1..])
  }

  predicate AllSafe<V(==)>(d: Disk<V>, cs: seq<Command<V>>)
    decreases |cs|
  {
    cs == [] || (Safe(d, cs[0]) && AllSafe(Do(d, cs[0]), cs[1..]))
  }

  /** Over any sequence of completed operations the link index stays a bijection onto the volume
      directories, and a volume that no operation names keeps all its entries. */
  lemma {:induction false} SequenceKeepsIndex<V(!new)>(d: Disk<V>, cs: seq<Command<V>>, v: V)
    requires Coherent(d) && AllSafe(d, cs)
    ensures Coherent(DoAll(d, cs))
    ensures (forall i :: 0 <= i < |cs| ==> v !in Touched(cs[i])) ==> SameVolume(d, DoAll(d, cs), v)
    decreases |cs|
  {
    if cs != [] {
      var d1 := Do(d, cs[0]);
      CommandKeepsIndex(d, cs[0]);
      SequenceKeepsIndex(d1, cs[1..], v);
      if forall i :: 0 <= i < |cs| ==> v !in Touched(cs[i]) {
        assert forall i :: 0 <= i < |cs[1..]| ==> cs[1..][i] == cs[i + 1];
        assert SameVolume(d, d1, v);
      }
    }
  }
}
