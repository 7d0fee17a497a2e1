/**
 The volume index that the overlay driver keeps under a store directory, and the file-system calls
 that create, move, mark and destroy a volume, one call at a time.

 `volumes/<id>` is a directory, `l/<id>` is a link file holding a short id, `l/<short>` is a symlink to
 the volume, and `meta/volume-<id>` records its size. The type parameter is the type of volume ids: the
 driver class uses file names, the concurrent protocol uses structured names.
 */
module Disk {

  type ShortId = string

  datatype Disk<V(==)> = Disk(
    vols: set<V>,
    links: map<V, ShortId>,
    syms: map<ShortId, V>,
    metas: map<V, int>)

  /** The next file-system call of a driver operation, with what the operation has read so far. */
  datatype Op<V> =
    | CvMkdir(id: V)                               // CreateVolume
    | CvSymlink(id: V)
    | CvLink(id: V, short: ShortId)
    | MvStat(from: V, to: V)                       // MoveVolume
    | MvRead(from: V, to: V)
    | MvLink(from: V, to: V, short: ShortId)
    | MvUnlink(from: V, to: V, short: ShortId)
    | MvSymlink(from: V, to: V, short: ShortId)
    | MvDir(from: V, to: V, short: ShortId)
    | MvMeta(from: V, to: V)                       // moveVolumeMeta
    | DvRead(id: V)                                // DestroyVolume
    | DvUnlink(id: V, short: ShortId)
    | DvLink(id: V)
    | DvMeta(id: V)
    | DvDir(id: V)

  datatype Outcome<V> = Go(next: Op<V>) | Ok | Err

  datatype Called<V(==)> = Called(disk: Disk<V>, outcome: Outcome<V>)

  /** One file-system call. `gen` is the short id that a CreateVolume generates. */
  function OpStep<V(==)>(d: Disk<V>, op: Op<V>, gen: ShortId): Called<V> {
    match op
    case CvMkdir(id) =>
      if id in d.vols then Called(d, Err) else Called(d.(vols := d.vols + {id}), Go(CvSymlink(id)))
    case CvSymlink(id) =>
      if gen in d.syms then Called(d, Err)
      else Called(d.(syms := d.syms[gen := id]), Go(CvLink(id, gen)))
    case CvLink(id, short) =>
      Called(d.(links := d.links[id := short]), Ok)
    case MvStat(from, to) =>
      if from in d.vols then Called(d, Go(MvRead(from, to))) else Called(d, Err)
    case MvRead(from, to) =>
      if from in d.links then Called(d, Go(MvLink(from, to, d.links[from]))) else Called(d, Err)
    case MvLink(from, to, short) =>
      if from in d.links then
        Called(d.(links := (d.links - {from})[to := d.links[from]]), Go(MvUnlink(from, to, short)))
      else Called(d, Err)
    case MvUnlink(from, to, short) =>
      if short in d.syms then Called(d.(syms := d.syms - {short}), Go(MvSymlink(from, to, short)))
      else Called(d, Err)
    case MvSymlink(from, to, short) =>
      if short in d.syms then Called(d, Err)
      else Called(d.(syms := d.syms[short := to]), Go(MvDir(from, to, short)))
    case MvDir(from, to, short) =>
      if from !in d.vols then Called(d, Err)
      else if to in d.vols then Called(d, Ok)     // "already exists" is reported as success
      else Called(d.(vols := d.vols - {from} + {to}), Ok)
    case MvMeta(from, to) =>
      if from in d.metas then Called(d.(metas := (d.metas - {from})[to := d.metas[from]]), Ok)
      else Called(d, Err)
    case DvRead(id) =>
      if id in d.links then Called(d, Go(DvUnlink(id, d.links[id]))) else Called(d, Go(DvMeta(id)))
    case DvUnlink(id, short) =>
      Called(d.(syms := d.syms - {short}), Go(DvLink(id)))
    case DvLink(id) =>
      Called(d.(links := d.links - {id}), Go(DvMeta(id)))
    case DvMeta(id) =>
      Called(d.(metas := d.metas - {id}), Go(DvDir(id)))
    case DvDir(id) =>
      Called(d.(vols := d.vols - {id}), Ok)
  }

  predicate IsCreate<V>(op: Op<V>) {
    op.CvMkdir? || op.CvSymlink? || op.CvLink?
  }

  predicate IsMove<V>(op: Op<V>) {
    op.MvStat? || op.MvRead? || op.MvLink? || op.MvUnlink? || op.MvSymlink? || op.MvDir?
  }

  predicate IsDestroy<V>(op: Op<V>) {
    op.DvRead? || op.DvUnlink? || op.DvLink? || op.DvMeta? || op.DvDir?
  }

  /** An operation keeps working on the same ids until it is done. */
  lemma IdsOfNext<V>(d: Disk<V>, op: Op<V>, gen: ShortId)
    requires OpStep(d, op, gen).outcome.Go?
    ensures var next := OpStep(d, op, gen).outcome.next;
            && (IsCreate(op) ==> IsCreate(next) && next.id == op.id)
            && (IsMove(op) ==> IsMove(next) && next.from == op.from && next.to == op.to)
            && (IsDestroy(op) ==> IsDestroy(next) && next.id == op.id)
            && !op.MvMeta?
  {
  }

  /** A volume whose directory, link file and symlink agree. */
  predicate AtRest<V(==)>(d: Disk<V>, v: V) {
    v in d.vols && v in d.links && d.links[v] in d.syms && d.syms[d.links[v]] == v
  }

  predicate Absent<V(==)>(d: Disk<V>, v: V) {
    v !in d.vols && v !in d.links
  }

  /** No two link files hold the same short id. */
  ghost predicate LinksInjective<V(!new)>(d: Disk<V>) {
    forall v, w :: v in d.links && w in d.links && d.links[v] == d.links[w] ==> v == w
  }

  ghost predicate Unreferenced<V(!new)>(d: Disk<V>, short: ShortId) {
    forall w :: w in d.links ==> d.links[w] != short
  }

  /** The volume ids that an operation in flight owns. */
  function Ids<V(==)>(op: Op<V>): set<V> {
    match op
    case CvMkdir(id) => {id}
    case CvSymlink(id) => {id}
    case CvLink(id, _) => {id}
    case MvStat(from, to) => {from, to}
    case MvRead(from, to) => {from, to}
    case MvLink(from, to, _) => {from, to}
    case MvUnlink(from, to, _) => {from, to}
    case MvSymlink(from, to, _) => {from, to}
    case MvDir(from, to, _) => {from, to}
    case MvMeta(from, to) => {from, to}
    case DvRead(id) => {id}
    case DvUnlink(id, _) => {id}
    case DvLink(id) => {id}
    case DvMeta(id) => {id}
    case DvDir(id) => {id}
  }

  /** The link file has moved to `to`; whether there is a directory at `to` is not known. */
  predicate LinkMoved<V(==)>(d: Disk<V>, from: V, to: V, short: ShortId) {
    from != to && from in d.vols && from !in d.links && to in d.links && d.links[to] == short
  }

  /** Half way through a move: the link file has moved to `to`, the directory is still at `from`. */
  predicate HalfMoved<V(==)>(d: Disk<V>, from: V, to: V, short: ShortId) {
    LinkMoved(d, from, to, short) && to !in d.vols
  }

  /** What an operation in flight knows about its own entries just before its next call. */
  ghost predicate OpOk<V(!new)>(d: Disk<V>, op: Op<V>) {
    match op
    case CvMkdir(id) => Absent(d, id)
    case CvSymlink(id) => id in d.vols && id !in d.links
    case CvLink(id, short) =>
      && id in d.vols && id !in d.links
      && short in d.syms && d.syms[short] == id && Unreferenced(d, short)
    case MvStat(from, to) => from != to && AtRest(d, from) && Absent(d, to)
    case MvRead(from, to) => from != to && AtRest(d, from) && Absent(d, to)
    case MvLink(from, to, short) => from != to && AtRest(d, from) && Absent(d, to) && d.links[from] == short
    case MvUnlink(from, to, short) => HalfMoved(d, from, to, short) && short in d.syms && d.syms[short] == from
    case MvSymlink(from, to, short) => HalfMoved(d, from, to, short) && short !in d.syms
    case MvDir(from, to, short) => HalfMoved(d, from, to, short) && short in d.syms && d.syms[short] == to
    case MvMeta(from, to) => from != to && AtRest(d, to) && Absent(d, from)
    case DvRead(id) => AtRest(d, id) || Absent(d, id)
    case DvUnlink(id, short) => AtRest(d, id) && d.links[id] == short
    case DvLink(id) => id in d.vols && id in d.links && d.links[id] !in d.syms
    case DvMeta(id) => id !in d.links
    case DvDir(id) => id !in d.links
  }

  /** The short ids in use are among `used`. */
  ghost predicate ShortsWithin<V(!new)>(d: Disk<V>, used: set<ShortId>) {
    && (forall v :: v in d.links ==> d.links[v] in used)
    && (forall short :: short in d.syms ==> short in used)
  }

  function Used<V>(op: Op<V>, used: set<ShortId>, gen: ShortId): set<ShortId> {
    if op.CvSymlink? then used + {gen} else used
  }

  /** An operation whose own entries are as it expects never fails, except that a metadata rename needs the
      metadata; its next call again finds its entries as expected, and it never gains or loses an id. */
  lemma OpPreserved<V(!new)>(d: Disk<V>, op: Op<V>, gen: ShortId, used: set<ShortId>)
    requires OpOk(d, op) && LinksInjective(d) && ShortsWithin(d, used)
    requires op.CvSymlink? ==> gen !in used
    ensures var r := OpStep(d, op, gen);
            && (r.outcome.Err? ==> op.MvMeta? && op.from !in d.metas && r.disk == d)
            && (r.outcome.Go? ==> OpOk(r.disk, r.outcome.next) && Ids(r.outcome.next) == Ids(op))
            && LinksInjective(r.disk)
            && ShortsWithin(r.disk, Used(op, used, gen))
  {
  }

  /** What has become of an operation's own entries when it has finished. */
  lemma OpFinished<V(!new)>(d: Disk<V>, op: Op<V>, gen: ShortId)
    requires OpOk(d, op) && OpStep(d, op, gen).outcome.Ok?
    ensures var d' := OpStep(d, op, gen).disk;
            forall v :: v in Ids(op) ==> AtRest(d', v) || Absent(d', v)
  {
  }

  /** A call of one operation leaves every other id's entries alone: the directory and link file are
      untouched, and a volume at rest stays at rest. */
  lemma OpFrame<V(!new)>(d: Disk<V>, op: Op<V>, gen: ShortId, used: set<ShortId>, v: V)
    requires OpOk(d, op) && LinksInjective(d) && ShortsWithin(d, used)
    requires op.CvSymlink? ==> gen !in used
    requires v !in Ids(op)
    ensures var d' := OpStep(d, op, gen).disk;
            && (v in d'.vols <==> v in d.vols)
            && (v in d'.links <==> v in d.links)
            && (v in d.links ==> d'.links[v] == d.links[v])
            && (v in d'.metas <==> v in d.metas)
            && (v in d.metas ==> d'.metas[v] == d.metas[v])
            && (AtRest(d, v) ==> AtRest(d', v))
  {
  }

  /** Two operations on disjoint ids do not disturb each other, at any pair of calls. */
  lemma OpNoninterference<V(!new)>(d: Disk<V>, op: Op<V>, other: Op<V>, gen: ShortId, used: set<ShortId>)
    requires OpOk(d, op) && OpOk(d, other) && LinksInjective(d) && ShortsWithin(d, used)
    requires op.CvSymlink? ==> gen !in used
    requires Ids(op) !! Ids(other)
    ensures OpOk(OpStep(d, op, gen).disk, other)
  {
  }

  // ------------------------------------------------------------------ when processes may crash

  /** What an operation in flight knows just before its next call even in a store where processes have crashed and
      left entries half done. Of a name that it moves or destroys something to, it knows nothing. */
  ghost predicate OpSafe<V(!new)>(d: Disk<V>, op: Op<V>) {
    match op
    case CvMkdir(id) => Absent(d, id)
    case CvSymlink(id) => id in d.vols && id !in d.links
    case CvLink(id, short) =>
      && id in d.vols && id !in d.links
      && short in d.syms && d.syms[short] == id && Unreferenced(d, short)
    case MvStat(from, to) => from != to && Intact(d, from)
    case MvRead(from, to) => from != to && from in d.vols && Intact(d, from)
    case MvLink(from, to, short) => from != to && AtRest(d, from) && d.links[from] == short
    case MvUnlink(from, to, short) => LinkMoved(d, from, to, short) && short in d.syms && d.syms[short] == from
    case MvSymlink(from, to, short) => LinkMoved(d, from, to, short) && short !in d.syms
    case MvDir(from, to, short) => LinkMoved(d, from, to, short) && short in d.syms && d.syms[short] == to
    case MvMeta(from, to) => from != to && from !in d.links
    case DvRead(_) => true
    case DvUnlink(id, short) => id in d.links && d.links[id] == short
    case DvLink(_) => true
    case DvMeta(id) => id !in d.links
    case DvDir(id) => id !in d.links
  }

  /** A volume that has a directory and a link file has the symlink back to it. */
  predicate Intact<V(==)>(d: Disk<V>, v: V) {
    v in d.vols && v in d.links ==> AtRest(d, v)
  }

  /** The next call again knows what it needs, and link files never come to share a short id. Only a move whose source
      has no directory or no link file, and a metadata rename, can fail, and then nothing has changed. */
  lemma SafePreserved<V(!new)>(d: Disk<V>, op: Op<V>, gen: ShortId, used: set<ShortId>)
    requires OpSafe(d, op) && LinksInjective(d) && ShortsWithin(d, used)
    requires op.CvSymlink? ==> gen !in used
    ensures var r := OpStep(d, op, gen);
            && (r.outcome.Go? ==> OpSafe(r.disk, r.outcome.next) && Ids(r.outcome.next) == Ids(op))
            && (r.outcome.Err? ==> r.disk == d && (op.MvStat? || op.MvRead? || op.MvMeta?))
            && LinksInjective(r.disk) && ShortsWithin(r.disk, Used(op, used, gen))
  {
  }

  /** A call leaves every other id's entries alone, whatever has been left half done. */
  lemma SafeFrame<V(!new)>(d: Disk<V>, op: Op<V>, gen: ShortId, used: set<ShortId>, v: V)
    requires OpSafe(d, op) && LinksInjective(d) && ShortsWithin(d, used)
    requires op.CvSymlink? ==> gen !in used
    requires v !in Ids(op)
    ensures var d' := OpStep(d, op, gen).disk;
            && (v in d'.vols <==> v in d.vols)
            && (v in d'.links <==> v in d.links)
            && (v in d.links ==> d'.links[v] == d.links[v])
            && (v in d'.metas <==> v in d.metas)
            && (AtRest(d, v) ==> AtRest(d', v))
  {
  }

  /** Two operations on different ids do not disturb each other even then. */
  lemma SafeNoninterference<V(!new)>(d: Disk<V>, op: Op<V>, other: Op<V>, gen: ShortId, used: set<ShortId>)
    requires OpSafe(d, op) && OpSafe(d, other) && LinksInjective(d) && ShortsWithin(d, used)
    requires op.CvSymlink? ==> gen !in used
    requires Ids(op) !! Ids(other)
    ensures OpSafe(OpStep(d, op, gen).disk, other)
  {
  }
}
