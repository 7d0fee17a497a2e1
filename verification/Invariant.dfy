/**
 The inductive invariants of the store protocol: what every reachable state has (`Robust`), what it has besides as
 long as no clean has left gc volumes behind (`Orderly`), and what it has as long as no process has crashed (`Tidy`).
 */
module Invariant {
  import opened Wrappers
  import opened Disk
  import opened Protocol

  // ------------------------------------------------------------------ locks

  /** The depth at which a create works is within its layer list. */
  predicate LevelsOk(c: Proc)
    requires c.Creator?
  {
    var n := |c.top|;
    match c.cpc
    case Check(i) => i <= n
    case WantChain(i) => 1 <= i <= n
    case Recheck(i) => 1 <= i <= n
    case Fetch(i) => 1 <= i <= n
    case Making(i, _, _) => 1 <= i <= n
    case Unpack(i, _) => 1 <= i <= n
    case Undo(i, _) => 1 <= i <= n
    case Opaque(i, _, _) => 1 <= i <= n
    case Meta(i, _, _) => 1 <= i <= n
    case Moving(i, _, _) => 1 <= i <= n
    case Leave(i) => 1 <= i <= n
    case Fail(i) => 1 <= i <= n + 1
    case Lower(i, _) => i <= n
    case _ => true
  }

  /** A create holds the chain locks of depths Lowest..n. */
  function Lowest(c: Proc): nat
    requires c.Creator?
  {
    match c.cpc
    case Check(i) => i + 1
    case WantChain(i) => i + 1
    case Recheck(i) => i
    case Fetch(i) => i
    case Making(i, _, _) => i
    case Unpack(i, _) => i
    case Undo(i, _) => i
    case Opaque(i, _, _) => i
    case Meta(i, _, _) => i
    case Moving(i, _, _) => i
    case Leave(i) => i
    case Fail(i) => i
    case _ => |c.top| + 1
  }

  predicate Holds(procs: map<Pid, Proc>, p: Pid, c: Chain) {
    && p in procs && procs[p].Creator?
    && c != [] && Lowest(procs[p]) <= |c| <= |procs[p].top|
    && c == procs[p].top[..|c|]
  }

  predicate Sharing(proc: Proc) {
    proc.Creator? && !proc.cpc.WantShared?
  }

  predicate Excluding(proc: Proc) {
    proc.Cleaner? && (proc.kpc.ScanVols? || proc.kpc.ScanImages? || proc.kpc.ScanDeps? || proc.kpc.Mark?
                      || proc.kpc.Marking? || proc.kpc.DropExcl?)
  }

  predicate Cleaning(proc: Proc) {
    proc.Cleaner? && !proc.kpc.WantGc?
  }

  ghost predicate SharedInv(procs: map<Pid, Proc>, shared: set<Pid>) {
    && (forall p :: p in shared ==> p in procs && Sharing(procs[p]))
    && (forall p :: p in procs && Sharing(procs[p]) ==> p in shared)
  }

  ghost predicate ExclInv(procs: map<Pid, Proc>, shared: set<Pid>, excl: Option<Pid>) {
    && (excl.Some? ==> shared == {} && excl.value in procs && Excluding(procs[excl.value]))
    && (forall p :: p in procs && Excluding(procs[p]) ==> excl == Some(p))
  }

  ghost predicate GcInv(procs: map<Pid, Proc>, gcLock: Option<Pid>) {
    && (gcLock.Some? ==> gcLock.value in procs && Cleaning(procs[gcLock.value]))
    && (forall p :: p in procs && Cleaning(procs[p]) ==> gcLock == Some(p))
  }

  ghost predicate ChainInv(procs: map<Pid, Proc>, chainLocks: map<Chain, Pid>) {
    && (forall c :: c in chainLocks ==> Holds(procs, chainLocks[c], c))
    && (forall p, c :: Holds(procs, p, c) ==> c in chainLocks && chainLocks[c] == p)
  }

  ghost predicate LevelsInv(procs: map<Pid, Proc>) {
    forall p :: p in procs && procs[p].Creator? ==> LevelsOk(procs[p])
  }

  /** The flock table agrees with where every process is, and each lock is held as its kind allows. */
  ghost predicate LocksInv(s: Sys) {
    && SharedInv(s.procs, s.shared)
    && ExclInv(s.procs, s.shared, s.excl)
    && GcInv(s.procs, s.gcLock)
    && ChainInv(s.procs, s.chainLocks)
    && LevelsInv(s.procs)
  }

  // ------------------------------------------------------------------ volume index

  /** The driver operation a process is in the middle of. From the end of CreateVolume until MoveVolume
      starts, a create already claims what MoveVolume will need. */
  function Claim(proc: Proc): Option<Op<VolId>> {
    match proc
    case Creator(_, top, pc) => (
      match pc
      case Making(i, _, op) => Some(op)
      case Unpack(i, tag) => MoveClaim(top, i, tag)
      case Opaque(i, tag, _) => MoveClaim(top, i, tag)
      case Meta(i, tag, _) => MoveClaim(top, i, tag)
      case Undo(i, op) => Some(op)
      case Moving(i, _, op) => Some(op)
      case _ => None)
    case Cleaner(pc) => (
      match pc
      case Marking(_, _, op) => Some(op)
      case Collecting(_, _, op) => Some(op)
      case _ => None)
    case Deleter(_, _) => None
  }

  function MoveClaim(top: Chain, i: nat, tag: nat): Option<Op<VolId>> {
    if i <= |top| then Some(MvStat(Incomplete(top[..i], tag), Final(top[..i]))) else None
  }

  predicate Claims(proc: Proc, v: VolId) {
    Claim(proc).Some? && v in Ids(Claim(proc).value)
  }

  /** An operation in flight works on the volume. */
  ghost predicate Claimed(procs: map<Pid, Proc>, v: VolId) {
    exists p :: p in procs && Claims(procs[p], v)
  }

  predicate Tagged(tags: map<nat, Pid>, tag: nat, p: Pid) {
    tag in tags && tags[tag] == p
  }

  ghost predicate NoneGc(vs: set<VolId>) {
    forall v :: v in vs ==> !v.Gc?
  }

  ghost predicate AllGc(vs: set<VolId>) {
    forall v :: v in vs ==> v.Gc?
  }

  /** Every operation in flight works on the names that go with its process, and a clean marks unmarked volumes and
      collects marked ones. */
  ghost predicate Shape(p: Pid, proc: Proc, tags: map<nat, Pid>) {
    match proc
    case Creator(_, top, pc) => (
      match pc
      case Making(i, tag, op) =>
        i <= |top| && Tagged(tags, tag, p) && IsCreate(op) && op.id == Incomplete(top[..i], tag)
      case Unpack(_, tag) => Tagged(tags, tag, p)
      case Opaque(_, tag, _) => Tagged(tags, tag, p)
      case Meta(_, tag, _) => Tagged(tags, tag, p)
      case Undo(i, op) => i <= |top| && IsDestroy(op) && op.id == Final(top[..i])
      case Moving(i, tag, op) =>
        && i <= |top| && Tagged(tags, tag, p) && IsMove(op)
        && op.from == Incomplete(top[..i], tag) && op.to == Final(top[..i])
      case _ => true)
    case Cleaner(pc) => (
      match pc
      case ScanImages(orphans) => NoneGc(orphans)
      case ScanDeps(orphans, _) => NoneGc(orphans)
      case Mark(todo) => NoneGc(todo)
      case Marking(v, todo, op) =>
        NoneGc(todo) && !v.Gc? && (IsMove(op) || op.MvMeta?) && op.from == v && op.to == Gc(v)
      case Collect(todo) => AllGc(todo)
      case Collecting(v, todo, op) => AllGc(todo) && v.Gc? && IsDestroy(op) && op.id == v
      case _ => true)
    case Deleter(_, _) => true
  }

  ghost predicate ShapeInv(procs: map<Pid, Proc>, tags: map<nat, Pid>) {
    forall p :: p in procs ==> Shape(p, procs[p], tags)
  }

  /** Operations in flight know what they need, though others may have crashed. */
  ghost predicate SafeInv(procs: map<Pid, Proc>, d: Disk<VolId>) {
    forall p :: p in procs && Claim(procs[p]).Some? ==> OpSafe(d, Claim(procs[p]).value)
  }

  /** Operations in flight find their own entries exactly as they expect. */
  ghost predicate ClaimsInv(procs: map<Pid, Proc>, d: Disk<VolId>) {
    forall p :: p in procs && Claim(procs[p]).Some? ==> OpOk(d, Claim(procs[p]).value)
  }

  /** An unmarked volume that has a directory and a link file, and that no operation in flight claims, has the
      symlink back to it. */
  ghost predicate IntactInv(procs: map<Pid, Proc>, d: Disk<VolId>) {
    forall v :: v in d.vols && v in d.links && !v.Gc? ==>
      AtRest(d, v) || Claimed(procs, v)
  }

  /** A volume that no operation in flight claims has its directory, link file and symlink in agreement. */
  ghost predicate RestInv(procs: map<Pid, Proc>, d: Disk<VolId>) {
    forall v :: v in d.vols || v in d.links ==>
      AtRest(d, v) || Claimed(procs, v)
  }

  /** An operation has put a symlink in place, or not yet replaced it, and its link file disagrees. */
  predicate Pending(proc: Proc, short: ShortId) {
    && Claim(proc).Some?
    && (Claim(proc).value.CvLink? || Claim(proc).value.MvUnlink?)
    && Claim(proc).value.short == short
  }

  ghost predicate SymsInv(procs: map<Pid, Proc>, d: Disk<VolId>) {
    forall short :: short in d.syms ==>
      || (d.syms[short] in d.links && d.links[d.syms[short]] == short)
      || exists p :: p in procs && Pending(procs[p], short)
  }

  ghost predicate ShortsInv(d: Disk<VolId>, shorts: set<ShortId>) {
    LinksInjective(d) && ShortsWithin(d, shorts)
  }

  /** Published volumes have metadata. */
  ghost predicate MetaInv(d: Disk<VolId>) {
    forall c :: Final(c) in d.vols ==> Final(c) in d.metas
  }

  /** A published volume has its link file, unless the clean is renaming it. */
  ghost predicate LinkedInv(procs: map<Pid, Proc>, d: Disk<VolId>) {
    forall c :: Final(c) in d.vols ==> Final(c) in d.links || Claimed(procs, Final(c))
  }

  /** Temporary names on disk have been generated. */
  ghost predicate TagInv(d: Disk<VolId>, tags: map<nat, Pid>) {
    forall c, tag :: Incomplete(c, tag) in d.vols || Incomplete(c, tag) in d.links ==> tag in tags
  }

  // ------------------------------------------------------------------ creates

  /** The layers up to this depth have been pulled. */
  function PulledTo(c: Proc): nat
    requires c.Creator?
  {
    match c.cpc
    case Fetch(i) => if i > 0 then i - 1 else 0
    case Making(i, _, _) => if i > 0 then i - 1 else 0
    case Unpack(i, _) => if i > 0 then i - 1 else 0
    case Opaque(i, _, _) => if i > 0 then i - 1 else 0
    case Meta(i, _, _) => if i > 0 then i - 1 else 0
    case Moving(i, _, _) => if i > 0 then i - 1 else 0
    case Leave(i) => i
    case MakeImage => |c.top|
    case Lower(_, _) => |c.top|
    case Finish(_) => |c.top|
    case Register => |c.top|
    case _ => 0
  }

  /** From this depth on, the layers are locked by this create and known not to be published. */
  function AbsentFrom(c: Proc): nat
    requires c.Creator?
  {
    match c.cpc
    case Check(i) => i + 1
    case WantChain(i) => i + 1
    case Recheck(i) => i + 1
    case Fetch(i) => i
    case Making(i, _, _) => i
    case Unpack(i, _) => i
    case Undo(i, _) => i
    case Opaque(i, _, _) => i
    case Meta(i, _, _) => i
    case Moving(i, _, _) => i + 1
    case Leave(i) => i + 1
    case _ => |c.top| + 1
  }

  /** From this depth on, the layers are locked by this create and have no directory. */
  function UnlistedFrom(c: Proc): nat
    requires c.Creator?
  {
    if c.cpc.Moving? then c.cpc.i else AbsentFrom(c)
  }

  ghost predicate Unlisted(d: Disk<VolId>, top: Chain, from: nat) {
    forall k :: 1 <= k && from <= k <= |top| ==> Final(top[..k]) !in d.vols
  }

  ghost predicate LockedInv(procs: map<Pid, Proc>, d: Disk<VolId>) {
    forall p :: p in procs && procs[p].Creator? ==> Unlisted(d, procs[p].top, UnlistedFrom(procs[p]))
  }

  ghost predicate Pulled(d: Disk<VolId>, top: Chain, depth: nat) {
    forall k :: 1 <= k <= depth && k <= |top| ==> Final(top[..k]) in d.vols
  }

  ghost predicate Unpublished(d: Disk<VolId>, top: Chain, from: nat) {
    forall k :: 1 <= k && from <= k <= |top| ==> Absent(d, Final(top[..k]))
  }

  /** What a create knows of the layers it has pulled, and of the metadata of the one it is publishing. */
  ghost predicate PulledOk(d: Disk<VolId>, c: Proc)
    requires c.Creator?
  {
    && Pulled(d, c.top, PulledTo(c))
    && (c.cpc.Moving? && c.cpc.i <= |c.top| ==> Final(c.top[..c.cpc.i]) in d.metas)
  }

  ghost predicate PulledInv(procs: map<Pid, Proc>, d: Disk<VolId>) {
    forall p :: p in procs && procs[p].Creator? ==> PulledOk(d, procs[p])
  }

  /** The layers that a create has locked and found unpublished have no link file either. */
  ghost predicate UnlinkedInv(procs: map<Pid, Proc>, d: Disk<VolId>) {
    forall p :: p in procs && procs[p].Creator? ==> Unpublished(d, procs[p].top, AbsentFrom(procs[p]))
  }

  // ------------------------------------------------------------------ images

  predicate InMaking(procs: map<Pid, Proc>, img: ImageId, im: Image) {
    && im.maker in procs && procs[im.maker].Creator? && procs[im.maker].img == img
    && Makes(procs[im.maker].cpc)
  }

  predicate BeforeImage(pc: CreatorPc) {
    !Makes(pc) && !pc.ReleaseShared? && !pc.Done?
  }

  /** The layer's volume is there, with metadata, and this short id in its link file. */
  predicate Present(d: Disk<VolId>, v: VolId, short: ShortId) {
    v in d.vols && v in d.metas && v in d.links && d.links[v] == short
  }

  /** `lowers` are the short ids of the layers above depth i, topmost first, and these layers are there. */
  ghost predicate LowersOk(d: Disk<VolId>, top: Chain, i: nat, lowers: seq<ShortId>) {
    && i <= |top| && |lowers| == |top| - i
    && forall k :: i < k <= |top| ==> Present(d, Final(top[..k]), lowers[|top| - k])
  }

  predicate Finished(im: Image) {
    im.ready && !im.exposed
  }

  ghost predicate ReadyInv(images: map<ImageId, Image>, d: Disk<VolId>) {
    forall img :: img in images && Finished(images[img]) ==> LowersOk(d, images[img].top, 0, images[img].lowers)
  }

  /** A dependency file under the image's id lists its layers; an old one, under that of an image that has been left
      behind, at least these. */
  predicate DepsOk(deps: map<ImageId, Chain>, img: ImageId, im: Image) {
    img in deps ==> if im.abandoned then im.top <= deps[img] else deps[img] == im.top
  }

  /** An image that no create is still making is ready or has been left behind, and its dependency file is right, unless
      it was exposed when it was left behind. */
  predicate Settled(procs: map<Pid, Proc>, deps: map<ImageId, Chain>, img: ImageId, im: Image) {
    && (im.exposed ==> im.abandoned)
    && (InMaking(procs, img, im) || im.exposed || ((im.ready || im.abandoned) && DepsOk(deps, img, im)))
  }

  ghost predicate SettledInv(procs: map<Pid, Proc>, images: map<ImageId, Image>, deps: map<ImageId, Chain>) {
    forall img :: img in images ==> Settled(procs, deps, img, images[img])
  }

  ghost predicate MakerOk(p: Pid, c: Proc, images: map<ImageId, Image>, d: Disk<VolId>)
    requires c.Creator?
  {
    && (BeforeImage(c.cpc) ==> c.img !in images)
    && (Makes(c.cpc) && c.img in images ==>
          images[c.img].top == c.top && images[c.img].maker == p && !images[c.img].abandoned && !images[c.img].exposed)
    && (c.cpc.Register? && c.img in images ==> images[c.img].ready)
    && (c.cpc.Lower? ==> LowersOk(d, c.top, c.cpc.i, c.cpc.lowers))
    && (c.cpc.Finish? ==> LowersOk(d, c.top, 0, c.cpc.lowers))
  }

  ghost predicate MakersInv(procs: map<Pid, Proc>, images: map<ImageId, Image>, d: Disk<VolId>) {
    forall p :: p in procs && procs[p].Creator? ==> MakerOk(p, procs[p], images, d)
  }

  ghost predicate UniqueInv(procs: map<Pid, Proc>) {
    forall p, q :: p in procs && q in procs && procs[p].Creator? && procs[q].Creator? && procs[p].img == procs[q].img
      ==> p == q
  }

  // ------------------------------------------------------------------ cleans

  ghost predicate NoGc(d: Disk<VolId>) {
    forall w :: Absent(d, Gc(w))
  }

  /** The published layers outside `orphans` have their parents there too, also outside `orphans`. */
  ghost predicate ClosedExcept(vols: set<VolId>, orphans: set<VolId>) {
    forall c :: Final(c) in vols && Final(c) !in orphans && |c| > 1 ==>
      Final(Parent(c)) in vols && Final(Parent(c)) !in orphans
  }

  /** Ancestor closure: the parent of a published layer is published. */
  ghost predicate Closed(vols: set<VolId>) {
    ClosedExcept(vols, {})
  }

  ghost predicate OrphansOk(d: Disk<VolId>, orphans: set<VolId>) {
    && orphans <= d.vols
    && (forall v :: v in orphans ==> !v.Gc? && Absent(d, Gc(v)))
  }

  /** No existing image whose dependencies have been looked at needs an orphan, except one that its create has left
      behind with an old dependency file. */
  ghost predicate Spared(images: map<ImageId, Image>, pending: set<ImageId>, orphans: set<VolId>) {
    forall img :: img in images && !images[img].exposed ==> img in pending || Needs(images[img].top) !! orphans
  }

  /** What a clean that holds the exclusive lock has yet to mark is not needed. */
  ghost predicate SparedBy(images: map<ImageId, Image>, pc: CleanerPc) {
    match pc
    case ScanDeps(orphans, pending) => Spared(images, pending, orphans)
    case Mark(todo) => Spared(images, {}, todo)
    case Marking(v, todo, _) => Spared(images, {}, todo + {v})
    case _ => true
  }

  ghost predicate SparedInv(procs: map<Pid, Proc>, images: map<ImageId, Image>, excl: Option<Pid>) {
    excl.Some? && excl.value in procs && procs[excl.value].Cleaner? ==> SparedBy(images, procs[excl.value].kpc)
  }

  ghost predicate OnlyGc(d: Disk<VolId>, todo: set<VolId>) {
    && (forall w :: Gc(w) in d.vols || Gc(w) in d.links ==> Gc(w) in todo)
    && (forall v :: v in todo ==> v.Gc?)
  }

  /** No link file under a gc name but that of v is without its directory. */
  ghost predicate GcPaired(d: Disk<VolId>, v: Option<VolId>) {
    forall w :: Gc(w) in d.links && v != Some(w) ==> Gc(w) in d.vols
  }

  /** How far the clean has come with renaming v. */
  ghost predicate MarkOk(d: Disk<VolId>, v: VolId, op: Op<VolId>) {
    if op.MvMeta? then v !in d.vols && Gc(v) in d.vols
    else
      && v in d.vols && Gc(v) !in d.vols
      && (op.MvStat? || op.MvRead? || op.MvLink? ==> Gc(v) !in d.links && (v.Final? ==> v in d.links))
  }

  ghost predicate CleanOk(d: Disk<VolId>, pc: CleanerPc) {
    match pc
    case WantGc => true
    case WantExcl => NoGc(d)
    case ScanVols => NoGc(d) && Closed(d.vols)
    case ScanImages(orphans) => NoGc(d) && Closed(d.vols) && OrphansOk(d, orphans) && ClosedExcept(d.vols, orphans)
    case ScanDeps(orphans, _) => NoGc(d) && Closed(d.vols) && OrphansOk(d, orphans) && ClosedExcept(d.vols, orphans)
    case Mark(todo) =>
      && GcPaired(d, None) && OrphansOk(d, todo) && ClosedExcept(d.vols, todo)
      && (NoGc(d) ==> Closed(d.vols))                    // nothing has been marked
    case Marking(v, todo, op) =>
      && v !in todo && OrphansOk(d, todo) && ClosedExcept(d.vols, todo + {v})
      && GcPaired(d, Some(v)) && MarkOk(d, v, op)
      && (NoGc(d) ==> Closed(d.vols))
    case DropExcl => GcPaired(d, None) && Closed(d.vols)
    case ListGc => GcPaired(d, None)
    case Collect(todo) => OnlyGc(d, todo)
    case Collecting(v, todo, _) => OnlyGc(d, todo + {v})
    case DropGc => NoGc(d)
  }

  ghost predicate CleanInv(procs: map<Pid, Proc>, d: Disk<VolId>, gcLock: Option<Pid>) {
    if gcLock.None? then NoGc(d)
    else gcLock.value in procs && procs[gcLock.value].Cleaner? ==> CleanOk(d, procs[gcLock.value].kpc)
  }

  ghost predicate ClosureInv(d: Disk<VolId>, excl: Option<Pid>) {
    excl.None? ==> Closed(d.vols)
  }

  // ------------------------------------------------------------------ all together

  /** Locks and the volumes being worked on. */
  ghost predicate Base(s: Sys) {
    && LocksInv(s) && ShapeInv(s.procs, s.tags) && SafeInv(s.procs, s.disk)
    && ShortsInv(s.disk, s.shorts) && LockedInv(s.procs, s.disk)
  }

  ghost predicate ImagesInv(s: Sys) {
    && ReadyInv(s.images, s.disk)
    && SettledInv(s.procs, s.images, s.deps)
    && MakersInv(s.procs, s.images, s.disk)
    && UniqueInv(s.procs)
    && SparedInv(s.procs, s.images, s.excl)
  }

  /** What every reachable state has. */
  ghost predicate Robust(s: Sys) {
    Base(s) && TagInv(s.disk, s.tags) && IntactInv(s.procs, s.disk) && ImagesInv(s)
  }

  /** What it has besides as long as no clean has been cut off while a gc volume existed. */
  ghost predicate Orderly(s: Sys) {
    && PulledInv(s.procs, s.disk)
    && MetaInv(s.disk)
    && LinkedInv(s.procs, s.disk)
    && CleanInv(s.procs, s.disk, s.gcLock)
    && ClosureInv(s.disk, s.excl)
  }

  /** What it has besides as long as no process has crashed. */
  ghost predicate Tidy(s: Sys) {
    && ClaimsInv(s.procs, s.disk)
    && RestInv(s.procs, s.disk)
    && SymsInv(s.procs, s.disk)
    && UnlinkedInv(s.procs, s.disk)
  }
}
