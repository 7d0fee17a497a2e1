/**
 The store protocol: any number of creates, deletes and cleans running concurrently on one store, as a
 state machine whose steps are single file-system calls and flock calls.

 A create holds the global lock shared while it builds missing layers, makes the image and registers its
 dependencies. A clean holds the GC lock throughout and the global lock exclusively only while it looks
 for orphans and renames them to `gc.` names. A delete takes no lock.

 A chain id is written as the list of diff ids it stands for; module ChainIds shows that the hashed
 names determine these lists.
 */
module Protocol {
  import opened Wrappers
  import opened Disk

  type Pid = nat

  datatype DiffId = DiffId(hex: string)

  type Chain = seq<DiffId>

  datatype ImageId = ImageId(name: string)

  datatype VolId =
    | Final(chain: Chain)                     // <chainID>
    | Incomplete(chain: Chain, tag: nat)      // <chainID>-incomplete-<nanos>-<rand>
    | Gc(of: VolId)                           // gc.<id>

  /** An image directory. `lowers` are the short ids in its lowerdir mount option, topmost layer first; `ready` is
      set once the driver has finished creating the image, `abandoned` if its create then failed or crashed and
      left it behind, and `exposed` if besides an old dependency file under its id did not list all its layers. */
  datatype Image = Image(top: Chain, maker: Pid, ready: bool, abandoned: bool, exposed: bool, lowers: seq<ShortId>)

  datatype CreatorPc =
    | WantShared
    | Check(i: nat)                           // buildLayer: first look, no lock
    | WantChain(i: nat)
    | Recheck(i: nat)                         // second look, chain lock held
    | Fetch(i: nat)
    | Making(i: nat, tag: nat, op: Op<VolId>) // CreateVolume of the temporary volume
    | Unpack(i: nat, tag: nat)
    | Undo(i: nat, op: Op<VolId>)             // DestroyVolume(chainID) after a failed unpack
    | Opaque(i: nat, tag: nat, size: nat)
    | Meta(i: nat, tag: nat, size: nat)
    | Moving(i: nat, tag: nat, op: Op<VolId>) // MoveVolume to the final name
    | Leave(i: nat)                           // chain lock released, success
    | Fail(i: nat)                            // chain lock released, error
    | MakeImage
    | Lower(i: nat, lowers: seq<ShortId>)     // getLowerDirs
    | Finish(lowers: seq<ShortId>)
    | Rollback
    | Register
    | ReleaseShared                           // deferred unlock after an error
    | Done                                    // deferred unlock after success

  datatype CleanerPc =
    | WantGc
    | WantExcl
    | ScanVols
    | ScanImages(orphans: set<VolId>)
    | ScanDeps(orphans: set<VolId>, images: set<ImageId>)
    | Mark(todo: set<VolId>)
    | Marking(vol: VolId, todo: set<VolId>, op: Op<VolId>)
    | DropExcl
    | ListGc
    | Collect(todo: set<VolId>)
    | Collecting(vol: VolId, todo: set<VolId>, op: Op<VolId>)
    | DropGc

  datatype DeleterPc = Exists | Destroy | Deregister

  datatype Proc =
    | Creator(img: ImageId, top: Chain, cpc: CreatorPc)
    | Cleaner(kpc: CleanerPc)
    | Deleter(img: ImageId, dpc: DeleterPc)

  datatype Sys = Sys(
    disk: Disk<VolId>,
    images: map<ImageId, Image>,
    deps: map<ImageId, Chain>,
    shared: set<Pid>,                         // flock table
    excl: Option<Pid>,
    gcLock: Option<Pid>,
    chainLocks: map<Chain, Pid>,
    shorts: set<ShortId>,                     // short ids generated so far
    tags: map<nat, Pid>,                      // temporary names generated so far, and by whom
    procs: map<Pid, Proc>)

  /** The base volumes of an image: one per non-empty prefix of its layer list. */
  function Needs(top: Chain): set<VolId> {
    set k | 1 <= k <= |top| :: Final(top[..k])
  }

  function Parent(c: Chain): Chain
    requires c != []
  {
    c[..|c| - 1]
  }

  /** What a step does to the shared state, besides moving its own process on. */
  datatype Effect =
    | Nothing
    | LockShared | UnlockShared
    | LockExcl | UnlockExcl
    | LockGc | UnlockGc
    | LockChain(chain: Chain) | UnlockChain(chain: Chain)
    | Call(op: Op<VolId>, gen: ShortId)       // one call of a driver operation
    | NewTag(tag: nat)
    | WriteMeta(vol: VolId, size: int)
    | MakeDir(img: ImageId, top: Chain)
    | SetReady(img: ImageId, lowers: seq<ShortId>)
    | RemoveImage(img: ImageId) | Abandon(img: ImageId)
    | WriteDeps(img: ImageId, top: Chain) | RemoveDeps(img: ImageId)

  /** Whether flock, or a generated name being new, lets the effect happen now. */
  predicate Enabled(s: Sys, eff: Effect) {
    match eff
    case LockShared => s.excl.None?
    case LockExcl => s.excl.None? && s.shared == {}
    case LockGc => s.gcLock.None?
    case LockChain(c) => c !in s.chainLocks
    case Call(op, gen) => op.CvSymlink? ==> gen !in s.shorts
    case NewTag(tag) => tag !in s.tags
    case MakeDir(img, _) => img !in s.images
    case SetReady(img, _) => img in s.images
    case _ => true
  }

  /** Process p moves on to `next`, or exits. */
  function Moved(procs: map<Pid, Proc>, p: Pid, next: Option<Proc>): map<Pid, Proc> {
    if next.None? then procs - {p} else procs[p := next.value]
  }

  /** The images when img is left behind. */
  function Abandoned(images: map<ImageId, Image>, deps: map<ImageId, Chain>, img: ImageId): map<ImageId, Image> {
    if img !in images then images
    else images[img := images[img].(abandoned := true, exposed := img in deps && !(images[img].top <= deps[img]))]
  }

  /** The state after process p's step; `next` is None when the process exits. */
  function Apply(s: Sys, p: Pid, next: Option<Proc>, eff: Effect): Sys
    requires eff.SetReady? ==> eff.img in s.images
  {
    var t := s.(procs := Moved(s.procs, p, next));
    match eff
    case Nothing => t
    case LockShared => t.(shared := s.shared + {p})
    case UnlockShared => t.(shared := s.shared - {p})
    case LockExcl => t.(excl := Some(p))
    case UnlockExcl => t.(excl := None)
    case LockGc => t.(gcLock := Some(p))
    case UnlockGc => t.(gcLock := None)
    case LockChain(c) => t.(chainLocks := s.chainLocks[c := p])
    case UnlockChain(c) => t.(chainLocks := s.chainLocks - {c})
    case Call(op, gen) => t.(disk := OpStep(s.disk, op, gen).disk, shorts := Used(op, s.shorts, gen))
    case NewTag(tag) => t.(tags := s.tags[tag := p])
    case WriteMeta(v, size) => t.(disk := s.disk.(metas := s.disk.metas[v := size]))
    case MakeDir(img, top) => t.(images := s.images[img := Image(top, p, false, false, false, [])])
    case SetReady(img, lowers) => t.(images := s.images[img := s.images[img].(ready := true, lowers := lowers)])
    case RemoveImage(img) => t.(images := s.images - {img})
    case Abandon(img) => t.(images := Abandoned(s.images, s.deps, img))
    case WriteDeps(img, top) => t.(deps := s.deps[img := top])
    case RemoveDeps(img) => t.(deps := s.deps - {img})
  }

  /** buildLayer for the layers up to depth i has returned without error. */
  function Returned(i: nat, depth: nat): CreatorPc {
    if i == depth then MakeImage else Fetch(i + 1)
  }

  function AfterMaking(i: nat, tag: nat, out: Outcome<VolId>): CreatorPc {
    match out
    case Go(next) => Making(i, tag, next)
    case Ok => Unpack(i, tag)
    case Err => Fail(i)
  }

  function AfterUndo(i: nat, out: Outcome<VolId>): CreatorPc {
    match out
    case Go(next) => Undo(i, next)
    case Ok => Fail(i)
    case Err => Fail(i)
  }

  function AfterMoving(i: nat, tag: nat, out: Outcome<VolId>): CreatorPc {
    match out
    case Go(next) => Moving(i, tag, next)
    case Ok => Leave(i)
    case Err => Fail(i)
  }

  /** MarkVolumeArtifacts is a MoveVolume followed by a rename of the metadata. */
  function AfterMarking(v: VolId, todo: set<VolId>, op: Op<VolId>, out: Outcome<VolId>): CleanerPc {
    match out
    case Go(next) => Marking(v, todo, next)
    case Ok => if op.MvDir? then Marking(v, todo, MvMeta(v, Gc(v))) else Mark(todo)
    case Err => Mark(todo)
  }

  function AfterCollecting(v: VolId, todo: set<VolId>, out: Outcome<VolId>): CleanerPc {
    match out
    case Go(next) => Collecting(v, todo, next)
    case Ok => Collect(todo)
    case Err => Collect(todo)
  }

  /** A create's next pc and effect. */
  ghost predicate CreatorMay(d: Disk<VolId>, c: Proc, pc': CreatorPc, eff: Effect)
    requires c.Creator?
  {
    var n := |c.top|;
    match c.cpc
    case WantShared =>
      && eff == LockShared
      && (pc' == Check(n) || pc' == ReleaseShared)       // or: the layers exceed the disk limit
    case Check(i) =>
      && eff == Nothing
      && pc' == (if i == 0 then Returned(0, n)
                 else if i <= n && Final(c.top[..i]) in d.vols then Returned(i, n)
                 else WantChain(i))
    case WantChain(i) =>
      && i <= n
      && ((eff == LockChain(c.top[..i]) && pc' == Recheck(i))
          || (eff == Nothing && pc' == Fail(i + 1)))     // the lock file cannot be opened
    case Recheck(i) =>
      && 1 <= i <= n && eff == Nothing
      && pc' == (if Final(c.top[..i]) in d.vols then Leave(i) else Check(i - 1))
    case Fetch(i) =>
      && i <= n
      && ((eff.NewTag? && pc' == Making(i, eff.tag, CvMkdir(Incomplete(c.top[..i], eff.tag))))
          || (eff == Nothing && pc' == Fail(i)))
    case Making(i, tag, op) =>
      && eff.Call? && eff.op == op
      && pc' == AfterMaking(i, tag, OpStep(d, op, eff.gen).outcome)
    case Unpack(i, tag) =>
      && i <= n && eff == Nothing
      && ((pc'.Opaque? && pc' == Opaque(i, tag, pc'.size)) || pc' == Undo(i, DvRead(Final(c.top[..i])))
          || pc' == Fail(i))                             // its owner or base directory could not be set up
    case Undo(i, op) =>
      && eff.Call? && eff.op == op
      && pc' == AfterUndo(i, OpStep(d, op, eff.gen).outcome)
    case Opaque(i, tag, size) =>
      && eff == Nothing
      && (pc' == Meta(i, tag, size) || pc' == Fail(i))
    case Meta(i, tag, size) =>
      && i <= n
      && ((eff == WriteMeta(Final(c.top[..i]), size)
           && pc' == Moving(i, tag, MvStat(Incomplete(c.top[..i], tag), Final(c.top[..i]))))
          || (eff == Nothing && pc' == Fail(i)))
    case Moving(i, tag, op) =>
      && eff.Call? && eff.op == op
      && pc' == AfterMoving(i, tag, OpStep(d, op, eff.gen).outcome)
    case Leave(i) =>
      && i <= n && eff == UnlockChain(c.top[..i])
      && pc' == Returned(i, n)
    case Fail(i) =>
      if i > n then eff == Nothing && pc' == ReleaseShared
      else eff == UnlockChain(c.top[..i]) && pc' == Fail(i + 1)
    case MakeImage =>
      || (eff == MakeDir(c.img, c.top) && pc' == Lower(n, []))
      || (eff == Nothing && pc' == Rollback)
    case Lower(i, lowers) =>
      && eff == Nothing
      && pc' == (if i == 0 then Finish(lowers)
                 else if i <= n && Final(c.top[..i]) in d.vols && Final(c.top[..i]) in d.metas
                         && Final(c.top[..i]) in d.links
                 then Lower(i - 1, lowers + [d.links[Final(c.top[..i])]])
                 else Rollback)
    case Finish(lowers) =>
      || (eff == SetReady(c.img, lowers) && pc' == Register)
      || (eff == Nothing && pc' == Rollback)
    case Rollback =>
      || (eff == RemoveImage(c.img) && pc' == ReleaseShared)
      || (eff == Abandon(c.img) && pc' == ReleaseShared) // the image cannot be unmounted
    case Register =>
      || (eff == WriteDeps(c.img, c.top) && pc' == Done)
      || (eff == Nothing && pc' == Rollback)
      || (eff == Abandon(c.img) && pc' == ReleaseShared) // changing its owner failed
    case ReleaseShared => false
    case Done => false
  }

  /** A clean's next pc and effect. A scan that fails yields no orphans. */
  ghost predicate CleanerMay(s: Sys, pc: CleanerPc, pc': CleanerPc, eff: Effect) {
    match pc
    case WantGc => eff == LockGc && pc' == WantExcl
    case WantExcl =>
      || (eff == LockExcl && pc' == ScanVols)
      || (eff == Nothing && pc' == DropGc)               // timed out, or threshold not reached
    case ScanVols =>
      && eff == Nothing
      && (pc' == ScanImages(set v | v in s.disk.vols && !v.Gc?) || pc' == Mark({}))
    case ScanImages(orphans) =>
      && eff == Nothing
      && (pc' == ScanDeps(orphans, s.images.Keys) || pc' == Mark({}))
    case ScanDeps(orphans, images) =>
      && eff == Nothing
      && if images == {} then pc' == Mark(orphans)
         else exists img :: img in images &&
                pc' == (if img in s.deps then ScanDeps(orphans - Needs(s.deps[img]), images - {img}) else Mark({}))
    case Mark(todo) =>
      && eff == Nothing
      && if todo == {} then pc' == DropExcl
         else exists v :: v in todo && pc' == Marking(v, todo - {v}, MvStat(v, Gc(v)))
    case Marking(v, todo, op) =>
      && eff.Call? && eff.op == op
      && pc' == AfterMarking(v, todo, op, OpStep(s.disk, op, eff.gen).outcome)
    case DropExcl => eff == UnlockExcl && pc' == ListGc
    case ListGc => eff == Nothing && pc' == Collect(set v | v in s.disk.vols && v.Gc?)
    case Collect(todo) =>
      && eff == Nothing
      && if todo == {} then pc' == DropGc
         else exists v :: v in todo && pc' == Collecting(v, todo - {v}, DvRead(v))
    case Collecting(v, todo, op) =>
      && eff.Call? && eff.op == op
      && pc' == AfterCollecting(v, todo, OpStep(s.disk, op, eff.gen).outcome)
    case DropGc => false
  }

  ghost predicate DeleterMay(s: Sys, img: ImageId, pc: DeleterPc, pc': DeleterPc, eff: Effect) {
    match pc
    case Exists => img in s.images && eff == Nothing && pc' == Destroy
    case Destroy => eff == RemoveImage(img) && pc' == Deregister
    case Deregister => false
  }

  /** The last step of a process. */
  predicate MayExit(s: Sys, proc: Proc, eff: Effect) {
    match proc
    case Creator(_, _, pc) => (pc.ReleaseShared? || pc.Done?) && eff == UnlockShared
    case Cleaner(pc) =>
      || (pc.DropGc? && eff == UnlockGc)
      || (pc.WantGc? && eff == Nothing)                  // timed out
    case Deleter(img, pc) =>
      match pc
      case Exists => img !in s.images && eff == Nothing
      case Destroy => eff == Nothing                     // unmounting failed
      case Deregister => eff == RemoveDeps(img)
  }

  ghost predicate May(s: Sys, proc: Proc, next: Option<Proc>, eff: Effect) {
    match next
    case None => MayExit(s, proc, eff)
    case Some(proc') =>
      match proc
      case Creator(img, top, pc) =>
        proc'.Creator? && proc'.img == img && proc'.top == top && CreatorMay(s.disk, proc, proc'.cpc, eff)
      case Cleaner(pc) => proc'.Cleaner? && CleanerMay(s, pc, proc'.kpc, eff)
      case Deleter(img, pc) => proc'.Deleter? && proc'.img == img && DeleterMay(s, img, pc, proc'.dpc, eff)
  }

  /** Process p moves on to `next` with effect `eff`. */
  ghost predicate Step(s: Sys, p: Pid, next: Option<Proc>, eff: Effect) {
    p in s.procs && Enabled(s, eff) && May(s, s.procs[p], next, eff)
  }

  /** A new process may start. A create has just seen that its image does not exist, and no other create of
      that image is in flight. */
  ghost predicate MaySpawn(s: Sys, p: Pid, proc: Proc) {
    && p !in s.procs
    && match proc
       case Creator(img, top, pc) =>
         && pc == WantShared
         && img !in s.images
         && (forall q :: q in s.procs && s.procs[q].Creator? ==> s.procs[q].img != img)
       case Cleaner(pc) => pc == WantGc
       case Deleter(_, pc) => pc == Exists
  }

  /** A process is making the image, and has not yet registered it. */
  predicate Makes(pc: CreatorPc) {
    pc.Lower? || pc.Finish? || pc.Rollback? || pc.Register?
  }

  /** A crash stands for every way in which a process ends in the middle: it is killed, a clean runs into its time
      limit, or a clean cannot list the volumes to collect. Its locks go, its half-done work stays. */
  datatype Event =
    | Spawn(pid: Pid, proc: Proc)
    | Move(pid: Pid, next: Option<Proc>, eff: Effect)
    | Crash(pid: Pid)

  ghost predicate Can(s: Sys, ev: Event) {
    match ev
    case Spawn(p, proc) => MaySpawn(s, p, proc)
    case Move(p, next, eff) => Step(s, p, next, eff)
    case Crash(p) => p in s.procs
  }

  /** The images after a crash of p: one that it was making is left behind. */
  function LeftBehind(images: map<ImageId, Image>, deps: map<ImageId, Chain>, p: Pid, proc: Proc): map<ImageId, Image> {
    if proc.Creator? && Makes(proc.cpc) && proc.img in images && images[proc.img].maker == p
    then Abandoned(images, deps, proc.img) else images
  }

  function Crashed(s: Sys, p: Pid): Sys
    requires p in s.procs
  {
    s.(images := LeftBehind(s.images, s.deps, p, s.procs[p]),
       shared := s.shared - {p},
       excl := if s.excl == Some(p) then None else s.excl,
       gcLock := if s.gcLock == Some(p) then None else s.gcLock,
       chainLocks := map c | c in s.chainLocks && s.chainLocks[c] != p :: s.chainLocks[c],
       procs := s.procs - {p})
  }

  ghost function After(s: Sys, ev: Event): Sys
    requires Can(s, ev)
  {
    match ev
    case Spawn(p, proc) => s.(procs := s.procs[p := proc])
    case Move(p, next, eff) => Apply(s, p, next, eff)
    case Crash(p) => Crashed(s, p)
  }

  /** No process has crashed in the first i events. */
  ghost predicate NoCrash(events: seq<Event>, i: nat)
    requires i <= |events|
  {
    forall k :: 0 <= k < i ==> !events[k].Crash?
  }

  function Empty(): Sys {
    Sys(Disk({}, map[], map[], map[]), map[], map[], {}, None, None, map[], {}, map[], map[])
  }

  /** A finite run of the protocol from an empty store: the events and the states between them. */
  ghost predicate Run(states: seq<Sys>, events: seq<Event>) {
    && |states| == |events| + 1
    && states[0] == Empty()
    && forall i :: 0 <= i < |events| ==> Can(states[i], events[i]) && states[i + 1] == After(states[i], events[i])
  }
}
