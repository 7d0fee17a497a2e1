/**
 What the theorems of modules Safety and Reclaiming lose when processes are cut off, as four runs. In the first two a
 create publishes two layers and a clean then stops in the middle of marking them. In the first, a layer stays published
 without its parent and without its link file, and gc volumes remain, with no lock held and no process left. In the
 second, the layer is published again, and the next clean marks it onto the gc volume that is still there. So
 AncestorClosure, AtomicPublication, NoGcOutsideClean and RenamesAreFresh need the hypothesis that no clean is cut off
 with work left. In the third, a delete and a create of the same image id crash, and a clean takes a layer from the image
 that is left: an exposed image, which GcSafety leaves out. In the fourth, a create leaves a temporary volume without a
 link file, which no clean can collect.
 */
module Interrupted {
  import opened Wrappers
  import opened Disk
  import opened Protocol
  import opened Invariant
  import opened Volumes
  import opened Stepping
  import opened Safety
  import opened Progress

  const BOTTOM: Chain := [DiffId("bottom")]
  const TOP: Chain := [DiffId("bottom"), DiffId("top")]
  const IMAGE := ImageId("image")
  const SIZE: nat := 10
  const NO_VOLUMES: Disk<VolId> := Disk({}, map[], map[], map[])

  function Layer(i: nat): VolId
    requires i <= 2
  {
    Final(TOP[..i])
  }

  function Temp(i: nat, tag: nat): VolId
    requires i <= 2
  {
    Incomplete(TOP[..i], tag)
  }

  lemma TwoDepths()
    ensures Layer(1) == Final(BOTTOM) && Layer(2) == Final(TOP) && Parent(TOP) == BOTTOM && TOP[..1] != TOP[..2]
  {
    assert TOP[..2] == TOP && TOP[..1] == BOTTOM && |BOTTOM| == 1;
  }

  // ------------------------------------------------------------------ settings

  /** The layers of the next image, the images and dependency files there are, and the names generated so far. */
  datatype Setting = Setting(
    top: Chain,
    images: map<ImageId, Image>,
    deps: map<ImageId, Chain>,
    shorts: set<ShortId>,
    tags: map<nat, Pid>)

  const START := Setting(TOP, map[], map[], {}, map[])

  function Named(g: Setting, gen: ShortId, tag: nat): Setting {
    g.(shorts := g.shorts + {gen}, tags := g.tags[tag := 0])
  }

  /** These processes are at work, and none creates an image. */
  function AtWork(procs: map<Pid, Proc>, d: Disk<VolId>, g: Setting, gcLock: Option<Pid>, excl: Option<Pid>): Sys {
    Sys(d, g.images, g.deps, {}, excl, gcLock, map[], g.shorts, g.tags, procs)
  }

  function Nobody(d: Disk<VolId>, g: Setting): Sys {
    AtWork(map[], d, g, None, None)
  }

  // ------------------------------------------------------------------ a create publishes layers

  /** Process 0 creates the image. */
  function Creating(pc: CreatorPc, d: Disk<VolId>, locks: map<Chain, Pid>, g: Setting): Sys {
    Sys(d, g.images, g.deps, {0}, None, None, locks, g.shorts, g.tags, map[0 := Creator(IMAGE, g.top, pc)])
  }

  /** An effect of a create that holds the shared lock. */
  predicate Builds(eff: Effect) {
    || eff.Nothing? || eff.LockChain? || eff.UnlockChain? || eff.Call? || eff.NewTag? || eff.WriteMeta?
    || eff.MakeDir? || eff.SetReady? || eff.WriteDeps?
  }

  lemma OnlyProcess(p: Pid, proc: Proc, next: Proc)
    ensures Moved(map[p := proc], p, Some(next)) == map[p := next]
  {
  }

  lemma StaysCreating(pc: CreatorPc, d: Disk<VolId>, locks: map<Chain, Pid>, g: Setting, pc': CreatorPc, eff: Effect)
    requires Builds(eff) && (eff.SetReady? ==> eff.img in g.images)
    ensures var s := Apply(Creating(pc, d, locks, g), 0, Some(Creator(IMAGE, g.top, pc')), eff);
            s == Creating(pc', s.disk, s.chainLocks, Setting(g.top, s.images, s.deps, s.shorts, s.tags))
  {
    OnlyProcess(0, Creator(IMAGE, g.top, pc), Creator(IMAGE, g.top, pc'));
  }

  lemma Proceed(pc: CreatorPc, d: Disk<VolId>, locks: map<Chain, Pid>, g: Setting, pc': CreatorPc, eff: Effect)
    requires Reached(Creating(pc, d, locks, g)) && Builds(eff)
    requires CreatorMay(d, Creator(IMAGE, g.top, pc), pc', eff) && Enabled(Creating(pc, d, locks, g), eff)
    ensures var s := Apply(Creating(pc, d, locks, g), 0, Some(Creator(IMAGE, g.top, pc')), eff);
            Reached(Creating(pc', s.disk, s.chainLocks, Setting(g.top, s.images, s.deps, s.shorts, s.tags)))
  {
    var s, next := Creating(pc, d, locks, g), Some(Creator(IMAGE, g.top, pc'));
    Reach(s, Move(0, next, eff));
    StaysCreating(pc, d, locks, g, pc', eff);
  }

  lemma Look(pc: CreatorPc, d: Disk<VolId>, locks: map<Chain, Pid>, g: Setting, pc': CreatorPc)
    requires Reached(Creating(pc, d, locks, g)) && CreatorMay(d, Creator(IMAGE, g.top, pc), pc', Nothing)
    ensures Reached(Creating(pc', d, locks, g))
  {
    Proceed(pc, d, locks, g, pc', Nothing);
  }

  /** The image's layers up to depth i are those of TOP. */
  predicate Reaches(g: Setting, i: nat) {
    1 <= i <= |g.top| && i <= 2 && g.top[..i] == TOP[..i]
  }

  lemma TakeChain(i: nat, d: Disk<VolId>, locks: map<Chain, Pid>, g: Setting)
    requires Reaches(g, i) && TOP[..i] !in locks && Reached(Creating(WantChain(i), d, locks, g))
    ensures Reached(Creating(Recheck(i), d, locks[TOP[..i] := 0], g))
  {
    Proceed(WantChain(i), d, locks, g, Recheck(i), LockChain(TOP[..i]));
  }

  lemma DropChain(i: nat, d: Disk<VolId>, locks: map<Chain, Pid>, g: Setting)
    requires Reaches(g, i) && Reached(Creating(Leave(i), d, locks, g))
    ensures Reached(Creating(Returned(i, |g.top|), d, locks - {TOP[..i]}, g))
  {
    Proceed(Leave(i), d, locks, g, Returned(i, |g.top|), UnlockChain(TOP[..i]));
  }

  lemma MakeCall(i: nat, tag: nat, op: Op<VolId>, d: Disk<VolId>, locks: map<Chain, Pid>, g: Setting, gen: ShortId)
    requires Reached(Creating(Making(i, tag, op), d, locks, g)) && (op.CvSymlink? ==> gen !in g.shorts)
    ensures var r := OpStep(d, op, gen);
            Reached(Creating(AfterMaking(i, tag, r.outcome), r.disk, locks, g.(shorts := Used(op, g.shorts, gen))))
  {
    Proceed(Making(i, tag, op), d, locks, g, AfterMaking(i, tag, OpStep(d, op, gen).outcome), Call(op, gen));
  }

  lemma MoveCall(i: nat, tag: nat, op: Op<VolId>, d: Disk<VolId>, locks: map<Chain, Pid>, g: Setting)
    requires Reached(Creating(Moving(i, tag, op), d, locks, g)) && !op.CvSymlink?
    ensures var r := OpStep(d, op, ""); Reached(Creating(AfterMoving(i, tag, r.outcome), r.disk, locks, g))
  {
    Proceed(Moving(i, tag, op), d, locks, g, AfterMoving(i, tag, OpStep(d, op, "").outcome), Call(op, ""));
  }

  /** Left alone, the create moves its temporary volume as the driver does. */
  lemma {:induction false} MoveAlone(i: nat, tag: nat, op: Op<VolId>, d: Disk<VolId>, locks: map<Chain, Pid>, g: Setting)
    requires Reached(Creating(Moving(i, tag, op), d, locks, g)) && IsMove(op)
    ensures var (d', ok) := Complete(d, op, ""); Reached(Creating(if ok then Leave(i) else Fail(i), d', locks, g))
    decreases Rank(op)
  {
    MoveCall(i, tag, op, d, locks, g);
    var r := OpStep(d, op, "");
    if r.outcome.Go? { MoveAlone(i, tag, r.outcome.next, r.disk, locks, g); }
  }

  lemma StartCreating(n: nat, d: Disk<VolId>, g: Setting)
    requires Reaches(g, n) && n == |g.top| && IMAGE !in g.images
    requires Reached(Nobody(d, g)) && Layer(n) !in d.vols
    ensures Reached(Creating(WantChain(n), d, map[], g))
  {
    var nobody, c := Nobody(d, g), Creator(IMAGE, g.top, WantShared);
    Reach(nobody, Spawn(0, c));
    var s := nobody.(procs := map[0 := c]);
    assert After(nobody, Spawn(0, c)) == s;
    Reach(s, Move(0, Some(c.(cpc := Check(n))), LockShared));
    assert Apply(s, 0, Some(c.(cpc := Check(n))), LockShared) == Creating(Check(n), d, map[], g);
    Look(Check(n), d, map[], g, WantChain(n));
  }

  function Locked(n: nat): map<Chain, Pid>
    requires n <= 2
  {
    map[TOP[..n] := 0]
  }

  /** The topmost layer is missing: the create takes its chain lock and looks at the layer below. */
  lemma LockTop(n: nat, d: Disk<VolId>, g: Setting)
    requires Reaches(g, n) && n == |g.top| && IMAGE !in g.images
    requires Reached(Nobody(d, g)) && Layer(n) !in d.vols
    ensures Reached(Creating(Check(n - 1), d, Locked(n), g))
  {
    StartCreating(n, d, g);
    TakeChain(n, d, map[], g);
    assert map[][TOP[..n] := 0] == Locked(n);
    Look(Recheck(n), d, Locked(n), g, Check(n - 1));
  }

  /** The disk once CreateVolume has made the temporary volume. */
  function Made(d: Disk<VolId>, i: nat, tag: nat, gen: ShortId): Disk<VolId>
    requires i <= 2
  {
    Disk(d.vols + {Temp(i, tag)}, d.links[Temp(i, tag) := gen], d.syms[gen := Temp(i, tag)], d.metas)
  }

  lemma MakeLayer(i: nat, d: Disk<VolId>, locks: map<Chain, Pid>, g: Setting, tag: nat, gen: ShortId)
    requires Reaches(g, i) && tag !in g.tags && gen !in g.shorts && gen !in d.syms && Absent(d, Temp(i, tag))
    requires Reached(Creating(Fetch(i), d, locks, g))
    ensures Reached(Creating(Unpack(i, tag), Made(d, i, tag, gen), locks, Named(g, gen, tag)))
  {
    var v, g' := Temp(i, tag), g.(tags := g.tags[tag := 0]);
    var d1 := d.(vols := d.vols + {v});
    var d2 := d1.(syms := d.syms[gen := v]);
    Proceed(Fetch(i), d, locks, g, Making(i, tag, CvMkdir(v)), NewTag(tag));
    MakeCall(i, tag, CvMkdir(v), d, locks, g', gen);
    MakeCall(i, tag, CvSymlink(v), d1, locks, g', gen);
    MakeCall(i, tag, CvLink(v, gen), d2, locks, g'.(shorts := g.shorts + {gen}), gen);
    assert d2.(links := d2.links[v := gen]) == Made(d, i, tag, gen);
  }

  lemma FillLayer(i: nat, d: Disk<VolId>, locks: map<Chain, Pid>, g: Setting, tag: nat)
    requires Reaches(g, i) && Reached(Creating(Unpack(i, tag), d, locks, g))
    ensures Reached(Creating(Moving(i, tag, MvStat(Temp(i, tag), Layer(i))), d.(metas := d.metas[Layer(i) := SIZE]), locks, g))
  {
    Look(Unpack(i, tag), d, locks, g, Opaque(i, tag, SIZE));
    Look(Opaque(i, tag, SIZE), d, locks, g, Meta(i, tag, SIZE));
    Proceed(Meta(i, tag, SIZE), d, locks, g, Moving(i, tag, MvStat(Temp(i, tag), Layer(i))), WriteMeta(Layer(i), SIZE));
  }

  /** The disk once the layer is published. */
  function Published(d: Disk<VolId>, i: nat, gen: ShortId): Disk<VolId>
    requires i <= 2
  {
    Disk(d.vols + {Layer(i)}, d.links[Layer(i) := gen], d.syms[gen := Layer(i)], d.metas[Layer(i) := SIZE])
  }

  /** Moving the temporary volume to the layer's name leaves the layer in its place. */
  lemma MovedLayer(i: nat, d: Disk<VolId>, tag: nat, gen: ShortId)
    requires i <= 2 && Absent(d, Layer(i)) && Absent(d, Temp(i, tag)) && gen !in d.syms
    ensures var d' := Made(d, i, tag, gen).(metas := d.metas[Layer(i) := SIZE]);
            Complete(d', MvStat(Temp(i, tag), Layer(i)), "") == (Published(d, i, gen), true)
  {
    var v, w := Temp(i, tag), Layer(i);
    var d' := Made(d, i, tag, gen).(metas := d.metas[w := SIZE]);
    MoveCases(d', v, w, "");
    assert (d'.links - {v})[w := gen] == d.links[w := gen];
    assert d'.syms[gen := w] == d.syms[gen := w];
    assert d'.vols - {v} + {w} == d.vols + {w};
  }

  lemma BuildLayer(i: nat, d: Disk<VolId>, locks: map<Chain, Pid>, g: Setting, tag: nat, gen: ShortId)
    requires Reaches(g, i) && Absent(d, Layer(i)) && Absent(d, Temp(i, tag)) && gen !in d.syms
    requires tag !in g.tags && gen !in g.shorts && Reached(Creating(Fetch(i), d, locks, g))
    ensures Reached(Creating(Leave(i), Published(d, i, gen), locks, Named(g, gen, tag)))
  {
    var g' := Named(g, gen, tag);
    var d' := Made(d, i, tag, gen).(metas := d.metas[Layer(i) := SIZE]);
    MakeLayer(i, d, locks, g, tag, gen);
    FillLayer(i, Made(d, i, tag, gen), locks, g', tag);
    MoveAlone(i, tag, MvStat(Temp(i, tag), Layer(i)), d', locks, g');
    MovedLayer(i, d, tag, gen);
  }

  /** The driver fails to make the image directory, and the create ends. */
  lemma GiveUpImage(d: Disk<VolId>, g: Setting)
    requires Reached(Creating(Rollback, d, map[], g)) && IMAGE !in g.images
    ensures Reached(Nobody(d, g))
  {
    var s, next := Creating(Rollback, d, map[], g), Some(Creator(IMAGE, g.top, ReleaseShared));
    var t := Creating(ReleaseShared, d, map[], g);
    Reach(s, Move(0, next, RemoveImage(IMAGE)));
    assert Apply(s, 0, next, RemoveImage(IMAGE)) == t;
    Reach(t, Move(0, None, UnlockShared));
    assert Apply(t, 0, None, UnlockShared) == Nobody(d, g);
  }

  lemma CreateEnds(d: Disk<VolId>, g: Setting)
    requires Reached(Creating(Leave(2), d, Locked(2), g)) && g.top == TOP && IMAGE !in g.images
    ensures Reached(Nobody(d, g))
  {
    DropChain(2, d, Locked(2), g);
    assert Locked(2) - {TOP[..2]} == map[];
    Look(MakeImage, d, map[], g, Rollback);
    GiveUpImage(d, g);
  }

  function OneLayer(): Disk<VolId> {
    Published(NO_VOLUMES, 1, "s1")
  }

  function TwoLayers(): Disk<VolId> {
    Published(OneLayer(), 2, "s2")
  }

  function OneName(): Setting {
    Named(START, "s1", 1)
  }

  function TwoNames(): Setting {
    Named(OneName(), "s2", 2)
  }

  function BothLocked(): map<Chain, Pid> {
    Locked(2)[TOP[..1] := 0]
  }

  /** In an empty store the create takes both chain locks on its way down. */
  lemma LockBoth()
    ensures Reached(Creating(Fetch(1), NO_VOLUMES, BothLocked(), START))
  {
    var g := START;
    TwoDepths();
    assert Ends([Empty()], [], Nobody(NO_VOLUMES, g));
    LockTop(2, NO_VOLUMES, g);
    Look(Check(1), NO_VOLUMES, Locked(2), g, WantChain(1));
    TakeChain(1, NO_VOLUMES, Locked(2), g);
    Look(Recheck(1), NO_VOLUMES, BothLocked(), g, Check(0));
    Look(Check(0), NO_VOLUMES, BothLocked(), g, Fetch(1));
  }

  lemma BuildBottom()
    ensures Reached(Creating(Fetch(2), OneLayer(), Locked(2), OneName()))
  {
    var g := START;
    TwoDepths();
    LockBoth();
    BuildLayer(1, NO_VOLUMES, BothLocked(), g, 1, "s1");
    DropChain(1, OneLayer(), BothLocked(), OneName());
    assert BothLocked() - {TOP[..1]} == Locked(2);
  }

  lemma BuildBoth()
    ensures Reached(Nobody(TwoLayers(), TwoNames()))
  {
    TwoDepths();
    BuildBottom();
    assert "s1"[1] != "s2"[1];
    BuildLayer(2, OneLayer(), Locked(2), OneName(), 2, "s2");
    CreateEnds(TwoLayers(), TwoNames());
  }

  // ------------------------------------------------------------------ a clean marks layers

  /** Process 1 is cleaning and holds both locks. */
  function CleaningUp(pc: CleanerPc, d: Disk<VolId>, g: Setting): Sys {
    AtWork(map[1 := Cleaner(pc)], d, g, Some(1), Some(1))
  }

  lemma CleanOn(pc: CleanerPc, d: Disk<VolId>, g: Setting, pc': CleanerPc, eff: Effect)
    requires Reached(CleaningUp(pc, d, g)) && CleanerMay(CleaningUp(pc, d, g), pc, pc', eff)
    requires (eff.Nothing? || eff.Call?) && (eff.Call? ==> !eff.op.CvSymlink?)
    ensures Reached(CleaningUp(pc', if eff.Call? then OpStep(d, eff.op, eff.gen).disk else d, g))
  {
    var s, next := CleaningUp(pc, d, g), Some(Cleaner(pc'));
    Reach(s, Move(1, next, eff));
    assert Apply(s, 1, next, eff) == CleaningUp(pc', if eff.Call? then OpStep(d, eff.op, eff.gen).disk else d, g);
  }

  lemma MarkCall(v: VolId, todo: set<VolId>, op: Op<VolId>, d: Disk<VolId>, g: Setting)
    requires Reached(CleaningUp(Marking(v, todo, op), d, g)) && !op.CvSymlink?
    ensures var r := OpStep(d, op, ""); Reached(CleaningUp(AfterMarking(v, todo, op, r.outcome), r.disk, g))
  {
    CleanOn(Marking(v, todo, op), d, g, AfterMarking(v, todo, op, OpStep(d, op, "").outcome), Call(op, ""));
  }

  /** The clean renames a volume up to its link file. */
  lemma MarkLink(v: VolId, todo: set<VolId>, d: Disk<VolId>, g: Setting, short: ShortId)
    requires Reached(CleaningUp(Marking(v, todo, MvStat(v, Gc(v))), d, g))
    requires v in d.vols && v in d.links && d.links[v] == short
    ensures Reached(CleaningUp(Marking(v, todo, MvUnlink(v, Gc(v), short)), d.(links := (d.links - {v})[Gc(v) := short]), g))
  {
    MarkCall(v, todo, MvStat(v, Gc(v)), d, g);
    MarkCall(v, todo, MvRead(v, Gc(v)), d, g);
    MarkCall(v, todo, MvLink(v, Gc(v), short), d, g);
  }

  lemma MarkSymlink(v: VolId, todo: set<VolId>, d: Disk<VolId>, g: Setting, short: ShortId)
    requires Reached(CleaningUp(Marking(v, todo, MvUnlink(v, Gc(v), short)), d, g)) && short in d.syms
    ensures Reached(CleaningUp(Marking(v, todo, MvDir(v, Gc(v), short)), d.(syms := (d.syms - {short})[short := Gc(v)]), g))
  {
    MarkCall(v, todo, MvUnlink(v, Gc(v), short), d, g);
    MarkCall(v, todo, MvSymlink(v, Gc(v), short), d.(syms := d.syms - {short}), g);
  }

  /** Left alone, the clean renames a volume as the driver does. */
  lemma {:induction false} MarkAlone(v: VolId, todo: set<VolId>, op: Op<VolId>, d: Disk<VolId>, g: Setting)
    requires Reached(CleaningUp(Marking(v, todo, op), d, g)) && IsMove(op)
    ensures var (d', ok) := Complete(d, op, "");
            Reached(CleaningUp(if ok then Marking(v, todo, MvMeta(v, Gc(v))) else Mark(todo), d', g))
    decreases Rank(op)
  {
    MarkCall(v, todo, op, d, g);
    var r := OpStep(d, op, "");
    if r.outcome.Go? { MarkAlone(v, todo, r.outcome.next, r.disk, g); }
  }

  lemma StartCleaning(d: Disk<VolId>, g: Setting)
    requires Reached(Nobody(d, g))
    ensures Reached(CleaningUp(ScanVols, d, g))
  {
    var s, c := Nobody(d, g), Cleaner(WantGc);
    Reach(s, Spawn(1, c));
    var t := AtWork(map[1 := c], d, g, None, None);
    assert After(s, Spawn(1, c)) == t;
    Reach(t, Move(1, Some(Cleaner(WantExcl)), LockGc));
    var u := AtWork(map[1 := Cleaner(WantExcl)], d, g, Some(1), None);
    assert Apply(t, 1, Some(Cleaner(WantExcl)), LockGc) == u;
    Reach(u, Move(1, Some(Cleaner(ScanVols)), LockExcl));
    assert Apply(u, 1, Some(Cleaner(ScanVols)), LockExcl) == CleaningUp(ScanVols, d, g);
  }

  /** No image exists, so both layers are orphans; the clean may take either first. */
  lemma FindOrphans(d: Disk<VolId>, g: Setting, v: VolId, todo: set<VolId>)
    requires Reached(Nobody(d, g)) && g.images == map[] && v !in todo && forall u :: u in d.vols && !u.Gc? <==> u == v || u in todo
    ensures Reached(CleaningUp(Marking(v, todo, MvStat(v, Gc(v))), d, g))
  {
    var all := todo + {v};
    StartCleaning(d, g);
    assert (set u | u in d.vols && !u.Gc?) == all;
    CleanOn(ScanVols, d, g, ScanImages(all), Nothing);
    assert CleaningUp(ScanImages(all), d, g).images.Keys == {};
    CleanOn(ScanImages(all), d, g, ScanDeps(all, {}), Nothing);
    CleanOn(ScanDeps(all, {}), d, g, Mark(all), Nothing);
    assert all - {v} == todo;
    CleanOn(Mark(all), d, g, Marking(v, todo, MvStat(v, Gc(v))), Nothing);
  }

  /** The disk with v, whose short id is `short`, renamed to its gc name. */
  function Marked(d: Disk<VolId>, v: VolId, short: ShortId): Disk<VolId>
    requires v in d.metas
  {
    Disk(d.vols - {v} + {Gc(v)}, (d.links - {v})[Gc(v) := short], d.syms[short := Gc(v)], (d.metas - {v})[Gc(v) := d.metas[v]])
  }

  lemma MarkLayer(v: VolId, todo: set<VolId>, d: Disk<VolId>, g: Setting, short: ShortId)
    requires AtRest(d, v) && d.links[v] == short && v in d.metas && Absent(d, Gc(v))
    requires Reached(CleaningUp(Marking(v, todo, MvStat(v, Gc(v))), d, g))
    ensures Reached(CleaningUp(Mark(todo), Marked(d, v, short), g))
  {
    MarkAlone(v, todo, MvStat(v, Gc(v)), d, g);
    MoveCases(d, v, Gc(v), "");
    var d' := Complete(d, MvStat(v, Gc(v)), "").0;
    MarkCall(v, todo, MvMeta(v, Gc(v)), d', g);
    assert OpStep(d', MvMeta(v, Gc(v)), "").disk == Marked(d, v, short);
  }

  // ------------------------------------------------------------------ the first run

  function BottomMarked(): Disk<VolId> {
    Marked(TwoLayers(), Layer(1), "s1")
  }

  lemma MarkBottom()
    ensures Reached(CleaningUp(Mark({Layer(2)}), BottomMarked(), TwoNames()))
  {
    TwoDepths();
    assert "s1"[1] != "s2"[1];
    BuildBoth();
    FindOrphans(TwoLayers(), TwoNames(), Layer(1), {Layer(2)});
    MarkLayer(Layer(1), {Layer(2)}, TwoLayers(), TwoNames(), "s1");
  }

  /** The disk when the link file of the top layer, too, has its gc name. */
  function HalfMarked(): Disk<VolId> {
    var d := BottomMarked();
    d.(links := (d.links - {Layer(2)})[Gc(Layer(2)) := "s2"])
  }

  lemma TopStands()
    ensures var d := BottomMarked(); Layer(2) in d.vols && Layer(2) in d.links && d.links[Layer(2)] == "s2"
  {
    TwoDepths();
  }

  lemma MarkHalf()
    ensures Reached(CleaningUp(Marking(Layer(2), {}, MvUnlink(Layer(2), Gc(Layer(2)), "s2")), HalfMarked(), TwoNames()))
  {
    var v, w, d, g := Layer(2), Gc(Layer(2)), BottomMarked(), TwoNames();
    MarkBottom();
    TopStands();
    assert {v} - {v} == {};
    CleanOn(Mark({v}), d, g, Marking(v, {}, MvStat(v, w)), Nothing);
    MarkLink(v, {}, d, g, "s2");
  }

  lemma HalfMarkedShows()
    ensures Final(TOP) in HalfMarked().vols && Final(BOTTOM) !in HalfMarked().vols && Final(TOP) !in HalfMarked().links
    ensures Gc(Final(BOTTOM)) in HalfMarked().vols
  {
    TwoDepths();
  }

  /** The first run: its last event cuts off a clean. It ends with no process and no lock, the top layer published
      without its parent and without its link file, and a gc volume. */
  lemma CutOffClean() returns (states: seq<Sys>, events: seq<Event>)
    ensures Run(states, events) && |events| > 0 && CutsClean(states[|events| - 1], events[|events| - 1])
    ensures var s := states[|events|];
            && s.procs == map[] && s.excl.None? && s.gcLock.None?
            && Final(TOP) in s.disk.vols && Final(Parent(TOP)) !in s.disk.vols && Final(TOP) !in s.disk.links
            && Gc(Final(BOTTOM)) in s.disk.vols
  {
    MarkHalf();
    HalfMarkedShows();
    TwoDepths();
    var s := CleaningUp(Marking(Layer(2), {}, MvUnlink(Layer(2), Gc(Layer(2)), "s2")), HalfMarked(), TwoNames());
    var before, calls :| Ends(before, calls, s);
    Continued(before, calls, Crash(1));
    states, events := before + [Crashed(s, 1)], calls + [Crash(1)];
    assert Crashed(s, 1).procs == map[];
  }

  // ------------------------------------------------------------------ the second run

  function TopMarked(): Disk<VolId> {
    Marked(TwoLayers(), Layer(2), "s2")
  }

  /** The clean is cut off between marking the top layer and marking the bottom one. */
  lemma StopAfterTop()
    ensures Reached(Nobody(TopMarked(), TwoNames()))
  {
    TwoDepths();
    BuildBoth();
    FindOrphans(TwoLayers(), TwoNames(), Layer(2), {Layer(1)});
    MarkLayer(Layer(2), {Layer(1)}, TwoLayers(), TwoNames(), "s2");
    var s := CleaningUp(Mark({Layer(1)}), TopMarked(), TwoNames());
    Reach(s, Crash(1));
    assert Crashed(s, 1) == Nobody(TopMarked(), TwoNames());
  }

  function Again(): Disk<VolId> {
    Published(TopMarked(), 2, "s3")
  }

  function ThreeNames(): Setting {
    Named(TwoNames(), "s3", 3)
  }

  lemma NewName()
    ensures "s3" !in TwoNames().shorts && "s3" !in TopMarked().syms && Absent(TopMarked(), Layer(2))
    ensures Absent(TopMarked(), Temp(2, 3)) && Layer(1) in TopMarked().vols
  {
    TwoDepths();
    assert "s3"[1] != "s1"[1] && "s3"[1] != "s2"[1];
  }

  /** A create publishes the top layer again. */
  lemma BuildAgain()
    ensures Reached(Nobody(Again(), ThreeNames()))
  {
    StopAfterTop();
    NewName();
    LockTop(2, TopMarked(), TwoNames());
    Look(Check(1), TopMarked(), Locked(2), TwoNames(), Fetch(2));
    BuildLayer(2, TopMarked(), Locked(2), TwoNames(), 3, "s3");
    CreateEnds(Again(), ThreeNames());
  }

  lemma OrphansAgain()
    ensures forall u :: u in Again().vols && !u.Gc? <==> u == Layer(2) || u in {Layer(1)}
    ensures Layer(2) != Layer(1) && AtRest(Again(), Layer(2)) && Again().links[Layer(2)] == "s3"
    ensures Gc(Layer(2)) in Again().vols
  {
    TwoDepths();
  }

  /** The disk when the link file and the symlink have moved. */
  function LinkMarked(): Disk<VolId> {
    var d := Again();
    d.(links := (d.links - {Layer(2)})[Gc(Layer(2)) := "s3"], syms := (d.syms - {"s3"})["s3" := Gc(Layer(2))])
  }

  lemma MarkAgain()
    ensures Reached(CleaningUp(Marking(Layer(2), {Layer(1)}, MvDir(Layer(2), Gc(Layer(2)), "s3")), LinkMarked(), ThreeNames()))
  {
    var v, w, todo, d, g := Layer(2), Gc(Layer(2)), {Layer(1)}, Again(), ThreeNames();
    BuildAgain();
    OrphansAgain();
    FindOrphans(d, g, v, todo);
    MarkLink(v, todo, d, g, "s3");
    MarkSymlink(v, todo, d.(links := (d.links - {v})[w := "s3"]), g, "s3");
  }

  /** The run that ends with the next call of the clean. */
  lemma OneMoreCall(v: VolId, todo: set<VolId>, op: Op<VolId>, d: Disk<VolId>, g: Setting)
    returns (states: seq<Sys>, events: seq<Event>)
    requires Reached(CleaningUp(Marking(v, todo, op), d, g)) && !op.CvSymlink?
    ensures Run(states, events) && |events| > 0
    ensures var ev := events[|events| - 1]; ev.Move? && ev.eff == Call(op, "")
    ensures states[|events| - 1].disk == d && states[|events|].disk == OpStep(d, op, "").disk
    ensures states[|events|].images == g.images
  {
    var s := CleaningUp(Marking(v, todo, op), d, g);
    var ev := Move(1, Some(Cleaner(AfterMarking(v, todo, op, OpStep(d, op, "").outcome))), Call(op, ""));
    var before, calls :| Ends(before, calls, s);
    Continued(before, calls, ev);
    states, events := before + [After(s, ev)], calls + [ev];
  }

  lemma LinkMarkedShows()
    ensures var d := LinkMarked();
            Layer(2) in d.vols && Gc(Layer(2)) in d.vols && Layer(2) !in d.links
            && OpStep(d, MvDir(Layer(2), Gc(Layer(2)), "s3"), "") == Called(d, Ok)
  {
    OrphansAgain();
  }

  /** The second run: its last event renames the layer onto the gc volume left by the clean that was cut off. The driver
      reports success; the layer stays where it was, without its link file. */
  lemma MarkedOntoLeftover() returns (states: seq<Sys>, events: seq<Event>)
    ensures Run(states, events) && |events| > 0 && Renames(events[|events| - 1], Final(TOP), Gc(Final(TOP)))
    ensures var d := states[|events| - 1].disk; Final(TOP) in d.vols && Gc(Final(TOP)) in d.vols
    ensures var d' := states[|events|].disk; Final(TOP) in d'.vols && Final(TOP) !in d'.links
  {
    MarkAgain();
    LinkMarkedShows();
    TwoDepths();
    states, events := OneMoreCall(Layer(2), {Layer(1)}, MvDir(Layer(2), Gc(Layer(2)), "s3"), LinkMarked(), ThreeNames());
  }
  // ------------------------------------------------------------------ the third run

  /** The setting in which the image has only the bottom layer. */
  const SMALL := START.(top := BOTTOM)

  lemma SmallReaches()
    ensures Reaches(SMALL, 1) && Layer(1) == Final(BOTTOM) && BOTTOM == BOTTOM[..1]
  {
    TwoDepths();
  }

  /** A create of an image of one layer builds that layer. */
  lemma BuildSmall()
    ensures Reached(Creating(MakeImage, OneLayer(), map[], Named(SMALL, "s1", 1)))
  {
    SmallReaches();
    assert Ends([Empty()], [], Nobody(NO_VOLUMES, SMALL));
    LockTop(1, NO_VOLUMES, SMALL);
    Look(Check(0), NO_VOLUMES, Locked(1), SMALL, Fetch(1));
    BuildLayer(1, NO_VOLUMES, Locked(1), SMALL, 1, "s1");
    DropChain(1, OneLayer(), Locked(1), Named(SMALL, "s1", 1));
    assert Locked(1) - {TOP[..1]} == map[];
  }

  lemma StartImage(d: Disk<VolId>, g: Setting)
    requires Reached(Creating(MakeImage, d, map[], g)) && IMAGE !in g.images
    ensures var im := Image(g.top, 0, false, false, false, []);
            Reached(Creating(Lower(|g.top|, []), d, map[], g.(images := g.images[IMAGE := im])))
  {
    Proceed(MakeImage, d, map[], g, Lower(|g.top|, []), MakeDir(IMAGE, g.top));
  }

  lemma LowerOne(i: nat, lowers: seq<ShortId>, d: Disk<VolId>, g: Setting, short: ShortId)
    requires Reaches(g, i) && Present(d, Layer(i), short) && Reached(Creating(Lower(i, lowers), d, map[], g))
    ensures Reached(Creating(Lower(i - 1, lowers + [short]), d, map[], g))
  {
    Look(Lower(i, lowers), d, map[], g, Lower(i - 1, lowers + [short]));
  }

  /** The driver finishes the image, and the create is about to register it. */
  lemma FinishImage(lowers: seq<ShortId>, d: Disk<VolId>, g: Setting)
    requires Reached(Creating(Lower(0, lowers), d, map[], g)) && IMAGE in g.images
    ensures var im := g.images[IMAGE].(ready := true, lowers := lowers);
            Reached(Creating(Register, d, map[], g.(images := g.images[IMAGE := im])))
  {
    Look(Lower(0, lowers), d, map[], g, Finish(lowers));
    Proceed(Finish(lowers), d, map[], g, Register, SetReady(IMAGE, lowers));
  }

  function Ready(top: Chain, lowers: seq<ShortId>): Image {
    Image(top, 0, true, false, false, lowers)
  }

  /** The setting with the image. */
  function With(g: Setting, im: Image): Setting {
    g.(images := map[IMAGE := im])
  }

  lemma MakeSmall()
    ensures Reached(Creating(Register, OneLayer(), map[], With(Named(SMALL, "s1", 1), Ready(BOTTOM, ["s1"]))))
  {
    var g, im := Named(SMALL, "s1", 1), Image(BOTTOM, 0, false, false, false, []);
    SmallReaches();
    BuildSmall();
    StartImage(OneLayer(), g);
    assert g.images[IMAGE := im] == map[IMAGE := im];
    LowerOne(1, [], OneLayer(), With(g, im), "s1");
    assert [] + ["s1"] == ["s1"];
    FinishImage(["s1"], OneLayer(), With(g, im));
    assert map[IMAGE := im][IMAGE := Ready(BOTTOM, ["s1"])] == map[IMAGE := Ready(BOTTOM, ["s1"])];
  }

  lemma RegisterImage(d: Disk<VolId>, g: Setting)
    requires Reached(Creating(Register, d, map[], g))
    ensures Reached(Nobody(d, g.(deps := g.deps[IMAGE := g.top])))
  {
    Proceed(Register, d, map[], g, Done, WriteDeps(IMAGE, g.top));
    var t := Creating(Done, d, map[], g.(deps := g.deps[IMAGE := g.top]));
    Reach(t, Move(0, None, UnlockShared));
    assert Apply(t, 0, None, UnlockShared) == Nobody(d, g.(deps := g.deps[IMAGE := g.top]));
  }

  lemma StartDelete(d: Disk<VolId>, g: Setting)
    requires Reached(Nobody(d, g)) && IMAGE in g.images
    ensures Reached(AtWork(map[2 := Deleter(IMAGE, Destroy)], d, g, None, None))
  {
    var s, proc := Nobody(d, g), Deleter(IMAGE, Exists);
    Reach(s, Spawn(2, proc));
    var t := AtWork(map[2 := proc], d, g, None, None);
    assert After(s, Spawn(2, proc)) == t;
    Reach(t, Move(2, Some(Deleter(IMAGE, Destroy)), Nothing));
    assert Apply(t, 2, Some(Deleter(IMAGE, Destroy)), Nothing)
           == AtWork(map[2 := Deleter(IMAGE, Destroy)], d, g, None, None);
  }

  /** A delete removes the image directory and crashes: the dependency file stays. */
  lemma DeleteHalf(d: Disk<VolId>, g: Setting)
    requires Reached(Nobody(d, g)) && IMAGE in g.images
    ensures Reached(Nobody(d, g.(images := g.images - {IMAGE})))
  {
    var u, proc, g' := AtWork(map[2 := Deleter(IMAGE, Destroy)], d, g, None, None), Deleter(IMAGE, Deregister),
                       g.(images := g.images - {IMAGE});
    StartDelete(d, g);
    Reach(u, Move(2, Some(proc), RemoveImage(IMAGE)));
    var v := AtWork(map[2 := proc], d, g', None, None);
    assert Apply(u, 2, Some(proc), RemoveImage(IMAGE)) == v;
    Reach(v, Crash(2));
    assert Crashed(v, 2) == Nobody(d, g');
  }

  /** An old dependency file, which lists the bottom layer, and no image. */
  function Stale(g: Setting): Setting {
    g.(images := map[], deps := map[IMAGE := BOTTOM], top := TOP)
  }

  lemma LeaveStale()
    ensures Reached(Nobody(OneLayer(), Stale(OneName())))
  {
    var g := With(Named(SMALL, "s1", 1), Ready(BOTTOM, ["s1"]));
    MakeSmall();
    RegisterImage(OneLayer(), g);
    assert g.deps[IMAGE := BOTTOM] == map[IMAGE := BOTTOM];
    var g' := g.(deps := map[IMAGE := BOTTOM]);
    DeleteHalf(OneLayer(), g');
    assert g'.images - {IMAGE} == map[];
    assert Nobody(OneLayer(), g'.(images := map[])) == Nobody(OneLayer(), Stale(OneName()));
  }

  /** A new create under the same id builds both layers of its image. */
  lemma BuildOther()
    ensures Reached(Creating(MakeImage, TwoLayers(), map[], Stale(TwoNames())))
  {
    TwoDepths();
    LeaveStale();
    assert "s1"[1] != "s2"[1];
    LockTop(2, OneLayer(), Stale(OneName()));
    Look(Check(1), OneLayer(), Locked(2), Stale(OneName()), Fetch(2));
    BuildLayer(2, OneLayer(), Locked(2), Stale(OneName()), 2, "s2");
    DropChain(2, TwoLayers(), Locked(2), Stale(TwoNames()));
    assert Locked(2) - {TOP[..2]} == map[];
  }

  lemma LayersPresent()
    ensures Present(TwoLayers(), Layer(2), "s2") && Present(TwoLayers(), Layer(1), "s1")
    ensures Reaches(Stale(TwoNames()), 2) && Reaches(Stale(TwoNames()), 1)
  {
    TwoDepths();
  }

  lemma MakeOther()
    ensures Reached(Creating(Register, TwoLayers(), map[], With(Stale(TwoNames()), Ready(TOP, ["s2", "s1"]))))
  {
    var g, im := Stale(TwoNames()), Image(TOP, 0, false, false, false, []);
    BuildOther();
    LayersPresent();
    StartImage(TwoLayers(), g);
    assert g.images[IMAGE := im] == map[IMAGE := im];
    LowerOne(2, [], TwoLayers(), With(g, im), "s2");
    assert [] + ["s2"] == ["s2"];
    LowerOne(1, ["s2"], TwoLayers(), With(g, im), "s1");
    assert ["s2"] + ["s1"] == ["s2", "s1"];
    FinishImage(["s2", "s1"], TwoLayers(), With(g, im));
    assert map[IMAGE := im][IMAGE := Ready(TOP, ["s2", "s1"])] == map[IMAGE := Ready(TOP, ["s2", "s1"])];
  }

  function Exposed(): Setting {
    With(Stale(TwoNames()), Ready(TOP, ["s2", "s1"]).(abandoned := true, exposed := true))
  }

  /** It crashes before it registers the image. */
  lemma StopBeforeRegister()
    ensures Reached(Nobody(TwoLayers(), Exposed()))
  {
    var g := With(Stale(TwoNames()), Ready(TOP, ["s2", "s1"]));
    MakeOther();
    var s := Creating(Register, TwoLayers(), map[], g);
    Reach(s, Crash(0));
    assert BOTTOM != TOP;
    assert Crashed(s, 0).images == Exposed().images;
    assert Crashed(s, 0) == Nobody(TwoLayers(), Exposed());
  }

  lemma NeedsBottom()
    ensures Needs(BOTTOM) == {Layer(1)} && Layer(1) != Layer(2)
    ensures (set v | v in TwoLayers().vols && !v.Gc?) == {Layer(1), Layer(2)}
  {
    TwoDepths();
    assert BOTTOM[..1] == BOTTOM;
    assert Final(BOTTOM[..1]) in Needs(BOTTOM);
  }

  /** A clean goes by the old dependency file, and takes the top layer for an orphan. */
  lemma FindNeeded()
    ensures Reached(CleaningUp(Marking(Layer(2), {}, MvStat(Layer(2), Gc(Layer(2)))), TwoLayers(), Exposed()))
  {
    var d, g, both := TwoLayers(), Exposed(), {Layer(1), Layer(2)};
    StopBeforeRegister();
    NeedsBottom();
    StartCleaning(d, g);
    CleanOn(ScanVols, d, g, ScanImages(both), Nothing);
    assert g.images.Keys == {IMAGE};
    CleanOn(ScanImages(both), d, g, ScanDeps(both, {IMAGE}), Nothing);
    assert both - Needs(g.deps[IMAGE]) == {Layer(2)} && {IMAGE} - {IMAGE} == {};
    CleanOn(ScanDeps(both, {IMAGE}), d, g, ScanDeps({Layer(2)}, {}), Nothing);
    CleanOn(ScanDeps({Layer(2)}, {}), d, g, Mark({Layer(2)}), Nothing);
    assert {Layer(2)} - {Layer(2)} == {};
    CleanOn(Mark({Layer(2)}), d, g, Marking(Layer(2), {}, MvStat(Layer(2), Gc(Layer(2)))), Nothing);
  }

  /** The disk when only the directory of the top layer is still in its place. */
  function AlmostMarked(): Disk<VolId> {
    var d := TwoLayers();
    d.(links := (d.links - {Layer(2)})[Gc(Layer(2)) := "s2"], syms := (d.syms - {"s2"})["s2" := Gc(Layer(2))])
  }

  lemma MarkNeeded()
    ensures Reached(CleaningUp(Marking(Layer(2), {}, MvDir(Layer(2), Gc(Layer(2)), "s2")), AlmostMarked(), Exposed()))
  {
    var v, w, d := Layer(2), Gc(Layer(2)), TwoLayers();
    FindNeeded();
    LayersPresent();
    MarkLink(v, {}, d, Exposed(), "s2");
    MarkSymlink(v, {}, d.(links := (d.links - {v})[w := "s2"]), Exposed(), "s2");
  }

  lemma AlmostMarkedShows()
    ensures Layer(2) !in OpStep(AlmostMarked(), MvDir(Layer(2), Gc(Layer(2)), "s2"), "").disk.vols
  {
    TwoDepths();
  }

  /** The third run: it ends with an image that is ready, and has just lost its top layer. */
  lemma ExposedImageLosesLayer() returns (states: seq<Sys>, events: seq<Event>)
    ensures Run(states, events)
    ensures var s := states[|events|];
            && IMAGE in s.images && s.images[IMAGE].ready && s.images[IMAGE].exposed
            && s.images[IMAGE].top == TOP && Final(TOP) !in s.disk.vols
  {
    MarkNeeded();
    AlmostMarkedShows();
    TwoDepths();
    states, events := OneMoreCall(Layer(2), {}, MvDir(Layer(2), Gc(Layer(2)), "s2"), AlmostMarked(), Exposed());
  }

  // ------------------------------------------------------------------ the fourth run

  /** The fourth run: a create crashes between making the directory of its temporary volume and writing the link file. */
  lemma StopHalfMade() returns (states: seq<Sys>, events: seq<Event>)
    ensures Run(states, events) && states[|events|].procs == map[]
    ensures var d := states[|events|].disk; Temp(1, 1) in d.vols && Temp(1, 1) !in d.links
  {
    var g, v := START.(tags := map[1 := 0]), Temp(1, 1);
    var d := NO_VOLUMES.(vols := {v});
    TwoDepths();
    LockBoth();
    Proceed(Fetch(1), NO_VOLUMES, BothLocked(), START, Making(1, 1, CvMkdir(v)), NewTag(1));
    assert START.tags[1 := 0] == g.tags;
    MakeCall(1, 1, CvMkdir(v), NO_VOLUMES, BothLocked(), g, "s1");
    assert NO_VOLUMES.vols + {v} == d.vols;
    var s := Creating(Making(1, 1, CvSymlink(v)), d, BothLocked(), g);
    Reach(s, Crash(0));
    states, events :| Ends(states, events, After(s, Crash(0)));
  }
}
