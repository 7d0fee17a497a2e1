/** Steps and crashes keep existing images backed by their base volumes, and their dependency files right. */
module Imaging {
  import opened Wrappers
  import opened Disk
  import opened Protocol
  import opened Invariant
  import opened Surviving

  // ------------------------------------------------------------------ base volumes

  /** A clean that renames a volume has found it not needed by any finished image. */
  lemma MarkingSpares(s: Sys, p: Pid, v: VolId, img: ImageId)
    requires LocksInv(s) && p in s.procs && s.excl == Some(p) && Shape(p, s.procs[p], s.tags)
    requires SparedInv(s.procs, s.images, s.excl)
    requires img in s.images && !s.images[img].exposed && v in Needs(s.images[img].top)
    ensures !Claims(s.procs[p], v)
  {
  }

  /** A base volume of a finished image is not the volume that p is working on. */
  lemma NeededFrame(s: Sys, p: Pid, op: Op<VolId>, gen: ShortId, img: ImageId, k: nat, short: ShortId)
    requires Base(s) && Calling(s, p, op, gen) && SparedInv(s.procs, s.images, s.excl)
    requires img in s.images && !s.images[img].exposed && 1 <= k <= |s.images[img].top|
    requires Present(s.disk, Final(s.images[img].top[..k]), short)
    ensures Present(OpStep(s.disk, op, gen).disk, Final(s.images[img].top[..k]), short)
  {
    var v := Final(s.images[img].top[..k]);
    if s.excl == Some(p) {
      assert Shape(p, s.procs[p], s.tags) && v in Needs(s.images[img].top);
      MarkingSpares(s, p, v, img);
      assert !Claims(s.procs[p], v);
      SafeFrame(s.disk, op, gen, s.shorts, v);
    } else {
      FinalFrame(s, p, op, gen, v);
    }
  }

  lemma ReadyAfterCall(s: Sys, p: Pid, op: Op<VolId>, gen: ShortId)
    requires Base(s) && Calling(s, p, op, gen)
    requires SparedInv(s.procs, s.images, s.excl) && ReadyInv(s.images, s.disk)
    ensures ReadyInv(s.images, OpStep(s.disk, op, gen).disk)
  {
    var d' := OpStep(s.disk, op, gen).disk;
    forall img | img in s.images && Finished(s.images[img])
      ensures LowersOk(d', s.images[img].top, 0, s.images[img].lowers)
    {
      var im := s.images[img];
      assert LowersOk(s.disk, im.top, 0, im.lowers);
      forall k | 0 < k <= |im.top| ensures Present(d', Final(im.top[..k]), im.lowers[|im.top| - k]) {
        NeededFrame(s, p, op, gen, img, k, im.lowers[|im.top| - k]);
      }
    }
  }

  /** When an image becomes ready, its lower directories have been read from its base volumes. */
  lemma NewlyReady(s: Sys, p: Pid, next: Option<Proc>, eff: Effect)
    requires Step(s, p, next, eff) && eff.SetReady? && MakersInv(s.procs, s.images, s.disk)
    ensures LowersOk(s.disk, s.images[eff.img].top, 0, eff.lowers)
  {
    var c := s.procs[p];
    assert c.Creator? && c.cpc == Finish(eff.lowers) && eff.img == c.img;
    assert MakerOk(p, c, s.images, s.disk);
  }

  lemma ReadyAfterQuiet(s: Sys, p: Pid, next: Option<Proc>, eff: Effect)
    requires Step(s, p, next, eff) && !eff.Call? && ReadyInv(s.images, s.disk)
    requires MakersInv(s.procs, s.images, s.disk)
    ensures ReadyInv(Apply(s, p, next, eff).images, Apply(s, p, next, eff).disk)
  {
    QuietDisk(s, p, next, eff);
    if eff.SetReady? { NewlyReady(s, p, next, eff); }
  }

  lemma StepKeepsReady(s: Sys, p: Pid, next: Option<Proc>, eff: Effect)
    requires Step(s, p, next, eff) && Base(s) && SparedInv(s.procs, s.images, s.excl)
    requires ReadyInv(s.images, s.disk) && MakersInv(s.procs, s.images, s.disk)
    ensures ReadyInv(Apply(s, p, next, eff).images, Apply(s, p, next, eff).disk)
  {
    if eff.Call? {
      CallIsCalling(s, p, next, eff);
      ReadyAfterCall(s, p, eff.op, eff.gen);
    } else {
      ReadyAfterQuiet(s, p, next, eff);
    }
  }

  // ------------------------------------------------------------------ what a step does to the images

  /** What a step may do to the images, by the kind of its effect. */
  ghost predicate ImageMoves(s: Sys, p: Pid, next: Option<Proc>, eff: Effect)
    requires p in s.procs
  {
    var c := s.procs[p];
    && (eff.MakeDir? || eff.SetReady? || eff.WriteDeps? || eff.Abandon? ==>
          c.Creator? && c.img == eff.img && next.Some? && next.value.Creator?)
    && (c.Creator? && next.Some? ==> next.value.Creator? && next.value.img == c.img && next.value.top == c.top)
    && (eff.MakeDir? ==> c.cpc.MakeImage? && next.value.cpc.Lower? && eff.top == c.top)
    && (eff.SetReady? ==> c.cpc.Finish? && next.value.cpc.Register?)
    && (eff.WriteDeps? ==> c.cpc.Register? && next.value.cpc.Done? && eff.top == c.top)
    && (eff.Abandon? ==> Makes(c.cpc) && next.value.cpc.ReleaseShared?)
    && (c.Creator? && eff.RemoveImage? ==>
          c.cpc.Rollback? && eff.img == c.img && next.Some? && next.value.cpc.ReleaseShared?)
    && (c.Creator? && next.Some? && Makes(c.cpc) && !Makes(next.value.cpc) ==>
          eff.RemoveImage? || eff.WriteDeps? || eff.Abandon?)
    && (c.Creator? && next.Some? && Makes(next.value.cpc) && !Makes(c.cpc) ==>
          c.cpc.MakeImage? && (eff.MakeDir? || next.value.cpc.Rollback?))
    && (c.Creator? && next.None? ==> !Makes(c.cpc))
    && (c.Creator? && next.Some? && BeforeImage(next.value.cpc) ==> BeforeImage(c.cpc) && !eff.MakeDir?)
    && (c.Creator? && next.Some? && next.value.cpc.Register? ==> eff.SetReady?)
  }

  lemma CreatorImageEffect(d: Disk<VolId>, c: Proc, pc': CreatorPc, eff: Effect)
    requires c.Creator? && CreatorMay(d, c, pc', eff)
    ensures match eff
            case MakeDir(img, top) => c.cpc.MakeImage? && pc'.Lower? && img == c.img && top == c.top
            case SetReady(img, _) => c.cpc.Finish? && pc'.Register? && img == c.img
            case WriteDeps(img, top) => c.cpc.Register? && pc'.Done? && img == c.img && top == c.top
            case RemoveImage(img) => c.cpc.Rollback? && pc'.ReleaseShared? && img == c.img
            case Abandon(img) => (c.cpc.Rollback? || c.cpc.Register?) && pc'.ReleaseShared? && img == c.img
            case RemoveDeps(_) => false
            case _ =>
              && (Makes(c.cpc) ==> Makes(pc')) && !pc'.Register?
              && (Makes(pc') && !Makes(c.cpc) ==> c.cpc.MakeImage? && pc'.Rollback?)
              && (BeforeImage(pc') ==> BeforeImage(c.cpc))
  {
  }

  lemma CleanerWritesNothing(s: Sys, pc: CleanerPc, pc': CleanerPc, eff: Effect)
    requires CleanerMay(s, pc, pc', eff)
    ensures !eff.WriteMeta? && !eff.NewTag? && !eff.MakeDir? && !eff.SetReady? && !eff.RemoveImage? && !eff.Abandon?
            && !eff.WriteDeps? && !eff.RemoveDeps?
  {
  }

  lemma ImageEffect(s: Sys, p: Pid, next: Option<Proc>, eff: Effect)
    requires Step(s, p, next, eff)
    ensures ImageMoves(s, p, next, eff)
  {
    var c := s.procs[p];
    if next.Some? {
      if c.Creator? {
        CreatorImageEffect(s.disk, c, next.value.cpc, eff);
      } else if c.Cleaner? {
        CleanerWritesNothing(s, c.kpc, next.value.kpc, eff);
      }
    }
  }

  // ------------------------------------------------------------------ makers

  lemma LowersFrame(s: Sys, p: Pid, op: Op<VolId>, gen: ShortId, q: Pid, i: nat, lowers: seq<ShortId>)
    requires Base(s) && Calling(s, p, op, gen)
    requires q in s.procs && s.procs[q].Creator? && Sharing(s.procs[q])
    requires LowersOk(s.disk, s.procs[q].top, i, lowers)
    ensures LowersOk(OpStep(s.disk, op, gen).disk, s.procs[q].top, i, lowers)
  {
    var top, d' := s.procs[q].top, OpStep(s.disk, op, gen).disk;
    forall k | i < k <= |top| ensures Present(d', Final(top[..k]), lowers[|top| - k]) {
      FinalFrame(s, p, op, gen, Final(top[..k]));
    }
  }

  /** What another create in flight knows of its image. */
  lemma OtherMaker(s: Sys, p: Pid, next: Option<Proc>, eff: Effect, q: Pid)
    requires p in s.procs && Enabled(s, eff) && ImageMoves(s, p, next, eff) && UniqueInv(s.procs)
    requires q in s.procs && q != p && s.procs[q].Creator?
    requires MakerOk(q, s.procs[q], s.images, s.disk)
    ensures MakerOk(q, s.procs[q], Apply(s, p, next, eff).images, s.disk)
  {
  }

  lemma MakerLowers(s: Sys, p: Pid, op: Op<VolId>, gen: ShortId, q: Pid)
    requires Base(s) && Calling(s, p, op, gen)
    requires q in s.procs && s.procs[q].Creator? && MakerOk(q, s.procs[q], s.images, s.disk)
    ensures MakerOk(q, s.procs[q], s.images, OpStep(s.disk, op, gen).disk)
  {
    var c := s.procs[q];
    if c.cpc.Lower? {
      LowersFrame(s, p, op, gen, q, c.cpc.i, c.cpc.lowers);
    } else if c.cpc.Finish? {
      LowersFrame(s, p, op, gen, q, 0, c.cpc.lowers);
    }
  }

  lemma OtherMakerQuiet(s: Sys, p: Pid, next: Option<Proc>, eff: Effect, q: Pid)
    requires Step(s, p, next, eff) && !eff.Call? && UniqueInv(s.procs)
    requires q in s.procs && q != p && s.procs[q].Creator? && MakerOk(q, s.procs[q], s.images, s.disk)
    ensures MakerOk(q, s.procs[q], Apply(s, p, next, eff).images, Apply(s, p, next, eff).disk)
  {
    ImageEffect(s, p, next, eff);
    OtherMaker(s, p, next, eff, q);
    QuietDisk(s, p, next, eff);
  }

  lemma OtherMakerOk(s: Sys, p: Pid, next: Option<Proc>, eff: Effect, q: Pid)
    requires Step(s, p, next, eff) && Base(s) && MakersInv(s.procs, s.images, s.disk) && UniqueInv(s.procs)
    requires q in s.procs && q != p && s.procs[q].Creator?
    ensures MakerOk(q, s.procs[q], Apply(s, p, next, eff).images, Apply(s, p, next, eff).disk)
  {
    if eff.Call? {
      CallIsCalling(s, p, next, eff);
      MakerLowers(s, p, eff.op, eff.gen, q);
    } else {
      OtherMakerQuiet(s, p, next, eff, q);
    }
  }

  lemma OwnLowers(d: Disk<VolId>, c: Proc, pc': CreatorPc, eff: Effect)
    requires c.Creator? && CreatorMay(d, c, pc', eff) && LevelsOk(c)
    requires c.cpc.Lower? ==> LowersOk(d, c.top, c.cpc.i, c.cpc.lowers)
    ensures pc'.Lower? ==> LowersOk(d, c.top, pc'.i, pc'.lowers)
    ensures pc'.Finish? ==> LowersOk(d, c.top, 0, pc'.lowers)
    ensures pc'.Lower? || pc'.Finish? ==> !eff.Call? && !eff.WriteMeta?
  {
  }

  lemma OwnImage(s: Sys, p: Pid, next: Option<Proc>, eff: Effect)
    requires p in s.procs && Enabled(s, eff) && ImageMoves(s, p, next, eff) && s.procs[p].Creator? && next.Some?
    requires MakerOk(p, s.procs[p], s.images, s.disk)
    ensures var c', images' := next.value, Apply(s, p, next, eff).images;
            && (BeforeImage(c'.cpc) ==> c'.img !in images')
            && (Makes(c'.cpc) && c'.img in images' ==>
                  images'[c'.img].top == c'.top && images'[c'.img].maker == p && !images'[c'.img].abandoned
                  && !images'[c'.img].exposed)
            && (c'.cpc.Register? && c'.img in images' ==> images'[c'.img].ready)
  {
  }

  lemma OwnMaker(s: Sys, p: Pid, next: Option<Proc>, eff: Effect)
    requires Step(s, p, next, eff) && LevelsInv(s.procs) && MakersInv(s.procs, s.images, s.disk)
    requires s.procs[p].Creator? && next.Some?
    ensures MakerOk(p, next.value, Apply(s, p, next, eff).images, Apply(s, p, next, eff).disk)
  {
    assert MakerOk(p, s.procs[p], s.images, s.disk) && LevelsOk(s.procs[p]);
    ImageEffect(s, p, next, eff);
    OwnImage(s, p, next, eff);
    OwnLowers(s.disk, s.procs[p], next.value.cpc, eff);
  }

  lemma MakerAfter(s: Sys, p: Pid, next: Option<Proc>, eff: Effect, q: Pid)
    requires Step(s, p, next, eff) && Base(s) && MakersInv(s.procs, s.images, s.disk) && UniqueInv(s.procs)
    requires q in Apply(s, p, next, eff).procs && Apply(s, p, next, eff).procs[q].Creator?
    ensures var s' := Apply(s, p, next, eff); MakerOk(q, s'.procs[q], s'.images, s'.disk)
  {
    MovedOther(s, p, next, eff, q);
    if q == p {
      OwnerKind(s, p, next, eff);
      OwnMaker(s, p, next, eff);
    } else {
      OtherMakerOk(s, p, next, eff, q);
    }
  }

  lemma StepKeepsMakers(s: Sys, p: Pid, next: Option<Proc>, eff: Effect)
    requires Step(s, p, next, eff) && Base(s) && MakersInv(s.procs, s.images, s.disk) && UniqueInv(s.procs)
    ensures MakersInv(Apply(s, p, next, eff).procs, Apply(s, p, next, eff).images, Apply(s, p, next, eff).disk)
  {
    var s' := Apply(s, p, next, eff);
    forall q | q in s'.procs && s'.procs[q].Creator? ensures MakerOk(q, s'.procs[q], s'.images, s'.disk) {
      MakerAfter(s, p, next, eff, q);
    }
  }

  lemma OwnerKind(s: Sys, p: Pid, next: Option<Proc>, eff: Effect)
    requires Step(s, p, next, eff)
    ensures next.Some? ==> (next.value.Creator? <==> s.procs[p].Creator?)
    ensures next.Some? && next.value.Creator? ==> next.value.img == s.procs[p].img
  {
  }

  lemma MovedUnique(procs: map<Pid, Proc>, p: Pid, next: Option<Proc>)
    requires UniqueInv(procs) && p in procs
    requires next.Some? && next.value.Creator? ==> procs[p].Creator? && next.value.img == procs[p].img
    ensures UniqueInv(Moved(procs, p, next))
  {
  }

  // ------------------------------------------------------------------ settled images

  /** An image that another create is making stays so. */
  lemma StillInMaking(s: Sys, p: Pid, next: Option<Proc>, eff: Effect, img: ImageId)
    requires p in s.procs && Enabled(s, eff) && ImageMoves(s, p, next, eff)
    requires s.procs[p].Creator? ==> MakerOk(p, s.procs[p], s.images, s.disk)
    requires img in s.images && InMaking(s.procs, img, s.images[img]) && s.images[img].maker != p
    ensures var s' := Apply(s, p, next, eff); img in s'.images ==> InMaking(s'.procs, img, s'.images[img])
  {
  }

  /** An image is being made, exposed, or ready or left behind with its layers in its dependency file. */
  lemma SettledOne(s: Sys, p: Pid, next: Option<Proc>, eff: Effect, img: ImageId)
    requires p in s.procs && Enabled(s, eff) && ImageMoves(s, p, next, eff)
    requires s.procs[p].Creator? ==> MakerOk(p, s.procs[p], s.images, s.disk)
    requires img in Apply(s, p, next, eff).images
    requires img in s.images ==> Settled(s.procs, s.deps, img, s.images[img])
    requires img in s.images && InMaking(s.procs, img, s.images[img]) ==> s.images[img].maker == p
    ensures var s' := Apply(s, p, next, eff); Settled(s'.procs, s'.deps, img, s'.images[img])
  {
  }

  lemma SettledAfter(s: Sys, p: Pid, next: Option<Proc>, eff: Effect, img: ImageId)
    requires p in s.procs && Enabled(s, eff) && ImageMoves(s, p, next, eff) && SettledInv(s.procs, s.images, s.deps)
    requires s.procs[p].Creator? ==> MakerOk(p, s.procs[p], s.images, s.disk)
    requires img in Apply(s, p, next, eff).images
    ensures var s' := Apply(s, p, next, eff); Settled(s'.procs, s'.deps, img, s'.images[img])
  {
    if img in s.images && InMaking(s.procs, img, s.images[img]) && s.images[img].maker != p {
      StillInMaking(s, p, next, eff, img);
    } else {
      SettledOne(s, p, next, eff, img);
    }
  }

  lemma StepKeepsSettled(s: Sys, p: Pid, next: Option<Proc>, eff: Effect)
    requires Step(s, p, next, eff) && SettledInv(s.procs, s.images, s.deps)
    requires MakersInv(s.procs, s.images, s.disk)
    ensures var s' := Apply(s, p, next, eff); SettledInv(s'.procs, s'.images, s'.deps)
  {
    ImageEffect(s, p, next, eff);
    var s' := Apply(s, p, next, eff);
    forall img | img in s'.images ensures Settled(s'.procs, s'.deps, img, s'.images[img]) {
      SettledAfter(s, p, next, eff, img);
    }
  }

  // ------------------------------------------------------------------ what a clean has yet to mark

  /** Every image that counts was there before, with the same layers. */
  ghost predicate NoNewImages(images: map<ImageId, Image>, images': map<ImageId, Image>) {
    forall img :: img in images' && !images'[img].exposed ==>
      img in images && !images[img].exposed && images[img].top == images'[img].top
  }

  lemma FewerSpared(images: map<ImageId, Image>, images': map<ImageId, Image>, pc: CleanerPc)
    requires NoNewImages(images, images') && SparedBy(images, pc)
    ensures SparedBy(images', pc)
  {
  }

  lemma OnlySharersMakeImages(s: Sys, p: Pid, next: Option<Proc>, eff: Effect)
    requires Step(s, p, next, eff)
    ensures !Sharing(s.procs[p]) ==> NoNewImages(s.images, Apply(s, p, next, eff).images)
    ensures eff.Call? && !Cleaning(s.procs[p]) ==> Sharing(s.procs[p])
  {
    ImageEffect(s, p, next, eff);
  }

  /** While the exclusive lock is held, no image is being made. */
  lemma ExclusiveSettled(s: Sys, p: Pid, img: ImageId)
    requires LocksInv(s) && SettledInv(s.procs, s.images, s.deps) && s.excl == Some(p)
    requires img in s.images && !s.images[img].exposed
    ensures img in s.deps ==> s.images[img].top <= s.deps[img]
  {
  }

  /** More layers need more volumes. */
  lemma NeedsMore(top: Chain, longer: Chain)
    requires top <= longer
    ensures Needs(top) <= Needs(longer)
  {
    forall v | v in Needs(top) ensures v in Needs(longer) {
      var k :| 1 <= k <= |top| && v == Final(top[..k]);
      assert top[..k] == longer[..k];
    }
  }

  /** Every image that counts is covered by the dependency file under its id. */
  ghost predicate DepsCover(images: map<ImageId, Image>, deps: map<ImageId, Chain>) {
    forall img :: img in images && !images[img].exposed && img in deps ==> images[img].top <= deps[img]
  }

  lemma ScanDepsSpared(s: Sys, orphans: set<VolId>, pending: set<ImageId>, pc': CleanerPc)
    requires CleanerMay(s, ScanDeps(orphans, pending), pc', Nothing) && Spared(s.images, pending, orphans)
    requires DepsCover(s.images, s.deps)
    ensures SparedBy(s.images, pc')
  {
    forall img | img in s.images && !s.images[img].exposed && img in s.deps
      ensures Needs(s.images[img].top) <= Needs(s.deps[img])
    {
      NeedsMore(s.images[img].top, s.deps[img]);
    }
  }

  lemma OwnSpared(s: Sys, p: Pid, pc': CleanerPc, eff: Effect)
    requires LocksInv(s) && SettledInv(s.procs, s.images, s.deps) && SparedInv(s.procs, s.images, s.excl)
    requires p in s.procs && s.procs[p].Cleaner? && (s.excl == Some(p) || eff.LockExcl?)
    requires CleanerMay(s, s.procs[p].kpc, pc', eff)
    ensures SparedBy(s.images, pc')
  {
    var pc := s.procs[p].kpc;
    if pc.ScanDeps? {
      forall img | img in s.images && !s.images[img].exposed && img in s.deps ensures s.images[img].top <= s.deps[img] {
        ExclusiveSettled(s, p, img);
      }
      ScanDepsSpared(s, pc.orphans, pc.images, pc');
    }
  }

  lemma ExclOwner(s: Sys, p: Pid, next: Option<Proc>, eff: Effect)
    requires Step(s, p, next, eff) && LocksInv(s)
    requires Apply(s, p, next, eff).excl == Some(p) && next.Some?
    ensures s.procs[p].Cleaner? && next.value.Cleaner? && (s.excl == Some(p) || eff.LockExcl?)
    ensures Apply(s, p, next, eff).images == s.images
  {
    if s.procs[p].Cleaner? { CleanerWritesNothing(s, s.procs[p].kpc, next.value.kpc, eff); }
  }

  lemma OthersExcl(s: Sys, p: Pid, next: Option<Proc>, eff: Effect)
    requires Step(s, p, next, eff) && LocksInv(s)
    requires Apply(s, p, next, eff).excl.Some? && Apply(s, p, next, eff).excl != Some(p)
    ensures Apply(s, p, next, eff).excl == s.excl && !Sharing(s.procs[p])
  {
  }

  /** What the clean with the exclusive lock has yet to mark stays unneeded. */
  lemma StepKeepsSpared(s: Sys, p: Pid, next: Option<Proc>, eff: Effect)
    requires Step(s, p, next, eff) && LocksInv(s)
    requires SettledInv(s.procs, s.images, s.deps) && SparedInv(s.procs, s.images, s.excl)
    ensures var s' := Apply(s, p, next, eff); SparedInv(s'.procs, s'.images, s'.excl)
  {
    var s' := Apply(s, p, next, eff);
    if s'.excl.Some? {
      MovedOther(s, p, next, eff, s'.excl.value);
      if s'.excl == Some(p) {
        if next.Some? {
          ExclOwner(s, p, next, eff);
          OwnSpared(s, p, next.value.kpc, eff);
        }
      } else {
        OthersExcl(s, p, next, eff);
        OnlySharersMakeImages(s, p, next, eff);
        FewerSpared(s.images, s'.images, s.procs[s.excl.value].kpc);
      }
    }
  }

  // ------------------------------------------------------------------ all of it

  lemma StepKeepsImages(s: Sys, p: Pid, next: Option<Proc>, eff: Effect)
    requires Step(s, p, next, eff) && Base(s) && ImagesInv(s)
    ensures ImagesInv(Apply(s, p, next, eff))
  {
    StepKeepsReady(s, p, next, eff);
    StepKeepsMakers(s, p, next, eff);
    StepKeepsSettled(s, p, next, eff);
    StepKeepsSpared(s, p, next, eff);
    OwnerKind(s, p, next, eff);
    MovedUnique(s.procs, p, next);
  }

  lemma CrashKeepsSettled(s: Sys, p: Pid, img: ImageId)
    requires p in s.procs && SettledInv(s.procs, s.images, s.deps) && img in s.images
    ensures var s' := Crashed(s, p); img in s'.images && Settled(s'.procs, s'.deps, img, s'.images[img])
  {
    var s' := Crashed(s, p);
    assert Settled(s.procs, s.deps, img, s.images[img]);
    if InMaking(s.procs, img, s.images[img]) && s.images[img].maker != p {
      assert InMaking(s'.procs, img, s'.images[img]);
    }
  }

  lemma CrashKeepsMakers(s: Sys, p: Pid, q: Pid)
    requires p in s.procs && UniqueInv(s.procs) && q in s.procs && q != p && s.procs[q].Creator?
    requires MakerOk(q, s.procs[q], s.images, s.disk)
    ensures MakerOk(q, s.procs[q], Crashed(s, p).images, s.disk)
  {
  }

  /** An image that a crashed create was making is left behind; the others are as before. */
  lemma CrashKeepsImages(s: Sys, p: Pid)
    requires p in s.procs && LocksInv(s) && ImagesInv(s)
    ensures ImagesInv(Crashed(s, p))
  {
    var s' := Crashed(s, p);
    forall img | img in s'.images ensures Settled(s'.procs, s'.deps, img, s'.images[img]) { CrashKeepsSettled(s, p, img); }
    forall q | q in s'.procs && s'.procs[q].Creator? ensures MakerOk(q, s'.procs[q], s'.images, s'.disk) {
      CrashKeepsMakers(s, p, q);
    }
    if s'.excl.Some? { FewerSpared(s.images, s'.images, s.procs[s.excl.value].kpc); }
  }
}
