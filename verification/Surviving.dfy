/** Steps and crashes keep what every reachable state has of the volumes and of the operations on them. */
module Surviving {
  import opened Wrappers
  import opened Disk
  import opened Protocol
  import opened Invariant
  import Locking
  import opened ClaimProofs

  /** The claimed call of p. */
  ghost predicate Calling(s: Sys, p: Pid, op: Op<VolId>, gen: ShortId) {
    && p in s.procs && Claim(s.procs[p]) == Some(op)
    && OpSafe(s.disk, op) && (op.CvSymlink? ==> gen !in s.shorts)
  }

  lemma CallIsCalling(s: Sys, p: Pid, next: Option<Proc>, eff: Effect)
    requires Step(s, p, next, eff) && eff.Call? && SafeInv(s.procs, s.disk)
    ensures next.Some? && Calling(s, p, eff.op, eff.gen)
    ensures OpStep(s.disk, eff.op, eff.gen).outcome.Go? ==>
              Claim(next.value) == Some(OpStep(s.disk, eff.op, eff.gen).outcome.next)
  {
    CallIsClaim(s, p, next, eff);
  }

  // ------------------------------------------------------------------ who may touch a published layer

  lemma CreatorsClaimUnlisted(s: Sys, q: Pid, v: VolId)
    requires ShapeInv(s.procs, s.tags) && LockedInv(s.procs, s.disk) && LevelsInv(s.procs)
    requires q in s.procs && s.procs[q].Creator? && v.Final?
    ensures Claims(s.procs[q], v) ==> v !in s.disk.vols
  {
    assert Shape(q, s.procs[q], s.tags) && LevelsOk(s.procs[q]);
    assert Unlisted(s.disk, s.procs[q].top, UnlistedFrom(s.procs[q]));
  }

  /** An operation in flight on a published layer belongs to the clean that holds the exclusive lock. */
  lemma PublishedClaim(s: Sys, q: Pid, v: VolId)
    requires Base(s) && q in s.procs && v.Final? && v in s.disk.vols
    ensures Claims(s.procs[q], v) ==> s.procs[q].Cleaner? && s.excl == Some(q)
  {
    Claimant(s, q, v);
    if s.procs[q].Creator? { CreatorsClaimUnlisted(s, q, v); }
  }

  /** While p holds the chain lock of a layer and the global lock, only p works on that layer. */
  lemma FinalClaimant(s: Sys, p: Pid, q: Pid, c: Chain)
    requires Base(s) && p in s.procs && Sharing(s.procs[p]) && Holds(s.procs, p, c) && q in s.procs
    ensures Claims(s.procs[q], Final(c)) ==> p == q
  {
    Claimant(s, q, Final(c));
    assert s.chainLocks[c] == p;
  }

  /** The calls of p leave a published layer in place, unless p is a clean that holds the exclusive lock. */
  lemma FinalFrame(s: Sys, p: Pid, op: Op<VolId>, gen: ShortId, v: VolId)
    requires Base(s) && Calling(s, p, op, gen)
    requires v.Final? && v in s.disk.vols && s.excl != Some(p)
    ensures var d' := OpStep(s.disk, op, gen).disk;
            && v in d'.vols && (v in s.disk.metas ==> v in d'.metas)
            && (v in s.disk.links ==> v in d'.links && d'.links[v] == s.disk.links[v])
            && (AtRest(s.disk, v) ==> AtRest(d', v))
  {
    PublishedClaim(s, p, v);
    assert !Claims(s.procs[p], v);
    SafeFrame(s.disk, op, gen, s.shorts, v);
  }

  // ------------------------------------------------------------------ letting go of a claim

  /** A name that an operation moves or destroys something to is a gc name, or has no directory. */
  predicate Spot(d: Disk<VolId>, op: Op<VolId>) {
    && (IsMove(op) || op.MvMeta? ==> op.to.Gc? || op.to !in d.vols)
    && (IsDestroy(op) ==> op.id.Gc? || op.id !in d.vols)
  }

  lemma ClaimSpot(s: Sys, p: Pid)
    requires Base(s) && p in s.procs && Claim(s.procs[p]).Some?
    ensures Spot(s.disk, Claim(s.procs[p]).value)
  {
    var proc, op := s.procs[p], Claim(s.procs[p]).value;
    assert Shape(p, proc, s.tags);
    if proc.Creator? {
      assert LevelsOk(proc);
      if IsMove(op) { CreatorsClaimUnlisted(s, p, op.to); }
      if IsDestroy(op) { CreatorsClaimUnlisted(s, p, op.id); }
    }
  }

  /** Whenever an operation is cut short, the unmarked volumes it was working on are intact. */
  lemma DropIntact(d: Disk<VolId>, op: Op<VolId>, v: VolId)
    requires OpSafe(d, op) && Spot(d, op) && v in Ids(op) && !v.Gc?
    ensures Intact(d, v)
  {
  }

  /** And so they are when it has come to its end, successful or not. */
  lemma EndIntact(d: Disk<VolId>, op: Op<VolId>, gen: ShortId, v: VolId)
    requires OpSafe(d, op) && Spot(d, op) && v in Ids(op) && !v.Gc? && !OpStep(d, op, gen).outcome.Go?
    ensures Intact(OpStep(d, op, gen).disk, v)
  {
  }

  lemma IntactAfterCall(s: Sys, p: Pid, next: Proc, op: Op<VolId>, gen: ShortId)
    requires Base(s) && IntactInv(s.procs, s.disk) && Calling(s, p, op, gen)
    requires OpStep(s.disk, op, gen).outcome.Go? ==> Claim(next) == Some(OpStep(s.disk, op, gen).outcome.next)
    ensures IntactInv(s.procs[p := next], OpStep(s.disk, op, gen).disk)
  {
    var d', procs' := OpStep(s.disk, op, gen).disk, s.procs[p := next];
    SafePreserved(s.disk, op, gen, s.shorts);
    ClaimSpot(s, p);
    forall v | v in d'.vols && v in d'.links && !v.Gc?
      ensures AtRest(d', v) || Claimed(procs', v)
    {
      if v in Ids(op) {
        if OpStep(s.disk, op, gen).outcome.Go? {
          assert Claims(procs'[p], v);
        } else {
          EndIntact(s.disk, op, gen, v);
        }
      } else {
        SafeFrame(s.disk, op, gen, s.shorts, v);
        if !AtRest(s.disk, v) {
          var q :| q in s.procs && Claims(s.procs[q], v);
          assert procs'[q] == s.procs[q];
        }
      }
    }
  }

  /** A process moves on without a call, exits, or crashes. */
  lemma IntactAfterOther(s: Sys, p: Pid, next: Option<Proc>, metas: map<VolId, int>)
    requires Base(s) && IntactInv(s.procs, s.disk) && p in s.procs
    ensures IntactInv(Moved(s.procs, p, next), s.disk.(metas := metas))
  {
    var d', procs' := s.disk.(metas := metas), Moved(s.procs, p, next);
    forall v | v in d'.vols && v in d'.links && !v.Gc?
      ensures AtRest(d', v) || Claimed(procs', v)
    {
      if !AtRest(s.disk, v) {
        var q :| q in s.procs && Claims(s.procs[q], v);
        if q == p {
          ClaimSpot(s, p);
          DropIntact(s.disk, Claim(s.procs[p]).value, v);
        } else {
          assert q in procs' && procs'[q] == s.procs[q];
        }
      }
    }
  }

  // ------------------------------------------------------------------ what operations know

  /** The other operations in flight are not disturbed by p's call. */
  lemma OthersSafe(s: Sys, p: Pid, op: Op<VolId>, gen: ShortId, q: Pid)
    requires Base(s) && Calling(s, p, op, gen)
    requires q in s.procs && q != p && Claim(s.procs[q]).Some?
    ensures OpSafe(OpStep(s.disk, op, gen).disk, Claim(s.procs[q]).value)
  {
    forall v | v in Ids(op) ensures v !in Ids(Claim(s.procs[q]).value) {
      assert Claims(s.procs[p], v);
      ClaimsDisjoint(s, p, q, v);
      assert !Claims(s.procs[q], v);
    }
    SafeNoninterference(s.disk, op, Claim(s.procs[q]).value, gen, s.shorts);
  }

  ghost predicate ClaimSafe(d: Disk<VolId>, proc: Proc) {
    Claim(proc).Some? ==> OpSafe(d, Claim(proc).value)
  }

  /** What a create claims without a call. */
  lemma CreatorQuietSafe(d: Disk<VolId>, c: Proc, c': Proc, eff: Effect, tags: map<nat, Pid>)
    requires c.Creator? && c'.Creator? && c'.top == c.top && CreatorMay(d, c, c'.cpc, eff)
    requires !eff.Call? && LevelsOk(c) && ClaimSafe(d, c)
    requires TagInv(d, tags) && (eff.NewTag? ==> eff.tag !in tags)
    ensures ClaimSafe(d, c')
  {
  }

  /** What a create claims after a call. */
  lemma CreatorCallSafe(d: Disk<VolId>, p: Pid, c: Proc, c': Proc, eff: Effect, shorts: set<ShortId>, tags: map<nat, Pid>)
    requires c.Creator? && c'.Creator? && c'.top == c.top && CreatorMay(d, c, c'.cpc, eff) && eff.Call?
    requires LevelsOk(c) && Shape(p, c, tags) && OpSafe(d, eff.op) && ShortsInv(d, shorts)
    requires eff.op.CvSymlink? ==> eff.gen !in shorts
    ensures ClaimSafe(OpStep(d, eff.op, eff.gen).disk, c')
  {
    SafePreserved(d, eff.op, eff.gen, shorts);
  }

  /** While p holds the exclusive lock and has no operation in flight, every unmarked volume is intact. */
  lemma ExclusiveIntact(s: Sys, p: Pid, v: VolId)
    requires Base(s) && IntactInv(s.procs, s.disk) && s.excl == Some(p) && Claim(s.procs[p]).None? && !v.Gc?
    ensures Intact(s.disk, v)
  {
    forall q | q in s.procs ensures !Claims(s.procs[q], v) { Claimant(s, q, v); }
  }

  /** A clean starts an operation only on a volume it has yet to mark or to collect. */
  lemma TakesOne(s: Sys, pc: CleanerPc, pc': CleanerPc, eff: Effect)
    requires CleanerMay(s, pc, pc', eff) && !eff.Call?
    ensures pc'.Marking? ==> pc.Mark? && pc'.vol in pc.todo && pc'.op == MvStat(pc'.vol, Gc(pc'.vol))
    ensures pc'.Collecting? ==> pc.Collect? && pc'.vol in pc.todo && pc'.op == DvRead(pc'.vol)
  {
  }

  lemma CleanerQuietSafe(s: Sys, p: Pid, pc': CleanerPc, eff: Effect)
    requires Base(s) && IntactInv(s.procs, s.disk) && p in s.procs && s.procs[p].Cleaner?
    requires CleanerMay(s, s.procs[p].kpc, pc', eff) && !eff.Call?
    ensures ClaimSafe(s.disk, Cleaner(pc'))
  {
    var pc := s.procs[p].kpc;
    TakesOne(s, pc, pc', eff);
    assert Shape(p, s.procs[p], s.tags);
    if pc.Mark? && pc'.Marking? { ExclusiveIntact(s, p, pc'.vol); }
  }

  lemma CleanerCallSafe(s: Sys, p: Pid, pc': CleanerPc, eff: Effect)
    requires Base(s) && p in s.procs && s.procs[p].Cleaner? && eff.Call? && Calling(s, p, eff.op, eff.gen)
    requires CleanerMay(s, s.procs[p].kpc, pc', eff)
    ensures ClaimSafe(OpStep(s.disk, eff.op, eff.gen).disk, Cleaner(pc'))
  {
    assert Shape(p, s.procs[p], s.tags);
    SafePreserved(s.disk, eff.op, eff.gen, s.shorts);
  }

  /** A step without a driver call leaves directories, link files and symlinks alone, and loses no metadata. */
  lemma QuietDisk(s: Sys, p: Pid, next: Option<Proc>, eff: Effect)
    requires Step(s, p, next, eff) && !eff.Call?
    ensures Apply(s, p, next, eff).disk == s.disk.(metas := Apply(s, p, next, eff).disk.metas)
    ensures s.disk.metas.Keys <= Apply(s, p, next, eff).disk.metas.Keys
    ensures Apply(s, p, next, eff).shorts == s.shorts
  {
  }

  lemma MetasIrrelevant(d: Disk<VolId>, op: Op<VolId>, metas: map<VolId, int>)
    ensures OpSafe(d, op) <==> OpSafe(d.(metas := metas), op)
  {
  }

  /** What the moving process knows after its step. */
  lemma OwnSafe(s: Sys, p: Pid, next: Option<Proc>, eff: Effect)
    requires Step(s, p, next, eff) && Base(s) && IntactInv(s.procs, s.disk) && TagInv(s.disk, s.tags) && next.Some?
    ensures ClaimSafe(Apply(s, p, next, eff).disk, next.value)
  {
    var proc := s.procs[p];
    assert Shape(p, proc, s.tags) && ClaimSafe(s.disk, proc);
    if eff.Call? {
      CallIsCalling(s, p, next, eff);
      if proc.Creator? {
        CreatorCallSafe(s.disk, p, proc, next.value, eff, s.shorts, s.tags);
      } else {
        CleanerCallSafe(s, p, next.value.kpc, eff);
      }
    } else {
      OwnQuietSafe(s, p, next.value, eff);
      QuietDisk(s, p, next, eff);
      if Claim(next.value).Some? {
        MetasIrrelevant(s.disk, Claim(next.value).value, Apply(s, p, next, eff).disk.metas);
      }
    }
  }

  lemma OwnQuietSafe(s: Sys, p: Pid, next: Proc, eff: Effect)
    requires Step(s, p, Some(next), eff) && !eff.Call?
    requires Base(s) && IntactInv(s.procs, s.disk) && TagInv(s.disk, s.tags)
    ensures ClaimSafe(s.disk, next)
  {
    var proc := s.procs[p];
    assert ClaimSafe(s.disk, proc);
    if proc.Creator? {
      CreatorQuietSafe(s.disk, proc, next, eff, s.tags);
    } else if proc.Cleaner? {
      CleanerQuietSafe(s, p, next.kpc, eff);
    }
  }

  lemma OtherSafeAfter(s: Sys, p: Pid, next: Option<Proc>, eff: Effect, q: Pid)
    requires Step(s, p, next, eff) && Base(s) && q in s.procs && q != p
    ensures ClaimSafe(Apply(s, p, next, eff).disk, s.procs[q])
  {
    assert ClaimSafe(s.disk, s.procs[q]);
    if Claim(s.procs[q]).Some? {
      if eff.Call? {
        CallIsCalling(s, p, next, eff);
        OthersSafe(s, p, eff.op, eff.gen, q);
      } else {
        QuietDisk(s, p, next, eff);
        MetasIrrelevant(s.disk, Claim(s.procs[q]).value, Apply(s, p, next, eff).disk.metas);
      }
    }
  }

  lemma StepKeepsSafe(s: Sys, p: Pid, next: Option<Proc>, eff: Effect)
    requires Step(s, p, next, eff) && Base(s) && IntactInv(s.procs, s.disk) && TagInv(s.disk, s.tags)
    ensures SafeInv(Apply(s, p, next, eff).procs, Apply(s, p, next, eff).disk)
  {
    var s' := Apply(s, p, next, eff);
    forall q | q in s'.procs ensures ClaimSafe(s'.disk, s'.procs[q]) {
      MovedOther(s, p, next, eff, q);
      if q == p { OwnSafe(s, p, next, eff); } else { OtherSafeAfter(s, p, next, eff, q); }
    }
  }

  lemma MovedOther(s: Sys, p: Pid, next: Option<Proc>, eff: Effect, q: Pid)
    requires eff.SetReady? ==> eff.img in s.images
    ensures q == p ==> (q in Apply(s, p, next, eff).procs <==> next.Some?)
    ensures q == p && next.Some? ==> Apply(s, p, next, eff).procs[q] == next.value
    ensures q != p ==> (q in Apply(s, p, next, eff).procs <==> q in s.procs)
    ensures q != p && q in s.procs ==> Apply(s, p, next, eff).procs[q] == s.procs[q]
  {
  }

  lemma StepKeepsIntact(s: Sys, p: Pid, next: Option<Proc>, eff: Effect)
    requires Step(s, p, next, eff) && Base(s) && IntactInv(s.procs, s.disk)
    ensures IntactInv(Apply(s, p, next, eff).procs, Apply(s, p, next, eff).disk)
  {
    if eff.Call? {
      CallIsCalling(s, p, next, eff);
      IntactAfterCall(s, p, next.value, eff.op, eff.gen);
    } else {
      QuietDisk(s, p, next, eff);
      IntactAfterOther(s, p, next, Apply(s, p, next, eff).disk.metas);
    }
  }

  // ------------------------------------------------------------------ names

  lemma OwnShape(s: Sys, p: Pid, next: Option<Proc>, eff: Effect)
    requires Step(s, p, next, eff) && next.Some? && ShapeInv(s.procs, s.tags)
    ensures Shape(p, next.value, Apply(s, p, next, eff).tags)
  {
    assert Shape(p, s.procs[p], s.tags);
    if s.procs[p].Creator? {
      CreatorShape(s.disk, p, s.procs[p], next.value, eff, s.tags);
    } else if s.procs[p].Cleaner? {
      CleanerShape(s, p, s.procs[p].kpc, next.value.kpc, eff);
    }
  }

  lemma ShapeMonotone(p: Pid, proc: Proc, tags: map<nat, Pid>, tag: nat, q: Pid)
    requires Shape(p, proc, tags) && tag !in tags
    ensures Shape(p, proc, tags[tag := q])
  {
  }

  lemma StepKeepsShape(s: Sys, p: Pid, next: Option<Proc>, eff: Effect)
    requires Step(s, p, next, eff) && ShapeInv(s.procs, s.tags)
    ensures ShapeInv(Apply(s, p, next, eff).procs, Apply(s, p, next, eff).tags)
  {
    var s' := Apply(s, p, next, eff);
    forall q | q in s'.procs ensures Shape(q, s'.procs[q], s'.tags) {
      if q == p {
        OwnShape(s, p, next, eff);
      } else {
        assert Shape(q, s.procs[q], s.tags);
        if eff.NewTag? { ShapeMonotone(q, s.procs[q], s.tags, eff.tag, p); }
      }
    }
  }

  /** Only CreateVolume makes a volume under a temporary name, and that name has been generated. */
  lemma TagsAfterCall(d: Disk<VolId>, op: Op<VolId>, gen: ShortId, tags: map<nat, Pid>)
    requires TagInv(d, tags)
    requires IsCreate(op) && op.id.Incomplete? ==> op.id.tag in tags
    requires IsMove(op) || op.MvMeta? ==> !op.to.Incomplete?
    ensures TagInv(OpStep(d, op, gen).disk, tags)
  {
  }

  lemma CallNames(s: Sys, p: Pid, op: Op<VolId>, gen: ShortId)
    requires ShapeInv(s.procs, s.tags) && LevelsInv(s.procs) && Calling(s, p, op, gen)
    ensures IsCreate(op) ==> op.id.Incomplete? && op.id.tag in s.tags
    ensures IsMove(op) || op.MvMeta? ==> !op.to.Incomplete?
  {
    assert Shape(p, s.procs[p], s.tags);
  }

  lemma NamesAfterCall(s: Sys, p: Pid, next: Option<Proc>, eff: Effect)
    requires Step(s, p, next, eff) && Base(s) && TagInv(s.disk, s.tags) && eff.Call?
    ensures var d' := OpStep(s.disk, eff.op, eff.gen).disk;
            ShortsInv(d', Used(eff.op, s.shorts, eff.gen)) && TagInv(d', s.tags)
  {
    CallIsCalling(s, p, next, eff);
    CallNames(s, p, eff.op, eff.gen);
    SafePreserved(s.disk, eff.op, eff.gen, s.shorts);
    TagsAfterCall(s.disk, eff.op, eff.gen, s.tags);
  }

  lemma StepKeepsNames(s: Sys, p: Pid, next: Option<Proc>, eff: Effect)
    requires Step(s, p, next, eff) && Base(s) && TagInv(s.disk, s.tags)
    ensures var s' := Apply(s, p, next, eff); ShortsInv(s'.disk, s'.shorts) && TagInv(s'.disk, s'.tags)
  {
    if eff.Call? { NamesAfterCall(s, p, next, eff); } else { QuietDisk(s, p, next, eff); }
  }

  // ------------------------------------------------------------------ locked layers

  lemma QuietUnlisted(d: Disk<VolId>, c: Proc, c': Proc, eff: Effect)
    requires c.Creator? && c'.Creator? && c'.top == c.top && CreatorMay(d, c, c'.cpc, eff) && !eff.Call?
    requires LevelsOk(c) && Unlisted(d, c.top, UnlistedFrom(c))
    ensures Unlisted(d, c'.top, UnlistedFrom(c'))
  {
  }

  lemma OtherDepth(top: Chain, k: nat, i: nat)
    requires k <= |top| && i <= |top| && k != i
    ensures Final(top[..k]) != Final(top[..i])
  {
    assert |top[..k]| == k && |top[..i]| == i;
  }

  /** A create's own call makes at most the layer it is building appear. */
  lemma OwnCallUnlisted(d: Disk<VolId>, p: Pid, c: Proc, c': Proc, eff: Effect, shorts: set<ShortId>, tags: map<nat, Pid>)
    requires c.Creator? && c'.Creator? && c'.top == c.top && CreatorMay(d, c, c'.cpc, eff) && eff.Call?
    requires LevelsOk(c) && Shape(p, c, tags) && OpSafe(d, eff.op) && ShortsInv(d, shorts)
    requires Unlisted(d, c.top, UnlistedFrom(c)) && (eff.op.CvSymlink? ==> eff.gen !in shorts)
    ensures Unlisted(OpStep(d, eff.op, eff.gen).disk, c'.top, UnlistedFrom(c'))
  {
    var i, d' := c.cpc.i, OpStep(d, eff.op, eff.gen).disk;
    forall k | 1 <= k && UnlistedFrom(c') <= k <= |c.top| ensures Final(c.top[..k]) !in d'.vols {
      if k != i {
        OtherDepth(c.top, k, i);
        SafeFrame(d, eff.op, eff.gen, shorts, Final(c.top[..k]));
      }
    }
  }

  lemma OtherUnlisted(s: Sys, p: Pid, op: Op<VolId>, gen: ShortId, q: Pid)
    requires Base(s) && Calling(s, p, op, gen) && q in s.procs && q != p && s.procs[q].Creator?
    ensures Unlisted(OpStep(s.disk, op, gen).disk, s.procs[q].top, UnlistedFrom(s.procs[q]))
  {
    var d', c := OpStep(s.disk, op, gen).disk, s.procs[q];
    assert Unlisted(s.disk, c.top, UnlistedFrom(c)) && LevelsOk(c);
    forall k | 1 <= k && UnlistedFrom(c) <= k <= |c.top| ensures Final(c.top[..k]) !in d'.vols {
      assert Holds(s.procs, q, c.top[..k]);
      FinalClaimant(s, q, p, c.top[..k]);
      assert !Claims(s.procs[p], Final(c.top[..k]));
      SafeFrame(s.disk, op, gen, s.shorts, Final(c.top[..k]));
    }
  }

  lemma UnlistedAfter(s: Sys, p: Pid, next: Option<Proc>, eff: Effect, q: Pid)
    requires Step(s, p, next, eff) && Base(s)
    requires q in Apply(s, p, next, eff).procs && Apply(s, p, next, eff).procs[q].Creator?
    ensures var c := Apply(s, p, next, eff).procs[q]; Unlisted(Apply(s, p, next, eff).disk, c.top, UnlistedFrom(c))
  {
    MovedOther(s, p, next, eff, q);
    if eff.Call? {
      CallIsCalling(s, p, next, eff);
      if q == p { OwnCallUnlistedOf(s, p, next.value, eff); } else { OtherUnlisted(s, p, eff.op, eff.gen, q); }
    } else {
      QuietDisk(s, p, next, eff);
      if q == p { OwnQuietUnlistedOf(s, p, next.value, eff); }
    }
  }

  lemma OwnCallUnlistedOf(s: Sys, p: Pid, next: Proc, eff: Effect)
    requires Step(s, p, Some(next), eff) && Base(s) && next.Creator? && eff.Call? && Calling(s, p, eff.op, eff.gen)
    ensures Unlisted(OpStep(s.disk, eff.op, eff.gen).disk, next.top, UnlistedFrom(next))
  {
    assert Shape(p, s.procs[p], s.tags) && LevelsOk(s.procs[p]);
    OwnCallUnlisted(s.disk, p, s.procs[p], next, eff, s.shorts, s.tags);
  }

  lemma OwnQuietUnlistedOf(s: Sys, p: Pid, next: Proc, eff: Effect)
    requires Step(s, p, Some(next), eff) && Base(s) && next.Creator? && !eff.Call?
    ensures Unlisted(s.disk, next.top, UnlistedFrom(next))
  {
    assert LevelsOk(s.procs[p]) && Unlisted(s.disk, s.procs[p].top, UnlistedFrom(s.procs[p]));
    QuietUnlisted(s.disk, s.procs[p], next, eff);
  }

  lemma StepKeepsLocked(s: Sys, p: Pid, next: Option<Proc>, eff: Effect)
    requires Step(s, p, next, eff) && Base(s)
    ensures LockedInv(Apply(s, p, next, eff).procs, Apply(s, p, next, eff).disk)
  {
    var s' := Apply(s, p, next, eff);
    forall q | q in s'.procs && s'.procs[q].Creator?
      ensures Unlisted(s'.disk, s'.procs[q].top, UnlistedFrom(s'.procs[q]))
    {
      UnlistedAfter(s, p, next, eff, q);
    }
  }

  // ------------------------------------------------------------------ all of it

  /** Any step keeps what is known of volumes and operations. */
  lemma StepKeepsBase(s: Sys, p: Pid, next: Option<Proc>, eff: Effect)
    requires Step(s, p, next, eff) && Base(s) && IntactInv(s.procs, s.disk) && TagInv(s.disk, s.tags)
    ensures var s' := Apply(s, p, next, eff); Base(s') && IntactInv(s'.procs, s'.disk) && TagInv(s'.disk, s'.tags)
  {
    Locking.StepKeepsLocks(s, p, next, eff);
    StepKeepsShape(s, p, next, eff);
    StepKeepsSafe(s, p, next, eff);
    StepKeepsNames(s, p, next, eff);
    StepKeepsLocked(s, p, next, eff);
    StepKeepsIntact(s, p, next, eff);
  }

  /** So does a crash of any process, wherever it is. */
  lemma CrashKeepsBase(s: Sys, p: Pid)
    requires p in s.procs && Base(s) && IntactInv(s.procs, s.disk) && TagInv(s.disk, s.tags)
    ensures var s' := Crashed(s, p); Base(s') && IntactInv(s'.procs, s'.disk) && TagInv(s'.disk, s'.tags)
  {
    Locking.CrashKeepsLocks(s, p);
    IntactAfterOther(s, p, None, s.disk.metas);
    assert s.disk.(metas := s.disk.metas) == s.disk;
  }
}
