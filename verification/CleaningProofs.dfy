/** While no clean is cut off with work left, the clean that holds the GC lock is right about the orphans it has found and the volumes
    it has marked. */
module CleaningProofs {
  import opened Wrappers
  import opened Disk
  import opened Protocol
  import opened Invariant
  import opened ClaimProofs
  import opened Surviving
  import opened Publishing

  /** Taking a whole chain of dependencies off the orphan list keeps the rest of the list closed under children. */
  lemma SpareChain(vols: set<VolId>, orphans: set<VolId>, chain: Chain)
    requires Closed(vols) && ClosedExcept(vols, orphans)
    ensures ClosedExcept(vols, orphans - Needs(chain))
  {
    forall c | Final(c) in vols && Final(c) !in orphans - Needs(chain) && |c| > 1
      ensures Final(Parent(c)) in vols && Final(Parent(c)) !in orphans - Needs(chain)
    {
      if Final(c) in Needs(chain) {
        var k :| 1 <= k <= |chain| && Final(c) == Final(chain[..k]);
        assert Parent(c) == chain[..k - 1];
        assert Final(Parent(c)) in Needs(chain);
      }
    }
  }

  lemma ScanDepsOk(s: Sys, orphans: set<VolId>, images: set<ImageId>, pc': CleanerPc)
    requires CleanerMay(s, ScanDeps(orphans, images), pc', Nothing) && CleanOk(s.disk, ScanDeps(orphans, images))
    ensures CleanOk(s.disk, pc')
  {
    if images != {} {
      var img :| img in images &&
        pc' == (if img in s.deps then ScanDeps(orphans - Needs(s.deps[img]), images - {img}) else Mark({}));
      if img in s.deps {
        SpareChain(s.disk.vols, orphans, s.deps[img]);
      }
    }
  }

  /** The published volumes of a set have their link files. */
  ghost predicate FinalsLinked(d: Disk<VolId>, vs: set<VolId>) {
    forall v :: v in vs && v.Final? ==> v in d.links
  }

  lemma TakeOneOk(s: Sys, pc: CleanerPc, pc': CleanerPc)
    requires CleanerMay(s, pc, pc', Nothing) && (pc.Mark? || pc.Collect?) && CleanOk(s.disk, pc)
    requires pc.Mark? ==> FinalsLinked(s.disk, pc.todo)
    ensures CleanOk(s.disk, pc')
  {
    match pc
    case Mark(todo) =>
      if todo != {} {
        var v :| v in todo && pc' == Marking(v, todo - {v}, MvStat(v, Gc(v)));
        assert todo - {v} + {v} == todo;
      }
    case Collect(todo) =>
      if todo != {} {
        var v :| v in todo && pc' == Collecting(v, todo - {v}, DvRead(v));
        assert todo - {v} + {v} == todo;
      }
  }

  /** Steps of a clean that make no driver call. The hypotheses are what the lock table and the index supply. */
  lemma CleanQuiet(s: Sys, pc: CleanerPc, pc': CleanerPc, eff: Effect)
    requires CleanerMay(s, pc, pc', eff) && !eff.Call? && CleanOk(s.disk, pc)
    requires pc.WantGc? ==> NoGc(s.disk)
    requires pc.WantExcl? && eff.LockExcl? ==> Closed(s.disk.vols)
    requires pc.Mark? ==> FinalsLinked(s.disk, pc.todo)
    ensures CleanOk(s.disk, pc')
  {
    if pc.ScanDeps? {
      ScanDepsOk(s, pc.orphans, pc.images, pc');
    } else if pc.Mark? || pc.Collect? {
      TakeOneOk(s, pc, pc');
    }
  }

  // ------------------------------------------------------------------ marking and collecting

  /** A call on v and its gc name leaves the orphans still to do, and the other gc names, as they are. */
  lemma MarkingFrame(d: Disk<VolId>, op: Op<VolId>, gen: ShortId, shorts: set<ShortId>, v: VolId, todo: set<VolId>)
    requires OpSafe(d, op) && ShortsInv(d, shorts) && (op.CvSymlink? ==> gen !in shorts)
    requires Ids(op) == {v, Gc(v)} && v !in todo && !v.Gc? && OrphansOk(d, todo) && GcPaired(d, Some(v))
    ensures OrphansOk(OpStep(d, op, gen).disk, todo) && GcPaired(OpStep(d, op, gen).disk, Some(v))
  {
    var d' := OpStep(d, op, gen).disk;
    forall w | w in todo ensures w in d'.vols && Absent(d', Gc(w)) {
      SafeFrame(d, op, gen, shorts, w);
      SafeFrame(d, op, gen, shorts, Gc(w));
    }
    forall w | Gc(w) in d'.links && w != v ensures Gc(w) in d'.vols {
      SafeFrame(d, op, gen, shorts, Gc(w));
    }
  }

  /** How far marking v has come after the next call. */
  lemma MarkProceeds(d: Disk<VolId>, shorts: set<ShortId>, v: VolId, todo: set<VolId>, op: Op<VolId>, gen: ShortId)
    requires OpSafe(d, op) && ShortsInv(d, shorts) && MarkOk(d, v, op) && !v.Gc?
    requires (IsMove(op) || op.MvMeta?) && op.from == v && op.to == Gc(v)
    ensures var r := OpStep(d, op, gen);
            match AfterMarking(v, todo, op, r.outcome)
            case Marking(_, _, op') => MarkOk(r.disk, v, op')
            case _ => (Gc(v) in r.disk.links ==> Gc(v) in r.disk.vols) && (v.Final? ==> v !in r.disk.vols)
  {
  }

  /** Marking v takes it off the volumes, at most. */
  lemma MarkVols(d: Disk<VolId>, v: VolId, op: Op<VolId>, gen: ShortId)
    requires (IsMove(op) || op.MvMeta?) && op.from == v && op.to == Gc(v)
    ensures forall c :: Final(c) in OpStep(d, op, gen).disk.vols ==> Final(c) in d.vols
    ensures forall c :: Final(c) in d.vols && Final(c) != v ==> Final(c) in OpStep(d, op, gen).disk.vols
  {
  }

  lemma MarkingClosed(vols: set<VolId>, vols': set<VolId>, v: VolId, todo: set<VolId>)
    requires ClosedExcept(vols, todo + {v})
    requires forall c :: Final(c) in vols' ==> Final(c) in vols
    requires forall c :: Final(c) in vols && Final(c) != v ==> Final(c) in vols'
    ensures ClosedExcept(vols', todo + {v})
    ensures v !in vols' || !v.Final? ==> ClosedExcept(vols', todo)
  {
  }

  lemma MarkingOk(d: Disk<VolId>, shorts: set<ShortId>, p: Pid, tags: map<nat, Pid>,
                  v: VolId, todo: set<VolId>, op: Op<VolId>, gen: ShortId)
    requires CleanOk(d, Marking(v, todo, op)) && Shape(p, Cleaner(Marking(v, todo, op)), tags)
    requires OpSafe(d, op) && ShortsInv(d, shorts)
    ensures var r := OpStep(d, op, gen); CleanOk(r.disk, AfterMarking(v, todo, op, r.outcome))
  {
    var r := OpStep(d, op, gen);
    MarkingFrame(d, op, gen, shorts, v, todo);
    MarkProceeds(d, shorts, v, todo, op, gen);
    MarkVols(d, v, op, gen);
    MarkingClosed(d.vols, r.disk.vols, v, todo);
  }

  lemma CollectingOk(d: Disk<VolId>, shorts: set<ShortId>, p: Pid, tags: map<nat, Pid>,
                     v: VolId, todo: set<VolId>, op: Op<VolId>, gen: ShortId)
    requires CleanOk(d, Collecting(v, todo, op)) && Shape(p, Cleaner(Collecting(v, todo, op)), tags)
    requires OpSafe(d, op) && ShortsInv(d, shorts)
    ensures var r := OpStep(d, op, gen); CleanOk(r.disk, AfterCollecting(v, todo, r.outcome))
  {
  }

  lemma CleanerCallOk(s: Sys, p: Pid, pc': CleanerPc, eff: Effect)
    requires Base(s) && p in s.procs && s.procs[p].Cleaner? && CleanOk(s.disk, s.procs[p].kpc)
    requires CleanerMay(s, s.procs[p].kpc, pc', eff) && eff.Call?
    ensures CleanOk(OpStep(s.disk, eff.op, eff.gen).disk, pc')
  {
    var pc := s.procs[p].kpc;
    assert Shape(p, s.procs[p], s.tags) && ClaimSafe(s.disk, s.procs[p]);
    if pc.Marking? {
      MarkingOk(s.disk, s.shorts, p, s.tags, pc.vol, pc.todo, pc.op, eff.gen);
    } else {
      CollectingOk(s.disk, s.shorts, p, s.tags, pc.vol, pc.todo, pc.op, eff.gen);
    }
  }

  // ------------------------------------------------------------------ what the locks supply

  /** While p holds the exclusive lock and has no operation in flight, every published volume has its link file. */
  lemma ExclusiveLinked(s: Sys, p: Pid, v: VolId)
    requires Base(s) && LinkedInv(s.procs, s.disk) && s.excl == Some(p) && Claim(s.procs[p]).None?
    requires v in s.disk.vols && v.Final?
    ensures v in s.disk.links
  {
    forall q | q in s.procs ensures !Claims(s.procs[q], v) { PublishedClaim(s, q, v); }
    assert v == Final(v.chain);
  }

  lemma CleanerQuietOk(s: Sys, p: Pid, pc': CleanerPc, eff: Effect)
    requires Base(s) && LinkedInv(s.procs, s.disk) && ClosureInv(s.disk, s.excl) && CleanInv(s.procs, s.disk, s.gcLock)
    requires p in s.procs && s.procs[p].Cleaner? && CleanOk(s.disk, s.procs[p].kpc)
    requires CleanerMay(s, s.procs[p].kpc, pc', eff) && Enabled(s, eff) && !eff.Call?
    ensures CleanOk(s.disk, pc')
  {
    var pc := s.procs[p].kpc;
    if pc.Mark? {
      forall v | v in pc.todo && v.Final? ensures v in s.disk.links { ExclusiveLinked(s, p, v); }
    }
    CleanQuiet(s, pc, pc', eff);
  }

  lemma CleanNeedsNoMetas(d: Disk<VolId>, pc: CleanerPc, metas: map<VolId, int>)
    requires CleanOk(d, pc)
    ensures CleanOk(d.(metas := metas), pc)
  {
  }

  /** After its own step, what a clean knows of its volumes holds. */
  lemma CleanerStepOk(s: Sys, p: Pid, next: Option<Proc>, eff: Effect)
    requires Base(s) && LinkedInv(s.procs, s.disk) && ClosureInv(s.disk, s.excl) && CleanInv(s.procs, s.disk, s.gcLock)
    requires Step(s, p, next, eff) && next.Some? && s.procs[p].Cleaner?
    ensures CleanOk(Apply(s, p, next, eff).disk, next.value.kpc)
  {
    KnownClean(s, p);
    if eff.Call? {
      CleanerCallOk(s, p, next.value.kpc, eff);
    } else {
      CleanerQuietOk(s, p, next.value.kpc, eff);
      QuietDisk(s, p, next, eff);
      CleanNeedsNoMetas(s.disk, next.value.kpc, Apply(s, p, next, eff).disk.metas);
    }
  }

  // ------------------------------------------------------------------ steps of others

  ghost predicate SameGc(d: Disk<VolId>, d': Disk<VolId>) {
    forall w :: (Gc(w) in d'.vols <==> Gc(w) in d.vols) && (Gc(w) in d'.links <==> Gc(w) in d.links)
  }

  /** A create's call leaves gc names alone. */
  lemma GcFrame(s: Sys, p: Pid, op: Op<VolId>, gen: ShortId)
    requires Base(s) && Calling(s, p, op, gen) && s.procs[p].Creator?
    ensures SameGc(s.disk, OpStep(s.disk, op, gen).disk)
  {
    forall w
      ensures var d' := OpStep(s.disk, op, gen).disk;
              (Gc(w) in d'.vols <==> Gc(w) in s.disk.vols) && (Gc(w) in d'.links <==> Gc(w) in s.disk.links)
    {
      CreatorClaims(s.procs, s.tags, p, Gc(w));
      assert !Claims(s.procs[p], Gc(w));
      SafeFrame(s.disk, op, gen, s.shorts, Gc(w));
    }
  }

  lemma GcFrameAll(s: Sys, p: Pid, next: Option<Proc>, eff: Effect)
    requires Step(s, p, next, eff) && Base(s) && (eff.Call? ==> s.procs[p].Creator?)
    ensures SameGc(s.disk, Apply(s, p, next, eff).disk)
  {
    if eff.Call? {
      CallIsCalling(s, p, next, eff);
      GcFrame(s, p, eff.op, eff.gen);
    } else {
      QuietDisk(s, p, next, eff);
    }
  }

  /** Outside the part that holds the exclusive lock, a clean relies on gc names only. */
  lemma GcOnlyFrame(d: Disk<VolId>, d': Disk<VolId>, pc: CleanerPc)
    requires CleanOk(d, pc) && !Excluding(Cleaner(pc)) && SameGc(d, d')
    ensures CleanOk(d', pc)
  {
  }

  lemma CallersShare(s: Sys, p: Pid, next: Option<Proc>, eff: Effect)
    requires Step(s, p, next, eff)
    ensures eff.Call? && !Cleaning(s.procs[p]) ==> Sharing(s.procs[p])
  {
  }

  /** The clean that holds the GC lock is not disturbed by a step of another process. */
  lemma OtherCleanOk(s: Sys, p: Pid, next: Option<Proc>, eff: Effect, k: Pid)
    requires Step(s, p, next, eff) && Base(s) && k != p && s.gcLock == Some(k)
    requires CleanInv(s.procs, s.disk, s.gcLock)
    ensures CleanOk(Apply(s, p, next, eff).disk, s.procs[k].kpc)
  {
    var s' := Apply(s, p, next, eff);
    CallersShare(s, p, next, eff);
    if Sharing(s.procs[p]) {
      GcFrameAll(s, p, next, eff);
      GcOnlyFrame(s.disk, s'.disk, s.procs[k].kpc);
    } else {
      QuietDisk(s, p, next, eff);
      CleanNeedsNoMetas(s.disk, s.procs[k].kpc, s'.disk.metas);
    }
  }

  /** When the GC lock is free after a step, no gc volume was left before it. */
  lemma NoCallUnlocked(s: Sys, p: Pid, next: Option<Proc>, eff: Effect)
    requires Step(s, p, next, eff) && LocksInv(s) && CleanInv(s.procs, s.disk, s.gcLock)
    requires Apply(s, p, next, eff).gcLock.None?
    ensures NoGc(s.disk) && (eff.Call? ==> s.procs[p].Creator?)
  {
  }

  lemma CleanUnlocked(s: Sys, p: Pid, next: Option<Proc>, eff: Effect)
    requires Step(s, p, next, eff) && Base(s) && CleanInv(s.procs, s.disk, s.gcLock)
    requires Apply(s, p, next, eff).gcLock.None?
    ensures NoGc(Apply(s, p, next, eff).disk)
  {
    NoCallUnlocked(s, p, next, eff);
    GcFrameAll(s, p, next, eff);
  }

  lemma HolderCleans(s: Sys, p: Pid, next: Option<Proc>, eff: Effect)
    requires Step(s, p, next, eff) && LocksInv(s) && LocksInv(Apply(s, p, next, eff))
    requires Apply(s, p, next, eff).gcLock == Some(p)
    ensures s.procs[p].Cleaner? && next.Some? && next.value.Cleaner?
  {
  }

  lemma GcLockKept(s: Sys, p: Pid, next: Option<Proc>, eff: Effect)
    requires Step(s, p, next, eff) && Apply(s, p, next, eff).gcLock.Some? && Apply(s, p, next, eff).gcLock.value != p
    ensures Apply(s, p, next, eff).gcLock == s.gcLock
  {
  }

  lemma StepKeepsClean(s: Sys, p: Pid, next: Option<Proc>, eff: Effect)
    requires Step(s, p, next, eff) && Base(s) && LocksInv(Apply(s, p, next, eff))
    requires LinkedInv(s.procs, s.disk) && ClosureInv(s.disk, s.excl) && CleanInv(s.procs, s.disk, s.gcLock)
    ensures var s' := Apply(s, p, next, eff); CleanInv(s'.procs, s'.disk, s'.gcLock)
  {
    var s' := Apply(s, p, next, eff);
    if s'.gcLock.None? {
      CleanUnlocked(s, p, next, eff);
    } else if s'.gcLock.value == p {
      HolderCleans(s, p, next, eff);
      CleanerStepOk(s, p, next, eff);
    } else {
      GcLockKept(s, p, next, eff);
      OtherCleanOk(s, p, next, eff, s'.gcLock.value);
      MovedOther(s, p, next, eff, s'.gcLock.value);
    }
  }
}
