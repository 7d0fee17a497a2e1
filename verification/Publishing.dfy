/** While no clean is cut off with work left, published layers keep their link files, their metadata and their parents. */
module Publishing {
  import opened Wrappers
  import opened Disk
  import opened Protocol
  import opened Invariant
  import opened ClaimProofs
  import opened Surviving

  lemma PublishedAtRest(s: Sys, c: Chain)
    requires Base(s) && IntactInv(s.procs, s.disk) && LinkedInv(s.procs, s.disk)
    requires s.excl.None? && Final(c) in s.disk.vols
    ensures AtRest(s.disk, Final(c))
  {
    forall q | q in s.procs ensures !Claims(s.procs[q], Final(c)) { PublishedClaim(s, q, Final(c)); }
  }

  /** Ancestor closure, iterated: with a layer all layers below it are published. */
  lemma {:induction false} ClosedDown(d: Disk<VolId>, top: Chain, i: nat)
    requires Closed(d.vols) && i <= |top| && (i >= 1 ==> Final(top[..i]) in d.vols)
    ensures Pulled(d, top, i)
  {
    if i > 1 {
      assert Parent(top[..i]) == top[..i - 1];
      ClosedDown(d, top, i - 1);
    }
  }

  // ------------------------------------------------------------------ what a create has pulled

  /** A layer is found published: by closure all layers below it are. */
  lemma FoundPublished(s: Sys, p: Pid, i: nat)
    requires LocksInv(s) && ClosureInv(s.disk, s.excl) && p in s.procs && s.procs[p].Creator? && Sharing(s.procs[p])
    requires 1 <= i <= |s.procs[p].top| && Final(s.procs[p].top[..i]) in s.disk.vols
    ensures Pulled(s.disk, s.procs[p].top, i)
  {
    assert s.excl.None?;
    ClosedDown(s.disk, s.procs[p].top, i);
  }

  /** A step without a call, from what the create has just seen of the layer it looks at. */
  lemma QuietPulled(d: Disk<VolId>, c: Proc, c': Proc, eff: Effect)
    requires c.Creator? && c'.Creator? && c'.top == c.top && CreatorMay(d, c, c'.cpc, eff)
    requires !eff.Call? && LevelsOk(c) && PulledOk(d, c)
    requires (c.cpc.Check? || c.cpc.Recheck?) && 1 <= c.cpc.i && Final(c.top[..c.cpc.i]) in d.vols ==>
               Pulled(d, c.top, c.cpc.i)
    ensures PulledOk(if eff.WriteMeta? then d.(metas := d.metas[eff.vol := eff.size]) else d, c')
  {
  }

  lemma OwnQuietPulled(s: Sys, p: Pid, c': Proc, eff: Effect)
    requires LocksInv(s) && PulledInv(s.procs, s.disk) && ClosureInv(s.disk, s.excl) && p in s.procs && s.procs[p].Creator?
    requires c'.Creator? && c'.top == s.procs[p].top && CreatorMay(s.disk, s.procs[p], c'.cpc, eff) && !eff.Call?
    ensures PulledOk(if eff.WriteMeta? then s.disk.(metas := s.disk.metas[eff.vol := eff.size]) else s.disk, c')
  {
    var c := s.procs[p];
    assert PulledOk(s.disk, c) && LevelsOk(c);
    if (c.cpc.Check? || c.cpc.Recheck?) && 1 <= c.cpc.i && Final(c.top[..c.cpc.i]) in s.disk.vols {
      FoundPublished(s, p, c.cpc.i);
    }
    QuietPulled(s.disk, c, c', eff);
  }

  /** A create's own call leaves the layers below the one it is building alone, and its last rename publishes that. */
  lemma OwnCallPulled(d: Disk<VolId>, p: Pid, c: Proc, c': Proc, eff: Effect, shorts: set<ShortId>, tags: map<nat, Pid>)
    requires c.Creator? && c'.Creator? && c'.top == c.top && CreatorMay(d, c, c'.cpc, eff) && eff.Call?
    requires LevelsOk(c) && Shape(p, c, tags) && PulledOk(d, c) && OpSafe(d, eff.op) && ShortsInv(d, shorts)
    requires eff.op.CvSymlink? ==> eff.gen !in shorts
    ensures PulledOk(OpStep(d, eff.op, eff.gen).disk, c')
  {
    var i, d' := c.cpc.i, OpStep(d, eff.op, eff.gen).disk;
    forall k | 1 <= k <= PulledTo(c') && k <= |c.top| ensures Final(c.top[..k]) in d'.vols {
      if k != i {
        OtherDepth(c.top, k, i);
        SafeFrame(d, eff.op, eff.gen, shorts, Final(c.top[..k]));
      }
    }
  }

  /** What another create has pulled survives p's call. */
  lemma OtherPulled(s: Sys, p: Pid, op: Op<VolId>, gen: ShortId, q: Pid)
    requires Base(s) && PulledInv(s.procs, s.disk) && Calling(s, p, op, gen)
    requires q in s.procs && q != p && s.procs[q].Creator?
    ensures PulledOk(OpStep(s.disk, op, gen).disk, s.procs[q])
  {
    var d', c := OpStep(s.disk, op, gen).disk, s.procs[q];
    assert PulledOk(s.disk, c) && LevelsOk(c);
    forall k | 1 <= k <= PulledTo(c) && k <= |c.top| ensures Final(c.top[..k]) in d'.vols {
      FinalFrame(s, p, op, gen, Final(c.top[..k]));
    }
    if c.cpc.Moving? && c.cpc.i <= |c.top| {
      var v := Final(c.top[..c.cpc.i]);
      assert Shape(q, c, s.tags) && Claims(c, v);
      ClaimsDisjoint(s, p, q, v);
      assert !Claims(s.procs[p], v);
      SafeFrame(s.disk, op, gen, s.shorts, v);
    }
  }

  lemma PulledAfter(s: Sys, p: Pid, next: Option<Proc>, eff: Effect, q: Pid)
    requires Step(s, p, next, eff) && Base(s) && PulledInv(s.procs, s.disk) && ClosureInv(s.disk, s.excl)
    requires q in Apply(s, p, next, eff).procs && Apply(s, p, next, eff).procs[q].Creator?
    ensures PulledOk(Apply(s, p, next, eff).disk, Apply(s, p, next, eff).procs[q])
  {
    MovedOther(s, p, next, eff, q);
    if eff.Call? {
      CallIsCalling(s, p, next, eff);
      if q == p { OwnCallPulledOf(s, p, next.value, eff); } else { OtherPulled(s, p, eff.op, eff.gen, q); }
    } else if q == p {
      OwnQuietPulled(s, p, next.value, eff);
      QuietMetas(s, p, next, eff);
    } else {
      QuietDisk(s, p, next, eff);
      assert PulledOk(s.disk, s.procs[q]);
    }
  }

  lemma QuietMetas(s: Sys, p: Pid, next: Option<Proc>, eff: Effect)
    requires Step(s, p, next, eff) && !eff.Call?
    ensures Apply(s, p, next, eff).disk
            == if eff.WriteMeta? then s.disk.(metas := s.disk.metas[eff.vol := eff.size]) else s.disk
  {
  }

  lemma OwnCallPulledOf(s: Sys, p: Pid, next: Proc, eff: Effect)
    requires Step(s, p, Some(next), eff) && Base(s) && PulledInv(s.procs, s.disk)
    requires next.Creator? && eff.Call? && Calling(s, p, eff.op, eff.gen)
    ensures PulledOk(OpStep(s.disk, eff.op, eff.gen).disk, next)
  {
    var c := s.procs[p];
    assert Shape(p, c, s.tags) && LevelsOk(c) && PulledOk(s.disk, c);
    OwnCallPulled(s.disk, p, c, next, eff, s.shorts, s.tags);
  }

  lemma StepKeepsPulled(s: Sys, p: Pid, next: Option<Proc>, eff: Effect)
    requires Step(s, p, next, eff) && Base(s) && PulledInv(s.procs, s.disk) && ClosureInv(s.disk, s.excl)
    ensures PulledInv(Apply(s, p, next, eff).procs, Apply(s, p, next, eff).disk)
  {
    var s' := Apply(s, p, next, eff);
    forall q | q in s'.procs && s'.procs[q].Creator? ensures PulledOk(s'.disk, s'.procs[q]) {
      PulledAfter(s, p, next, eff, q);
    }
  }

  // ------------------------------------------------------------------ what a call may do to published layers

  /** Nothing stands where a volume is moved to. A volume is published with its metadata, and marked from its place
      with its link file; its metadata follows when it is gone. Nothing published is made or destroyed. */
  predicate OpOrderly(d: Disk<VolId>, op: Op<VolId>) {
    && (IsMove(op) ==> op.to !in d.vols)
    && (IsMove(op) && op.to.Final? ==> op.to in d.metas)
    && ((op.MvStat? || op.MvRead?) && op.from.Final? ==> op.from in d.vols && op.from in d.links)
    && (op.MvMeta? ==> op.from !in d.vols && !op.to.Final?)
    && (IsDestroy(op) && op.id.Final? ==> op.id !in d.vols)
    && (IsCreate(op) ==> !op.id.Final?)
  }

  lemma KnownClean(s: Sys, p: Pid)
    requires LocksInv(s) && CleanInv(s.procs, s.disk, s.gcLock) && p in s.procs
    ensures s.procs[p].Cleaner? ==> CleanOk(s.disk, s.procs[p].kpc)
  {
  }

  /** A process makes a call only in the middle of an operation. */
  predicate InOperation(proc: Proc) {
    match proc
    case Creator(_, _, pc) => pc.Making? || pc.Undo? || pc.Moving?
    case Cleaner(pc) => pc.Marking? || pc.Collecting?
    case Deleter(_, _) => false
  }

  lemma CallsInOperation(s: Sys, p: Pid, next: Option<Proc>, eff: Effect)
    requires Step(s, p, next, eff) && eff.Call?
    ensures InOperation(s.procs[p])
  {
  }

  lemma CallOrderly(s: Sys, p: Pid, op: Op<VolId>, gen: ShortId)
    requires Base(s) && Calling(s, p, op, gen) && InOperation(s.procs[p])
    requires PulledInv(s.procs, s.disk) && CleanInv(s.procs, s.disk, s.gcLock)
    ensures OpOrderly(s.disk, op)
  {
    var proc := s.procs[p];
    assert Shape(p, proc, s.tags);
    ClaimSpot(s, p);
    KnownClean(s, p);
    if proc.Creator? { assert PulledOk(s.disk, proc) && LevelsOk(proc); }
  }

  lemma MetaAfterCall(d: Disk<VolId>, op: Op<VolId>, gen: ShortId)
    requires MetaInv(d) && OpSafe(d, op) && OpOrderly(d, op)
    ensures MetaInv(OpStep(d, op, gen).disk)
  {
  }

  lemma StepKeepsMeta(s: Sys, p: Pid, next: Option<Proc>, eff: Effect)
    requires Step(s, p, next, eff) && Base(s) && MetaInv(s.disk)
    requires PulledInv(s.procs, s.disk) && CleanInv(s.procs, s.disk, s.gcLock)
    ensures MetaInv(Apply(s, p, next, eff).disk)
  {
    if eff.Call? {
      CallIsCalling(s, p, next, eff);
      CallsInOperation(s, p, next, eff);
      CallOrderly(s, p, eff.op, eff.gen);
      MetaAfterCall(s.disk, eff.op, eff.gen);
    } else {
      QuietDisk(s, p, next, eff);
    }
  }

  // ------------------------------------------------------------------ link files

  /** When an operation on a published volume ends, the volume has its link file or is no longer published. */
  lemma LinkedAtEnd(d: Disk<VolId>, op: Op<VolId>, gen: ShortId, v: VolId)
    requires OpSafe(d, op) && OpOrderly(d, op) && v in Ids(op) && v.Final? && !OpStep(d, op, gen).outcome.Go?
    requires op.MvMeta? ==> op.from == v
    ensures var d' := OpStep(d, op, gen).disk; v in d'.vols ==> v in d'.links
  {
  }

  lemma LinkedAfterCall(s: Sys, p: Pid, next: Proc, op: Op<VolId>, gen: ShortId)
    requires Base(s) && LinkedInv(s.procs, s.disk) && Calling(s, p, op, gen) && OpOrderly(s.disk, op)
    requires OpStep(s.disk, op, gen).outcome.Go? ==> Claim(next) == Some(OpStep(s.disk, op, gen).outcome.next)
    ensures LinkedInv(s.procs[p := next], OpStep(s.disk, op, gen).disk)
  {
    var d', procs' := OpStep(s.disk, op, gen).disk, s.procs[p := next];
    SafePreserved(s.disk, op, gen, s.shorts);
    forall c | Final(c) in d'.vols ensures Final(c) in d'.links || Claimed(procs', Final(c)) {
      var v := Final(c);
      if v in Ids(op) {
        if OpStep(s.disk, op, gen).outcome.Go? { assert Claims(procs'[p], v); } else { LinkedAtEnd(s.disk, op, gen, v); }
      } else {
        SafeFrame(s.disk, op, gen, s.shorts, v);
        if v !in s.disk.links {
          var q :| q in s.procs && Claims(s.procs[q], v);
          assert procs'[q] == s.procs[q];
        }
      }
    }
  }

  /** A process that claims a published layer makes a call in its next step. */
  lemma ClaimerCalls(s: Sys, p: Pid, next: Option<Proc>, eff: Effect, c: Chain)
    requires Step(s, p, next, eff) && Base(s) && Final(c) in s.disk.vols && !eff.Call?
    ensures !Claims(s.procs[p], Final(c))
  {
    PublishedClaim(s, p, Final(c));
  }

  lemma StepKeepsLinked(s: Sys, p: Pid, next: Option<Proc>, eff: Effect)
    requires Step(s, p, next, eff) && Base(s) && LinkedInv(s.procs, s.disk)
    requires PulledInv(s.procs, s.disk) && CleanInv(s.procs, s.disk, s.gcLock)
    ensures LinkedInv(Apply(s, p, next, eff).procs, Apply(s, p, next, eff).disk)
  {
    var s' := Apply(s, p, next, eff);
    if eff.Call? {
      CallIsCalling(s, p, next, eff);
      CallsInOperation(s, p, next, eff);
      CallOrderly(s, p, eff.op, eff.gen);
      LinkedAfterCall(s, p, next.value, eff.op, eff.gen);
    } else {
      QuietDisk(s, p, next, eff);
      forall c | Final(c) in s.disk.vols && Final(c) !in s.disk.links
        ensures Claimed(s'.procs, Final(c))
      {
        ClaimerCalls(s, p, next, eff, c);
        var q :| q in s.procs && Claims(s.procs[q], Final(c));
        MovedOther(s, p, next, eff, q);
      }
    }
  }

  // ------------------------------------------------------------------ closure

  /** A layer is given its final name only when the layer below it is there. */
  predicate ParentThere(d: Disk<VolId>, op: Op<VolId>) {
    && (IsMove(op) && op.to.Final? && |op.to.chain| > 1 ==> Final(Parent(op.to.chain)) in d.vols)
    && (IsMove(op) ==> !op.from.Final?)
  }

  lemma CallParent(s: Sys, p: Pid, op: Op<VolId>, gen: ShortId)
    requires Base(s) && Calling(s, p, op, gen) && InOperation(s.procs[p]) && PulledInv(s.procs, s.disk) && s.excl.None?
    ensures ParentThere(s.disk, op)
  {
    var c := s.procs[p];
    assert Shape(p, c, s.tags);
    if c.Creator? && IsMove(op) {
      assert PulledOk(s.disk, c) && LevelsOk(c);
      var i := c.cpc.i;
      if i > 1 { assert Parent(c.top[..i]) == c.top[..i - 1]; }
    }
  }

  lemma ClosedAfterCall(d: Disk<VolId>, op: Op<VolId>, gen: ShortId)
    requires Closed(d.vols) && OpOrderly(d, op) && ParentThere(d, op)
    ensures Closed(OpStep(d, op, gen).disk.vols)
  {
  }

  lemma UnlockExclPc(s: Sys, p: Pid, next: Option<Proc>, eff: Effect)
    requires Step(s, p, next, eff) && eff.UnlockExcl?
    ensures s.procs[p].Cleaner? && s.procs[p].kpc.DropExcl?
  {
  }

  lemma UnlockClosed(s: Sys, p: Pid, next: Option<Proc>, eff: Effect)
    requires Step(s, p, next, eff) && LocksInv(s) && !eff.Call? && ClosureInv(s.disk, s.excl)
    requires CleanInv(s.procs, s.disk, s.gcLock)
    requires Apply(s, p, next, eff).excl.None?
    ensures Closed(s.disk.vols)
  {
    if eff.UnlockExcl? {
      UnlockExclPc(s, p, next, eff);
      KnownClean(s, p);
    }
  }

  lemma StepKeepsClosure(s: Sys, p: Pid, next: Option<Proc>, eff: Effect)
    requires Step(s, p, next, eff) && Base(s) && ClosureInv(s.disk, s.excl)
    requires PulledInv(s.procs, s.disk) && CleanInv(s.procs, s.disk, s.gcLock)
    ensures ClosureInv(Apply(s, p, next, eff).disk, Apply(s, p, next, eff).excl)
  {
    var s' := Apply(s, p, next, eff);
    if s'.excl.None? {
      if eff.Call? {
        CallIsCalling(s, p, next, eff);
        CallsInOperation(s, p, next, eff);
        CallOrderly(s, p, eff.op, eff.gen);
        CallParent(s, p, eff.op, eff.gen);
        ClosedAfterCall(s.disk, eff.op, eff.gen);
      } else {
        QuietDisk(s, p, next, eff);
        UnlockClosed(s, p, next, eff);
      }
    }
  }
}
