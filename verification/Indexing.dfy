/** While no process crashes, link files, symlinks and directories agree, except where an operation in flight accounts
    for the difference, and every operation finds its entries exactly as it expects. */
module Indexing {
  import opened Wrappers
  import opened Disk
  import opened Protocol
  import opened Invariant
  import opened ClaimProofs
  import opened Surviving

  /** The claimed call of p, in a disk where p finds its entries as it expects. */
  ghost predicate Expecting(procs: map<Pid, Proc>, d: Disk<VolId>, shorts: set<ShortId>, p: Pid, op: Op<VolId>, gen: ShortId) {
    && p in procs && Claim(procs[p]) == Some(op)
    && OpOk(d, op) && ShortsInv(d, shorts) && (op.CvSymlink? ==> gen !in shorts)
  }

  ghost predicate ClaimOk(d: Disk<VolId>, proc: Proc) {
    Claim(proc).Some? ==> OpOk(d, Claim(proc).value)
  }

  lemma CallExpected(s: Sys, p: Pid, next: Option<Proc>, eff: Effect)
    requires Step(s, p, next, eff) && eff.Call? && ClaimsInv(s.procs, s.disk) && ShortsInv(s.disk, s.shorts)
    ensures next.Some? && Expecting(s.procs, s.disk, s.shorts, p, eff.op, eff.gen)
    ensures OpStep(s.disk, eff.op, eff.gen).outcome.Go? ==>
              Claim(next.value) == Some(OpStep(s.disk, eff.op, eff.gen).outcome.next)
  {
    CallIsClaim(s, p, next, eff);
  }

  // ------------------------------------------------------------------ volumes at rest

  lemma RestAfterCall(procs: map<Pid, Proc>, d: Disk<VolId>, shorts: set<ShortId>, p: Pid, next: Proc, op: Op<VolId>, gen: ShortId)
    requires RestInv(procs, d) && Expecting(procs, d, shorts, p, op, gen)
    requires OpStep(d, op, gen).outcome.Go? ==> Claim(next) == Some(OpStep(d, op, gen).outcome.next)
    ensures RestInv(procs[p := next], OpStep(d, op, gen).disk)
  {
    var d', procs' := OpStep(d, op, gen).disk, procs[p := next];
    OpPreserved(d, op, gen, shorts);
    forall v | v in d'.vols || v in d'.links
      ensures AtRest(d', v) || Claimed(procs', v)
    {
      if v in Ids(op) {
        if OpStep(d, op, gen).outcome.Go? {
          assert Claims(procs'[p], v);
        } else if OpStep(d, op, gen).outcome.Ok? {
          OpFinished(d, op, gen);
        }
      } else {
        OpFrame(d, op, gen, shorts, v);
        if !AtRest(d, v) {
          var q :| q in procs && Claims(procs[q], v);
          assert procs'[q] == procs[q];
        }
      }
    }
  }

  lemma RestAfterOther(procs: map<Pid, Proc>, d: Disk<VolId>, p: Pid, next: Option<Proc>, metas: map<VolId, int>)
    requires RestInv(procs, d) && p in procs
    requires forall v :: Claims(procs[p], v) && !(next.Some? && Claims(next.value, v)) ==> AtRest(d, v) || Absent(d, v)
    ensures RestInv(Moved(procs, p, next), d.(metas := metas))
  {
    var d', procs' := d.(metas := metas), Moved(procs, p, next);
    forall v | v in d'.vols || v in d'.links
      ensures AtRest(d', v) || Claimed(procs', v)
    {
      if !AtRest(d, v) {
        var q :| q in procs && Claims(procs[q], v);
        if q != p { assert q in procs' && procs'[q] == procs[q]; } else { assert Claims(procs'[p], v); }
      }
    }
  }

  // ------------------------------------------------------------------ symlinks

  lemma SymsAfterCall(procs: map<Pid, Proc>, d: Disk<VolId>, shorts: set<ShortId>, p: Pid, next: Proc, op: Op<VolId>, gen: ShortId)
    requires SymsInv(procs, d) && Expecting(procs, d, shorts, p, op, gen)
    requires OpStep(d, op, gen).outcome.Go? ==> Claim(next) == Some(OpStep(d, op, gen).outcome.next)
    ensures SymsInv(procs[p := next], OpStep(d, op, gen).disk)
  {
    var d', procs' := OpStep(d, op, gen).disk, procs[p := next];
    forall short | short in d'.syms
      ensures (d'.syms[short] in d'.links && d'.links[d'.syms[short]] == short)
              || exists q :: q in procs' && Pending(procs'[q], short)
    {
      if short in d.syms && !(d.syms[short] in d.links && d.links[d.syms[short]] == short) {
        var q :| q in procs && Pending(procs[q], short);
        if q != p { assert procs'[q] == procs[q]; }
      } else if !(d'.syms[short] in d'.links && d'.links[d'.syms[short]] == short) {
        SymOfOwnCall(d, op, gen, shorts, short);
        assert Pending(procs'[p], short);
      }
    }
  }

  /** A call that makes a symlink and its link file disagree leaves its own operation pending on it. */
  lemma SymOfOwnCall(d: Disk<VolId>, op: Op<VolId>, gen: ShortId, shorts: set<ShortId>, short: ShortId)
    requires OpOk(d, op) && ShortsInv(d, shorts) && (op.CvSymlink? ==> gen !in shorts)
    requires short in d.syms ==> d.syms[short] in d.links && d.links[d.syms[short]] == short
    requires var d' := OpStep(d, op, gen).disk;
             short in d'.syms && !(d'.syms[short] in d'.links && d'.links[d'.syms[short]] == short)
    ensures var out := OpStep(d, op, gen).outcome;
            out.Go? && (out.next.CvLink? || out.next.MvUnlink?) && out.next.short == short
  {
  }

  lemma SymsAfterOther(procs: map<Pid, Proc>, d: Disk<VolId>, p: Pid, next: Option<Proc>, metas: map<VolId, int>)
    requires SymsInv(procs, d) && p in procs
    requires forall short :: !Pending(procs[p], short)
    ensures SymsInv(Moved(procs, p, next), d.(metas := metas))
  {
    var procs' := Moved(procs, p, next);
    forall short | short in d.syms && !(d.syms[short] in d.links && d.links[d.syms[short]] == short)
      ensures exists q :: q in procs' && Pending(procs'[q], short)
    {
      var q :| q in procs && Pending(procs[q], short);
      assert q != p && q in procs' && procs'[q] == procs[q];
    }
  }

  /** No volume is left disturbed when a process lets go of a claim without a call. */
  lemma QuietDrops(s: Sys, p: Pid, next: Option<Proc>, eff: Effect, v: VolId)
    requires Step(s, p, next, eff) && !eff.Call? && LevelsInv(s.procs) && ClaimsInv(s.procs, s.disk)
    requires Claims(s.procs[p], v) && !(next.Some? && Claims(next.value, v))
    ensures AtRest(s.disk, v) || Absent(s.disk, v)
  {
    assert ClaimOk(s.disk, s.procs[p]);
    if s.procs[p].Creator? { assert LevelsOk(s.procs[p]); }
  }

  lemma NotPendingQuiet(s: Sys, p: Pid, next: Option<Proc>, eff: Effect, short: ShortId)
    requires Step(s, p, next, eff) && !eff.Call?
    ensures !Pending(s.procs[p], short)
  {
  }

  lemma QuietKeepsRest(s: Sys, p: Pid, next: Option<Proc>, eff: Effect)
    requires Step(s, p, next, eff) && !eff.Call? && LevelsInv(s.procs) && ClaimsInv(s.procs, s.disk)
    requires RestInv(s.procs, s.disk) && SymsInv(s.procs, s.disk)
    ensures var procs', d' := Moved(s.procs, p, next), Apply(s, p, next, eff).disk; RestInv(procs', d') && SymsInv(procs', d')
  {
    var metas := Apply(s, p, next, eff).disk.metas;
    QuietDisk(s, p, next, eff);
    forall v | Claims(s.procs[p], v) && !(next.Some? && Claims(next.value, v))
      ensures AtRest(s.disk, v) || Absent(s.disk, v)
    {
      QuietDrops(s, p, next, eff, v);
    }
    forall short ensures !Pending(s.procs[p], short) { NotPendingQuiet(s, p, next, eff, short); }
    RestAfterOther(s.procs, s.disk, p, next, metas);
    SymsAfterOther(s.procs, s.disk, p, next, metas);
  }

  lemma StepKeepsRest(s: Sys, p: Pid, next: Option<Proc>, eff: Effect)
    requires Step(s, p, next, eff) && Base(s) && ClaimsInv(s.procs, s.disk)
    requires RestInv(s.procs, s.disk) && SymsInv(s.procs, s.disk)
    ensures var s' := Apply(s, p, next, eff); RestInv(s'.procs, s'.disk) && SymsInv(s'.procs, s'.disk)
  {
    if eff.Call? {
      CallExpected(s, p, next, eff);
      RestAfterCall(s.procs, s.disk, s.shorts, p, next.value, eff.op, eff.gen);
      SymsAfterCall(s.procs, s.disk, s.shorts, p, next.value, eff.op, eff.gen);
    } else {
      QuietKeepsRest(s, p, next, eff);
    }
  }

  // ------------------------------------------------------------------ what a create expects

  /** A locked layer is found unpublished: it has no link file either, and stays so until p publishes it. */
  lemma FoundUnpublished(s: Sys, p: Pid, i: nat)
    requires Base(s) && RestInv(s.procs, s.disk) && p in s.procs && s.procs[p].Creator?
    requires s.procs[p].cpc == Recheck(i) && 1 <= i <= |s.procs[p].top|
    requires Final(s.procs[p].top[..i]) !in s.disk.vols
    ensures Absent(s.disk, Final(s.procs[p].top[..i]))
  {
    var c := s.procs[p].top[..i];
    assert Holds(s.procs, p, c);
    forall q | q in s.procs ensures !Claims(s.procs[q], Final(c)) { FinalClaimant(s, p, q, c); }
  }

  ghost predicate UnlinkedOk(d: Disk<VolId>, c: Proc)
    requires c.Creator?
  {
    Unpublished(d, c.top, AbsentFrom(c))
  }

  /** A step without a call: the next driver operation starts from names that are as it needs them. */
  lemma QuietLocal(d: Disk<VolId>, c: Proc, c': Proc, eff: Effect, tags: map<nat, Pid>)
    requires c.Creator? && c'.Creator? && c'.top == c.top && CreatorMay(d, c, c'.cpc, eff) && !eff.Call?
    requires LevelsOk(c) && UnlinkedOk(d, c) && ClaimOk(d, c) && TagInv(d, tags) && (eff.NewTag? ==> eff.tag !in tags)
    requires c.cpc.Recheck? && Final(c.top[..c.cpc.i]) !in d.vols ==> Absent(d, Final(c.top[..c.cpc.i]))
    ensures UnlinkedOk(d, c') && ClaimOk(d, c')
  {
  }

  /** The layers of `top` are no more and no less published in d' than in d, except perhaps at depth i. */
  ghost predicate SameLayers(d: Disk<VolId>, d': Disk<VolId>, top: Chain, i: nat) {
    forall k :: 1 <= k <= |top| && k != i ==>
      && (Final(top[..k]) in d'.vols <==> Final(top[..k]) in d.vols)
      && (Final(top[..k]) in d'.links <==> Final(top[..k]) in d.links)
  }

  /** A call on the temporary volume and the final name of depth i. */
  lemma OwnFrame(d: Disk<VolId>, op: Op<VolId>, gen: ShortId, shorts: set<ShortId>, top: Chain, i: nat)
    requires OpOk(d, op) && ShortsInv(d, shorts) && (op.CvSymlink? ==> gen !in shorts)
    requires i <= |top| && forall v :: v in Ids(op) ==> v.Incomplete? || v == Final(top[..i])
    ensures SameLayers(d, OpStep(d, op, gen).disk, top, i)
  {
    forall k | 1 <= k <= |top| && k != i
      ensures var d', v := OpStep(d, op, gen).disk, Final(top[..k]);
              (v in d'.vols <==> v in d.vols) && (v in d'.links <==> v in d.links)
    {
      OtherDepth(top, k, i);
      OpFrame(d, op, gen, shorts, Final(top[..k]));
    }
  }

  /** A call of CreateVolume on a temporary name. */
  lemma MakingLocal(d: Disk<VolId>, c: Proc, c': Proc, eff: Effect, p: Pid, tags: map<nat, Pid>, shorts: set<ShortId>)
    requires c.Creator? && c'.Creator? && c'.top == c.top && CreatorMay(d, c, c'.cpc, eff) && c.cpc.Making?
    requires LevelsOk(c) && UnlinkedOk(d, c) && Shape(p, c, tags) && OpOk(d, eff.op)
    requires ShortsInv(d, shorts) && (eff.op.CvSymlink? ==> eff.gen !in shorts)
    ensures UnlinkedOk(OpStep(d, eff.op, eff.gen).disk, c') && ClaimOk(OpStep(d, eff.op, eff.gen).disk, c')
  {
    var i := c.cpc.i;
    OwnFrame(d, eff.op, eff.gen, shorts, c.top, i);
    OpFrame(d, eff.op, eff.gen, shorts, Final(c.top[..i]));
    OpPreserved(d, eff.op, eff.gen, shorts);
  }

  /** DestroyVolume of a chain id that is not published changes nothing but stale metadata. */
  lemma UndoLocal(d: Disk<VolId>, c: Proc, c': Proc, eff: Effect, p: Pid, tags: map<nat, Pid>)
    requires c.Creator? && c'.Creator? && c'.top == c.top && CreatorMay(d, c, c'.cpc, eff) && c.cpc.Undo?
    requires LevelsOk(c) && UnlinkedOk(d, c) && Shape(p, c, tags) && OpOk(d, eff.op)
    ensures var d' := OpStep(d, eff.op, eff.gen).disk;
            && UnlinkedOk(d', c') && ClaimOk(d', c')
            && d'.vols == d.vols && d'.links == d.links && d'.syms == d.syms
  {
    assert Absent(d, Final(c.top[..c.cpc.i]));
  }

  /** A call of MoveVolume from the temporary to the final name. */
  lemma MovingLocal(d: Disk<VolId>, c: Proc, c': Proc, eff: Effect, p: Pid, tags: map<nat, Pid>, shorts: set<ShortId>)
    requires c.Creator? && c'.Creator? && c'.top == c.top && CreatorMay(d, c, c'.cpc, eff) && c.cpc.Moving?
    requires LevelsOk(c) && UnlinkedOk(d, c) && Shape(p, c, tags) && OpOk(d, eff.op) && ShortsInv(d, shorts)
    ensures UnlinkedOk(OpStep(d, eff.op, eff.gen).disk, c') && ClaimOk(OpStep(d, eff.op, eff.gen).disk, c')
  {
    OwnFrame(d, eff.op, eff.gen, shorts, c.top, c.cpc.i);
    OpPreserved(d, eff.op, eff.gen, shorts);
  }

  ghost predicate CreatorExpects(s: Sys, p: Pid)
    requires p in s.procs && s.procs[p].Creator?
  {
    && LevelsOk(s.procs[p]) && Shape(p, s.procs[p], s.tags)
    && UnlinkedOk(s.disk, s.procs[p]) && ClaimOk(s.disk, s.procs[p])
  }

  lemma CreatorCall(s: Sys, p: Pid, next: Proc, eff: Effect)
    requires Step(s, p, Some(next), eff) && s.procs[p].Creator? && CreatorExpects(s, p)
    requires eff.Call? && Claim(s.procs[p]) == Some(eff.op) && ShortsInv(s.disk, s.shorts)
    ensures UnlinkedOk(OpStep(s.disk, eff.op, eff.gen).disk, next)
    ensures ClaimOk(OpStep(s.disk, eff.op, eff.gen).disk, next)
  {
    var c := s.procs[p];
    if c.cpc.Making? {
      MakingLocal(s.disk, c, next, eff, p, s.tags, s.shorts);
    } else if c.cpc.Undo? {
      UndoLocal(s.disk, c, next, eff, p, s.tags);
    } else {
      MovingLocal(s.disk, c, next, eff, p, s.tags, s.shorts);
    }
  }

  lemma MetaIrrelevant(d: Disk<VolId>, proc: Proc, metas: map<VolId, int>)
    ensures ClaimOk(d, proc) <==> ClaimOk(d.(metas := metas), proc)
  {
  }

  lemma CreatorQuiet(s: Sys, p: Pid, next: Proc, eff: Effect)
    requires Step(s, p, Some(next), eff) && !eff.Call? && s.procs[p].Creator? && CreatorExpects(s, p)
    requires Base(s) && TagInv(s.disk, s.tags) && RestInv(s.procs, s.disk)
    ensures next.Creator? && UnlinkedOk(s.disk, next) && ClaimOk(s.disk, next)
  {
    var c := s.procs[p];
    if c.cpc.Recheck? && Final(c.top[..c.cpc.i]) !in s.disk.vols { FoundUnpublished(s, p, c.cpc.i); }
    QuietLocal(s.disk, c, next, eff, s.tags);
  }

  /** After its own step, a create's claim and what it knows of its locked layers hold. */
  lemma CreatorStepOk(s: Sys, p: Pid, next: Option<Proc>, eff: Effect)
    requires Step(s, p, next, eff) && next.Some? && s.procs[p].Creator? && Base(s) && TagInv(s.disk, s.tags)
    requires ClaimsInv(s.procs, s.disk) && RestInv(s.procs, s.disk) && UnlinkedInv(s.procs, s.disk)
    ensures next.value.Creator? && UnlinkedOk(Apply(s, p, next, eff).disk, next.value)
    ensures ClaimOk(Apply(s, p, next, eff).disk, next.value)
  {
    var c := s.procs[p];
    assert LevelsOk(c) && Shape(p, c, s.tags) && UnlinkedOk(s.disk, c) && ClaimOk(s.disk, c);
    if eff.Call? {
      CallExpected(s, p, next, eff);
      CreatorCall(s, p, next.value, eff);
    } else {
      CreatorQuiet(s, p, next.value, eff);
      QuietDisk(s, p, next, eff);
      MetaIrrelevant(s.disk, next.value, Apply(s, p, next, eff).disk.metas);
    }
  }

  // ------------------------------------------------------------------ what a clean expects

  /** While p holds the exclusive lock and has no operation in flight, every volume is at rest. */
  lemma ExclusiveAtRest(s: Sys, p: Pid, v: VolId)
    requires Base(s) && RestInv(s.procs, s.disk) && s.excl == Some(p) && Claim(s.procs[p]).None?
    requires v in s.disk.vols || v in s.disk.links
    ensures AtRest(s.disk, v)
  {
    forall q | q in s.procs ensures !Claims(s.procs[q], v) { Claimant(s, q, v); }
  }

  /** While p holds the GC lock and has no operation in flight, every gc volume is at rest. */
  lemma GcAtRest(s: Sys, p: Pid, v: VolId)
    requires Base(s) && RestInv(s.procs, s.disk) && s.gcLock == Some(p) && Claim(s.procs[p]).None?
    requires v.Gc? && (v in s.disk.vols || v in s.disk.links)
    ensures AtRest(s.disk, v)
  {
    forall q | q in s.procs ensures !Claims(s.procs[q], v) { Claimant(s, q, v); }
  }

  lemma CleanerQuietClaim(s: Sys, p: Pid, pc': CleanerPc, eff: Effect)
    requires Base(s) && RestInv(s.procs, s.disk) && p in s.procs && s.procs[p].Cleaner?
    requires CleanerMay(s, s.procs[p].kpc, pc', eff) && !eff.Call? && CleanOk(s.disk, s.procs[p].kpc)
    ensures ClaimOk(s.disk, Cleaner(pc'))
  {
    var pc := s.procs[p].kpc;
    TakesOne(s, pc, pc', eff);
    if pc.Mark? && pc'.Marking? {
      ExclusiveAtRest(s, p, pc'.vol);
    } else if pc.Collect? && pc'.Collecting? {
      assert pc'.vol.Gc?;
      if pc'.vol in s.disk.vols || pc'.vol in s.disk.links { GcAtRest(s, p, pc'.vol); }
    }
  }

  /** A move that has just ended leaves the metadata rename what it expects. */
  lemma CleanerCallClaim(s: Sys, p: Pid, pc': CleanerPc, eff: Effect)
    requires p in s.procs && s.procs[p].Cleaner? && Shape(p, s.procs[p], s.tags) && ShortsInv(s.disk, s.shorts)
    requires ClaimOk(s.disk, s.procs[p]) && CleanerMay(s, s.procs[p].kpc, pc', eff) && eff.Call?
    ensures ClaimOk(OpStep(s.disk, eff.op, eff.gen).disk, Cleaner(pc'))
  {
    OpPreserved(s.disk, eff.op, eff.gen, s.shorts);
  }

  lemma CleanerStepClaim(s: Sys, p: Pid, next: Option<Proc>, eff: Effect)
    requires Step(s, p, next, eff) && next.Some? && s.procs[p].Cleaner? && Base(s) && CleanOk(s.disk, s.procs[p].kpc)
    requires ClaimsInv(s.procs, s.disk) && RestInv(s.procs, s.disk)
    ensures ClaimOk(Apply(s, p, next, eff).disk, next.value)
  {
    assert Shape(p, s.procs[p], s.tags) && ClaimOk(s.disk, s.procs[p]);
    if eff.Call? {
      CleanerCallClaim(s, p, next.value.kpc, eff);
    } else {
      CleanerQuietClaim(s, p, next.value.kpc, eff);
      QuietDisk(s, p, next, eff);
      MetaIrrelevant(s.disk, next.value, Apply(s, p, next, eff).disk.metas);
    }
  }

  // ------------------------------------------------------------------ claims and locked layers of all processes

  /** The other operations in flight are not disturbed by p's call. */
  lemma OthersAfterCall(s: Sys, p: Pid, op: Op<VolId>, gen: ShortId, q: Pid)
    requires Base(s) && ClaimsInv(s.procs, s.disk) && Expecting(s.procs, s.disk, s.shorts, p, op, gen)
    requires q in s.procs && q != p && Claim(s.procs[q]).Some?
    ensures OpOk(OpStep(s.disk, op, gen).disk, Claim(s.procs[q]).value)
  {
    forall v | v in Ids(op) ensures v !in Ids(Claim(s.procs[q]).value) {
      assert Claims(s.procs[p], v);
      ClaimsDisjoint(s, p, q, v);
      assert !Claims(s.procs[q], v);
    }
    OpNoninterference(s.disk, op, Claim(s.procs[q]).value, gen, s.shorts);
  }

  lemma OtherClaim(s: Sys, p: Pid, next: Option<Proc>, eff: Effect, q: Pid)
    requires Step(s, p, next, eff) && Base(s) && ClaimsInv(s.procs, s.disk) && q in s.procs && q != p
    ensures ClaimOk(Apply(s, p, next, eff).disk, s.procs[q])
  {
    assert ClaimOk(s.disk, s.procs[q]);
    if eff.Call? {
      CallExpected(s, p, next, eff);
      if Claim(s.procs[q]).Some? { OthersAfterCall(s, p, eff.op, eff.gen, q); }
    } else {
      QuietDisk(s, p, next, eff);
      MetaIrrelevant(s.disk, s.procs[q], Apply(s, p, next, eff).disk.metas);
    }
  }

  lemma OwnClaim(s: Sys, p: Pid, next: Option<Proc>, eff: Effect)
    requires Step(s, p, next, eff) && next.Some? && Base(s) && TagInv(s.disk, s.tags)
    requires s.procs[p].Cleaner? ==> CleanOk(s.disk, s.procs[p].kpc)
    requires ClaimsInv(s.procs, s.disk) && RestInv(s.procs, s.disk) && UnlinkedInv(s.procs, s.disk)
    ensures ClaimOk(Apply(s, p, next, eff).disk, next.value)
  {
    if s.procs[p].Creator? {
      CreatorStepOk(s, p, next, eff);
    } else if s.procs[p].Cleaner? {
      CleanerStepClaim(s, p, next, eff);
    }
  }

  lemma StepKeepsClaims(s: Sys, p: Pid, next: Option<Proc>, eff: Effect)
    requires Step(s, p, next, eff) && Base(s) && TagInv(s.disk, s.tags)
    requires s.procs[p].Cleaner? ==> CleanOk(s.disk, s.procs[p].kpc)
    requires ClaimsInv(s.procs, s.disk) && RestInv(s.procs, s.disk) && UnlinkedInv(s.procs, s.disk)
    ensures ClaimsInv(Apply(s, p, next, eff).procs, Apply(s, p, next, eff).disk)
  {
    var s' := Apply(s, p, next, eff);
    forall q | q in s'.procs ensures ClaimOk(s'.disk, s'.procs[q]) {
      MovedOther(s, p, next, eff, q);
      if q == p { OwnClaim(s, p, next, eff); } else { OtherClaim(s, p, next, eff, q); }
    }
  }

  /** The layers that another create has found unpublished and locked stay so. */
  lemma OtherUnlinked(s: Sys, p: Pid, op: Op<VolId>, gen: ShortId, q: Pid)
    requires Base(s) && UnlinkedInv(s.procs, s.disk) && Expecting(s.procs, s.disk, s.shorts, p, op, gen)
    requires q in s.procs && q != p && s.procs[q].Creator?
    ensures UnlinkedOk(OpStep(s.disk, op, gen).disk, s.procs[q])
  {
    var d', c := OpStep(s.disk, op, gen).disk, s.procs[q];
    assert UnlinkedOk(s.disk, c) && LevelsOk(c);
    forall k | 1 <= k && AbsentFrom(c) <= k <= |c.top| ensures Absent(d', Final(c.top[..k])) {
      assert Holds(s.procs, q, c.top[..k]);
      FinalClaimant(s, q, p, c.top[..k]);
      assert !Claims(s.procs[p], Final(c.top[..k]));
      OpFrame(s.disk, op, gen, s.shorts, Final(c.top[..k]));
    }
  }

  lemma UnlinkedAfter(s: Sys, p: Pid, next: Option<Proc>, eff: Effect, q: Pid)
    requires Step(s, p, next, eff) && Base(s) && TagInv(s.disk, s.tags)
    requires ClaimsInv(s.procs, s.disk) && RestInv(s.procs, s.disk) && UnlinkedInv(s.procs, s.disk)
    requires q in Apply(s, p, next, eff).procs && Apply(s, p, next, eff).procs[q].Creator?
    ensures UnlinkedOk(Apply(s, p, next, eff).disk, Apply(s, p, next, eff).procs[q])
  {
    MovedOther(s, p, next, eff, q);
    if q == p {
      if s.procs[p].Creator? { CreatorStepOk(s, p, next, eff); }
    } else if eff.Call? {
      CallExpected(s, p, next, eff);
      OtherUnlinked(s, p, eff.op, eff.gen, q);
    } else {
      assert UnlinkedOk(s.disk, s.procs[q]);
      QuietDisk(s, p, next, eff);
    }
  }

  lemma StepKeepsUnlinked(s: Sys, p: Pid, next: Option<Proc>, eff: Effect)
    requires Step(s, p, next, eff) && Base(s) && TagInv(s.disk, s.tags)
    requires ClaimsInv(s.procs, s.disk) && RestInv(s.procs, s.disk) && UnlinkedInv(s.procs, s.disk)
    ensures UnlinkedInv(Apply(s, p, next, eff).procs, Apply(s, p, next, eff).disk)
  {
    var s' := Apply(s, p, next, eff);
    forall q | q in s'.procs && s'.procs[q].Creator? ensures UnlinkedOk(s'.disk, s'.procs[q]) {
      UnlinkedAfter(s, p, next, eff, q);
    }
  }
}
