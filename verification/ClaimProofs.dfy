/** Operations in flight own disjoint sets of volume names, and so never disturb one another. */
module ClaimProofs {
  import opened Wrappers
  import opened Disk
  import opened Protocol
  import opened Invariant

  lemma CreatorClaims(procs: map<Pid, Proc>, tags: map<nat, Pid>, p: Pid, v: VolId)
    requires p in procs && procs[p].Creator? && Shape(p, procs[p], tags) && LevelsOk(procs[p])
    ensures Claims(procs[p], v) ==> Sharing(procs[p])
    ensures Claims(procs[p], v) ==>
              (v.Incomplete? && Tagged(tags, v.tag, p)) || (v.Final? && Holds(procs, p, v.chain))
  {
  }

  lemma CleanerClaims(p: Pid, proc: Proc, tags: map<nat, Pid>, v: VolId)
    requires proc.Cleaner? && Shape(p, proc, tags)
    ensures Claims(proc, v) ==> Cleaning(proc) && (v.Gc? || Excluding(proc))
  {
  }

  /** Who may claim a volume name: a create that holds its chain lock or has made up the name, or the clean. */
  ghost predicate MayClaim(s: Sys, p: Pid, v: VolId)
    requires p in s.procs
  {
    || (Sharing(s.procs[p]) && v.Incomplete? && Tagged(s.tags, v.tag, p))
    || (Sharing(s.procs[p]) && v.Final? && Holds(s.procs, p, v.chain))
    || (Cleaning(s.procs[p]) && (v.Gc? || Excluding(s.procs[p])))
  }

  lemma Claimant(s: Sys, p: Pid, v: VolId)
    requires ShapeInv(s.procs, s.tags) && LevelsInv(s.procs) && p in s.procs
    ensures Claims(s.procs[p], v) ==> MayClaim(s, p, v)
  {
    assert Shape(p, s.procs[p], s.tags);
    if s.procs[p].Creator? {
      CreatorClaims(s.procs, s.tags, p, v);
    } else if s.procs[p].Cleaner? {
      CleanerClaims(p, s.procs[p], s.tags, v);
    }
  }

  /** No volume name is claimed by two processes. */
  lemma ClaimsDisjoint(s: Sys, p: Pid, q: Pid, v: VolId)
    requires LocksInv(s) && ShapeInv(s.procs, s.tags) && p in s.procs && q in s.procs
    ensures Claims(s.procs[p], v) && Claims(s.procs[q], v) ==> p == q
  {
    Claimant(s, p, v);
    Claimant(s, q, v);
  }

  /** A driver call is the claimed one; afterwards the process claims the next call, or has finished. */
  predicate CallClaim(proc: Proc, next: Option<Proc>, eff: Effect) {
    eff.Call? ==> next.Some? && Claim(proc) == Some(eff.op)
  }

  lemma CallIsClaim(s: Sys, p: Pid, next: Option<Proc>, eff: Effect)
    requires Step(s, p, next, eff)
    ensures CallClaim(s.procs[p], next, eff)
    ensures eff.Call? && OpStep(s.disk, eff.op, eff.gen).outcome.Go? ==>
              Claim(next.value) == Some(OpStep(s.disk, eff.op, eff.gen).outcome.next)
  {
  }

  /** Every process keeps working on the names that go with it. */
  lemma CreatorShape(d: Disk<VolId>, p: Pid, c: Proc, c': Proc, eff: Effect, tags: map<nat, Pid>)
    requires c.Creator? && c'.Creator? && c'.top == c.top && CreatorMay(d, c, c'.cpc, eff) && Shape(p, c, tags)
    requires eff.NewTag? ==> eff.tag !in tags
    ensures Shape(p, c', if eff.NewTag? then tags[eff.tag := p] else tags)
  {
    if eff.Call? && OpStep(d, eff.op, eff.gen).outcome.Go? {
      IdsOfNext(d, eff.op, eff.gen);
    }
  }

  lemma CleanerShape(s: Sys, p: Pid, pc: CleanerPc, pc': CleanerPc, eff: Effect)
    requires CleanerMay(s, pc, pc', eff) && Shape(p, Cleaner(pc), s.tags)
    ensures Shape(p, Cleaner(pc'), s.tags)
    ensures !eff.NewTag?
  {
    if eff.Call? && OpStep(s.disk, eff.op, eff.gen).outcome.Go? {
      IdsOfNext(s.disk, eff.op, eff.gen);
    }
  }
}
