/** Every step keeps the flock table in agreement with the processes. */
module Locking {
  import opened Wrappers
  import opened Disk
  import opened Protocol
  import opened Invariant

  /** How a step of a create moves through its chain locks. */
  lemma CreatorLocal(d: Disk<VolId>, c: Proc, c': Proc, eff: Effect)
    requires c.Creator? && LevelsOk(c) && c'.Creator? && c'.top == c.top && CreatorMay(d, c, c'.cpc, eff)
    ensures LevelsOk(c') && Sharing(c') && (eff.LockShared? <==> c.cpc.WantShared?)
    ensures !eff.UnlockShared? && !eff.LockExcl? && !eff.UnlockExcl? && !eff.LockGc? && !eff.UnlockGc?
    ensures match eff
            case LockChain(x) =>
              && Lowest(c) == Lowest(c') + 1 && 1 <= Lowest(c') <= |c.top| && x == c.top[..Lowest(c')]
            case UnlockChain(x) =>
              && Lowest(c') == Lowest(c) + 1 && 1 <= Lowest(c) <= |c.top| && x == c.top[..Lowest(c)]
            case _ => Lowest(c') == Lowest(c) || (Lowest(c) > |c.top| && Lowest(c') > |c.top|)
  {
  }

  lemma CleanerLocal(s: Sys, pc: CleanerPc, pc': CleanerPc, eff: Effect)
    requires CleanerMay(s, pc, pc', eff)
    ensures (eff.LockGc? <==> pc.WantGc?) && Cleaning(Cleaner(pc'))
    ensures !eff.LockShared? && !eff.UnlockShared? && !eff.LockChain? && !eff.UnlockChain? && !eff.UnlockGc?
    ensures eff.LockExcl? ==> !Excluding(Cleaner(pc)) && Excluding(Cleaner(pc'))
    ensures eff.UnlockExcl? ==> Excluding(Cleaner(pc)) && !Excluding(Cleaner(pc'))
    ensures !eff.LockExcl? && !eff.UnlockExcl? ==> Excluding(Cleaner(pc)) == Excluding(Cleaner(pc'))
  {
  }

  /** The entry of p changes from `proc` to `next`; everything the lock invariant says about others stands. */
  ghost predicate LockEffect(proc: Proc, next: Option<Proc>, eff: Effect) {
    && (eff.LockShared? ==> !Sharing(proc) && next.Some? && Sharing(next.value))
    && (eff.UnlockShared? ==> Sharing(proc) && next.None?)
    && (!eff.LockShared? && !eff.UnlockShared? ==> Sharing(proc) == (next.Some? && Sharing(next.value)))
    && (eff.LockExcl? ==> !Excluding(proc) && next.Some? && Excluding(next.value))
    && (eff.UnlockExcl? ==> Excluding(proc) && next.Some? && !Excluding(next.value))
    && (!eff.LockExcl? && !eff.UnlockExcl? ==> Excluding(proc) == (next.Some? && Excluding(next.value)))
    && (eff.LockGc? ==> !Cleaning(proc) && next.Some? && Cleaning(next.value))
    && (eff.UnlockGc? ==> Cleaning(proc) && next.None?)
    && (!eff.LockGc? && !eff.UnlockGc? ==> Cleaning(proc) == (next.Some? && Cleaning(next.value)))
  }

  lemma StepLocal(s: Sys, p: Pid, next: Option<Proc>, eff: Effect)
    requires Step(s, p, next, eff) && LevelsInv(s.procs)
    ensures LockEffect(s.procs[p], next, eff)
    ensures next.Some? && next.value.Creator? ==> LevelsOk(next.value)
  {
    var proc := s.procs[p];
    if next.Some? {
      if proc.Creator? {
        CreatorLocal(s.disk, proc, next.value, eff);
      } else if proc.Cleaner? {
        CleanerLocal(s, proc.kpc, next.value.kpc, eff);
      }
    }
  }

  lemma StepKeepsShared(s: Sys, p: Pid, next: Option<Proc>, eff: Effect)
    requires p in s.procs && Enabled(s, eff) && LockEffect(s.procs[p], next, eff) && SharedInv(s.procs, s.shared)
    ensures SharedInv(Apply(s, p, next, eff).procs, Apply(s, p, next, eff).shared)
  {
  }

  lemma StepKeepsExcl(s: Sys, p: Pid, next: Option<Proc>, eff: Effect)
    requires p in s.procs && Enabled(s, eff) && LockEffect(s.procs[p], next, eff)
    requires ExclInv(s.procs, s.shared, s.excl)
    ensures var s' := Apply(s, p, next, eff); ExclInv(s'.procs, s'.shared, s'.excl)
  {
  }

  lemma StepKeepsGc(s: Sys, p: Pid, next: Option<Proc>, eff: Effect)
    requires p in s.procs && Enabled(s, eff) && LockEffect(s.procs[p], next, eff) && GcInv(s.procs, s.gcLock)
    ensures GcInv(Apply(s, p, next, eff).procs, Apply(s, p, next, eff).gcLock)
  {
  }

  lemma TakeChain(procs: map<Pid, Proc>, locks: map<Chain, Pid>, p: Pid, c': Proc)
    requires ChainInv(procs, locks) && p in procs && procs[p].Creator? && c'.Creator? && c'.top == procs[p].top
    requires Lowest(procs[p]) == Lowest(c') + 1 && 1 <= Lowest(c') <= |c'.top|
    requires c'.top[..Lowest(c')] !in locks
    ensures ChainInv(procs[p := c'], locks[c'.top[..Lowest(c')] := p])
  {
    var procs' := procs[p := c'];
    var x := c'.top[..Lowest(c')];
    assert forall q, c :: q != p ==> (Holds(procs', q, c) <==> Holds(procs, q, c));
    assert forall c :: Holds(procs', p, c) <==> c == x || Holds(procs, p, c);
  }

  lemma DropChain(procs: map<Pid, Proc>, locks: map<Chain, Pid>, p: Pid, c': Proc)
    requires ChainInv(procs, locks) && p in procs && procs[p].Creator? && c'.Creator? && c'.top == procs[p].top
    requires Lowest(c') == Lowest(procs[p]) + 1 && 1 <= Lowest(procs[p]) <= |c'.top|
    ensures ChainInv(procs[p := c'], locks - {c'.top[..Lowest(procs[p])]})
  {
    var procs' := procs[p := c'];
    var x := c'.top[..Lowest(procs[p])];
    assert Holds(procs, p, x);
    assert forall q, c :: q != p ==> (Holds(procs', q, c) <==> Holds(procs, q, c));
    assert forall c :: Holds(procs', p, c) <==> c != x && Holds(procs, p, c);
  }

  /** The held locks do not change: same depths, or none before and after. */
  lemma SameChains(procs: map<Pid, Proc>, locks: map<Chain, Pid>, p: Pid, next: Option<Proc>)
    requires ChainInv(procs, locks) && p in procs
    requires SameLocks(procs[p], next)
    ensures ChainInv(Moved(procs, p, next), locks)
  {
    assert forall q, c :: Holds(Moved(procs, p, next), q, c) <==> Holds(procs, q, c);
  }

  predicate SameLocks(proc: Proc, next: Option<Proc>) {
    if proc.Creator? && next.Some? then
      && next.value.Creator? && next.value.top == proc.top
      && (Lowest(next.value) == Lowest(proc) || (Lowest(proc) > |proc.top| && Lowest(next.value) > |proc.top|))
    else
      (proc.Creator? ==> Lowest(proc) > |proc.top|) && (next.Some? ==> !next.value.Creator?)
  }

  /** A process takes the lock just above its lowest, drops its lowest, or holds the same locks as before. */
  predicate ChainEffect(proc: Proc, next: Option<Proc>, eff: Effect) {
    if eff.LockChain? then
      && proc.Creator? && next.Some? && next.value.Creator? && next.value.top == proc.top
      && Lowest(proc) == Lowest(next.value) + 1 && 1 <= Lowest(next.value) <= |proc.top|
      && eff.chain == proc.top[..Lowest(next.value)]
    else if eff.UnlockChain? then
      && proc.Creator? && next.Some? && next.value.Creator? && next.value.top == proc.top
      && Lowest(next.value) == Lowest(proc) + 1 && 1 <= Lowest(proc) <= |proc.top|
      && eff.chain == proc.top[..Lowest(proc)]
    else
      SameLocks(proc, next)
  }

  lemma StepChains(s: Sys, p: Pid, next: Option<Proc>, eff: Effect)
    requires Step(s, p, next, eff) && LevelsInv(s.procs)
    ensures ChainEffect(s.procs[p], next, eff)
  {
    if s.procs[p].Creator? && next.Some? {
      CreatorLocal(s.disk, s.procs[p], next.value, eff);
    } else {
      NoChainEffect(s, s.procs[p], next, eff);
    }
  }

  lemma StepKeepsChains(s: Sys, p: Pid, next: Option<Proc>, eff: Effect)
    requires p in s.procs && Enabled(s, eff) && ChainEffect(s.procs[p], next, eff)
    requires ChainInv(s.procs, s.chainLocks)
    ensures ChainInv(Apply(s, p, next, eff).procs, Apply(s, p, next, eff).chainLocks)
  {
    if eff.LockChain? {
      TakeChain(s.procs, s.chainLocks, p, next.value);
    } else if eff.UnlockChain? {
      DropChain(s.procs, s.chainLocks, p, next.value);
    } else {
      SameChains(s.procs, s.chainLocks, p, next);
    }
  }

  lemma NoChainEffect(s: Sys, proc: Proc, next: Option<Proc>, eff: Effect)
    requires May(s, proc, next, eff) && !(proc.Creator? && next.Some?)
    ensures !eff.LockChain? && !eff.UnlockChain? && SameLocks(proc, next)
  {
  }

  lemma StepKeepsLevels(s: Sys, p: Pid, next: Option<Proc>, eff: Effect)
    requires p in s.procs && Enabled(s, eff) && LevelsInv(s.procs)
    requires next.Some? && next.value.Creator? ==> LevelsOk(next.value)
    ensures LevelsInv(Apply(s, p, next, eff).procs)
  {
  }

  /** A crash releases exactly the locks of the crashed process. */
  lemma CrashKeepsLocks(s: Sys, p: Pid)
    requires LocksInv(s) && p in s.procs
    ensures LocksInv(Crashed(s, p))
  {
    var s' := Crashed(s, p);
    assert forall q, c :: Holds(s'.procs, q, c) <==> q != p && Holds(s.procs, q, c);
  }

  /** Every step keeps the lock table right. */
  lemma StepKeepsLocks(s: Sys, p: Pid, next: Option<Proc>, eff: Effect)
    requires Step(s, p, next, eff) && LocksInv(s)
    ensures LocksInv(Apply(s, p, next, eff))
  {
    StepLocal(s, p, next, eff);
    StepKeepsShared(s, p, next, eff);
    StepKeepsExcl(s, p, next, eff);
    StepKeepsGc(s, p, next, eff);
    StepKeepsLevels(s, p, next, eff);
    StepChains(s, p, next, eff);
    StepKeepsChains(s, p, next, eff);
  }
}
