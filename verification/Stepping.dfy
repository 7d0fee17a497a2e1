/** Every event keeps the invariants that its kind of run has: any event the robust one, any event but the cutting off
    of a clean with work left the orderly one, and any event but a crash the tidy one. */
module Stepping {
  import opened Wrappers
  import opened Protocol
  import opened Invariant
  import opened Surviving
  import opened Imaging
  import opened Publishing
  import opened CleaningProofs
  import opened Indexing

  // ------------------------------------------------------------------ steps

  lemma StepKeepsRobust(s: Sys, p: Pid, next: Option<Proc>, eff: Effect)
    requires Step(s, p, next, eff) && Robust(s)
    ensures Robust(Apply(s, p, next, eff))
  {
    StepKeepsBase(s, p, next, eff);
    StepKeepsImages(s, p, next, eff);
  }

  lemma StepKeepsOrderly(s: Sys, p: Pid, next: Option<Proc>, eff: Effect)
    requires Step(s, p, next, eff) && Robust(s) && Orderly(s)
    ensures Orderly(Apply(s, p, next, eff))
  {
    Locking.StepKeepsLocks(s, p, next, eff);
    StepKeepsPulled(s, p, next, eff);
    StepKeepsMeta(s, p, next, eff);
    StepKeepsLinked(s, p, next, eff);
    StepKeepsClean(s, p, next, eff);
    StepKeepsClosure(s, p, next, eff);
  }

  lemma StepKeepsTidy(s: Sys, p: Pid, next: Option<Proc>, eff: Effect)
    requires Step(s, p, next, eff) && Robust(s) && Orderly(s) && Tidy(s)
    ensures Tidy(Apply(s, p, next, eff))
  {
    KnownClean(s, p);
    StepKeepsClaims(s, p, next, eff);
    StepKeepsRest(s, p, next, eff);
    StepKeepsUnlinked(s, p, next, eff);
  }

  // ------------------------------------------------------------------ starts

  /** A process that has just started claims nothing and holds nothing. */
  predicate Idle(proc: Proc) {
    match proc
    case Creator(_, _, pc) => pc == WantShared
    case Cleaner(pc) => pc == WantGc
    case Deleter(_, pc) => pc == Exists
  }

  lemma SpawnLocks(s: Sys, p: Pid, proc: Proc)
    requires LocksInv(s) && p !in s.procs && Idle(proc)
    ensures LocksInv(s.(procs := s.procs[p := proc]))
  {
    var procs' := s.procs[p := proc];
    assert forall q, c :: Holds(procs', q, c) <==> Holds(s.procs, q, c);
  }

  /** Whatever is claimed stays so. */
  lemma SpawnClaims(procs: map<Pid, Proc>, p: Pid, proc: Proc, v: VolId)
    requires p !in procs
    ensures Claimed(procs, v) ==> Claimed(procs[p := proc], v)
  {
    if q :| q in procs && Claims(procs[q], v) { assert procs[p := proc][q] == procs[q]; }
  }

  lemma SpawnIntact(s: Sys, p: Pid, proc: Proc)
    requires IntactInv(s.procs, s.disk) && p !in s.procs && Idle(proc)
    ensures IntactInv(s.procs[p := proc], s.disk)
  {
    forall v ensures Claimed(s.procs, v) ==> Claimed(s.procs[p := proc], v)
    {
      SpawnClaims(s.procs, p, proc, v);
    }
  }

  lemma SpawnBase(s: Sys, p: Pid, proc: Proc)
    requires Base(s) && p !in s.procs && Idle(proc)
    ensures Base(s.(procs := s.procs[p := proc]))
  {
    SpawnLocks(s, p, proc);
  }

  lemma SpawnImages(s: Sys, p: Pid, proc: Proc)
    requires LocksInv(s) && ImagesInv(s) && MaySpawn(s, p, proc)
    ensures ImagesInv(s.(procs := s.procs[p := proc]))
  {
    var procs' := s.procs[p := proc];
    assert forall img :: img in s.images && InMaking(s.procs, img, s.images[img]) ==> InMaking(procs', img, s.images[img]);
  }

  lemma SpawnKeepsRobust(s: Sys, p: Pid, proc: Proc)
    requires Robust(s) && MaySpawn(s, p, proc)
    ensures Robust(s.(procs := s.procs[p := proc]))
  {
    SpawnBase(s, p, proc);
    SpawnIntact(s, p, proc);
    SpawnImages(s, p, proc);
  }

  lemma SpawnKeepsOrderly(s: Sys, p: Pid, proc: Proc)
    requires LocksInv(s) && Orderly(s) && MaySpawn(s, p, proc)
    ensures Orderly(s.(procs := s.procs[p := proc]))
  {
    forall c ensures Claimed(s.procs, Final(c)) ==> Claimed(s.procs[p := proc], Final(c))
    {
      SpawnClaims(s.procs, p, proc, Final(c));
    }
    assert proc.Creator? ==> PulledOk(s.disk, proc);
  }

  lemma SpawnKeepsTidy(s: Sys, p: Pid, proc: Proc)
    requires Tidy(s) && MaySpawn(s, p, proc)
    ensures Tidy(s.(procs := s.procs[p := proc]))
  {
    var procs' := s.procs[p := proc];
    forall v ensures Claimed(s.procs, v) ==> Claimed(procs', v)
    {
      SpawnClaims(s.procs, p, proc, v);
    }
    forall short | short in s.disk.syms
                   && !(s.disk.syms[short] in s.disk.links && s.disk.links[s.disk.syms[short]] == short)
      ensures exists q :: q in procs' && Pending(procs'[q], short)
    {
      var q :| q in s.procs && Pending(s.procs[q], short);
      assert procs'[q] == s.procs[q];
    }
  }

  // ------------------------------------------------------------------ crashes

  lemma CrashKeepsRobust(s: Sys, p: Pid)
    requires p in s.procs && Robust(s)
    ensures Robust(Crashed(s, p))
  {
    CrashKeepsBase(s, p);
    CrashKeepsImages(s, p);
  }

  /** A crash of any process, unless it is a clean and a gc volume exists. */
  lemma CrashKeepsOrderly(s: Sys, p: Pid)
    requires p in s.procs && Base(s) && Orderly(s) && (Cleaning(s.procs[p]) ==> NoGc(s.disk))
    ensures Orderly(Crashed(s, p))
  {
    var s' := Crashed(s, p);
    forall c | Final(c) in s.disk.vols && Final(c) !in s.disk.links
      ensures Claimed(s'.procs, Final(c))
    {
      var q :| q in s.procs && Claims(s.procs[q], Final(c));
      PublishedClaim(s, q, Final(c));
      assert q in s'.procs && s'.procs[q] == s.procs[q];
    }
  }

  // ------------------------------------------------------------------ events

  lemma EventKeepsRobust(s: Sys, ev: Event)
    requires Robust(s) && Can(s, ev)
    ensures Robust(After(s, ev))
  {
    match ev
    case Spawn(p, proc) => SpawnKeepsRobust(s, p, proc);
    case Move(p, next, eff) => StepKeepsRobust(s, p, next, eff);
    case Crash(p) => CrashKeepsRobust(s, p);
  }

  /** A clean is cut off with work left: it crashes, or is stopped by its time limit, while it holds the GC lock and a gc
      volume exists. */
  ghost predicate CutsClean(s: Sys, ev: Event) {
    ev.Crash? && ev.pid in s.procs && Cleaning(s.procs[ev.pid]) && !NoGc(s.disk)
  }

  lemma EventKeepsOrderly(s: Sys, ev: Event)
    requires Robust(s) && Orderly(s) && Can(s, ev) && !CutsClean(s, ev)
    ensures Orderly(After(s, ev))
  {
    match ev
    case Spawn(p, proc) => SpawnKeepsOrderly(s, p, proc);
    case Move(p, next, eff) => StepKeepsOrderly(s, p, next, eff);
    case Crash(p) => CrashKeepsOrderly(s, p);
  }

  lemma EventKeepsTidy(s: Sys, ev: Event)
    requires Robust(s) && Orderly(s) && Tidy(s) && Can(s, ev) && !ev.Crash?
    ensures Tidy(After(s, ev))
  {
    match ev
    case Spawn(p, proc) => SpawnKeepsTidy(s, p, proc);
    case Move(p, next, eff) => StepKeepsTidy(s, p, next, eff);
  }
}
