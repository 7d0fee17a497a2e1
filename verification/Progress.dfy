/** Deadlock freedom and termination: locks are taken in a strict rank, so some process can always go on, and every step
    brings its process nearer to its end. */
module Progress {
  import opened Wrappers
  import opened Disk
  import opened Protocol
  import opened Invariant
  import opened Volumes
  import opened Safety

  /** The process waits for a lock that it cannot have now. */
  predicate Blocked(s: Sys, p: Pid) {
    && p in s.procs
    && match s.procs[p]
       case Creator(_, top, pc) =>
         || (pc.WantShared? && s.excl.Some?)
         || (pc.WantChain? && pc.i <= |top| && top[..pc.i] in s.chainLocks)
       case Cleaner(pc) =>
         || (pc.WantGc? && s.gcLock.Some?)
         || (pc.WantExcl? && (s.excl.Some? || s.shared != {}))
       case Deleter(_, _) => false
  }

  /** The step gives up waiting for a lock: a timeout, or a lock file that cannot be opened. */
  predicate GivesUp(proc: Proc, next: Option<Proc>) {
    || (proc.Cleaner? && proc.kpc.WantGc? && next.None?)
    || (proc.Cleaner? && proc.kpc.WantExcl? && next.Some? && next.value == Cleaner(DropGc))
    || (proc.Creator? && proc.cpc.WantChain? && next.Some? && next.value.Creator? && next.value.cpc.Fail?)
  }

  /** A create that waits for the chain lock of depth i waits for a process that does not wait for a chain
      lock, or waits for one of smaller depth. */
  lemma {:induction false} ChainHolder(s: Sys, p: Pid) returns (q: Pid)
    requires LocksInv(s) && p in s.shared
    ensures q in s.procs && !Blocked(s, q)
    decreases if s.procs[p].cpc.WantChain? then s.procs[p].cpc.i + 1 else 0
  {
    if Blocked(s, p) {
      var top, i := s.procs[p].top, s.procs[p].cpc.i;
      var h := s.chainLocks[top[..i]];
      assert Holds(s.procs, h, top[..i]);
      assert Lowest(s.procs[h]) <= i;
      q := ChainHolder(s, h);
    } else {
      q := p;
    }
  }

  /** In every state with a process, some process is not blocked. */
  lemma SomeUnblocked(s: Sys) returns (q: Pid)
    requires LocksInv(s) && s.procs != map[]
    ensures q in s.procs && !Blocked(s, q)
  {
    var p :| p in s.procs;
    if s.shared != {} {
      var r :| r in s.shared;
      q := ChainHolder(s, r);
    } else if s.excl.Some? {
      q := s.excl.value;
    } else if s.gcLock.Some? {
      q := s.gcLock.value;
    } else {
      q := p;
    }
  }

  // ------------------------------------------------------------------ an unblocked process can step

  lemma {:induction false} FreshTag(tags: set<nat>) returns (tag: nat)
    ensures tag !in tags && forall t :: t in tags ==> t < tag
  {
    if tags == {} {
      tag := 0;
    } else {
      var t :| t in tags;
      var u := FreshTag(tags - {t});
      assert forall x :: x in tags ==> x == t || x in tags - {t};
      tag := if t < u then u else t + 1;
    }
  }

  lemma {:induction false} FreshShort(shorts: set<ShortId>) returns (short: ShortId)
    ensures short !in shorts && forall t :: t in shorts ==> |t| < |short|
  {
    if shorts == {} {
      short := "";
    } else {
      var t :| t in shorts;
      var u := FreshShort(shorts - {t});
      short := if |t| < |u| then u else t + "-";
    }
  }

  /** What a create does next, when it is not blocked and nothing fails. */
  function CreatorNext(s: Sys, c: Proc, tag: nat, gen: ShortId): (CreatorPc, Effect)
    requires c.Creator? && LevelsOk(c) && !c.cpc.ReleaseShared? && !c.cpc.Done?
  {
    var n := |c.top|;
    match c.cpc
    case WantShared => (Check(n), LockShared)
    case Check(i) =>
      (if i == 0 then Returned(0, n)
       else if Final(c.top[..i]) in s.disk.vols then Returned(i, n) else WantChain(i), Nothing)
    case WantChain(i) => (Recheck(i), LockChain(c.top[..i]))
    case Recheck(i) => (if Final(c.top[..i]) in s.disk.vols then Leave(i) else Check(i - 1), Nothing)
    case Fetch(i) => (Making(i, tag, CvMkdir(Incomplete(c.top[..i], tag))), NewTag(tag))
    case Making(i, t, op) => (AfterMaking(i, t, OpStep(s.disk, op, gen).outcome), Call(op, gen))
    case Unpack(i, t) => (Opaque(i, t, 0), Nothing)
    case Undo(i, op) => (AfterUndo(i, OpStep(s.disk, op, gen).outcome), Call(op, gen))
    case Opaque(i, t, size) => (Meta(i, t, size), Nothing)
    case Meta(i, t, size) =>
      (Moving(i, t, MvStat(Incomplete(c.top[..i], t), Final(c.top[..i]))), WriteMeta(Final(c.top[..i]), size))
    case Moving(i, t, op) => (AfterMoving(i, t, OpStep(s.disk, op, gen).outcome), Call(op, gen))
    case Leave(i) => (Returned(i, n), UnlockChain(c.top[..i]))
    case Fail(i) => if i > n then (ReleaseShared, Nothing) else (Fail(i + 1), UnlockChain(c.top[..i]))
    case MakeImage => if c.img in s.images then (Rollback, Nothing) else (Lower(n, []), MakeDir(c.img, c.top))
    case Lower(i, lowers) =>
      (if i == 0 then Finish(lowers)
       else if Final(c.top[..i]) in s.disk.vols && Final(c.top[..i]) in s.disk.metas && Final(c.top[..i]) in s.disk.links
       then Lower(i - 1, lowers + [s.disk.links[Final(c.top[..i])]]) else Rollback, Nothing)
    case Finish(lowers) => if c.img in s.images then (Register, SetReady(c.img, lowers)) else (Rollback, Nothing)
    case Rollback => (ReleaseShared, RemoveImage(c.img))
    case Register => (Done, WriteDeps(c.img, c.top))
  }

  lemma CreatorCan(s: Sys, p: Pid) returns (next: Option<Proc>, eff: Effect)
    requires LocksInv(s) && p in s.procs && !Blocked(s, p) && s.procs[p].Creator?
    ensures Step(s, p, next, eff) && !GivesUp(s.procs[p], next)
  {
    var c := s.procs[p];
    assert LevelsOk(c);
    if c.cpc.ReleaseShared? || c.cpc.Done? {
      next, eff := None, UnlockShared;
    } else {
      var tag := FreshTag(s.tags.Keys);
      var gen := FreshShort(s.shorts);
      var (pc', e) := CreatorNext(s, c, tag, gen);
      next, eff := Some(c.(cpc := pc')), e;
    }
  }

  lemma CleanerCan(s: Sys, p: Pid) returns (next: Option<Proc>, eff: Effect)
    requires p in s.procs && !Blocked(s, p) && s.procs[p].Cleaner?
    ensures Step(s, p, next, eff) && !GivesUp(s.procs[p], next)
  {
    var gen := FreshShort(s.shorts);
    var pc';
    match s.procs[p].kpc {
      case WantGc => pc', eff := WantExcl, LockGc;
      case WantExcl => pc', eff := ScanVols, LockExcl;
      case ScanVols => pc', eff := ScanImages(set v | v in s.disk.vols && !v.Gc?), Nothing;
      case ScanImages(orphans) => pc', eff := ScanDeps(orphans, s.images.Keys), Nothing;
      case ScanDeps(orphans, images) =>
        eff := Nothing;
        if images == {} {
          pc' := Mark(orphans);
        } else {
          var img :| img in images;
          pc' := if img in s.deps then ScanDeps(orphans - Needs(s.deps[img]), images - {img}) else Mark({});
        }
      case Mark(todo) =>
        eff := Nothing;
        if todo == {} {
          pc' := DropExcl;
        } else {
          var v :| v in todo;
          pc' := Marking(v, todo - {v}, MvStat(v, Gc(v)));
        }
      case Marking(v, todo, op) =>
        pc', eff := AfterMarking(v, todo, op, OpStep(s.disk, op, gen).outcome), Call(op, gen);
      case DropExcl => pc', eff := ListGc, UnlockExcl;
      case ListGc => pc', eff := Collect(set v | v in s.disk.vols && v.Gc?), Nothing;
      case Collect(todo) =>
        eff := Nothing;
        if todo == {} {
          pc' := DropGc;
        } else {
          var v :| v in todo;
          pc' := Collecting(v, todo - {v}, DvRead(v));
        }
      case Collecting(v, todo, op) =>
        pc', eff := AfterCollecting(v, todo, OpStep(s.disk, op, gen).outcome), Call(op, gen);
      case DropGc =>
        next, eff := None, UnlockGc;
        return;
    }
    next := Some(Cleaner(pc'));
  }

  lemma DeleterCan(s: Sys, p: Pid) returns (next: Option<Proc>, eff: Effect)
    requires p in s.procs && s.procs[p].Deleter?
    ensures Step(s, p, next, eff) && !GivesUp(s.procs[p], next)
  {
    var d := s.procs[p];
    match d.dpc {
      case Exists => next, eff := (if d.img in s.images then Some(d.(dpc := Destroy)) else None), Nothing;
      case Destroy => next, eff := Some(d.(dpc := Deregister)), RemoveImage(d.img);
      case Deregister => next, eff := None, RemoveDeps(d.img);
    }
  }

  lemma SomeCan(s: Sys) returns (p: Pid, next: Option<Proc>, eff: Effect)
    requires LocksInv(s) && s.procs != map[]
    ensures Step(s, p, next, eff) && !GivesUp(s.procs[p], next)
  {
    p := SomeUnblocked(s);
    if s.procs[p].Creator? {
      next, eff := CreatorCan(s, p);
    } else if s.procs[p].Cleaner? {
      next, eff := CleanerCan(s, p);
    } else {
      next, eff := DeleterCan(s, p);
    }
  }

  /** Deadlock freedom: in every state of every run with a process in it, some process can take a step that
      is not giving up on a lock. */
  lemma DeadlockFree(states: seq<Sys>, events: seq<Event>, i: nat)
    requires Run(states, events) && i <= |events| && states[i].procs != map[]
    ensures exists p, next, eff :: Step(states[i], p, next, eff) && !GivesUp(states[i].procs[p], next)
  {
    RunKeepsRobust(states, events, i);
    var p, next, eff := SomeCan(states[i]);
  }

  // ------------------------------------------------------------------ every process comes to an end

  /** Three numbers, compared first by first. */
  datatype Measure = Measure(phase: nat, count: nat, rest: nat)

  predicate Less(a: Measure, b: Measure) {
    a.phase < b.phase || (a.phase == b.phase && (a.count < b.count || (a.count == b.count && a.rest < b.rest)))
  }

  function Remaining(c: Proc, i: nat): nat
    requires c.Creator?
  {
    if i <= |c.top| then |c.top| + 1 - i else 0
  }

  function CreatorLeft(c: Proc): Measure
    requires c.Creator?
  {
    match c.cpc
    case WantShared => Measure(9, 0, 0)
    case Check(i) => Measure(8, i, 3)
    case WantChain(i) => Measure(8, i, 2)
    case Recheck(i) => Measure(8, i, 1)
    case Fetch(i) => Measure(7, Remaining(c, i), 30)
    case Making(i, _, op) => Measure(7, Remaining(c, i), 20 + Rank(op))
    case Unpack(i, _) => Measure(7, Remaining(c, i), 19)
    case Opaque(i, _, _) => Measure(7, Remaining(c, i), 18)
    case Meta(i, _, _) => Measure(7, Remaining(c, i), 17)
    case Moving(i, _, op) => Measure(7, Remaining(c, i), 10 + Rank(op))
    case Undo(i, op) => Measure(7, Remaining(c, i), 5 + Rank(op))
    case Leave(i) => Measure(7, Remaining(c, i), 0)
    case MakeImage => Measure(6, 0, 0)
    case Lower(i, _) => Measure(5, i, 0)
    case Finish(_) => Measure(4, 0, 0)
    case Register => Measure(3, 0, 0)
    case Rollback => Measure(2, 0, 0)
    case Fail(i) => Measure(1, Remaining(c, i), 0)
    case ReleaseShared => Measure(0, 0, 0)
    case Done => Measure(0, 0, 0)
  }

  function CleanerLeft(pc: CleanerPc): Measure {
    match pc
    case WantGc => Measure(9, 0, 0)
    case WantExcl => Measure(8, 0, 0)
    case ScanVols => Measure(7, 0, 0)
    case ScanImages(_) => Measure(6, 0, 0)
    case ScanDeps(_, images) => Measure(5, |images|, 0)
    case Mark(todo) => Measure(4, |todo|, 0)
    case Marking(_, todo, op) => Measure(4, |todo|, if op.MvMeta? then 1 else 2 + Rank(op))
    case DropExcl => Measure(3, 0, 0)
    case ListGc => Measure(2, 0, 0)
    case Collect(todo) => Measure(1, |todo|, 0)
    case Collecting(_, todo, op) => Measure(1, |todo|, 1 + Rank(op))
    case DropGc => Measure(0, 0, 0)
  }

  /** How far a process is from its end. */
  function Left(proc: Proc): Measure {
    match proc
    case Creator(_, _, _) => CreatorLeft(proc)
    case Cleaner(pc) => CleanerLeft(pc)
    case Deleter(_, pc) => Measure(if pc.Exists? then 2 else if pc.Destroy? then 1 else 0, 0, 0)
  }

  lemma RankDrops(d: Disk<VolId>, op: Op<VolId>, gen: ShortId)
    ensures OpStep(d, op, gen).outcome.Go? ==> Rank(OpStep(d, op, gen).outcome.next) < Rank(op)
  {
  }

  lemma CreatorNearer(d: Disk<VolId>, c: Proc, c': Proc, eff: Effect)
    requires c.Creator? && LevelsOk(c) && c'.Creator? && c'.top == c.top && CreatorMay(d, c, c'.cpc, eff)
    ensures Less(CreatorLeft(c'), CreatorLeft(c))
  {
    if eff.Call? { RankDrops(d, eff.op, eff.gen); }
  }

  lemma CleanerCallNearer(s: Sys, pc: CleanerPc, pc': CleanerPc, eff: Effect)
    requires CleanerMay(s, pc, pc', eff) && Shape(0, Cleaner(pc), s.tags) && eff.Call?
    ensures Less(CleanerLeft(pc'), CleanerLeft(pc))
  {
    RankDrops(s.disk, eff.op, eff.gen);
  }

  lemma OneLess<T>(all: set<T>, x: T)
    requires x in all
    ensures |all - {x}| < |all|
  {
  }

  lemma CleanerTakesNearer(s: Sys, pc: CleanerPc, pc': CleanerPc)
    requires CleanerMay(s, pc, pc', Nothing) && (pc.ScanDeps? || pc.Mark? || pc.Collect?)
    ensures Less(CleanerLeft(pc'), CleanerLeft(pc))
  {
    match pc
    case ScanDeps(orphans, images) =>
      if images != {} {
        var img :| img in images &&
          pc' == (if img in s.deps then ScanDeps(orphans - Needs(s.deps[img]), images - {img}) else Mark({}));
        OneLess(images, img);
      }
    case Mark(todo) =>
      if todo != {} {
        var v :| v in todo && pc' == Marking(v, todo - {v}, MvStat(v, Gc(v)));
        OneLess(todo, v);
      }
    case Collect(todo) =>
      if todo != {} {
        var v :| v in todo && pc' == Collecting(v, todo - {v}, DvRead(v));
        OneLess(todo, v);
      }
  }

  lemma CleanerNearer(s: Sys, pc: CleanerPc, pc': CleanerPc, eff: Effect)
    requires CleanerMay(s, pc, pc', eff) && Shape(0, Cleaner(pc), s.tags)
    ensures Less(CleanerLeft(pc'), CleanerLeft(pc))
  {
    if eff.Call? {
      CleanerCallNearer(s, pc, pc', eff);
    } else if pc.ScanDeps? || pc.Mark? || pc.Collect? {
      CleanerTakesNearer(s, pc, pc');
    }
  }

  lemma StepNearer(s: Sys, p: Pid, next: Option<Proc>, eff: Effect)
    requires Step(s, p, next, eff) && LevelsInv(s.procs) && ShapeInv(s.procs, s.tags)
    ensures next.None? || Less(Left(next.value), Left(s.procs[p]))
  {
    var proc := s.procs[p];
    if next.Some? {
      if proc.Creator? {
        assert LevelsOk(proc);
        CreatorNearer(s.disk, proc, next.value, eff);
      } else if proc.Cleaner? {
        assert Shape(p, proc, s.tags);
        CleanerNearer(s, proc.kpc, next.value.kpc, eff);
      }
    }
  }

  /** Every step of a process brings it nearer to its end, whatever the others do and whatever has crashed: no process
      runs for ever, as lists of this order that get less and less come to an end. */
  lemma StepsDecrease(states: seq<Sys>, events: seq<Event>, i: nat)
    requires Run(states, events) && i < |events| && events[i].Move?
    ensures events[i].next.None? || Less(Left(events[i].next.value), Left(states[i].procs[events[i].pid]))
  {
    RunKeepsRobust(states, events, i);
    StepNearer(states[i], events[i].pid, events[i].next, events[i].eff);
  }

  // ------------------------------------------------------------------ all processes come to an end

  datatype Part = Phase | Count | Rest

  function Amount(proc: Proc, part: Part): nat {
    match part
    case Phase => Left(proc).phase
    case Count => Left(proc).count
    case Rest => Left(proc).rest
  }

  ghost function Total(procs: map<Pid, Proc>, part: Part): nat
    decreases |procs|
  {
    if procs == map[] then 0
    else var p :| p in procs; Fewer(procs, p); Amount(procs[p], part) + Total(procs - {p}, part)
  }

  lemma Fewer(procs: map<Pid, Proc>, p: Pid)
    requires p in procs
    ensures |procs - {p}| < |procs|
  {
    assert (procs - {p}).Keys == procs.Keys - {p};
  }

  /** A sum over the processes can be taken in any order. */
  lemma {:induction false} TotalLess(procs: map<Pid, Proc>, part: Part, p: Pid)
    requires p in procs
    ensures Total(procs, part) == Amount(procs[p], part) + Total(procs - {p}, part)
    decreases |procs|
  {
    var q :| q in procs && Total(procs, part) == Amount(procs[q], part) + Total(procs - {q}, part);
    if q != p {
      Fewer(procs, q);
      Fewer(procs, p);
      TotalLess(procs - {q}, part, p);
      TotalLess(procs - {p}, part, q);
      assert procs - {q} - {p} == procs - {p} - {q};
    }
  }

  lemma TotalAfter(procs: map<Pid, Proc>, part: Part, p: Pid, next: Proc)
    requires p in procs
    ensures Total(procs[p := next], part) == Total(procs, part) - Amount(procs[p], part) + Amount(next, part)
  {
    TotalLess(procs, part, p);
    TotalLess(procs[p := next], part, p);
    assert procs[p := next] - {p} == procs - {p};
  }

  /** Fewer processes, or as many that are together nearer to their ends. */
  ghost predicate Nearer(procs': map<Pid, Proc>, procs: map<Pid, Proc>) {
    || |procs'| < |procs|
    || (|procs'| == |procs| && Total(procs', Phase) < Total(procs, Phase))
    || (|procs'| == |procs| && Total(procs', Phase) == Total(procs, Phase) && Total(procs', Count) < Total(procs, Count))
    || (|procs'| == |procs| && Total(procs', Phase) == Total(procs, Phase) && Total(procs', Count) == Total(procs, Count)
        && Total(procs', Rest) < Total(procs, Rest))
  }

  lemma MovedNearer(procs: map<Pid, Proc>, p: Pid, next: Option<Proc>)
    requires p in procs && (next.None? || Less(Left(next.value), Left(procs[p])))
    ensures Nearer(Moved(procs, p, next), procs)
  {
    if next.None? {
      Fewer(procs, p);
    } else {
      TotalAfter(procs, Phase, p, next.value);
      TotalAfter(procs, Count, p, next.value);
      TotalAfter(procs, Rest, p, next.value);
      assert procs[p := next.value].Keys == procs.Keys;
    }
  }

  lemma MovedProcs(s: Sys, p: Pid, next: Option<Proc>, eff: Effect)
    requires eff.SetReady? ==> eff.img in s.images
    ensures Apply(s, p, next, eff).procs == Moved(s.procs, p, next)
  {
  }

  /** The event is a step of a process that does not give up on a lock. */
  predicate GoesOn(s: Sys, ev: Event) {
    ev.Move? && ev.pid in s.procs && !GivesUp(s.procs[ev.pid], ev.next)
  }

  lemma NextStep(s: Sys) returns (ev: Event)
    requires LocksInv(s) && ShapeInv(s.procs, s.tags) && s.procs != map[]
    ensures Can(s, ev) && GoesOn(s, ev) && Nearer(After(s, ev).procs, s.procs)
  {
    var p, next, eff := SomeCan(s);
    ev := Move(p, next, eff);
    StepNearer(s, p, next, eff);
    MovedNearer(s.procs, p, next);
    MovedProcs(s, p, next, eff);
  }

  /** A run can be continued by an event. */
  lemma Continued(states: seq<Sys>, events: seq<Event>, ev: Event)
    requires Run(states, events) && Can(states[|events|], ev)
    ensures Run(states + [After(states[|events|], ev)], events + [ev])
  {
  }

  ghost predicate Ends(states: seq<Sys>, events: seq<Event>, s: Sys) {
    Run(states, events) && states[|events|] == s
  }

  /** Some run ends in state s. */
  ghost predicate Reached(s: Sys) {
    exists states, events :: Ends(states, events, s)
  }

  lemma Reach(s: Sys, ev: Event)
    requires Reached(s) && Can(s, ev)
    ensures Reached(After(s, ev))
  {
    var states, events :| Ends(states, events, s);
    Continued(states, events, ev);
    assert Ends(states + [After(s, ev)], events + [ev], After(s, ev));
  }

  /** The events from i on are steps of processes that do not give up on a lock. */
  ghost predicate Winding(states: seq<Sys>, events: seq<Event>, i: nat)
    requires i <= |events| <= |states|
  {
    forall k :: i <= k < |events| ==> GoesOn(states[k], events[k])
  }

  /** Every run can be continued, without starting a process, without a crash and without giving up on a lock, until no
      process is left. */
  lemma {:induction false} WindsDown(states: seq<Sys>, events: seq<Event>) returns (states': seq<Sys>, events': seq<Event>)
    requires Run(states, events)
    ensures Run(states', events') && states <= states' && events <= events' && Winding(states', events', |events|)
    ensures states'[|events'|].procs == map[]
    decreases |states[|events|].procs|, Total(states[|events|].procs, Phase), Total(states[|events|].procs, Count),
              Total(states[|events|].procs, Rest)
  {
    var s := states[|events|];
    if s.procs == map[] {
      states', events' := states, events;
    } else {
      RunKeepsRobust(states, events, |events|);
      var ev := NextStep(s);
      Continued(states, events, ev);
      states', events' := WindsDown(states + [After(s, ev)], events + [ev]);
      WindingFrom(states, events, states', events', ev);
    }
  }

  lemma WindingFrom(states: seq<Sys>, events: seq<Event>, states': seq<Sys>, events': seq<Event>, ev: Event)
    requires |states| == |events| + 1 && states <= states' && events + [ev] <= events' && |events'| <= |states'|
    requires GoesOn(states[|events|], ev) && Winding(states', events', |events| + 1)
    ensures events <= events' && Winding(states', events', |events|)
  {
  }
}
