/**
 What a clean reclaims, over whole runs, whatever other processes do and wherever they crash: the volumes it finds,
 those among them that it marks, and the marked volumes it collects. A volume without a link file is found by every
 clean and marked by none.
 */
module Reclaiming {
  import opened Wrappers
  import opened Disk
  import opened Protocol
  import opened Invariant
  import opened ClaimProofs
  import opened Surviving
  import opened Safety
  import opened Registering

  // ------------------------------------------------------------------ one event

  /** An event of a process that does not claim the volume leaves its directory and link file as they are. */
  lemma EventFrame(s: Sys, ev: Event, v: VolId)
    requires Robust(s) && Can(s, ev) && (ev.Move? ==> !Claims(s.procs[ev.pid], v))
    ensures var d, d' := s.disk, After(s, ev).disk;
            (v in d'.vols <==> v in d.vols) && (v in d'.links <==> v in d.links)
  {
    if ev.Move? {
      if ev.eff.Call? {
        CallIsCalling(s, ev.pid, ev.next, ev.eff);
        SafeFrame(s.disk, ev.eff.op, ev.eff.gen, s.shorts, v);
      } else {
        QuietDisk(s, ev.pid, ev.next, ev.eff);
      }
    }
  }

  /** Only the clean that holds the locks works on marked volumes and, before it drops the exclusive lock, on unmarked
      ones. */
  lemma OthersKeepOut(s: Sys, p: Pid, q: Pid, v: VolId)
    requires LocksInv(s) && ShapeInv(s.procs, s.tags) && p in s.procs && q in s.procs && q != p
    requires if v.Gc? then Cleaning(s.procs[p]) else Excluding(s.procs[p])
    ensures !Claims(s.procs[q], v)
  {
    Claimant(s, q, v);
  }

  lemma OtherEvent(s: Sys, ev: Event, p: Pid)
    requires Can(s, ev) && p in s.procs && ev.pid != p
    ensures p in After(s, ev).procs && After(s, ev).procs[p] == s.procs[p]
  {
    AfterProcs(s, ev);
  }

  lemma OwnEvent(s: Sys, ev: Event, p: Pid)
    requires Can(s, ev) && p in s.procs && ev.pid == p && p in After(s, ev).procs
    ensures ev.Move? && ev.next.Some? && After(s, ev).procs[p] == ev.next.value
  {
    AfterProcs(s, ev);
  }

  // ------------------------------------------------------------------ marking

  /** The volume is there; whether it has a link file, and whether a gc volume of its name has been left over. */
  predicate Unmarked(d: Disk<VolId>, v: VolId, linked: bool, left: bool) {
    v in d.vols && (v in d.links <==> linked) && (Gc(v) in d.vols <==> left)
  }

  predicate MarkingNow(d: Disk<VolId>, v: VolId, op: Op<VolId>, linked: bool, left: bool) {
    if op.MvStat? || op.MvRead? then Unmarked(d, v, linked, left)
    else v in d.vols && linked && (Gc(v) in d.vols <==> left)
  }

  predicate Treated(d: Disk<VolId>, v: VolId, linked: bool, left: bool) {
    v in d.vols <==> !linked || left
  }

  /** The clean has dropped the exclusive lock. */
  predicate Past(pc: CleanerPc) {
    pc.ListGc? || pc.Collect? || pc.Collecting? || pc.DropGc?
  }

  /** How far a clean has come with v from looking for orphans to dropping the exclusive lock. */
  predicate Progressed(d: Disk<VolId>, pc: CleanerPc, v: VolId, linked: bool, left: bool) {
    match pc
    case Mark(todo) => if v in todo then Unmarked(d, v, linked, left) else Treated(d, v, linked, left)
    case Marking(u, todo, op) =>
      if u == v then
        v !in todo && if op.MvMeta? then Treated(d, v, linked, left) else MarkingNow(d, v, op, linked, left)
      else if v in todo then Unmarked(d, v, linked, left)
      else Treated(d, v, linked, left)
    case DropExcl => Treated(d, v, linked, left)
    case _ => Past(pc)
  }

  predicate SameNames(d: Disk<VolId>, d': Disk<VolId>, v: VolId) {
    (v in d'.vols <==> v in d.vols) && (v in d'.links <==> v in d.links) && (Gc(v) in d'.vols <==> Gc(v) in d.vols)
  }

  lemma SameProgressed(d: Disk<VolId>, d': Disk<VolId>, pc: CleanerPc, v: VolId, linked: bool, left: bool)
    requires SameNames(d, d', v) && Progressed(d, pc, v, linked, left)
    ensures Progressed(d', pc, v, linked, left)
  {
  }

  lemma OthersProgressed(s: Sys, ev: Event, p: Pid, v: VolId)
    requires Robust(s) && Can(s, ev) && ev.pid != p && p in s.procs && !v.Gc? && Excluding(s.procs[p])
    ensures SameNames(s.disk, After(s, ev).disk, v)
  {
    if ev.Move? {
      OthersKeepOut(s, p, ev.pid, v);
      OthersKeepOut(s, p, ev.pid, Gc(v));
    }
    EventFrame(s, ev, v);
    EventFrame(s, ev, Gc(v));
  }

  /** A call of the clean on the volume itself. */
  lemma CallProgressed(d: Disk<VolId>, v: VolId, todo: set<VolId>, op: Op<VolId>, gen: ShortId, linked: bool,
                       left: bool)
    requires OpSafe(d, op) && (IsMove(op) || op.MvMeta?) && op.from == v && op.to == Gc(v)
    requires if op.MvMeta? then Treated(d, v, linked, left) else MarkingNow(d, v, op, linked, left)
    ensures var r := OpStep(d, op, gen);
            match AfterMarking(v, todo, op, r.outcome)
            case Marking(u, todo', op') =>
              && u == v && todo' == todo
              && if op'.MvMeta? then Treated(r.disk, v, linked, left) else MarkingNow(r.disk, v, op', linked, left)
            case Mark(todo') => todo' == todo && Treated(r.disk, v, linked, left)
            case _ => false
  {
  }

  /** A step of the clean that is no call on the volume. */
  lemma StepProgressed(s: Sys, pc: CleanerPc, pc': CleanerPc, eff: Effect, v: VolId, linked: bool, left: bool)
    requires CleanerMay(s, pc, pc', eff) && Progressed(s.disk, pc, v, linked, left) && (pc.Marking? ==> pc.vol != v)
    requires pc.Mark? || pc.Marking? || pc.DropExcl? || Past(pc)
    ensures Progressed(s.disk, pc', v, linked, left)
  {
  }

  lemma ElsewhereSame(s: Sys, ev: Event, p: Pid, v: VolId)
    requires Robust(s) && Can(s, ev) && ev.pid == p && ev.Move? && s.procs[p].Cleaner? && !v.Gc?
    requires !Past(s.procs[p].kpc)
    requires s.procs[p].kpc.Marking? ==> s.procs[p].kpc.vol != v
    ensures SameNames(s.disk, After(s, ev).disk, v)
  {
    assert Shape(p, s.procs[p], s.tags);
    EventFrame(s, ev, v);
    EventFrame(s, ev, Gc(v));
  }

  lemma CalledProgressed(s: Sys, p: Pid, next: Option<Proc>, eff: Effect, v: VolId, linked: bool, left: bool)
    requires Robust(s) && Step(s, p, next, eff) && s.procs[p].Cleaner? && next.Some? && next.value.Cleaner?
    requires s.procs[p].kpc.Marking? && s.procs[p].kpc.vol == v && Progressed(s.disk, s.procs[p].kpc, v, linked, left)
    ensures Progressed(Apply(s, p, next, eff).disk, next.value.kpc, v, linked, left)
  {
    var pc := s.procs[p].kpc;
    assert Shape(p, s.procs[p], s.tags);
    CallIsCalling(s, p, next, eff);
    CallProgressed(s.disk, v, pc.todo, pc.op, eff.gen, linked, left);
  }

  ghost predicate MarksIn(s: Sys, p: Pid, v: VolId, linked: bool, left: bool) {
    p in s.procs && s.procs[p].Cleaner? && !v.Gc? && Progressed(s.disk, s.procs[p].kpc, v, linked, left)
  }

  lemma OwnProgressed(s: Sys, ev: Event, p: Pid, v: VolId, linked: bool, left: bool)
    requires Robust(s) && Can(s, ev) && ev.Move? && ev.pid == p && MarksIn(s, p, v, linked, left)
    requires ev.next.Some? && ev.next.value.Cleaner?
    ensures Progressed(After(s, ev).disk, ev.next.value.kpc, v, linked, left)
  {
    var pc, pc' := s.procs[p].kpc, ev.next.value.kpc;
    if pc.Marking? && pc.vol == v {
      CalledProgressed(s, p, ev.next, ev.eff, v, linked, left);
    } else {
      StepProgressed(s, pc, pc', ev.eff, v, linked, left);
      if !Past(pc) {
        ElsewhereSame(s, ev, p, v);
        SameProgressed(s.disk, After(s, ev).disk, pc', v, linked, left);
      }
    }
  }

  lemma OtherMarksIn(s: Sys, ev: Event, p: Pid, v: VolId, linked: bool, left: bool)
    requires Robust(s) && Can(s, ev) && MarksIn(s, p, v, linked, left) && ev.pid != p
    ensures MarksIn(After(s, ev), p, v, linked, left)
  {
    OtherEvent(s, ev, p);
    if !Past(s.procs[p].kpc) {
      OthersProgressed(s, ev, p, v);
      SameProgressed(s.disk, After(s, ev).disk, s.procs[p].kpc, v, linked, left);
    }
  }

  lemma OwnMarksIn(s: Sys, ev: Event, p: Pid, v: VolId, linked: bool, left: bool)
    requires Robust(s) && Can(s, ev) && MarksIn(s, p, v, linked, left) && ev.pid == p && p in After(s, ev).procs
    ensures MarksIn(After(s, ev), p, v, linked, left)
  {
    OwnEvent(s, ev, p);
    OwnProgressed(s, ev, p, v, linked, left);
  }

  lemma {:induction false} RunMarksIn(states: seq<Sys>, events: seq<Event>, j: nat, i: nat, p: Pid, v: VolId,
                                      linked: bool, left: bool)
    requires Run(states, events) && j <= i <= |events| && Ongoing(states, p, j, i)
    requires MarksIn(states[j], p, v, linked, left)
    ensures MarksIn(states[i], p, v, linked, left)
  {
    if j < i {
      var k := i - 1;
      RunMarksIn(states, events, j, k, p, v, linked, left);
      RunKeepsRobust(states, events, k);
      OneEvent(states, events, k);
      if events[k].pid == p {
        OwnMarksIn(states[k], events[k], p, v, linked, left);
      } else {
        OtherMarksIn(states[k], events[k], p, v, linked, left);
      }
    }
  }

  /** A clean that has taken v for an orphan, and gets as far as dropping the exclusive lock, has renamed its directory
      exactly if v had a link file and no gc volume of its name was left over, whatever has crashed. */
  lemma MarkedIff(states: seq<Sys>, events: seq<Event>, j: nat, i: nat, p: Pid, v: VolId)
    requires Run(states, events) && j <= i <= |events| && Ongoing(states, p, j, i)
    requires p in states[j].procs && states[j].procs[p].Cleaner? && states[j].procs[p].kpc.Mark?
    requires v in states[j].procs[p].kpc.todo && v in states[j].disk.vols
    requires p in states[i].procs && states[i].procs[p] == Cleaner(DropExcl)
    ensures v !in states[i].disk.vols <==> v in states[j].disk.links && Gc(v) !in states[j].disk.vols
  {
    RunKeepsRobust(states, events, j);
    assert Shape(p, states[j].procs[p], states[j].tags);
    RunMarksIn(states, events, j, i, p, v, v in states[j].disk.links, Gc(v) in states[j].disk.vols);
  }

  // ------------------------------------------------------------------ collecting

  /** The marked volumes that are left are those that the clean has yet to collect. */
  ghost predicate Swept(d: Disk<VolId>, pc: CleanerPc) {
    match pc
    case DropExcl => true
    case ListGc => true
    case Collect(todo) => forall w :: Gc(w) in d.vols ==> Gc(w) in todo
    case Collecting(v, todo, _) => forall w :: Gc(w) in d.vols ==> Gc(w) in todo || Gc(w) == v
    case DropGc => forall w :: Gc(w) !in d.vols
    case _ => false
  }

  ghost predicate SweepsIn(s: Sys, p: Pid) {
    p in s.procs && s.procs[p].Cleaner? && Swept(s.disk, s.procs[p].kpc)
  }

  ghost predicate SameGc(d: Disk<VolId>, d': Disk<VolId>) {
    forall w :: Gc(w) in d'.vols <==> Gc(w) in d.vols
  }

  lemma StepSwept(s: Sys, pc: CleanerPc, pc': CleanerPc, eff: Effect)
    requires CleanerMay(s, pc, pc', eff) && Swept(s.disk, pc) && !eff.Call?
    ensures Swept(s.disk, pc')
  {
  }

  lemma CallSwept(d: Disk<VolId>, v: VolId, todo: set<VolId>, op: Op<VolId>, gen: ShortId)
    requires IsDestroy(op) && op.id == v && Swept(d, Collecting(v, todo, op))
    ensures var r := OpStep(d, op, gen); Swept(r.disk, AfterCollecting(v, todo, r.outcome))
  {
  }

  lemma OtherSweepsIn(s: Sys, ev: Event, p: Pid)
    requires Robust(s) && Can(s, ev) && SweepsIn(s, p) && ev.pid != p
    ensures SweepsIn(After(s, ev), p)
  {
    OtherEvent(s, ev, p);
    forall w ensures Gc(w) in After(s, ev).disk.vols <==> Gc(w) in s.disk.vols {
      if ev.Move? { OthersKeepOut(s, p, ev.pid, Gc(w)); }
      EventFrame(s, ev, Gc(w));
    }
  }

  lemma OwnSweepsIn(s: Sys, ev: Event, p: Pid)
    requires Robust(s) && Can(s, ev) && SweepsIn(s, p) && ev.pid == p && p in After(s, ev).procs
    ensures SweepsIn(After(s, ev), p)
  {
    var pc := s.procs[p].kpc;
    OwnEvent(s, ev, p);
    assert Shape(p, s.procs[p], s.tags);
    if ev.eff.Call? {
      CallSwept(s.disk, pc.vol, pc.todo, pc.op, ev.eff.gen);
    } else {
      StepSwept(s, pc, ev.next.value.kpc, ev.eff);
      QuietDisk(s, p, ev.next, ev.eff);
    }
  }

  /** A clean that comes to its end has collected every marked volume, also those that cleans before it have left. */
  lemma {:induction false} AllCollected(states: seq<Sys>, events: seq<Event>, j: nat, i: nat, p: Pid)
    requires Run(states, events) && j <= i <= |events| && Ongoing(states, p, j, i)
    requires p in states[j].procs && states[j].procs[p] == Cleaner(DropExcl)
    ensures SweepsIn(states[i], p)
    ensures states[i].procs[p] == Cleaner(DropGc) ==> forall w :: Gc(w) !in states[i].disk.vols
  {
    if j < i {
      var k := i - 1;
      AllCollected(states, events, j, k, p);
      RunKeepsRobust(states, events, k);
      OneEvent(states, events, k);
      if events[k].pid == p {
        OwnSweepsIn(states[k], events[k], p);
      } else {
        OtherSweepsIn(states[k], events[k], p);
      }
    }
  }

  // ------------------------------------------------------------------ looking for orphans

  predicate Scanning(pc: CleanerPc) {
    pc.ScanVols? || pc.ScanImages? || pc.ScanDeps?
  }

  /** Some dependency file lists the volume. */
  ghost predicate Listed(s: Sys, v: VolId) {
    exists img :: img in s.deps && v in Needs(s.deps[img])
  }

  /** The scan has failed: a listing could not be read, or an image has no dependency file. */
  ghost predicate ScanFails(s: Sys, pc: CleanerPc) {
    pc.ScanVols? || pc.ScanImages? || (pc.ScanDeps? && exists img :: img in pc.images && img !in s.deps)
  }

  /** While it scans, the clean has v among its candidates. */
  predicate Found(d: Disk<VolId>, pc: CleanerPc, v: VolId, linked: bool, left: bool) {
    match pc
    case ScanVols => Unmarked(d, v, linked, left)
    case ScanImages(orphans) => v in orphans && Unmarked(d, v, linked, left)
    case ScanDeps(orphans, _) => v in orphans && Unmarked(d, v, linked, left)
    case _ => pc.Mark? || pc.Marking? || pc.DropExcl? || Past(pc)
  }

  ghost predicate FindsIn(s: Sys, p: Pid, v: VolId, linked: bool, left: bool) {
    p in s.procs && s.procs[p].Cleaner? && !v.Gc? && Found(s.disk, s.procs[p].kpc, v, linked, left)
  }

  lemma StepFound(s: Sys, pc: CleanerPc, pc': CleanerPc, eff: Effect, v: VolId, linked: bool, left: bool)
    requires CleanerMay(s, pc, pc', eff) && Found(s.disk, pc, v, linked, left) && !v.Gc?
    requires Scanning(pc) ==> !Listed(s, v)
    ensures Found(s.disk, pc', v, linked, left)
    ensures Scanning(pc) ==> !eff.Call? && (pc'.Mark? ==> v in pc'.todo || ScanFails(s, pc))
  {
  }

  lemma SameFound(d: Disk<VolId>, d': Disk<VolId>, pc: CleanerPc, v: VolId, linked: bool, left: bool)
    requires SameNames(d, d', v) && Found(d, pc, v, linked, left)
    ensures Found(d', pc, v, linked, left)
  {
  }

  lemma OtherFindsIn(s: Sys, ev: Event, p: Pid, v: VolId, linked: bool, left: bool)
    requires Robust(s) && Can(s, ev) && FindsIn(s, p, v, linked, left) && ev.pid != p
    ensures FindsIn(After(s, ev), p, v, linked, left)
  {
    OtherEvent(s, ev, p);
    if Scanning(s.procs[p].kpc) {
      OthersProgressed(s, ev, p, v);
      SameFound(s.disk, After(s, ev).disk, s.procs[p].kpc, v, linked, left);
    }
  }

  lemma ScanEvent(s: Sys, ev: Event, p: Pid, v: VolId, linked: bool, left: bool)
    requires Can(s, ev) && FindsIn(s, p, v, linked, left) && ev.pid == p && p in After(s, ev).procs
    requires Scanning(s.procs[p].kpc) && !Listed(s, v)
    ensures FindsIn(After(s, ev), p, v, linked, left) && SameNames(s.disk, After(s, ev).disk, v)
    ensures var pc' := After(s, ev).procs[p].kpc; pc'.Mark? && !ScanFails(s, s.procs[p].kpc) ==> v in pc'.todo
  {
    OwnEvent(s, ev, p);
    StepFound(s, s.procs[p].kpc, ev.next.value.kpc, ev.eff, v, linked, left);
    QuietDisk(s, p, ev.next, ev.eff);
    SameFound(s.disk, After(s, ev).disk, ev.next.value.kpc, v, linked, left);
  }

  lemma OwnFindsIn(s: Sys, ev: Event, p: Pid, v: VolId, linked: bool, left: bool)
    requires Can(s, ev) && FindsIn(s, p, v, linked, left) && ev.pid == p && p in After(s, ev).procs
    requires Scanning(s.procs[p].kpc) ==> !Listed(s, v)
    ensures FindsIn(After(s, ev), p, v, linked, left)
  {
    if Scanning(s.procs[p].kpc) {
      ScanEvent(s, ev, p, v, linked, left);
    } else {
      OwnEvent(s, ev, p);
      StepFound(s, s.procs[p].kpc, ev.next.value.kpc, ev.eff, v, linked, left);
    }
  }

  /** No dependency file lists v from state j to state i. */
  ghost predicate NeverListed(states: seq<Sys>, v: VolId, j: nat, i: nat)
    requires i < |states|
  {
    forall k :: j <= k <= i ==> !Listed(states[k], v)
  }

  lemma {:induction false} RunFindsIn(states: seq<Sys>, events: seq<Event>, j: nat, i: nat, p: Pid, v: VolId,
                                      linked: bool, left: bool)
    requires Run(states, events) && j <= i <= |events| && Ongoing(states, p, j, i) && NeverListed(states, v, j, i)
    requires FindsIn(states[j], p, v, linked, left)
    ensures FindsIn(states[i], p, v, linked, left)
  {
    if j < i {
      var k := i - 1;
      RunFindsIn(states, events, j, k, p, v, linked, left);
      RunKeepsRobust(states, events, k);
      OneEvent(states, events, k);
      assert !Listed(states[k], v);
      if events[k].pid == p {
        OwnFindsIn(states[k], events[k], p, v, linked, left);
      } else {
        OtherFindsIn(states[k], events[k], p, v, linked, left);
      }
    }
  }

  /** The clean p starts to scan at j, ends its scan with event m, drops the exclusive lock at n and is at its end
      at i. */
  ghost predicate Cleans(states: seq<Sys>, events: seq<Event>, p: Pid, j: nat, m: nat, n: nat, i: nat)
    requires Run(states, events)
  {
    && j <= m < n <= i <= |events| && Ongoing(states, p, j, i)
    && p in states[j].procs && states[j].procs[p] == Cleaner(ScanVols)
    && p in states[m].procs && states[m].procs[p].Cleaner? && Scanning(states[m].procs[p].kpc)
    && events[m].pid == p && states[m + 1].procs[p].Cleaner? && states[m + 1].procs[p].kpc.Mark?
    && states[n].procs[p] == Cleaner(DropExcl) && states[i].procs[p] == Cleaner(DropGc)
  }

  /** A clean that comes to its end, and whose scan has not failed, has taken away exactly those unmarked volumes listed
      by no dependency file that had a link file and no gc volume of their name left over; and it has collected every
      marked volume. */
  lemma Reclaimed(states: seq<Sys>, events: seq<Event>, p: Pid, j: nat, m: nat, n: nat, i: nat, v: VolId)
    requires Run(states, events) && Cleans(states, events, p, j, m, n, i)
    requires v in states[j].disk.vols && !v.Gc? && NeverListed(states, v, j, m)
    requires !ScanFails(states[m], states[m].procs[p].kpc)
    ensures v !in states[n].disk.vols <==> v in states[j].disk.links && Gc(v) !in states[j].disk.vols
    ensures forall w :: Gc(w) !in states[i].disk.vols
  {
    var linked, left := v in states[j].disk.links, Gc(v) in states[j].disk.vols;
    RunFindsIn(states, events, j, m, p, v, linked, left);
    RunKeepsRobust(states, events, m);
    OneEvent(states, events, m);
    ScanEvent(states[m], events[m], p, v, linked, left);
    MarkedIff(states, events, m + 1, n, p, v);
    AllCollected(states, events, n, i, p);
  }

  // ------------------------------------------------------------------ volumes made half

  /** The clean has yet to look for the link file of the volume that it is marking. */
  predicate Examines(proc: Proc) {
    proc.Cleaner? && proc.kpc.Marking? && (proc.kpc.op.MvStat? || proc.kpc.op.MvRead?)
  }

  /** A temporary volume without a link file, of which no create knows any more. */
  ghost predicate HalfMade(s: Sys, v: VolId) {
    && v.Incomplete? && v in s.disk.vols && v !in s.disk.links
    && forall q :: q in s.procs && Claims(s.procs[q], v) ==> Examines(s.procs[q])
  }

  lemma CreatorNewClaim(d: Disk<VolId>, p: Pid, c: Proc, c': Proc, eff: Effect, tags: map<nat, Pid>, v: VolId)
    requires c.Creator? && c'.Creator? && c'.top == c.top && CreatorMay(d, c, c'.cpc, eff) && Shape(p, c, tags)
    requires v.Incomplete? && Claims(c', v) && !Claims(c, v)
    ensures eff.NewTag? && eff.tag == v.tag
  {
  }

  lemma CleanerNewClaim(s: Sys, p: Pid, pc: CleanerPc, pc': CleanerPc, eff: Effect, v: VolId)
    requires CleanerMay(s, pc, pc', eff) && Shape(p, Cleaner(pc), s.tags)
    requires v.Incomplete? && Claims(Cleaner(pc'), v) && !Claims(Cleaner(pc), v)
    ensures Examines(Cleaner(pc'))
  {
  }

  lemma NewClaim(s: Sys, p: Pid, next: Option<Proc>, eff: Effect, v: VolId)
    requires Step(s, p, next, eff) && next.Some? && v.Incomplete? && Shape(p, s.procs[p], s.tags)
    requires Claims(next.value, v) && !Claims(s.procs[p], v)
    ensures Examines(next.value) || (eff.NewTag? && eff.tag == v.tag)
  {
    if s.procs[p].Creator? {
      CreatorNewClaim(s.disk, p, s.procs[p], next.value, eff, s.tags, v);
    } else if s.procs[p].Cleaner? {
      CleanerNewClaim(s, p, s.procs[p].kpc, next.value.kpc, eff, v);
    }
  }

  lemma ExaminedStays(s: Sys, p: Pid, next: Option<Proc>, eff: Effect, v: VolId)
    requires Step(s, p, next, eff) && Shape(p, s.procs[p], s.tags) && v.Incomplete? && v !in s.disk.links
    requires Claims(s.procs[p], v) && Examines(s.procs[p])
    ensures Apply(s, p, next, eff).disk == s.disk && next.Some? && (Claims(next.value, v) ==> Examines(next.value))
  {
  }

  lemma EventKeepsHalfMade(s: Sys, ev: Event, v: VolId)
    requires Robust(s) && Can(s, ev) && HalfMade(s, v)
    ensures HalfMade(After(s, ev), v)
  {
    AfterProcs(s, ev);
    if ev.Move? {
      assert Shape(ev.pid, s.procs[ev.pid], s.tags);
      if Claims(s.procs[ev.pid], v) {
        ExaminedStays(s, ev.pid, ev.next, ev.eff, v);
      } else {
        EventFrame(s, ev, v);
        if ev.next.Some? && Claims(ev.next.value, v) { NewClaim(s, ev.pid, ev.next, ev.eff, v); }
      }
    }
  }

  /** Such a volume stays for ever: no clean can mark it, and no create takes it up. */
  lemma {:induction false} HalfMadeStays(states: seq<Sys>, events: seq<Event>, j: nat, i: nat, v: VolId)
    requires Run(states, events) && j <= i <= |events| && HalfMade(states[j], v)
    ensures HalfMade(states[i], v)
  {
    if j < i {
      HalfMadeStays(states, events, j, i - 1, v);
      RunKeepsRobust(states, events, i - 1);
      EventKeepsHalfMade(states[i - 1], events[i - 1], v);
    }
  }
}
