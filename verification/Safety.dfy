/** What holds in every state of every run: with crashes of any process at any call, with crashes that leave
    no gc volume behind, and with no crash at all. */
module Safety {
  import opened Wrappers
  import opened Disk
  import opened Protocol
  import opened Invariant
  import opened Surviving
  import opened Imaging
  import opened Publishing
  import opened Indexing
  import opened Stepping

  // ------------------------------------------------------------------ the invariants hold in runs

  lemma EmptyRobust()
    ensures Robust(Empty()) && Orderly(Empty()) && Tidy(Empty())
  {
  }

  /** The robust invariant holds in every state of every run. */
  lemma {:induction false} RunKeepsRobust(states: seq<Sys>, events: seq<Event>, i: nat)
    requires Run(states, events) && i <= |events|
    ensures Robust(states[i])
  {
    if i == 0 {
      EmptyRobust();
    } else {
      RunKeepsRobust(states, events, i - 1);
      EventKeepsRobust(states[i - 1], events[i - 1]);
    }
  }

  /** In the first i events no clean has crashed or run into its time limit while a gc volume existed. */
  ghost predicate CleansEnd(states: seq<Sys>, events: seq<Event>, i: nat)
    requires i <= |events| <= |states|
  {
    forall k :: 0 <= k < i ==> !CutsClean(states[k], events[k])
  }

  /** The orderly invariant holds as long as no clean has been cut off while a gc volume existed, whatever else has
      crashed. */
  lemma {:induction false} RunKeepsOrderly(states: seq<Sys>, events: seq<Event>, i: nat)
    requires Run(states, events) && i <= |events| && CleansEnd(states, events, i)
    ensures Orderly(states[i])
  {
    if i == 0 {
      EmptyRobust();
    } else {
      RunKeepsOrderly(states, events, i - 1);
      RunKeepsRobust(states, events, i - 1);
      EventKeepsOrderly(states[i - 1], events[i - 1]);
    }
  }

  lemma NoCrashCleansEnd(states: seq<Sys>, events: seq<Event>, i: nat)
    requires Run(states, events) && i <= |events| && NoCrash(events, i)
    ensures CleansEnd(states, events, i)
  {
  }

  /** The tidy invariant holds as long as nothing has crashed. */
  lemma {:induction false} RunKeepsTidy(states: seq<Sys>, events: seq<Event>, i: nat)
    requires Run(states, events) && i <= |events| && NoCrash(events, i)
    ensures Tidy(states[i])
  {
    if i == 0 {
      EmptyRobust();
    } else {
      RunKeepsTidy(states, events, i - 1);
      RunKeepsRobust(states, events, i - 1);
      NoCrashCleansEnd(states, events, i - 1);
      RunKeepsOrderly(states, events, i - 1);
      EventKeepsTidy(states[i - 1], events[i - 1]);
    }
  }

  // ------------------------------------------------------------------ GC safety, in all runs

  /** The lower directories in an image's mount options resolve: each short id is a symlink to the directory
      of the right layer, which exists, and whose link file and metadata agree. */
  ghost predicate Mountable(d: Disk<VolId>, im: Image) {
    && |im.lowers| == |im.top|
    && forall k :: 1 <= k <= |im.top| ==>
         && Final(im.top[..k]) in d.vols
         && Final(im.top[..k]) in d.metas
         && Final(im.top[..k]) in d.links && d.links[Final(im.top[..k])] == im.lowers[|im.top| - k]
         && im.lowers[|im.top| - k] in d.syms && d.syms[im.lowers[|im.top| - k]] == Final(im.top[..k])
  }

  /** No operation in flight works on a base volume of an image that is not exposed. */
  lemma NeededUnclaimed(s: Sys, img: ImageId, v: VolId)
    requires Robust(s) && img in s.images && !s.images[img].exposed
    requires v in Needs(s.images[img].top) && v in s.disk.vols
    ensures !Claimed(s.procs, v)
  {
    forall q | q in s.procs ensures !Claims(s.procs[q], v) {
      PublishedClaim(s, q, v);
      if s.excl == Some(q) {
        assert Shape(q, s.procs[q], s.tags);
        MarkingSpares(s, q, v, img);
      }
    }
  }

  lemma ReadyMountable(s: Sys, img: ImageId)
    requires Robust(s) && img in s.images && Finished(s.images[img])
    ensures Mountable(s.disk, s.images[img])
  {
    var im := s.images[img];
    assert LowersOk(s.disk, im.top, 0, im.lowers);
    forall k | 1 <= k <= |im.top|
      ensures Present(s.disk, Final(im.top[..k]), im.lowers[|im.top| - k]) && AtRest(s.disk, Final(im.top[..k]))
    {
      assert Final(im.top[..k]) in Needs(im.top);
      NeededUnclaimed(s, img, Final(im.top[..k]));
    }
  }

  /** GC safety: however creates, deletes and cleans interleave, and wherever any of them crashes or a clean is stopped
      by its time limit, in every state of every run every existing image whose creation has finished, and that is not
      exposed, keeps all its base volumes, and its mount options resolve to them. */
  lemma GcSafety(states: seq<Sys>, events: seq<Event>, i: nat, img: ImageId)
    requires Run(states, events) && i <= |events|
    requires img in states[i].images && Finished(states[i].images[img])
    ensures Mountable(states[i].disk, states[i].images[img])
  {
    RunKeepsRobust(states, events, i);
    ReadyMountable(states[i], img);
  }

  /** An image that no create in flight is making and that has not been left behind is finished, and a dependency file
      under its id lists its layers; so GcSafety covers every completed image. */
  lemma CompletedReady(states: seq<Sys>, events: seq<Event>, i: nat, img: ImageId)
    requires Run(states, events) && i <= |events| && img in states[i].images
    requires !InMaking(states[i].procs, img, states[i].images[img]) && !states[i].images[img].abandoned
    ensures Finished(states[i].images[img])
    ensures img in states[i].deps ==> states[i].deps[img] == states[i].images[img].top
  {
    RunKeepsRobust(states, events, i);
  }

  /** An image is left behind only when the create that was making it crashes, or fails to remove it or to change its
      owner, before it has been registered. It is exposed, and no longer covered by GcSafety, exactly if there is then an
      old dependency file under its id that does not list all its layers. */
  lemma LeftBehindOnly(states: seq<Sys>, events: seq<Event>, i: nat, img: ImageId)
    requires Run(states, events) && i < |events| && img in states[i + 1].images && states[i + 1].images[img].abandoned
    requires img in states[i].images ==> !states[i].images[img].abandoned
    ensures img in states[i].images && InMaking(states[i].procs, img, states[i].images[img])
    ensures var p := states[i].images[img].maker;
            events[i] == Crash(p) || (events[i].Move? && events[i].pid == p && events[i].eff == Abandon(img))
    ensures states[i + 1].images[img].exposed
            <==> img in states[i].deps && !(states[i].images[img].top <= states[i].deps[img])
  {
    RunKeepsRobust(states, events, i);
    var s, ev := states[i], events[i];
    if ev.Move? {
      ImageEffect(s, ev.pid, ev.next, ev.eff);
      if s.procs[ev.pid].Creator? { assert MakerOk(ev.pid, s.procs[ev.pid], s.images, s.disk); }
    }
  }

  /** While an image that is not exposed exists, nothing works on the base volumes it has, and each of them that has its
      link file has its symlink too. */
  lemma NeededAtRest(states: seq<Sys>, events: seq<Event>, i: nat, img: ImageId, v: VolId)
    requires Run(states, events) && i <= |events| && img in states[i].images && !states[i].images[img].exposed
    requires v in Needs(states[i].images[img].top) && v in states[i].disk.vols
    ensures !Claimed(states[i].procs, v)
    ensures v in states[i].disk.links ==> AtRest(states[i].disk, v)
  {
    RunKeepsRobust(states, events, i);
    NeededUnclaimed(states[i], img, v);
  }

  /** The call that renames a volume directory to `to`. */
  predicate Renames(ev: Event, from: VolId, to: VolId) {
    ev.Move? && ev.eff.Call? && ev.eff.op.MvDir? && ev.eff.op.from == from && ev.eff.op.to == to
  }

  /** A layer is never published onto one that is there. */
  lemma PublishedOnce(states: seq<Sys>, events: seq<Event>, i: nat, from: VolId, c: Chain)
    requires Run(states, events) && i < |events| && Renames(events[i], from, Final(c))
    ensures from.Incomplete? && from in states[i].disk.vols && Final(c) !in states[i].disk.vols
    ensures states[i + 1].disk.vols == states[i].disk.vols - {from} + {Final(c)}
    ensures AtRest(states[i + 1].disk, Final(c))
  {
    RunKeepsRobust(states, events, i);
    var s, ev := states[i], events[i];
    CallIsCalling(s, ev.pid, ev.next, ev.eff);
    ClaimSpot(s, ev.pid);
    assert Shape(ev.pid, s.procs[ev.pid], s.tags);
  }

  /** A destroy of a name that has no directory spares every directory, and what belongs to a volume that has one. */
  lemma DestroySpares(d: Disk<VolId>, op: Op<VolId>, gen: ShortId, shorts: set<ShortId>, v: VolId)
    requires OpSafe(d, op) && ShortsInv(d, shorts) && IsDestroy(op) && op.id !in d.vols
    ensures var d' := OpStep(d, op, gen).disk;
            && d'.vols == d.vols
            && (v in d.vols ==> v in d.links ==> v in d'.links && d'.links[v] == d.links[v])
            && (v in d.vols ==> v in d.metas ==> v in d'.metas)
            && (v in d.vols ==> AtRest(d, v) ==> AtRest(d', v))
  {
    if v !in Ids(op) { SafeFrame(d, op, gen, shorts, v); }
  }

  /** The cleanup after a failed unpack, DestroyVolume of the chain id, works on a layer that is not published: no
      directory goes, and no other volume's link file, metadata or symlink. */
  lemma UndoSparesOthers(states: seq<Sys>, events: seq<Event>, i: nat, v: VolId)
    requires Run(states, events) && i < |events| && events[i].Move? && events[i].pid in states[i].procs
    requires states[i].procs[events[i].pid].Creator? && states[i].procs[events[i].pid].cpc.Undo?
    ensures var d, d' := states[i].disk, states[i + 1].disk;
            && d'.vols == d.vols
            && (v in d.vols ==> v in d.links ==> v in d'.links && d'.links[v] == d.links[v])
            && (v in d.vols ==> v in d.metas ==> v in d'.metas)
            && (v in d.vols ==> AtRest(d, v) ==> AtRest(d', v))
  {
    RunKeepsRobust(states, events, i);
    var s, ev := states[i], events[i];
    CallIsCalling(s, ev.pid, ev.next, ev.eff);
    ClaimSpot(s, ev.pid);
    assert Shape(ev.pid, s.procs[ev.pid], s.tags);
    DestroySpares(s.disk, ev.eff.op, ev.eff.gen, s.shorts, v);
  }

  // ------------------------------------------------------------------ publication, when no gc volume is left behind

  /** Ancestor closure: while no clean holds the exclusive lock, every layer below a published layer is
      published. */
  lemma AncestorClosure(states: seq<Sys>, events: seq<Event>, i: nat, c: Chain, k: nat)
    requires Run(states, events) && i <= |events| && CleansEnd(states, events, i) && states[i].excl.None?
    requires Final(c) in states[i].disk.vols && 1 <= k <= |c|
    ensures Final(c[..k]) in states[i].disk.vols
  {
    RunKeepsOrderly(states, events, i);
    assert c[..|c|] == c;
    ClosedDown(states[i].disk, c, |c|);
  }

  /** A create that has pulled its layers finds every one of them, however many were built by others and
      however early buildLayer returned. */
  lemma PullComplete(states: seq<Sys>, events: seq<Event>, i: nat, p: Pid)
    requires Run(states, events) && i <= |events| && CleansEnd(states, events, i)
    requires p in states[i].procs && states[i].procs[p].Creator?
    requires states[i].procs[p].cpc.MakeImage? || states[i].procs[p].cpc.Lower? || states[i].procs[p].cpc.Finish?
             || states[i].procs[p].cpc.Register?
    ensures Needs(states[i].procs[p].top) <= states[i].disk.vols
  {
    RunKeepsOrderly(states, events, i);
    assert PulledOk(states[i].disk, states[i].procs[p]);
  }

  /** Atomic publication: while no clean holds the exclusive lock, a layer whose directory exists has its
      metadata, its link file, and a symlink back to it. */
  lemma AtomicPublication(states: seq<Sys>, events: seq<Event>, i: nat, c: Chain)
    requires Run(states, events) && i <= |events| && CleansEnd(states, events, i) && states[i].excl.None?
    requires Final(c) in states[i].disk.vols
    ensures AtRest(states[i].disk, Final(c)) && Final(c) in states[i].disk.metas
  {
    RunKeepsRobust(states, events, i);
    RunKeepsOrderly(states, events, i);
    PublishedAtRest(states[i], c);
  }

  /** The layer that getLowerDirs looks at is there, with its link file and metadata: pulling was complete. */
  lemma LowerFound(s: Sys, p: Pid)
    requires Robust(s) && Orderly(s)
    requires p in s.procs && s.procs[p].Creator? && s.procs[p].cpc.Lower? && 1 <= s.procs[p].cpc.i
    ensures s.procs[p].cpc.i <= |s.procs[p].top|
    ensures var v := Final(s.procs[p].top[..s.procs[p].cpc.i]);
            v in s.disk.vols && v in s.disk.metas && v in s.disk.links
  {
    var c := s.procs[p];
    assert LevelsOk(c) && PulledOk(s.disk, c);
    PublishedAtRest(s, c.top[..c.cpc.i]);
  }

  /** getLowerDirs never fails: a create that has pulled its layers reads the short id of each. */
  lemma LowerDirsSucceed(states: seq<Sys>, events: seq<Event>, i: nat)
    requires Run(states, events) && i < |events| && CleansEnd(states, events, i)
    requires events[i].Move? && events[i].pid in states[i].procs
    requires states[i].procs[events[i].pid].Creator? && states[i].procs[events[i].pid].cpc.Lower?
    ensures events[i].next.Some? && events[i].next.value.Creator? && !events[i].next.value.cpc.Rollback?
  {
    RunKeepsRobust(states, events, i);
    RunKeepsOrderly(states, events, i);
    var p := events[i].pid;
    if states[i].procs[p].cpc.i > 0 { LowerFound(states[i], p); }
  }

  /** Every rename of a volume directory finds its source and no target: the driver's "already exists" branch
      is never taken, neither when a layer is published nor when a volume is marked. */
  lemma RenamesAreFresh(states: seq<Sys>, events: seq<Event>, i: nat, from: VolId, to: VolId)
    requires Run(states, events) && i < |events| && CleansEnd(states, events, i) && Renames(events[i], from, to)
    ensures from in states[i].disk.vols && to !in states[i].disk.vols
    ensures states[i + 1].disk.vols == states[i].disk.vols - {from} + {to}
  {
    RunKeepsRobust(states, events, i);
    RunKeepsOrderly(states, events, i);
    RenameFresh(states[i], events[i].pid, events[i].next, events[i].eff);
  }

  lemma RenameFresh(s: Sys, p: Pid, next: Option<Proc>, eff: Effect)
    requires Step(s, p, next, eff) && Robust(s) && Orderly(s) && eff.Call? && eff.op.MvDir?
    ensures eff.op.from in s.disk.vols && eff.op.to !in s.disk.vols
    ensures Apply(s, p, next, eff).disk.vols == s.disk.vols - {eff.op.from} + {eff.op.to}
  {
    CallIsCalling(s, p, next, eff);
    CallsInOperation(s, p, next, eff);
    CallOrderly(s, p, eff.op, eff.gen);
  }

  /** A clean marks by renaming to a gc name, and no gc volume exists while no clean is running, as long as none was cut
      off while one existed. */
  lemma NoGcOutsideClean(states: seq<Sys>, events: seq<Event>, i: nat, w: VolId)
    requires Run(states, events) && i <= |events| && CleansEnd(states, events, i) && states[i].gcLock.None?
    ensures Gc(w) !in states[i].disk.vols && Gc(w) !in states[i].disk.links
  {
    RunKeepsOrderly(states, events, i);
  }

  /** And that is exactly the condition: no gc volume has ever existed without a clean to collect it if and only if no
      clean was cut off while one existed. */
  lemma NoGcIff(states: seq<Sys>, events: seq<Event>, i: nat)
    requires Run(states, events) && i <= |events|
    ensures (forall j :: 0 <= j <= i && states[j].gcLock.None? ==> NoGc(states[j].disk)) <==> CleansEnd(states, events, i)
  {
    if CleansEnd(states, events, i) {
      forall j | 0 <= j <= i && states[j].gcLock.None? ensures NoGc(states[j].disk) {
        RunKeepsOrderly(states, events, j);
      }
    } else {
      var k :| 0 <= k < i && CutsClean(states[k], events[k]);
      RunKeepsRobust(states, events, k);
      CutFreesLock(states[k], events[k].pid);
      assert Can(states[k], events[k]) && states[k + 1] == Crashed(states[k], events[k].pid);
      assert states[k + 1].gcLock.None? && !NoGc(states[k + 1].disk);
    }
  }

  lemma CutFreesLock(s: Sys, p: Pid)
    requires LocksInv(s) && p in s.procs && Cleaning(s.procs[p])
    ensures Crashed(s, p).gcLock.None? && Crashed(s, p).disk == s.disk
  {
  }

  // ------------------------------------------------------------------ quiescence

  lemma NoLocksLeft(s: Sys)
    requires LocksInv(s) && s.procs == map[]
    ensures s.shared == {} && s.excl.None? && s.gcLock.None? && s.chainLocks == map[]
  {
    assert forall q, c :: !Holds(s.procs, q, c);
    assert s.chainLocks.Keys == {};
  }

  /** When no process is left, no lock is held, whatever has crashed, and every image that is not exposed is ready, or
      has been left behind; if it is ready it has its base volumes. */
  lemma AtTheEnd(states: seq<Sys>, events: seq<Event>, i: nat)
    requires Run(states, events) && i <= |events| && states[i].procs == map[]
    ensures states[i].shared == {} && states[i].excl.None? && states[i].gcLock.None? && states[i].chainLocks == map[]
    ensures forall img :: img in states[i].images && !states[i].images[img].exposed ==>
              && (states[i].images[img].ready || states[i].images[img].abandoned)
              && (states[i].images[img].ready ==> Mountable(states[i].disk, states[i].images[img]))
  {
    RunKeepsRobust(states, events, i);
    var s := states[i];
    NoLocksLeft(s);
    forall img | img in s.images && !s.images[img].exposed
      ensures s.images[img].ready || s.images[img].abandoned
      ensures s.images[img].ready ==> Mountable(s.disk, s.images[img])
    {
      assert Settled(s.procs, s.deps, img, s.images[img]);
      if s.images[img].ready { ReadyMountable(s, img); }
    }
  }

  /** When besides no clean was cut off while a gc volume existed, every published layer is complete and has a published parent, and nothing is
      marked. */
  lemma OrderlyAtTheEnd(states: seq<Sys>, events: seq<Event>, i: nat)
    requires Run(states, events) && i <= |events| && CleansEnd(states, events, i) && states[i].procs == map[]
    ensures NoGc(states[i].disk) && Closed(states[i].disk.vols) && MetaInv(states[i].disk)
    ensures forall c :: Final(c) in states[i].disk.vols ==> AtRest(states[i].disk, Final(c))
  {
    AtTheEnd(states, events, i);
    RunKeepsRobust(states, events, i);
    RunKeepsOrderly(states, events, i);
    forall c | Final(c) in states[i].disk.vols ensures AtRest(states[i].disk, Final(c)) { PublishedAtRest(states[i], c); }
  }

  // ------------------------------------------------------------------ when nothing crashes

  /** The cleanup after a failed unpack then never touches a directory, a link file or a symlink at all. */
  lemma UndoHarmless(states: seq<Sys>, events: seq<Event>, i: nat)
    requires Run(states, events) && i < |events| && NoCrash(events, i)
    requires events[i].Move? && events[i].pid in states[i].procs
    requires states[i].procs[events[i].pid].Creator? && states[i].procs[events[i].pid].cpc.Undo?
    ensures states[i + 1].disk.vols == states[i].disk.vols
    ensures states[i + 1].disk.links == states[i].disk.links
    ensures states[i + 1].disk.syms == states[i].disk.syms
  {
    RunKeepsRobust(states, events, i);
    RunKeepsTidy(states, events, i);
    var s, p := states[i], events[i].pid;
    CallExpected(s, p, events[i].next, events[i].eff);
    assert UnlinkedOk(s.disk, s.procs[p]) && LevelsOk(s.procs[p]) && Shape(p, s.procs[p], s.tags);
    UndoLocal(s.disk, s.procs[p], events[i].next.value, events[i].eff, p, s.tags);
  }

  /** When no process is left, link files, symlinks and directories are in bijection. */
  lemma Quiescent(states: seq<Sys>, events: seq<Event>, i: nat)
    requires Run(states, events) && i <= |events| && NoCrash(events, i) && states[i].procs == map[]
    ensures var d := states[i].disk;
            && d.links.Keys == d.vols
            && (forall v :: v in d.links ==> d.links[v] in d.syms && d.syms[d.links[v]] == v)
            && (forall short :: short in d.syms ==> d.syms[short] in d.links && d.links[d.syms[short]] == short)
  {
    RunKeepsTidy(states, events, i);
  }
}
