/** Registration over whole runs: a delete removes an image's dependency file exactly if it has removed the image, and
    only such a delete takes the file from a completed image. */
module Registering {
  import opened Wrappers
  import opened Protocol
  import opened Invariant
  import opened Imaging
  import opened Progress
  import opened Safety

  predicate RemovesImage(ev: Event, p: Pid, img: ImageId) {
    ev.Move? && ev.pid == p && ev.eff == RemoveImage(img)
  }

  predicate RemovesDeps(ev: Event, p: Pid, img: ImageId) {
    ev.Move? && ev.pid == p && ev.eff == RemoveDeps(img)
  }

  /** Process p is there from after event j until before event i. */
  ghost predicate Ongoing(states: seq<Sys>, p: Pid, j: nat, i: nat)
    requires i < |states|
  {
    forall k :: j < k <= i ==> p in states[k].procs
  }

  /** Process p, still the same at i, has removed the image by event j. */
  ghost predicate HasRemoved(states: seq<Sys>, events: seq<Event>, p: Pid, img: ImageId, j: nat, i: nat)
    requires i < |states| && i <= |events|
  {
    j < i && RemovesImage(events[j], p, img) && Ongoing(states, p, j, i)
  }

  // ------------------------------------------------------------------ one delete

  /** How a delete moves: to removing the dependency file by removing the image, and from there to its end. */
  lemma DeleteMoves(s: Sys, p: Pid, next: Option<Proc>, eff: Effect)
    requires Step(s, p, next, eff)
    ensures next.Some? && next.value.Deleter? && next.value.dpc.Deregister? ==> eff == RemoveImage(next.value.img)
    ensures s.procs[p].Deleter? && eff.RemoveImage? ==> next == Some(Deleter(eff.img, Deregister))
    ensures s.procs[p].Deleter? && s.procs[p].dpc.Deregister? ==> next.None? && eff == RemoveDeps(s.procs[p].img)
    ensures eff.RemoveDeps? ==> s.procs[p] == Deleter(eff.img, Deregister)
    ensures next.Some? ==> (next.value.Deleter? <==> s.procs[p].Deleter?)
  {
  }

  function ProcsAfter(procs: map<Pid, Proc>, ev: Event): map<Pid, Proc> {
    match ev
    case Spawn(p, proc) => procs[p := proc]
    case Move(p, next, _) => Moved(procs, p, next)
    case Crash(p) => procs - {p}
  }

  lemma AfterProcs(s: Sys, ev: Event)
    requires Can(s, ev)
    ensures After(s, ev).procs == ProcsAfter(s.procs, ev)
  {
    match ev
    case Spawn(_, _) =>
    case Move(p, next, eff) => MovedProcs(s, p, next, eff);
    case Crash(_) =>
  }

  /** What has become of process p. */
  lemma OneProcess(procs: map<Pid, Proc>, ev: Event, p: Pid)
    requires p in ProcsAfter(procs, ev)
    ensures var q := ProcsAfter(procs, ev)[p];
            || (p in procs && procs[p] == q)
            || (ev.Move? && ev.pid == p && ev.next == Some(q))
            || (ev.Spawn? && ev.pid == p && ev.proc == q)
  {
  }

  lemma OneEvent(states: seq<Sys>, events: seq<Event>, i: nat)
    requires Run(states, events) && i < |events|
    ensures Can(states[i], events[i]) && states[i + 1] == After(states[i], events[i])
  {
  }

  /** A delete comes to removing the dependency file by removing the image. */
  lemma StartsDeregistering(s: Sys, ev: Event, p: Pid, img: ImageId)
    requires Can(s, ev) && p in After(s, ev).procs && After(s, ev).procs[p] == Deleter(img, Deregister)
    ensures (p in s.procs && s.procs[p] == Deleter(img, Deregister)) || RemovesImage(ev, p, img)
  {
    AfterProcs(s, ev);
    OneProcess(s.procs, ev, p);
    if ev.Move? { DeleteMoves(s, ev.pid, ev.next, ev.eff); }
  }

  /** A delete that is about to remove the dependency file has removed the image. */
  lemma {:induction false} RemovedBefore(states: seq<Sys>, events: seq<Event>, i: nat, p: Pid, img: ImageId)
    returns (j: nat)
    requires Run(states, events) && i <= |events|
    requires p in states[i].procs && states[i].procs[p] == Deleter(img, Deregister)
    ensures HasRemoved(states, events, p, img, j, i)
  {
    assert i > 0;
    OneEvent(states, events, i - 1);
    StartsDeregistering(states[i - 1], events[i - 1], p, img);
    if RemovesImage(events[i - 1], p, img) {
      j := i - 1;
    } else {
      j := RemovedBefore(states, events, i - 1, p, img);
    }
  }

  /** A delete that removes the image, or has removed it, is about to remove the dependency file. */
  lemma KeepsDeregistering(s: Sys, ev: Event, p: Pid, img: ImageId)
    requires Can(s, ev) && p in s.procs && p in After(s, ev).procs && After(s, ev).procs[p].Deleter?
    requires RemovesImage(ev, p, img) || (s.procs[p].Deleter? ==> s.procs[p] == Deleter(img, Deregister))
    ensures After(s, ev).procs[p] == Deleter(img, Deregister)
  {
    AfterProcs(s, ev);
    OneProcess(s.procs, ev, p);
    if ev.Move? { DeleteMoves(s, ev.pid, ev.next, ev.eff); }
  }

  lemma RemovedEarlier(states: seq<Sys>, events: seq<Event>, i: nat, p: Pid, img: ImageId, j: nat)
    requires i < |states| && i <= |events| && HasRemoved(states, events, p, img, j, i)
    ensures p in states[i].procs
    ensures j < i - 1 ==> HasRemoved(states, events, p, img, j, i - 1) && p in states[i - 1].procs
  {
  }

  /** A delete that has removed the image stays about to remove the dependency file. */
  lemma {:induction false} StaysRemoved(states: seq<Sys>, events: seq<Event>, i: nat, p: Pid, img: ImageId, j: nat)
    requires Run(states, events) && i <= |events| && HasRemoved(states, events, p, img, j, i)
    requires p in states[i].procs && states[i].procs[p].Deleter?
    ensures states[i].procs[p] == Deleter(img, Deregister)
  {
    var k := i - 1;
    OneEvent(states, events, k);
    RemovedEarlier(states, events, i, p, img, j);
    if j < k && states[k].procs[p].Deleter? { StaysRemoved(states, events, k, p, img, j); }
    KeepsDeregistering(states[k], events[k], p, img);
  }

  /** The dependency file goes only after the image, by the same process. */
  lemma DepsAfterImage(states: seq<Sys>, events: seq<Event>, i: nat, p: Pid, img: ImageId)
    requires Run(states, events) && i < |events| && RemovesDeps(events[i], p, img)
    ensures exists j: nat :: HasRemoved(states, events, p, img, j, i)
  {
    DeleteMoves(states[i], p, events[i].next, events[i].eff);
    var j := RemovedBefore(states, events, i, p, img);
  }

  /** A delete that ends without a crash removes the dependency file exactly if it has removed the image: when the image
      is not there, or cannot be unmounted, both stay as they are. */
  lemma DeleteEnds(states: seq<Sys>, events: seq<Event>, i: nat, p: Pid)
    requires Run(states, events) && i < |events| && events[i].Move? && events[i].pid == p && events[i].next.None?
    requires p in states[i].procs && states[i].procs[p].Deleter?
    ensures var img := states[i].procs[p].img;
            RemovesDeps(events[i], p, img) <==> exists j: nat :: HasRemoved(states, events, p, img, j, i)
  {
    var img := states[i].procs[p].img;
    DeleteMoves(states[i], p, events[i].next, events[i].eff);
    if RemovesDeps(events[i], p, img) { DepsAfterImage(states, events, i, p, img); }
    if j: nat :| HasRemoved(states, events, p, img, j, i) { StaysRemoved(states, events, i, p, img, j); }
  }

  // ------------------------------------------------------------------ completed images

  /** The image is there, no create in flight is making it, and none has left it behind. */
  predicate Completed(s: Sys, img: ImageId) {
    img in s.images && !InMaking(s.procs, img, s.images[img]) && !s.images[img].abandoned
  }

  /** Event k takes the dependency file from the completed image: it belongs to a delete that had removed an earlier
      image of that id by event j. */
  ghost predicate LateDelete(states: seq<Sys>, events: seq<Event>, img: ImageId, p: Pid, j: nat, k: nat)
    requires |states| == |events| + 1 && k < |events|
  {
    HasRemoved(states, events, p, img, j, k) && RemovesDeps(events[k], p, img) && Completed(states[k], img)
  }

  lemma RegisteredOne(s: Sys, p: Pid, next: Option<Proc>, eff: Effect, img: ImageId)
    requires p in s.procs && Enabled(s, eff) && ImageMoves(s, p, next, eff)
    requires s.procs[p].Creator? ==> MakerOk(p, s.procs[p], s.images, s.disk)
    requires img in s.images && InMaking(s.procs, img, s.images[img]) ==> s.images[img].maker == p
    requires Completed(Apply(s, p, next, eff), img)
    ensures img in Apply(s, p, next, eff).deps || (Completed(s, img) && (img in s.deps ==> eff == RemoveDeps(img)))
  {
  }

  lemma StepKeepsRegistered(s: Sys, p: Pid, next: Option<Proc>, eff: Effect, img: ImageId)
    requires Step(s, p, next, eff) && MakersInv(s.procs, s.images, s.disk) && Completed(Apply(s, p, next, eff), img)
    ensures img in Apply(s, p, next, eff).deps || (Completed(s, img) && (img in s.deps ==> eff == RemoveDeps(img)))
  {
    ImageEffect(s, p, next, eff);
    assert s.procs[p].Creator? ==> MakerOk(p, s.procs[p], s.images, s.disk);
    if img in s.images && InMaking(s.procs, img, s.images[img]) && s.images[img].maker != p {
      StillInMaking(s, p, next, eff, img);
    } else {
      RegisteredOne(s, p, next, eff, img);
    }
  }

  lemma CrashKeepsRegistered(s: Sys, p: Pid, img: ImageId)
    requires p in s.procs && Completed(Crashed(s, p), img)
    ensures Completed(s, img)
  {
  }

  lemma SpawnKeepsRegistered(s: Sys, p: Pid, proc: Proc, img: ImageId)
    requires MaySpawn(s, p, proc) && Completed(s.(procs := s.procs[p := proc]), img)
    ensures Completed(s, img)
  {
  }

  lemma EventKeepsRegistered(s: Sys, ev: Event, img: ImageId)
    requires Robust(s) && Can(s, ev) && Completed(After(s, ev), img)
    ensures img in After(s, ev).deps
            || (Completed(s, img) && (img in s.deps ==> ev.Move? && ev.eff == RemoveDeps(img)))
  {
    match ev
    case Spawn(p, proc) => SpawnKeepsRegistered(s, p, proc, img);
    case Move(p, next, eff) => StepKeepsRegistered(s, p, next, eff, img);
    case Crash(p) => CrashKeepsRegistered(s, p, img);
  }

  /** A completed image has its dependency file, which lists its layers, unless a delete that had removed an earlier
      image of the same id took it. */
  lemma {:induction false} CompletedRegistered(states: seq<Sys>, events: seq<Event>, i: nat, img: ImageId)
    requires Run(states, events) && i <= |events| && Completed(states[i], img)
    ensures || (img in states[i].deps && states[i].deps[img] == states[i].images[img].top)
            || exists p, j: nat, k: nat :: k < i && LateDelete(states, events, img, p, j, k)
  {
    if img in states[i].deps {
      CompletedReady(states, events, i, img);
    } else if i > 0 {
      var k := i - 1;
      RunKeepsRobust(states, events, k);
      EventKeepsRegistered(states[k], events[k], img);
      CompletedRegistered(states, events, k, img);
      if img in states[k].deps {
        var p := events[k].pid;
        assert RemovesDeps(events[k], p, img);
        DepsAfterImage(states, events, k, p, img);
        var j: nat :| HasRemoved(states, events, p, img, j, k);
        assert LateDelete(states, events, img, p, j, k);
      }
    }
  }

  // ------------------------------------------------------------------ a run with a late delete

  const IMAGE := ImageId("image")

  /** Process p, which holds the shared lock, creates an image without layers. */
  function Creating(s: Sys, p: Pid, pc: CreatorPc): Sys {
    s.(shared := s.shared + {p}, procs := s.procs[p := Creator(IMAGE, [], pc)])
  }

  predicate Builds(eff: Effect) {
    eff.Nothing? || eff.MakeDir? || eff.SetReady? || eff.WriteDeps?
  }

  lemma StaysCreating(s: Sys, p: Pid, pc: CreatorPc, pc': CreatorPc, eff: Effect)
    requires Builds(eff) && (eff.SetReady? ==> eff.img in s.images)
    ensures var t := Apply(Creating(s, p, pc), p, Some(Creator(IMAGE, [], pc')), eff);
            t == Creating(s.(images := t.images, deps := t.deps), p, pc')
  {
    var c, c' := Creator(IMAGE, [], pc), Creator(IMAGE, [], pc');
    assert s.procs[p := c][p := c'] == s.procs[p := c'];
  }

  lemma Proceed(s: Sys, p: Pid, pc: CreatorPc, pc': CreatorPc, eff: Effect)
    requires Reached(Creating(s, p, pc)) && CreatorMay(s.disk, Creator(IMAGE, [], pc), pc', eff) && Builds(eff)
    requires Enabled(Creating(s, p, pc), eff)
    ensures var t := Apply(Creating(s, p, pc), p, Some(Creator(IMAGE, [], pc')), eff);
            Reached(Creating(s.(images := t.images, deps := t.deps), p, pc'))
  {
    Reach(Creating(s, p, pc), Move(p, Some(Creator(IMAGE, [], pc')), eff));
    StaysCreating(s, p, pc, pc', eff);
  }

  /** Nothing keeps process p from creating the image. */
  predicate Clear(s: Sys, p: Pid) {
    && p !in s.procs && p !in s.shared && s.excl.None? && IMAGE !in s.images
    && forall q :: q in s.procs ==> !s.procs[q].Creator?
  }

  lemma Begin(s: Sys, p: Pid)
    requires Reached(s) && Clear(s, p)
    ensures Reached(Creating(s, p, MakeImage))
  {
    var c, next := Creator(IMAGE, [], WantShared), Some(Creator(IMAGE, [], Check(0)));
    Reach(s, Spawn(p, c));
    var t := s.(procs := s.procs[p := c]);
    Reach(t, Move(p, next, LockShared));
    assert t.procs[p := next.value] == s.procs[p := next.value];
    assert Apply(t, p, next, LockShared) == Creating(s, p, Check(0));
    Proceed(s, p, Check(0), MakeImage, Nothing);
  }

  lemma End(s: Sys, p: Pid)
    requires Reached(Creating(s, p, Done)) && p !in s.procs && p !in s.shared
    ensures Reached(s)
  {
    var u := Creating(s, p, Done);
    Reach(u, Move(p, None, UnlockShared));
    assert u.procs - {p} == s.procs && u.shared - {p} == s.shared;
    assert Apply(u, p, None, UnlockShared) == s;
  }

  function Made(s: Sys, p: Pid): Sys {
    s.(images := s.images[IMAGE := Image([], p, true, false, false, [])], deps := s.deps[IMAGE := []])
  }

  function With(s: Sys, im: Image): Sys {
    s.(images := s.images[IMAGE := im])
  }

  lemma MakeDirectory(s: Sys, p: Pid)
    requires Reached(Creating(s, p, MakeImage)) && IMAGE !in s.images
    ensures Reached(Creating(With(s, Image([], p, false, false, false, [])), p, Finish([])))
  {
    Proceed(s, p, MakeImage, Lower(0, []), MakeDir(IMAGE, []));
    Proceed(With(s, Image([], p, false, false, false, [])), p, Lower(0, []), Finish([]), Nothing);
  }

  lemma FinishImage(s: Sys, p: Pid, im: Image)
    requires Reached(Creating(With(s, im), p, Finish([])))
    ensures Reached(Creating(With(s, im.(ready := true, lowers := [])), p, Register))
  {
    var im' := im.(ready := true, lowers := []);
    Proceed(With(s, im), p, Finish([]), Register, SetReady(IMAGE, []));
    assert s.images[IMAGE := im][IMAGE := im'] == s.images[IMAGE := im'];
  }

  lemma CreateImage(s: Sys, p: Pid)
    requires Reached(s) && Clear(s, p)
    ensures Reached(Made(s, p))
  {
    Begin(s, p);
    MakeDirectory(s, p);
    FinishImage(s, p, Image([], p, false, false, false, []));
    Proceed(With(s, Image([], p, true, false, false, [])), p, Register, Done, WriteDeps(IMAGE, []));
    End(Made(s, p), p);
  }

  /** Process 1 has removed the image, and not yet its dependency file. */
  function Between(s: Sys): Sys {
    s.(images := s.images - {IMAGE}, procs := map[1 := Deleter(IMAGE, Deregister)])
  }

  lemma DeleteHalf(s: Sys)
    requires Reached(s) && s.procs == map[] && IMAGE in s.images
    ensures Reached(Between(s))
  {
    var d0, d1, d2 := Deleter(IMAGE, Exists), Deleter(IMAGE, Destroy), Deleter(IMAGE, Deregister);
    var s0, s1 := s.(procs := map[1 := d0]), s.(procs := map[1 := d1]);
    Reach(s, Spawn(1, d0));
    assert s.procs[1 := d0] == map[1 := d0];
    Reach(s0, Move(1, Some(d1), Nothing));
    assert map[1 := d0][1 := d1] == map[1 := d1];
    Reach(s1, Move(1, Some(d2), RemoveImage(IMAGE)));
    assert map[1 := d1][1 := d2] == map[1 := d2];
    assert Apply(s1, 1, Some(d2), RemoveImage(IMAGE)) == Between(s);
  }

  /** A create completes an image, a delete removes it, and another create completes an image under the same id before
      the delete removes the dependency file: no process is left, and the image stays without a dependency file. */
  lemma Unregistered() returns (states: seq<Sys>, events: seq<Event>)
    ensures Run(states, events)
    ensures var s := states[|events|];
            s.procs == map[] && Completed(s, IMAGE) && s.images[IMAGE].ready && IMAGE !in s.deps
  {
    var e := Empty();
    assert Ends([e], [], e);
    CreateImage(e, 0);
    DeleteHalf(Made(e, 0));
    var s := Between(Made(e, 0));
    CreateImage(s, 0);
    var t := Made(s, 0);
    var ev := Move(1, None, RemoveDeps(IMAGE));
    Reach(t, ev);
    states, events :| Ends(states, events, After(t, ev));
  }
}
