/**
 Project ids: the numbers under which the kernel accounts an image's disk usage. An id is taken by creating a
 directory for it, and given back by removing the directory when its image is destroyed.
 */
module ProjectIds {

  // ------------------------------------------------------------------ one allocation, undisturbed

  /** The numbers from a up to b. */
  function Interval(a: nat, b: nat): (ks: set<nat>)
    requires a <= b
    ensures |ks| == b - a && forall k :: k in ks <==> a <= k < b
  {
    if a == b then {} else Interval(a, b - 1) + {b - 1}
  }

  lemma SubsetSize(a: set<nat>, b: set<nat>)
    requires a <= b
    ensures |a| <= |b|
  {
    assert b == a + (b - a);
  }

  class Discoverer {
    var ids: set<nat>                         // the directories, named by their ids

    constructor ()
      ensures ids == {}
    {
      ids := {};
    }

    /** With n ids taken, finds the first free one from n + 1 on, skipping 1; it is at most 2n + 2. */
    method Alloc() returns (id: nat)
      modifies this
      ensures id !in old(ids) && ids == old(ids) + {id}
      ensures 2 <= id <= 2 * |old(ids)| + 2
      ensures forall k :: |old(ids)| < k < id && k != 1 ==> k in old(ids)
    {
      var nextId := |ids| + 1;
      id := UntilSucceeds(nextId);
    }

    method UntilSucceeds(startId: nat) returns (id: nat)
      requires startId >= 1
      modifies this
      ensures id !in old(ids) && ids == old(ids) + {id}
      ensures (if startId == 1 then 2 else startId) <= id <= (if startId == 1 then 2 else startId) + |old(ids)|
      ensures forall k :: startId <= k < id && k != 1 ==> k in old(ids)
    {
      id := startId;
      if id == 1 { id := 2; }
      ghost var first := id;
      while id in ids
        invariant first <= id && Interval(first, id) <= ids && id - first <= |ids|
        invariant ids == old(ids)
        decreases |ids| - (id - first)
      {
        SubsetSize(Interval(first, id + 1), ids);
        id := id + 1;
      }
      forall k | startId <= k < id && k != 1 ensures k in ids { assert k in Interval(first, id); }
      ids := ids + {id};
    }
  }

  // ------------------------------------------------------------------ many allocations and destroys at once

  type Pid = nat

  datatype Image = Image(name: string)

  /** Where a process is: creating an image's quota, or destroying an image. */
  datatype Proc =
    | Trying(img: Image, next: nat)           // about to try to create the directory for `next`
    | Holding(img: Image, id: nat)            // owns the directory, about to give the id to the image
    | Arriving(img: Image)                    // about to read the image's project id
    | Destroying(img: Image, id: nat)         // about to remove the image
    | Freeing(id: nat)                        // about to remove the id's directory

  /** Existing images and their project ids, 0 for none. */
  datatype State = State(ids: set<nat>, images: map<Image, nat>, procs: map<Pid, Proc>)

  function Start(n: nat): nat {
    if n == 0 then 2 else n + 1
  }

  datatype Event =
    | NewImage(img: Image)
    | BeginLimit(p: Pid, img: Image)
    | BeginDestroy(p: Pid, img: Image)
    | Step(p: Pid)
    | Crash(p: Pid)

  predicate Limits(proc: Proc, img: Image) {
    (proc.Trying? || proc.Holding?) && proc.img == img
  }

  predicate Destroys(proc: Proc, img: Image) {
    (proc.Arriving? || proc.Destroying?) && proc.img == img
  }

  /** No two limits of one image run at once, nor two destroys of one image; a limit is applied to an image that
      has none yet. */
  ghost predicate Can(s: State, ev: Event) {
    match ev
    case NewImage(img) => img !in s.images
    case BeginLimit(p, img) =>
      && p !in s.procs && img in s.images && s.images[img] == 0
      && forall q :: q in s.procs ==> !Limits(s.procs[q], img)
    case BeginDestroy(p, img) =>
      && p !in s.procs
      && forall q :: q in s.procs ==> !Destroys(s.procs[q], img)
    case Step(p) => p in s.procs
    case Crash(p) => p in s.procs
  }

  /** One step of process p: one file-system call. */
  function Stepped(s: State, p: Pid): State
    requires p in s.procs
  {
    match s.procs[p]
    case Trying(img, next) =>
      if next in s.ids then s.(procs := s.procs[p := Trying(img, next + 1)])
      else s.(ids := s.ids + {next}, procs := s.procs[p := Holding(img, next)])
    case Holding(img, id) =>
      s.(images := if img in s.images then s.images[img := id] else s.images, procs := s.procs - {p})
    case Arriving(img) =>
      if img in s.images then s.(procs := s.procs[p := Destroying(img, s.images[img])])
      else s.(procs := s.procs - {p})
    case Destroying(img, id) =>
      s.(images := s.images - {img}, procs := if id == 0 then s.procs - {p} else s.procs[p := Freeing(id)])
    case Freeing(id) =>
      s.(ids := s.ids - {id}, procs := s.procs - {p})
  }

  function After(s: State, ev: Event): State
    requires ev.Step? ==> ev.p in s.procs
  {
    match ev
    case NewImage(img) => s.(images := s.images[img := 0])
    case BeginLimit(p, img) => s.(procs := s.procs[p := Trying(img, Start(|s.ids|))])
    case BeginDestroy(p, img) => s.(procs := s.procs[p := Arriving(img)])
    case Step(p) => Stepped(s, p)
    case Crash(p) => s.(procs := s.procs - {p})
  }

  /** The id that a process owns. */
  predicate Owns(proc: Proc, id: nat) {
    (proc.Holding? && proc.id == id) || (proc.Freeing? && proc.id == id)
  }

  /** Ids that are owned are taken, and none is 0 or 1. */
  ghost predicate TakenInv(s: State) {
    && (forall img :: img in s.images && s.images[img] != 0 ==> s.images[img] in s.ids)
    && (forall p, id :: p in s.procs && Owns(s.procs[p], id) ==> id in s.ids)
    && (forall id :: id in s.ids ==> id >= 2)
    && (forall p :: p in s.procs && s.procs[p].Trying? ==> s.procs[p].next >= 2)
  }

  /** Every id has one owner: an image or a process. */
  ghost predicate ImagesApart(s: State) {
    forall a, b :: a in s.images && b in s.images && s.images[a] == s.images[b] != 0 ==> a == b
  }

  ghost predicate ImagesNotOwned(s: State) {
    forall a, p :: a in s.images && p in s.procs && s.images[a] != 0 ==> !Owns(s.procs[p], s.images[a])
  }

  ghost predicate OwnersApart(procs: map<Pid, Proc>) {
    forall p, q, id :: p in procs && q in procs && Owns(procs[p], id) && Owns(procs[q], id) ==> p == q
  }

  /** A limit's image has no id yet. */
  ghost predicate LimitsInv(s: State) {
    forall p, img :: p in s.procs && Limits(s.procs[p], img) && img in s.images ==> s.images[img] == 0
  }

  /** A destroy's image still has the id that was read. */
  ghost predicate DestroysInv(s: State) {
    forall p :: p in s.procs && s.procs[p].Destroying? && s.procs[p].id != 0 ==>
      s.procs[p].img in s.images && s.images[s.procs[p].img] == s.procs[p].id
  }

  ghost predicate LimitsApart(procs: map<Pid, Proc>) {
    forall p, q, img :: p in procs && q in procs && Limits(procs[p], img) && Limits(procs[q], img) ==> p == q
  }

  ghost predicate DestroysApart(procs: map<Pid, Proc>) {
    forall p, q, img :: p in procs && q in procs && Destroys(procs[p], img) && Destroys(procs[q], img) ==> p == q
  }

  ghost predicate Inv(s: State) {
    && TakenInv(s) && ImagesApart(s) && ImagesNotOwned(s) && OwnersApart(s.procs)
    && LimitsInv(s) && DestroysInv(s) && LimitsApart(s.procs) && DestroysApart(s.procs)
  }

  lemma KeepsTaken(s: State, ev: Event)
    requires TakenInv(s) && ImagesNotOwned(s) && OwnersApart(s.procs) && DestroysInv(s) && Can(s, ev)
    ensures TakenInv(After(s, ev))
  {
    if ev.Step? && s.procs[ev.p].Freeing? { assert Owns(s.procs[ev.p], s.procs[ev.p].id); }
    if ev.Step? && s.procs[ev.p].Holding? { assert Owns(s.procs[ev.p], s.procs[ev.p].id); }
  }

  lemma KeepsImagesApart(s: State, ev: Event)
    requires ImagesApart(s) && ImagesNotOwned(s) && Can(s, ev)
    ensures ImagesApart(After(s, ev))
  {
  }

  lemma KeepsNotOwned(s: State, ev: Event)
    requires TakenInv(s) && ImagesApart(s) && ImagesNotOwned(s) && OwnersApart(s.procs) && DestroysInv(s) && Can(s, ev)
    ensures ImagesNotOwned(After(s, ev))
  {
  }

  lemma KeepsOwnersApart(s: State, ev: Event)
    requires TakenInv(s) && ImagesNotOwned(s) && OwnersApart(s.procs) && DestroysInv(s) && Can(s, ev)
    ensures OwnersApart(After(s, ev).procs)
  {
  }

  lemma KeepsLimits(s: State, ev: Event)
    requires LimitsInv(s) && LimitsApart(s.procs) && Can(s, ev)
    ensures LimitsInv(After(s, ev))
  {
  }

  lemma KeepsDestroys(s: State, ev: Event)
    requires LimitsInv(s) && DestroysInv(s) && DestroysApart(s.procs) && Can(s, ev)
    ensures DestroysInv(After(s, ev))
  {
    if ev.Step? && s.procs[ev.p].Holding? { assert Limits(s.procs[ev.p], s.procs[ev.p].img); }
    if ev.Step? && s.procs[ev.p].Destroying? { assert Destroys(s.procs[ev.p], s.procs[ev.p].img); }
    assert forall q :: q in s.procs && s.procs[q].Destroying? ==> Destroys(s.procs[q], s.procs[q].img);
  }

  lemma KeepsApart(s: State, ev: Event)
    requires LimitsApart(s.procs) && DestroysApart(s.procs) && Can(s, ev)
    ensures LimitsApart(After(s, ev).procs) && DestroysApart(After(s, ev).procs)
  {
  }

  lemma EventKeepsInv(s: State, ev: Event)
    requires Inv(s) && Can(s, ev)
    ensures Inv(After(s, ev))
  {
    KeepsTaken(s, ev);
    KeepsImagesApart(s, ev);
    KeepsNotOwned(s, ev);
    KeepsOwnersApart(s, ev);
    KeepsLimits(s, ev);
    KeepsDestroys(s, ev);
    KeepsApart(s, ev);
  }

  ghost predicate Run(states: seq<State>, events: seq<Event>) {
    && |states| == |events| + 1
    && states[0] == State({}, map[], map[])
    && forall i :: 0 <= i < |events| ==> Can(states[i], events[i]) && states[i + 1] == After(states[i], events[i])
  }

  lemma {:induction false} RunKeepsInv(states: seq<State>, events: seq<Event>, i: nat)
    requires Run(states, events) && i <= |events|
    ensures Inv(states[i])
  {
    if i > 0 {
      RunKeepsInv(states, events, i - 1);
      EventKeepsInv(states[i - 1], events[i - 1]);
    }
  }

  /** However allocations and destroys interleave, no two existing images ever have the same project id, and an
      image's id is never 1 and stays taken. */
  lemma IdsNotShared(states: seq<State>, events: seq<Event>, i: nat, a: Image, b: Image)
    requires Run(states, events) && i <= |events| && a in states[i].images && b in states[i].images
    requires states[i].images[a] != 0
    ensures states[i].images[a] >= 2 && states[i].images[a] in states[i].ids
    ensures states[i].images[a] == states[i].images[b] ==> a == b
  {
    RunKeepsInv(states, events, i);
  }
}
