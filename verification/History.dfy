/** Single publication: over whole runs, whatever crashes, publishing and marking a layer alternate. */
module History {
  import opened Wrappers
  import opened Disk
  import opened Protocol
  import opened Invariant
  import opened Surviving
  import opened Safety

  /** The event is the rename that gives layer c its final name. */
  predicate Publishes(s: Sys, ev: Event, c: Chain) {
    ev.Move? && ev.eff.Call? && ev.eff.op.MvDir? && ev.eff.op.to == Final(c) && ev.eff.op.from in s.disk.vols
  }

  /** The event is the rename that marks layer c for collection. A rename onto a gc volume that a clean which was cut
      off has left behind takes no effect. */
  predicate Marks(s: Sys, ev: Event, c: Chain) {
    && ev.Move? && ev.eff.Call? && ev.eff.op.MvDir? && ev.eff.op.from == Final(c)
    && Final(c) in s.disk.vols && ev.eff.op.to !in s.disk.vols
  }

  /** Among the driver's calls, only renames of a directory make a layer come or go. */
  lemma CallRenames(d: Disk<VolId>, op: Op<VolId>, gen: ShortId, v: VolId)
    requires Spot(d, op) && v.Final?
    requires IsCreate(op) ==> op.id.Incomplete?
    requires IsMove(op) ==> op.from != op.to
    ensures var d' := OpStep(d, op, gen).disk;
            && (op.MvDir? && op.to == v && op.from in d.vols ==> v !in d.vols && v in d'.vols)
            && (op.MvDir? && op.from == v && v in d.vols && op.to !in d.vols ==> v !in d'.vols)
            && (!(op.MvDir? && ((op.to == v && op.from in d.vols) || (op.from == v && v in d.vols && op.to !in d.vols))) ==>
                  (v in d'.vols <==> v in d.vols))
  {
  }

  /** The layer comes with its publication, goes with its marking and otherwise stays as it is. */
  ghost predicate Follows(s: Sys, ev: Event, c: Chain)
    requires Can(s, ev)
  {
    var d, d' := s.disk, After(s, ev).disk;
    && (Publishes(s, ev, c) ==> Final(c) !in d.vols && Final(c) in d'.vols)
    && (Marks(s, ev, c) ==> Final(c) in d.vols && Final(c) !in d'.vols)
    && (!Publishes(s, ev, c) && !Marks(s, ev, c) ==> (Final(c) in d'.vols <==> Final(c) in d.vols))
  }

  lemma CallFollows(s: Sys, p: Pid, next: Option<Proc>, eff: Effect, c: Chain)
    requires Base(s) && Step(s, p, next, eff) && eff.Call?
    ensures Follows(s, Move(p, next, eff), c)
  {
    CallIsCalling(s, p, next, eff);
    CallNames(s, p, eff.op, eff.gen);
    ClaimSpot(s, p);
    CallRenames(s.disk, eff.op, eff.gen, Final(c));
  }

  lemma QuietFollows(s: Sys, p: Pid, next: Option<Proc>, eff: Effect, c: Chain)
    requires Step(s, p, next, eff) && !eff.Call?
    ensures Follows(s, Move(p, next, eff), c)
  {
    QuietDisk(s, p, next, eff);
  }

  /** The renames are the only events that make a layer come or go; a crash does not. */
  lemma OnlyRenames(states: seq<Sys>, events: seq<Event>, i: nat, c: Chain)
    requires Run(states, events) && i < |events|
    ensures Publishes(states[i], events[i], c) ==> Final(c) !in states[i].disk.vols && Final(c) in states[i + 1].disk.vols
    ensures Marks(states[i], events[i], c) ==> Final(c) in states[i].disk.vols && Final(c) !in states[i + 1].disk.vols
    ensures !Publishes(states[i], events[i], c) && !Marks(states[i], events[i], c) ==>
              (Final(c) in states[i + 1].disk.vols <==> Final(c) in states[i].disk.vols)
  {
    RunKeepsRobust(states, events, i);
    assert Follows(states[i], events[i], c) by {
      match events[i]
      case Spawn(_, _) =>
      case Move(p, next, eff) =>
        if eff.Call? { CallFollows(states[i], p, next, eff, c); } else { QuietFollows(states[i], p, next, eff, c); }
      case Crash(_) =>
    }
  }

  /** Publications of c less marks of c among the first i events. */
  ghost function Balance(states: seq<Sys>, events: seq<Event>, i: nat, c: Chain): int
    requires i <= |events| <= |states|
  {
    if i == 0 then 0
    else Balance(states, events, i - 1, c) + (if Publishes(states[i - 1], events[i - 1], c) then 1 else 0)
                                           - (if Marks(states[i - 1], events[i - 1], c) then 1 else 0)
  }

  function There(s: Sys, c: Chain): int {
    if Final(c) in s.disk.vols then 1 else 0
  }

  lemma BalanceStep(states: seq<Sys>, events: seq<Event>, i: nat, c: Chain)
    requires Run(states, events) && i < |events|
    ensures Balance(states, events, i + 1, c) - Balance(states, events, i, c)
            == There(states[i + 1], c) - There(states[i], c)
  {
    OnlyRenames(states, events, i, c);
  }

  /** A layer has been published exactly once more than marked if it exists, and equally often if not. */
  lemma {:induction false} PublicationBalance(states: seq<Sys>, events: seq<Event>, i: nat, c: Chain)
    requires Run(states, events) && i <= |events|
    ensures Balance(states, events, i, c) == if Final(c) in states[i].disk.vols then 1 else 0
  {
    if i > 0 {
      PublicationBalance(states, events, i - 1, c);
      BalanceStep(states, events, i - 1, c);
    }
  }

  /** Between two publications of a layer it has been marked. */
  lemma SinglePublication(states: seq<Sys>, events: seq<Event>, i: nat, j: nat, c: Chain)
    requires Run(states, events) && i < j < |events|
    requires Publishes(states[i], events[i], c) && Publishes(states[j], events[j], c)
    ensures exists m :: i < m < j && Marks(states[m], events[m], c)
  {
    OnlyRenames(states, events, i, c);
    OnlyRenames(states, events, j, c);
    MarkedBetween(states, events, i + 1, j, c);
  }

  /** A layer that was there and is gone has been marked in between. */
  lemma {:induction false} MarkedBetween(states: seq<Sys>, events: seq<Event>, i: nat, j: nat, c: Chain)
    requires Run(states, events) && i <= j <= |events|
    requires Final(c) in states[i].disk.vols && Final(c) !in states[j].disk.vols
    ensures exists m :: i <= m < j && Marks(states[m], events[m], c)
    decreases j - i
  {
    OnlyRenames(states, events, i, c);
    if !Marks(states[i], events[i], c) {
      MarkedBetween(states, events, i + 1, j, c);
      var m :| i + 1 <= m < j && Marks(states[m], events[m], c);
    }
  }
}
