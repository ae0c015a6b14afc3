/**
 * Whether an offer still keeps others off its work (extensions/offers.ts and
 * the fold in extensions/leads.ts). Its state at any moment is a function of
 * the times recorded on it and of a revision, and the results say when it can
 * go from having stopped to keeping others off again: only as it is delivered,
 * and only with a bound of its own.
 */
module Offers {
  import opened Wrappers

  type Time = int

  /** The two limits on an offer: `ttl` counts from delivery, `maxAge` from its making. */
  datatype Timings = Timings(ttl: nat, maxAge: nat)

  ghost predicate TimingsOk(tm: Timings) {
    tm.ttl <= tm.maxAge
  }

  datatype Offer = Offer(
    at: Time, rev: nat, seenAt: Option<Time>, declined: bool, accepted: bool, withdrawn: bool, lapsed: bool,
    until: Option<Time>, heldUntil: Option<Time>)

  datatype OfferState = Waiting | Live | Accepted | Declined | Withdrawn | Lapsed | Invalidated

  function Bound(o: Offer, tm: Timings): Time {
    if o.until.Some? && o.seenAt.None? then Min(o.until.value, o.at + tm.maxAge) else o.at + tm.maxAge
  }

  function First(o: Offer, tm: Timings): Time {
    if o.seenAt.Some? then Min(o.seenAt.value + tm.ttl, Bound(o, tm)) else Bound(o, tm)
  }

  /** The time from which an untaken offer counts as lapsed; a hold can only put it off. */
  function Until(o: Offer, tm: Timings): Time {
    if o.heldUntil.Some? then Max(First(o, tm), o.heldUntil.value) else First(o, tm)
  }

  function Status(o: Offer, now: Time, rev: nat, tm: Timings): OfferState {
    if o.accepted then Accepted
    else if o.declined then Declined
    else if o.withdrawn then Withdrawn
    else if o.rev != rev then Invalidated
    else if o.lapsed || now >= Until(o, tm) then Lapsed
    else if o.seenAt.Some? then Live
    else Waiting
  }

  predicate Reserving(o: Offer, now: Time, rev: nat, tm: Timings) {
    Status(o, now, rev, tm).Waiting? || Status(o, now, rev, tm).Live?
  }

  /** The newest offer that still holds the work. */
  method ReservingOffer(offers: seq<Offer>, now: Time, rev: nat, tm: Timings) returns (k: Option<nat>)
    ensures k.None? <==> forall i :: 0 <= i < |offers| ==> !Reserving(offers[i], now, rev, tm)
    ensures k.Some? ==> k.value < |offers| && Reserving(offers[k.value], now, rev, tm)
    ensures k.Some? ==> forall i :: k.value < i < |offers| ==> !Reserving(offers[i], now, rev, tm)
  {
    var i := |offers|;
    while i > 0
      invariant 0 <= i <= |offers|
      invariant forall j :: i <= j < |offers| ==> !Reserving(offers[j], now, rev, tm)
    {
      i := i - 1;
      if Reserving(offers[i], now, rev, tm) { return Some(i); }
    }
    return None;
  }

  /** Nothing has been said that ends it, and what it offers has not changed. */
  predicate Open(o: Offer, rev: nat) {
    !o.accepted && !o.declined && !o.withdrawn && !o.lapsed && o.rev == rev
  }

  /** Within first claim: for `ttl` once delivered, never past the age; undelivered, also not past an older bound. */
  predicate WithinClaim(o: Offer, now: Time, tm: Timings) {
    && now < o.at + tm.maxAge
    && (if o.seenAt.Some? then now < o.seenAt.value + tm.ttl else o.until.Some? ==> now < o.until.value)
  }

  /** An offer holds its work exactly while it is open and within its first claim, or within a hold taken on it. */
  lemma ReservingMeans(o: Offer, now: Time, rev: nat, tm: Timings)
    ensures Reserving(o, now, rev, tm) <==>
              Open(o, rev) && (WithinClaim(o, now, tm) || (o.heldUntil.Some? && now < o.heldUntil.value))
    ensures Status(o, now, rev, tm).Live? <==> Reserving(o, now, rev, tm) && o.seenAt.Some?
  {
  }

  // --- an offer over time ---

  /** What a status depends on: the offer, the clock, and its subject's current revision. */
  datatype World = World(o: Offer, now: Time, rev: nat)

  datatype Step =
    | Pass(time: nat)
    | Change(revisions: nat)
    | Deliver
    | Take(until: Time)
    | Decline
    | Accept
    | Withdraw
    | Lapse

  function Seen(o: Offer, now: Time): Offer {
    if o.seenAt.None? then o.(seenAt := Some(now)) else o
  }

  /** Time and revisions only go forward; each event counts once; an offer is taken only while it stands. */
  function StepTo(w: World, step: Step, tm: Timings): World {
    match step
    case Pass(time) => w.(now := w.now + time)
    case Change(revisions) => w.(rev := w.rev + revisions)
    case Deliver => w.(o := Seen(w.o, w.now))
    case Take(until) =>
      if !Reserving(w.o, w.now, w.rev, tm) then w
      else
        var o := Seen(w.o, w.now);
        w.(o := if o.heldUntil.None? then o.(heldUntil := Some(until)) else o)
    case Decline => w.(o := w.o.(declined := true))
    case Accept => w.(o := w.o.(accepted := true))
    case Withdraw => w.(o := w.o.(withdrawn := true))
    case Lapse => w.(o := w.o.(lapsed := true))
  }

  function Exec(w: World, steps: seq<Step>, tm: Timings): World {
    if steps == [] then w else StepTo(Exec(w, steps[..|steps| - 1], tm), steps[|steps| - 1], tm)
  }

  /** As an offer is made: at this time, of this revision, nothing said of it. */
  ghost predicate Made(w: World) {
    && w.o.at == w.now && w.o.rev == w.rev && w.o.seenAt.None? && w.o.heldUntil.None?
    && !w.o.declined && !w.o.accepted && !w.o.withdrawn && !w.o.lapsed
  }

  /** What holds of every offer from when it was made. */
  ghost predicate Ran(w: World) {
    && w.o.at <= w.now && w.o.rev <= w.rev
    && (w.o.seenAt.Some? ==> w.o.at <= w.o.seenAt.value <= w.now)
    && (w.o.heldUntil.Some? ==> w.o.seenAt.Some?)
  }

  ghost predicate Holds(w: World, tm: Timings) {
    Reserving(w.o, w.now, w.rev, tm)
  }

  /** What delivery must find for an ended offer to hold its work again: the older bound alone had ended it, unseen, within its age. */
  predicate Revivable(w: World, tm: Timings) {
    && w.o.until.Some? && w.o.seenAt.None?
    && !w.o.accepted && !w.o.declined && !w.o.withdrawn && !w.o.lapsed && w.o.rev == w.rev
    && w.now < w.o.at + tm.maxAge && tm.ttl > 0
  }

  lemma StepRan(w: World, step: Step, tm: Timings)
    requires Ran(w)
    ensures Ran(StepTo(w, step, tm)) && StepTo(w, step, tm).o.until == w.o.until
  {
  }

  lemma {:induction false} ExecRan(w: World, steps: seq<Step>, tm: Timings)
    requires Ran(w)
    ensures Ran(Exec(w, steps, tm)) && Exec(w, steps, tm).o.until == w.o.until
  {
    if steps != [] {
      ExecRan(w, steps[..|steps| - 1], tm);
      StepRan(Exec(w, steps[..|steps| - 1], tm), steps[|steps| - 1], tm);
    }
  }

  /** A stopped offer holds its work again after a step exactly when delivered, its older bound alone having ended it. */
  lemma StepRevives(w: World, step: Step, tm: Timings)
    requires Ran(w) && !Holds(w, tm)
    ensures Holds(StepTo(w, step, tm), tm) <==> step.Deliver? && Revivable(w, tm)
  {
  }

  /** An offer without the older bound, once it has stopped holding its work, never holds it again, whatever follows. */
  lemma {:induction false} NeverAgain(w: World, steps: seq<Step>, tm: Timings)
    requires Ran(w) && !Holds(w, tm) && w.o.until.None?
    ensures !Holds(Exec(w, steps, tm), tm)
  {
    if steps != [] {
      var before := Exec(w, steps[..|steps| - 1], tm);
      NeverAgain(w, steps[..|steps| - 1], tm);
      ExecRan(w, steps[..|steps| - 1], tm);
      StepRevives(before, steps[|steps| - 1], tm);
    }
  }

  /** With the older bound it holds its work again at most once: once seen, it is as any other. */
  lemma {:induction false} RevivedAtMostOnce(w: World, steps: seq<Step>, tm: Timings)
    requires Ran(w) && !Holds(w, tm) && w.o.seenAt.Some?
    ensures !Holds(Exec(w, steps, tm), tm) && Exec(w, steps, tm).o.seenAt.Some?
  {
    if steps != [] {
      var before := Exec(w, steps[..|steps| - 1], tm);
      RevivedAtMostOnce(w, steps[..|steps| - 1], tm);
      ExecRan(w, steps[..|steps| - 1], tm);
      StepRevives(before, steps[|steps| - 1], tm);
    }
  }

  /** An older offer, unseen past its own bound, holds its work again when it is delivered. */
  lemma OlderOfferRevives(tm: Timings)
    requires TimingsOk(tm) && tm.ttl > 0 && tm.maxAge > 1
    ensures var w := World(Offer(0, 1, None, false, false, false, false, Some(1), None), 1, 1);
            Ran(w) && !Holds(w, tm) && Holds(StepTo(w, Deliver, tm), tm)
  {
    var w := World(Offer(0, 1, None, false, false, false, false, Some(1), None), 1, 1);
    StepRevives(w, Deliver, tm);
  }

  /** Delivery ends first claim no later than it would have ended undelivered, but for an older bound it lifts. */
  lemma DeliveryNeverExtends(w: World, tm: Timings)
    requires Ran(w)
    ensures Until(StepTo(w, Deliver, tm).o, tm) > Until(w.o, tm) <==>
              w.o.seenAt.None? && w.o.until.Some? && w.o.until.value < Min(w.now + tm.ttl, w.o.at + tm.maxAge)
  {
  }

  /** Nobody holds an offer's work past its age, unless a hold was taken; with one, not past the later of the two. */
  lemma EndsByItsAge(w: World, tm: Timings)
    requires Ran(w) && Holds(w, tm)
    ensures w.now < w.o.at + tm.maxAge || (w.o.heldUntil.Some? && w.now < w.o.heldUntil.value)
    ensures w.o.seenAt.Some? && w.o.heldUntil.None? ==> w.now < w.o.seenAt.value + tm.ttl
  {
  }

  /** The hold lengthens the claim: an offer taken holds its work, undisturbed, until its hold ends, and no less than if delivered. */
  lemma TakenHoldsOn(w: World, until: Time, wait: nat, tm: Timings)
    requires Ran(w) && Holds(w, tm) && w.o.heldUntil.None?
    ensures Holds(StepTo(StepTo(w, Take(until), tm), Pass(wait), tm), tm) <==>
              w.now + wait < until || Holds(StepTo(StepTo(w, Deliver, tm), Pass(wait), tm), tm)
  {
    var taken, seen := StepTo(StepTo(w, Take(until), tm), Pass(wait), tm), StepTo(StepTo(w, Deliver, tm), Pass(wait), tm);
    ReservingMeans(taken.o, taken.now, taken.rev, tm);
    ReservingMeans(seen.o, seen.now, seen.rev, tm);
    ReservingMeans(w.o, w.now, w.rev, tm);
  }

  /** An offer is held once: whatever comes after, a hold it has keeps its end. */
  lemma {:induction false} HeldOnce(w: World, steps: seq<Step>, tm: Timings)
    requires w.o.heldUntil.Some?
    ensures Exec(w, steps, tm).o.heldUntil == w.o.heldUntil
  {
    if steps != [] { HeldOnce(w, steps[..|steps| - 1], tm); }
  }

  /** Delivery starts the clock: a standing offer seen for the first time holds its work, undisturbed, for `ttl` from then, within its age. */
  lemma DeliveredHoldsFor(w: World, wait: nat, tm: Timings)
    requires Ran(w) && Holds(w, tm) && w.o.seenAt.None? && w.o.heldUntil.None?
    ensures Holds(StepTo(StepTo(w, Deliver, tm), Pass(wait), tm), tm) <==> wait < tm.ttl && w.now + wait < w.o.at + tm.maxAge
  {
    var seen := StepTo(StepTo(w, Deliver, tm), Pass(wait), tm);
    ReservingMeans(seen.o, seen.now, seen.rev, tm);
    ReservingMeans(w.o, w.now, w.rev, tm);
  }

  /** What ends an offer ends it: declined, accepted, withdrawn, lapsed, or its subject changed, it holds nothing. */
  lemma EndedByWord(w: World, step: Step, tm: Timings)
    requires step.Decline? || step.Accept? || step.Withdraw? || step.Lapse? || (step.Change? && step.revisions > 0 && Ran(w))
    ensures !Holds(StepTo(w, step, tm), tm)
  {
  }

  /** A hold is had only by an offer that stood when it was taken: whatever ran before, an ended offer gains none. */
  lemma {:induction false} EndedGainsNoHold(w: World, steps: seq<Step>, tm: Timings)
    requires Made(w) && Exec(w, steps, tm).o.heldUntil.Some?
    ensures exists n: nat :: n < |steps| && steps[n].Take? && Holds(Exec(w, steps[..n], tm), tm)
  {
    if steps == [] {
      assert false;
    }
    var last := |steps| - 1;
    if Exec(w, steps[..last], tm).o.heldUntil.Some? {
      EndedGainsNoHold(w, steps[..last], tm);
      var n: nat :| n < last && steps[..last][n].Take? && Holds(Exec(w, steps[..last][..n], tm), tm);
      assert steps[..last][..n] == steps[..n];
    }
  }
}
