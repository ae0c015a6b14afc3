/**
 * The finish register's log and its fold (extensions/finish.ts, readFinish):
 * an append-only sequence of events, read back as the lease, the acks, the
 * resolutions, the checks and the rest. An event's seq is its place in the
 * log, counted from one, as appendFinish writes it.
 */
module FinishLog {
  import opened Wrappers

  type Seat = string
  type Path = string
  type Digest = string
  type Time = int

  datatype Verdict = NoObjection | Objection
  datatype How = Folded | NotMaterial
  datatype Tag = ResultTag | VetoTag | HoldTag | StopTag | OtherTag

  /** What a resolution answers: a late post by its id, or an objection by its ack's seq. */
  datatype Target = Post(id: nat) | Objected(num: nat)

  datatype CarriedPost = CarriedPost(id: nat, seat: Seat, tag: Tag)

  /** One line of a carry event: a seat, ack numbers, and either covered sections or those changed and removed. */
  datatype ReviewCarry = ReviewCarry(seat: Seat, acks: set<nat>, sections: seq<string>, changed: seq<string>, removed: set<string>)

  /** What the finish line printed when it was run, and the revisions that held as it began and as it ended. */
  datatype LineRun = LineRun(began: nat, ended: nat, body: LineBody)

  /** The part of a finish-line run the verdict reads (extensions/finish-line.ts, FinishLineRun). */
  datatype LineBody = LineBody(total: nat, passed: nat, untrusted: bool, error: bool, gate: Option<Gate>)

  datatype Gate = Gate(untilSolved: bool, error: bool, defects: nat, open: nat, holding: nat, limited: nat)

  datatype Event =
    | Lease(seat: Seat, holder: Option<Seat>, generation: Option<nat>, report: Option<Path>, since: Option<Time>,
            segment: Option<nat>, carried: Option<seq<CarriedPost>>)
    | AckOf(seat: Seat, digest: Option<Digest>, verdict: Option<Verdict>, report: Option<Path>,
            sections: Option<map<string, Digest>>, whole: bool)
    | Resolve(seat: Seat, target: Target, how: Option<How>, why: string, digest: Option<Digest>,
              batch: Option<string>, generation: Option<nat>)
    | Prepare(seat: Seat, generation: Option<nat>, report: Option<Path>, digest: Option<Digest>, since: Option<Time>,
              segment: Option<nat>, ready: bool, revision: Option<nat>, late: seq<Target>)
    | Carry(seat: Seat, report: Option<Path>, digest: Option<Digest>, kept: seq<ReviewCarry>, reasked: seq<ReviewCarry>)
    | Readiness(ready: bool, revision: Option<nat>)
    | Check(seat: Seat, revision: Option<nat>, proceed: bool, run: Option<LineRun>)

  datatype LeaseState = LeaseState(
    holder: Seat, generation: nat, report: Option<Path>, since: Option<Time>, segment: nat, carried: seq<CarriedPost>)

  datatype FinishAck = FinishAck(
    num: nat, seat: Seat, digest: Digest, verdict: Verdict, report: Option<Path>,
    sections: Option<map<string, Digest>>, whole: bool)

  datatype Resolution = Resolution(
    num: nat, seat: Seat, target: Target, how: How, why: string, digest: Option<Digest>,
    batch: Option<string>, generation: Option<nat>)

  datatype Prepared = Prepared(
    num: nat, seat: Seat, generation: nat, report: Option<Path>, digest: Option<Digest>, since: Option<Time>,
    segment: nat, ready: bool, revision: Option<nat>, late: seq<Target>)

  datatype Carried = Carried(num: nat, report: Path, digest: Digest, kept: seq<ReviewCarry>, reasked: seq<ReviewCarry>)

  datatype Checked = Checked(num: nat, seat: Seat, revision: nat, proceed: bool, run: Option<LineRun>)

  datatype FinishState = FinishState(
    lease: Option<LeaseState>,
    acks: seq<FinishAck>,
    resolutions: seq<Resolution>,
    prepares: seq<Prepared>,
    carries: seq<Carried>,
    readiness: Option<bool>,
    checks: seq<Checked>)

  const EMPTY := FinishState(None, [], [], [], [], None, [])

  /** A lease event over the lease before it: the latest segment stays, and within one the earliest boundary. */
  function FoldLease(was: Option<LeaseState>, e: Event): Option<LeaseState>
    requires e.Lease?
  {
    match e.holder
    case None => was
    case Some(holder) =>
      var wasSegment := if was.Some? then was.value.segment else 0;
      var wasSince := if was.Some? then was.value.since else None;
      var wasCarried := if was.Some? then was.value.carried else [];
      var wasReport := if was.Some? then was.value.report else None;
      var wasGeneration := if was.Some? then was.value.generation else 0;
      var segment := Max(e.segment.GetOr(0), wasSegment);
      var opens := segment > wasSegment;
      var since :=
        if opens || wasSince.None? then e.since
        else if e.since.Some? then Some(Min(wasSince.value, e.since.value))
        else wasSince;
      var carried := if opens then e.carried.GetOr([]) else wasCarried;
      Some(LeaseState(holder, e.generation.GetOr(wasGeneration + 1), e.report.Or(wasReport), since, segment, carried))
  }

  /** One event over the state before it, the event's seq being `n`. */
  function FoldEvent(st: FinishState, e: Event, n: nat): FinishState {
    match e
    case Lease(_, _, _, _, _, _, _) => st.(lease := FoldLease(st.lease, e))
    case AckOf(seat, digest, verdict, report, sections, whole) =>
      if digest.Some? && verdict.Some? then
        st.(acks := st.acks + [FinishAck(n, seat, digest.value, verdict.value, report, sections, whole)])
      else st
    case Resolve(seat, target, how, why, digest, batch, generation) =>
      if how.Some? then
        st.(resolutions := st.resolutions + [Resolution(n, seat, target, how.value, why, digest, batch, generation)])
      else st
    case Prepare(seat, generation, report, digest, since, segment, ready, revision, late) =>
      st.(prepares := st.prepares
        + [Prepared(n, seat, generation.GetOr(0), report, digest, since, segment.GetOr(0), ready, revision, late)])
    case Carry(_, report, digest, kept, reasked) =>
      if report.Some? && digest.Some? then
        st.(carries := st.carries + [Carried(n, report.value, digest.value, kept, reasked)])
      else st
    case Readiness(ready, _) => st.(readiness := Some(ready))
    case Check(seat, revision, proceed, run) =>
      if revision.Some? then st.(checks := st.checks + [Checked(n, seat, revision.value, proceed, run)]) else st
  }

  /** The state a log is read back as. */
  function Fold(log: seq<Event>): FinishState {
    if log == [] then EMPTY
    else FoldEvent(Fold(log[..|log| - 1]), log[|log| - 1], |log|)
  }

  /** The register read back, event by event. */
  method ReadFinish(log: seq<Event>) returns (st: FinishState)
    ensures st == Fold(log)
  {
    st := EMPTY;
    for i := 0 to |log|
      invariant st == Fold(log[..i])
    {
      assert log[..i + 1][..i] == log[..i];
      st := FoldEvent(st, log[i], i + 1);
    }
    assert log[..|log|] == log;
  }

  lemma FoldAppend(log: seq<Event>, e: Event)
    ensures Fold(log + [e]) == FoldEvent(Fold(log), e, |log| + 1)
  {
    assert (log + [e])[..|log|] == log;
  }

  lemma FoldLast(log: seq<Event>, more: seq<Event>)
    requires more != []
    ensures Fold(log + more) == FoldEvent(Fold(log + more[..|more| - 1]), more[|more| - 1], |log| + |more|)
  {
    LastApart(log, more);
    FoldAppend(log + more[..|more| - 1], more[|more| - 1]);
  }

  lemma LastApart(log: seq<Event>, more: seq<Event>)
    requires more != []
    ensures log + more == log + more[..|more| - 1] + [more[|more| - 1]]
  {
  }

  /** An event changes only the part of the state that is its kind's. */
  lemma OwnPartOnly(st: FinishState, e: Event, n: nat)
    ensures !e.Lease? ==> FoldEvent(st, e, n).lease == st.lease
    ensures !e.AckOf? ==> FoldEvent(st, e, n).acks == st.acks
    ensures !e.Resolve? ==> FoldEvent(st, e, n).resolutions == st.resolutions
    ensures !e.Check? ==> FoldEvent(st, e, n).checks == st.checks
    ensures !e.Carry? ==> FoldEvent(st, e, n).carries == st.carries
  {
  }

  /** Events of other kinds leave the lease, the acks, the resolutions and the checks as they were. */
  lemma {:induction false} OthersLeave(log: seq<Event>, more: seq<Event>)
    ensures (forall e :: e in more ==> !e.Lease?) ==> Fold(log + more).lease == Fold(log).lease
    ensures (forall e :: e in more ==> !e.AckOf?) ==> Fold(log + more).acks == Fold(log).acks
    ensures (forall e :: e in more ==> !e.Resolve?) ==> Fold(log + more).resolutions == Fold(log).resolutions
    ensures (forall e :: e in more ==> !e.Check?) ==> Fold(log + more).checks == Fold(log).checks
  {
    if more == [] {
      assert log + more == log;
    } else {
      var most, e := more[..|more| - 1], more[|more| - 1];
      OthersLeave(log, most);
      FoldLast(log, more);
      OwnPartOnly(Fold(log + most), e, |log| + |more|);
      assert e in more && forall x :: x in most ==> x in more;
    }
  }

  lemma {:induction false} NoCarryLeaves(log: seq<Event>, more: seq<Event>)
    requires forall e :: e in more ==> !e.Carry?
    ensures Fold(log + more).carries == Fold(log).carries
  {
    if more == [] {
      assert log + more == log;
    } else {
      var most, e := more[..|more| - 1], more[|more| - 1];
      NoCarryLeaves(log, most);
      FoldLast(log, more);
      OwnPartOnly(Fold(log + most), e, |log| + |more|);
    }
  }

  lemma LeaseAppend(log: seq<Event>, e: Event)
    requires e.Lease?
    ensures Fold(log + [e]) == Fold(log).(lease := FoldLease(Fold(log).lease, e))
  {
    FoldAppend(log, e);
  }

  // --- what holds of every log, reachable or not ---

  /** Segments never go back; within one, a boundary once set is neither unset nor moved later, and nothing carried is dropped. */
  ghost predicate SegmentKept(was: Option<LeaseState>, now: Option<LeaseState>) {
    was.Some? ==>
      && now.Some?
      && was.value.segment <= now.value.segment
      && (was.value.report.Some? ==> now.value.report.Some?)
      && (was.value.segment == now.value.segment ==>
            && was.value.carried == now.value.carried
            && (was.value.since.Some? ==> now.value.since.Some? && now.value.since.value <= was.value.since.value))
  }

  lemma {:induction false} BoundaryNeverMovesOn(log: seq<Event>, n: nat)
    requires n <= |log|
    ensures SegmentKept(Fold(log[..n]).lease, Fold(log).lease)
  {
    if n == |log| {
      assert log[..n] == log;
    } else {
      var before := log[..|log| - 1];
      assert before[..n] == log[..n];
      BoundaryNeverMovesOn(before, n);
    }
  }

  /** The lease events of a log that name a holder. */
  function Leases(log: seq<Event>): nat {
    if log == [] then 0
    else
      var e := log[|log| - 1];
      Leases(log[..|log| - 1]) + if e.Lease? && e.holder.Some? then 1 else 0
  }

  /** In a log whose leases say no generation, the generation is the number of them. */
  lemma {:induction false} GenerationsCount(log: seq<Event>)
    requires forall e :: e in log && e.Lease? ==> e.generation.None?
    ensures Fold(log).lease.None? <==> Leases(log) == 0
    ensures Fold(log).lease.Some? ==> Fold(log).lease.value.generation == Leases(log)
  {
    if log != [] {
      GenerationsCount(log[..|log| - 1]);
      assert log[|log| - 1] in log;
    }
  }

  /** Each list of the state is ordered by seq, and no seq is past the log. */
  ghost predicate Ordered(st: FinishState, n: nat) {
    && (forall i :: 0 <= i < |st.acks| ==> st.acks[i].num <= n)
    && (forall i, j :: 0 <= i < j < |st.acks| ==> st.acks[i].num < st.acks[j].num)
    && (forall i :: 0 <= i < |st.resolutions| ==> st.resolutions[i].num <= n)
    && (forall i, j :: 0 <= i < j < |st.resolutions| ==> st.resolutions[i].num < st.resolutions[j].num)
    && (forall i :: 0 <= i < |st.carries| ==> st.carries[i].num <= n)
    && (forall i, j :: 0 <= i < j < |st.carries| ==> st.carries[i].num < st.carries[j].num)
    && (forall i :: 0 <= i < |st.checks| ==> st.checks[i].num <= n)
    && (forall i, j :: 0 <= i < j < |st.checks| ==> st.checks[i].num < st.checks[j].num)
  }

  lemma EventKeepsOrder(st: FinishState, e: Event, n: nat)
    requires Ordered(st, n)
    ensures Ordered(FoldEvent(st, e, n + 1), n + 1)
  {
  }

  lemma {:induction false} FoldIsOrdered(log: seq<Event>)
    ensures Ordered(Fold(log), |log|)
  {
    if log != [] {
      var most := log[..|log| - 1];
      FoldIsOrdered(most);
      EventKeepsOrder(Fold(most), log[|log| - 1], |most|);
    }
  }

  ghost predicate Extends(was: FinishState, now: FinishState) {
    was.acks <= now.acks && was.resolutions <= now.resolutions && was.checks <= now.checks && was.carries <= now.carries
  }

  lemma EventExtends(st: FinishState, e: Event, n: nat)
    ensures Extends(st, FoldEvent(st, e, n))
  {
  }

  /** What a log has recorded it keeps: acks, resolutions, checks and carries are only ever added to. */
  lemma {:induction false} FoldOnlyGrows(log: seq<Event>, more: seq<Event>)
    ensures Extends(Fold(log), Fold(log + more))
  {
    if more == [] {
      assert log + more == log;
    } else {
      var most, e := more[..|more| - 1], more[|more| - 1];
      FoldOnlyGrows(log, most);
      assert log + more == log + most + [e];
      FoldAppend(log + most, e);
      EventExtends(Fold(log + most), e, |log + most| + 1);
    }
  }
}
