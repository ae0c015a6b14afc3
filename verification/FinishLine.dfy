/**
 * The finish line (extensions/finish-line.ts): its verdict, its run bound to a
 * revision, and the marker and sentinel files a done writes.
 */
module FinishLine {
  import opened Wrappers
  import opened FinishLog

  datatype Outcome = Completed | ExaminationLimited | Abandoned | VerificationUnavailable

  datatype LineVerdict = Proceed(outcome: Outcome) | Refuse

  /** Only the operator ends the run: the budget says so, or the gate of the run does. */
  predicate UntilSolved(run: Option<LineBody>, untilSolved: bool) {
    untilSolved || (run.Some? && run.value.gate.Some? && run.value.gate.value.untilSolved)
  }

  /** The verdict on a line's run: refused, or proceeding with the outcome the sentinel is to carry. */
  function FinishLineVerdict(run: Option<LineBody>, abandon: bool, untilSolved: bool): LineVerdict {
    var until := UntilSolved(run, untilSolved);
    if run.None? || run.value.error then
      if until then Refuse else if abandon then Proceed(Abandoned) else Proceed(VerificationUnavailable)
    else
      var r := run.value;
      if r.untrusted && r.passed >= r.total then
        if abandon && !until then Proceed(Abandoned) else Refuse
      else if r.total == 0 || r.passed >= r.total then
        if r.gate.None? then Proceed(Completed)
        else
          var g := r.gate.value;
          if g.error then (if until then Refuse else Proceed(VerificationUnavailable))
          else if g.defects > 0 then Refuse
          else if g.open > 0 || g.holding > 0 then (if abandon && !until then Proceed(Abandoned) else Refuse)
          else if g.limited > 0 then Proceed(ExaminationLimited)
          else Proceed(Completed)
      else if until && abandon then Refuse
      else if abandon then Proceed(Abandoned)
      else Refuse
  }

  /** The finish line is met: run, by the operator's checks, every one passing, and nothing the harness's gate holds. */
  predicate Met(run: Option<LineBody>) {
    && run.Some? && !run.value.error && !run.value.untrusted && run.value.passed >= run.value.total
    && (run.value.gate.None?
        || (var g := run.value.gate.value; !g.error && g.defects == 0 && g.open == 0 && g.holding == 0))
  }

  /** Nothing could be checked: the line was not run, or its checks pass and the gate beside them was not. */
  predicate Unavailable(run: Option<LineBody>) {
    run.None? || run.value.error
    || (!run.value.untrusted && run.value.passed >= run.value.total && run.value.gate.Some? && run.value.gate.value.error)
  }

  /** A run ends as finished exactly when its finish line is met, whoever asks and however. */
  lemma FinishedIffMet(run: Option<LineBody>, abandon: bool, untilSolved: bool)
    ensures var v := FinishLineVerdict(run, abandon, untilSolved);
            (v == Proceed(Completed) || v == Proceed(ExaminationLimited)) <==> Met(run)
  {
  }

  /** Beside what holds the run, its gate names something the examination could not reach. */
  predicate Limits(run: Option<LineBody>) {
    run.Some? && run.value.gate.Some? && run.value.gate.value.limited > 0
  }

  /** What is met is completed, unless something limits it; then it is examination-limited; and neither is said of anything else. */
  lemma MetAs(run: Option<LineBody>, abandon: bool, untilSolved: bool)
    ensures var v := FinishLineVerdict(run, abandon, untilSolved);
            && (v == Proceed(Completed) <==> Met(run) && !Limits(run))
            && (v == Proceed(ExaminationLimited) <==> Met(run) && Limits(run))
  {
  }

  /** The checks that ran do not all pass, or are not the operator's. */
  predicate Uncertified(run: Option<LineBody>) {
    run.Some? && !run.value.error && (run.value.untrusted || run.value.passed < run.value.total)
  }

  /** The operator's checks pass, and beside them no defect but questions or limitations hold the run. */
  predicate Held(run: Option<LineBody>) {
    && run.Some? && !run.value.error && !run.value.untrusted && run.value.passed >= run.value.total && run.value.gate.Some?
    && var g := run.value.gate.value; !g.error && g.defects == 0 && (g.open > 0 || g.holding > 0)
  }

  /** No line was run, or it ended in an error. */
  predicate NotRun(run: Option<LineBody>) {
    run.None? || run.value.error
  }

  /**
   * A done gives the run up exactly when it abandons, agents may end the run,
   * and its line was not run, is not certified, or holds it without a defect;
   * and ends it unchecked exactly when agents may and nothing could be
   * checked, but for a line that was not run and a done that abandons.
   */
  lemma UnmetAs(run: Option<LineBody>, abandon: bool, untilSolved: bool)
    ensures var v := FinishLineVerdict(run, abandon, untilSolved);
            && (v == Proceed(Abandoned) <==>
                  abandon && !UntilSolved(run, untilSolved) && (NotRun(run) || Uncertified(run) || Held(run)))
            && (v == Proceed(VerificationUnavailable) <==>
                  !UntilSolved(run, untilSolved) && Unavailable(run) && !(NotRun(run) && abandon))
  {
  }

  /** A run only the operator ends proceeds exactly when its finish line is met, never given up and never unchecked. */
  lemma UntilSolvedEndsOnlyMet(run: Option<LineBody>, abandon: bool, untilSolved: bool)
    requires UntilSolved(run, untilSolved)
    ensures FinishLineVerdict(run, abandon, untilSolved).Proceed? <==> Met(run)
  {
  }

  /** A done that does not abandon proceeds exactly when the line is met, or nothing could be checked and agents may end the run. */
  lemma NotAbandoningProceeds(run: Option<LineBody>, untilSolved: bool)
    ensures FinishLineVerdict(run, false, untilSolved).Proceed? <==> Met(run) || (Unavailable(run) && !UntilSolved(run, untilSolved))
    ensures FinishLineVerdict(run, false, untilSolved) != Proceed(Abandoned)
  {
  }

  // --- the run bound to a revision ---

  const FINISH_LINE_ATTEMPTS := 3

  /** One attempt as it went: the revision read before the run, the run, the revision read after (none: unreadable). */
  datatype Attempt = Attempt(before: Option<nat>, run: Option<LineRun>, after: Option<nat>)

  /** Attempts in order, up to the limit: the first whose two readings agree is the answer, and none is settled otherwise. */
  method RunBound(world: seq<Attempt>) returns (run: Option<LineRun>, revision: Option<nat>, settled: bool, runs: nat)
    requires |world| == FINISH_LINE_ATTEMPTS
    ensures 1 <= runs <= |world| && run == world[runs - 1].run && revision == world[runs - 1].before
    ensures settled <==> exists i :: 0 <= i < |world| && world[i].before == world[i].after
    ensures settled ==> world[runs - 1].before == world[runs - 1].after
    ensures forall i :: 0 <= i < runs - 1 ==> world[i].before != world[i].after
    ensures !settled ==> runs == FINISH_LINE_ATTEMPTS
  {
    run, revision, settled, runs := None, None, false, 0;
    while runs < |world|
      invariant 0 <= runs <= |world|
      invariant runs > 0 ==> run == world[runs - 1].run && revision == world[runs - 1].before
      invariant forall i :: 0 <= i < runs ==> world[i].before != world[i].after
    {
      var a := world[runs];
      run, revision, runs := a.run, a.before, runs + 1;
      if a.before == a.after { return run, revision, true, runs; }
    }
  }

  // --- the files of a done ---

  /** The sentinel: who wrote it, against which revision, and what its line said (nothing, from a done that ran none). */
  datatype Sentinel = Sentinel(seat: Seat, revision: Option<nat>, outcome: Option<Outcome>)

  datatype Written = Created | AlreadyThere | Unsettled | SeatLeft

  /** done/: each seat's marker and abandon vote, the dead seats', and the sentinel. */
  class DoneDir {
    var markers: set<Seat>
    var dead: set<Seat>
    var votes: set<Seat>
    var sentinel: Option<Sentinel>

    constructor ()
      ensures markers == {} && dead == {} && votes == {} && sentinel == None
    {
      markers, dead, votes, sentinel := {}, {}, {}, None;
    }

    /**
     * Puts the seat's marker down and creates the sentinel, unless it is there
     * already; where `revision` is given and is not `now`, undoes the marker
     * and creates nothing.
     */
    method WriteDone(me: Seat, seatOnly: bool, revision: Option<nat>, now: Option<nat>, outcome: Option<Outcome>) returns (r: Written)
      modifies this`markers, this`sentinel
      ensures r == if seatOnly then SeatLeft
                   else if old(sentinel).Some? then AlreadyThere
                   else if revision.Some? && now != revision then Unsettled
                   else Created
      ensures markers == if r.Unsettled? then old(markers) - {me} else old(markers) + {me}
      ensures sentinel == if r.Created? then Some(Sentinel(me, revision, outcome)) else old(sentinel)
    {
      markers := markers + {me};
      if seatOnly { return SeatLeft; }
      if revision.Some? {
        if sentinel.None? && now != revision {
          markers := markers - {me};
          return Unsettled;
        }
      }
      if sentinel.Some? { return AlreadyThere; }
      sentinel := Some(Sentinel(me, revision, outcome));
      return Created;
    }

    /** A seat's vote to abandon, and whether the run may end on it: two votes, or nobody else still working. */
    method AbandonGate(me: Seat, team: seq<Seat>) returns (proceed: bool, seen: set<Seat>, working: seq<Seat>, first: bool)
      modifies this`votes
      ensures votes == old(votes) + {me} && seen == votes && (first <==> me !in old(votes))
      ensures forall m :: m in working <==> m in team && m != me && m !in votes && m !in markers && m !in dead
      ensures proceed <==> |votes| >= 2 || forall m :: m in team ==> m == me || m in votes || m in markers || m in dead
    {
      first := me !in votes;
      votes := votes + {me};
      seen := votes;
      working := [];
      for i := 0 to |team|
        invariant forall m :: m in working <==> m in team[..i] && m != me && m !in votes && m !in markers && m !in dead
      {
        if team[i] == me || team[i] in seen { continue; }
        if team[i] !in markers && team[i] !in dead { working := working + [team[i]]; }
      }
      proceed := |seen| >= 2 || working == [];
      assert working != [] ==> working[0] in working;
    }
  }
}
