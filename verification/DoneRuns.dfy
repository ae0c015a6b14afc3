/**
 * Dones over whole runs: what the sentinel's being there says of the done that
 * wrote it, and what a done that was turned away leaves behind, whatever else
 * happened between its phases.
 */
module DoneRuns {
  import opened Wrappers
  import opened FinishLog
  import opened FinishActs
  import opened FinishRuns
  import opened FinishLine
  import opened DoneProtocol
  import Q = AbandonQuorum

  /** A run of dones: the system at each moment, and the step that led from each to the next. */
  datatype Course = Course(states: seq<Sys>, steps: seq<Step>)

  ghost predicate TakenAt(c: Course, i: nat) {
    i + 1 < |c.states| && i < |c.steps| && c.states[i + 1] == StepTo(c.states[i], c.steps[i])
  }

  ghost predicate IsCourse(c: Course) {
    && |c.states| == |c.steps| + 1
    && DoneProtocol.Initial(c.states[0])
    && forall i: nat :: i < |c.steps| ==> TakenAt(c, i)
  }

  lemma TakenKeeps(c: Course, i: nat)
    requires IsCourse(c) && i < |c.steps| && Good(c.states[i])
    ensures Good(c.states[i + 1]) && c.states[i + 1].untilSolved == c.states[i].untilSolved
  {
    assert TakenAt(c, i);
    StepKeeps(c.states[i], c.steps[i]);
    StepKeepsPolicy(c.states[i], c.steps[i]);
  }

  /** Over every interleaving, each done's facts hold at every moment, and who may end the run never changes. */
  lemma {:induction false} CourseIsGood(c: Course, i: nat)
    requires IsCourse(c) && i < |c.states|
    ensures Good(c.states[i]) && c.states[i].untilSolved == c.states[0].untilSolved
  {
    if i > 0 {
      CourseIsGood(c, i - 1);
      TakenKeeps(c, i - 1);
    }
  }

  function Leased(s: Sys): Option<LeaseState> {
    Fold(s.reg.log).lease
  }

  function ProcAt(s: Sys, me: Seat): Option<Proc> {
    if me in s.procs then Some(s.procs[me]) else None
  }

  /** A step moves no done but its own. */
  lemma OthersUntouched(s: Sys, step: Step, me: Seat)
    requires !Own(step, me)
    ensures ProcAt(StepTo(s, step), me) == ProcAt(s, me)
  {
    if step.Begin? {
      BeginsOwn(s, step.me, step.path, step.abandon, step.turnFails, me);
    }
  }

  lemma BeginsOwn(s: Sys, me: Seat, path: Option<Path>, abandon: bool, turnFails: bool, other: Seat)
    requires other != me
    ensures ProcAt(BeginDone(s, me, path, abandon, turnFails), other) == ProcAt(s, other)
  {
  }

  // --- inside the transaction ---

  /** Only its own entering takes a done inside, and only as the transaction allows. */
  lemma EntersAllowed(s: Sys, step: Step, me: Seat)
    requires !Inside(PhaseOf(s, me)) && Inside(PhaseOf(StepTo(s, step), me))
    ensures step == Enter(me) && MayAsk(s, me) && MayEnter(s, me, s.procs[me].lease)
    ensures StepTo(s, step).reg == s.reg && StepTo(s, step).procs[me].lease == s.procs[me].lease
    ensures PhaseOf(StepTo(s, step), me).said == PhaseOf(s, me).said
  {
    if !Own(step, me) { OthersUntouched(s, step, me); }
  }

  lemma AroundLocked(s: Sys, step: Step)
    requires (step.Around? || step.Mark?) && s.lock.Some?
    ensures StepTo(s, step).reg.log == s.reg.log
  {
    if step.Around? {
      if MayHappen(s, step.act) { OfEnvOnlyEnv(s.reg, step.act); }
    } else {
      OfEnvOnlyEnv(s.reg, Unavailable(s.reg.env.unavailable + {step.me}));
    }
  }

  lemma OwnLocked(s: Sys, step: Step)
    requires !step.Around? && !step.Mark? && s.lock.Some? && !(step.Commit? && PhaseOf(s, step.me).Marked?)
    ensures StepTo(s, step).reg.log == s.reg.log
  {
  }

  lemma CommitIsOut(s: Sys, me: Seat, readable: bool)
    ensures !Inside(PhaseOf(StepTo(s, Commit(me, readable)), me)) || !PhaseOf(s, me).Marked?
  {
  }

  /** While the lock is held, only its holder's commit appends to the register. */
  lemma LockedLogStays(s: Sys, step: Step, me: Seat)
    requires Good(s) && s.lock == Some(me) && Inside(PhaseOf(StepTo(s, step), me))
    ensures StepTo(s, step).reg.log == s.reg.log
  {
    if step.Around? || step.Mark? {
      AroundLocked(s, step);
    } else if step.Commit? && PhaseOf(s, step.me).Marked? {
      assert ProcOk(s, step.me, s.procs[step.me]);
      CommitIsOut(s, me, step.readable);
    } else {
      OwnLocked(s, step);
    }
  }

  lemma StaysInside(s: Sys, step: Step, me: Seat)
    requires Inside(PhaseOf(s, me)) && Inside(PhaseOf(StepTo(s, step), me))
    ensures StepTo(s, step).procs[me].lease == s.procs[me].lease
    ensures PhaseOf(StepTo(s, step), me).said == PhaseOf(s, me).said
  {
    if !Own(step, me) { OthersUntouched(s, step, me); }
  }

  /** Entered at n, and inside the transaction from then to k. */
  ghost predicate EnteredSince(c: Course, n: nat, k: nat, me: Seat) {
    && n < k < |c.states| && n < |c.steps| && c.steps[n] == Enter(me) && !Inside(PhaseOf(c.states[n], me))
    && forall m: nat :: n < m <= k ==> InsideAt(c, m, me)
  }

  ghost predicate InsideAt(c: Course, m: nat, me: Seat) {
    m < |c.states| && Inside(PhaseOf(c.states[m], me))
  }

  /** A done inside the transaction entered it at an earlier moment, and has not left it. */
  lemma {:induction false} InsideHasEntered(c: Course, k: nat, me: Seat)
    requires IsCourse(c) && k < |c.states| && Inside(PhaseOf(c.states[k], me))
    ensures exists n: nat :: EnteredSince(c, n, k, me)
  {
    assert k > 0;
    assert InsideAt(c, k, me);
    if Inside(PhaseOf(c.states[k - 1], me)) {
      InsideHasEntered(c, k - 1, me);
      var n: nat :| EnteredSince(c, n, k - 1, me);
      assert EnteredSince(c, n, k, me);
    } else {
      assert TakenAt(c, k - 1);
      EntersAllowed(c.states[k - 1], c.steps[k - 1], me);
      assert EnteredSince(c, k - 1, k, me);
    }
  }

  /** What holds at k of a done that entered at n: let in then, with the same lease to show and the same of the finish. */
  ghost predicate SameSince(c: Course, n: nat, k: nat, me: Seat)
    requires n < |c.states| && k < |c.states|
  {
    && MayAsk(c.states[n], me) && MayEnter(c.states[n], me, c.states[n].procs[me].lease)
    && me in c.states[k].procs && c.states[n].procs[me].lease == c.states[k].procs[me].lease
    && Leased(c.states[n]) == Leased(c.states[k])
    && InsideAt(c, k, me) && PhaseOf(c.states[k], me).said == PhaseOf(c.states[n], me).said
  }

  lemma JustEntered(c: Course, k: nat, me: Seat)
    requires IsCourse(c) && EnteredSince(c, k, k + 1, me)
    ensures SameSince(c, k, k + 1, me)
  {
    assert TakenAt(c, k) && InsideAt(c, k + 1, me);
    EntersAllowed(c.states[k], c.steps[k], me);
  }

  lemma StillEntered(c: Course, k: nat, me: Seat)
    requires IsCourse(c) && k < |c.steps| && Good(c.states[k])
    requires Inside(PhaseOf(c.states[k], me)) && Inside(PhaseOf(c.states[k + 1], me))
    ensures c.states[k + 1].procs[me].lease == c.states[k].procs[me].lease && Leased(c.states[k + 1]) == Leased(c.states[k])
    ensures PhaseOf(c.states[k + 1], me).said == PhaseOf(c.states[k], me).said
  {
    assert TakenAt(c, k);
    assert ProcOk(c.states[k], me, c.states[k].procs[me]);
    LockedLogStays(c.states[k], c.steps[k], me);
    StaysInside(c.states[k], c.steps[k], me);
  }

  /** Inside the transaction nothing changes the finish's lease, nor the lease and the outcome the done came with. */
  lemma {:induction false} EnteredUnder(c: Course, n: nat, k: nat, me: Seat)
    requires IsCourse(c) && EnteredSince(c, n, k, me)
    ensures SameSince(c, n, k, me)
  {
    assert InsideAt(c, k, me);
    if k == n + 1 {
      JustEntered(c, n, me);
    } else {
      assert InsideAt(c, k - 1, me);
      EnteredUnder(c, n, k - 1, me);
      CourseIsGood(c, k - 1);
      StillEntered(c, k - 1, me);
    }
  }

  // --- who writes the sentinel ---

  ghost predicate WritesAt(c: Course, k: nat) {
    k + 1 < |c.states| && k < |c.steps| && c.states[k].sentinel.None? && c.states[k + 1].sentinel.Some?
  }

  /** Only a done's last step writes the sentinel: inside the transaction, past the abandon's gate, or following one there was. */
  lemma OnlyThreeWrite(s: Sys, step: Step)
    requires s.sentinel.None? && StepTo(s, step).sentinel.Some?
    ensures step.Commit? || step.WriteAlone?
    ensures var p, t := PhaseOf(s, step.me), StepTo(s, step);
            && (step.Commit? <==> p.Marked?)
            && (step.WriteAlone? ==> p.GivingUp? || p.Following?)
            && PhaseOf(t, step.me) == Over(EndedRun)
            && t.sentinel.value.seat == step.me && t.sentinel.value.revision == p.revision
            && (p.revision.Some? ==> p.revision == Some(s.reg.env.revision))
            && t.sentinel.value.outcome == (if p.GivingUp? then Some(Abandoned) else p.said)
  {
  }

  /** The revision a done was judged at holds as it writes, its run began and ended at it, and nothing is late. */
  ghost predicate AsJudged(c: Course, k: nat, me: Seat)
    requires k < |c.states| && PhaseOf(c.states[k], me).Marked?
  {
    var s, p := c.states[k], PhaseOf(c.states[k], me);
    && RunAt(p.run, p.revision)
    && (p.revision.Some? ==> p.revision == Some(s.reg.env.revision) && LateNow(s.reg.env, Fold(s.reg.log)) == [])
  }

  /** Its verdict was to proceed: completed with its line met and nothing limiting it, limited with something; or not, with nothing checked. */
  ghost predicate ToldToEnd(s: Sys, me: Seat)
    requires me in s.procs && PhaseOf(s, me).Marked?
  {
    var p := PhaseOf(s, me);
    && p.said.Some? && FinishLineVerdict(Body(p.run), s.procs[me].abandon, s.untilSolved) == Proceed(p.said.value)
    && SaidOfLine(p.said.value, Body(p.run), s.untilSolved)
  }

  /** What an outcome that is not an abandon says of the line. */
  predicate SaidOfLine(outcome: Outcome, run: Option<LineBody>, untilSolved: bool) {
    match outcome
    case Completed => Met(run) && !Limits(run)
    case ExaminationLimited => Met(run) && Limits(run)
    case VerificationUnavailable => FinishLine.Unavailable(run) && !UntilSolved(run, untilSolved)
    case Abandoned => false
  }

  /**
   * Let in at n, with nothing late then, and the finish's lease is the one of
   * then: its own holder and generation of a done that knew its turn; of one
   * that did not, none, its own, or one whose holder could not act at n.
   */
  ghost predicate UnderLease(c: Course, n: nat, k: nat, me: Seat)
    requires n < |c.states| && k < |c.states| && me in c.states[k].procs
  {
    var s, p := c.states[k], c.states[k].procs[me];
    && MayEnter(c.states[n], me, p.lease) && Leased(c.states[n]) == Leased(s)
    && (p.lease.Some? ==> Leased(s).Some? && Leased(s).value.holder == me && Leased(s).value.generation == p.lease.value)
    && (p.lease.None? ==> UnknownTurn(c.states[n], me))
  }

  lemma JudgedIsTold(s: Sys, me: Seat)
    requires me in s.procs && PhaseOf(s, me).Marked? && PhaseOf(s, me).said.Some? && PhaseOf(s, me).said.value != Abandoned
    requires PhaseOk(PhaseOf(s, me), s.procs[me].abandon, s.untilSolved, s.reg.env.revision)
    ensures ToldToEnd(s, me)
  {
    var p := s.procs[me];
    MetAs(Body(p.phase.run), p.abandon, s.untilSolved);
    UnmetAs(Body(p.phase.run), p.abandon, s.untilSolved);
  }

  /**
   * In every interleaving, a sentinel written from inside the transaction holds
   * to the revision, the run and the late list it was judged on, and to the
   * lease the done was let in under; and the done was told to end the run, but
   * for one that skipped its line for a sentinel a resume then moved aside.
   */
  lemma SentinelIsSafe(c: Course, k: nat)
    requires IsCourse(c) && WritesAt(c, k) && c.steps[k].Commit?
    ensures c.steps[k].me in c.states[k].procs && PhaseOf(c.states[k], c.steps[k].me).Marked?
    ensures var s, me := c.states[k], c.steps[k].me;
            && c.states[k + 1].sentinel == Some(Sentinel(me, PhaseOf(s, me).revision, PhaseOf(s, me).said))
            && AsJudged(c, k, me)
            && (exists n: nat :: EnteredSince(c, n, k, me) && UnderLease(c, n, k, me))
            && (ToldToEnd(s, me) || (PhaseOf(s, me).said.None? && Overtaken(c, k, me)))
  {
    assert TakenAt(c, k);
    var s, me := c.states[k], c.steps[k].me;
    CourseIsGood(c, k);
    OnlyThreeWrite(s, c.steps[k]);
    var p := s.procs[me];
    assert ProcOk(s, me, p);
    InsideHasEntered(c, k, me);
    var n: nat :| EnteredSince(c, n, k, me);
    EnteredUnder(c, n, k, me);
    assert UnderLease(c, n, k, me);
    if p.phase.said.None? {
      SkippedIsOvertaken(c, n, me);
      OvertakenStays(c, n, k, me);
    } else {
      JudgedIsTold(s, me);
    }
  }

  /** What the transaction asks of a done that does not know its turn: no lease, its own, or one whose holder cannot act. */
  predicate UnknownTurn(s: Sys, me: Seat) {
    var lease := Leased(s);
    lease.None? || lease.value.holder == me || lease.value.holder in s.reg.env.unavailable
  }

  /** The transaction lets a done in exactly when its lease, known or not, is as said and nothing is late. */
  lemma EnterDecides(s: Sys, me: Seat)
    requires MayAsk(s, me)
    ensures var lease, began := Leased(s), s.procs[me].lease;
            Inside(PhaseOf(StepTo(s, Enter(me)), me)) <==>
              && LateNow(s.reg.env, Fold(s.reg.log)) == []
              && (if began.Some? then lease.Some? && lease.value.holder == me && lease.value.generation == began.value
                  else UnknownTurn(s, me))
  {
  }

  /** Once in, a done writes exactly when the revision it was judged at still holds, or it had none, and no other ended the run first. */
  lemma CommitDecides(s: Sys, me: Seat, readable: bool)
    requires PhaseOf(s, me).Marked?
    ensures PhaseOf(StepTo(s, Commit(me, readable)), me) == Over(EndedRun) <==>
              s.sentinel.None? && (PhaseOf(s, me).revision.None? || Reading(s, readable) == PhaseOf(s, me).revision)
  {
  }

  // --- a done that was turned away ---

  /** The course of one done: from its beginning at i, under way until it is over at j. */
  ghost predicate DoneFrom(c: Course, i: nat, j: nat, me: Seat) {
    && i < j < |c.states| && i < |c.steps| && c.steps[i].Begin? && c.steps[i].me == me && Free(PhaseOf(c.states[i], me))
    && forall m: nat :: i < m < j ==> !Free(PhaseOf(c.states[m], me))
  }

  ghost predicate LeftBetween(c: Course, i: nat, j: nat, me: Seat) {
    exists k: nat :: i <= k < j && LeavesAt(c, k, me)
  }

  ghost predicate LeavesAt(c: Course, k: nat, me: Seat) {
    k < |c.steps| && c.steps[k] == Leave(me)
  }

  /** A done's marker is down: it is about to write the sentinel, or to find it. */
  predicate Down(p: Phase) {
    p.Marked? || p.GivingUp? || p.Following?
  }

  /** A marker appears as its seat leaves, or as its own done puts it down. */
  lemma MarkerAppears(s: Sys, step: Step, me: Seat)
    requires me !in s.markers && me in StepTo(s, step).markers
    ensures step == Leave(me) || (Own(step, me) && Down(PhaseOf(StepTo(s, step), me)))
  {
  }

  /** A done stays down until it is over, and one turned away then has taken its marker back. */
  lemma DownUntilOver(s: Sys, step: Step, me: Seat)
    requires Down(PhaseOf(s, me))
    ensures var p := PhaseOf(StepTo(s, step), me);
            && (Down(p) || p == Over(TurnedAway) || p == Over(FoundEnded) || p == Over(EndedRun))
            && (p == Over(TurnedAway) ==> me !in StepTo(s, step).markers)
  {
    if !Own(step, me) { OthersUntouched(s, step, me); }
  }

  /** Where a marker of this seat's comes from: there before the done began, its leaving, or the done's own, not taken back. */
  ghost predicate MarkerFrom(c: Course, i: nat, m: nat, me: Seat)
    requires i < |c.states| && m < |c.states|
  {
    me in c.states[m].markers ==>
      || me in c.states[i].markers || LeftBetween(c, i, m, me)
      || Down(PhaseOf(c.states[m], me)) || PhaseOf(c.states[m], me) == Over(FoundEnded) || PhaseOf(c.states[m], me) == Over(EndedRun)
  }

  /** What one step does to a seat's marker, and to its done while that is down. */
  ghost predicate MarkerMoves(s: Sys, t: Sys, step: Step, me: Seat) {
    && (me !in s.markers && me in t.markers ==> step == Leave(me) || Down(PhaseOf(t, me)))
    && (Down(PhaseOf(s, me)) ==>
          var p := PhaseOf(t, me);
          && (Down(p) || p == Over(TurnedAway) || p == Over(FoundEnded) || p == Over(EndedRun))
          && (p == Over(TurnedAway) ==> me !in t.markers))
  }

  lemma StepMovesMarker(c: Course, m: nat, me: Seat)
    requires IsCourse(c) && m < |c.steps|
    ensures MarkerMoves(c.states[m], c.states[m + 1], c.steps[m], me)
  {
    assert TakenAt(c, m);
    var s, step := c.states[m], c.steps[m];
    if me !in s.markers && me in StepTo(s, step).markers { MarkerAppears(s, step, me); }
    if Down(PhaseOf(s, me)) { DownUntilOver(s, step, me); }
  }

  lemma MarkerStep(c: Course, i: nat, m: nat, me: Seat)
    requires IsCourse(c) && i <= m < |c.steps| && MarkerFrom(c, i, m, me)
    requires m == i || !Free(PhaseOf(c.states[m], me))
    ensures MarkerFrom(c, i, m + 1, me)
  {
    StepMovesMarker(c, m, me);
    if me !in c.states[m].markers && c.steps[m] == Leave(me) {
      assert i <= m && LeavesAt(c, m, me);
    }
    if LeftBetween(c, i, m, me) {
      var k: nat :| i <= k < m && LeavesAt(c, k, me);
      assert i <= k < m + 1 && LeavesAt(c, k, me);
    }
  }

  lemma {:induction false} MarkerOfDone(c: Course, i: nat, m: nat, j: nat, me: Seat)
    requires IsCourse(c) && DoneFrom(c, i, j, me) && i <= m <= j
    ensures MarkerFrom(c, i, m, me)
  {
    if m > i {
      MarkerOfDone(c, i, m - 1, j, me);
      MarkerStep(c, i, m - 1, me);
    }
  }

  /** A done's own step changes the sentinel only by ending the run. */
  lemma OwnStepWrites(s: Sys, step: Step, me: Seat)
    requires Own(step, me) && StepTo(s, step).sentinel != s.sentinel
    ensures s.sentinel.None? && PhaseOf(StepTo(s, step), me) == Over(EndedRun)
  {
  }

  lemma EndsByWriting(s: Sys, step: Step, me: Seat)
    requires Own(step, me) && PhaseOf(s, me) != Over(EndedRun) && !(s.sentinel.None? && StepTo(s, step).sentinel.Some?)
    ensures PhaseOf(StepTo(s, step), me) != Over(EndedRun)
  {
  }

  /** A done says it ended the run exactly when it wrote the sentinel. */
  lemma EndedRunMeansWritten(s: Sys, step: Step, me: Seat)
    requires Own(step, me) && PhaseOf(s, me) != Over(EndedRun)
    ensures PhaseOf(StepTo(s, step), me) == Over(EndedRun) <==> s.sentinel.None? && StepTo(s, step).sentinel.Some?
  {
    if s.sentinel.None? && StepTo(s, step).sentinel.Some? {
      OnlyThreeWrite(s, step);
    } else {
      EndsByWriting(s, step, me);
    }
  }

  /**
   * Over every interleaving, from its beginning to its end: a done turned away,
   * at whatever phase, or whose abandon only asked the others, has written no
   * sentinel at any of its steps; holds no lock; and leaves no marker but one
   * that was there before it, or its seat's leaving put there.
   */
  lemma RefusedLeavesNothing(c: Course, i: nat, j: nat, me: Seat)
    requires IsCourse(c) && DoneFrom(c, i, j, me)
    requires PhaseOf(c.states[j], me) == Over(TurnedAway) || PhaseOf(c.states[j], me) == Over(AskedOthers)
    ensures me in c.states[j].markers ==> me in c.states[i].markers || LeftBetween(c, i, j, me)
    ensures forall k: nat :: i <= k < j && Own(c.steps[k], me) ==> c.states[k + 1].sentinel == c.states[k].sentinel
    ensures c.states[j].lock != Some(me)
  {
    CourseIsGood(c, j);
    MarkerOfDone(c, i, j, j, me);
    forall k: nat | i <= k < j && Own(c.steps[k], me) ensures c.states[k + 1].sentinel == c.states[k].sentinel {
      assert TakenAt(c, k);
      if c.states[k + 1].sentinel != c.states[k].sentinel {
        OwnStepWrites(c.states[k], c.steps[k], me);
      }
    }
  }

  /** Before the run has ended a done puts its marker down only inside its own transaction, or past the abandon's gate. */
  lemma MarkersAreInside(s: Sys, step: Step, me: Seat)
    requires Good(s) && s.sentinel.None? && me !in s.markers && me in StepTo(s, step).markers
    ensures || step == Leave(me)
            || (step == Mark(me) && s.lock == Some(me))
            || (step == Decide(me) && me in s.ballot.gates && Q.Proceeds(s.ballot, me))
  {
    assert step.Mark? ==> ProcOk(s, me, s.procs[me]);
  }

  // --- abandons and followers ---

  /** Only a resume takes the sentinel away. */
  lemma OnlyResumesClear(s: Sys, step: Step)
    requires s.sentinel.Some? && StepTo(s, step).sentinel.None?
    ensures step.Around? && step.act.Resumes?
  {
  }

  /** A done that goes by the run's having ended: its line skipped, or its marker down to follow. */
  predicate GoesByTheEnd(p: Phase) {
    p.Following? || (p.Cleared? && p.said.None?)
  }

  /** It comes to that only where the sentinel stands. */
  lemma FoundTheEnd(s: Sys, step: Step, me: Seat)
    requires !GoesByTheEnd(PhaseOf(s, me)) && GoesByTheEnd(PhaseOf(StepTo(s, step), me))
    ensures s.sentinel.Some? && StepTo(s, step).sentinel.Some?
  {
    if !Own(step, me) { OthersUntouched(s, step, me); }
  }

  /** A resume moved the sentinel aside while this done went by it. */
  ghost predicate OvertakenAt(c: Course, n: nat, me: Seat) {
    n < |c.steps| && n < |c.states| && c.steps[n].Around? && c.steps[n].act.Resumes? && GoesByTheEnd(PhaseOf(c.states[n], me))
  }

  ghost predicate Overtaken(c: Course, k: nat, me: Seat) {
    exists n: nat :: n < k && OvertakenAt(c, n, me)
  }

  lemma OvertakenStays(c: Course, n: nat, k: nat, me: Seat)
    requires Overtaken(c, n, me) && n <= k
    ensures Overtaken(c, k, me)
  {
    var m: nat :| m < n && OvertakenAt(c, m, me);
    assert m < k && OvertakenAt(c, m, me);
  }

  /** A done that goes by the end of the run and does not find the sentinel was overtaken by a resume. */
  lemma {:induction false} FollowerIsOvertaken(c: Course, k: nat, me: Seat)
    requires IsCourse(c) && k < |c.states| && GoesByTheEnd(PhaseOf(c.states[k], me)) && c.states[k].sentinel.None?
    ensures Overtaken(c, k, me)
  {
    assert k > 0;
    assert TakenAt(c, k - 1);
    var s, step := c.states[k - 1], c.steps[k - 1];
    if !GoesByTheEnd(PhaseOf(s, me)) {
      FoundTheEnd(s, step, me);
    } else if s.sentinel.None? {
      FollowerIsOvertaken(c, k - 1, me);
      OvertakenStays(c, k - 1, k, me);
    } else {
      OnlyResumesClear(s, step);
      assert OvertakenAt(c, k - 1, me);
    }
  }

  /** So is one that enters the transaction with its line skipped. */
  lemma SkippedIsOvertaken(c: Course, n: nat, me: Seat)
    requires IsCourse(c) && n < |c.states| && MayAsk(c.states[n], me) && PhaseOf(c.states[n], me).said.None?
    ensures Overtaken(c, n, me)
  {
    FollowerIsOvertaken(c, n, me);
  }

  /** A follower's last step ends the run exactly when no sentinel stands and the revision it came with, if any, still holds. */
  lemma FollowerDecides(s: Sys, me: Seat, readable: bool)
    requires PhaseOf(s, me).Following?
    ensures PhaseOf(StepTo(s, WriteAlone(me, readable)), me) == Over(EndedRun) <==>
              s.sentinel.None? && (PhaseOf(s, me).revision.None? || Reading(s, readable) == PhaseOf(s, me).revision)
  {
  }

  // --- the votes an abandon goes by ---

  ghost predicate MarkedIn(c: Course, l: nat, member: Seat) {
    l < |c.states| && member in c.states[l].markers + c.states[l].dead
  }

  /** Marked done or dead at a moment from m to k. */
  ghost predicate MarkedBetween(c: Course, m: nat, k: nat, member: Seat) {
    exists l: nat :: m <= l <= k && MarkedIn(c, l, member)
  }

  predicate AtGate(p: Phase) {
    p.Asking? || p.GivingUp?
  }

  /** The seat's call listed at m: it saw the votes that stood then, and whom it found idle was marked since. */
  ghost predicate CallSince(c: Course, m: nat, k: nat, me: Seat) {
    && m < k < |c.states| && m < |c.steps| && c.steps[m] == ListVotes(me)
    && me in c.states[k].ballot.gates && c.states[k].ballot.gates[me].seen == c.states[m].ballot.votes
    && forall x :: x in c.states[k].ballot.gates[me].idle ==> MarkedBetween(c, m, k, x)
  }

  lemma ListsAtGate(s: Sys, step: Step, me: Seat)
    requires !AtGate(PhaseOf(s, me)) && AtGate(PhaseOf(StepTo(s, step), me))
    ensures step == ListVotes(me) && me in StepTo(s, step).ballot.gates
    ensures StepTo(s, step).ballot.gates[me] == Q.Call(s.ballot.votes, 0, {}, {})
  {
    if !Own(step, me) { OthersUntouched(s, step, me); }
  }

  /** While a call is under way its votes stay those it listed, and it finds idle only whom it finds marked. */
  lemma GateMoves(s: Sys, step: Step, me: Seat)
    requires AtGate(PhaseOf(s, me)) && AtGate(PhaseOf(StepTo(s, step), me)) && me in s.ballot.gates
    ensures me in StepTo(s, step).ballot.gates && StepTo(s, step).ballot.gates[me].seen == s.ballot.gates[me].seen
    ensures forall x :: x in StepTo(s, step).ballot.gates[me].idle ==> x in s.ballot.gates[me].idle || x in s.markers + s.dead
  {
  }

  ghost predicate GateMoved(s: Sys, t: Sys, me: Seat) {
    && me in s.ballot.gates && me in t.ballot.gates && t.ballot.gates[me].seen == s.ballot.gates[me].seen
    && forall x :: x in t.ballot.gates[me].idle ==> x in s.ballot.gates[me].idle || x in s.markers + s.dead
  }

  lemma GateMovesAt(c: Course, k: nat, me: Seat)
    requires IsCourse(c) && k < |c.steps| && me in c.states[k].ballot.gates
    requires AtGate(PhaseOf(c.states[k], me)) && AtGate(PhaseOf(c.states[k + 1], me))
    ensures GateMoved(c.states[k], c.states[k + 1], me)
  {
    assert TakenAt(c, k);
    GateMoves(c.states[k], c.steps[k], me);
  }

  lemma CallGoesOn(c: Course, m: nat, k: nat, me: Seat)
    requires IsCourse(c) && k < |c.steps| && CallSince(c, m, k, me)
    requires AtGate(PhaseOf(c.states[k], me)) && AtGate(PhaseOf(c.states[k + 1], me))
    ensures CallSince(c, m, k + 1, me)
  {
    GateMovesAt(c, k, me);
    var n := k + 1;
    forall x | x in c.states[n].ballot.gates[me].idle ensures MarkedBetween(c, m, n, x) {
      if x in c.states[k].ballot.gates[me].idle {
        var l: nat :| m <= l <= k && MarkedIn(c, l, x);
        assert m <= l <= n && MarkedIn(c, l, x);
      } else {
        assert m <= k <= n && MarkedIn(c, k, x);
      }
    }
  }

  lemma {:induction false} CallHasListed(c: Course, k: nat, me: Seat)
    requires IsCourse(c) && k < |c.states| && AtGate(PhaseOf(c.states[k], me))
    ensures exists m: nat :: CallSince(c, m, k, me)
  {
    assert k > 0;
    if AtGate(PhaseOf(c.states[k - 1], me)) {
      CallHasListed(c, k - 1, me);
      var m: nat :| CallSince(c, m, k - 1, me);
      CallGoesOn(c, m, k - 1, me);
    } else {
      assert TakenAt(c, k - 1);
      ListsAtGate(c.states[k - 1], c.steps[k - 1], me);
      assert CallSince(c, k - 1, k, me);
    }
  }

  /** As the seat listed at m two votes stood, or every other member's stood then or was marked done or dead since. */
  ghost predicate QuorumFrom(c: Course, m: nat, k: nat, me: Seat) {
    && m < k < |c.states| && m < |c.steps| && c.steps[m] == ListVotes(me)
    && var stood := c.states[m].ballot.votes;
       || |stood| >= 2
       || forall member :: member in c.states[k].ballot.team ==> member == me || member in stood || MarkedBetween(c, m, k, member)
  }

  /** An abandon past its gate: its line said to give up, and a quorum stood as it listed the votes. */
  ghost predicate GivesUpAt(c: Course, k: nat, me: Seat) {
    && k < |c.states| && me in c.states[k].procs && PhaseOf(c.states[k], me).GivingUp?
    && FinishLineVerdict(Body(PhaseOf(c.states[k], me).run), c.states[k].procs[me].abandon, c.states[k].untilSolved) == Proceed(Abandoned)
    && exists m: nat :: QuorumFrom(c, m, k, me)
  }

  lemma AbandonIsAsked(c: Course, k: nat, me: Seat)
    requires IsCourse(c) && k < |c.states| && PhaseOf(c.states[k], me).GivingUp?
    ensures GivesUpAt(c, k, me)
  {
    CourseIsGood(c, k);
    assert ProcOk(c.states[k], me, c.states[k].procs[me]);
    CallHasListed(c, k, me);
    var m: nat :| CallSince(c, m, k, me);
    Q.ProceedsBy(c.states[k].ballot, me);
    assert QuorumFrom(c, m, k, me);
  }

  // --- why the sentinel is there ---

  /** The sentinel that stands was written at an earlier moment, and has stood since. */
  ghost predicate StandsSince(c: Course, n: nat, k: nat) {
    n < k < |c.states| && WritesAt(c, n) && c.states[k].sentinel == c.states[n + 1].sentinel
  }

  /** Who writes at n ends the run as told from inside the transaction, gives it up by quorum, or was overtaken by a resume. */
  ghost predicate CausedAt(c: Course, n: nat) {
    && n < |c.states| && n < |c.steps| && (c.steps[n].Commit? || c.steps[n].WriteAlone?)
    && var s, me := c.states[n], c.steps[n].me;
       || (c.steps[n].Commit? && me in s.procs && PhaseOf(s, me).Marked? && ToldToEnd(s, me))
       || (c.steps[n].WriteAlone? && GivesUpAt(c, n, me))
       || Overtaken(c, n, me)
  }

  lemma WriteHasACause(c: Course, k: nat)
    requires IsCourse(c) && WritesAt(c, k)
    ensures CausedAt(c, k)
  {
    var s, step := c.states[k], c.steps[k];
    assert TakenAt(c, k);
    OnlyThreeWrite(s, step);
    if step.Commit? {
      SentinelIsSafe(c, k);
    } else if PhaseOf(s, step.me).GivingUp? {
      AbandonIsAsked(c, k, step.me);
    } else {
      FollowerIsOvertaken(c, k, step.me);
    }
  }

  /** A sentinel that stands was written at some step, and nothing has written over it. */
  lemma {:induction false} SentinelStands(c: Course, k: nat)
    requires IsCourse(c) && k < |c.states| && c.states[k].sentinel.Some?
    ensures exists n: nat :: StandsSince(c, n, k)
  {
    assert k > 0;
    assert TakenAt(c, k - 1);
    if c.states[k - 1].sentinel.Some? {
      SentinelStands(c, k - 1);
      var n: nat :| StandsSince(c, n, k - 1);
      NotWrittenOver(c.states[k - 1], c.steps[k - 1]);
      assert StandsSince(c, n, k);
    } else {
      assert StandsSince(c, k - 1, k);
    }
  }

  lemma NotWrittenOver(s: Sys, step: Step)
    requires s.sentinel.Some? && StepTo(s, step).sentinel.Some?
    ensures StepTo(s, step).sentinel == s.sentinel
  {
  }

  /** A sentinel that stands was written by a done told to end the run, giving it up by quorum, or overtaken by a resume. */
  lemma SentinelHasACause(c: Course, k: nat)
    requires IsCourse(c) && k < |c.states| && c.states[k].sentinel.Some?
    ensures exists n: nat :: StandsSince(c, n, k) && CausedAt(c, n)
  {
    SentinelStands(c, k);
    var n: nat :| StandsSince(c, n, k);
    WriteHasACause(c, n);
  }

  /**
   * A run that stands abandoned was abandoned by quorum, of the votes that
   * stood as the seat that ended it listed them; or by a done a resume overtook.
   */
  lemma AbandonedByQuorum(c: Course, k: nat)
    requires IsCourse(c) && k < |c.states| && c.states[k].sentinel.Some? && c.states[k].sentinel.value.outcome == Some(Abandoned)
    ensures var me := c.states[k].sentinel.value.seat;
            exists n: nat :: StandsSince(c, n, k) && (GivesUpAt(c, n, me) || Overtaken(c, n, me))
  {
    SentinelHasACause(c, k);
    var n: nat :| StandsSince(c, n, k) && CausedAt(c, n);
    assert TakenAt(c, n);
    OnlyThreeWrite(c.states[n], c.steps[n]);
  }

  // --- resumes that wait ---

  /** A resume comes only while no seat's done is under way. */
  ghost predicate ResumeWaits(c: Course, i: nat) {
    i < |c.steps| && i < |c.states| && c.steps[i].Around? && c.steps[i].act.Resumes? ==>
      forall me :: Free(PhaseOf(c.states[i], me))
  }

  ghost predicate ResumesWait(c: Course) {
    forall i: nat :: ResumeWaits(c, i)
  }

  lemma NoneOvertaken(c: Course, k: nat, me: Seat)
    requires ResumesWait(c)
    ensures !Overtaken(c, k, me)
  {
    forall n: nat | n < k ensures !OvertakenAt(c, n, me) {
      WaitedForAll(c, n, me);
    }
  }

  lemma WaitedForAll(c: Course, n: nat, me: Seat)
    requires ResumeWaits(c, n)
    ensures !OvertakenAt(c, n, me)
  {
  }

  /** Where resumes wait for the dones, no follower ever writes: only a done inside the transaction, or past its abandon's gate. */
  lemma NoFollowerWrites(c: Course, k: nat)
    requires IsCourse(c) && ResumesWait(c) && WritesAt(c, k)
    ensures var s, step := c.states[k], c.steps[k];
            (step.Commit? && PhaseOf(s, step.me).Marked?) || (step.WriteAlone? && PhaseOf(s, step.me).GivingUp?)
  {
    assert TakenAt(c, k);
    OnlyThreeWrite(c.states[k], c.steps[k]);
    if PhaseOf(c.states[k], c.steps[k].me).Following? {
      FollowerIsOvertaken(c, k, c.steps[k].me);
      NoneOvertaken(c, k, c.steps[k].me);
    }
  }

  /** Ended as it should be, at n: told to, at the revision judged, nothing late, under the lease it was let in under. */
  ghost predicate EndedAt(c: Course, n: nat, me: Seat) {
    && n < |c.steps| && n < |c.states| && c.steps[n].Commit? && c.steps[n].me == me
    && me in c.states[n].procs && PhaseOf(c.states[n], me).Marked?
    && ToldToEnd(c.states[n], me) && AsJudged(c, n, me)
    && exists e: nat :: EnteredSince(c, e, n, me) && UnderLease(c, e, n, me)
  }

  /**
   * Where resumes wait for the dones, over every interleaving of everything
   * else: a sentinel that stands was written by the seat it names, either told
   * to end the run, at the revision it was judged at, with nothing late, under
   * the lease it was let in under; or giving the run up by the quorum that
   * stood as it listed the votes. It says abandoned exactly in the second case.
   */
  lemma RunEndsAsMeant(c: Course, k: nat)
    requires IsCourse(c) && ResumesWait(c) && k < |c.states| && c.states[k].sentinel.Some?
    ensures var me, outcome := c.states[k].sentinel.value.seat, c.states[k].sentinel.value.outcome;
            exists n: nat ::
              && StandsSince(c, n, k)
              && (if outcome == Some(Abandoned) then GivesUpAt(c, n, me) else EndedAt(c, n, me))
  {
    SentinelHasACause(c, k);
    var n: nat :| StandsSince(c, n, k) && CausedAt(c, n);
    assert TakenAt(c, n);
    OnlyThreeWrite(c.states[n], c.steps[n]);
    NoneOvertaken(c, n, c.steps[n].me);
    if c.steps[n].Commit? { SentinelIsSafe(c, n); }
  }

  /** In a run only the operator ends, no sequence of dones, abandons or not, ends it given up or unchecked. */
  lemma UntilSolvedNeverAbandoned(c: Course, k: nat)
    requires IsCourse(c) && k < |c.states| && c.states[0].untilSolved && c.states[k].sentinel.Some?
    ensures c.states[k].sentinel.value.outcome != Some(Abandoned) && c.states[k].sentinel.value.outcome != Some(VerificationUnavailable)
  {
    CourseIsGood(c, k);
  }
}
