/**
 * What a done does at its beginning, over its line and as it votes, by what
 * holds at that moment (extensions/agent-swarm.ts, swarm_done): who is turned
 * away before the line runs, that one run is judged per revision, and what a
 * verdict leaves on the record.
 */
module DoneSteps {
  import opened Wrappers
  import opened FinishLog
  import opened FinishActs
  import opened FinishRegister
  import opened FinishRuns
  import opened FinishLine
  import opened DoneProtocol
  import opened DoneRuns
  import ResolveOutcomes

  // --- as it begins ---

  lemma TurnDecides(reg: Reg, me: Seat, path: Option<Path>)
    requires !reg.env.finished
    ensures var turn, lease := AskLease(reg.env, Fold(reg.log), me, path).0, Fold(Next(reg, DoneTurn(me, path)).log).lease;
            && lease.Some?
            && (turn.mine <==> lease.value.holder == me)
            && (turn.mine ==> turn.generation == lease.value.generation)
  {
    AskedLog(reg, me, path);
    ResolveOutcomes.AskedHolder(reg.env, reg.log, me, path);
    if AskLease(reg.env, Fold(reg.log), me, path).0.mine { TurnIsTheLease(reg.env, reg.log, me, path); }
  }

  lemma BeginsByTurn(s: Sys, me: Seat, path: Option<Path>)
    requires Free(PhaseOf(s, me)) && s.sentinel.None? && s.lock.None?
    ensures var t, turn := StepTo(s, Begin(me, path, false, false)), AskLease(s.reg.env, Fold(s.reg.log), me, path).0;
            && t.reg == Next(s.reg, DoneTurn(me, path)) && me in t.procs
            && t.procs[me] == if turn.mine && LateNow(t.reg.env, Fold(t.reg.log)) == [] then Proc(Ready(1), Some(turn.generation), false)
                              else Proc(Over(TurnedAway), None, false)
  {
  }

  /**
   * A done that asks for the finish goes on to its line exactly when the lease
   * it then finds is its own and nothing is late under it, and carries that
   * lease's generation; it is turned away otherwise.
   */
  lemma BeginDecides(s: Sys, me: Seat, path: Option<Path>)
    requires Good(s) && Free(PhaseOf(s, me)) && s.sentinel.None? && s.lock.None?
    ensures var t := StepTo(s, Begin(me, path, false, false));
            && t.reg == Next(s.reg, DoneTurn(me, path)) && me in t.procs && Leased(t).Some?
            && (if Leased(t).value.holder == me && LateNow(t.reg.env, Fold(t.reg.log)) == [] then
                  t.procs[me] == Proc(Ready(1), Some(Leased(t).value.generation), false)
                else PhaseOf(t, me) == Over(TurnedAway))
  {
    TurnDecides(s.reg, me, path);
    BeginsByTurn(s, me, path);
  }

  /** A done that gives up, finds the run ended, or gets no answer about its turn goes on without a lease, and asks for none. */
  lemma BeginsWithoutLease(s: Sys, me: Seat, path: Option<Path>, abandon: bool, turnFails: bool)
    requires Free(PhaseOf(s, me)) && (s.sentinel.Some? || abandon || turnFails)
    ensures var t := StepTo(s, Begin(me, path, abandon, turnFails));
            t.reg == s.reg && me in t.procs && t.procs[me] == Proc(Ready(1), None, abandon)
  {
  }

  /** A done that finds the run ended before its line skips it, and goes to the end without a verdict. */
  lemma SkipDecides(s: Sys, me: Seat)
    requires PhaseOf(s, me) == Ready(1)
    ensures PhaseOf(StepTo(s, SkipLine(me)), me) == if s.sentinel.Some? then Cleared(None, None, None) else Ready(1)
  {
  }

  /** A line that was run ends with what it printed, from the revision it began at to the one that then holds. */
  lemma EndDecides(s: Sys, me: Seat, body: Option<LineBody>)
    requires PhaseOf(s, me).Running?
    ensures var p, t := PhaseOf(s, me), PhaseOf(StepTo(s, EndRun(me, body)), me);
            && t.Ran? && t.attempt == p.attempt && t.before == p.before && (t.run.Some? <==> body.Some?)
            && (body.Some? ==> t.run.value == LineRun(p.began, s.reg.env.revision, body.value))
  {
  }

  /** A line the state held still for is bound to the revision; else it is run again, three times at most. */
  lemma ReadAfterDecides(s: Sys, me: Seat, readable: bool)
    requires PhaseOf(s, me).Ran?
    ensures var p, t := PhaseOf(s, me), PhaseOf(StepTo(s, ReadAfter(me, readable)), me);
            if (readable && p.before == Some(s.reg.env.revision)) || (!readable && p.before.None?) then t == Bound(p.run, p.before)
            else t == if p.attempt < 3 then Ready(p.attempt + 1) else Over(TurnedAway)
  {
  }

  // --- one run per revision ---

  /** Each revision has one check at most, and each check has its run. */
  ghost predicate CheckedWell(log: seq<Event>) {
    DistinctRevisions(Fold(log).checks) && forall x :: x in Fold(log).checks ==> x.run.Some?
  }

  /** The checks are well still, and those there were are there. */
  ghost predicate ChecksGrow(was: seq<Event>, now: seq<Event>) {
    CheckedWell(now) && Fold(was).checks <= Fold(now).checks
  }

  lemma NextChecksWell(reg: Reg, act: Act)
    requires CheckedWell(reg.log) && (act.Checks? ==> act.run.Some?)
    ensures ChecksGrow(reg.log, Next(reg, act).log)
  {
    NextKeepsRevisions(reg, act);
    if act.Checks? {
      ResolveOutcomes.CheckAppends(reg.log, act.me, act.revision, act.proceed, act.run);
    } else {
      OnlyChecksCheck(reg, act);
      OthersLeave(reg.log, Drafts(reg, act));
    }
  }

  /** The verdict on a done's line. */
  function JudgedAs(s: Sys, me: Seat): LineVerdict
    requires PhaseOf(s, me).Bound?
  {
    FinishLineVerdict(Body(PhaseOf(s, me).run), s.procs[me].abandon, s.untilSolved)
  }

  /** The verdict is put on record: it was to be, the line was run without fault, the done does not give up, and no other is inside. */
  predicate Records(s: Sys, me: Seat, recorded: bool)
    requires PhaseOf(s, me).Bound?
  {
    recorded && s.lock.None? && !s.procs[me].abandon && PhaseOf(s, me).run.Some? && !PhaseOf(s, me).run.value.body.error
  }

  lemma JudgeActs(s: Sys, me: Seat, recorded: bool)
    requires PhaseOf(s, me).Bound?
    ensures var p, t, verdict := PhaseOf(s, me), StepTo(s, Judge(me, recorded)), JudgedAs(s, me);
            && PhaseOf(t, me) == (if verdict.Proceed? then Judged(p.run, p.revision, verdict.outcome) else Over(TurnedAway))
            && t.reg == if Records(s, me, recorded) then Next(s.reg, Checks(me, p.revision, verdict.Proceed?, p.run)) else s.reg
  {
  }

  /** The log and the revision are as they were, or as the act leaves them. */
  predicate RegAfter(reg: Reg, act: Act, now: Reg) {
    || (now.log == reg.log && now.env.revision == reg.env.revision)
    || (now.log == Next(reg, act).log && now.env.revision == Next(reg, act).env.revision)
  }

  lemma RegChecksWell(reg: Reg, act: Act, now: Reg)
    requires CheckedWell(reg.log) && (act.Checks? ==> act.run.Some?) && RegAfter(reg, act, now)
    ensures ChecksGrow(reg.log, now.log)
  {
    if now.log != reg.log { NextChecksWell(reg, act); }
  }

  lemma AroundReg(s: Sys, act: Act)
    ensures RegAfter(s.reg, act, StepTo(s, Around(act)).reg)
    ensures act.Checks? ==> StepTo(s, Around(act)).reg == s.reg
  {
  }

  lemma BeginReg(s: Sys, me: Seat, path: Option<Path>, abandon: bool, turnFails: bool)
    ensures RegAfter(s.reg, DoneTurn(me, path), StepTo(s, Begin(me, path, abandon, turnFails)).reg)
  {
    if Free(PhaseOf(s, me)) { BeginDoneReg(s, me, path, abandon, turnFails); }
  }

  lemma BeginDoneReg(s: Sys, me: Seat, path: Option<Path>, abandon: bool, turnFails: bool)
    ensures var t := BeginDone(s, me, path, abandon, turnFails); t.reg == s.reg || t.reg == Next(s.reg, DoneTurn(me, path))
  {
  }

  lemma MarkReg(s: Sys, me: Seat)
    ensures RegAfter(s.reg, Unavailable(s.reg.env.unavailable + {me}), StepTo(s, Mark(me)).reg)
  {
  }

  lemma CommitDoneReg(s: Sys, me: Seat, revision: Option<nat>, said: Option<Outcome>, now: Option<nat>)
    ensures var t := CommitDone(s, me, revision, said, now).reg;
            || t == s.reg || t == s.reg.(env := s.reg.env.(finished := true))
            || t == Next(s.reg, TurnsReady(true)).(env := Next(s.reg, TurnsReady(true)).env.(finished := true))
  {
  }

  lemma CommitReg(s: Sys, me: Seat, readable: bool)
    ensures RegAfter(s.reg, TurnsReady(true), StepTo(s, Commit(me, readable)).reg)
  {
    if PhaseOf(s, me).Marked? { CommitDoneReg(s, me, PhaseOf(s, me).revision, PhaseOf(s, me).said, Reading(s, readable)); }
  }

  lemma OtherStepsLeave(s: Sys, step: Step)
    requires !step.Around? && !step.Begin? && !step.Judge? && !step.Mark? && !step.Commit?
    ensures StepTo(s, step).reg.log == s.reg.log && StepTo(s, step).reg.env.revision == s.reg.env.revision
  {
  }

  lemma JudgeReg(s: Sys, me: Seat, recorded: bool) returns (act: Act)
    ensures (act.Checks? ==> act.run.Some?) && RegAfter(s.reg, act, StepTo(s, Judge(me, recorded)).reg)
  {
    act := StateMoves;
    if PhaseOf(s, me).Bound? {
      JudgeActs(s, me, recorded);
      if Records(s, me, recorded) { act := Checks(me, PhaseOf(s, me).revision, JudgedAs(s, me).Proceed?, PhaseOf(s, me).run); }
    }
  }

  /** The act on the register a step does, if it does one. */
  lemma StepReg(s: Sys, step: Step) returns (act: Act)
    ensures (act.Checks? ==> act.run.Some?) && RegAfter(s.reg, act, StepTo(s, step).reg)
  {
    act := StateMoves;
    match step
    case Around(a) => AroundReg(s, a); if !a.Checks? { act := a; }
    case Begin(me, path, abandon, turnFails) => BeginReg(s, me, path, abandon, turnFails); act := DoneTurn(me, path);
    case Judge(me, recorded) => act := JudgeReg(s, me, recorded);
    case Mark(me) => MarkReg(s, me); act := Unavailable(s.reg.env.unavailable + {me});
    case Commit(me, readable) => CommitReg(s, me, readable); act := TurnsReady(true);
    case _ => OtherStepsLeave(s, step);
  }

  lemma TakenChecksWell(c: Course, i: nat)
    requires IsCourse(c) && i < |c.steps| && CheckedWell(c.states[i].reg.log)
    ensures ChecksGrow(c.states[i].reg.log, c.states[i + 1].reg.log)
  {
    assert TakenAt(c, i);
    var act := StepReg(c.states[i], c.steps[i]);
    RegChecksWell(c.states[i].reg, act, c.states[i + 1].reg);
  }

  lemma {:induction false} CourseChecksWell(c: Course, i: nat)
    requires IsCourse(c) && i < |c.states|
    ensures CheckedWell(c.states[i].reg.log)
  {
    if i > 0 {
      CourseChecksWell(c, i - 1);
      TakenChecksWell(c, i - 1);
    }
  }

  /** Over every interleaving, a check stays. */
  lemma {:induction false} ChecksStay(c: Course, i: nat, j: nat)
    requires IsCourse(c) && i <= j < |c.states|
    ensures Fold(c.states[i].reg.log).checks <= Fold(c.states[j].reg.log).checks
  {
    if i < j {
      ChecksStay(c, i, j - 1);
      CourseChecksWell(c, j - 1);
      TakenChecksWell(c, j - 1);
    }
  }

  /** The revision has a check, of this run. */
  ghost predicate HasCheck(s: Sys, revision: nat, run: LineRun) {
    exists x :: x in Fold(s.reg.log).checks && x.revision == revision && x.run == Some(run)
  }

  /** The check is put on record, as it is told: by this seat, at the revision, that it may proceed or not, with the run. */
  ghost predicate Recorded(was: seq<Checked>, now: seq<Checked>, me: Seat, revision: nat, proceed: bool, run: Option<LineRun>) {
    && |now| == |was| + 1 && was <= now
    && var x := now[|was|]; x.seat == me && x.revision == revision && x.proceed == proceed && x.run == run
  }

  ghost predicate HasAny(checks: seq<Checked>, revision: nat) {
    exists x :: x in checks && x.revision == revision
  }

  lemma CheckLeaves(reg: Reg, me: Seat, revision: Option<nat>, proceed: bool, run: Option<LineRun>)
    ensures var now := Next(reg, Checks(me, revision, proceed, run)).log;
            if revision.None? || HasAny(Fold(reg.log).checks, revision.value) then now == reg.log
            else Recorded(Fold(reg.log).checks, Fold(now).checks, me, revision.value, proceed, run)
  {
    ResolveOutcomes.CheckAppends(reg.log, me, revision, proceed, run);
    if revision.Some? { ResolveOutcomes.CheckAtFinds(Fold(reg.log).checks, revision.value); }
  }

  /**
   * As a line is judged: the done goes on as its verdict says; and its run is
   * put on record exactly when it was to be, was run without fault, its
   * revision is known and had none, the done does not give up, and no other is
   * inside.
   */
  lemma JudgeDecides(s: Sys, me: Seat, recorded: bool)
    requires PhaseOf(s, me).Bound?
    ensures var p, t, verdict := PhaseOf(s, me), StepTo(s, Judge(me, recorded)), JudgedAs(s, me);
            && PhaseOf(t, me) == (if verdict.Proceed? then Judged(p.run, p.revision, verdict.outcome) else Over(TurnedAway))
            && (if Records(s, me, recorded) && p.revision.Some? && !HasAny(Fold(s.reg.log).checks, p.revision.value) then
                  Recorded(Fold(s.reg.log).checks, Fold(t.reg.log).checks, me, p.revision.value, verdict.Proceed?, p.run)
                else t.reg.log == s.reg.log)
  {
    JudgeActs(s, me, recorded);
    CheckLeaves(s.reg, me, PhaseOf(s, me).revision, JudgedAs(s, me).Proceed?, PhaseOf(s, me).run);
  }

  /** A line begun at a revision with a check takes its run; at one without, or where the revision cannot be read, it is run. */
  lemma StartDecides(s: Sys, me: Seat, readable: bool)
    requires CheckedWell(s.reg.log) && PhaseOf(s, me).ReadOnce?
    ensures var p, t := PhaseOf(s, me), PhaseOf(StepTo(s, StartRun(me, readable)), me);
            && (forall run :: readable && HasCheck(s, s.reg.env.revision, run) ==> t == Ran(p.attempt, p.before, Some(run)))
            && ((readable ==> forall x :: x in Fold(s.reg.log).checks ==> x.revision != s.reg.env.revision) ==>
                  t == Running(p.attempt, p.before, s.reg.env.revision))
  {
    var checks, now := Fold(s.reg.log).checks, s.reg.env.revision;
    ResolveOutcomes.CheckAtFinds(checks, now);
    CheckAtMeans(checks, now);
    forall run | readable && HasCheck(s, now, run)
      ensures PhaseOf(StepTo(s, StartRun(me, readable)), me) == Ran(PhaseOf(s, me).attempt, PhaseOf(s, me).before, Some(run))
    {
      var x :| x in checks && x.revision == now && x.run == Some(run);
      assert CheckAt(checks, now) == Some(x);
    }
  }

  /** At i, this done's line is judged and put on record, at revision v. */
  ghost predicate RecordsAt(c: Course, i: nat, me: Seat, v: nat) {
    && i < |c.steps| && i < |c.states| && c.steps[i] == Judge(me, true) && PhaseOf(c.states[i], me).Bound?
    && PhaseOf(c.states[i], me).revision == Some(v) && Records(c.states[i], me, true)
  }

  /** At j, this done begins its line, with revision v holding and read. */
  ghost predicate StartsAt(c: Course, j: nat, you: Seat, v: nat) {
    && j < |c.steps| && j < |c.states| && c.steps[j] == StartRun(you, true) && PhaseOf(c.states[j], you).ReadOnce?
    && c.states[j].reg.env.revision == v
  }

  /** The line the done begins is this run, not run again. */
  ghost predicate TakesRun(s: Sys, t: Sys, you: Seat, run: LineRun)
    requires PhaseOf(s, you).ReadOnce?
  {
    PhaseOf(t, you) == Ran(PhaseOf(s, you).attempt, PhaseOf(s, you).before, Some(run))
  }

  /** The run the done takes is that of a check there right after i. */
  ghost predicate TakesCheckedRun(c: Course, i: nat, j: nat, you: Seat, v: nat, run: LineRun)
    requires i + 1 < |c.states| && j + 1 < |c.states| && PhaseOf(c.states[j], you).ReadOnce?
  {
    HasCheck(c.states[i + 1], v, run) && TakesRun(c.states[j], c.states[j + 1], you, run)
  }

  /**
   * Over every interleaving: once a done's line is judged and put on record,
   * its revision has a check, of that run if it had none before, and every
   * later done that begins its line while that revision holds takes the run of
   * that check.
   */
  lemma OneRunPerRevision(c: Course, i: nat, j: nat, me: Seat, you: Seat, v: nat)
    requires IsCourse(c) && i < j && RecordsAt(c, i, me, v) && StartsAt(c, j, you, v)
    ensures exists run :: TakesCheckedRun(c, i, j, you, v, run)
    ensures !HasAny(Fold(c.states[i].reg.log).checks, v) ==>
              TakesRun(c.states[j], c.states[j + 1], you, PhaseOf(c.states[i], me).run.value)
  {
    var run := RecordedAfter(c, i, me, v);
    CheckStays(c, i + 1, j, v, run);
    StartTakes(c, j, you, v, run);
    assert TakesCheckedRun(c, i, j, you, v, run);
  }

  lemma RecordedAfter(c: Course, i: nat, me: Seat, v: nat) returns (run: LineRun)
    requires IsCourse(c) && RecordsAt(c, i, me, v)
    ensures HasCheck(c.states[i + 1], v, run)
    ensures !HasAny(Fold(c.states[i].reg.log).checks, v) ==> run == PhaseOf(c.states[i], me).run.value
  {
    assert TakenAt(c, i);
    CourseChecksWell(c, i);
    run := CheckAfter(c.states[i], me, v);
  }

  lemma StartTakes(c: Course, j: nat, you: Seat, v: nat, run: LineRun)
    requires IsCourse(c) && StartsAt(c, j, you, v) && HasCheck(c.states[j], v, run)
    ensures TakesRun(c.states[j], c.states[j + 1], you, run)
  {
    assert TakenAt(c, j);
    CourseChecksWell(c, j);
    StartDecides(c.states[j], you, true);
  }

  lemma CheckStays(c: Course, i: nat, j: nat, v: nat, run: LineRun)
    requires IsCourse(c) && i <= j < |c.states| && HasCheck(c.states[i], v, run)
    ensures HasCheck(c.states[j], v, run)
  {
    ChecksStay(c, i, j);
    var x :| x in Fold(c.states[i].reg.log).checks && x.revision == v && x.run == Some(run);
    assert x in Fold(c.states[j].reg.log).checks;
  }

  lemma CheckAfter(s: Sys, me: Seat, v: nat) returns (run: LineRun)
    requires CheckedWell(s.reg.log) && PhaseOf(s, me).Bound? && PhaseOf(s, me).revision == Some(v) && Records(s, me, true)
    ensures HasCheck(StepTo(s, Judge(me, true)), v, run)
    ensures !HasAny(Fold(s.reg.log).checks, v) ==> Some(run) == PhaseOf(s, me).run
  {
    JudgeDecides(s, me, true);
    if x :| x in Fold(s.reg.log).checks && x.revision == v {
      run := x.run.value;
    } else {
      run := PhaseOf(s, me).run.value;
      RecordedThere(Fold(s.reg.log).checks, Fold(StepTo(s, Judge(me, true)).reg.log).checks, me, v, JudgedAs(s, me).Proceed?, run);
    }
  }

  lemma RecordedThere(was: seq<Checked>, now: seq<Checked>, me: Seat, v: nat, proceed: bool, run: LineRun)
    requires Recorded(was, now, me, v, proceed, Some(run))
    ensures exists x :: x in now && x.revision == v && x.run == Some(run)
  {
    assert now[|was|] in now;
  }

  /** Once judged, a done goes on only while the revision reads as it did before its run; unreadable then and now is the same. */
  lemma RecheckDecides(s: Sys, me: Seat, readable: bool)
    requires PhaseOf(s, me).Judged?
    ensures var p, t := PhaseOf(s, me), PhaseOf(StepTo(s, Recheck(me, readable)), me);
            if (readable && p.revision == Some(s.reg.env.revision)) || (!readable && p.revision.None?)
              then t == Cleared(p.run, p.revision, Some(p.outcome))
            else t == Over(TurnedAway)
  {
  }

  // --- as it gives up, or follows ---

  /** A done told to give up votes where agents may end the run, and is turned away where they may not. */
  lemma VoteDecides(s: Sys, me: Seat)
    requires PhaseOf(s, me).Cleared? && PhaseOf(s, me).said == Some(Abandoned) && s.sentinel.None?
    ensures var p, t := PhaseOf(s, me), StepTo(s, Vote(me));
            && PhaseOf(t, me) == (if s.untilSolved then Over(TurnedAway) else Voted(p.run, p.revision))
            && t.ballot.votes == (if s.untilSolved then s.ballot.votes else s.ballot.votes + {me})
  {
  }

  /** A done that finds the run ended follows it, but for one told to give up where agents may not end the run. */
  lemma FollowDecides(s: Sys, me: Seat)
    requires PhaseOf(s, me).Cleared? && s.sentinel.Some?
    ensures var p, t := PhaseOf(s, me), StepTo(s, FollowOn(me));
            if s.untilSolved && p.said == Some(Abandoned) then PhaseOf(t, me) == Over(TurnedAway) && t.markers == s.markers
            else PhaseOf(t, me) == Following(p.run, p.revision, p.said) && t.markers == s.markers + {me}
  {
  }

  // --- what lands meanwhile ---

  /** A seat's post that is a result, or a veto, or asks to hold or to stop, moves the state's revision by one as it lands; no other moves it. */
  lemma PostMoves(s: Sys, p: BoardPost)
    requires Fresh(s.reg.env.posts, p)
    ensures StepTo(s, Around(PostLands(p))).reg.env.revision - s.reg.env.revision
         == if p.from != SYSTEM && p.tag in {ResultTag, VetoTag, HoldTag, StopTag} then 1 else 0
  {
    assert Drafts(s.reg, PostLands(p)) == [];
    assert s.reg.log + [] == s.reg.log;
  }

  /** A done that asks moves the revision exactly when it changes which report the finish is of. */
  lemma AskingMoves(reg: Reg, me: Seat, path: Option<Path>)
    ensures Next(reg, DoneTurn(me, path)).env.revision - reg.env.revision
         == if LeaseReport(Fold(Next(reg, DoneTurn(me, path)).log)) != LeaseReport(Fold(reg.log)) then 1 else 0
  {
  }

  lemma {:induction false} RevisionRises(c: Course, i: nat, j: nat)
    requires IsCourse(c) && i <= j < |c.states|
    ensures c.states[i].reg.env.revision <= c.states[j].reg.env.revision
  {
    if i < j {
      RevisionRises(c, i, j - 1);
      assert TakenAt(c, j - 1);
      var act := StepReg(c.states[j - 1], c.steps[j - 1]);
      NextEnv(c.states[j - 1].reg, act);
    }
  }

  /**
   * Over every interleaving: whatever moved the revision, a sentinel written
   * later is of a line judged after it, or by a done that had no revision.
   */
  lemma JudgedAfterwards(c: Course, i: nat, j: nat)
    requires IsCourse(c) && i < j && WritesAt(c, j) && c.states[i].reg.env.revision < c.states[i + 1].reg.env.revision
    ensures var revision := c.states[j + 1].sentinel.value.revision;
            revision.Some? ==> revision.value > c.states[i].reg.env.revision
  {
    RevisionRises(c, i + 1, j);
    WrittenHolds(c, j);
  }

  lemma WrittenHolds(c: Course, j: nat)
    requires IsCourse(c) && WritesAt(c, j)
    ensures var revision := c.states[j + 1].sentinel.value.revision; revision.Some? ==> revision.value == c.states[j].reg.env.revision
  {
    assert TakenAt(c, j);
    OnlyThreeWrite(c.states[j], c.steps[j]);
  }
}
