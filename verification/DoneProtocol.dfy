/**
 * The done tool, phase by phase, with everything else interleaved between its
 * phases (extensions/agent-swarm.ts, the done's execute; finish.ts,
 * finishTransaction; finish-line.ts, runFinishLineBound, abandonGate and
 * markDone): any number of seats' dones at once, posts landing, reports
 * published, the state moving, the run resumed. What each step keeps.
 */
module DoneProtocol {
  import opened Wrappers
  import opened FinishLog
  import opened FinishActs
  import opened FinishRegister
  import opened FinishRuns
  import opened FinishLine
  import Q = AbandonQuorum

  /** How a done ended: turned away, its vote recorded and the others asked, the run found ended, or the run ended by it. */
  datatype End = TurnedAway | AskedOthers | FoundEnded | EndedRun

  /** Where one seat's done stands. Cleared, it asks to be written: with what its line said, or nothing when the line was skipped. */
  datatype Phase =
    | Idle
    | Ready(attempt: nat)
    | ReadOnce(attempt: nat, before: Option<nat>)
    | Running(attempt: nat, before: Option<nat>, began: nat)
    | Ran(attempt: nat, before: Option<nat>, run: Option<LineRun>)
    | Bound(run: Option<LineRun>, revision: Option<nat>)
    | Judged(run: Option<LineRun>, revision: Option<nat>, outcome: Outcome)
    | Cleared(run: Option<LineRun>, revision: Option<nat>, said: Option<Outcome>)
    | Entered(run: Option<LineRun>, revision: Option<nat>, said: Option<Outcome>)
    | Marked(run: Option<LineRun>, revision: Option<nat>, said: Option<Outcome>)
    | Voted(run: Option<LineRun>, revision: Option<nat>)
    | Asking(run: Option<LineRun>, revision: Option<nat>)
    | GivingUp(run: Option<LineRun>, revision: Option<nat>)
    | Following(run: Option<LineRun>, revision: Option<nat>, said: Option<Outcome>)
    | Over(end: End)

  /** A seat's done: where it stands, the generation of the lease it began with, and whether it abandons. */
  datatype Proc = Proc(phase: Phase, lease: Option<nat>, abandon: bool)

  datatype Sys = Sys(
    reg: Reg, procs: map<Seat, Proc>, lock: Option<Seat>, markers: set<Seat>, dead: set<Seat>, sentinel: Option<Sentinel>,
    ballot: Q.Votes, untilSolved: bool)

  datatype Step =
    | Around(act: Act)
    | Dies(member: Seat)
    | Leave(member: Seat)
    | Begin(me: Seat, path: Option<Path>, abandon: bool, turnFails: bool)
    | SkipLine(me: Seat)
    | ReadBefore(me: Seat, readable: bool)
    | StartRun(me: Seat, readable: bool)
    | EndRun(me: Seat, body: Option<LineBody>)
    | ReadAfter(me: Seat, readable: bool)
    | Judge(me: Seat, recorded: bool)
    | Recheck(me: Seat, readable: bool)
    | Enter(me: Seat)
    | Mark(me: Seat)
    | Commit(me: Seat, readable: bool)
    | Vote(me: Seat)
    | ListVotes(me: Seat)
    | LookAt(me: Seat)
    | Decide(me: Seat)
    | FollowOn(me: Seat)
    | WriteAlone(me: Seat, readable: bool)

  /** A step of this seat's own done. */
  predicate Own(step: Step, me: Seat) {
    !step.Around? && !step.Dies? && !step.Leave? && step.me == me
  }

  /** No done of the seat is under way. */
  predicate Free(p: Phase) {
    p.Idle? || p.Over?
  }

  function PhaseOf(s: Sys, me: Seat): Phase {
    if me in s.procs then s.procs[me].phase else Idle
  }

  function Move(s: Sys, me: Seat, phase: Phase): Sys {
    if me in s.procs then s.(procs := s.procs[me := s.procs[me].(phase := phase)]) else s
  }

  /** The state's revision as a reader gets it: none when it cannot be read. */
  function Reading(s: Sys, readable: bool): Option<nat> {
    if readable then Some(s.reg.env.revision) else None
  }

  function Body(run: Option<LineRun>): Option<LineBody> {
    if run.Some? then Some(run.value.body) else None
  }

  /** What changes around the register, and waits for no lock. */
  predicate OfEnv(act: Act) {
    act.PostLands? || act.Publishes? || act.Resumes? || act.Unavailable? || act.StateMoves?
  }

  /** What may happen around the dones: an act on the register waits for the lock, a file's time never goes back. */
  predicate MayHappen(s: Sys, act: Act) {
    && !act.SentinelLands? && !act.Checks?
    && (OfEnv(act) || s.lock.None?)
    && (act.Publishes? && act.written.Some? && act.file in s.reg.env.reports ==>
          act.written.value.writtenAt >= s.reg.env.reports[act.file].writtenAt)
  }

  /** A recorded check's run, when the revision read now has one to take. */
  function Shared(s: Sys, readable: bool): Option<LineRun> {
    if !readable then None
    else
      var c := CheckAt(Fold(s.reg.log).checks, s.reg.env.revision);
      if c.Some? then c.value.run else None
  }

  /** The lease and what is late, as the sentinel's own transaction checks them. */
  predicate MayFinish(env: Env, st: FinishState, me: Seat, began: Option<nat>) {
    LeaseAllows(env, st.lease, me, began) && LateNow(env, st) == []
  }

  /** The holder and generation a done began with; of one that does not know its turn, no lease, its own, or one whose holder cannot act. */
  predicate LeaseAllows(env: Env, lease: Option<LeaseState>, me: Seat, began: Option<nat>) {
    if began.Some? then lease.Some? && lease.value.holder == me && lease.value.generation == began.value
    else lease.None? || lease.value.holder == me || lease.value.holder in env.unavailable
  }

  predicate MayEnter(s: Sys, me: Seat, began: Option<nat>) {
    MayFinish(s.reg.env, Fold(s.reg.log), me, began)
  }

  function SetSentinel(s: Sys, me: Seat, revision: Option<nat>, said: Option<Outcome>): Sys {
    s.(sentinel := Some(Sentinel(me, revision, said)), reg := s.reg.(env := s.reg.env.(finished := true)))
  }

  function Start(s: Sys, me: Seat, lease: Option<nat>, abandon: bool, phase: Phase): Sys {
    s.(procs := s.procs[me := Proc(phase, lease, abandon)])
  }

  /** The run found ended as it asks to be written: the seat marks itself, and goes on to find, or make, the sentinel on its own. */
  function Follow(s: Sys, me: Seat, run: Option<LineRun>, revision: Option<nat>, said: Option<Outcome>): Sys {
    Move(s.(markers := s.markers + {me}), me, Following(run, revision, said))
  }

  /** A done asks whose the finish is; one that abandons, gets no answer or finds the run ended goes on without knowing. */
  function BeginDone(s: Sys, me: Seat, path: Option<Path>, abandon: bool, turnFails: bool): Sys {
    if s.sentinel.Some? || abandon || turnFails then Start(s, me, None, abandon, Ready(1))
    else if s.lock.Some? then s
    else
      var turn := AskLease(s.reg.env, Fold(s.reg.log), me, path).0;
      var reg := Next(s.reg, DoneTurn(me, path));
      var t := s.(reg := reg);
      if !turn.mine || LateNow(reg.env, Fold(reg.log)) != [] then Start(t, me, None, false, Over(TurnedAway))
      else Start(t, me, Some(turn.generation), false, Ready(1))
  }

  /** The verdict on a bound run, and its record for the other seats (when the lock is free and it is one to share). */
  function JudgeRun(s: Sys, me: Seat, run: Option<LineRun>, revision: Option<nat>, recorded: bool): Sys
    requires me in s.procs
  {
    var abandon := s.procs[me].abandon;
    var verdict := FinishLineVerdict(Body(run), abandon, s.untilSolved);
    var shares := recorded && s.lock.None? && run.Some? && !run.value.body.error && !abandon;
    var t := if shares then s.(reg := Next(s.reg, Checks(me, revision, verdict.Proceed?, run))) else s;
    Move(t, me, if verdict.Proceed? then Judged(run, revision, verdict.outcome) else Over(TurnedAway))
  }

  /** The sentinel under the registers' lock: written while the revision still holds, or the marker taken back. */
  function CommitDone(s: Sys, me: Seat, revision: Option<nat>, said: Option<Outcome>, now: Option<nat>): Sys {
    var out := s.(lock := None);
    if s.sentinel.Some? then Move(out, me, Over(FoundEnded))
    else if revision.Some? && now != revision then Move(out.(markers := s.markers - {me}), me, Over(TurnedAway))
    else
      var reg := if Fold(s.reg.log).readiness == Some(true) then s.reg else Next(s.reg, TurnsReady(true));
      SetSentinel(Move(out.(reg := reg), me, Over(EndedRun)), me, revision, said)
  }

  /** A done outside the transaction, its marker down: no lease and nothing late is looked at, the revision is. */
  function WriteOutside(s: Sys, me: Seat, revision: Option<nat>, said: Option<Outcome>, now: Option<nat>): Sys {
    if s.sentinel.Some? then Move(s, me, Over(FoundEnded))
    else if revision.Some? && now != revision then Move(s.(markers := s.markers - {me}), me, Over(TurnedAway))
    else SetSentinel(Move(s, me, Over(EndedRun)), me, revision, said)
  }

  /** What happens around: a resume moves the sentinel, the markers and the votes aside. */
  function AroundTo(s: Sys, act: Act): Sys {
    if !MayHappen(s, act) then s
    else
      var t := s.(reg := Next(s.reg, act));
      if act.Resumes? then t.(sentinel := None, markers := {}, dead := {}, ballot := Q.StepTo(s.ballot, Q.Reset)) else t
  }

  /** A look at one member's markers, as they are now. */
  function Looked(s: Sys, me: Seat): Q.Votes {
    Q.StepTo(Q.StepTo(s.ballot, Q.MarkersAre(s.markers + s.dead)), Q.Look(me))
  }

  function StepTo(s: Sys, step: Step): Sys {
    match step
    case Around(act) => AroundTo(s, act)
    case Dies(member) => s.(dead := s.dead + {member})
    case Leave(member) => s.(markers := s.markers + {member})
    case Begin(me, path, abandon, turnFails) =>
      if Free(PhaseOf(s, me)) then BeginDone(s, me, path, abandon, turnFails) else s
    case SkipLine(me) =>
      if PhaseOf(s, me) == Ready(1) && s.sentinel.Some? then Move(s, me, Cleared(None, None, None)) else s
    case ReadBefore(me, readable) =>
      if PhaseOf(s, me).Ready? then Move(s, me, ReadOnce(PhaseOf(s, me).attempt, Reading(s, readable))) else s
    case StartRun(me, readable) =>
      if !PhaseOf(s, me).ReadOnce? then s
      else
        var p := PhaseOf(s, me);
        if Shared(s, readable).Some? then Move(s, me, Ran(p.attempt, p.before, Shared(s, readable)))
        else Move(s, me, Running(p.attempt, p.before, s.reg.env.revision))
    case EndRun(me, body) =>
      if !PhaseOf(s, me).Running? then s
      else
        var p := PhaseOf(s, me);
        Move(s, me, Ran(p.attempt, p.before, if body.Some? then Some(LineRun(p.began, s.reg.env.revision, body.value)) else None))
    case ReadAfter(me, readable) =>
      if !PhaseOf(s, me).Ran? then s
      else
        var p := PhaseOf(s, me);
        if Reading(s, readable) == p.before then Move(s, me, Bound(p.run, p.before))
        else Move(s, me, if p.attempt < FINISH_LINE_ATTEMPTS then Ready(p.attempt + 1) else Over(TurnedAway))
    case Judge(me, recorded) =>
      if PhaseOf(s, me).Bound? then JudgeRun(s, me, PhaseOf(s, me).run, PhaseOf(s, me).revision, recorded) else s
    case Recheck(me, readable) =>
      if !PhaseOf(s, me).Judged? then s
      else
        var p := PhaseOf(s, me);
        Move(s, me, if Reading(s, readable) == p.revision then Cleared(p.run, p.revision, Some(p.outcome)) else Over(TurnedAway))
    case Enter(me) =>
      if !MayAsk(s, me) then s
      else
        var p := PhaseOf(s, me);
        if MayEnter(s, me, s.procs[me].lease) then Move(s.(lock := Some(me)), me, Entered(p.run, p.revision, p.said))
        else Move(s, me, Over(TurnedAway))
    case Mark(me) =>
      if !PhaseOf(s, me).Entered? then s
      else
        var p := PhaseOf(s, me);
        Move(s.(markers := s.markers + {me}, reg := Next(s.reg, Unavailable(s.reg.env.unavailable + {me}))),
             me, Marked(p.run, p.revision, p.said))
    case Commit(me, readable) =>
      if PhaseOf(s, me).Marked? then
        CommitDone(s, me, PhaseOf(s, me).revision, PhaseOf(s, me).said, Reading(s, readable))
      else s
    case Vote(me) =>
      if !PhaseOf(s, me).Cleared? || PhaseOf(s, me).said != Some(Abandoned) || s.sentinel.Some? then s
      else
        var p := PhaseOf(s, me);
        if s.untilSolved then Move(s, me, Over(TurnedAway))
        else Move(s.(ballot := Q.StepTo(s.ballot, Q.Write(me))), me, Voted(p.run, p.revision))
    case ListVotes(me) =>
      if PhaseOf(s, me).Voted? then
        Move(s.(ballot := Q.StepTo(s.ballot, Q.List(me))), me, Asking(PhaseOf(s, me).run, PhaseOf(s, me).revision))
      else s
    case LookAt(me) =>
      if PhaseOf(s, me).Asking? then s.(ballot := Looked(s, me)) else s
    case Decide(me) =>
      if !PhaseOf(s, me).Asking? || me !in s.ballot.gates || s.ballot.gates[me].looked != |s.ballot.team| then s
      else
        var p := PhaseOf(s, me);
        if Q.Proceeds(s.ballot, me) then Move(s.(markers := s.markers + {me}), me, GivingUp(p.run, p.revision))
        else Move(s, me, Over(AskedOthers))
    case FollowOn(me) =>
      if !PhaseOf(s, me).Cleared? || s.sentinel.None? then s
      else if s.untilSolved && PhaseOf(s, me).said == Some(Abandoned) then Move(s, me, Over(TurnedAway))
      else Follow(s, me, PhaseOf(s, me).run, PhaseOf(s, me).revision, PhaseOf(s, me).said)
    case WriteAlone(me, readable) =>
      var p := PhaseOf(s, me);
      if p.GivingUp? then WriteOutside(s, me, p.revision, Some(Abandoned), Reading(s, readable))
      else if p.Following? then WriteOutside(s, me, p.revision, p.said, Reading(s, readable))
      else s
  }

  /** A done that ends the run asks for the transaction: cleared, not abandoning, the run not ended and the lock free. */
  predicate MayAsk(s: Sys, me: Seat) {
    PhaseOf(s, me).Cleared? && PhaseOf(s, me).said != Some(Abandoned) && s.sentinel.None? && s.lock.None?
  }

  ghost predicate Initial(s: Sys) {
    && FinishRuns.Initial(s.reg) && !s.reg.env.finished
    && s.procs == map[] && s.lock.None? && s.sentinel.None? && s.markers == {} && s.dead == {} && Q.Initial(s.ballot)
  }

  // --- what every reachable state keeps ---

  /** A run bound to a revision began and ended at it. */
  ghost predicate RunAt(run: Option<LineRun>, revision: Option<nat>) {
    run.Some? && revision.Some? ==> run.value.began == revision.value && run.value.ended == revision.value
  }

  ghost predicate AtMost(revision: Option<nat>, now: nat) {
    revision.Some? ==> revision.value <= now
  }

  /** A run bound to a revision, and what its line said of it. */
  ghost predicate JudgedOk(run: Option<LineRun>, revision: Option<nat>, said: Option<Outcome>, abandon: bool, untilSolved: bool, now: nat) {
    && AtMost(revision, now) && RunAt(run, revision)
    && (said.Some? ==> FinishLineVerdict(Body(run), abandon, untilSolved) == Proceed(said.value))
  }

  ghost predicate PhaseOk(p: Phase, abandon: bool, untilSolved: bool, now: nat) {
    match p
    case Idle => true
    case Ready(_) => true
    case ReadOnce(_, before) => AtMost(before, now)
    case Running(_, before, began) => AtMost(before, began) && began <= now
    case Ran(_, before, run) =>
      && AtMost(before, now)
      && (run.Some? ==> AtMost(before, run.value.began) && run.value.began <= run.value.ended <= now)
    case Bound(run, revision) => JudgedOk(run, revision, None, abandon, untilSolved, now)
    case Judged(run, revision, outcome) => JudgedOk(run, revision, Some(outcome), abandon, untilSolved, now)
    case Cleared(run, revision, said) => JudgedOk(run, revision, said, abandon, untilSolved, now)
    case Entered(run, revision, said) => JudgedOk(run, revision, said, abandon, untilSolved, now)
    case Marked(run, revision, said) => JudgedOk(run, revision, said, abandon, untilSolved, now)
    case Voted(run, revision) => JudgedOk(run, revision, Some(Abandoned), abandon, untilSolved, now)
    case Asking(run, revision) => JudgedOk(run, revision, Some(Abandoned), abandon, untilSolved, now)
    case GivingUp(run, revision) => JudgedOk(run, revision, Some(Abandoned), abandon, untilSolved, now)
    case Following(run, revision, said) => JudgedOk(run, revision, said, abandon, untilSolved, now)
    case Over(_) => true
  }

  /** A done's lease is the one it began with, or a later generation has taken over. */
  ghost predicate LeaseSince(began: Option<nat>, me: Seat, lease: Option<LeaseState>) {
    began.Some? ==>
      && lease.Some? && began.value <= lease.value.generation
      && (lease.value.generation == began.value ==> lease.value.holder == me)
  }

  predicate Inside(p: Phase) {
    p.Entered? || p.Marked?
  }

  /** Inside the sentinel's transaction: the lease begun with still holds, and nothing is late while the revision is the one judged on. */
  ghost predicate InsideOk(s: Sys, me: Seat, p: Proc) {
    Inside(p.phase) ==>
      && s.lock == Some(me)
      && (p.lease.Some? ==> Fold(s.reg.log).lease.Some? && Fold(s.reg.log).lease.value.generation == p.lease.value)
      && (p.phase.revision == Some(s.reg.env.revision) ==> LateNow(s.reg.env, Fold(s.reg.log)) == [])
  }

  /** An abandon past the gate is past it by the votes it saw. */
  ghost predicate GateOk(b: Q.Votes, me: Seat, p: Phase) {
    p.GivingUp? ==> me in b.gates && Q.Proceeds(b, me)
  }

  ghost predicate ProcOk(s: Sys, me: Seat, p: Proc) {
    && PhaseOk(p.phase, p.abandon, s.untilSolved, s.reg.env.revision)
    && LeaseSince(p.lease, me, Fold(s.reg.log).lease)
    && InsideOk(s, me, p)
    && GateOk(s.ballot, me, p.phase)
  }

  /** Every check recorded is of a run that began and ended at the revision it is recorded for. */
  ghost predicate ChecksOk(checks: seq<Checked>, now: nat) {
    forall i :: 0 <= i < |checks| ==> checks[i].revision <= now && RunAt(checks[i].run, Some(checks[i].revision))
  }

  /** What an until-solved run's sentinel may say: the line was met, or nothing. */
  predicate MetOrSilent(said: Option<Outcome>) {
    said.None? || said.value == Completed || said.value == ExaminationLimited
  }

  ghost predicate SentinelOk(s: Sys) {
    && (s.sentinel.Some? <==> s.reg.env.finished)
    && (s.sentinel.Some? && s.untilSolved ==> MetOrSilent(s.sentinel.value.outcome))
  }

  ghost predicate LockOk(s: Sys) {
    s.lock.Some? ==> Inside(PhaseOf(s, s.lock.value))
  }

  ghost predicate Good(s: Sys) {
    && SentinelOk(s) && LockOk(s) && Q.Good(s.ballot)
    && ChecksOk(Fold(s.reg.log).checks, s.reg.env.revision)
    && forall me :: me in s.procs ==> ProcOk(s, me, s.procs[me])
  }

  // --- what one act on the register keeps ---

  lemma PhaseLater(p: Phase, abandon: bool, untilSolved: bool, now: nat, later: nat)
    requires PhaseOk(p, abandon, untilSolved, now) && now <= later
    ensures PhaseOk(p, abandon, untilSolved, later)
  {
  }

  lemma NextEnv(reg: Reg, act: Act)
    ensures Next(reg, act).env.revision >= reg.env.revision
    ensures !act.SentinelLands? && !act.Resumes? ==> Next(reg, act).env.finished == reg.env.finished
    ensures act.Resumes? ==> !Next(reg, act).env.finished
  {
  }

  lemma NextChecks(reg: Reg, act: Act)
    requires !act.Checks?
    ensures Fold(Next(reg, act).log).checks == Fold(reg.log).checks
  {
    OnlyChecksCheck(reg, act);
    OthersLeave(reg.log, Drafts(reg, act));
  }

  lemma NextLeaseSince(reg: Reg, act: Act, began: Option<nat>, me: Seat)
    requires LeaseSince(began, me, Fold(reg.log).lease)
    ensures LeaseSince(began, me, Fold(Next(reg, act).log).lease)
  {
    NextFences(reg, act);
  }

  // --- nothing lands late without moving the revision ---

  /** With no more corrections than before, nothing late stays nothing late. */
  lemma NothingLateStays(env: Env, now: Env, log: seq<Event>)
    requires var st := Fold(log);
             st.lease.Some? && st.lease.value.report.Some? ==>
               forall id :: CorrectionId(now.posts, st.lease.value.holder, Boundary(now, st, st.lease.value.report.value), id)
                        ==> CorrectionId(env.posts, st.lease.value.holder, Boundary(env, st, st.lease.value.report.value), id)
    requires LateNow(env, Fold(log)) == []
    ensures LateNow(now, Fold(log)) == []
  {
    var st := Fold(log);
    FoldIsOrdered(log);
    if LateNow(now, st) != [] {
      var t := LateNow(now, st)[0].target;
      assert Named(LateNow(now, st), t);
      LateItemsMeans(now, st, st.lease.value.holder, st.lease.value.report, t, |log|);
      LateItemsMeans(env, st, st.lease.value.holder, st.lease.value.report, t, |log|);
    }
  }

  lemma OfEnvOnlyEnv(reg: Reg, act: Act)
    requires OfEnv(act)
    ensures Next(reg, act).log == reg.log && Next(reg, act).env == EnvAfter(reg, act)
  {
    assert Drafts(reg, act) == [];
    assert reg.log + [] == reg.log;
  }

  lemma QuietIsNotLate(reg: Reg, act: Act)
    requires OfEnv(act)
    requires act.Publishes? && act.written.Some? && act.file in reg.env.reports ==>
               act.written.value.writtenAt >= reg.env.reports[act.file].writtenAt
    requires Next(reg, act).env.revision == reg.env.revision
    requires LateNow(reg.env, Fold(reg.log)) == []
    ensures LateNow(Next(reg, act).env, Fold(Next(reg, act).log)) == []
  {
    OfEnvOnlyEnv(reg, act);
    var env, now, st := reg.env, EnvAfter(reg, act), Fold(reg.log);
    if st.lease.Some? && st.lease.value.report.Some? {
      var report, holder := st.lease.value.report.value, st.lease.value.holder;
      assert Boundary(now, st, report) >= Boundary(env, st, report);
      forall id | CorrectionId(now.posts, holder, Boundary(now, st, report), id)
        ensures CorrectionId(env.posts, holder, Boundary(env, st, report), id)
      {
        var p :| p in now.posts && p.id == id && IsCorrection(p, holder, Boundary(now, st, report)) && !Restating(p);
        assert p in env.posts;
        assert IsCorrection(p, holder, Boundary(env, st, report));
      }
    }
    NothingLateStays(env, now, reg.log);
  }

  // --- each step keeps what is good ---

  lemma MoveKeeps(s: Sys, me: Seat, phase: Phase)
    requires Good(s)
    requires me in s.procs ==> ProcOk(s, me, s.procs[me].(phase := phase))
    requires s.lock == Some(me) ==> Inside(phase)
    ensures Good(Move(s, me, phase))
  {
  }

  /** Markers are nothing a done's facts rest on. */
  lemma MarkersKeep(s: Sys, markers: set<Seat>, dead: set<Seat>)
    requires Good(s)
    ensures Good(s.(markers := markers, dead := dead))
  {
    var t := s.(markers := markers, dead := dead);
    forall me | me in t.procs ensures ProcOk(t, me, t.procs[me]) {
      assert ProcOk(s, me, s.procs[me]);
    }
  }

  /** A vote counted or looked at by one seat moves no other seat's call. */
  lemma BallotKeeps(s: Sys, me: Seat, ballot: Q.Votes)
    requires Good(s) && Q.Good(ballot) && ballot.team == s.ballot.team && !PhaseOf(s, me).GivingUp?
    requires forall other :: other in s.ballot.gates && other != me ==> other in ballot.gates && ballot.gates[other] == s.ballot.gates[other]
    ensures Good(s.(ballot := ballot))
  {
    var t := s.(ballot := ballot);
    forall other | other in t.procs ensures ProcOk(t, other, t.procs[other]) {
      assert ProcOk(s, other, s.procs[other]);
    }
  }

  /** A register that only changed as its acts change it keeps every done's facts, while no done is inside the transaction. */
  lemma RegKeepsProcs(s: Sys, act: Act, me: Seat, p: Proc)
    requires ProcOk(s, me, p) && !Inside(p.phase)
    ensures ProcOk(s.(reg := Next(s.reg, act)), me, p)
  {
    NextEnv(s.reg, act);
    PhaseLater(p.phase, p.abandon, s.untilSolved, s.reg.env.revision, Next(s.reg, act).env.revision);
    NextLeaseSince(s.reg, act, p.lease, me);
  }

  lemma EnvKeepsInside(s: Sys, act: Act, me: Seat, p: Proc)
    requires ProcOk(s, me, p) && Inside(p.phase) && OfEnv(act) && MayHappen(s, act)
    ensures ProcOk(s.(reg := Next(s.reg, act)), me, p)
  {
    NextEnv(s.reg, act);
    OfEnvOnlyEnv(s.reg, act);
    PhaseLater(p.phase, p.abandon, s.untilSolved, s.reg.env.revision, Next(s.reg, act).env.revision);
    if p.phase.revision == Some(Next(s.reg, act).env.revision) {
      QuietIsNotLate(s.reg, act);
    }
  }

  lemma ActKeepsProcs(s: Sys, act: Act)
    requires Good(s) && MayHappen(s, act)
    ensures forall me :: me in s.procs ==> ProcOk(s.(reg := Next(s.reg, act)), me, s.procs[me])
  {
    forall me | me in s.procs ensures ProcOk(s.(reg := Next(s.reg, act)), me, s.procs[me]) {
      if Inside(s.procs[me].phase) {
        EnvKeepsInside(s, act, me, s.procs[me]);
      } else {
        RegKeepsProcs(s, act, me, s.procs[me]);
      }
    }
  }

  lemma ActKeeps(s: Sys, act: Act)
    requires Good(s) && MayHappen(s, act) && !act.Resumes?
    ensures Good(s.(reg := Next(s.reg, act)))
  {
    NextEnv(s.reg, act);
    NextChecks(s.reg, act);
    ActKeepsProcs(s, act);
  }

  lemma ResumeKeeps(s: Sys, act: Act)
    requires Good(s) && MayHappen(s, act) && act.Resumes?
    ensures Good(AroundTo(s, act))
  {
    var t, ballot := s.(reg := Next(s.reg, act)), Q.StepTo(s.ballot, Q.Reset);
    NextEnv(s.reg, act);
    NextChecks(s.reg, act);
    ActKeepsProcs(s, act);
    Q.StepKeeps(s.ballot, Q.Reset);
    var u := AroundTo(s, act);
    forall me | me in u.procs ensures ProcOk(u, me, u.procs[me]) {
      assert ProcOk(t, me, s.procs[me]);
    }
  }

  lemma RegKeepsGood(s: Sys, act: Act)
    requires Good(s) && s.lock.None? && !act.Checks? && !act.SentinelLands? && !act.Resumes?
    ensures Good(s.(reg := Next(s.reg, act)))
  {
    NextEnv(s.reg, act);
    NextChecks(s.reg, act);
    forall me | me in s.procs ensures ProcOk(s.(reg := Next(s.reg, act)), me, s.procs[me]) {
      RegKeepsProcs(s, act, me, s.procs[me]);
    }
  }

  /** A done that starts: nothing known of it yet but the lease it was told is its own. */
  lemma StartKeeps(s: Sys, me: Seat, lease: Option<nat>, abandon: bool, phase: Phase)
    requires Good(s) && LeaseSince(lease, me, Fold(s.reg.log).lease) && Free(PhaseOf(s, me))
    requires Free(phase) || phase == Ready(1)
    ensures Good(Start(s, me, lease, abandon, phase)) && PhaseOf(Start(s, me, lease, abandon, phase), me) == phase
  {
    var t := Start(s, me, lease, abandon, phase);
    forall other | other in t.procs ensures ProcOk(t, other, t.procs[other]) {
      if other != me { assert ProcOk(s, other, s.procs[other]); }
    }
  }

  lemma FollowKeeps(s: Sys, me: Seat, run: Option<LineRun>, revision: Option<nat>, said: Option<Outcome>)
    requires Good(s) && me in s.procs && !Inside(PhaseOf(s, me))
    requires JudgedOk(run, revision, said, s.procs[me].abandon, s.untilSolved, s.reg.env.revision)
    ensures Good(Follow(s, me, run, revision, said))
  {
    MarkersKeep(s, s.markers + {me}, s.dead);
    MoveKeeps(s.(markers := s.markers + {me}), me, Following(run, revision, said));
  }

  lemma TurnKeeps(s: Sys, me: Seat, path: Option<Path>)
    requires Good(s) && Free(PhaseOf(s, me)) && s.lock.None?
    ensures var turn := AskLease(s.reg.env, Fold(s.reg.log), me, path).0;
            var t := s.(reg := Next(s.reg, DoneTurn(me, path)));
            && Good(Start(t, me, None, false, Over(TurnedAway)))
            && (turn.mine ==> Good(Start(t, me, Some(turn.generation), false, Ready(1))))
  {
    var turn := AskLease(s.reg.env, Fold(s.reg.log), me, path).0;
    var t := s.(reg := Next(s.reg, DoneTurn(me, path)));
    RegKeepsGood(s, DoneTurn(me, path));
    StartKeeps(t, me, None, false, Over(TurnedAway));
    if turn.mine {
      TurnIsTheLease(s.reg.env, s.reg.log, me, path);
      AskedLog(s.reg, me, path);
      StartKeeps(t, me, Some(turn.generation), false, Ready(1));
    }
  }

  lemma AskedLog(reg: Reg, me: Seat, path: Option<Path>)
    ensures Next(reg, DoneTurn(me, path)).log == reg.log + AskLease(reg.env, Fold(reg.log), me, path).1
  {
  }

  lemma {:induction false} CheckAtMeans(checks: seq<Checked>, revision: nat)
    ensures CheckAt(checks, revision).Some? ==> CheckAt(checks, revision).value in checks && CheckAt(checks, revision).value.revision == revision
  {
    if checks != [] {
      CheckAtMeans(checks[..|checks| - 1], revision);
    }
  }

  lemma ReadBeforeKeeps(s: Sys, me: Seat, readable: bool)
    requires Good(s)
    ensures Good(StepTo(s, ReadBefore(me, readable)))
  {
    if PhaseOf(s, me).Ready? {
      MoveKeeps(s, me, ReadOnce(PhaseOf(s, me).attempt, Reading(s, readable)));
    }
  }

  lemma SharedIsRunAt(s: Sys, readable: bool)
    requires Good(s) && Shared(s, readable).Some?
    ensures RunAt(Shared(s, readable), Some(s.reg.env.revision))
  {
    CheckAtMeans(Fold(s.reg.log).checks, s.reg.env.revision);
  }

  lemma StartRunKeeps(s: Sys, me: Seat, readable: bool)
    requires Good(s)
    ensures Good(StepTo(s, StartRun(me, readable)))
  {
    if PhaseOf(s, me).ReadOnce? {
      var p := PhaseOf(s, me);
      assert PhaseOk(p, s.procs[me].abandon, s.untilSolved, s.reg.env.revision);
      if Shared(s, readable).Some? {
        SharedIsRunAt(s, readable);
        MoveKeeps(s, me, Ran(p.attempt, p.before, Shared(s, readable)));
      } else {
        MoveKeeps(s, me, Running(p.attempt, p.before, s.reg.env.revision));
      }
    }
  }

  lemma EndRunKeeps(s: Sys, me: Seat, body: Option<LineBody>)
    requires Good(s)
    ensures Good(StepTo(s, EndRun(me, body)))
  {
    if PhaseOf(s, me).Running? {
      var p := PhaseOf(s, me);
      assert PhaseOk(p, s.procs[me].abandon, s.untilSolved, s.reg.env.revision);
      MoveKeeps(s, me, Ran(p.attempt, p.before, if body.Some? then Some(LineRun(p.began, s.reg.env.revision, body.value)) else None));
    }
  }

  lemma ReadAfterKeeps(s: Sys, me: Seat, readable: bool)
    requires Good(s)
    ensures Good(StepTo(s, ReadAfter(me, readable)))
  {
    if PhaseOf(s, me).Ran? {
      var p := PhaseOf(s, me);
      if Reading(s, readable) == p.before {
        BoundKeeps(s, me, readable);
      } else {
        MoveKeeps(s, me, if p.attempt < FINISH_LINE_ATTEMPTS then Ready(p.attempt + 1) else Over(TurnedAway));
      }
    }
  }

  /** A run between two readings that agree began and ended at what they read. */
  lemma BoundKeeps(s: Sys, me: Seat, readable: bool)
    requires Good(s) && PhaseOf(s, me).Ran? && Reading(s, readable) == PhaseOf(s, me).before
    ensures Good(Move(s, me, Bound(PhaseOf(s, me).run, PhaseOf(s, me).before)))
  {
    var p := PhaseOf(s, me);
    assert PhaseOk(p, s.procs[me].abandon, s.untilSolved, s.reg.env.revision);
    MoveKeeps(s, me, Bound(p.run, p.before));
  }

  lemma RecheckKeeps(s: Sys, me: Seat, readable: bool)
    requires Good(s)
    ensures Good(StepTo(s, Recheck(me, readable)))
  {
    if PhaseOf(s, me).Judged? {
      var p := PhaseOf(s, me);
      assert PhaseOk(p, s.procs[me].abandon, s.untilSolved, s.reg.env.revision);
      MoveKeeps(s, me, if Reading(s, readable) == p.revision then Cleared(p.run, p.revision, Some(p.outcome)) else Over(TurnedAway));
    }
  }

  lemma CheckKeepsChecks(s: Sys, me: Seat, run: Option<LineRun>, revision: Option<nat>, proceed: bool)
    requires ChecksOk(Fold(s.reg.log).checks, s.reg.env.revision)
    requires RunAt(run, revision) && AtMost(revision, s.reg.env.revision)
    ensures var drafts := CheckDraft(Fold(s.reg.log), me, revision, proceed, run);
            ChecksOk(Fold(s.reg.log + drafts).checks, s.reg.env.revision)
  {
    var drafts := CheckDraft(Fold(s.reg.log), me, revision, proceed, run);
    if drafts == [] {
      assert s.reg.log + drafts == s.reg.log;
    } else {
      assert drafts == [drafts[0]];
      FoldAppend(s.reg.log, drafts[0]);
    }
  }

  lemma CheckKeepsGood(s: Sys, me: Seat, run: Option<LineRun>, revision: Option<nat>, proceed: bool)
    requires Good(s) && s.lock.None? && RunAt(run, revision) && AtMost(revision, s.reg.env.revision)
    ensures Good(s.(reg := Next(s.reg, Checks(me, revision, proceed, run))))
  {
    var act := Checks(me, revision, proceed, run);
    NextEnv(s.reg, act);
    CheckKeepsChecks(s, me, run, revision, proceed);
    forall other | other in s.procs ensures ProcOk(s.(reg := Next(s.reg, act)), other, s.procs[other]) {
      RegKeepsProcs(s, act, other, s.procs[other]);
    }
  }

  lemma VerdictKeeps(s: Sys, me: Seat, run: Option<LineRun>, revision: Option<nat>)
    requires Good(s) && me in s.procs && !Inside(PhaseOf(s, me)) && RunAt(run, revision) && AtMost(revision, s.reg.env.revision)
    ensures var verdict := FinishLineVerdict(Body(run), s.procs[me].abandon, s.untilSolved);
            Good(Move(s, me, if verdict.Proceed? then Judged(run, revision, verdict.outcome) else Over(TurnedAway)))
  {
    var verdict := FinishLineVerdict(Body(run), s.procs[me].abandon, s.untilSolved);
    MoveKeeps(s, me, if verdict.Proceed? then Judged(run, revision, verdict.outcome) else Over(TurnedAway));
  }

  lemma JudgeRunKeeps(s: Sys, me: Seat, run: Option<LineRun>, revision: Option<nat>, recorded: bool)
    requires Good(s) && me in s.procs && !Inside(PhaseOf(s, me)) && RunAt(run, revision) && AtMost(revision, s.reg.env.revision)
    ensures Good(JudgeRun(s, me, run, revision, recorded))
  {
    var verdict := FinishLineVerdict(Body(run), s.procs[me].abandon, s.untilSolved);
    var act := Checks(me, revision, verdict.Proceed?, run);
    if s.lock.None? {
      CheckKeepsGood(s, me, run, revision, verdict.Proceed?);
      NextEnv(s.reg, act);
      VerdictKeeps(s.(reg := Next(s.reg, act)), me, run, revision);
    }
    VerdictKeeps(s, me, run, revision);
  }

  lemma JudgeKeeps(s: Sys, me: Seat, recorded: bool)
    requires Good(s)
    ensures Good(StepTo(s, Judge(me, recorded)))
  {
    if PhaseOf(s, me).Bound? {
      assert PhaseOk(PhaseOf(s, me), s.procs[me].abandon, s.untilSolved, s.reg.env.revision);
      JudgeRunKeeps(s, me, PhaseOf(s, me).run, PhaseOf(s, me).revision, recorded);
    }
  }

  lemma EnterKeeps(s: Sys, me: Seat)
    requires Good(s)
    ensures Good(StepTo(s, Enter(me)))
  {
    if MayAsk(s, me) {
      var p := s.procs[me].phase;
      assert PhaseOk(p, s.procs[me].abandon, s.untilSolved, s.reg.env.revision);
      MoveKeeps(s, me, Over(TurnedAway));
      if MayEnter(s, me, s.procs[me].lease) {
        EnteredKeeps(s, me);
      }
    }
  }

  lemma EnteredKeeps(s: Sys, me: Seat)
    requires Good(s) && MayAsk(s, me) && MayEnter(s, me, s.procs[me].lease)
    ensures var p := PhaseOf(s, me);
            Good(Move(s.(lock := Some(me)), me, Entered(p.run, p.revision, p.said)))
  {
    var p := PhaseOf(s, me);
    assert PhaseOk(p, s.procs[me].abandon, s.untilSolved, s.reg.env.revision);
    var t := Move(s.(lock := Some(me)), me, Entered(p.run, p.revision, p.said));
    forall other | other in t.procs ensures ProcOk(t, other, t.procs[other]) {
      assert ProcOk(s, other, s.procs[other]);
    }
  }

  lemma MarkKeeps(s: Sys, me: Seat)
    requires Good(s)
    ensures Good(StepTo(s, Mark(me)))
  {
    if PhaseOf(s, me).Entered? {
      var act := Unavailable(s.reg.env.unavailable + {me});
      ActKeeps(s, act);
      var t := s.(reg := Next(s.reg, act));
      var p := s.procs[me].phase;
      MarkersKeep(t, s.markers + {me}, s.dead);
      MoveKeeps(t.(markers := s.markers + {me}), me, Marked(p.run, p.revision, p.said));
    }
  }

  /** A sentinel of a done judged to proceed is one an until-solved run takes only when met. */
  lemma SentinelKeeps(s: Sys, me: Seat, revision: Option<nat>, said: Option<Outcome>)
    requires Good(s) && (s.untilSolved ==> MetOrSilent(said))
    ensures Good(SetSentinel(s, me, revision, said))
  {
    var t := SetSentinel(s, me, revision, said);
    forall other | other in s.procs ensures ProcOk(t, other, t.procs[other]) {
      assert ProcOk(s, other, s.procs[other]);
      assert LateNow(t.reg.env, Fold(t.reg.log)) == LateNow(s.reg.env, Fold(s.reg.log));
    }
  }

  /** In an until-solved run, what a line said of a done that goes on is that it is met. */
  lemma SaidIsMet(s: Sys, me: Seat, run: Option<LineRun>, revision: Option<nat>, said: Option<Outcome>, abandon: bool)
    requires JudgedOk(run, revision, said, abandon, s.untilSolved, s.reg.env.revision)
    ensures s.untilSolved ==> MetOrSilent(said)
  {
    if s.untilSolved && said.Some? {
      UntilSolvedEndsOnlyMet(Body(run), abandon, true);
      FinishedIffMet(Body(run), abandon, true);
    }
  }

  lemma UnlockKeeps(s: Sys, me: Seat, markers: set<Seat>, end: End)
    requires Good(s) && PhaseOf(s, me).Marked?
    ensures Good(Move(s.(lock := None, markers := markers), me, Over(end)))
  {
    var t := Move(s.(lock := None, markers := markers), me, Over(end));
    forall other | other in t.procs ensures ProcOk(t, other, t.procs[other]) {
      assert ProcOk(s, other, s.procs[other]);
      assert ProcOk(s, me, s.procs[me]);
    }
  }

  lemma CommitKeeps(s: Sys, me: Seat, readable: bool)
    requires Good(s) && PhaseOf(s, me).Marked?
    ensures Good(CommitDone(s, me, PhaseOf(s, me).revision, PhaseOf(s, me).said, Reading(s, readable)))
  {
    var p := s.procs[me];
    assert PhaseOk(p.phase, p.abandon, s.untilSolved, s.reg.env.revision);
    SaidIsMet(s, me, p.phase.run, p.phase.revision, p.phase.said, p.abandon);
    UnlockKeeps(s, me, s.markers, FoundEnded);
    UnlockKeeps(s, me, s.markers - {me}, TurnedAway);
    UnlockKeeps(s, me, s.markers, EndedRun);
    var out := Move(s.(lock := None), me, Over(EndedRun));
    RegKeepsGood(out, TurnsReady(true));
    SentinelKeeps(out, me, p.phase.revision, p.phase.said);
    SentinelKeeps(out.(reg := Next(out.reg, TurnsReady(true))), me, p.phase.revision, p.phase.said);
  }

  lemma WriteKeeps(s: Sys, me: Seat, revision: Option<nat>, said: Option<Outcome>, now: Option<nat>)
    requires Good(s) && !Inside(PhaseOf(s, me)) && (s.untilSolved ==> MetOrSilent(said))
    ensures Good(WriteOutside(s, me, revision, said, now))
  {
    MoveKeeps(s, me, Over(FoundEnded));
    MarkersKeep(s, s.markers - {me}, s.dead);
    MoveKeeps(s.(markers := s.markers - {me}), me, Over(TurnedAway));
    MoveKeeps(s, me, Over(EndedRun));
    SentinelKeeps(Move(s, me, Over(EndedRun)), me, revision, said);
  }

  lemma WriteAloneKeeps(s: Sys, me: Seat, readable: bool)
    requires Good(s)
    ensures Good(StepTo(s, WriteAlone(me, readable)))
  {
    var p := PhaseOf(s, me);
    if p.GivingUp? || p.Following? {
      assert PhaseOk(p, s.procs[me].abandon, s.untilSolved, s.reg.env.revision);
      var said := if p.GivingUp? then Some(Abandoned) else p.said;
      SaidIsMet(s, me, p.run, p.revision, said, s.procs[me].abandon);
      WriteKeeps(s, me, p.revision, said, Reading(s, readable));
    }
  }

  lemma VoteKeeps(s: Sys, me: Seat)
    requires Good(s)
    ensures Good(StepTo(s, Vote(me)))
  {
    if PhaseOf(s, me).Cleared? && PhaseOf(s, me).said == Some(Abandoned) && s.sentinel.None? {
      MoveKeeps(s, me, Over(TurnedAway));
      VotedKeeps(s, me);
    }
  }

  lemma VotedKeeps(s: Sys, me: Seat)
    requires Good(s) && PhaseOf(s, me).Cleared? && PhaseOf(s, me).said == Some(Abandoned)
    ensures Good(Move(s.(ballot := Q.StepTo(s.ballot, Q.Write(me))), me, Voted(PhaseOf(s, me).run, PhaseOf(s, me).revision)))
  {
    var p := PhaseOf(s, me);
    assert PhaseOk(p, s.procs[me].abandon, s.untilSolved, s.reg.env.revision);
    var ballot := Q.StepTo(s.ballot, Q.Write(me));
    Q.StepKeeps(s.ballot, Q.Write(me));
    BallotKeeps(s, me, ballot);
    MoveKeeps(s.(ballot := ballot), me, Voted(p.run, p.revision));
  }

  lemma ListVotesKeeps(s: Sys, me: Seat)
    requires Good(s)
    ensures Good(StepTo(s, ListVotes(me)))
  {
    if PhaseOf(s, me).Voted? {
      var p := PhaseOf(s, me);
      assert PhaseOk(p, s.procs[me].abandon, s.untilSolved, s.reg.env.revision);
      var ballot := Q.StepTo(s.ballot, Q.List(me));
      Q.StepKeeps(s.ballot, Q.List(me));
      BallotKeeps(s, me, ballot);
      MoveKeeps(s.(ballot := ballot), me, Asking(p.run, p.revision));
    }
  }

  lemma LookAtKeeps(s: Sys, me: Seat)
    requires Good(s)
    ensures Good(StepTo(s, LookAt(me)))
  {
    if PhaseOf(s, me).Asking? {
      var seen := Q.StepTo(s.ballot, Q.MarkersAre(s.markers + s.dead));
      Q.StepKeeps(s.ballot, Q.MarkersAre(s.markers + s.dead));
      Q.StepKeeps(seen, Q.Look(me));
      BallotKeeps(s, me, Looked(s, me));
    }
  }

  lemma DecideKeeps(s: Sys, me: Seat)
    requires Good(s)
    ensures Good(StepTo(s, Decide(me)))
  {
    if PhaseOf(s, me).Asking? {
      if me in s.ballot.gates && Q.Proceeds(s.ballot, me) {
        GivingUpKeeps(s, me);
      } else {
        MoveKeeps(s, me, Over(AskedOthers));
      }
    }
  }

  lemma GivingUpKeeps(s: Sys, me: Seat)
    requires Good(s) && PhaseOf(s, me).Asking? && me in s.ballot.gates && Q.Proceeds(s.ballot, me)
    ensures var p := PhaseOf(s, me);
            Good(Move(s.(markers := s.markers + {me}), me, GivingUp(p.run, p.revision)))
  {
    var p := PhaseOf(s, me);
    assert PhaseOk(p, s.procs[me].abandon, s.untilSolved, s.reg.env.revision);
    MarkersKeep(s, s.markers + {me}, s.dead);
    MoveKeeps(s.(markers := s.markers + {me}), me, GivingUp(p.run, p.revision));
  }

  lemma SkipLineKeeps(s: Sys, me: Seat)
    requires Good(s)
    ensures Good(StepTo(s, SkipLine(me)))
  {
    if PhaseOf(s, me) == Ready(1) { MoveKeeps(s, me, Cleared(None, None, None)); }
  }

  lemma FollowOnKeeps(s: Sys, me: Seat)
    requires Good(s)
    ensures Good(StepTo(s, FollowOn(me)))
  {
    var p := PhaseOf(s, me);
    if p.Cleared? {
      assert PhaseOk(p, s.procs[me].abandon, s.untilSolved, s.reg.env.revision);
      FollowKeeps(s, me, p.run, p.revision, p.said);
      MoveKeeps(s, me, Over(TurnedAway));
    }
  }

  lemma AroundStepKeeps(s: Sys, step: Step)
    requires Good(s) && (step.Around? || step.Dies? || step.Leave?)
    ensures Good(StepTo(s, step))
  {
    match step
    case Around(act) => if MayHappen(s, act) { if act.Resumes? { ResumeKeeps(s, act); } else { ActKeeps(s, act); } }
    case Dies(member) => MarkersKeep(s, s.markers, s.dead + {member});
    case Leave(member) => MarkersKeep(s, s.markers + {member}, s.dead);
  }

  predicate OnItsLine(step: Step) {
    || step.SkipLine? || step.ReadBefore? || step.StartRun? || step.EndRun? || step.ReadAfter? || step.Judge? || step.Recheck?
  }

  lemma LineStepKeeps(s: Sys, step: Step)
    requires Good(s) && OnItsLine(step)
    ensures Good(StepTo(s, step))
  {
    match step
    case SkipLine(me) => SkipLineKeeps(s, me);
    case ReadBefore(me, readable) => ReadBeforeKeeps(s, me, readable);
    case StartRun(me, readable) => StartRunKeeps(s, me, readable);
    case EndRun(me, body) => EndRunKeeps(s, me, body);
    case ReadAfter(me, readable) => ReadAfterKeeps(s, me, readable);
    case Judge(me, recorded) => JudgeKeeps(s, me, recorded);
    case Recheck(me, readable) => RecheckKeeps(s, me, readable);
  }

  predicate InTransaction(step: Step) {
    step.Enter? || step.Mark? || step.Commit?
  }

  lemma TransactionStepKeeps(s: Sys, step: Step)
    requires Good(s) && InTransaction(step)
    ensures Good(StepTo(s, step))
  {
    match step
    case Enter(me) => EnterKeeps(s, me);
    case Mark(me) => MarkKeeps(s, me);
    case Commit(me, readable) => if PhaseOf(s, me).Marked? { CommitKeeps(s, me, readable); }
  }

  predicate OnItsOwn(step: Step) {
    step.Vote? || step.ListVotes? || step.LookAt? || step.Decide? || step.FollowOn? || step.WriteAlone?
  }

  lemma AloneStepKeeps(s: Sys, step: Step)
    requires Good(s) && OnItsOwn(step)
    ensures Good(StepTo(s, step))
  {
    match step
    case Vote(me) => VoteKeeps(s, me);
    case ListVotes(me) => ListVotesKeeps(s, me);
    case LookAt(me) => LookAtKeeps(s, me);
    case Decide(me) => DecideKeeps(s, me);
    case FollowOn(me) => FollowOnKeeps(s, me);
    case WriteAlone(me, readable) => WriteAloneKeeps(s, me, readable);
  }

  lemma UnknowingBeginKeeps(s: Sys, me: Seat, path: Option<Path>, abandon: bool, turnFails: bool)
    requires Good(s) && Free(PhaseOf(s, me)) && (s.sentinel.Some? || abandon || turnFails)
    ensures Good(BeginDone(s, me, path, abandon, turnFails))
  {
    StartKeeps(s, me, None, abandon, Ready(1));
  }

  lemma AskingBeginKeeps(s: Sys, me: Seat, path: Option<Path>)
    requires Good(s) && Free(PhaseOf(s, me)) && s.sentinel.None?
    ensures Good(BeginDone(s, me, path, false, false))
  {
    if s.lock.None? { TurnKeeps(s, me, path); }
  }

  lemma BeginsAs(s: Sys, me: Seat, path: Option<Path>, abandon: bool, turnFails: bool)
    ensures StepTo(s, Begin(me, path, abandon, turnFails))
         == if Free(PhaseOf(s, me)) then BeginDone(s, me, path, abandon, turnFails) else s
  {
  }

  lemma BeginStepKeeps(s: Sys, me: Seat, path: Option<Path>, abandon: bool, turnFails: bool)
    requires Good(s)
    ensures Good(StepTo(s, Begin(me, path, abandon, turnFails)))
  {
    BeginsAs(s, me, path, abandon, turnFails);
    if Free(PhaseOf(s, me)) {
      if s.sentinel.Some? || abandon || turnFails {
        UnknowingBeginKeeps(s, me, path, abandon, turnFails);
      } else {
        AskingBeginKeeps(s, me, path);
      }
    }
  }

  lemma StepKeeps(s: Sys, step: Step)
    requires Good(s)
    ensures Good(StepTo(s, step))
  {
    if OnItsLine(step) { LineStepKeeps(s, step); }
    else if InTransaction(step) { TransactionStepKeeps(s, step); }
    else if OnItsOwn(step) { AloneStepKeeps(s, step); }
    else if step.Begin? { BeginStepKeeps(s, step.me, step.path, step.abandon, step.turnFails); }
    else { AroundStepKeeps(s, step); }
  }

  /** No step changes who may end the run. */
  lemma StepKeepsPolicy(s: Sys, step: Step)
    ensures StepTo(s, step).untilSolved == s.untilSolved
  {
  }
}
