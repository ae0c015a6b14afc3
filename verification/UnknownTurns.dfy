/**
 * A done that does not know its turn: its asking went unanswered, or it
 * abandons and its line is met. It ends the run under another seat's lease
 * when that seat cannot act, and only then under another's.
 */
module UnknownTurns {
  import opened Wrappers
  import opened FinishLog
  import opened FinishActs
  import opened FinishRuns
  import opened FinishLine
  import opened DoneProtocol
  import opened DoneRuns
  import opened MarkDone
  import Q = AbandonQuorum

  function Last(c: Course): Sys
    requires c.states != []
  {
    c.states[|c.states| - 1]
  }

  /** One step more of a run. */
  lemma Extend(c: Course, step: Step, t: Sys) returns (d: Course)
    requires IsCourse(c) && StepTo(Last(c), step) == t
    ensures IsCourse(d) && d == Course(c.states + [t], c.steps + [step]) && Last(d) == t
  {
    d := Course(c.states + [t], c.steps + [step]);
    forall i: nat | i < |d.steps| ensures TakenAt(d, i) {
      if i < |c.steps| { assert TakenAt(c, i); }
    }
  }

  lemma MoveTwice(s: Sys, me: Seat, p: Phase, q: Phase)
    ensures Move(Move(s, me, p), me, q) == Move(s, me, q)
    ensures me in s.procs ==> PhaseOf(Move(s, me, p), me) == p
  {
    if me in s.procs {
      assert s.procs[me := s.procs[me].(phase := p)][me := s.procs[me].(phase := q)] == s.procs[me := s.procs[me].(phase := q)];
    }
  }

  /** A step that moves a done on, after those that have moved it so far. */
  lemma MovesOn(c: Course, s: Sys, step: Step, me: Seat, p: Phase, q: Phase) returns (d: Course)
    requires IsCourse(c) && Last(c) == Move(s, me, p) && StepTo(Move(s, me, p), step) == Move(Move(s, me, p), me, q)
    ensures IsCourse(d) && Last(d) == Move(s, me, q)
  {
    MoveTwice(s, me, p, q);
    d := Extend(c, step, Move(s, me, q));
  }

  // --- the line run alone, the state holding still ---

  lemma ReadStep(s: Sys, me: Seat)
    requires PhaseOf(s, me) == Ready(1)
    ensures StepTo(s, ReadBefore(me, true)) == Move(s, me, ReadOnce(1, Some(s.reg.env.revision)))
  {
  }

  lemma RunStep(s: Sys, me: Seat, rev: nat)
    requires PhaseOf(s, me) == ReadOnce(1, Some(rev)) && rev == s.reg.env.revision && CheckAt(Fold(s.reg.log).checks, rev).None?
    ensures StepTo(s, StartRun(me, true)) == Move(s, me, Running(1, Some(rev), rev))
  {
  }

  lemma RanStep(s: Sys, me: Seat, rev: nat, body: LineBody)
    requires PhaseOf(s, me) == Running(1, Some(rev), rev) && rev == s.reg.env.revision
    ensures StepTo(s, EndRun(me, Some(body))) == Move(s, me, Ran(1, Some(rev), Some(LineRun(rev, rev, body))))
  {
  }

  lemma BoundStep(s: Sys, me: Seat, run: Option<LineRun>)
    requires PhaseOf(s, me) == Ran(1, Some(s.reg.env.revision), run)
    ensures StepTo(s, ReadAfter(me, true)) == Move(s, me, Bound(run, Some(s.reg.env.revision)))
  {
  }

  lemma JudgeStep(s: Sys, me: Seat, run: Option<LineRun>, revision: Option<nat>, outcome: Outcome)
    requires PhaseOf(s, me) == Bound(run, revision) && FinishLineVerdict(Body(run), s.procs[me].abandon, s.untilSolved) == Proceed(outcome)
    ensures StepTo(s, Judge(me, false)) == Move(s, me, Judged(run, revision, outcome))
  {
  }

  lemma RecheckStep(s: Sys, me: Seat, run: Option<LineRun>, outcome: Outcome)
    requires PhaseOf(s, me) == Judged(run, Some(s.reg.env.revision), outcome)
    ensures StepTo(s, Recheck(me, true)) == Move(s, me, Cleared(run, Some(s.reg.env.revision), Some(outcome)))
  {
  }

  lemma RunAlone(c: Course, me: Seat, body: LineBody) returns (d: Course)
    requires IsCourse(c) && PhaseOf(Last(c), me) == Ready(1) && CheckAt(Fold(Last(c).reg.log).checks, Last(c).reg.env.revision).None?
    ensures var rev := Last(c).reg.env.revision;
            IsCourse(d) && Last(d) == Move(Last(c), me, Ran(1, Some(rev), Some(LineRun(rev, rev, body))))
  {
    var s := Last(c);
    var rev := s.reg.env.revision;
    var p1, p2 := ReadOnce(1, Some(rev)), Running(1, Some(rev), rev);
    MoveTwice(s, me, p1, p1);
    MoveTwice(s, me, p2, p2);
    ReadStep(s, me);
    d := Extend(c, ReadBefore(me, true), Move(s, me, p1));
    RunStep(Move(s, me, p1), me, rev);
    d := MovesOn(d, s, StartRun(me, true), me, p1, p2);
    RanStep(Move(s, me, p2), me, rev, body);
    d := MovesOn(d, s, EndRun(me, Some(body)), me, p2, Ran(1, Some(rev), Some(LineRun(rev, rev, body))));
  }

  lemma JudgedAlone(c: Course, s: Sys, me: Seat, run: Option<LineRun>, outcome: Outcome) returns (d: Course)
    requires IsCourse(c) && me in s.procs && Last(c) == Move(s, me, Ran(1, Some(s.reg.env.revision), run))
    requires FinishLineVerdict(Body(run), s.procs[me].abandon, s.untilSolved) == Proceed(outcome)
    ensures IsCourse(d) && Last(d) == Move(s, me, Cleared(run, Some(s.reg.env.revision), Some(outcome)))
  {
    var rev := Some(s.reg.env.revision);
    var p3, p4, p5 := Ran(1, rev, run), Bound(run, rev), Judged(run, rev, outcome);
    MoveTwice(s, me, p3, p3);
    MoveTwice(s, me, p4, p4);
    MoveTwice(s, me, p5, p5);
    BoundStep(Move(s, me, p3), me, run);
    d := MovesOn(c, s, ReadAfter(me, true), me, p3, p4);
    JudgeStep(Move(s, me, p4), me, run, rev, outcome);
    d := MovesOn(d, s, Judge(me, false), me, p4, p5);
    RecheckStep(Move(s, me, p5), me, run, outcome);
    d := MovesOn(d, s, Recheck(me, true), me, p5, Cleared(run, rev, Some(outcome)));
  }

  // --- a whole done, to its write ---

  lemma BeginStep(s: Sys, me: Seat, abandon: bool)
    requires Free(PhaseOf(s, me)) && s.sentinel.None?
    ensures StepTo(s, Begin(me, None, abandon, true)) == Start(s, me, None, abandon, Ready(1))
  {
  }

  lemma ClearedAlone(c: Course, me: Seat, abandon: bool, body: LineBody, outcome: Outcome) returns (d: Course)
    requires IsCourse(c) && Free(PhaseOf(Last(c), me)) && Last(c).sentinel.None?
    requires CheckAt(Fold(Last(c).reg.log).checks, Last(c).reg.env.revision).None?
    requires FinishLineVerdict(Some(body), abandon, Last(c).untilSolved) == Proceed(outcome)
    ensures var rev := Last(c).reg.env.revision;
            && IsCourse(d)
            && Last(d) == Move(Start(Last(c), me, None, abandon, Ready(1)), me, Cleared(Some(LineRun(rev, rev, body)), Some(rev), Some(outcome)))
  {
    var s, rev := Last(c), Last(c).reg.env.revision;
    var b := Start(s, me, None, abandon, Ready(1));
    BeginStep(s, me, abandon);
    d := Extend(c, Begin(me, None, abandon, true), b);
    d := RunAlone(d, me, body);
    d := JudgedAlone(d, b, me, Some(LineRun(rev, rev, body)), outcome);
  }

  /** Between the two moments only this seat's done has moved, and the finish's lease and the state's revision are the same. */
  ghost predicate WroteOnly(s: Sys, t: Sys, me: Seat) {
    && SameFinish(s, t)
    && forall other :: other != me ==> ProcAt(t, other) == ProcAt(s, other)
  }

  lemma MarkedAlone(c: Course, me: Seat) returns (d: Course)
    requires IsCourse(c) && MayAsk(Last(c), me) && MayEnter(Last(c), me, Last(c).procs[me].lease)
    ensures IsCourse(d)
    ensures var s, t, p := Last(c), Last(d), PhaseOf(Last(c), me);
            && PhaseOf(t, me) == Marked(p.run, p.revision, p.said) && t.sentinel.None? && t.reg.log == s.reg.log
            && t.reg.env == s.reg.env.(unavailable := s.reg.env.unavailable + {me})
            && me in t.procs && t.procs[me].lease == s.procs[me].lease && t.procs[me].abandon == s.procs[me].abandon
            && WroteOnly(s, t, me)
  {
    EnterStep(Last(c), me);
    d := Extend(c, Enter(me), StepTo(Last(c), Enter(me)));
    MarkStep(Last(d), me);
    d := Extend(d, Mark(me), StepTo(Last(d), Mark(me)));
  }

  lemma ReadyKeeps(reg: Reg)
    ensures Next(reg, TurnsReady(true)).env == reg.env && Fold(Next(reg, TurnsReady(true)).log).lease == Fold(reg.log).lease
  {
    OthersLeave(reg.log, Drafts(reg, TurnsReady(true)));
  }

  ghost predicate SameFinish(s: Sys, t: Sys) {
    t.untilSolved == s.untilSolved && t.reg.env.revision == s.reg.env.revision && Leased(t) == Leased(s)
  }

  lemma SetKeepsFinish(s: Sys, reg: Reg, me: Seat, revision: Option<nat>, said: Option<Outcome>)
    requires reg.env == s.reg.env && Fold(reg.log).lease == Leased(s)
    ensures SameFinish(s, SetSentinel(Move(s.(lock := None).(reg := reg), me, Over(EndedRun)), me, revision, said))
  {
  }

  lemma CommitKeepsFinish(s: Sys, me: Seat, revision: Option<nat>, said: Option<Outcome>, now: Option<nat>)
    ensures SameFinish(s, CommitDone(s, me, revision, said, now))
  {
    if s.sentinel.None? && (revision.None? || now == revision) {
      if Fold(s.reg.log).readiness == Some(true) {
        SetKeepsFinish(s, s.reg, me, revision, said);
      } else {
        ReadyKeeps(s.reg);
        SetKeepsFinish(s, Next(s.reg, TurnsReady(true)), me, revision, said);
      }
    }
  }

  lemma CommitLeaves(s: Sys, me: Seat)
    requires PhaseOf(s, me).Marked?
    ensures WroteOnly(s, StepTo(s, Commit(me, true)), me)
  {
    CommitKeepsFinish(s, me, PhaseOf(s, me).revision, PhaseOf(s, me).said, Reading(s, true));
    var t := StepTo(s, Commit(me, true));
    forall other | other != me ensures ProcAt(t, other) == ProcAt(s, other) {
      OthersUntouched(s, Commit(me, true), other);
    }
  }

  lemma StartLeaves(s: Sys, me: Seat, abandon: bool, p: Phase)
    ensures WroteOnly(s, Move(Start(s, me, None, abandon, Ready(1)), me, p), me)
  {
  }

  lemma WroteOnlyOn(s: Sys, t: Sys, u: Sys, me: Seat)
    requires WroteOnly(s, t, me) && WroteOnly(t, u, me)
    ensures WroteOnly(s, u, me)
  {
    forall other | other != me ensures ProcAt(u, other) == ProcAt(s, other) {
      assert ProcAt(t, other) == ProcAt(s, other);
    }
  }

  /**
   * A done alone whose turn went unanswered, or that abandons, its line saying
   * how the run ends: it writes whenever the transaction lets in one that does
   * not know its turn.
   */
  lemma UnknownTurnWrites(c: Course, me: Seat, abandon: bool, body: LineBody, outcome: Outcome) returns (d: Course, k: nat)
    requires IsCourse(c) && Free(PhaseOf(Last(c), me)) && Last(c).sentinel.None? && Last(c).lock.None? && !Last(c).reg.env.finished
    requires CheckAt(Fold(Last(c).reg.log).checks, Last(c).reg.env.revision).None? && outcome != Abandoned
    requires FinishLineVerdict(Some(body), abandon, Last(c).untilSolved) == Proceed(outcome)
    requires MayFinish(Last(c).reg.env, Fold(Last(c).reg.log), me, None)
    ensures IsCourse(d) && WritesAt(d, k) && d.steps[k] == Commit(me, true)
    ensures var s, t := Last(c), d.states[k];
            && me in t.procs && t.procs[me].lease.None? && t.procs[me].abandon == abandon && t.reg.log == s.reg.log
            && d.states[k + 1].sentinel == Some(Sentinel(me, Some(s.reg.env.revision), Some(outcome)))
    ensures k + 2 == |d.states| && WroteOnly(Last(c), Last(d), me)
  {
    var s := Last(c);
    d := ClearedAlone(c, me, abandon, body, outcome);
    StartLeaves(s, me, abandon, PhaseOf(Last(d), me));
    var b := Last(d);
    d := MarkedAlone(d, me);
    WroteOnlyOn(s, b, Last(d), me);
    k := |d.steps|;
    d := WrittenAlone(d, me);
    WroteOnlyOn(s, d.states[k], Last(d), me);
  }

  lemma WrittenAlone(c: Course, me: Seat) returns (d: Course)
    requires IsCourse(c) && PhaseOf(Last(c), me).Marked? && Last(c).sentinel.None? && !Last(c).reg.env.finished
    requires PhaseOf(Last(c), me).revision == Some(Last(c).reg.env.revision)
    ensures IsCourse(d) && d.steps == c.steps + [Commit(me, true)] && d.states == c.states + [Last(d)]
    ensures Last(d).sentinel == Some(Sentinel(me, PhaseOf(Last(c), me).revision, PhaseOf(Last(c), me).said))
    ensures WroteOnly(Last(c), Last(d), me)
  {
    CommitStep(Last(c), me, true);
    CommitLeaves(Last(c), me);
    d := Extend(c, Commit(me, true), StepTo(Last(c), Commit(me, true)));
  }

  // --- the input ---

  const BLEASE := Lease("b", Some("b"), Some(1), None, None, None, None)

  function Outset(): Sys {
    Sys(Reg(Env([], map[], map[], [], {}, false, 0), []), map[], None, {}, {}, None, Q.Votes(["a", "b"], {}, {}, map[], {}), false)
  }

  lemma BHolds()
    ensures Fold([BLEASE]) == Fold([]).(lease := Some(LeaseState("b", 1, None, None, 0, [])))
  {
    assert [] + [BLEASE] == [BLEASE];
    LeaseAppend([], BLEASE);
  }

  lemma BAsks()
    ensures AskLease(Outset().reg.env, Fold([]), "b", None).1 == [BLEASE]
  {
  }

  /** An asking that names no other report appends its lease and changes nothing around. */
  lemma AskedReg(reg: Reg, me: Seat, e: Event)
    requires AskLease(reg.env, Fold(reg.log), me, None).1 == [e] && LeaseReport(Fold(reg.log + [e])) == LeaseReport(Fold(reg.log))
    ensures Next(reg, DoneTurn(me, None)) == Reg(reg.env, reg.log + [e])
  {
  }

  lemma ActStep(s: Sys, act: Act)
    requires MayHappen(s, act) && !act.Resumes?
    ensures StepTo(s, Around(act)) == s.(reg := Next(s.reg, act))
  {
  }

  /** Seat b asks for the finish and holds it, then cannot act. */
  lemma BHoldsAndIsGone() returns (c: Course)
    ensures IsCourse(c)
    ensures Last(c) == Outset().(reg := Reg(Outset().reg.env.(unavailable := {"b"}), [BLEASE]))
  {
    var s := Outset();
    c := Course([s], []);
    BAsks();
    BHolds();
    assert s.reg.log + [BLEASE] == [BLEASE];
    AskedReg(s.reg, "b", BLEASE);
    ActStep(s, DoneTurn("b", None));
    var t := s.(reg := Reg(s.reg.env, [BLEASE]));
    c := Extend(c, Around(DoneTurn("b", None)), t);
    UnavailableKeepsLog(t.reg, {"b"});
    ActStep(t, Unavailable({"b"}));
    c := Extend(c, Around(Unavailable({"b"})), t.(reg := Next(t.reg, Unavailable({"b"}))));
  }

  lemma AMayFinish(env: Env)
    requires env.unavailable == {"b"}
    ensures MayFinish(env, Fold([BLEASE]), "a", None) && CheckAt(Fold([BLEASE]).checks, 0).None?
  {
    BHolds();
  }

  /**
   * The property that a done ends the run only under its own lease fails of
   * one that does not know its turn: b holds the finish and cannot act; a's
   * turn goes unanswered, or a abandons and its line is met; and a writes the
   * sentinel as completed while the lease is b's.
   */
  lemma AnothersLeaseIsEnded(abandon: bool)
    ensures exists c: Course, k: nat :: EndsAnothers(c, k, abandon)
  {
    var c := BHoldsAndIsGone();
    AMayFinish(Last(c).reg.env);
    var d, k := UnknownTurnWrites(c, "a", abandon, LineBody(1, 1, false, false, None), Completed);
    BHolds();
    assert EndsAnothers(d, k, abandon);
  }

  ghost predicate EndsAnothers(c: Course, k: nat, abandon: bool) {
    && IsCourse(c) && WritesAt(c, k) && c.steps[k] == Commit("a", true)
    && "a" in c.states[k].procs && c.states[k].procs["a"].lease.None? && c.states[k].procs["a"].abandon == abandon
    && c.states[k + 1].sentinel == Some(Sentinel("a", Some(0), Some(Completed)))
    && Leased(c.states[k]).Some? && Leased(c.states[k]).value.holder == "b"
  }

  /** What the transaction sees, as it lets one in under another's lease: a done that does not know its turn, and a holder that cannot act. */
  predicate LetsInUnderAnothers(s: Sys, me: Seat)
    requires me in s.procs
  {
    && s.procs[me].lease.None? && Leased(s).Some?
    && Leased(s).value.holder != me && Leased(s).value.holder in s.reg.env.unavailable
  }

  /**
   * The exact condition: a sentinel is written from inside the transaction
   * under another seat's lease if and only if, as its done entered, that did
   * not know its turn and the finish was another's that could not act; and
   * under none if and only if it did not know its turn and there was none.
   */
  lemma AnothersLeaseExactlyWhen(c: Course, n: nat, k: nat)
    requires IsCourse(c) && WritesAt(c, k) && c.steps[k].Commit? && EnteredSince(c, n, k, c.steps[k].me)
    ensures c.steps[k].me in c.states[n].procs
    ensures var was, s, me := c.states[n], c.states[k], c.steps[k].me;
            && (Leased(s).Some? && Leased(s).value.holder != me <==> LetsInUnderAnothers(was, me))
            && (Leased(s).None? <==> was.procs[me].lease.None? && Leased(was).None?)
  {
    EnteredUnder(c, n, k, c.steps[k].me);
  }
}
