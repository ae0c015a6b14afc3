/**
 * A done that finds the run ended goes on to find, or make, the sentinel on
 * its own. Where a resume moves the sentinel aside in between, it makes a new
 * one that nothing was checked for.
 */
module FollowerRuns {
  import opened Wrappers
  import opened FinishLog
  import opened FinishActs
  import opened FinishRuns
  import opened FinishLine
  import opened DoneProtocol
  import opened DoneRuns
  import opened MarkDone
  import opened UnknownTurns
  import Q = AbandonQuorum

  lemma ResumeStep(s: Sys, at: Option<Time>)
    ensures var env := s.reg.env.(resumes := s.reg.env.resumes + [at], finished := false);
            StepTo(s, Around(Resumes(at)))
            == s.(reg := Reg(env, s.reg.log), sentinel := None, markers := {}, dead := {}, ballot := Q.StepTo(s.ballot, Q.Reset))
  {
    OfEnvOnlyEnv(s.reg, Resumes(at));
    assert s.reg.log + [] == s.reg.log;
  }

  lemma WriteStep(s: Sys, me: Seat)
    requires PhaseOf(s, me).Following? && s.sentinel.None?
    requires PhaseOf(s, me).revision.None? || PhaseOf(s, me).revision == Some(s.reg.env.revision)
    ensures var t, p := StepTo(s, WriteAlone(me, true)), PhaseOf(s, me);
            t.sentinel == Some(Sentinel(me, p.revision, p.said)) && t.reg.log == s.reg.log
  {
  }

  /** A done that follows, at a revision that still holds or at none: a resume and its last step, and the sentinel is there again. */
  lemma FollowerWrites(c: Course, me: Seat, at: Option<Time>) returns (d: Course, k: nat)
    requires IsCourse(c) && PhaseOf(Last(c), me).Following?
    requires PhaseOf(Last(c), me).revision.None? || PhaseOf(Last(c), me).revision == Some(Last(c).reg.env.revision)
    ensures IsCourse(d) && WritesAt(d, k) && d.steps[k] == WriteAlone(me, true)
    ensures var s, p := Last(c), PhaseOf(Last(c), me);
            && d.states[k + 1].sentinel == Some(Sentinel(me, p.revision, p.said)) && d.states[k + 1].reg.log == s.reg.log
            && d.states[k].reg == Reg(s.reg.env.(resumes := s.reg.env.resumes + [at], finished := false), s.reg.log)
            && d.states[k].procs == s.procs
  {
    ResumeStep(Last(c), at);
    d := Extend(c, Around(Resumes(at)), StepTo(Last(c), Around(Resumes(at))));
    k := |d.steps|;
    WriteStep(Last(d), me);
    d := Extend(d, WriteAlone(me, true), StepTo(Last(d), WriteAlone(me, true)));
  }

  lemma FollowStep(s: Sys, me: Seat)
    requires PhaseOf(s, me).Cleared? && s.sentinel.Some? && (s.untilSolved ==> PhaseOf(s, me).said != Some(Abandoned))
    ensures var p := PhaseOf(s, me);
            StepTo(s, FollowOn(me)) == Follow(s, me, p.run, p.revision, p.said)
  {
  }

  /** From any moment at which a done is about to be written and finds the run ended, a resume between makes it write, whatever it was told. */
  lemma ClearedFollowerWrites(c: Course, me: Seat, at: Option<Time>) returns (d: Course, k: nat)
    requires IsCourse(c) && PhaseOf(Last(c), me).Cleared? && Last(c).sentinel.Some?
    requires Last(c).untilSolved ==> PhaseOf(Last(c), me).said != Some(Abandoned)
    requires PhaseOf(Last(c), me).revision.None? || PhaseOf(Last(c), me).revision == Some(Last(c).reg.env.revision)
    ensures IsCourse(d) && WritesAt(d, k) && d.steps[k] == WriteAlone(me, true)
    ensures var s, p := Last(c), PhaseOf(Last(c), me);
            && d.states[k + 1].sentinel == Some(Sentinel(me, p.revision, p.said)) && d.states[k + 1].reg.log == s.reg.log
            && d.states[k].reg == Reg(s.reg.env.(resumes := s.reg.env.resumes + [at], finished := false), s.reg.log)
            && me in d.states[k].procs && d.states[k].procs[me].lease == s.procs[me].lease
  {
    FollowStep(Last(c), me);
    d := Extend(c, FollowOn(me), StepTo(Last(c), FollowOn(me)));
    d, k := FollowerWrites(d, me, at);
  }

  // --- the input ---

  const PASSED := LineBody(1, 1, false, false, None)

  /** A done told to end the run that has not asked to be written yet. */
  function ToldA(): Proc {
    Proc(Cleared(Some(LineRun(0, 0, PASSED)), Some(0), Some(Completed)), None, false)
  }

  /** Seat b holds the finish and cannot act; a's done, its turn unanswered, is told to end the run. */
  lemma AIsTold() returns (c: Course)
    ensures IsCourse(c) && Last(c).sentinel.None? && Last(c).lock.None? && !Last(c).untilSolved
    ensures Last(c).reg == Reg(Outset().reg.env.(unavailable := {"b"}), [BLEASE]) && Last(c).procs == map["a" := ToldA()]
  {
    c := BHoldsAndIsGone();
    AMayFinish(Last(c).reg.env);
    c := ClearedAlone(c, "a", false, PASSED, Completed);
  }

  /** Then d, its turn unanswered too, ends the run first. */
  lemma DEndsFirst() returns (c: Course)
    ensures IsCourse(c) && Last(c).sentinel.Some? && !Last(c).untilSolved && Last(c).reg.env.revision == 0
    ensures Leased(Last(c)) == Some(LeaseState("b", 1, None, None, 0, [])) && ProcAt(Last(c), "a") == Some(ToldA())
  {
    c := AIsTold();
    AMayFinish(Last(c).reg.env);
    AnyMayFinish(Last(c).reg.env, "d");
    BHolds();
    var s := Last(c);
    var k;
    c, k := UnknownTurnWrites(c, "d", false, PASSED, Completed);
    assert ProcAt(Last(c), "a") == ProcAt(s, "a");
  }

  /** And b can act again. */
  lemma BReturns(c: Course) returns (d: Course)
    requires IsCourse(c)
    ensures IsCourse(d)
    ensures Last(d) == Last(c).(reg := Reg(Last(c).reg.env.(unavailable := {}), Last(c).reg.log))
  {
    var s := Last(c);
    UnavailableKeepsLog(s.reg, {});
    ActStep(s, Unavailable({}));
    d := Extend(c, Around(Unavailable({})), s.(reg := Next(s.reg, Unavailable({}))));
  }

  lemma AnyMayFinish(env: Env, me: Seat)
    requires env.unavailable == {"b"}
    ensures MayFinish(env, Fold([BLEASE]), me, None)
  {
    BHolds();
  }

  /** The follower's unchecked write: the sentinel says completed though the finish is b's, who can act, so that the transaction would refuse. */
  ghost predicate WritesUnchecked(c: Course, k: nat) {
    && IsCourse(c) && WritesAt(c, k) && c.steps[k] == WriteAlone("a", true)
    && c.states[k + 1].sentinel == Some(Sentinel("a", Some(0), Some(Completed)))
    && "a" in c.states[k].procs && !MayEnter(c.states[k], "a", c.states[k].procs["a"].lease)
    && Leased(c.states[k]).Some? && Leased(c.states[k]).value.holder == "b" && "b" !in c.states[k].reg.env.unavailable
  }

  lemma FollowerWritesUnchecked()
    ensures exists c: Course, k: nat :: WritesUnchecked(c, k)
  {
    var c := DEndsFirst();
    c := BReturns(c);
    var d, k := ClearedFollowerWrites(c, "a", None);
    assert Leased(d.states[k]) == Leased(Last(c));
    assert WritesUnchecked(d, k);
  }
}
