/**
 * A done's own write, on the register and the files themselves
 * (extensions/finish-line.ts, markDone; finish.ts, finishTransaction): what
 * the phases of DoneProtocol do one by one, as the code does them in a row
 * when nothing comes between.
 */
module MarkDone {
  import opened Wrappers
  import opened FinishLog
  import opened FinishActs
  import opened FinishRegister
  import opened FinishRuns
  import opened FinishLine
  import opened DoneProtocol
  import Q = AbandonQuorum

  datatype Ended = Wrote(written: Written) | NotYours | LatePending | Refused | Asked

  /** The files under done/ as the phases have them. */
  datatype Files = Files(markers: set<Seat>, dead: set<Seat>, sentinel: Option<Sentinel>, ballot: Q.Votes)

  /** The sentinel's transaction: its three phases in a row. */
  ghost function Transaction(s: Sys, me: Seat, readable: bool): Sys {
    StepTo(StepTo(StepTo(s, Enter(me)), Mark(me)), Commit(me, readable))
  }

  lemma RefusedEnter(s: Sys, me: Seat, readable: bool)
    requires MayAsk(s, me) && !MayEnter(s, me, s.procs[me].lease)
    ensures var t := Transaction(s, me, readable);
            && t.reg == s.reg && t.markers == s.markers && t.sentinel == s.sentinel && t.lock == s.lock
            && PhaseOf(t, me) == Over(TurnedAway)
  {
    var t := StepTo(s, Enter(me));
    assert PhaseOf(t, me).Over?;
  }

  lemma UnavailableKeepsLog(reg: Reg, seats: set<Seat>)
    ensures Next(reg, Unavailable(seats)) == Reg(reg.env.(unavailable := seats), reg.log)
  {
    OfEnvOnlyEnv(reg, Unavailable(seats));
    assert reg.log + [] == reg.log;
  }

  lemma EnterStep(s: Sys, me: Seat)
    requires MayAsk(s, me) && MayEnter(s, me, s.procs[me].lease)
    ensures var p := PhaseOf(s, me);
            StepTo(s, Enter(me)) == Move(s.(lock := Some(me)), me, Entered(p.run, p.revision, p.said))
  {
  }

  lemma MarkStep(s: Sys, me: Seat)
    requires PhaseOf(s, me).Entered?
    ensures var p := PhaseOf(s, me);
            var reg := Reg(s.reg.env.(unavailable := s.reg.env.unavailable + {me}), s.reg.log);
            StepTo(s, Mark(me)) == Move(s.(markers := s.markers + {me}, reg := reg), me, Marked(p.run, p.revision, p.said))
  {
    UnavailableKeepsLog(s.reg, s.reg.env.unavailable + {me});
  }

  predicate Moved(s: Sys, revision: Option<nat>, readable: bool) {
    revision.Some? && Reading(s, readable) != revision
  }

  lemma CommitRefused(s: Sys, me: Seat, readable: bool)
    requires PhaseOf(s, me).Marked? && s.sentinel.None? && Moved(s, PhaseOf(s, me).revision, readable)
    ensures StepTo(s, Commit(me, readable)) == Move(s.(lock := None, markers := s.markers - {me}), me, Over(TurnedAway))
  {
  }

  lemma CommitWrites(s: Sys, me: Seat, readable: bool)
    requires PhaseOf(s, me).Marked? && s.sentinel.None? && !Moved(s, PhaseOf(s, me).revision, readable)
    ensures var t, p := StepTo(s, Commit(me, readable)), PhaseOf(s, me);
            && t.markers == s.markers && t.lock.None? && t.sentinel == Some(Sentinel(me, p.revision, p.said))
            && t.reg.log == (if Fold(s.reg.log).readiness == Some(true) then s.reg else Next(s.reg, TurnsReady(true))).log
  {
  }

  lemma ReadinessShown(reg: Reg)
    requires !reg.env.finished
    ensures (if Fold(reg.log).readiness == Some(true) then reg else Next(reg, TurnsReady(true))).log
         == reg.log + ReadinessDraft(reg.env, Fold(reg.log), true)
  {
    assert reg.log + [] == reg.log;
  }

  lemma CommitStep(s: Sys, me: Seat, readable: bool)
    requires PhaseOf(s, me).Marked? && s.sentinel.None? && !s.reg.env.finished
    ensures var t, p := StepTo(s, Commit(me, readable)), PhaseOf(s, me);
            var refused := Moved(s, p.revision, readable);
            && t.markers == (if refused then s.markers - {me} else s.markers)
            && t.sentinel == (if refused then None else Some(Sentinel(me, p.revision, p.said)))
            && t.reg.log == (if refused then s.reg.log else s.reg.log + ReadinessDraft(s.reg.env, Fold(s.reg.log), true))
            && t.lock.None?
  {
    if Moved(s, PhaseOf(s, me).revision, readable) {
      CommitRefused(s, me, readable);
    } else {
      CommitWrites(s, me, readable);
      ReadinessShown(s.reg);
    }
  }

  /** Allowed in, it marks and then writes, or takes its mark back; the register gains at most the readiness it shows. */
  lemma EnteredWrites(s: Sys, me: Seat, readable: bool)
    requires MayAsk(s, me) && !s.reg.env.finished && MayEnter(s, me, s.procs[me].lease)
    ensures var t, p := Transaction(s, me, readable), PhaseOf(s, me);
            var refused := Moved(s, p.revision, readable);
            && t.markers == (if refused then s.markers - {me} else s.markers + {me})
            && t.sentinel == (if refused then None else Some(Sentinel(me, p.revision, p.said)))
            && t.reg.log == (if refused then s.reg.log else s.reg.log + ReadinessDraft(s.reg.env, Fold(s.reg.log), true))
            && t.lock.None?
  {
    EnterStep(s, me);
    var e := StepTo(s, Enter(me));
    MarkStep(e, me);
    var m := StepTo(e, Mark(me));
    CommitStep(m, me, readable);
    assert s.markers + {me} - {me} == s.markers - {me};
  }

  /** What a done leaves: the register's log, the markers and the sentinel. */
  datatype Left = Left(log: seq<Event>, markers: set<Seat>, sentinel: Option<Sentinel>)

  /** What the transaction leaves of a done that asks for it. */
  function TransactionLeft(reg: Reg, markers: set<Seat>, me: Seat, expected: Option<nat>, revision: Option<nat>, said: Option<Outcome>,
                           readable: bool): Left
  {
    if !MayFinish(reg.env, Fold(reg.log), me, expected) then Left(reg.log, markers, None)
    else if revision.Some? && !(readable && revision.value == reg.env.revision) then Left(reg.log, markers - {me}, None)
    else
      Left(reg.log + ReadinessDraft(reg.env, Fold(reg.log), true), markers + {me}, Some(Sentinel(me, revision, said)))
  }

  /** The three phases in a row leave what the transaction does. */
  lemma PhasesLeaveTheSame(s: Sys, me: Seat, readable: bool)
    requires MayAsk(s, me) && !s.reg.env.finished
    ensures var t, p := Transaction(s, me, readable), s.procs[me];
            Left(t.reg.log, t.markers, t.sentinel)
            == TransactionLeft(s.reg, s.markers, me, p.lease, p.phase.revision, p.phase.said, readable)
  {
    if MayEnter(s, me, s.procs[me].lease) {
      EnteredWrites(s, me, readable);
    } else {
      RefusedEnter(s, me, readable);
    }
  }

  /** What the transaction checks before it writes: the lease, then what is late; none when nothing is against it. */
  method CheckFinish(reg: FinishRegister, env: Env, me: Seat, expected: Option<nat>) returns (against: Option<Ended>)
    ensures against.None? <==> MayFinish(env, Fold(reg.log), me, expected)
    ensures against == Some(NotYours) <==> !LeaseAllows(env, Fold(reg.log).lease, me, expected)
    ensures against.Some? ==> against.value.NotYours? || (against.value.LatePending? && LateNow(env, Fold(reg.log)) != [])
  {
    var st := ReadFinish(reg.log);
    var lease := st.lease;
    if expected.Some? {
      if lease.None? || lease.value.holder != me || lease.value.generation != expected.value { return Some(NotYours); }
    } else if lease.Some? && lease.value.holder != me && lease.value.holder !in env.unavailable {
      return Some(NotYours);
    }
    if lease.Some? {
      var late := reg.ListLate(env, lease.value.holder, lease.value.report);
      if late != [] { return Some(LatePending); }
    }
    return None;
  }

  /** The sentinel written while readiness had not turned: the ready state recorded with it. */
  method ShowReady(reg: FinishRegister, env: Env, created: bool)
    requires !env.finished
    modifies reg`log
    ensures reg.log == if created then old(reg.log) + ReadinessDraft(env, Fold(old(reg.log)), true) else old(reg.log)
  {
    assert reg.log + [] == reg.log;
    if !created { return; }
    var st := ReadFinish(reg.log);
    if st.readiness != Some(true) {
      reg.AppendFinish([Readiness(true, Some(env.revision))]);
    }
  }

  /**
   * The transaction that writes the sentinel: refused with nothing changed
   * when the lease is not as it must be or something is late, else written, or
   * the marker taken back where the revision has moved.
   */
  method FinishTransaction(reg: FinishRegister, dir: DoneDir, env: Env, me: Seat, expected: Option<nat>, revision: Option<nat>,
                           said: Option<Outcome>, readable: bool) returns (r: Ended)
    requires dir.sentinel.None? && !env.finished
    modifies reg`log, dir`markers, dir`sentinel
    ensures Left(reg.log, dir.markers, dir.sentinel)
         == TransactionLeft(Reg(env, old(reg.log)), old(dir.markers), me, expected, revision, said, readable)
    ensures r == Wrote(Created) <==> dir.sentinel.Some?
    ensures r.NotYours? || r.LatePending? <==> !MayFinish(env, Fold(old(reg.log)), me, expected)
    ensures r.LatePending? ==> LateNow(env, Fold(old(reg.log))) != []
  {
    var against := CheckFinish(reg, env, me, expected);
    if against.Some? { return against.value; }
    var written := dir.WriteDone(me, false, revision, if readable then Some(env.revision) else None, said);
    ShowReady(reg, env, written.Created?);
    return Wrote(written);
  }

  // --- giving up, and following ---

  /** The team looked at, one member after the other. */
  ghost function LooksTo(s: Sys, me: Seat, n: nat): Sys {
    if n == 0 then s else StepTo(LooksTo(s, me, n - 1), LookAt(me))
  }

  /** The members still working, of the first n. */
  ghost predicate WorkingAmong(s: Sys, me: Seat, seen: set<Seat>, n: nat, member: Seat) {
    n <= |s.ballot.team| && member in s.ballot.team[..n] && member != me && member !in seen && member !in s.markers + s.dead
  }

  ghost predicate AskedOf(s: Sys, me: Seat, seen: set<Seat>, n: nat) {
    && PhaseOf(s, me).Asking? && me in s.ballot.gates && s.ballot.gates[me].looked == n && s.ballot.gates[me].seen == seen
    && forall member :: member in s.ballot.gates[me].working <==> WorkingAmong(s, me, seen, n, member)
  }

  lemma OneLook(s: Sys, me: Seat, seen: set<Seat>, n: nat)
    requires AskedOf(s, me, seen, n) && n < |s.ballot.team|
    ensures var t := StepTo(s, LookAt(me));
            AskedOf(t, me, seen, n + 1) && t == s.(ballot := t.ballot) && t.ballot.team == s.ballot.team && t.ballot.votes == s.ballot.votes
  {
    var t := StepTo(s, LookAt(me));
    assert s.ballot.team[..n + 1] == s.ballot.team[..n] + [s.ballot.team[n]];
    forall member ensures member in t.ballot.gates[me].working <==> WorkingAmong(t, me, seen, n + 1, member) {
      assert WorkingAmong(s, me, seen, n, member) <==> member in s.ballot.gates[me].working;
    }
  }

  lemma {:induction false} AllLooks(s: Sys, me: Seat, seen: set<Seat>, n: nat)
    requires AskedOf(s, me, seen, 0) && n <= |s.ballot.team|
    ensures var t := LooksTo(s, me, n);
            AskedOf(t, me, seen, n) && t == s.(ballot := t.ballot) && t.ballot.team == s.ballot.team && t.ballot.votes == s.ballot.votes
  {
    if n > 0 {
      AllLooks(s, me, seen, n - 1);
      OneLook(LooksTo(s, me, n - 1), me, seen, n - 1);
    }
  }

  /** An abandon's phases in a row, to what the gate says. */
  ghost function ThroughGate(s: Sys, me: Seat): Sys {
    StepTo(LooksTo(StepTo(StepTo(s, Vote(me)), ListVotes(me)), me, |s.ballot.team|), Decide(me))
  }

  /** Two votes, this seat's among them, or no other member still working. */
  predicate MayGiveUp(team: seq<Seat>, votes: set<Seat>, marked: set<Seat>, me: Seat) {
    |votes + {me}| >= 2 || forall m :: m in team ==> m == me || m in votes || m in marked
  }

  lemma Listed(s: Sys, me: Seat)
    requires PhaseOf(s, me).Cleared? && PhaseOf(s, me).said == Some(Abandoned) && s.sentinel.None? && !s.untilSolved
    ensures var p := PhaseOf(s, me);
            var t := StepTo(StepTo(s, Vote(me)), ListVotes(me));
            && AskedOf(t, me, s.ballot.votes + {me}, 0) && t.ballot.team == s.ballot.team && t.ballot.votes == s.ballot.votes + {me}
            && t == Move(s.(ballot := t.ballot), me, Asking(p.run, p.revision))
  {
  }

  /** The gate lets an abandon go on exactly on a quorum; the vote is recorded either way. */
  lemma GateDecides(s: Sys, me: Seat)
    requires PhaseOf(s, me).Cleared? && PhaseOf(s, me).said == Some(Abandoned) && s.sentinel.None? && !s.untilSolved
    ensures var t, p := ThroughGate(s, me), PhaseOf(s, me);
            var proceed := MayGiveUp(s.ballot.team, s.ballot.votes, s.markers + s.dead, me);
            && PhaseOf(t, me) == (if proceed then GivingUp(p.run, p.revision) else Over(AskedOthers))
            && t.markers == (if proceed then s.markers + {me} else s.markers)
            && t.ballot.votes == s.ballot.votes + {me} && t.sentinel == s.sentinel && t.reg == s.reg
  {
    Listed(s, me);
    var a, seen := StepTo(StepTo(s, Vote(me)), ListVotes(me)), s.ballot.votes + {me};
    AllLooks(a, me, seen, |s.ballot.team|);
    var b := LooksTo(a, me, |s.ballot.team|);
    NobodyWorking(b, me, seen);
    Decided(b, me, seen);
  }

  lemma NobodyWorking(s: Sys, me: Seat, seen: set<Seat>)
    requires AskedOf(s, me, seen, |s.ballot.team|)
    ensures s.ballot.gates[me].working == {} <==>
              forall m :: m in s.ballot.team ==> m == me || m in seen || m in s.markers + s.dead
  {
    assert s.ballot.team[..|s.ballot.team|] == s.ballot.team;
    forall m ensures m in s.ballot.gates[me].working <==> WorkingAmong(s, me, seen, |s.ballot.team|, m) {}
    if m :| m in s.ballot.team && !(m == me || m in seen || m in s.markers + s.dead) {
      assert WorkingAmong(s, me, seen, |s.ballot.team|, m);
    }
    if s.ballot.gates[me].working != {} {
      var m :| m in s.ballot.gates[me].working;
      assert WorkingAmong(s, me, seen, |s.ballot.team|, m);
    }
  }

  lemma Decided(s: Sys, me: Seat, seen: set<Seat>)
    requires AskedOf(s, me, seen, |s.ballot.team|)
    ensures var p, t := PhaseOf(s, me), StepTo(s, Decide(me));
            t == if |seen| >= 2 || s.ballot.gates[me].working == {} then Move(s.(markers := s.markers + {me}), me, GivingUp(p.run, p.revision))
                 else Move(s, me, Over(AskedOthers))
  {
  }

  /** A done outside the transaction: it writes, finds the sentinel, or takes its marker back. */
  lemma WrittenOutside(s: Sys, me: Seat, readable: bool)
    requires PhaseOf(s, me).GivingUp? || PhaseOf(s, me).Following?
    ensures var t, p := StepTo(s, WriteAlone(me, readable)), PhaseOf(s, me);
            var refused := s.sentinel.None? && Moved(s, p.revision, readable);
            && t.markers == (if refused then s.markers - {me} else s.markers)
            && t.sentinel == (if s.sentinel.Some? || refused then s.sentinel
                              else Some(Sentinel(me, p.revision, if p.GivingUp? then Some(Abandoned) else p.said)))
            && t.ballot == s.ballot && t.reg.log == s.reg.log
  {
  }

  /** All of an abandon's phases in a row: past the gate it writes; where the run has ended it follows. */
  ghost function AbandonAlone(s: Sys, me: Seat, readable: bool): Sys {
    StepTo(if s.sentinel.Some? then StepTo(s, FollowOn(me)) else ThroughGate(s, me), WriteAlone(me, readable))
  }

  /** A done that follows leaves its marker, and the sentinel as it found it. */
  lemma FollowLeaves(s: Sys, me: Seat, readable: bool)
    requires PhaseOf(s, me).Cleared? && s.sentinel.Some? && (s.untilSolved ==> PhaseOf(s, me).said != Some(Abandoned))
    ensures var t := StepTo(StepTo(s, FollowOn(me)), WriteAlone(me, readable));
            t.markers == s.markers + {me} && t.sentinel == s.sentinel && t.ballot == s.ballot
  {
    WrittenOutside(StepTo(s, FollowOn(me)), me, readable);
  }

  /** A done its gate held back has nothing left to write. */
  lemma OverWritesNothing(s: Sys, me: Seat, readable: bool)
    requires Free(PhaseOf(s, me))
    ensures StepTo(s, WriteAlone(me, readable)) == s
  {
  }

  /** What an abandon leaves where the run has not ended, all its phases in a row. */
  lemma GateLeaves(s: Sys, me: Seat, readable: bool)
    requires PhaseOf(s, me).Cleared? && PhaseOf(s, me).said == Some(Abandoned) && s.sentinel.None? && !s.untilSolved
    ensures var t, p := StepTo(ThroughGate(s, me), WriteAlone(me, readable)), PhaseOf(s, me);
            var asked := !MayGiveUp(s.ballot.team, s.ballot.votes, s.markers + s.dead, me);
            var refused := Moved(s, p.revision, readable);
            && t.markers == (if asked then s.markers else if refused then s.markers - {me} else s.markers + {me})
            && t.sentinel == (if asked || refused then None else Some(Sentinel(me, p.revision, Some(Abandoned))))
            && t.ballot.votes == s.ballot.votes + {me}
  {
    GateDecides(s, me);
    var g := ThroughGate(s, me);
    if PhaseOf(g, me).GivingUp? {
      WrittenOutside(g, me, readable);
      assert s.markers + {me} - {me} == s.markers - {me};
    } else {
      OverWritesNothing(g, me, readable);
    }
  }

  /** What an abandon leaves, where agents may end the run: a marker where it finds the sentinel, nothing but a vote where its gate holds it. */
  function AbandonLeft(reg: Reg, files: Files, me: Seat, revision: Option<nat>, readable: bool): Left {
    if files.sentinel.Some? then Left(reg.log, files.markers + {me}, files.sentinel)
    else if !MayGiveUp(files.ballot.team, files.ballot.votes, files.markers + files.dead, me) then Left(reg.log, files.markers, None)
    else if revision.Some? && !(readable && revision.value == reg.env.revision) then Left(reg.log, files.markers - {me}, None)
    else Left(reg.log, files.markers + {me}, Some(Sentinel(me, revision, Some(Abandoned))))
  }

  /** All of an abandon's phases in a row leave the same: past the gate it writes; where the run has ended it follows. */
  lemma AbandonPhasesLeaveTheSame(s: Sys, me: Seat, readable: bool)
    requires PhaseOf(s, me).Cleared? && PhaseOf(s, me).said == Some(Abandoned) && !s.untilSolved
    ensures var t := AbandonAlone(s, me, readable);
            && Left(s.reg.log, t.markers, t.sentinel)
               == AbandonLeft(s.reg, Files(s.markers, s.dead, s.sentinel, s.ballot), me, PhaseOf(s, me).revision, readable)
            && t.ballot.votes == (if s.sentinel.Some? then s.ballot.votes else s.ballot.votes + {me})
  {
    if s.sentinel.Some? {
      FollowLeaves(s, me, readable);
    } else {
      GateLeaves(s, me, readable);
    }
  }

  /**
   * An abandon: refused in an until-solved run, with nothing changed; a
   * recorded vote exactly while the gate has no quorum; else written, without
   * the lease or what is late.
   */
  method GiveUp(dir: DoneDir, reg: Reg, me: Seat, team: seq<Seat>, revision: Option<nat>, readable: bool, untilSolved: bool,
                ghost ballot: Q.Votes) returns (r: Ended)
    requires ballot.team == team && ballot.votes == dir.votes
    modifies dir`markers, dir`sentinel, dir`votes
    ensures r.Refused? <==> untilSolved
    ensures r.Refused? ==> dir.markers == old(dir.markers) && dir.sentinel == old(dir.sentinel) && dir.votes == old(dir.votes)
    ensures r.Asked? <==> !untilSolved && old(dir.sentinel).None? && !MayGiveUp(team, old(dir.votes), old(dir.markers) + dir.dead, me)
    ensures r.Refused? || r.Asked? || r.Wrote?
    ensures r == Wrote(Created) <==> old(dir.sentinel).None? && dir.sentinel.Some?
    ensures !untilSolved ==>
              && Left(reg.log, dir.markers, dir.sentinel)
                 == AbandonLeft(reg, Files(old(dir.markers), dir.dead, old(dir.sentinel), ballot), me, revision, readable)
              && dir.votes == (if old(dir.sentinel).Some? then old(dir.votes) else old(dir.votes) + {me})
  {
    if untilSolved { return Refused; }
    if dir.sentinel.None? {
      var proceed, _, _, _ := dir.AbandonGate(me, team);
      if !proceed { return Asked; }
    }
    var written := dir.WriteDone(me, false, revision, if readable then Some(reg.env.revision) else None, Some(Abandoned));
    return Wrote(written);
  }
}
