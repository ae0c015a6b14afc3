/**
 * Abandon votes cast at the same time (extensions/finish-line.ts,
 * abandonGate): each call writes its seat's vote, then lists the votes, then
 * looks at the other members' markers one by one, while other seats do the
 * same. However these interleave, two seats that both voted cannot both be
 * told to wait for a second.
 */
module AbandonQuorum {
  import opened Wrappers
  import opened FinishLog

  /** A call past its listing: the votes it saw, how far it has looked, the members found marked, and those found working. */
  datatype Call = Call(seen: set<Seat>, looked: nat, idle: set<Seat>, working: set<Seat>)

  /**
   * done/: the votes and the markers there now, the calls under way, and the
   * seats whose vote was there when they listed and has not been cleared since.
   */
  datatype Votes = Votes(team: seq<Seat>, votes: set<Seat>, marked: set<Seat>, gates: map<Seat, Call>, current: set<Seat>)

  datatype Step =
    | Write(me: Seat)
    | List(me: Seat)
    | Look(me: Seat)
    | MarkersAre(now: set<Seat>)
    | Reset

  function LookAt(s: Votes, me: Seat, g: Call): Call
    requires g.looked < |s.team|
  {
    var member, next := s.team[g.looked], g.(looked := g.looked + 1);
    if member == me || member in g.seen then next
    else if member in s.marked then next.(idle := g.idle + {member})
    else next.(working := g.working + {member})
  }

  /** A resume clears the votes and the markers; a call under way goes on with what it has seen. */
  function StepTo(s: Votes, step: Step): Votes {
    match step
    case Write(me) =>
      s.(votes := s.votes + {me}, gates := s.gates - {me}, current := s.current - {me})
    case List(me) =>
      s.(gates := s.gates[me := Call(s.votes, 0, {}, {})], current := if me in s.votes then s.current + {me} else s.current - {me})
    case Look(me) =>
      if me in s.gates && s.gates[me].looked < |s.team| then s.(gates := s.gates[me := LookAt(s, me, s.gates[me])]) else s
    case MarkersAre(now) => s.(marked := now)
    case Reset => s.(votes := {}, marked := {}, current := {})
  }

  function Exec(s: Votes, steps: seq<Step>): Votes {
    if steps == [] then s else StepTo(Exec(s, steps[..|steps| - 1]), steps[|steps| - 1])
  }

  ghost predicate Initial(s: Votes) {
    s.votes == {} && s.gates == map[] && s.current == {}
  }

  /** A call that has looked at every member proceeds on two votes, or with nobody else working. */
  predicate Proceeds(s: Votes, me: Seat)
    requires me in s.gates
  {
    s.gates[me].looked == |s.team| && (|s.gates[me].seen| >= 2 || s.gates[me].working == {})
  }

  /** Among any seats whose calls have listed, one saw the votes of all. */
  ghost predicate OneSawAll(s: Votes) {
    forall seats: set<Seat> :: seats != {} && seats <= s.current ==>
      exists me :: me in seats && me in s.gates && seats <= s.gates[me].seen
  }

  ghost predicate GateOk(s: Votes, me: Seat, g: Call) {
    && g.looked <= |s.team|
    && (me in s.current ==> me in g.seen && g.seen <= s.votes)
    && forall i :: 0 <= i < g.looked ==>
         s.team[i] == me || s.team[i] in g.seen || s.team[i] in g.idle || s.team[i] in g.working
  }

  ghost predicate Good(s: Votes) {
    && s.current <= s.gates.Keys
    && (forall me :: me in s.gates ==> GateOk(s, me, s.gates[me]))
    && OneSawAll(s)
  }

  lemma SameViewsKeep(s: Votes, t: Votes)
    requires OneSawAll(s) && t.current <= s.current
    requires forall me :: me in s.gates && me in t.current ==> me in t.gates && t.gates[me].seen == s.gates[me].seen
    ensures OneSawAll(t)
  {
    forall seats: set<Seat> | seats != {} && seats <= t.current
      ensures exists me :: me in seats && me in t.gates && seats <= t.gates[me].seen
    {
      assert seats <= s.current;
      var me :| me in seats && me in s.gates && seats <= s.gates[me].seen;
      assert me in seats && me in t.gates && seats <= t.gates[me].seen;
    }
  }

  /** Who lists last sees everyone's vote: each was written before its own listing. */
  lemma ListKeeps(s: Votes, me: Seat)
    requires Good(s)
    ensures OneSawAll(StepTo(s, List(me)))
  {
    var t := StepTo(s, List(me));
    forall seats: set<Seat> | seats != {} && seats <= t.current
      ensures exists other :: other in seats && other in t.gates && seats <= t.gates[other].seen
    {
      if me in seats {
        forall other | other in seats ensures other in s.votes {
          if other != me {
            assert GateOk(s, other, s.gates[other]);
          }
        }
        assert me in seats && me in t.gates && seats <= t.gates[me].seen;
      } else {
        assert seats <= s.current;
        var other :| other in seats && other in s.gates && seats <= s.gates[other].seen;
        assert other in seats && other in t.gates && seats <= t.gates[other].seen;
      }
    }
  }

  lemma StepKeeps(s: Votes, step: Step)
    requires Good(s)
    ensures Good(StepTo(s, step))
  {
    var t := StepTo(s, step);
    if step.List? {
      ListKeeps(s, step.me);
    } else {
      SameViewsKeep(s, t);
    }
    forall me | me in t.gates ensures GateOk(t, me, t.gates[me]) {
      if me in s.gates {
        assert GateOk(s, me, s.gates[me]);
      }
    }
  }

  lemma {:induction false} ReachableIsGood(s0: Votes, steps: seq<Step>)
    requires Initial(s0)
    ensures Good(Exec(s0, steps))
  {
    if steps != [] {
      ReachableIsGood(s0, steps[..|steps| - 1]);
      StepKeeps(Exec(s0, steps[..|steps| - 1]), steps[|steps| - 1]);
    }
  }

  /**
   * In every interleaving, of two seats whose votes were there when they
   * listed, and no resume since, at least one saw both; once it has looked at
   * the team, it may end the run.
   */
  lemma TwoVotesAreSeen(s0: Votes, steps: seq<Step>, a: Seat, b: Seat)
    requires Initial(s0) && a != b
    requires a in Exec(s0, steps).current && b in Exec(s0, steps).current
    ensures var s := Exec(s0, steps);
            exists me :: me in {a, b} && me in s.gates && {a, b} <= s.gates[me].seen && (s.gates[me].looked == |s.team| ==> Proceeds(s, me))
  {
    ReachableIsGood(s0, steps);
    var s, both := Exec(s0, steps), {a, b};
    assert both <= s.current;
    var me :| me in both && me in s.gates && both <= s.gates[me].seen;
    SubsetIsSmaller(both, s.gates[me].seen);
  }

  // --- what a call goes by ---

  /** Marked done or dead at a moment after the ith step. */
  ghost predicate MarkedAfter(s0: Votes, steps: seq<Step>, i: nat, member: Seat) {
    exists j: nat :: i < j <= |steps| && MarkedAt(s0, steps, j, member)
  }

  ghost predicate MarkedAt(s0: Votes, steps: seq<Step>, j: nat, member: Seat)
    requires j <= |steps|
  {
    member in Exec(s0, steps[..j]).marked
  }

  /** The seat's call listed at the ith step: it saw the votes there then, and whom it found idle was marked since. */
  ghost predicate ListedAt(s0: Votes, steps: seq<Step>, i: nat, me: Seat) {
    && i < |steps| && steps[i] == List(me) && me in Exec(s0, steps).gates
    && Exec(s0, steps).gates[me].seen == Exec(s0, steps[..i]).votes
    && forall member :: member in Exec(s0, steps).gates[me].idle ==> MarkedAfter(s0, steps, i, member)
  }

  lemma MarkedStays(s0: Votes, steps: seq<Step>, more: Step, i: nat, member: Seat)
    requires MarkedAfter(s0, steps, i, member)
    ensures MarkedAfter(s0, steps + [more], i, member)
  {
    var j: nat :| i < j <= |steps| && MarkedAt(s0, steps, j, member);
    assert (steps + [more])[..j] == steps[..j];
    assert MarkedAt(s0, steps + [more], j, member);
  }

  /** A step changes a call only by the seat's own listing or look, and a look finds idle only whom it finds marked. */
  lemma StepMovesCall(s: Votes, step: Step, me: Seat)
    requires me in StepTo(s, step).gates && step != List(me)
    ensures me in s.gates && StepTo(s, step).gates[me].seen == s.gates[me].seen
    ensures forall member :: member in StepTo(s, step).gates[me].idle ==> member in s.gates[me].idle || member in s.marked
    ensures step.Look? ==> StepTo(s, step).marked == s.marked
    ensures !step.Look? ==> StepTo(s, step).gates[me].idle == s.gates[me].idle
  {
  }

  lemma StillListed(s0: Votes, steps: seq<Step>, more: Step, i: nat, me: Seat)
    requires ListedAt(s0, steps, i, me) && more != List(me) && me in Exec(s0, steps + [more]).gates
    ensures ListedAt(s0, steps + [more], i, me)
  {
    var all := steps + [more];
    assert all[..|steps|] == steps && all[..i] == steps[..i];
    StepMovesCall(Exec(s0, steps), more, me);
    forall member | member in Exec(s0, all).gates[me].idle ensures MarkedAfter(s0, all, i, member) {
      if member in Exec(s0, steps).gates[me].idle {
        MarkedStays(s0, steps, more, i, member);
      } else {
        assert all[..|all|] == all;
        assert MarkedAt(s0, all, |all|, member);
      }
    }
  }

  /** Every call under way listed at some step, and goes by the votes of then and the markers since. */
  lemma {:induction false} CallHasListed(s0: Votes, steps: seq<Step>, me: Seat)
    requires Initial(s0) && me in Exec(s0, steps).gates
    ensures exists i: nat :: ListedAt(s0, steps, i, me)
  {
    var n := |steps| - 1;
    assert steps != [];
    var most := steps[..n];
    assert steps == most + [steps[n]];
    if steps[n] == List(me) {
      assert ListedAt(s0, steps, n, me);
    } else {
      StepMovesCall(Exec(s0, most), steps[n], me);
      CallHasListed(s0, most, me);
      var i: nat :| ListedAt(s0, most, i, me);
      StillListed(s0, most, steps[n], i, me);
    }
  }

  /** By what it has seen, a call that may proceed has two votes, or every other member voted or found marked. */
  lemma ProceedsBy(s: Votes, me: Seat)
    requires Good(s) && me in s.gates && Proceeds(s, me)
    ensures |s.gates[me].seen| >= 2
         || forall member :: member in s.team ==> member == me || member in s.gates[me].seen || member in s.gates[me].idle
  {
    assert GateOk(s, me, s.gates[me]);
  }

  lemma {:induction false} TeamStays(s0: Votes, steps: seq<Step>)
    ensures Exec(s0, steps).team == s0.team
  {
    if steps != [] { TeamStays(s0, steps[..|steps| - 1]); }
  }

  /**
   * In every interleaving, an abandon proceeds only on two votes that stood as
   * it listed them, or when every other member's stood then or was marked done
   * or dead at a moment since.
   */
  lemma ProceedsOnlyOn(s0: Votes, steps: seq<Step>, me: Seat)
    requires Initial(s0) && me in Exec(s0, steps).gates && Proceeds(Exec(s0, steps), me)
    ensures exists i: nat ::
              && ListedAt(s0, steps, i, me)
              && var stood := Exec(s0, steps[..i]).votes;
                 || |stood| >= 2
                 || forall member :: member in s0.team ==> member == me || member in stood || MarkedAfter(s0, steps, i, member)
  {
    ReachableIsGood(s0, steps);
    CallHasListed(s0, steps, me);
    TeamStays(s0, steps);
    ProceedsBy(Exec(s0, steps), me);
  }
}
