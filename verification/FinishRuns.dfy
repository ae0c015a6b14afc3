/**
 * Runs of the finish register: every act of the seats interleaved with what
 * happens around them (posts land, reports are published, the run is resumed,
 * seats become unavailable), and what holds over every such run: the lease is
 * fenced, obligations are conserved, and a resolution is recorded once.
 */
module FinishRuns {
  import opened Wrappers
  import opened FinishLog
  import opened FinishActs
  import opened FinishRegister

  datatype Reg = Reg(env: Env, log: seq<Event>)

  datatype Act =
    | PostLands(post: BoardPost)
    | Publishes(file: Path, written: Option<Report>, publisher: Option<Seat>, moves: bool)
    | Resumes(at: Option<Time>)
    | Unavailable(seats: set<Seat>)
    | StateMoves
    | SentinelLands
    | DoneTurn(me: Seat, path: Option<Path>)
    | Prepares(me: Seat, path: Option<Path>, ready: bool)
    | Acks(me: Seat, verdict: Verdict, why: string, path: Option<Path>, digest: Option<Digest>, keys: seq<string>)
    | Resolves(me: Seat, target: Target, how: How, why: string)
    | ResolvesBatch(me: Seat, batch: Batch, key: string)
    | Checks(me: Seat, revision: Option<nat>, proceed: bool, run: Option<LineRun>)
    | TurnsReady(ready: bool)
    | CarriesReviews

  /** A post whose tag can change a verdict moves the state's revision; the system's own never does. */
  predicate VerdictPost(p: BoardPost) {
    p.from != SYSTEM && (p.tag == ResultTag || p.tag == VetoTag || p.tag == HoldTag || p.tag == StopTag)
  }

  predicate Fresh(posts: seq<BoardPost>, p: BoardPost) {
    forall q :: q in posts ==> q.id < p.id
  }

  function LeaseReport(st: FinishState): Option<Path> {
    if st.lease.Some? then st.lease.value.report else None
  }

  /** Publishing the finish's report at another digest moves the revision; any publication may. */
  function PublishedEnv(env: Env, st: FinishState, path: Path, report: Option<Report>, publisher: Option<Seat>, moves: bool): Env {
    var reports := if report.Some? then env.reports[path := report.value] else env.reports - {path};
    var publishers := if publisher.Some? then env.publishers[path := publisher.value] else env.publishers;
    var after := env.(reports := reports, publishers := publishers);
    var changed := LeaseReport(st) == Some(path) && ReportDigest(after, Some(path)) != ReportDigest(env, Some(path));
    if moves || changed then after.(revision := env.revision + 1) else after
  }

  function EnvAfter(s: Reg, a: Act): Env {
    match a
    case PostLands(p) =>
      if !Fresh(s.env.posts, p) then s.env
      else
        s.env.(posts := s.env.posts + [p], revision := s.env.revision + if VerdictPost(p) then 1 else 0)
    case Publishes(path, report, publisher, moves) => PublishedEnv(s.env, Fold(s.log), path, report, publisher, moves)
    case Resumes(at) => s.env.(resumes := s.env.resumes + [at], finished := false)
    case Unavailable(seats) => s.env.(unavailable := seats)
    case StateMoves => s.env.(revision := s.env.revision + 1)
    case SentinelLands => s.env.(finished := true)
    case _ => s.env
  }

  /** What an act appends to ask for the lease; every other event it appends is no lease event. */
  function Asked(s: Reg, a: Act): seq<Event> {
    var st := Fold(s.log);
    match a
    case DoneTurn(me, path) => AskLease(s.env, st, me, path).1
    case Prepares(me, path, ready) =>
      var report := path.Or(LeaseReport(st));
      if s.env.finished || ReportDigest(s.env, report).None? then [] else AskLease(s.env, st, me, report).1
    case _ => []
  }

  function Drafts(s: Reg, a: Act): seq<Event> {
    var st := Fold(s.log);
    match a
    case DoneTurn(me, path) => AskLease(s.env, st, me, path).1
    case Prepares(me, path, ready) => PrepareDrafts(s.env, s.log, me, path, ready)
    case Acks(me, verdict, why, path, digest, keys) => AckDraft(s.env, st, me, verdict, why, path, digest, keys)
    case Resolves(me, target, how, why) => ResolveDraft(s.env, st, me, target, how, why)
    case ResolvesBatch(me, batch, key) => BatchDrafts(s.env, st, me, batch, key)
    case Checks(me, revision, proceed, run) => CheckDraft(st, me, revision, proceed, run)
    case TurnsReady(ready) => ReadinessDraft(s.env, st, ready)
    case CarriesReviews => CarryDraft(s.env, st)
    case _ => []
  }

  function Next(s: Reg, a: Act): Reg {
    var log := s.log + Drafts(s, a);
    var env := EnvAfter(s, a);
    Reg(if LeaseReport(Fold(log)) != LeaseReport(Fold(s.log)) then env.(revision := env.revision + 1) else env, log)
  }

  /** A run: the register and what is around it at each moment, and the act that led from each to the next. */
  datatype Run = Run(states: seq<Reg>, acts: seq<Act>)

  ghost predicate StepAt(run: Run, i: nat) {
    i + 1 < |run.states| && i < |run.acts| && run.states[i + 1] == Next(run.states[i], run.acts[i])
  }

  ghost predicate IsRun(run: Run) {
    && |run.states| == |run.acts| + 1
    && Initial(run.states[0])
    && forall i: nat :: i < |run.acts| ==> StepAt(run, i)
  }

  /** The run as it begins: nothing in the register, whatever is around it, its posts in order. */
  ghost predicate Initial(s: Reg) {
    s.log == [] && PostsOrdered(s.env.posts)
  }

  ghost predicate PostsOrdered(posts: seq<BoardPost>) {
    forall i, j :: 0 <= i < j < |posts| ==> posts[i].id < posts[j].id
  }

  /** The lease at a moment of a run. */
  function LeaseAt(run: Run, i: nat): Option<LeaseState>
    requires i < |run.states|
  {
    Fold(run.states[i].log).lease
  }

  // --- the shape of what an act appends ---

  lemma DraftsShape(s: Reg, a: Act)
    ensures Asked(s, a) <= Drafts(s, a) && |Asked(s, a)| <= 1 && (Asked(s, a) != [] ==> Asked(s, a)[0].Lease?)
    ensures forall i :: |Asked(s, a)| <= i < |Drafts(s, a)| ==> !Drafts(s, a)[i].Lease?
  {
  }

  lemma OnlyResolvesResolve(s: Reg, a: Act)
    ensures !a.Resolves? && !a.ResolvesBatch? ==> forall e :: e in Drafts(s, a) ==> !e.Resolve?
  {
  }

  function LeaseAfter(s: Reg, a: Act): Option<LeaseState> {
    DraftsShape(s, a);
    var was := Fold(s.log).lease;
    if Asked(s, a) == [] then was else FoldLease(was, Asked(s, a)[0])
  }

  /** The lease is asked for by a done or a prepare, and by nothing else. */
  lemma AskedFor(s: Reg, a: Act)
    ensures Asked(s, a) != [] ==> a.DoneTurn? || a.Prepares?
    ensures a.DoneTurn? ==> Asked(s, a) == AskLease(s.env, Fold(s.log), a.me, a.path).1
    ensures a.Prepares? && Asked(s, a) != []
       ==> Asked(s, a) == AskLease(s.env, Fold(s.log), a.me, a.path.Or(LeaseReport(Fold(s.log)))).1
  {
  }

  lemma AskedThenRest(log: seq<Event>, asked: seq<Event>, rest: seq<Event>)
    requires |asked| <= 1 && (asked != [] ==> asked[0].Lease?) && forall e :: e in rest ==> !e.Lease?
    ensures Fold(log + (asked + rest)).lease == if asked == [] then Fold(log).lease else FoldLease(Fold(log).lease, asked[0])
  {
    assert log + (asked + rest) == log + asked + rest;
    OthersLeave(log + asked, rest);
    if asked == [] {
      assert log + asked == log;
    } else {
      assert asked == [asked[0]];
      LeaseAppend(log, asked[0]);
    }
  }

  lemma NextLease(s: Reg, a: Act)
    ensures Fold(Next(s, a).log).lease == LeaseAfter(s, a)
  {
    DraftsShape(s, a);
    var asked, drafts := Asked(s, a), Drafts(s, a);
    assert drafts == asked + drafts[|asked|..];
    AskedThenRest(s.log, asked, drafts[|asked|..]);
  }

  // --- fencing ---

  /** Generations never fall; one generation has one holder in one segment; segments and boundaries are kept. */
  ghost predicate Fences(was: Option<LeaseState>, now: Option<LeaseState>) {
    && SegmentKept(was, now)
    && (was.Some? ==>
          && was.value.generation <= now.value.generation
          && (was.value.generation == now.value.generation ==>
                was.value.holder == now.value.holder && was.value.segment == now.value.segment))
  }

  lemma AskFences(env: Env, st: FinishState, me: Seat, report: Option<Path>)
    ensures var asked := AskLease(env, st, me, report).1;
            asked != [] ==> asked[0].Lease? && Fences(st.lease, FoldLease(st.lease, asked[0]))
  {
  }

  lemma NextFences(s: Reg, a: Act)
    ensures Fences(Fold(s.log).lease, Fold(Next(s, a).log).lease)
  {
    NextLease(s, a);
    AskedFor(s, a);
    if a.DoneTurn? {
      AskFences(s.env, Fold(s.log), a.me, a.path);
    } else if a.Prepares? {
      AskFences(s.env, Fold(s.log), a.me, a.path.Or(LeaseReport(Fold(s.log))));
    }
  }

  lemma StepFences(run: Run, i: nat)
    requires IsRun(run) && i < |run.acts|
    ensures Fences(LeaseAt(run, i), LeaseAt(run, i + 1))
  {
    assert StepAt(run, i);
    NextFences(run.states[i], run.acts[i]);
  }

  /** Over every run, between any two moments of it, the later lease is fenced by the earlier. */
  lemma {:induction false} LeaseIsFenced(run: Run, i: nat, j: nat)
    requires IsRun(run) && i <= j < |run.states|
    ensures Fences(LeaseAt(run, i), LeaseAt(run, j))
  {
    if i < j {
      LeaseIsFenced(run, i, j - 1);
      StepFences(run, j - 1);
      FencesOn(LeaseAt(run, i), LeaseAt(run, j - 1), LeaseAt(run, j));
    }
  }

  lemma FencesOn(a: Option<LeaseState>, b: Option<LeaseState>, c: Option<LeaseState>)
    requires Fences(a, b) && Fences(b, c)
    ensures Fences(a, c)
  {
  }

  /** A generation has one holder over the whole run: whoever held it, whenever. */
  lemma GenerationDeterminesHolder(run: Run, i: nat, j: nat)
    requires IsRun(run) && i < |run.states| && j < |run.states|
    requires LeaseAt(run, i).Some? && LeaseAt(run, j).Some?
    requires LeaseAt(run, i).value.generation == LeaseAt(run, j).value.generation
    ensures LeaseAt(run, i).value.holder == LeaseAt(run, j).value.holder
    ensures LeaseAt(run, i).value.segment == LeaseAt(run, j).value.segment
  {
    if i <= j { LeaseIsFenced(run, i, j); } else { LeaseIsFenced(run, j, i); }
  }

  /** A done that finds the holder and generation it began with had no other holder between. */
  lemma SameLeaseThroughout(run: Run, i: nat, k: nat, j: nat)
    requires IsRun(run) && i <= k <= j < |run.states|
    requires LeaseAt(run, i).Some? && LeaseAt(run, j).Some?
    requires LeaseAt(run, i).value.generation == LeaseAt(run, j).value.generation
    ensures LeaseAt(run, k).Some?
    ensures LeaseAt(run, k).value.generation == LeaseAt(run, i).value.generation
    ensures LeaseAt(run, k).value.holder == LeaseAt(run, i).value.holder
  {
    LeaseIsFenced(run, i, k);
    LeaseIsFenced(run, k, j);
  }

  /** Whoever a done is told coordinates can act on it: the seat asking, or a seat that is available. */
  lemma HolderCanAct(env: Env, st: FinishState, me: Seat, report: Option<Path>)
    requires !env.finished
    ensures var turn := AskLease(env, st, me, report).0;
            && (turn.mine <==> turn.holder == me)
            && (turn.holder == me || turn.holder !in env.unavailable)
            && (turn.tookOver.Some? ==> turn.tookOver.value in env.unavailable && turn.tookOver != Some(me))
  {
  }

  /** Within a segment the finish changes hands only from a seat that cannot act, to the one asking. */
  lemma TakeoverIsFromUnavailable(run: Run, i: nat)
    requires IsRun(run) && i < |run.acts| && LeaseAt(run, i).Some? && LeaseAt(run, i + 1).Some?
    requires LeaseAt(run, i + 1).value.segment == LeaseAt(run, i).value.segment
    requires LeaseAt(run, i + 1).value.generation != LeaseAt(run, i).value.generation
    ensures LeaseAt(run, i).value.holder in run.states[i].env.unavailable
    ensures (run.acts[i].DoneTurn? || run.acts[i].Prepares?) && LeaseAt(run, i + 1).value.holder == run.acts[i].me
  {
    var s, a := run.states[i], run.acts[i];
    assert StepAt(run, i);
    NextLease(s, a);
    AskedFor(s, a);
    if a.DoneTurn? {
      TakesOver(s.env, Fold(s.log), a.me, a.path);
    } else {
      TakesOver(s.env, Fold(s.log), a.me, a.path.Or(LeaseReport(Fold(s.log))));
    }
  }

  lemma TakesOver(env: Env, st: FinishState, me: Seat, report: Option<Path>)
    requires st.lease.Some?
    ensures var asked := AskLease(env, st, me, report).1;
            asked != [] ==>
              var now := FoldLease(st.lease, asked[0]).value;
              now.segment == st.lease.value.segment && now.generation != st.lease.value.generation ==>
                st.lease.value.holder in env.unavailable && now.holder == me
  {
  }

  // --- what every reachable register keeps ---

  ghost predicate DistinctTargets(resolutions: seq<Resolution>) {
    forall i, j :: 0 <= i < j < |resolutions| ==> resolutions[i].target != resolutions[j].target
  }

  /** A lease with a boundary or a carried post names its report. */
  ghost predicate LeaseNamesReport(lease: Option<LeaseState>) {
    lease.Some? && (lease.value.since.Some? || lease.value.carried != []) ==> lease.value.report.Some?
  }

  ghost predicate Inv(s: Reg) {
    && PostsOrdered(s.env.posts)
    && LeaseNamesReport(Fold(s.log).lease)
    && DistinctTargets(Fold(s.log).resolutions)
  }

  lemma AskNamesReport(env: Env, st: FinishState, me: Seat, report: Option<Path>)
    requires LeaseNamesReport(st.lease)
    ensures var asked := AskLease(env, st, me, report).1;
            asked != [] ==> asked[0].Lease? && LeaseNamesReport(FoldLease(st.lease, asked[0]))
  {
    var kept := StillLate(env, st);
    assert kept != [] ==> LeaseReport(st).Some?;
  }

  lemma NextNamesReport(s: Reg, a: Act)
    requires LeaseNamesReport(Fold(s.log).lease)
    ensures LeaseNamesReport(Fold(Next(s, a).log).lease)
  {
    NextLease(s, a);
    AskedFor(s, a);
    var st := Fold(s.log);
    if a.DoneTurn? {
      AskNamesReport(s.env, st, a.me, a.path);
    } else if a.Prepares? {
      AskNamesReport(s.env, st, a.me, a.path.Or(LeaseReport(st)));
    }
  }

  /** The resolutions a run of resolve events folds to, the first of them numbered after `n`. */
  function ResolutionsOf(n: nat, drafts: seq<Event>): (r: seq<Resolution>)
    requires forall e :: e in drafts ==> e.Resolve? && e.how.Some?
    ensures |r| == |drafts|
    ensures forall i :: 0 <= i < |r| ==>
              drafts[i] in drafts && r[i].seat == drafts[i].seat && r[i].target == drafts[i].target && r[i].how == drafts[i].how.value
              && r[i].why == drafts[i].why && r[i].digest == drafts[i].digest && r[i].batch == drafts[i].batch
  {
    if drafts == [] then []
    else
      var e := drafts[|drafts| - 1];
      ResolutionsOf(n, drafts[..|drafts| - 1])
      + [Resolution(n + |drafts|, e.seat, e.target, e.how.value, e.why, e.digest, e.batch, e.generation)]
  }

  lemma {:induction false} FoldResolves(log: seq<Event>, drafts: seq<Event>)
    requires forall e :: e in drafts ==> e.Resolve? && e.how.Some?
    ensures Fold(log + drafts) == Fold(log).(resolutions := Fold(log).resolutions + ResolutionsOf(|log|, drafts))
  {
    if drafts == [] {
      assert log + drafts == log;
      assert Fold(log).resolutions + [] == Fold(log).resolutions;
    } else {
      var most, e := drafts[..|drafts| - 1], drafts[|drafts| - 1];
      assert e in drafts;
      FoldResolves(log, most);
      FoldLast(log, drafts);
      OneMoreResolution(Fold(log).resolutions, ResolutionsOf(|log|, most),
                        Resolution(|log| + |drafts|, e.seat, e.target, e.how.value, e.why, e.digest, e.batch, e.generation));
    }
  }

  lemma OneMoreResolution(was: seq<Resolution>, more: seq<Resolution>, last: Resolution)
    ensures was + more + [last] == was + (more + [last])
  {
  }

  /** What a resolution answers is late, so nothing answered it before. */
  lemma LateIsUnresolved(env: Env, log: seq<Event>, t: Target)
    requires Named(LateNow(env, Fold(log)), t)
    ensures !Resolved(Fold(log), t)
  {
    var st := Fold(log);
    FoldIsOrdered(log);
    LateItemsMeans(env, st, st.lease.value.holder, st.lease.value.report, t, |log|);
  }

  lemma DistinctMore(was: seq<Resolution>, more: seq<Resolution>)
    requires DistinctTargets(was) && DistinctTargets(more)
    requires forall r :: r in more ==> !exists q :: q in was && q.target == r.target
    ensures DistinctTargets(was + more)
  {
    var all := was + more;
    forall i, j | 0 <= i < j < |all| ensures all[i].target != all[j].target {
      if i < |was| <= j {
        assert was[i] in was && more[j - |was|] in more;
      }
    }
  }

  lemma ResolveDraftsAreFresh(s: Reg, a: Act)
    requires a.Resolves? || a.ResolvesBatch?
    ensures forall e :: e in Drafts(s, a) ==> e.Resolve? && e.how.Some? && !Resolved(Fold(s.log), e.target)
    ensures DistinctTargets(ResolutionsOf(|s.log|, Drafts(s, a)))
  {
    if a.ResolvesBatch? {
      BatchDraftsAreFresh(s.env, s.log, a.me, a.batch, a.key);
    } else if Drafts(s, a) != [] {
      LateIsUnresolved(s.env, s.log, a.target);
    }
  }

  lemma BatchDraftsAreFresh(env: Env, log: seq<Event>, me: Seat, batch: Batch, key: string)
    ensures var drafts := BatchDrafts(env, Fold(log), me, batch, key);
            && (forall e :: e in drafts ==> e.Resolve? && e.how.Some? && !Resolved(Fold(log), e.target))
            && DistinctTargets(ResolutionsOf(|log|, drafts))
  {
    var st := Fold(log);
    var drafts := BatchDrafts(env, st, me, batch, key);
    if drafts != [] {
      var items := ReadItems(batch.items).0;
      ReadItemsDistinct(batch.items);
      BatchTargets(env, st, me, batch, key);
      forall e | e in drafts ensures e.Resolve? && e.how.Some? && !Resolved(st, e.target) {
        var i :| 0 <= i < |drafts| && e == drafts[i];
        assert items[i] in items;
        LateIsUnresolved(env, log, items[i].target);
      }
    }
  }

  lemma BatchTargets(env: Env, st: FinishState, me: Seat, batch: Batch, key: string)
    requires AnswerBatch(env, st, me, batch, key).Recorded?
    ensures var items, drafts := ReadItems(batch.items).0, BatchDrafts(env, st, me, batch, key);
            && |drafts| == |items|
            && (forall i :: 0 <= i < |items| ==> drafts[i].Resolve? && drafts[i].how.Some? && drafts[i].target == items[i].target)
            && forall x :: x in items ==> Named(LateNow(env, st), x.target)
  {
  }

  lemma NextKeepsDistinct(s: Reg, a: Act)
    requires DistinctTargets(Fold(s.log).resolutions)
    ensures DistinctTargets(Fold(Next(s, a).log).resolutions)
  {
    OnlyResolvesResolve(s, a);
    if a.Resolves? || a.ResolvesBatch? {
      ResolveDraftsAreFresh(s, a);
      FoldResolves(s.log, Drafts(s, a));
      var was, more := Fold(s.log).resolutions, ResolutionsOf(|s.log|, Drafts(s, a));
      forall r | r in more ensures !exists q :: q in was && q.target == r.target {
        var i :| 0 <= i < |more| && more[i] == r;
        assert Drafts(s, a)[i] in Drafts(s, a);
      }
      DistinctMore(was, more);
    } else {
      OthersLeave(s.log, Drafts(s, a));
    }
  }

  lemma NextKeepsInv(s: Reg, a: Act)
    requires Inv(s)
    ensures Inv(Next(s, a))
  {
    NextKeepsPosts(s, a);
    NextNamesReport(s, a);
    NextKeepsDistinct(s, a);
  }

  lemma NextKeepsPosts(s: Reg, a: Act)
    requires PostsOrdered(s.env.posts)
    ensures PostsOrdered(Next(s, a).env.posts)
  {
  }

  lemma StepKeepsInv(run: Run, i: nat)
    requires IsRun(run) && i < |run.acts| && Inv(run.states[i])
    ensures Inv(run.states[i + 1])
  {
    assert StepAt(run, i);
    NextKeepsInv(run.states[i], run.acts[i]);
  }

  lemma {:induction false} RunKeepsInv(run: Run, i: nat)
    requires IsRun(run) && i < |run.states|
    ensures Inv(run.states[i])
  {
    if i > 0 {
      RunKeepsInv(run, i - 1);
      StepKeepsInv(run, i - 1);
    }
  }

  ghost predicate DistinctRevisions(checks: seq<Checked>) {
    forall i, j :: 0 <= i < j < |checks| ==> checks[i].revision != checks[j].revision
  }

  lemma OnlyChecksCheck(s: Reg, a: Act)
    ensures !a.Checks? ==> forall e :: e in Drafts(s, a) ==> !e.Check?
  {
  }

  lemma CheckKeepsRevisions(log: seq<Event>, seat: Seat, revision: Option<nat>, proceed: bool, run: Option<LineRun>)
    requires DistinctRevisions(Fold(log).checks)
    ensures DistinctRevisions(Fold(log + CheckDraft(Fold(log), seat, revision, proceed, run)).checks)
  {
    var drafts := CheckDraft(Fold(log), seat, revision, proceed, run);
    if drafts == [] {
      assert log + drafts == log;
    } else {
      var e := Check(seat, revision, proceed, run);
      assert drafts == [e];
      FoldAppend(log, e);
      assert Fold(log + [e]).checks == Fold(log).checks + [Checked(|log| + 1, seat, revision.value, proceed, run)];
    }
  }

  lemma NextKeepsRevisions(s: Reg, a: Act)
    requires DistinctRevisions(Fold(s.log).checks)
    ensures DistinctRevisions(Fold(Next(s, a).log).checks)
  {
    OnlyChecksCheck(s, a);
    if !a.Checks? {
      OthersLeave(s.log, Drafts(s, a));
    } else {
      CheckKeepsRevisions(s.log, a.me, a.revision, a.proceed, a.run);
    }
  }

  lemma StepKeepsRevisions(run: Run, i: nat)
    requires IsRun(run) && i < |run.acts| && DistinctRevisions(Fold(run.states[i].log).checks)
    ensures DistinctRevisions(Fold(run.states[i + 1].log).checks)
  {
    assert StepAt(run, i);
    NextKeepsRevisions(run.states[i], run.acts[i]);
  }

  /** Over every run, a revision has one check: every later done at it is judged on the same run. */
  lemma {:induction false} OneCheckPerRevision(run: Run, i: nat)
    requires IsRun(run) && i < |run.states|
    ensures DistinctRevisions(Fold(run.states[i].log).checks)
  {
    if i > 0 {
      OneCheckPerRevision(run, i - 1);
      StepKeepsRevisions(run, i - 1);
    }
  }

  /** Over every run, no late item gets two resolutions. */
  lemma ResolvedExactlyOnce(run: Run, i: nat)
    requires IsRun(run) && i < |run.states|
    ensures DistinctTargets(Fold(run.states[i].log).resolutions)
  {
    RunKeepsInv(run, i);
  }
}
