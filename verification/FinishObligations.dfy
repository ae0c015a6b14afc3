/**
 * Obligations over whole runs: what is late stays late until a resolution
 * names it, through takeovers, republished reports and resumes; a batch of
 * resolutions is recorded whole, once; and objections are discharged by a
 * chain that ends.
 */
module FinishObligations {
  import opened Wrappers
  import opened FinishLog
  import opened FinishActs
  import opened FinishRegister
  import opened FinishRuns

  // --- what is owed ---

  /** Late against a boundary, whoever coordinates. */
  ghost predicate LateAgainst(p: BoardPost, since: Time) {
    p.at > since && p.from != SYSTEM && (p.tag == ResultTag || p.tag == VetoTag) && !Restating(p)
  }

  ghost predicate PostedLate(posts: seq<BoardPost>, since: Time, id: nat) {
    exists p :: p in posts && p.id == id && LateAgainst(p, since)
  }

  ghost predicate AuthorIs(posts: seq<BoardPost>, id: nat, seat: Seat) {
    exists p :: p in posts && p.id == id && p.from == seat
  }

  /** A post the finish still owes an answer, whoever coordinates it: carried, or late against the boundary, and unresolved. */
  ghost predicate Owes(env: Env, st: FinishState, id: nat) {
    && st.lease.Some?
    && !Resolved(st, Post(id))
    && (CarriedId(st.lease.value.carried, id)
        || (st.lease.value.since.Some? && PostedLate(env.posts, st.lease.value.since.value, id)))
  }

  ghost predicate OwesIn(s: Reg, id: nat) {
    Owes(s.env, Fold(s.log), id)
  }

  ghost predicate ResolvedIn(s: Reg, id: nat) {
    Resolved(Fold(s.log), Post(id))
  }

  /** Under a lease whose boundary is set, the late list is what is owed, less the coordinator's own posts that no resume carried. */
  lemma LateIsOwed(s: Reg, id: nat)
    requires Inv(s)
    requires var lease := Fold(s.log).lease; lease.Some? && lease.value.since.Some?
    ensures var lease := Fold(s.log).lease.value;
            (Named(LateNow(s.env, Fold(s.log)), Post(id))
             <==> OwesIn(s, id) && (CarriedId(lease.carried, id) || !AuthorIs(s.env.posts, id, lease.holder)))
  {
    var st := Fold(s.log);
    var lease := st.lease.value;
    FoldIsOrdered(s.log);
    LateItemsMeans(s.env, st, lease.holder, lease.report, Post(id), |s.log|);
    CorrectionIsOwed(s.env.posts, lease.holder, lease.since.value, id);
  }

  lemma CorrectionIsOwed(posts: seq<BoardPost>, holder: Seat, since: Time, id: nat)
    requires PostsOrdered(posts)
    ensures CorrectionId(posts, holder, since, id) <==> PostedLate(posts, since, id) && !AuthorIs(posts, id, holder)
  {
    if CorrectionId(posts, holder, since, id) {
      var p :| p in posts && p.id == id && IsCorrection(p, holder, since) && !Restating(p);
      assert LateAgainst(p, since);
    }
    if PostedLate(posts, since, id) && !AuthorIs(posts, id, holder) {
      var p :| p in posts && p.id == id && LateAgainst(p, since);
      assert IsCorrection(p, holder, since);
    }
  }

  /** Whether an act opens a segment over the lease as it stands (the first lease asked for after a resume). */
  ghost predicate OpensSegment(s: Reg, a: Act) {
    && Fold(s.log).lease.Some?
    && LeaseAfter(s, a).Some?
    && LeaseAfter(s, a).value.segment > Fold(s.log).lease.value.segment
  }

  /** Posted by the time of the run's last resume; any time is, of one that says none. */
  ghost predicate PostedByResume(env: Env, id: nat) {
    env.resumes != [] && env.resumes[|env.resumes| - 1].Some? ==>
      forall p :: p in env.posts && p.id == id ==> p.at <= env.resumes[|env.resumes| - 1].value
  }

  /** Kept by name across the resume: carried already, or another seat's than the coordinator it had, posted by the time of it. */
  ghost predicate KeptByName(s: Reg, id: nat)
    requires Fold(s.log).lease.Some?
  {
    var lease := Fold(s.log).lease.value;
    || CarriedId(lease.carried, id)
    || (&& !AuthorIs(s.env.posts, id, lease.holder)
        && PostedByResume(s.env, id))
  }

  lemma {:induction false} PostTimeIs(posts: seq<BoardPost>, p: BoardPost)
    requires PostsOrdered(posts) && p in posts
    ensures PostTime(posts, p.id) == Some(p.at)
    ensures forall q :: q in posts && q.id == p.id ==> q == p
  {
    var most, last := posts[..|posts| - 1], posts[|posts| - 1];
    var i :| 0 <= i < |posts| && posts[i] == p;
    if i < |posts| - 1 {
      assert most[i] == p;
      PostTimeIs(most, p);
    }
    forall q | q in posts && q.id == p.id ensures q == p {
      var j :| 0 <= j < |posts| && posts[j] == q;
    }
  }

  /** What an opened segment carries: exactly the late posts, carried already or posted by the time of the resume. */
  lemma OpeningCarries(s: Reg, a: Act, id: nat)
    requires OpensSegment(s, a)
    ensures CarriedId(LeaseAfter(s, a).value.carried, id)
       <==> Named(LateNow(s.env, Fold(s.log)), Post(id)) && KeptAcross(s.env, Fold(s.log).lease.value, id)
            && LeaseReport(Fold(s.log)).Some?
  {
    AskedFor(s, a);
    var st := Fold(s.log);
    KeptPostsMeans(s.env, st.lease.value, LateNow(s.env, st), id);
    if a.DoneTurn? {
      AskOpens(s.env, st, a.me, a.path);
    } else {
      AskOpens(s.env, st, a.me, a.path.Or(LeaseReport(st)));
    }
  }

  lemma AskOpens(env: Env, st: FinishState, me: Seat, report: Option<Path>)
    requires st.lease.Some?
    requires var asked := AskLease(env, st, me, report).1;
             asked != [] && FoldLease(st.lease, asked[0]).value.segment > st.lease.value.segment
    ensures FoldLease(st.lease, AskLease(env, st, me, report).1[0]).value.carried == StillLate(env, st)
  {
  }

  /** A segment opened keeps by name every post owed, but the coordinator's own and those posted after the resume. */
  lemma OpeningKeeps(s: Reg, a: Act, id: nat)
    requires Inv(s) && OpensSegment(s, a) && OwesIn(s, id)
    ensures CarriedId(LeaseAfter(s, a).value.carried, id) <==> KeptByName(s, id)
  {
    var st := Fold(s.log);
    var lease := st.lease.value;
    OpeningCarries(s, a, id);
    FoldIsOrdered(s.log);
    LateItemsMeans(s.env, st, lease.holder, lease.report, Post(id), |s.log|);
    if !CarriedId(lease.carried, id) {
      CorrectionIsOwed(s.env.posts, lease.holder, lease.since.value, id);
      var p :| p in s.env.posts && p.id == id && LateAgainst(p, lease.since.value);
      PostTimeIs(s.env.posts, p);
    }
  }

  /** An act forgives a post only by opening a segment that does not keep it by name, past a boundary later than it. */
  ghost predicate Forgives(s: Reg, a: Act, id: nat) {
    && OpensSegment(s, a)
    && !KeptByName(s, id)
    && (LeaseAfter(s, a).value.since.None? || !PostedLate(s.env.posts, LeaseAfter(s, a).value.since.value, id))
  }

  lemma NextPosts(s: Reg, a: Act, since: Time, later: Time, id: nat)
    requires later <= since && PostedLate(s.env.posts, since, id)
    ensures PostedLate(Next(s, a).env.posts, later, id)
  {
    var p :| p in s.env.posts && p.id == id && LateAgainst(p, since);
    assert p in Next(s, a).env.posts && LateAgainst(p, later);
  }

  lemma ResolvedStays(s: Reg, a: Act, t: Target)
    requires Resolved(Fold(s.log), t)
    ensures Resolved(Fold(Next(s, a).log), t)
  {
    FoldOnlyGrows(s.log, Drafts(s, a));
    var was, now := Fold(s.log).resolutions, Fold(Next(s, a).log).resolutions;
    assert was == now[..|was|];
    var r :| r in was && r.target == t;
    assert r in now;
  }

  /** Opening a segment changes nothing but the lease. */
  lemma OpeningOnlyLeases(s: Reg, a: Act)
    requires OpensSegment(s, a)
    ensures Next(s, a).env.posts == s.env.posts
    ensures Fold(Next(s, a).log).resolutions == Fold(s.log).resolutions
  {
    AskedFor(s, a);
    OnlyResolvesResolve(s, a);
    OthersLeave(s.log, Drafts(s, a));
  }

  /** One act: what is owed is owed after it, or resolved by it, unless it is one of the two kinds a resume forgives; then it is neither. */
  lemma OwedStays(s: Reg, a: Act, id: nat)
    requires Inv(s) && OwesIn(s, id)
    ensures OwesIn(Next(s, a), id) || ResolvedIn(Next(s, a), id) <==> !Forgives(s, a, id)
  {
    var was := Fold(s.log).lease.value;
    NextLease(s, a);
    NextFences(s, a);
    var now := LeaseAfter(s, a).value;
    if OpensSegment(s, a) {
      OpeningKeeps(s, a, id);
      OpeningOnlyLeases(s, a);
    } else if !CarriedId(was.carried, id) {
      NextPosts(s, a, was.since.value, now.since.value, id);
    }
  }

  /** Forgiven by an act between two moments of a run. */
  ghost predicate ForgivenBetween(run: Run, i: nat, j: nat, id: nat) {
    exists k: nat :: i <= k < j && ForgivenAt(run, k, id)
  }

  ghost predicate ForgivenAt(run: Run, k: nat, id: nat) {
    k < |run.states| && k < |run.acts| && Forgives(run.states[k], run.acts[k], id)
  }

  lemma ConservedStep(s: Reg, a: Act, id: nat)
    requires Inv(s) && (OwesIn(s, id) || ResolvedIn(s, id))
    ensures OwesIn(Next(s, a), id) || ResolvedIn(Next(s, a), id) || Forgives(s, a, id)
  {
    if ResolvedIn(s, id) {
      ResolvedStays(s, a, Post(id));
    } else {
      OwedStays(s, a, id);
    }
  }

  lemma StepConserves(run: Run, k: nat, id: nat)
    requires IsRun(run) && k < |run.acts| && Inv(run.states[k]) && (OwesIn(run.states[k], id) || ResolvedIn(run.states[k], id))
    ensures OwesIn(run.states[k + 1], id) || ResolvedIn(run.states[k + 1], id) || ForgivenAt(run, k, id)
  {
    assert StepAt(run, k);
    ConservedStep(run.states[k], run.acts[k], id);
  }

  lemma ForgivenLater(run: Run, i: nat, j: nat, k: nat, id: nat)
    requires j <= k && ForgivenBetween(run, i, j, id)
    ensures ForgivenBetween(run, i, k, id)
  {
    var n: nat :| i <= n < j && ForgivenAt(run, n, id);
    assert i <= n < k && ForgivenAt(run, n, id);
  }

  /** Over every run: what was owed at one moment is owed at any later one, or resolved by name, or was forgiven by a resume between. */
  lemma {:induction false} ObligationsConserved(run: Run, i: nat, j: nat, id: nat)
    requires IsRun(run) && i <= j < |run.states| && OwesIn(run.states[i], id)
    ensures OwesIn(run.states[j], id) || ResolvedIn(run.states[j], id) || ForgivenBetween(run, i, j, id)
  {
    if i < j {
      ObligationsConserved(run, i, j - 1, id);
      RunKeepsInv(run, j - 1);
      if ForgivenBetween(run, i, j - 1, id) {
        ForgivenLater(run, i, j - 1, j, id);
      } else {
        StepConserves(run, j - 1, id);
        if ForgivenAt(run, j - 1, id) { assert ForgivenBetween(run, i, j, id); }
      }
    }
  }

  ghost predicate LateAt(run: Run, i: nat, id: nat)
    requires i < |run.states|
  {
    Named(LateNow(run.states[i].env, Fold(run.states[i].log)), Post(id))
  }

  ghost predicate Bounded(lease: Option<LeaseState>) {
    lease.Some? && lease.value.since.Some?
  }

  /**
   * Late at one moment of a run, with the boundary set: late at every later
   * one whose boundary is set, unless a resolution named it, a resume forgave
   * it, or its own author coordinates the finish then.
   */
  lemma LateStaysLate(run: Run, i: nat, j: nat, id: nat)
    requires IsRun(run) && i <= j < |run.states|
    requires Bounded(LeaseAt(run, i)) && LateAt(run, i, id)
    requires Bounded(LeaseAt(run, j))
    requires !ResolvedIn(run.states[j], id) && !ForgivenBetween(run, i, j, id)
    requires !AuthorIs(run.states[j].env.posts, id, LeaseAt(run, j).value.holder)
    ensures LateAt(run, j, id)
  {
    RunKeepsInv(run, i);
    RunKeepsInv(run, j);
    LateIsOwed(run.states[i], id);
    ObligationsConserved(run, i, j, id);
    LateIsOwed(run.states[j], id);
  }

  // --- resolutions ---

  /** A resolution by the seat that coordinates, of an item late then, bound to the report as it is then. */
  ghost predicate ResolvesLate(env: Env, st: FinishState, r: Resolution) {
    && st.lease.Some? && st.lease.value.holder == r.seat
    && Named(LateNow(env, st), r.target)
    && r.digest == ReportDigest(env, st.lease.value.report)
  }

  lemma BatchResolvesLate(env: Env, st: FinishState, me: Seat, batch: Batch, key: string, k: nat)
    requires k < |BatchDrafts(env, st, me, batch, key)|
    ensures var e := BatchDrafts(env, st, me, batch, key)[k];
            && e.Resolve? && st.lease.Some? && st.lease.value.holder == e.seat
            && Named(LateNow(env, st), e.target) && e.digest == ReportDigest(env, st.lease.value.report)
  {
    var items := ReadItems(batch.items).0;
    BatchTargets(env, st, me, batch, key);
    assert items[k] in items;
  }

  lemma DraftResolvesLate(s: Reg, a: Act, k: nat)
    requires (a.Resolves? || a.ResolvesBatch?) && k < |Drafts(s, a)|
    requires forall e :: e in Drafts(s, a) ==> e.Resolve? && e.how.Some?
    ensures ResolvesLate(s.env, Fold(s.log), ResolutionsOf(|s.log|, Drafts(s, a))[k])
  {
    var r := ResolutionsOf(|s.log|, Drafts(s, a))[k];
    assert r.seat == Drafts(s, a)[k].seat && r.target == Drafts(s, a)[k].target && r.digest == Drafts(s, a)[k].digest;
    if a.ResolvesBatch? {
      BatchResolvesLate(s.env, Fold(s.log), a.me, a.batch, a.key, k);
    }
  }

  lemma NextResolvesLate(s: Reg, a: Act, r: Resolution)
    requires r in Fold(Next(s, a).log).resolutions && r !in Fold(s.log).resolutions
    ensures ResolvesLate(s.env, Fold(s.log), r)
  {
    OnlyResolvesResolve(s, a);
    if a.Resolves? || a.ResolvesBatch? {
      ResolveDraftsAreFresh(s, a);
      FoldResolves(s.log, Drafts(s, a));
      var more := ResolutionsOf(|s.log|, Drafts(s, a));
      assert r in more;
      var k: nat :| k < |more| && more[k] == r;
      DraftResolvesLate(s, a, k);
    } else {
      OthersLeave(s.log, Drafts(s, a));
    }
  }

  /** Over every run, whatever resolves an item is its coordinator's, while it is late, bound to the report's digest. */
  lemma ResolutionIsTheCoordinators(run: Run, i: nat, r: Resolution)
    requires IsRun(run) && i < |run.acts|
    requires r in Fold(run.states[i + 1].log).resolutions && r !in Fold(run.states[i].log).resolutions
    ensures ResolvesLate(run.states[i].env, Fold(run.states[i].log), r)
  {
    assert StepAt(run, i);
    NextResolvesLate(run.states[i], run.acts[i], r);
  }

  // --- batches ---

  ghost predicate ItemsOf(items: seq<Item>, resolutions: seq<Resolution>) {
    |items| == |resolutions| && forall i :: 0 <= i < |items| ==> Answers(items[i], resolutions[i])
  }

  lemma {:induction false} PriorAppend(was: seq<Resolution>, more: seq<Resolution>, me: Seat, key: string)
    ensures Prior(was + more, me, key) == Prior(was, me, key) + Prior(more, me, key)
  {
    if more == [] {
      assert was + more == was;
      assert Prior(was, me, key) + Prior(more, me, key) == Prior(was, me, key);
    } else {
      var most, r := more[..|more| - 1], more[|more| - 1];
      PriorAppend(was, most, me, key);
      assert was + more == was + most + [r];
      assert (was + most + [r])[..|was + most|] == was + most;
      if r.batch == Some(key) && r.seat == me {
        assert Prior(was, me, key) + Prior(more, me, key) == Prior(was, me, key) + Prior(most, me, key) + [r];
      }
    }
  }

  lemma {:induction false} PriorAll(rs: seq<Resolution>, me: Seat, key: string)
    ensures (forall r :: r in rs ==> r.batch == Some(key) && r.seat == me) ==> Prior(rs, me, key) == rs
    ensures (forall r :: r in rs ==> !(r.batch == Some(key) && r.seat == me)) ==> Prior(rs, me, key) == []
    ensures forall r :: r in Prior(rs, me, key) ==> r in rs
  {
    if rs != [] {
      PriorAll(rs[..|rs| - 1], me, key);
      assert rs == rs[..|rs| - 1] + [rs[|rs| - 1]];
    }
  }

  /** A batch's events are its items, in order, under its key. */
  lemma BatchIsRecorded(s: Reg, me: Seat, batch: Batch, key: string)
    requires AnswerBatch(s.env, Fold(s.log), me, batch, key).Recorded?
    ensures var items := ReadItems(batch.items).0;
            var now := Fold(s.log + BatchDrafts(s.env, Fold(s.log), me, batch, key));
            var was := Fold(s.log);
            && |items| == |batch.items|
            && now == was.(resolutions := now.resolutions)
            && was.resolutions <= now.resolutions
            && ItemsOf(items, now.resolutions[|was.resolutions|..])
            && Prior(now.resolutions, me, key) == now.resolutions[|was.resolutions|..]
  {
    var st := Fold(s.log);
    var drafts := BatchDrafts(s.env, st, me, batch, key);
    ReadItemsWhole(batch.items);
    var more := ResolutionsOf(|s.log|, drafts);
    DraftsAreItems(s.env, s.log, me, batch, key);
    AppendedAfter(s.log, drafts);
    PriorIsNew(st.resolutions, more, me, key);
  }

  lemma DraftsAreItems(env: Env, log: seq<Event>, me: Seat, batch: Batch, key: string)
    requires AnswerBatch(env, Fold(log), me, batch, key).Recorded?
    ensures var drafts := BatchDrafts(env, Fold(log), me, batch, key);
            && (forall e :: e in drafts ==> e.Resolve? && e.how.Some?)
            && ItemsOf(ReadItems(batch.items).0, ResolutionsOf(|log|, drafts))
            && forall r :: r in ResolutionsOf(|log|, drafts) ==> r.batch == Some(key) && r.seat == me
  {
    DraftsOfItems(env, Fold(log), me, batch, key);
    EventsAreItems(|log|, ReadItems(batch.items).0, BatchDrafts(env, Fold(log), me, batch, key), me, key);
  }

  predicate EventOf(e: Event, x: Item, me: Seat, key: string) {
    && e.Resolve? && e.seat == me && e.target == x.target && e.how == Some(x.how) && e.why == x.words && e.batch == Some(key)
  }

  lemma DraftsOfItems(env: Env, st: FinishState, me: Seat, batch: Batch, key: string)
    requires AnswerBatch(env, st, me, batch, key).Recorded?
    ensures var items, drafts := ReadItems(batch.items).0, BatchDrafts(env, st, me, batch, key);
            |drafts| == |items| && forall i :: 0 <= i < |items| ==> EventOf(drafts[i], items[i], me, key)
  {
  }

  lemma EventsAreItems(n: nat, items: seq<Item>, drafts: seq<Event>, me: Seat, key: string)
    requires |drafts| == |items| && forall i :: 0 <= i < |items| ==> EventOf(drafts[i], items[i], me, key)
    ensures forall e :: e in drafts ==> e.Resolve? && e.how.Some?
    ensures ItemsOf(items, ResolutionsOf(n, drafts))
    ensures forall r :: r in ResolutionsOf(n, drafts) ==> r.batch == Some(key) && r.seat == me
  {
    forall e | e in drafts ensures e.Resolve? && e.how.Some? {
      var i :| 0 <= i < |drafts| && drafts[i] == e;
      assert EventOf(drafts[i], items[i], me, key);
    }
    var rs := ResolutionsOf(n, drafts);
    forall i | 0 <= i < |items| ensures Answers(items[i], rs[i]) && rs[i].batch == Some(key) && rs[i].seat == me {
      assert EventOf(drafts[i], items[i], me, key);
    }
  }

  lemma AppendedAfter(log: seq<Event>, drafts: seq<Event>)
    requires forall e :: e in drafts ==> e.Resolve? && e.how.Some?
    ensures var was, now := Fold(log), Fold(log + drafts);
            && now == was.(resolutions := now.resolutions)
            && now.resolutions == was.resolutions + ResolutionsOf(|log|, drafts)
            && now.resolutions[|was.resolutions|..] == ResolutionsOf(|log|, drafts)
  {
    FoldResolves(log, drafts);
  }

  lemma PriorIsNew(was: seq<Resolution>, more: seq<Resolution>, me: Seat, key: string)
    requires Prior(was, me, key) == [] && forall r :: r in more ==> r.batch == Some(key) && r.seat == me
    ensures Prior(was + more, me, key) == more
  {
    PriorAppend(was, more, me, key);
    PriorAll(more, me, key);
    assert [] + more == more;
  }

  /** A batch records all its items, and what is late after it is what was late less exactly them; or it records nothing. */
  lemma BatchShrinksLate(s: Reg, me: Seat, batch: Batch, key: string, t: Target)
    requires AnswerBatch(s.env, Fold(s.log), me, batch, key).Recorded?
    ensures var items := ReadItems(batch.items).0;
            var now := Fold(s.log + BatchDrafts(s.env, Fold(s.log), me, batch, key));
            && (ItemNamed(items, t) ==> Named(LateNow(s.env, Fold(s.log)), t))
            && (Named(LateNow(s.env, now), t) <==> Named(LateNow(s.env, Fold(s.log)), t) && !ItemNamed(items, t))
  {
    var st := Fold(s.log);
    var items := ReadItems(batch.items).0;
    var log := s.log + BatchDrafts(s.env, st, me, batch, key);
    var now := Fold(log);
    BatchIsRecorded(s, me, batch, key);
    FoldIsOrdered(s.log);
    FoldIsOrdered(log);
    LateItemsMeans(s.env, st, st.lease.value.holder, st.lease.value.report, t, |s.log|);
    LateItemsMeans(s.env, now, now.lease.value.holder, now.lease.value.report, t, |log|);
    ResolvedByBatch(st.resolutions, now.resolutions, items, st, now, t);
    LateLess(s.env, st, now, st.lease.value.holder, st.lease.value.report, items, t);
    if ItemNamed(items, t) { assert Named(LateNow(s.env, st), t); }
  }

  /** With more resolved and nothing else changed, what is late is what was less what the items name. */
  lemma LateLess(env: Env, st: FinishState, now: FinishState, holder: Seat, report: Option<Path>, items: seq<Item>, t: Target)
    requires now == st.(resolutions := now.resolutions)
    requires Resolved(now, t) <==> Resolved(st, t) || ItemNamed(items, t)
    ensures IsLate(env, now, holder, report, t) <==> IsLate(env, st, holder, report, t) && !ItemNamed(items, t)
  {
    if t.Objected? {
      forall a | a in st.acks && a.num == t.num
        ensures OpenObjection(now, a) <==> OpenObjection(st, a) && !ItemNamed(items, t)
      {
      }
    }
  }

  lemma ResolvedByBatch(was: seq<Resolution>, all: seq<Resolution>, items: seq<Item>, st: FinishState, now: FinishState, t: Target)
    requires st.resolutions == was && now.resolutions == all && was <= all && ItemsOf(items, all[|was|..])
    ensures Resolved(now, t) <==> Resolved(st, t) || ItemNamed(items, t)
  {
    var more := all[|was|..];
    assert all == was + more;
    if ItemNamed(items, t) {
      var i :| 0 <= i < |items| && items[i].target == t;
      assert more[i] in all;
    }
    if Resolved(st, t) {
      var r :| r in was && r.target == t;
      assert r in all;
    }
    if Resolved(now, t) && !Resolved(st, t) {
      var r :| r in all && r.target == t;
      var i :| 0 <= i < |more| && more[i] == r;
      assert items[i] in items;
    }
  }

  function Targets(items: seq<Item>): set<Target> {
    set x | x in items :: x.target
  }

  function ResolvedTargets(rs: seq<Resolution>): set<Target> {
    set r | r in rs :: r.target
  }

  lemma {:induction false} TargetsCount(items: seq<Item>)
    requires DistinctItems(items)
    ensures |Targets(items)| == |items|
  {
    if items != [] {
      var most, x := items[..|items| - 1], items[|items| - 1];
      TargetsCount(most);
      assert Targets(items) == Targets(most) + {x.target} by { assert items == most + [x]; }
    }
  }

  lemma {:induction false} ResolvedTargetsCount(rs: seq<Resolution>)
    requires DistinctTargets(rs)
    ensures |ResolvedTargets(rs)| == |rs|
  {
    if rs != [] {
      var most, r := rs[..|rs| - 1], rs[|rs| - 1];
      ResolvedTargetsCount(most);
      assert ResolvedTargets(rs) == ResolvedTargets(most) + {r.target} by { assert rs == most + [r]; }
    }
  }

  lemma SubsetOfSameSize<T>(a: set<T>, b: set<T>)
    requires a <= b && |a| == |b|
    ensures a == b
  {
    if a != b {
      var x :| x in b && x !in a;
      assert a <= b - {x};
      SubsetIsSmaller(a, b - {x});
    }
  }

  ghost predicate EachAmong(prior: seq<Resolution>, items: seq<Item>) {
    forall p :: p in prior ==> exists x :: x in items && Answers(x, p)
  }

  ghost predicate EachRecorded(items: seq<Item>, prior: seq<Resolution>) {
    forall x :: x in items ==> exists p :: p in prior && Answers(x, p)
  }

  lemma AmongTargets(prior: seq<Resolution>, items: seq<Item>)
    ensures EachAmong(prior, items) ==> ResolvedTargets(prior) <= Targets(items)
    ensures EachRecorded(items, prior) ==> Targets(items) <= ResolvedTargets(prior)
  {
    if EachAmong(prior, items) {
      forall t | t in ResolvedTargets(prior) ensures t in Targets(items) {
        var p :| p in prior && p.target == t;
        var x :| x in items && Answers(x, p);
      }
    }
    if EachRecorded(items, prior) {
      forall t | t in Targets(items) ensures t in ResolvedTargets(prior) {
        var x :| x in items && x.target == t;
        var p :| p in prior && Answers(x, p);
      }
    }
  }

  /** As many, and each recorded one among them, is the same batch: because no item is named twice. */
  lemma SameBatchIsSetEquality(prior: seq<Resolution>, items: seq<Item>)
    requires DistinctTargets(prior) && DistinctItems(items)
    ensures SameBatch(prior, items) <==> EachAmong(prior, items) && EachRecorded(items, prior)
  {
    TargetsCount(items);
    ResolvedTargetsCount(prior);
    AmongTargets(prior, items);
    if EachAmong(prior, items) && EachRecorded(items, prior) {
      assert ResolvedTargets(prior) == Targets(items);
    }
    if SameBatch(prior, items) {
      SubsetOfSameSize(ResolvedTargets(prior), Targets(items));
      forall x | x in items ensures exists p :: p in prior && Answers(x, p) {
        assert x.target in ResolvedTargets(prior);
        var p :| p in prior && p.target == x.target;
        var y :| y in items && Answers(y, p);
        assert y == x;
      }
    }
  }

  /** A seat's resolutions under a key, once there are any, are never added to. */
  lemma PriorIsOld(was: seq<Resolution>, log: seq<Event>, drafts: seq<Event>, me: Seat, key: string)
    requires forall e :: e in drafts ==> e.Resolve? && e.how.Some? && !(e.batch == Some(key) && e.seat == me)
    ensures Prior(was + ResolutionsOf(|log|, drafts), me, key) == Prior(was, me, key)
  {
    var more := ResolutionsOf(|log|, drafts);
    PriorAppend(was, more, me, key);
    forall r | r in more ensures !(r.batch == Some(key) && r.seat == me) {
      var i :| 0 <= i < |more| && more[i] == r;
      assert drafts[i] in drafts;
    }
    PriorAll(more, me, key);
  }

  /** Once a seat has recorded under a key, it resolves nothing more under it. */
  lemma DraftsNotUnder(s: Reg, a: Act, me: Seat, key: string)
    requires (a.Resolves? || a.ResolvesBatch?) && Prior(Fold(s.log).resolutions, me, key) != []
    ensures forall e :: e in Drafts(s, a) ==> e.Resolve? && e.how.Some? && !(e.batch == Some(key) && e.seat == me)
  {
    if a.ResolvesBatch? && Drafts(s, a) != [] {
      var drafts := BatchDrafts(s.env, Fold(s.log), a.me, a.batch, a.key);
      assert a.me != me || a.key != key;
      forall e | e in drafts ensures e.Resolve? && e.how.Some? && !(e.batch == Some(key) && e.seat == me) {
        var i :| 0 <= i < |drafts| && drafts[i] == e;
      }
    }
  }

  lemma PriorStays(s: Reg, a: Act, me: Seat, key: string)
    requires Prior(Fold(s.log).resolutions, me, key) != []
    ensures Prior(Fold(Next(s, a).log).resolutions, me, key) == Prior(Fold(s.log).resolutions, me, key)
  {
    var st := Fold(s.log);
    OnlyResolvesResolve(s, a);
    if a.Resolves? || a.ResolvesBatch? {
      DraftsNotUnder(s, a, me, key);
      FoldResolves(s.log, Drafts(s, a));
      PriorIsOld(st.resolutions, s.log, Drafts(s, a), me, key);
    } else {
      OthersLeave(s.log, Drafts(s, a));
    }
  }

  /** What a seat has recorded under a key by a moment of a run. */
  function PriorAt(run: Run, i: nat, me: Seat, key: string): seq<Resolution>
    requires i < |run.states|
  {
    Prior(Fold(run.states[i].log).resolutions, me, key)
  }

  lemma StepKeepsPrior(run: Run, i: nat, me: Seat, key: string)
    requires IsRun(run) && i < |run.acts| && PriorAt(run, i, me, key) != []
    ensures PriorAt(run, i + 1, me, key) == PriorAt(run, i, me, key)
  {
    assert StepAt(run, i);
    PriorStays(run.states[i], run.acts[i], me, key);
  }

  lemma {:induction false} PriorStaysThroughout(run: Run, i: nat, j: nat, me: Seat, key: string)
    requires IsRun(run) && i <= j < |run.states|
    requires PriorAt(run, i, me, key) != []
    ensures PriorAt(run, j, me, key) == PriorAt(run, i, me, key)
  {
    if i < j {
      PriorStaysThroughout(run, i, j - 1, me, key);
      StepKeepsPrior(run, j - 1, me, key);
    }
  }

  ghost predicate SameItems(xs: seq<Item>, ys: seq<Item>) {
    forall x :: x in xs <==> x in ys
  }

  lemma ItemsOfSameItems(items: seq<Item>, prior: seq<Resolution>, others: seq<Item>)
    requires ItemsOf(items, prior)
    ensures EachAmong(prior, others) && EachRecorded(others, prior) <==> SameItems(items, others)
  {
    if EachAmong(prior, others) && EachRecorded(others, prior) {
      forall x | x in items ensures x in others {
        var i :| 0 <= i < |items| && items[i] == x;
        assert prior[i] in prior;
      }
      forall x | x in others ensures x in items {
        var p :| p in prior && Answers(x, p);
        var i :| 0 <= i < |prior| && prior[i] == p;
        assert items[i] == x;
      }
    }
    if SameItems(items, others) {
      forall p | p in prior ensures exists x :: x in others && Answers(x, p) {
        var i :| 0 <= i < |prior| && prior[i] == p;
        assert items[i] in others;
      }
      forall x | x in others ensures exists p :: p in prior && Answers(x, p) {
        var i :| 0 <= i < |items| && items[i] == x;
        assert prior[i] in prior;
      }
    }
  }

  /** How a batch is answered while its key was recorded before: by what was recorded, whoever holds the lease. */
  lemma RecordedKeyAnswers(env: Env, st: FinishState, me: Seat, key: string, items: seq<Item>, again: Batch)
    requires WellFormed(again) && items != []
    requires ItemsOf(items, Prior(st.resolutions, me, key)) && DistinctTargets(Prior(st.resolutions, me, key))
    ensures AnswerBatch(env, st, me, again, key)
         == if SameItems(items, ReadItems(again.items).0) then Replayed(Prior(st.resolutions, me, key)) else OtherBatch
  {
    var prior, others := Prior(st.resolutions, me, key), ReadItems(again.items).0;
    ReadItemsDistinct(again.items);
    SameBatchIsSetEquality(prior, others);
    ItemsOfSameItems(items, prior, others);
  }

  lemma TailIsDistinct(all: seq<Resolution>, n: nat)
    requires n <= |all| && DistinctTargets(all)
    ensures DistinctTargets(all[n..])
  {
    assert forall i :: 0 <= i < |all[n..]| ==> all[n..][i] == all[n + i];
  }

  lemma NextRecordsBatch(s: Reg, me: Seat, batch: Batch, key: string)
    requires Inv(s)
    requires AnswerBatch(s.env, Fold(s.log), me, batch, key).Recorded?
    ensures var prior := Prior(Fold(Next(s, ResolvesBatch(me, batch, key)).log).resolutions, me, key);
            prior != [] && ItemsOf(ReadItems(batch.items).0, prior) && DistinctTargets(prior)
  {
    var act := ResolvesBatch(me, batch, key);
    var s1 := Next(s, act);
    assert s1.log == s.log + BatchDrafts(s.env, Fold(s.log), me, batch, key);
    BatchIsRecorded(s, me, batch, key);
    NextKeepsDistinct(s, act);
    TailIsDistinct(Fold(s1.log).resolutions, |Fold(s.log).resolutions|);
  }

  lemma StepRecordsBatch(run: Run, i: nat, me: Seat, batch: Batch, key: string)
    requires IsRun(run) && i < |run.acts| && run.acts[i] == ResolvesBatch(me, batch, key)
    requires AnswerBatch(run.states[i].env, Fold(run.states[i].log), me, batch, key).Recorded?
    ensures var prior := PriorAt(run, i + 1, me, key);
            prior != [] && ItemsOf(ReadItems(batch.items).0, prior) && DistinctTargets(prior)
  {
    RunKeepsInv(run, i);
    assert StepAt(run, i);
    NextRecordsBatch(run.states[i], me, batch, key);
  }

  /**
   * A batch recorded, then sent again under its key at any later moment of the
   * run, whoever holds the lease: nothing is recorded; the same items are
   * answered with what was recorded, other items are refused.
   */
  lemma ResendRecordsNothing(run: Run, i: nat, j: nat, me: Seat, batch: Batch, key: string, again: Batch)
    requires IsRun(run) && i < j < |run.states| && run.acts[i] == ResolvesBatch(me, batch, key)
    requires AnswerBatch(run.states[i].env, Fold(run.states[i].log), me, batch, key).Recorded?
    requires WellFormed(again)
    ensures var items, later := ReadItems(batch.items).0, run.states[j];
            var reply := AnswerBatch(later.env, Fold(later.log), me, again, key);
            && BatchDrafts(later.env, Fold(later.log), me, again, key) == []
            && (SameItems(items, ReadItems(again.items).0) ==> reply.Replayed? && ItemsOf(items, reply.prior))
            && (!SameItems(items, ReadItems(again.items).0) ==> reply == OtherBatch)
  {
    var later := run.states[j];
    StepRecordsBatch(run, i, me, batch, key);
    PriorStaysThroughout(run, i + 1, j, me, key);
    RecordedKeyAnswers(later.env, Fold(later.log), me, key, ReadItems(batch.items).0, again);
  }

  // --- the discharge of objections ---

  /** What ends a chain: an ack of no objection, or an objection a resolution names. */
  ghost predicate Ends(st: FinishState, a: FinishAck) {
    a.verdict == NoObjection || Resolved(st, Objected(a.num))
  }

  /** A rising chain of one seat's acks, each answering the objection before it, to one that ends it. */
  ghost predicate DischargeChain(st: FinishState, chain: seq<FinishAck>) {
    && chain != []
    && (forall i :: 0 <= i < |chain| ==> chain[i] in st.acks)
    && (forall i :: 0 <= i < |chain| - 1 ==>
          && chain[i].seat == chain[i + 1].seat && chain[i].num < chain[i + 1].num
          && chain[i].verdict == Objection && AnswersObjection(chain[i + 1], chain[i]))
    && Ends(st, chain[|chain| - 1])
  }

  ghost predicate Discharged(st: FinishState, a: FinishAck) {
    exists chain :: DischargeChain(st, chain) && chain[0] == a
  }

  lemma ChainOnto(st: FinishState, a: FinishAck, rest: seq<FinishAck>)
    requires DischargeChain(st, rest) && a in st.acks && a.verdict == Objection
    requires rest[0].seat == a.seat && rest[0].num > a.num && AnswersObjection(rest[0], a)
    ensures DischargeChain(st, [a] + rest)
  {
    var chain := [a] + rest;
    forall i | 0 <= i < |chain| - 1
      ensures && chain[i].seat == chain[i + 1].seat && chain[i].num < chain[i + 1].num
              && chain[i].verdict == Objection && AnswersObjection(chain[i + 1], chain[i])
    {
      if i > 0 { assert chain[i] == rest[i - 1] && chain[i + 1] == rest[i]; }
    }
  }

  lemma {:induction false} NotOpenIsDischarged(st: FinishState, a: FinishAck, n: nat)
    requires forall b :: b in st.acks ==> b.num <= n && !OpenObjection(st, b)
    requires a in st.acks
    ensures Discharged(st, a)
    decreases n - a.num
  {
    if Ends(st, a) {
      assert DischargeChain(st, [a]);
    } else {
      var b :| b in st.acks && b.seat == a.seat && b.num > a.num && AnswersObjection(b, a);
      NotOpenIsDischarged(st, b, n);
      var rest :| DischargeChain(st, rest) && rest[0] == b;
      ChainOnto(st, a, rest);
      assert ([a] + rest)[0] == a;
    }
  }

  lemma DischargedIsNotOpen(st: FinishState, a: FinishAck)
    requires Discharged(st, a)
    ensures !OpenObjection(st, a)
  {
    var chain :| DischargeChain(st, chain) && chain[0] == a;
    if |chain| > 1 {
      assert chain[1] in st.acks && AnswersObjection(chain[1], chain[0]);
    }
  }

  /** No objection is late exactly when each leads, by its seat's own later acks, to an end. */
  lemma NoneLateIffDischarged(env: Env, log: seq<Event>, coordinator: Seat, report: Path)
    ensures (forall x :: x in LateItems(env, Fold(log), coordinator, Some(report)) ==> !x.target.Objected?)
       <==> forall a :: a in Fold(log).acks && a.verdict == Objection ==> Discharged(Fold(log), a)
  {
    var st := Fold(log);
    var late := LateItems(env, st, coordinator, Some(report));
    FoldIsOrdered(log);
    if forall x :: x in late ==> !x.target.Objected? {
      forall a | a in st.acks ensures !OpenObjection(st, a) {
        LateItemsMeans(env, st, coordinator, Some(report), Objected(a.num), |log|);
      }
      forall a | a in st.acks && a.verdict == Objection ensures Discharged(st, a) {
        NotOpenIsDischarged(st, a, |log|);
      }
    }
    if forall a :: a in st.acks && a.verdict == Objection ==> Discharged(st, a) {
      forall x | x in late ensures !x.target.Objected? {
        LateItemsMeans(env, st, coordinator, Some(report), x.target, |log|);
        assert Named(late, x.target);
        forall a | a in st.acks && a.verdict == Objection ensures !OpenObjection(st, a) {
          DischargedIsNotOpen(st, a);
        }
      }
    }
  }

  ghost predicate SectionNamed(a: FinishAck) {
    a.sections.Some? && !a.whole
  }

  /** Along a chain of section-named acks, the last reviewed every section the first objected to. */
  lemma {:induction false} ChainKeepsSections(st: FinishState, chain: seq<FinishAck>)
    requires DischargeChain(st, chain) && forall i :: 0 <= i < |chain| ==> SectionNamed(chain[i])
    ensures var end := chain[|chain| - 1];
            SectionNamed(chain[0]) && SectionNamed(end) && chain[0].sections.value.Keys <= end.sections.value.Keys
    ensures chain[0].num <= chain[|chain| - 1].num && chain[0].seat == chain[|chain| - 1].seat
    decreases |chain|
  {
    assert SectionNamed(chain[0]) && SectionNamed(chain[|chain| - 1]);
    if |chain| > 1 {
      assert SectionNamed(chain[1]);
      var rest := chain[1..];
      assert forall i :: 0 <= i < |rest| ==> rest[i] == chain[i + 1];
      ChainKeepsSections(st, rest);
      assert AnswersObjection(chain[1], chain[0]);
    }
  }
}
