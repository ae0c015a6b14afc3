/**
 * What each act on the register leaves, by the fields of its own request
 * (extensions/finish.ts): whom the finish goes to and its boundary, the ack
 * recorded and what it makes late, the posts that become late as they land,
 * and whose each late item is said to be. Over every step of every run.
 */
module ActOutcomes {
  import opened Wrappers
  import opened FinishLog
  import opened FinishActs
  import opened FinishRegister
  import opened FinishRuns
  import opened FinishObligations

  // --- the lease asked for ---

  /** The register has no lease, or one of a segment before the last resume. */
  predicate NewSegment(env: Env, was: Option<LeaseState>) {
    was.None? || |env.resumes| > was.value.segment
  }

  /** Whom a segment's first lease goes to: its last publisher, when that seat can act; the seat asking otherwise. */
  predicate GoesTo(env: Env, me: Seat, report: Option<Path>, holder: Seat) {
    var published := report.Some? && report.value in env.publishers && env.publishers[report.value] !in env.unavailable;
    && (published ==> holder == env.publishers[report.value])
    && (!published ==> holder == me)
  }

  /** The lease an asking leaves, field by field. */
  ghost predicate AskedLease(env: Env, was: Option<LeaseState>, me: Seat, path: Option<Path>, now: LeaseState) {
    if NewSegment(env, was) then
      && now.report == path.Or(if was.Some? then was.value.report else None)
      && GoesTo(env, me, now.report, now.holder)
      && now.since == WrittenAt(env, now.report)
      && now.segment == |env.resumes|
      && now.generation == (if was.Some? then was.value.generation + 1 else 1)
    else if was.value.holder != me && was.value.holder !in env.unavailable then now == was.value
    else
      && now.holder == me && now.report == path.Or(was.value.report)
      && now.since == was.value.since.Or(WrittenAt(env, now.report))
      && now.segment == was.value.segment && now.carried == was.value.carried
      && now.generation == was.value.generation + if was.value.holder == me then 0 else 1
  }

  lemma FirstAsking(env: Env, st: FinishState, me: Seat, path: Option<Path>)
    requires !env.finished && st.lease.None?
    ensures var asked := AskLease(env, st, me, path).1;
            && |asked| == 1 && asked[0].Lease? && FoldLease(None, asked[0]).Some?
            && AskedLease(env, None, me, path, FoldLease(None, asked[0]).value)
  {
  }

  lemma SegmentAsking(env: Env, st: FinishState, me: Seat, path: Option<Path>)
    requires !env.finished && st.lease.Some? && |env.resumes| > st.lease.value.segment
    ensures var asked := AskLease(env, st, me, path).1;
            && |asked| == 1 && asked[0].Lease? && FoldLease(st.lease, asked[0]).Some?
            && AskedLease(env, st.lease, me, path, FoldLease(st.lease, asked[0]).value)
  {
  }

  lemma LaterAsking(env: Env, st: FinishState, me: Seat, path: Option<Path>)
    requires !env.finished && st.lease.Some? && |env.resumes| <= st.lease.value.segment
    ensures var asked := AskLease(env, st, me, path).1;
            && |asked| <= 1 && (asked != [] ==> asked[0].Lease? && FoldLease(st.lease, asked[0]).Some?)
            && AskedLease(env, st.lease, me, path, if asked == [] then st.lease.value else FoldLease(st.lease, asked[0]).value)
  {
  }

  lemma Asking(env: Env, st: FinishState, me: Seat, path: Option<Path>)
    requires !env.finished
    ensures var asked := AskLease(env, st, me, path).1;
            && |asked| <= 1 && (asked != [] ==> asked[0].Lease?)
            && var now := if asked == [] then st.lease else FoldLease(st.lease, asked[0]);
               now.Some? && AskedLease(env, st.lease, me, path, now.value)
  {
    if st.lease.None? { FirstAsking(env, st, me, path); }
    else if |env.resumes| > st.lease.value.segment { SegmentAsking(env, st, me, path); }
    else { LaterAsking(env, st, me, path); }
  }

  /** The report the asking is for. */
  function AskedPath(s: Reg, a: Act): Option<Path>
    requires a.DoneTurn? || a.Prepares?
  {
    if a.DoneTurn? then a.path else a.path.Or(LeaseReport(Fold(s.log)))
  }

  /** Whether the act asks: a done always, a prepare on a report that exists; neither once the run has ended. */
  predicate Asks(s: Reg, a: Act) {
    !s.env.finished && (a.DoneTurn? || (a.Prepares? && ReportDigest(s.env, a.path.Or(LeaseReport(Fold(s.log)))).Some?))
  }

  /**
   * Over every run, a done's or a prepare's asking leaves the lease field by
   * field as said: whom a segment's first goes to, and its boundary, which is
   * when the report was last written then; and the boundary a lease has, kept.
   */
  lemma AskingLeaves(run: Run, i: nat)
    requires IsRun(run) && i < |run.acts| && Asks(run.states[i], run.acts[i])
    ensures LeaseAt(run, i + 1).Some?
    ensures AskedLease(run.states[i].env, LeaseAt(run, i), run.acts[i].me, AskedPath(run.states[i], run.acts[i]), LeaseAt(run, i + 1).value)
  {
    var s, a := run.states[i], run.acts[i];
    assert StepAt(run, i);
    NextLease(s, a);
    Asking(s.env, Fold(s.log), a.me, AskedPath(s, a));
  }

  /** So whoever is told the finish is its own, on a report that exists, has a boundary from then on. */
  lemma HolderHasBoundary(run: Run, i: nat)
    requires IsRun(run) && i < |run.acts| && Asks(run.states[i], run.acts[i])
    requires LeaseAt(run, i + 1).Some? ==>
               var now := LeaseAt(run, i + 1).value;
               now.holder == run.acts[i].me && now.report.Some? && now.report.value in run.states[i].env.reports
    ensures LeaseAt(run, i + 1).Some? && LeaseAt(run, i + 1).value.since.Some?
    ensures NewSegment(run.states[i].env, LeaseAt(run, i)) || LeaseAt(run, i).value.since.None? ==>
              LeaseAt(run, i + 1).value.since.value == run.states[i].env.reports[LeaseAt(run, i + 1).value.report.value].writtenAt
  {
    AskingLeaves(run, i);
  }

  // --- a post as it lands ---

  /** A post that calls for an answer against a boundary, by its own fields. */
  predicate CallsForAnswer(p: BoardPost, holder: Seat, since: Time) {
    && (p.tag == VetoTag || (p.tag == ResultTag && !p.restates))
    && p.from != holder && p.from != SYSTEM && p.at > since
  }

  ghost predicate LateIn(s: Reg, t: Target) {
    Named(LateNow(s.env, Fold(s.log)), t)
  }

  lemma LateInMeans(s: Reg, t: Target)
    requires Fold(s.log).lease.Some?
    ensures var lease := Fold(s.log).lease.value;
            LateIn(s, t) <==> IsLate(s.env, Fold(s.log), lease.holder, lease.report, t)
  {
    var lease := Fold(s.log).lease.value;
    FoldIsOrdered(s.log);
    LateItemsMeans(s.env, Fold(s.log), lease.holder, lease.report, t, |s.log|);
  }

  /** What is late is read against the boundary set, or else the last write of the report; from the start where there is no such report. */
  predicate ReadAgainst(env: Env, lease: LeaseState, since: Time) {
    if lease.since.Some? then lease.since == Some(since)
    else if lease.report.Some? && lease.report.value in env.reports then since == env.reports[lease.report.value].writtenAt
    else since == 0
  }

  /**
   * Over every run, a post that lands is late at once if and only if it calls
   * for an answer; under a set boundary that is the lease's, and republishing
   * the report beforehand changes nothing.
   */
  lemma LandingIsLate(run: Run, i: nat, since: Time)
    requires IsRun(run) && i < |run.acts| && run.acts[i].PostLands? && Fresh(run.states[i].env.posts, run.acts[i].post)
    requires LeaseAt(run, i).Some? && LeaseAt(run, i).value.report.Some? && ReadAgainst(run.states[i].env, LeaseAt(run, i).value, since)
    requires var st := Fold(run.states[i].log); var id := run.acts[i].post.id;
             !Resolved(st, Post(id)) && !CarriedId(st.lease.value.carried, id)
    ensures LateIn(run.states[i + 1], Post(run.acts[i].post.id)) <==> CallsForAnswer(run.acts[i].post, LeaseAt(run, i).value.holder, since)
  {
    assert StepAt(run, i);
    var s, t, p := run.states[i], run.states[i + 1], run.acts[i].post;
    assert Drafts(s, run.acts[i]) == [];
    assert t.log == s.log + [] == s.log;
    LateInMeans(t, Post(p.id));
    assert t.env.posts == s.env.posts + [p] && t.env.reports == s.env.reports;
    assert p in t.env.posts;
    forall q | q in t.env.posts && q.id == p.id ensures q == p {
      assert q in s.env.posts || q == p;
    }
  }

  // --- what a late item says ---

  /** A post of the board has this id, author and tag. */
  ghost predicate AsPosted(posts: seq<BoardPost>, id: nat, seat: Seat, tag: Tag) {
    exists p :: p in posts && p.id == id && p.from == seat && p.tag == tag
  }

  ghost predicate AsAcked(acks: seq<FinishAck>, num: nat, seat: Seat) {
    exists a :: a in acks && a.num == num && a.seat == seat
  }

  ghost predicate CarriedAsPosted(posts: seq<BoardPost>, carried: seq<CarriedPost>) {
    forall c :: c in carried ==> AsPosted(posts, c.id, c.seat, c.tag)
  }

  /** A late item says whose it is: the author and the tag of the post it names, or the seat whose ack it names. */
  ghost predicate SaysWhose(posts: seq<BoardPost>, acks: seq<FinishAck>, x: LateItem) {
    match x.target
    case Post(id) => x.tag.Some? && AsPosted(posts, id, x.seat, x.tag.value)
    case Objected(num) => x.tag.None? && AsAcked(acks, num, x.seat)
  }

  ghost predicate AllSayWhose(posts: seq<BoardPost>, acks: seq<FinishAck>, items: seq<LateItem>) {
    forall x :: x in items ==> SaysWhose(posts, acks, x)
  }

  lemma {:induction false} CarriedSayWhose(st: FinishState, posts: seq<BoardPost>, carried: seq<CarriedPost>)
    requires CarriedAsPosted(posts, carried)
    ensures AllSayWhose(posts, st.acks, CarriedLate(st, carried))
  {
    if carried != [] {
      CarriedSayWhose(st, posts, carried[..|carried| - 1]);
      assert carried[|carried| - 1] in carried;
    }
  }

  lemma {:induction false} PostsSayWhose(
    st: FinishState, all: seq<BoardPost>, first: seq<LateItem>, posts: seq<BoardPost>, coordinator: Seat, since: Time)
    requires AllSayWhose(all, st.acks, first) && forall p :: p in posts ==> p in all
    ensures AllSayWhose(all, st.acks, PostsLate(st, first, posts, coordinator, since))
  {
    if posts != [] {
      PostsSayWhose(st, all, first, posts[..|posts| - 1], coordinator, since);
      assert posts[|posts| - 1] in all;
      assert AsPosted(all, posts[|posts| - 1].id, posts[|posts| - 1].from, posts[|posts| - 1].tag);
    }
  }

  lemma {:induction false} ObjectionsSayWhose(st: FinishState, posts: seq<BoardPost>, first: seq<LateItem>, acks: seq<FinishAck>)
    requires AllSayWhose(posts, st.acks, first) && forall a :: a in acks ==> a in st.acks
    ensures AllSayWhose(posts, st.acks, ObjectionsLate(st, first, acks))
  {
    if acks != [] {
      ObjectionsSayWhose(st, posts, first, acks[..|acks| - 1]);
      assert acks[|acks| - 1] in st.acks;
      assert AsAcked(st.acks, acks[|acks| - 1].num, acks[|acks| - 1].seat);
    }
  }

  lemma LateSay(env: Env, st: FinishState)
    requires st.lease.Some? ==> CarriedAsPosted(env.posts, st.lease.value.carried)
    ensures AllSayWhose(env.posts, st.acks, LateNow(env, st))
  {
    if LeaseReport(st).Some? {
      var lease := st.lease.value;
      var since := Boundary(env, st, lease.report.value);
      CarriedSayWhose(st, env.posts, lease.carried);
      PostsSayWhose(st, env.posts, CarriedLate(st, lease.carried), env.posts, lease.holder, since);
      ObjectionsSayWhose(st, env.posts, PostsLate(st, CarriedLate(st, lease.carried), env.posts, lease.holder, since), st.acks);
    }
  }

  lemma {:induction false} KeptAsPosted(env: Env, lease: LeaseState, acks: seq<FinishAck>, late: seq<LateItem>)
    requires AllSayWhose(env.posts, acks, late)
    ensures CarriedAsPosted(env.posts, KeptPosts(env, lease, late))
  {
    if late != [] {
      KeptAsPosted(env, lease, acks, late[..|late| - 1]);
      assert SaysWhose(env.posts, acks, late[|late| - 1]);
    }
  }

  ghost predicate LeaseAsPosted(posts: seq<BoardPost>, lease: Option<LeaseState>) {
    lease.Some? ==> CarriedAsPosted(posts, lease.value.carried)
  }

  lemma AskingCarries(env: Env, st: FinishState, me: Seat, path: Option<Path>)
    requires LeaseAsPosted(env.posts, st.lease)
    ensures var asked := AskLease(env, st, me, path).1;
            asked != [] ==> asked[0].Lease? && LeaseAsPosted(env.posts, FoldLease(st.lease, asked[0]))
  {
    LateSay(env, st);
    if st.lease.Some? { KeptAsPosted(env, st.lease.value, st.acks, LateNow(env, st)); }
  }

  lemma PostsStay(was: seq<BoardPost>, now: seq<BoardPost>, lease: Option<LeaseState>)
    requires LeaseAsPosted(was, lease) && forall p :: p in was ==> p in now
    ensures LeaseAsPosted(now, lease)
  {
    if lease.Some? {
      forall c | c in lease.value.carried ensures AsPosted(now, c.id, c.seat, c.tag) {
        var p :| p in was && p.id == c.id && p.from == c.seat && p.tag == c.tag;
        assert p in now;
      }
    }
  }

  lemma AskedAsPosted(s: Reg, a: Act)
    requires LeaseAsPosted(s.env.posts, Fold(s.log).lease)
    ensures LeaseAsPosted(s.env.posts, LeaseAfter(s, a))
  {
    if a.DoneTurn? {
      AskingCarries(s.env, Fold(s.log), a.me, a.path);
    } else if a.Prepares? {
      AskingCarries(s.env, Fold(s.log), a.me, a.path.Or(LeaseReport(Fold(s.log))));
    }
  }

  lemma PostsAreKept(s: Reg, a: Act)
    ensures forall p :: p in s.env.posts ==> p in Next(s, a).env.posts
  {
  }

  lemma NextAsPosted(s: Reg, a: Act)
    requires LeaseAsPosted(s.env.posts, Fold(s.log).lease)
    ensures LeaseAsPosted(Next(s, a).env.posts, Fold(Next(s, a).log).lease)
  {
    NextLease(s, a);
    AskedAsPosted(s, a);
    PostsAreKept(s, a);
    PostsStay(s.env.posts, Next(s, a).env.posts, LeaseAfter(s, a));
  }

  lemma {:induction false} RunAsPosted(run: Run, i: nat)
    requires IsRun(run) && i < |run.states|
    ensures LeaseAsPosted(run.states[i].env.posts, LeaseAt(run, i))
  {
    if i > 0 {
      RunAsPosted(run, i - 1);
      StepAsPosted(run, i - 1);
    }
  }

  lemma StepAsPosted(run: Run, i: nat)
    requires IsRun(run) && i < |run.acts| && LeaseAsPosted(run.states[i].env.posts, LeaseAt(run, i))
    ensures LeaseAsPosted(run.states[i + 1].env.posts, LeaseAt(run, i + 1))
  {
    assert StepAt(run, i);
    NextAsPosted(run.states[i], run.acts[i]);
  }

  /** Over every run, through every resume: each late item says whose it is, by the board and the acks as they are. */
  lemma LateSaysWhose(run: Run, i: nat, x: LateItem)
    requires IsRun(run) && i < |run.states| && x in LateNow(run.states[i].env, Fold(run.states[i].log))
    ensures SaysWhose(run.states[i].env.posts, Fold(run.states[i].log).acks, x)
  {
    RunAsPosted(run, i);
    LateSay(run.states[i].env, Fold(run.states[i].log));
  }

  // --- an ack ---

  /** What an ack's request must meet, by its fields: on `path`, the finish's report or the one it names. */
  predicate AckFits(env: Env, lease: Option<LeaseState>, a: Act, path: Path)
    requires a.Acks?
  {
    var leased := if lease.Some? then lease.value.report else None;
    && (a.verdict == Objection ==> a.why != "") && |a.why| <= LEAD_WHY_MAX
    && (if leased.Some? then leased == Some(path) && (a.path.None? || a.path == Some(path)) else a.path == Some(path))
    && path in env.reports && (a.digest.Some? ==> a.digest.value == env.reports[path].digest)
    && (lease.Some? ==> lease.value.holder != a.me)
    && forall k :: k in a.keys ==> k in env.reports[path].sections
  }

  ghost predicate Fits(env: Env, lease: Option<LeaseState>, a: Act)
    requires a.Acks?
  {
    exists path :: AckFits(env, lease, a, path)
  }

  /** The ack a request leaves: its seat and verdict, the report's digest, each section named at its own, all when none is. */
  ghost predicate AckOfRequest(x: FinishAck, env: Env, lease: Option<LeaseState>, a: Act, path: Path, n: nat)
    requires a.Acks? && path in env.reports
  {
    var r := env.reports[path];
    && x.num == n && x.seat == a.me && x.verdict == a.verdict && x.digest == r.digest
    && (a.digest.Some? ==> x.digest == a.digest.value)
    && x.report == (if lease.Some? && lease.value.report.Some? then None else Some(path))
    && (x.whole <==> a.keys == []) && x.sections.Some?
    && (forall k :: k in x.sections.value <==> k in r.sections && (a.keys == [] || k in a.keys))
    && forall k :: k in x.sections.value && k in r.sections ==> x.sections.value[k] == r.sections[k]
  }

  lemma AckDraftFits(env: Env, st: FinishState, a: Act, n: nat)
    requires a.Acks?
    ensures var drafts := AckDraft(env, st, a.me, a.verdict, a.why, a.path, a.digest, a.keys);
            && |drafts| <= 1
            && (drafts != [] <==> Fits(env, st.lease, a))
            && (drafts != [] ==>
                  var acks := FoldEvent(st, drafts[0], n).acks;
                  && FoldEvent(st, drafts[0], n) == st.(acks := acks) && |acks| == |st.acks| + 1 && acks[..|st.acks|] == st.acks
                  && exists path :: AckFits(env, st.lease, a, path) && AckOfRequest(acks[|st.acks|], env, st.lease, a, path, n))
  {
    var leased := if st.lease.Some? then st.lease.value.report else None;
    var drafts := AckDraft(env, st, a.me, a.verdict, a.why, a.path, a.digest, a.keys);
    if drafts != [] {
      var path := leased.Or(a.path).value;
      assert AckFits(env, st.lease, a, path);
      assert AckOfRequest(FoldEvent(st, drafts[0], n).acks[|st.acks|], env, st.lease, a, path, n);
    }
    if path :| AckFits(env, st.lease, a, path) {
      assert leased.Or(a.path) == Some(path);
    }
  }

  /** What an ack adds to the log: nothing, or the ack that was requested, on a report it fits. */
  ghost predicate AckLeft(env: Env, st: FinishState, now: FinishState, a: Act, n: nat)
    requires a.Acks?
  {
    && now == st.(acks := now.acks) && |now.acks| == |st.acks| + 1 && now.acks[..|st.acks|] == st.acks
    && exists path :: AckFits(env, st.lease, a, path) && AckOfRequest(now.acks[|st.acks|], env, st.lease, a, path, n)
  }

  lemma AckAppends(env: Env, log: seq<Event>, a: Act)
    requires a.Acks?
    ensures var drafts := AckDraft(env, Fold(log), a.me, a.verdict, a.why, a.path, a.digest, a.keys);
            && (log + drafts == log <==> !Fits(env, Fold(log).lease, a))
            && (log + drafts != log ==> AckLeft(env, Fold(log), Fold(log + drafts), a, |log| + 1))
  {
    var drafts := AckDraft(env, Fold(log), a.me, a.verdict, a.why, a.path, a.digest, a.keys);
    AckDraftFits(env, Fold(log), a, |log| + 1);
    if drafts == [] {
      assert log + drafts == log;
    } else {
      assert drafts == [drafts[0]];
      assert |log + drafts| == |log| + 1;
      FoldAppend(log, drafts[0]);
    }
  }

  /**
   * Over every run, an ack is recorded exactly when its request fits, and is
   * what was requested: in particular, one that names a digest the report does
   * not have leaves the log as it was.
   */
  lemma AckIsAsRequested(run: Run, i: nat)
    requires IsRun(run) && i < |run.acts| && run.acts[i].Acks?
    ensures var s, t, a := run.states[i], run.states[i + 1], run.acts[i];
            && t.env == s.env
            && (t.log == s.log <==> !Fits(s.env, LeaseAt(run, i), a))
            && (t.log != s.log ==> AckLeft(s.env, Fold(s.log), Fold(t.log), a, |s.log| + 1))
  {
    assert StepAt(run, i);
    var s := run.states[i];
    AckAppends(s.env, s.log, run.acts[i]);
    AckKeepsEnv(s, run.acts[i]);
  }

  lemma AckKeepsEnv(s: Reg, a: Act)
    requires a.Acks?
    ensures Next(s, a).env == s.env && Next(s, a).log == s.log + AckDraft(s.env, Fold(s.log), a.me, a.verdict, a.why, a.path, a.digest, a.keys)
  {
    OnlyAcksLease(s, a);
  }

  lemma OnlyAcksLease(s: Reg, a: Act)
    requires a.Acks?
    ensures Fold(s.log + Drafts(s, a)).lease == Fold(s.log).lease
  {
    OthersLeave(s.log, Drafts(s, a));
  }

  /** Nothing resolved has a number past the log: a resolution names what is late. */
  ghost predicate ResolvedWithin(st: FinishState, n: nat) {
    forall r :: r in st.resolutions && r.target.Objected? ==> r.target.num <= n
  }

  lemma LateWithin(env: Env, log: seq<Event>, t: Target)
    requires Named(LateNow(env, Fold(log)), t) && t.Objected?
    ensures t.num <= |log|
  {
    var lease := Fold(log).lease.value;
    FoldIsOrdered(log);
    LateItemsMeans(env, Fold(log), lease.holder, lease.report, t, |log|);
  }

  lemma {:induction false} ResolutionsWithin(run: Run, i: nat)
    requires IsRun(run) && i < |run.states|
    ensures ResolvedWithin(Fold(run.states[i].log), |run.states[i].log|)
  {
    if i > 0 {
      ResolutionsWithin(run, i - 1);
      StepWithin(run, i - 1);
    }
  }

  lemma StepWithin(run: Run, i: nat)
    requires IsRun(run) && i < |run.acts| && ResolvedWithin(Fold(run.states[i].log), |run.states[i].log|)
    ensures ResolvedWithin(Fold(run.states[i + 1].log), |run.states[i + 1].log|)
  {
    var s, t := run.states[i], run.states[i + 1];
    LogLengthens(run, i);
    forall r | r in Fold(t.log).resolutions && r.target.Objected? ensures r.target.num <= |t.log| {
      if r !in Fold(s.log).resolutions {
        ResolutionIsTheCoordinators(run, i, r);
        LateWithin(s.env, s.log, r.target);
      }
    }
  }

  lemma LogLengthens(run: Run, i: nat)
    requires IsRun(run) && i < |run.acts|
    ensures |run.states[i].log| <= |run.states[i + 1].log|
  {
    assert StepAt(run, i);
  }

  /** An ack reaches as far as an earlier one: each section that named is named again, where both are by section and the later not of all. */
  ghost predicate ReachesAsFar(x: FinishAck, o: FinishAck) {
    x.sections.Some? && o.sections.Some? && !x.whole ==> forall k :: k in o.sections.value ==> k in x.sections.value
  }

  /** The objection a target names is one of this seat's that the ack reaches as far as. */
  ghost predicate AnsweredBy(acks: seq<FinishAck>, x: FinishAck, t: Target) {
    t.Objected? && exists o :: o in acks && o.num == t.num && o.seat == x.seat && ReachesAsFar(x, o)
  }

  lemma AckAdds(st: FinishState, now: FinishState, x: FinishAck, n: nat, t: Target)
    requires Ordered(st, n) && ResolvedWithin(st, n) && x.num == n + 1
    requires now == st.(acks := st.acks + [x])
    ensures t.Objected? ==>
              (ObjectionNum(now, now.acks, t.num) <==>
                 (t.num == x.num && x.verdict == Objection) || (ObjectionNum(st, st.acks, t.num) && !AnsweredBy(st.acks, x, t)))
  {
    assert x in now.acks;
    if t.Objected? {
      assert !Resolved(now, Objected(x.num));
      assert forall b :: b in now.acks ==> b in st.acks || b == x;
      assert !AnsweredLater(now.acks, x);
      assert x.verdict == Objection ==> OpenObjection(now, x);
      forall o | o in st.acks && o.num == t.num
        ensures OpenObjection(now, o) <==> OpenObjection(st, o) && !AnsweredBy(st.acks, x, t)
      {
        AckAnswers(st, now, x, n, o);
        SameNumSame(st, n, o, t.num);
      }
    }
  }

  lemma SameNumSame(st: FinishState, n: nat, o: FinishAck, num: nat)
    requires Ordered(st, n) && o in st.acks && o.num == num
    ensures forall q :: q in st.acks && q.num == num ==> q == o
  {
  }

  lemma AckAnswers(st: FinishState, now: FinishState, x: FinishAck, n: nat, o: FinishAck)
    requires Ordered(st, n) && x.num == n + 1 && now == st.(acks := st.acks + [x]) && o in st.acks
    ensures OpenObjection(now, o) <==> OpenObjection(st, o) && !(o.seat == x.seat && ReachesAsFar(x, o))
  {
    assert x in now.acks;
    assert forall b :: b in st.acks ==> b in now.acks;
    assert Resolved(now, Objected(o.num)) <==> Resolved(st, Objected(o.num));
  }

  /**
   * Over every run, right after an ack is recorded on the finish's report: an
   * objection is late, a no objection makes nothing late, and what was late
   * stays so but for the seat's own objections the ack answers.
   */
  lemma AckLate(run: Run, i: nat, t: Target)
    requires IsRun(run) && i < |run.acts| && run.acts[i].Acks? && run.states[i + 1].log != run.states[i].log
    requires LeaseAt(run, i).Some? && LeaseAt(run, i).value.report.Some?
    ensures var s, now, a := run.states[i], run.states[i + 1], run.acts[i];
            var acks := Fold(now.log).acks;
            && acks != []
            && (LateIn(now, t) <==>
                  || (t == Objected(|s.log| + 1) && a.verdict == Objection)
                  || (LateIn(s, t) && !AnsweredBy(Fold(s.log).acks, acks[|acks| - 1], t)))
  {
    var s, now := run.states[i], run.states[i + 1];
    AckIsAsRequested(run, i);
    var st, after := Fold(s.log), Fold(now.log);
    var x := after.acks[|st.acks|];
    assert after.acks == st.acks + [x];
    FoldIsOrdered(s.log);
    ResolutionsWithin(run, i);
    AckAdds(st, after, x, |s.log|, t);
    LateInMeans(s, t);
    LateInMeans(now, t);
    assert forall u :: Resolved(after, u) <==> Resolved(st, u);
  }
}
