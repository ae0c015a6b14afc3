/**
 * Acts on the finish register (extensions/finish.ts) as functions: given the
 * environment and the folded log, each yields the events it appends, and the
 * late list is characterised item by item. FinishRegister.dfy has the register
 * itself, whose methods do these acts in place.
 */
module FinishActs {
  import opened Wrappers
  import opened FinishLog
  import R = Review

  const SYSTEM: Seat := "system"
  const LEAD_WHY_MAX := 2000
  const BATCH_KEY_MAX := 200

  /** A board post, as far as lateness looks at it; `restates` marks one that adds nothing to an answer already given. */
  datatype BoardPost = BoardPost(id: nat, from: Seat, tag: Tag, at: Time, restates: bool)

  /** A report that exists: its digest, its sections' keys in order, the digest of each by key, and when it was last written. */
  datatype Report = Report(digest: Digest, order: seq<string>, sections: map<string, Digest>, writtenAt: Time)

  /** The report as reviews are weighed against it. */
  function CurrentOf(r: Report): R.Current {
    R.Current(r.digest, r.order, r.sections)
  }

  /**
   * What the register reads around it: the board, the reports and who
   * published each last, the run's resumes, the seats that cannot hold the
   * finish, whether the sentinel is written, and the state's revision (a
   * version that never returns to an old value).
   */
  datatype Env = Env(
    posts: seq<BoardPost>,
    reports: map<Path, Report>,
    publishers: map<Path, Seat>,
    resumes: seq<Option<Time>>,
    unavailable: set<Seat>,
    finished: bool,
    revision: nat)

  function WrittenAt(env: Env, report: Option<Path>): Option<Time> {
    if report.Some? && report.value in env.reports then Some(env.reports[report.value].writtenAt) else None
  }

  function ReportDigest(env: Env, report: Option<Path>): Option<Digest> {
    if report.Some? && report.value in env.reports then Some(env.reports[report.value].digest) else None
  }

  // --- the late list ---

  datatype LateItem = LateItem(target: Target, seat: Seat, tag: Option<Tag>)

  predicate Resolved(st: FinishState, t: Target) {
    exists r :: r in st.resolutions && r.target == t
  }

  predicate Named(items: seq<LateItem>, t: Target) {
    exists x :: x in items && x.target == t
  }

  /** A result or a veto another seat than the coordinator posted after the boundary. */
  predicate IsCorrection(p: BoardPost, coordinator: Seat, since: Time) {
    p.at > since && p.from != coordinator && p.from != SYSTEM && (p.tag == ResultTag || p.tag == VetoTag)
  }

  predicate Restating(p: BoardPost) {
    p.tag == ResultTag && p.restates
  }

  predicate SectionsWithin(inner: map<string, Digest>, outer: map<string, Digest>) {
    inner.Keys <= outer.Keys
  }

  /** A later ack reaches as far as an objection: one of them is not by section, or the later names all the earlier does. */
  predicate AnswersObjection(later: FinishAck, objection: FinishAck) {
    objection.sections.None? || later.sections.None? || later.whole
    || SectionsWithin(objection.sections.value, later.sections.value)
  }

  predicate AnsweredLater(acks: seq<FinishAck>, a: FinishAck) {
    exists b :: b in acks && b.seat == a.seat && b.num > a.num && AnswersObjection(b, a)
  }

  predicate OpenObjection(st: FinishState, a: FinishAck) {
    a.verdict == Objection && !Resolved(st, Objected(a.num)) && !AnsweredLater(st.acks, a)
  }

  /** The boundary what is late is read against: the lease's when it names this report, else the report's last write. */
  function Boundary(env: Env, st: FinishState, report: Path): Time {
    if st.lease.Some? && st.lease.value.report == Some(report) && st.lease.value.since.Some? then
      st.lease.value.since.value
    else WrittenAt(env, Some(report)).GetOr(0)
  }

  function CarriedLate(st: FinishState, carried: seq<CarriedPost>): seq<LateItem> {
    if carried == [] then []
    else
      var out := CarriedLate(st, carried[..|carried| - 1]);
      var c := carried[|carried| - 1];
      if Resolved(st, Post(c.id)) || Named(out, Post(c.id)) then out
      else out + [LateItem(Post(c.id), c.seat, Some(c.tag))]
  }

  function PostsLate(st: FinishState, first: seq<LateItem>, posts: seq<BoardPost>, coordinator: Seat, since: Time)
    : seq<LateItem>
  {
    if posts == [] then first
    else
      var out := PostsLate(st, first, posts[..|posts| - 1], coordinator, since);
      var p := posts[|posts| - 1];
      if !IsCorrection(p, coordinator, since) || Resolved(st, Post(p.id)) || Named(out, Post(p.id)) || Restating(p) then out
      else out + [LateItem(Post(p.id), p.from, Some(p.tag))]
  }

  function ObjectionsLate(st: FinishState, first: seq<LateItem>, acks: seq<FinishAck>): seq<LateItem> {
    if acks == [] then first
    else
      var out := ObjectionsLate(st, first, acks[..|acks| - 1]);
      var a := acks[|acks| - 1];
      if OpenObjection(st, a) then out + [LateItem(Objected(a.num), a.seat, None)] else out
  }

  /** What the coordinator must answer: the posts carried, the corrections since the boundary, the open objections. */
  function LateItems(env: Env, st: FinishState, coordinator: Seat, report: Option<Path>): seq<LateItem> {
    if report.None? then []
    else
      var carried := CarriedLate(st, if st.lease.Some? then st.lease.value.carried else []);
      var posts := PostsLate(st, carried, env.posts, coordinator, Boundary(env, st, report.value));
      ObjectionsLate(st, posts, st.acks)
  }

  /** The late list of the folded lease's own holder and report; empty without a lease. */
  function LateNow(env: Env, st: FinishState): seq<LateItem> {
    if st.lease.Some? then LateItems(env, st, st.lease.value.holder, st.lease.value.report) else []
  }

  ghost predicate TargetsDistinct(items: seq<LateItem>) {
    forall i, j :: 0 <= i < j < |items| ==> items[i].target != items[j].target
  }

  ghost predicate CarriedId(carried: seq<CarriedPost>, id: nat) {
    exists c :: c in carried && c.id == id
  }

  ghost predicate CorrectionId(posts: seq<BoardPost>, coordinator: Seat, since: Time, id: nat) {
    exists p :: p in posts && p.id == id && IsCorrection(p, coordinator, since) && !Restating(p)
  }

  ghost predicate ObjectionNum(st: FinishState, acks: seq<FinishAck>, num: nat) {
    exists a :: a in acks && a.num == num && OpenObjection(st, a)
  }

  /** What late means, without the order it is listed in. */
  ghost predicate IsLate(env: Env, st: FinishState, coordinator: Seat, report: Option<Path>, t: Target) {
    && report.Some?
    && match t
       case Post(id) =>
         && !Resolved(st, t)
         && ((st.lease.Some? && CarriedId(st.lease.value.carried, id))
             || CorrectionId(env.posts, coordinator, Boundary(env, st, report.value), id))
       case Objected(num) => ObjectionNum(st, st.acks, num)
  }

  lemma {:induction false} CarriedLateMeans(st: FinishState, carried: seq<CarriedPost>, t: Target)
    ensures TargetsDistinct(CarriedLate(st, carried))
    ensures Named(CarriedLate(st, carried), t) <==> t.Post? && !Resolved(st, t) && CarriedId(carried, t.id)
  {
    if carried != [] {
      var most, c := carried[..|carried| - 1], carried[|carried| - 1];
      CarriedLateMeans(st, most, t);
      CarriedLateMeans(st, most, Post(c.id));
      assert carried == most + [c];
      assert t.Post? ==> (CarriedId(carried, t.id) <==> CarriedId(most, t.id) || c.id == t.id);
      NamedOneMore(CarriedLate(st, most), LateItem(Post(c.id), c.seat, Some(c.tag)), t);
    }
  }

  lemma NamedOneMore(items: seq<LateItem>, x: LateItem, t: Target)
    ensures Named(items + [x], t) <==> Named(items, t) || x.target == t
    ensures TargetsDistinct(items) && !Named(items, x.target) ==> TargetsDistinct(items + [x])
  {
    if x.target == t {
      assert x in items + [x];
    }
    if Named(items, t) {
      var y :| y in items && y.target == t;
      assert y in items + [x];
    }
  }

  lemma {:induction false} PostsLateMeans(
    st: FinishState, first: seq<LateItem>, posts: seq<BoardPost>, coordinator: Seat, since: Time, t: Target)
    requires TargetsDistinct(first)
    ensures TargetsDistinct(PostsLate(st, first, posts, coordinator, since))
    ensures Named(PostsLate(st, first, posts, coordinator, since), t)
       <==> Named(first, t) || (t.Post? && !Resolved(st, t) && CorrectionId(posts, coordinator, since, t.id))
  {
    if posts != [] {
      var most, p := posts[..|posts| - 1], posts[|posts| - 1];
      PostsLateMeans(st, first, most, coordinator, since, t);
      PostsLateMeans(st, first, most, coordinator, since, Post(p.id));
      assert posts == most + [p];
      assert t.Post? ==> (CorrectionId(posts, coordinator, since, t.id)
                          <==> CorrectionId(most, coordinator, since, t.id)
                               || (p.id == t.id && IsCorrection(p, coordinator, since) && !Restating(p)));
      NamedOneMore(PostsLate(st, first, most, coordinator, since), LateItem(Post(p.id), p.from, Some(p.tag)), t);
    }
  }

  lemma {:induction false} ObjectionsLateMeans(st: FinishState, first: seq<LateItem>, acks: seq<FinishAck>, t: Target)
    requires TargetsDistinct(first) && forall x :: x in first ==> x.target.Post?
    requires forall i, j :: 0 <= i < j < |acks| ==> acks[i].num < acks[j].num
    ensures TargetsDistinct(ObjectionsLate(st, first, acks))
    ensures Named(ObjectionsLate(st, first, acks), t) <==> Named(first, t) || (t.Objected? && ObjectionNum(st, acks, t.num))
  {
    if acks != [] {
      var most, a := acks[..|acks| - 1], acks[|acks| - 1];
      ObjectionsLateMeans(st, first, most, t);
      ObjectionsLateMeans(st, first, most, Objected(a.num));
      assert acks == most + [a];
      assert t.Objected? ==> (ObjectionNum(st, acks, t.num)
                              <==> ObjectionNum(st, most, t.num) || (a.num == t.num && OpenObjection(st, a)));
      NamedOneMore(ObjectionsLate(st, first, most), LateItem(Objected(a.num), a.seat, None), t);
    }
  }

  lemma PostsLateArePosts(st: FinishState, carried: seq<CarriedPost>, posts: seq<BoardPost>, coordinator: Seat, since: Time)
    ensures forall x :: x in PostsLate(st, CarriedLate(st, carried), posts, coordinator, since) ==> x.target.Post?
  {
    forall x | x in PostsLate(st, CarriedLate(st, carried), posts, coordinator, since)
      ensures x.target.Post?
    {
      CarriedLateMeans(st, carried, x.target);
      PostsLateMeans(st, CarriedLate(st, carried), posts, coordinator, since, x.target);
      assert Named(PostsLate(st, CarriedLate(st, carried), posts, coordinator, since), x.target);
    }
  }

  /** The late list names exactly what is late, each once. */
  lemma LateItemsMeans(env: Env, st: FinishState, coordinator: Seat, report: Option<Path>, t: Target, n: nat)
    requires Ordered(st, n)
    ensures TargetsDistinct(LateItems(env, st, coordinator, report))
    ensures Named(LateItems(env, st, coordinator, report), t) <==> IsLate(env, st, coordinator, report, t)
  {
    if report.Some? {
      var carried := if st.lease.Some? then st.lease.value.carried else [];
      var since := Boundary(env, st, report.value);
      CarriedLateMeans(st, carried, t);
      PostsLateMeans(st, CarriedLate(st, carried), env.posts, coordinator, since, t);
      PostsLateArePosts(st, carried, env.posts, coordinator, since);
      ObjectionsLateMeans(st, PostsLate(st, CarriedLate(st, carried), env.posts, coordinator, since), st.acks, t);
    }
  }

  // --- the lease ---

  datatype Turn = Turn(mine: bool, holder: Seat, generation: nat, tookOver: Option<Seat>, report: Option<Path>)

  /** Whom a new lease goes to: whoever published the report most recently, unless unable to act; `me` otherwise. */
  function Designate(env: Env, me: Seat, path: Option<Path>): Seat {
    if path.Some? && path.value in env.publishers && env.publishers[path.value] !in env.unavailable then
      env.publishers[path.value]
    else me
  }

  /** When the run was last resumed, when its budget says so. */
  function ResumedAt(env: Env): Option<Time> {
    if env.resumes == [] then None else env.resumes[|env.resumes| - 1]
  }

  function PostTime(posts: seq<BoardPost>, id: nat): Option<Time> {
    if posts == [] then None
    else if posts[|posts| - 1].id == id then Some(posts[|posts| - 1].at)
    else PostTime(posts[..|posts| - 1], id)
  }

  /** Whether a post late now is kept by name across the resume: carried already, or posted by the time of it. */
  predicate KeptAcross(env: Env, lease: LeaseState, id: nat) {
    || (exists c :: c in lease.carried && c.id == id)
    || ResumedAt(env).None?
    || (PostTime(env.posts, id).Some? && PostTime(env.posts, id).value <= ResumedAt(env).value)
  }

  function KeptPosts(env: Env, lease: LeaseState, late: seq<LateItem>): seq<CarriedPost> {
    if late == [] then []
    else
      var out := KeptPosts(env, lease, late[..|late| - 1]);
      var x := late[|late| - 1];
      if x.target.Post? && KeptAcross(env, lease, x.target.id) then
        out + [CarriedPost(x.target.id, x.seat, x.tag.GetOr(ResultTag))]
      else out
  }

  /** The late posts that a new segment's lease lists by id. */
  function StillLate(env: Env, st: FinishState): seq<CarriedPost> {
    if st.lease.Some? && st.lease.value.report.Some? then KeptPosts(env, st.lease.value, LateNow(env, st)) else []
  }

  lemma {:induction false} KeptPostsMeans(env: Env, lease: LeaseState, late: seq<LateItem>, id: nat)
    ensures CarriedId(KeptPosts(env, lease, late), id) <==> Named(late, Post(id)) && KeptAcross(env, lease, id)
  {
    if late != [] {
      var most, x := late[..|late| - 1], late[|late| - 1];
      KeptPostsMeans(env, lease, most, id);
      assert late == most + [x];
      NamedOneMore(most, x, Post(id));
      var out := KeptPosts(env, lease, most);
      if x.target.Post? && KeptAcross(env, lease, x.target.id) {
        var c := CarriedPost(x.target.id, x.seat, x.tag.GetOr(ResultTag));
        assert forall d :: d in out + [c] <==> d in out || d == c;
        assert CarriedId(out + [c], id) <==> CarriedId(out, id) || c.id == id by {
          if c.id == id { assert c in out + [c]; }
          if CarriedId(out, id) { var d :| d in out && d.id == id; assert d in out + [c]; }
        }
      }
    }
  }

  function SegmentOf(env: Env): Option<nat> {
    if env.resumes == [] then None else Some(|env.resumes|)
  }

  function AskLease(env: Env, st: FinishState, me: Seat, report: Option<Path>): (Turn, seq<Event>) {
    if env.finished then
      (Turn(false, if st.lease.Some? then st.lease.value.holder else "", if st.lease.Some? then st.lease.value.generation else 0,
            None, if st.lease.Some? then st.lease.value.report.Or(report) else report), [])
    else if st.lease.None? then
      var holder := Designate(env, me, report);
      (Turn(holder == me, holder, 1, None, report),
       [Lease(me, Some(holder), Some(1), report, WrittenAt(env, report), SegmentOf(env), None)])
    else
      var lease := st.lease.value;
      var path := report.Or(lease.report);
      if |env.resumes| > lease.segment then
        var holder := Designate(env, me, path);
        (Turn(holder == me, holder, lease.generation + 1, None, path),
         [Lease(me, Some(holder), Some(lease.generation + 1), path, WrittenAt(env, path), SegmentOf(env), Some(StillLate(env, st)))])
      else if lease.holder == me then
        var since := if lease.since.None? then WrittenAt(env, path) else None;
        (Turn(true, me, lease.generation, None, path),
         if (report.Some? && report != lease.report) || since.Some? then
           [Lease(me, Some(me), Some(lease.generation), report, since, SegmentOf(env), None)]
         else [])
      else if lease.holder !in env.unavailable then
        (Turn(false, lease.holder, lease.generation, None, lease.report), [])
      else
        (Turn(true, me, lease.generation + 1, Some(lease.holder), path),
         [Lease(me, Some(me), Some(lease.generation + 1), path, lease.since.Or(WrittenAt(env, path)), SegmentOf(env), None)])
  }

  /** A prepare asks as a done does, on a report that exists, and records what is late then. */
  function PrepareDrafts(env: Env, log: seq<Event>, me: Seat, named: Option<Path>, ready: bool): seq<Event> {
    var st := Fold(log);
    var report := named.Or(if st.lease.Some? then st.lease.value.report else None);
    if env.finished || ReportDigest(env, report).None? then []
    else
      var (turn, asked) := AskLease(env, st, me, report);
      if !turn.mine then asked
      else
        asked + [PrepareEvent(env, Fold(log + asked), me, turn, ready)]
  }

  function PrepareEvent(env: Env, after: FinishState, me: Seat, turn: Turn, ready: bool): Event {
    var late := LateItems(env, after, me, turn.report);
    Prepare(me, Some(turn.generation), turn.report, ReportDigest(env, turn.report),
            if after.lease.Some? then after.lease.value.since else None,
            if after.lease.Some? && after.lease.value.segment > 0 then Some(after.lease.value.segment) else None,
            ready, Some(env.revision), seq(|late|, i requires 0 <= i < |late| => late[i].target))
  }

  // --- acks and resolutions ---

  /** An ack, or nothing where it is refused: each key is recorded with the digest it has now, all of them when none is given. */
  function AckDraft(env: Env, st: FinishState, me: Seat, verdict: Verdict, why: string, named: Option<Path>,
                    digest: Option<Digest>, keys: seq<string>): seq<Event>
  {
    var leased := if st.lease.Some? then st.lease.value.report else None;
    var report := leased.Or(named);
    if verdict == Objection && why == "" then []
    else if |why| > LEAD_WHY_MAX then []
    else if leased.Some? && named.Some? && named != leased then []
    else if report.None? || report.value !in env.reports then []
    else
      var r := env.reports[report.value];
      if digest.Some? && digest.value != r.digest then []
      else if st.lease.Some? && st.lease.value.holder == me then []
      else if exists k :: k in keys && k !in r.sections then []
      else
        var covered := if keys == [] then r.sections else map k | k in keys && k in r.sections :: r.sections[k];
        [AckOf(me, Some(r.digest), Some(verdict), if leased.Some? then None else report, Some(covered), keys == [])]
  }

  function ResolveDraft(env: Env, st: FinishState, me: Seat, target: Target, how: How, why: string): seq<Event> {
    if why == "" || st.lease.None? || st.lease.value.holder != me || !Named(LateNow(env, st), target) then []
    else [Resolve(me, target, Some(how), why, ReportDigest(env, st.lease.value.report), None, None)]
  }

  // --- a batch of resolutions ---

  /** A reference in a batch as it was sent: missing, malformed, or a number. */
  datatype RawRef = Absent | NotWhole | Whole(n: nat)

  datatype RawItem = RawItem(isObject: bool, post: RawRef, ack: RawRef, how: Option<How>, where: Option<string>, why: Option<string>)

  datatype Item = Item(target: Target, how: How, words: string)

  datatype Batch = Batch(items: seq<RawItem>, generation: RawRef, digest: string, key: Option<string>)

  /** One item read, or nothing when it has a problem of its own. */
  function ReadItem(r: RawItem): Option<Item> {
    if !r.isObject || (r.post.Absent? <==> r.ack.Absent?) then None
    else
      var ref := if r.post.Absent? then r.ack else r.post;
      if ref.NotWhole? || r.how.None? then None
      else
        var words := (if r.how.value == Folded then r.where.Or(r.why) else r.why).GetOr("");
        if words == "" || |words| > LEAD_WHY_MAX then None
        else Some(Item(if r.post.Absent? then Objected(ref.n) else Post(ref.n), r.how.value, words))
  }

  predicate ItemNamed(items: seq<Item>, t: Target) {
    exists x :: x in items && x.target == t
  }

  /** The items read in order, and how many were problems: malformed, or named twice. */
  function ReadItems(raw: seq<RawItem>): (seq<Item>, nat) {
    if raw == [] then ([], 0)
    else
      var (items, problems) := ReadItems(raw[..|raw| - 1]);
      var r := ReadItem(raw[|raw| - 1]);
      if r.None? || ItemNamed(items, r.value.target) then (items, problems + 1)
      else (items + [r.value], problems)
  }

  predicate DistinctItems(items: seq<Item>) {
    forall i, j :: 0 <= i < j < |items| ==> items[i].target != items[j].target
  }

  predicate HexPrefix(digest: string) {
    12 <= |digest| <= 64 && forall c :: c in digest ==> '0' <= c <= '9' || 'a' <= c <= 'f'
  }

  predicate KeyOk(key: string) {
    0 < |key| <= BATCH_KEY_MAX && forall c :: c in key ==> ' ' <= c && c != '\U{7f}'
  }

  predicate WellFormed(batch: Batch) {
    && batch.items != [] && ReadItems(batch.items).1 == 0
    && batch.generation.Whole? && HexPrefix(batch.digest)
    && (batch.key.Some? ==> KeyOk(batch.key.value))
  }

  /** The resolutions a seat recorded under a key. */
  function Prior(resolutions: seq<Resolution>, me: Seat, key: string): seq<Resolution> {
    if resolutions == [] then []
    else
      var out := Prior(resolutions[..|resolutions| - 1], me, key);
      var r := resolutions[|resolutions| - 1];
      if r.batch == Some(key) && r.seat == me then out + [r] else out
  }

  predicate Answers(x: Item, r: Resolution) {
    x.target == r.target && x.how == r.how && x.words == r.why
  }

  /** The source's test that a batch is the one recorded: as many, and each recorded one among them. */
  predicate SameBatch(prior: seq<Resolution>, items: seq<Item>) {
    |prior| == |items| && forall p :: p in prior ==> exists x :: x in items && Answers(x, p)
  }

  predicate ResolvedItem(env: Env, st: FinishState, x: Item) {
    !Named(LateNow(env, st), x.target) && Resolved(st, x.target)
  }

  datatype BatchReply =
    | Malformed
    | OtherBatch
    | Replayed(prior: seq<Resolution>)
    | NotCoordinator
    | AllResolved
    | Stale
    | Recorded(count: nat)

  /** A well-formed batch under its key: what it is answered, in the order the source tests. */
  function JudgeBatch(env: Env, st: FinishState, me: Seat, batch: Batch, key: string): BatchReply
    requires WellFormed(batch)
  {
    var items := ReadItems(batch.items).0;
    var prior := Prior(st.resolutions, me, key);
    if prior != [] then (if SameBatch(prior, items) then Replayed(prior) else OtherBatch)
    else if st.lease.None? || st.lease.value.holder != me then NotCoordinator
    else if forall x :: x in items ==> ResolvedItem(env, st, x) then AllResolved
    else
      var current := ReportDigest(env, st.lease.value.report);
      if batch.generation.n != st.lease.value.generation then Stale
      else if current.None? || !(batch.digest <= current.value) then Stale
      else if exists x :: x in items && !Named(LateNow(env, st), x.target) then Stale
      else Recorded(|items|)
  }

  function AnswerBatch(env: Env, st: FinishState, me: Seat, batch: Batch, key: string): BatchReply {
    if !WellFormed(batch) then Malformed else JudgeBatch(env, st, me, batch, key)
  }

  function BatchEvent(env: Env, st: FinishState, me: Seat, key: string, x: Item): Event
    requires st.lease.Some?
  {
    Resolve(me, x.target, Some(x.how), x.words, ReportDigest(env, st.lease.value.report), Some(key), Some(st.lease.value.generation))
  }

  function BatchDrafts(env: Env, st: FinishState, me: Seat, batch: Batch, key: string): seq<Event> {
    if AnswerBatch(env, st, me, batch, key).Recorded? then
      var items := ReadItems(batch.items).0;
      seq(|items|, i requires 0 <= i < |items| => BatchEvent(env, st, me, key, items[i]))
    else []
  }

  // --- carry events ---

  /** Some no-objection ack past the number `last` is of the report at a different digest. */
  predicate NeedsWeighing(st: FinishState, report: Path, digest: Digest, last: nat) {
    exists a :: a in st.acks && WeighsOn(a, report, digest, last)
  }

  predicate WeighsOn(a: FinishAck, report: Path, digest: Digest, last: nat) {
    a.num > last && a.verdict == NoObjection && a.digest != digest && (a.report.None? || a.report.value == report)
  }

  /** The seq a version was last weighed at, or zero. */
  function LastCarry(carries: seq<Carried>, report: Path, digest: Digest): nat {
    if carries == [] then 0
    else
      var last := carries[|carries| - 1];
      if last.report == report && last.digest == digest then last.num
      else LastCarry(carries[..|carries| - 1], report, digest)
  }

  /** A carry event is due: the finish's report is there, and an ack of another version of it has come since it was last weighed. */
  predicate Due(env: Env, st: FinishState) {
    var report := if st.lease.Some? then st.lease.value.report else None;
    && report.Some? && report.value in env.reports
    && var digest := env.reports[report.value].digest;
       NeedsWeighing(st, report.value, digest, LastCarry(st.carries, report.value, digest))
  }

  /** The carry event, when one is due and some review is carried over or asked again: those reviews, as they stand. */
  function CarryDraft(env: Env, st: FinishState): seq<Event> {
    if !Due(env, st) then []
    else
      var report := st.lease.value.report.value;
      var kept := R.Listed(st.acks, report, CurrentOf(env.reports[report]), R.CarriedOver);
      var reasked := R.Listed(st.acks, report, CurrentOf(env.reports[report]), R.Reasked);
      if kept == [] && reasked == [] then []
      else [Carry(SYSTEM, Some(report), Some(env.reports[report].digest), kept, reasked)]
  }

  // --- checks and readiness ---

  function CheckDraft(st: FinishState, seat: Seat, revision: Option<nat>, proceed: bool, run: Option<LineRun>): seq<Event> {
    if revision.None? || (exists c :: c in st.checks && c.revision == revision.value) then []
    else [Check(seat, revision, proceed, run)]
  }

  /** Looks a revision up among the checks, the newest first. */
  function CheckAt(checks: seq<Checked>, revision: nat): Option<Checked> {
    if checks == [] then None
    else if checks[|checks| - 1].revision == revision then Some(checks[|checks| - 1])
    else CheckAt(checks[..|checks| - 1], revision)
  }

  function ReadinessDraft(env: Env, st: FinishState, ready: bool): seq<Event> {
    if st.readiness == Some(ready) || env.finished then [] else [Readiness(ready, Some(env.revision))]
  }
}
