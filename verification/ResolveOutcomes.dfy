/**
 * Resolutions by the fields of what was sent (extensions/finish.ts,
 * resolveOne and resolveBatch): how an item of a batch reads, what a batch is
 * answered, and that what is resolved is what was named. And what a prepare,
 * a check and a turn of readiness leave on the record.
 */
module ResolveOutcomes {
  import opened Wrappers
  import opened FinishLog
  import opened FinishActs
  import opened FinishRegister
  import opened FinishRuns
  import opened FinishObligations
  import opened ActOutcomes

  // --- an item as it was sent ---

  /** The words an item comes with: where it was folded, or else why; for not material, why. */
  predicate SaidAs(r: RawItem, words: string) {
    if r.how == Some(Folded) && r.where.Some? then r.where == Some(words)
    else r.why == Some(words)
  }

  /** An item that can be read: an object that names one thing, by a whole number, says how, and in how many words it may. */
  ghost predicate Readable(r: RawItem) {
    && r.isObject
    && ((r.post.Whole? && r.ack.Absent?) || (r.ack.Whole? && r.post.Absent?))
    && r.how.Some?
    && exists words :: SaidAs(r, words) && 0 < |words| <= LEAD_WHY_MAX
  }

  /** The one thing an item names: a post by its id, or an objection by its number. */
  predicate Names(r: RawItem, t: Target) {
    (r.post.Whole? && t == Post(r.post.n)) || (r.ack.Whole? && t == Objected(r.ack.n))
  }

  /** What a resolution says is what the item sent says: its post or its objection, how, and its words. */
  predicate AsSent(r: RawItem, target: Target, how: How, words: string) {
    Names(r, target) && r.how == Some(how) && SaidAs(r, words)
  }

  /** An item reads exactly when it is readable, and as it was sent. */
  lemma ItemReads(r: RawItem)
    ensures ReadItem(r).Some? <==> Readable(r)
    ensures ReadItem(r).Some? ==> AsSent(r, ReadItem(r).value.target, ReadItem(r).value.how, ReadItem(r).value.words)
  {
    if ReadItem(r).Some? {
      var words := ReadItem(r).value.words;
      assert SaidAs(r, words) && 0 < |words| <= LEAD_WHY_MAX;
    }
    if Readable(r) {
      var words :| SaidAs(r, words) && 0 < |words| <= LEAD_WHY_MAX;
      assert (if r.how.value == Folded then r.where.Or(r.why) else r.why) == Some(words);
    }
  }

  // --- what a batch is answered ---

  /** No two items name one thing. */
  ghost predicate NamedOnce(raw: seq<RawItem>) {
    forall i, j, t :: 0 <= i < j < |raw| && Names(raw[i], t) ==> !Names(raw[j], t)
  }

  lemma AllReadWhole(raw: seq<RawItem>) returns (items: seq<Item>)
    requires forall r :: r in raw ==> Readable(r)
    ensures ReadsWhole(raw, items) && forall i :: 0 <= i < |raw| ==> Names(raw[i], items[i].target)
  {
    forall i | 0 <= i < |raw| ensures ReadItem(raw[i]).Some? && Names(raw[i], ReadItem(raw[i]).value.target) {
      assert raw[i] in raw;
      ItemReads(raw[i]);
    }
    items := seq(|raw|, i requires 0 <= i < |raw| => ReadItem(raw[i]).value);
  }

  lemma NoProblemMeans(raw: seq<RawItem>)
    ensures ReadItems(raw).1 == 0 <==> (forall r :: r in raw ==> Readable(r)) && NamedOnce(raw)
  {
    ReadItemsWhole(raw);
    if ReadItems(raw).1 == 0 {
      var items: seq<Item> :| ReadsWhole(raw, items) && DistinctItems(items);
      forall i | 0 <= i < |raw| ensures Readable(raw[i]) && Names(raw[i], items[i].target) {
        ItemReads(raw[i]);
      }
      forall i, j, t | 0 <= i < j < |raw| && Names(raw[i], t) ensures !Names(raw[j], t) {
        NamesOne(raw[i], t, items[i].target);
        if Names(raw[j], t) { NamesOne(raw[j], t, items[j].target); }
      }
    }
    if (forall r :: r in raw ==> Readable(r)) && NamedOnce(raw) {
      var items := AllReadWhole(raw);
      forall i, j | 0 <= i < j < |items| ensures items[i].target != items[j].target {
        assert Names(raw[i], items[i].target) && Names(raw[j], items[j].target);
      }
    }
  }

  lemma NamesOne(r: RawItem, t: Target, u: Target)
    requires Readable(r) && Names(r, t) && Names(r, u)
    ensures t == u
  {
  }

  /** A digest as it may be given: 12 to 64 hexadecimal digits, in lower case. */
  predicate GivenDigest(digest: string) {
    |digest| >= 12 && |digest| <= 64 && forall i :: 0 <= i < |digest| ==> digest[i] in "0123456789abcdef"
  }

  /** A key as it may be given: something, of at most 200 characters, none of them a control character. */
  predicate GivenKey(key: string) {
    key != "" && |key| <= 200 && forall i :: 0 <= i < |key| ==> key[i] as int >= 32 && key[i] as int != 127
  }

  predicate HexChar(c: char) {
    '0' <= c <= '9' || 'a' <= c <= 'f'
  }

  predicate Shown(c: char) {
    ' ' <= c && c != '\U{7f}'
  }

  lemma GivenMeans(text: string)
    ensures HexPrefix(text) <==> GivenDigest(text)
    ensures KeyOk(text) <==> GivenKey(text)
  {
    forall i | 0 <= i < |text| ensures HexChar(text[i]) <==> text[i] in "0123456789abcdef" {
      HexDigit(text[i]);
    }
    assert (forall c :: c in text ==> HexChar(c)) <==> (forall i :: 0 <= i < |text| ==> HexChar(text[i]));
    assert (forall c :: c in text ==> Shown(c)) <==> (forall i :: 0 <= i < |text| ==> Shown(text[i]));
  }

  lemma HexDigit(c: char)
    ensures HexChar(c) <==> c in "0123456789abcdef"
  {
  }

  /** A batch is well formed when its items all read, none named twice, with a generation, a digest and a key that are. */
  lemma WellFormedMeans(batch: Batch)
    ensures WellFormed(batch) <==>
              && batch.items != [] && (forall r :: r in batch.items ==> Readable(r)) && NamedOnce(batch.items)
              && batch.generation.Whole? && GivenDigest(batch.digest) && (batch.key.Some? ==> GivenKey(batch.key.value))
  {
    NoProblemMeans(batch.items);
    GivenMeans(batch.digest);
    if batch.key.Some? { GivenMeans(batch.key.value); }
  }

  /** The batch is the coordinator's, at its generation, of the version the report has, each item late. */
  ghost predicate Current(env: Env, st: FinishState, me: Seat, batch: Batch) {
    && st.lease.Some? && st.lease.value.holder == me
    && batch.generation == Whole(st.lease.value.generation)
    && ReportDigest(env, st.lease.value.report).Some? && batch.digest <= ReportDigest(env, st.lease.value.report).value
    && forall x :: x in ReadItems(batch.items).0 ==> Named(LateNow(env, st), x.target)
  }

  /** Which answer a well-formed batch gets, each exactly when. */
  lemma BatchAnswers(env: Env, st: FinishState, me: Seat, batch: Batch, key: string)
    requires WellFormed(batch)
    ensures var items, prior, reply := ReadItems(batch.items).0, Prior(st.resolutions, me, key), AnswerBatch(env, st, me, batch, key);
            var mine := st.lease.Some? && st.lease.value.holder == me;
            var over := forall x :: x in items ==> Resolved(st, x.target) && !Named(LateNow(env, st), x.target);
            && (reply.Recorded? <==> prior == [] && Current(env, st, me, batch))
            && (reply.Replayed? <==> prior != [] && SameBatch(prior, items))
            && (reply.OtherBatch? <==> prior != [] && !SameBatch(prior, items))
            && (reply.NotCoordinator? <==> prior == [] && !mine)
            && (reply.AllResolved? <==> prior == [] && mine && over)
            && (reply.Stale? <==> prior == [] && mine && !over && !Current(env, st, me, batch))
  {
    var items := ReadItems(batch.items).0;
    ReadItemsWhole(batch.items);
    assert items[0] in items;
    assert forall x :: x in items ==> (ResolvedItem(env, st, x) <==> Resolved(st, x.target) && !Named(LateNow(env, st), x.target));
  }

  // --- what is recorded ---

  /** The resolution answers what was sent, as the seat's own, bound to the report's digest. */
  ghost predicate ResolvesAsSent(x: Resolution, r: RawItem, env: Env, lease: LeaseState, me: Seat, key: string) {
    && AsSent(r, x.target, x.how, x.why)
    && x.seat == me && x.batch == Some(key) && x.generation == Some(lease.generation) && x.digest == ReportDigest(env, lease.report)
  }

  lemma DraftAsSent(env: Env, st: FinishState, me: Seat, batch: Batch, key: string, k: nat)
    requires AnswerBatch(env, st, me, batch, key).Recorded? && k < |batch.items|
    ensures st.lease.Some?
    ensures var drafts := BatchDrafts(env, st, me, batch, key);
            && |drafts| == |batch.items| && drafts[k].Resolve? && drafts[k].how.Some?
            && AsSent(batch.items[k], drafts[k].target, drafts[k].how.value, drafts[k].why)
            && drafts[k].seat == me && drafts[k].batch == Some(key) && drafts[k].generation == Some(st.lease.value.generation)
            && drafts[k].digest == ReportDigest(env, st.lease.value.report)
  {
    ReadItemsWhole(batch.items);
    ItemReads(batch.items[k]);
  }

  lemma {:induction false} ResolutionsAre(n: nat, drafts: seq<Event>, k: nat)
    requires (forall e :: e in drafts ==> e.Resolve? && e.how.Some?) && k < |drafts|
    ensures var x, e := ResolutionsOf(n, drafts)[k], drafts[k];
            && e in drafts
            && x == Resolution(n + k + 1, e.seat, e.target, e.how.value, e.why, e.digest, e.batch, e.generation)
  {
    if k < |drafts| - 1 {
      ResolutionsAre(n, drafts[..|drafts| - 1], k);
    }
  }

  /** The batch is to be recorded: well formed, nothing under its key yet, and current. */
  ghost predicate Recordable(env: Env, st: FinishState, me: Seat, batch: Batch, key: string) {
    WellFormed(batch) && Prior(st.resolutions, me, key) == [] && Current(env, st, me, batch)
  }

  /** The state with the batch's resolutions, one for one and in order what was sent. */
  ghost predicate ResolvedAsSent(env: Env, st: FinishState, now: FinishState, me: Seat, batch: Batch, key: string) {
    && st.lease.Some? && now == st.(resolutions := now.resolutions)
    && |now.resolutions| == |st.resolutions| + |batch.items| && st.resolutions <= now.resolutions
    && forall k :: 0 <= k < |batch.items| ==>
         ResolvesAsSent(now.resolutions[|st.resolutions| + k], batch.items[k], env, st.lease.value, me, key)
  }

  lemma RecordedIsRecordable(env: Env, st: FinishState, me: Seat, batch: Batch, key: string)
    ensures AnswerBatch(env, st, me, batch, key).Recorded? <==> Recordable(env, st, me, batch, key)
  {
    if WellFormed(batch) { BatchAnswers(env, st, me, batch, key); }
  }

  lemma RecordedResolves(env: Env, log: seq<Event>, me: Seat, batch: Batch, key: string)
    requires AnswerBatch(env, Fold(log), me, batch, key).Recorded?
    ensures ResolvedAsSent(env, Fold(log), Fold(log + BatchDrafts(env, Fold(log), me, batch, key)), me, batch, key)
  {
    var st, drafts := Fold(log), BatchDrafts(env, Fold(log), me, batch, key);
    DraftsAreItems(env, log, me, batch, key);
    AppendedAfter(log, drafts);
    EachAsSent(env, log, me, batch, key);
    TailIs(st.resolutions, Fold(log + drafts).resolutions, ResolutionsOf(|log|, drafts));
  }

  lemma EachAsSent(env: Env, log: seq<Event>, me: Seat, batch: Batch, key: string)
    requires AnswerBatch(env, Fold(log), me, batch, key).Recorded?
    requires forall e :: e in BatchDrafts(env, Fold(log), me, batch, key) ==> e.Resolve? && e.how.Some?
    ensures Fold(log).lease.Some?
    ensures var rs := ResolutionsOf(|log|, BatchDrafts(env, Fold(log), me, batch, key));
            && |rs| == |batch.items|
            && forall k :: 0 <= k < |rs| ==> ResolvesAsSent(rs[k], batch.items[k], env, Fold(log).lease.value, me, key)
  {
    DraftAsSent(env, Fold(log), me, batch, key, 0);
    var drafts := BatchDrafts(env, Fold(log), me, batch, key);
    var rs := ResolutionsOf(|log|, drafts);
    forall k | 0 <= k < |rs| ensures ResolvesAsSent(rs[k], batch.items[k], env, Fold(log).lease.value, me, key) {
      DraftAsSent(env, Fold(log), me, batch, key, k);
      ResolutionsAre(|log|, drafts, k);
    }
  }

  lemma TailIs(was: seq<Resolution>, now: seq<Resolution>, more: seq<Resolution>)
    requires now == was + more
    ensures |now| == |was| + |more| && was <= now && forall k :: 0 <= k < |more| ==> now[|was| + k] == more[k]
  {
  }

  lemma BatchAppends(env: Env, log: seq<Event>, me: Seat, batch: Batch, key: string)
    ensures var st, drafts := Fold(log), BatchDrafts(env, Fold(log), me, batch, key);
            if Recordable(env, st, me, batch, key) then ResolvedAsSent(env, st, Fold(log + drafts), me, batch, key)
            else log + drafts == log
  {
    RecordedIsRecordable(env, Fold(log), me, batch, key);
    if Recordable(env, Fold(log), me, batch, key) {
      RecordedResolves(env, log, me, batch, key);
    } else {
      NothingDrafted(env, Fold(log), me, batch, key);
      assert log + [] == log;
    }
  }

  lemma NothingDrafted(env: Env, st: FinishState, me: Seat, batch: Batch, key: string)
    requires !AnswerBatch(env, st, me, batch, key).Recorded?
    ensures BatchDrafts(env, st, me, batch, key) == []
  {
  }

  /**
   * Over every run, a batch is recorded whole or not at all: exactly when it
   * is well formed and current and nothing is under its key; and then the
   * resolutions it adds are what was sent.
   */
  lemma BatchResolvesAsSent(run: Run, i: nat)
    requires IsRun(run) && i < |run.acts| && run.acts[i].ResolvesBatch?
    ensures var s, t, a := run.states[i], run.states[i + 1], run.acts[i];
            if Recordable(s.env, Fold(s.log), a.me, a.batch, a.key) then
              ResolvedAsSent(s.env, Fold(s.log), Fold(t.log), a.me, a.batch, a.key)
            else t.log == s.log
  {
    assert StepAt(run, i);
    BatchAppends(run.states[i].env, run.states[i].log, run.acts[i].me, run.acts[i].batch, run.acts[i].key);
  }

  /** What a step of a run appends. */
  lemma StepAppends(run: Run, i: nat)
    requires IsRun(run) && i < |run.acts|
    ensures run.states[i + 1].log == run.states[i].log + Drafts(run.states[i], run.acts[i])
  {
    assert StepAt(run, i);
  }

  predicate ResolutionTaken(env: Env, st: FinishState, me: Seat, target: Target, why: string) {
    why != "" && st.lease.Some? && st.lease.value.holder == me && Named(LateNow(env, st), target)
  }

  lemma ResolveAppends(env: Env, log: seq<Event>, me: Seat, target: Target, how: How, why: string)
    ensures var st, drafts := Fold(log), ResolveDraft(env, Fold(log), me, target, how, why);
            && (log + drafts != log <==> ResolutionTaken(env, st, me, target, why))
            && (ResolutionTaken(env, st, me, target, why) ==>
                  Fold(log + drafts) == st.(resolutions := st.resolutions
                    + [Resolution(|log| + 1, me, target, how, why, ReportDigest(env, st.lease.value.report), None, None)]))
  {
    var drafts := ResolveDraft(env, Fold(log), me, target, how, why);
    if drafts == [] {
      assert log + drafts == log;
    } else {
      assert drafts == [drafts[0]];
      assert |log + drafts| == |log| + 1;
      FoldAppend(log, drafts[0]);
    }
  }

  /** Over every run, one resolution on its own: recorded, as sent, exactly when it says why, is the coordinator's and of what is late. */
  lemma ResolvesAsAsked(run: Run, i: nat)
    requires IsRun(run) && i < |run.acts| && run.acts[i].Resolves?
    ensures var s, t, a := run.states[i], run.states[i + 1], run.acts[i];
            var st := Fold(s.log);
            && (t.log != s.log <==> ResolutionTaken(s.env, st, a.me, a.target, a.why))
            && (t.log != s.log ==> Fold(t.log) == st.(resolutions := st.resolutions
                  + [Resolution(|s.log| + 1, a.me, a.target, a.how, a.why, ReportDigest(s.env, st.lease.value.report), None, None)]))
  {
    var s, a := run.states[i], run.acts[i];
    StepAppends(run, i);
    ResolveAppends(s.env, s.log, a.me, a.target, a.how, a.why);
  }

  // --- prepares, checks and readiness on the record ---

  /** A prepare as recorded: by the holder of the lease as it then is, of its report at the digest it has, with what is late. */
  ghost predicate PreparedAs(p: Prepared, env: Env, now: FinishState, me: Seat, ready: bool, n: nat) {
    && now.lease.Some? && now.lease.value.holder == me
    && p.num == n && p.seat == me && p.ready == ready && p.revision == Some(env.revision)
    && p.generation == now.lease.value.generation && p.segment == now.lease.value.segment
    && p.report == now.lease.value.report && p.digest == ReportDigest(env, now.lease.value.report) && p.since == now.lease.value.since
    && forall t :: t in p.late <==> Named(LateNow(env, now), t)
  }

  lemma EventIsPrepared(env: Env, after: FinishState, me: Seat, turn: Turn, ready: bool, n: nat)
    requires TurnHolds(after.lease, me, turn)
    ensures var now := FoldEvent(after, PrepareEvent(env, after, me, turn, ready), n);
            && now.lease == after.lease && |now.prepares| == |after.prepares| + 1
            && PreparedAs(now.prepares[|after.prepares|], env, after, me, ready, n)
  {
    var e := PrepareEvent(env, after, me, turn, ready);
    var late := LateItems(env, after, me, turn.report);
    forall t ensures t in e.late <==> Named(late, t) {
      if t in e.late {
        var k :| 0 <= k < |e.late| && e.late[k] == t;
        assert late[k] in late && late[k].target == t;
      }
      if Named(late, t) {
        var x :| x in late && x.target == t;
        var k :| 0 <= k < |late| && late[k] == x;
        assert e.late[k] == t;
      }
    }
  }

  lemma OneAfter(log: seq<Event>, asked: seq<Event>, e: Event)
    ensures |log + (asked + [e])| == |log + asked| + 1
    ensures Fold(log + (asked + [e])) == FoldEvent(Fold(log + asked), e, |log + asked| + 1)
  {
    assert log + (asked + [e]) == log + asked + [e];
    FoldAppend(log + asked, e);
  }

  lemma OwnTurnPrepares(env: Env, log: seq<Event>, me: Seat, report: Option<Path>, ready: bool)
    requires AskLease(env, Fold(log), me, report).0.mine
    ensures var (turn, asked) := AskLease(env, Fold(log), me, report);
            var after := Fold(log + asked);
            var all := log + (asked + [PrepareEvent(env, after, me, turn, ready)]);
            var now := Fold(all);
            && now.lease == after.lease && LateNow(env, now) == LateNow(env, after) && now.prepares != []
            && PreparedAs(now.prepares[|now.prepares| - 1], env, after, me, ready, |all|)
  {
    var (turn, asked) := AskLease(env, Fold(log), me, report);
    var after := Fold(log + asked);
    var e := PrepareEvent(env, after, me, turn, ready);
    TurnIsTheLease(env, log, me, report);
    OneAfter(log, asked, e);
    EventIsPrepared(env, after, me, turn, ready, |log + asked| + 1);
    SameAcksSameLate(env, after, Fold(log + (asked + [e])));
  }

  /** A turn is answered as the seat's own exactly when the lease it leaves is the seat's. */
  lemma AskedHolder(env: Env, log: seq<Event>, me: Seat, report: Option<Path>)
    requires !env.finished
    ensures var (turn, asked) := AskLease(env, Fold(log), me, report);
            Fold(log + asked).lease.Some? && (turn.mine <==> Fold(log + asked).lease.value.holder == me)
  {
    var (turn, asked) := AskLease(env, Fold(log), me, report);
    HolderCanAct(env, Fold(log), me, report);
    AskedTurn(env, Fold(log), me, report);
    if asked == [] { assert log + asked == log; } else { assert asked == [asked[0]]; LeaseAppend(log, asked[0]); }
  }

  lemma AskedTurn(env: Env, st: FinishState, me: Seat, report: Option<Path>)
    requires !env.finished
    ensures var (turn, asked) := AskLease(env, st, me, report);
            && |asked| <= 1 && (asked != [] ==> asked[0].Lease?)
            && var now := if asked == [] then st.lease else FoldLease(st.lease, asked[0]);
               now.Some? && now.value.holder == turn.holder
  {
  }

  /** Over every run, a prepare that asks records what is late under the lease it leaves exactly when that lease is the seat's. */
  lemma PrepareRecords(run: Run, i: nat)
    requires IsRun(run) && i < |run.acts| && run.acts[i].Prepares? && Asks(run.states[i], run.acts[i])
    ensures var t, a := run.states[i + 1], run.acts[i];
            PreparedLast(run.states[i].env, Fold(t.log), a.me, a.ready, |t.log|)
  {
    var s, a := run.states[i], run.acts[i];
    StepAppends(run, i);
    PreparesLast(s.env, s.log, a.me, a.path, a.ready);
  }

  /** The lease is there, and where it is the seat's the last prepare is this one, of what is late now. */
  ghost predicate PreparedLast(env: Env, now: FinishState, me: Seat, ready: bool, n: nat) {
    && now.lease.Some?
    && (now.lease.value.holder == me ==>
          now.prepares != [] && PreparedAs(now.prepares[|now.prepares| - 1], env, now, me, ready, n))
  }

  lemma PreparesLast(env: Env, log: seq<Event>, me: Seat, named: Option<Path>, ready: bool)
    requires !env.finished && ReportDigest(env, named.Or(LeaseReport(Fold(log)))).Some?
    ensures var drafts := PrepareDrafts(env, log, me, named, ready);
            PreparedLast(env, Fold(log + drafts), me, ready, |log + drafts|)
  {
    var report := named.Or(LeaseReport(Fold(log)));
    AskedHolder(env, log, me, report);
    if AskLease(env, Fold(log), me, report).0.mine {
      PreparedDrafts(env, log, me, named, ready);
      OwnTurnPrepares(env, log, me, report, ready);
    } else {
      NotMinePrepares(env, log, me, named, ready);
    }
  }

  lemma NotMinePrepares(env: Env, log: seq<Event>, me: Seat, named: Option<Path>, ready: bool)
    requires var report := named.Or(LeaseReport(Fold(log)));
             !env.finished && ReportDigest(env, report).Some? && !AskLease(env, Fold(log), me, report).0.mine
    ensures PrepareDrafts(env, log, me, named, ready) == AskLease(env, Fold(log), me, named.Or(LeaseReport(Fold(log)))).1
  {
  }

  lemma CheckDraftIs(st: FinishState, seat: Seat, revision: Option<nat>, proceed: bool, run: Option<LineRun>)
    ensures CheckDraft(st, seat, revision, proceed, run)
         == if revision.None? || CheckAt(st.checks, revision.value).Some? then [] else [Check(seat, revision, proceed, run)]
  {
    if revision.Some? { CheckAtFinds(st.checks, revision.value); }
  }

  lemma CheckAppends(log: seq<Event>, seat: Seat, revision: Option<nat>, proceed: bool, run: Option<LineRun>)
    ensures var was, drafts := Fold(log).checks, CheckDraft(Fold(log), seat, revision, proceed, run);
            if revision.None? || CheckAt(was, revision.value).Some? then log + drafts == log
            else Fold(log + drafts).checks == was + [Checked(|log| + 1, seat, revision.value, proceed, run)]
  {
    CheckDraftIs(Fold(log), seat, revision, proceed, run);
    if revision.None? || CheckAt(Fold(log).checks, revision.value).Some? {
      assert log + [] == log;
    } else {
      OneCheck(log, Check(seat, revision, proceed, run));
    }
  }

  lemma OneCheck(log: seq<Event>, e: Event)
    requires e.Check? && e.revision.Some?
    ensures Fold(log + [e]).checks == Fold(log).checks + [Checked(|log| + 1, e.seat, e.revision.value, e.proceed, e.run)]
  {
    FoldAppend(log, e);
    CheckEvent(Fold(log), e, |log| + 1);
  }

  lemma CheckEvent(st: FinishState, e: Event, n: nat)
    requires e.Check? && e.revision.Some?
    ensures FoldEvent(st, e, n).checks == st.checks + [Checked(n, e.seat, e.revision.value, e.proceed, e.run)]
  {
  }

  /** Over every run, a check is recorded for a revision that has none, with what it was told, and is found there; else nothing changes. */
  lemma CheckRecords(run: Run, i: nat)
    requires IsRun(run) && i < |run.acts| && run.acts[i].Checks?
    ensures var s, t, a := run.states[i], run.states[i + 1], run.acts[i];
            var was, now := Fold(s.log).checks, Fold(t.log).checks;
            if a.revision.None? || CheckAt(was, a.revision.value).Some? then t.log == s.log
            else
              && now == was + [Checked(|s.log| + 1, a.me, a.revision.value, a.proceed, a.run)]
              && CheckAt(now, a.revision.value) == Some(now[|was|])
  {
    StepAppends(run, i);
    CheckAppends(run.states[i].log, run.acts[i].me, run.acts[i].revision, run.acts[i].proceed, run.acts[i].run);
  }

  lemma {:induction false} CheckAtFinds(checks: seq<Checked>, revision: nat)
    ensures CheckAt(checks, revision).Some? <==> exists c :: c in checks && c.revision == revision
  {
    if checks != [] {
      CheckAtFinds(checks[..|checks| - 1], revision);
      assert checks == checks[..|checks| - 1] + [checks[|checks| - 1]];
    }
  }

  lemma ReadyAppends(env: Env, log: seq<Event>, ready: bool)
    ensures Fold(log + ReadinessDraft(env, Fold(log), ready))
         == if env.finished then Fold(log) else Fold(log).(readiness := Some(ready))
  {
    var drafts := ReadinessDraft(env, Fold(log), ready);
    if drafts == [] {
      assert log + drafts == log;
    } else {
      assert drafts == [drafts[0]];
      FoldAppend(log, drafts[0]);
    }
  }

  /** Over every run, readiness is as it was last told while the run had not ended. */
  lemma ReadinessRecords(run: Run, i: nat)
    requires IsRun(run) && i < |run.acts| && run.acts[i].TurnsReady?
    ensures var s, t := run.states[i], run.states[i + 1];
            Fold(t.log) == if s.env.finished then Fold(s.log) else Fold(s.log).(readiness := Some(run.acts[i].ready))
  {
    StepAppends(run, i);
    ReadyAppends(run.states[i].env, run.states[i].log, run.acts[i].ready);
  }
}
