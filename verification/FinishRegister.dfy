/**
 * The finish register itself (extensions/finish.ts): the log it extends under
 * its lock, one method per act, each shown to do what its function in
 * FinishActs.dfy says; and the key a batch of resolutions has when none is given.
 */
module FinishRegister {
  import opened Wrappers
  import opened FinishLog
  import opened FinishActs
  import R = Review

  // --- a batch's own key ---

  /** The order the automatic key sorts items in: objections first, then posts, each by number. */
  predicate Before(a: Target, b: Target) {
    match a
    case Objected(m) => b.Post? || m < b.num
    case Post(m) => b.Post? && m < b.id
  }

  function Insert(x: Item, sorted: seq<Item>): seq<Item> {
    if sorted == [] then [x]
    else if Before(sorted[0].target, x.target) then [sorted[0]] + Insert(x, sorted[1..])
    else [x] + sorted
  }

  function Canon(items: seq<Item>): seq<Item> {
    if items == [] then [] else Insert(items[0], Canon(items[1..]))
  }

  /** The canonical text of a batch, before it is hashed: who sent it, at what, and its items in one order. */
  datatype KeyText = KeyText(seat: Seat, generation: nat, digest: string, items: seq<Item>)

  function BatchKey(hash: KeyText -> string, me: Seat, generation: nat, digest: string, items: seq<Item>): string {
    "auto-" + hash(KeyText(me, generation, digest, Canon(items)))
  }

  ghost predicate Ascending(items: seq<Item>) {
    forall i, j :: 0 <= i < j < |items| ==> Before(items[i].target, items[j].target)
  }

  lemma AscendCons(head: Item, tail: seq<Item>)
    ensures Ascending([head] + tail) <==> Ascending(tail) && forall y :: y in tail ==> Before(head.target, y.target)
  {
    var all := [head] + tail;
    assert forall i :: 0 <= i < |tail| ==> all[i + 1] == tail[i];
    if Ascending(all) {
      forall i, j | 0 <= i < j < |tail| ensures Before(tail[i].target, tail[j].target) {
        assert Before(all[i + 1].target, all[j + 1].target);
      }
      forall y | y in tail ensures Before(head.target, y.target) {
        var j :| 0 <= j < |tail| && tail[j] == y;
        assert Before(all[0].target, all[j + 1].target);
      }
    }
  }

  lemma {:induction false} InsertKeeps(x: Item, sorted: seq<Item>)
    ensures multiset(Insert(x, sorted)) == multiset(sorted) + multiset{x}
    ensures forall y :: y in Insert(x, sorted) <==> y in sorted || y == x
  {
    if sorted != [] {
      assert sorted == [sorted[0]] + sorted[1..];
      InsertKeeps(x, sorted[1..]);
    }
  }

  lemma {:induction false} InsertAscends(x: Item, sorted: seq<Item>)
    requires Ascending(sorted) && forall y :: y in sorted ==> y.target != x.target
    ensures Ascending(Insert(x, sorted))
  {
    if sorted != [] {
      var head, tail := sorted[0], sorted[1..];
      assert sorted == [head] + tail;
      AscendCons(head, tail);
      if Before(head.target, x.target) {
        InsertAscends(x, tail);
        InsertKeeps(x, tail);
        AscendCons(head, Insert(x, tail));
      } else {
        AscendCons(x, sorted);
      }
    }
  }

  lemma {:induction false} CanonAscends(items: seq<Item>)
    requires DistinctItems(items)
    ensures Ascending(Canon(items)) && multiset(Canon(items)) == multiset(items)
  {
    if items != [] {
      CanonAscends(items[1..]);
      assert items == [items[0]] + items[1..];
      forall y | y in Canon(items[1..]) ensures y.target != items[0].target {
        assert y in multiset(items[1..]);
      }
      InsertAscends(items[0], Canon(items[1..]));
      InsertKeeps(items[0], Canon(items[1..]));
    }
  }

  lemma {:induction false} AscendingIsUnique(xs: seq<Item>, ys: seq<Item>)
    requires Ascending(xs) && Ascending(ys) && multiset(xs) == multiset(ys)
    ensures xs == ys
  {
    if xs == [] {
      assert |multiset(xs)| == 0 && |multiset(ys)| == |ys|;
    } else {
      assert xs[0] in multiset(xs);
      assert ys != [];
      assert ys[0] in multiset(ys);
      HeadsAgree(xs, ys);
      assert xs == [xs[0]] + xs[1..] && ys == [ys[0]] + ys[1..];
      AscendCons(xs[0], xs[1..]);
      AscendCons(ys[0], ys[1..]);
      assert multiset(xs[1..]) == multiset(xs) - multiset{xs[0]};
      assert multiset(ys[1..]) == multiset(ys) - multiset{ys[0]};
      AscendingIsUnique(xs[1..], ys[1..]);
    }
  }

  lemma HeadsAgree(xs: seq<Item>, ys: seq<Item>)
    requires Ascending(xs) && Ascending(ys) && xs != [] && ys != []
    requires xs[0] in ys && ys[0] in xs
    ensures xs[0] == ys[0]
  {
    var i :| 0 <= i < |xs| && xs[i] == ys[0];
    var j :| 0 <= j < |ys| && ys[j] == xs[0];
    assert i == 0 || Before(xs[0].target, ys[0].target);
    assert j == 0 || Before(ys[0].target, xs[0].target);
  }

  /** The automatic key is a function of the set of items: permuting distinct targets does not change it. */
  lemma AutoKeyIgnoresOrder(hash: KeyText -> string, me: Seat, generation: nat, digest: string, xs: seq<Item>, ys: seq<Item>)
    requires DistinctItems(xs) && DistinctItems(ys) && multiset(xs) == multiset(ys)
    ensures BatchKey(hash, me, generation, digest, xs) == BatchKey(hash, me, generation, digest, ys)
  {
    CanonAscends(xs);
    CanonAscends(ys);
    AscendingIsUnique(Canon(xs), Canon(ys));
  }

  /** And, the hash having no collisions, another batch, generation, digest or seat has another key. */
  lemma AutoKeyTellsBatchesApart(hash: KeyText -> string, a: KeyText, b: KeyText)
    requires forall x, y :: hash(x) == hash(y) ==> x == y
    requires DistinctItems(a.items) && DistinctItems(b.items)
    requires BatchKey(hash, a.seat, a.generation, a.digest, a.items) == BatchKey(hash, b.seat, b.generation, b.digest, b.items)
    ensures a.seat == b.seat && a.generation == b.generation && a.digest == b.digest
    ensures multiset(a.items) == multiset(b.items)
  {
    var x := KeyText(a.seat, a.generation, a.digest, Canon(a.items));
    var y := KeyText(b.seat, b.generation, b.digest, Canon(b.items));
    assert hash(x) == ("auto-" + hash(x))[5..];
    assert hash(y) == ("auto-" + hash(y))[5..];
    assert x == y;
    CanonAscends(a.items);
    CanonAscends(b.items);
  }

  /** The items a batch is read into never name one thing twice, and each was sent. */
  lemma {:induction false} ReadItemsDistinct(raw: seq<RawItem>)
    ensures DistinctItems(ReadItems(raw).0)
    ensures forall x :: x in ReadItems(raw).0 ==> exists r :: r in raw && ReadItem(r) == Some(x)
  {
    if raw != [] {
      var most, last := raw[..|raw| - 1], raw[|raw| - 1];
      ReadItemsDistinct(most);
      forall x | x in ReadItems(raw).0
        ensures exists r :: r in raw && ReadItem(r) == Some(x)
      {
        if x in ReadItems(most).0 {
          var r :| r in most && ReadItem(r) == Some(x);
          assert r in raw;
        } else {
          assert last in raw;
        }
      }
    }
  }

  ghost predicate ReadsWhole(raw: seq<RawItem>, items: seq<Item>) {
    |items| == |raw| && forall i :: 0 <= i < |raw| ==> ReadItem(raw[i]) == Some(items[i])
  }

  /** A batch has no problem exactly when every item reads and no two name one thing; then the items are those sent. */
  lemma {:induction false} ReadItemsWhole(raw: seq<RawItem>)
    ensures ReadItems(raw).1 == 0 ==> ReadsWhole(raw, ReadItems(raw).0)
    ensures ReadItems(raw).1 == 0 <==> exists items :: ReadsWhole(raw, items) && DistinctItems(items)
  {
    ReadItemsDistinct(raw);
    if raw == [] {
      assert ReadsWhole(raw, []);
    } else {
      var most, n := raw[..|raw| - 1], |raw| - 1;
      ReadItemsWhole(most);
      if items: seq<Item> :| ReadsWhole(raw, items) && DistinctItems(items) {
        assert ReadsWhole(most, items[..n]) && DistinctItems(items[..n]);
        assert ReadItems(most).0 == items[..n];
        assert forall x: Item :: x in items[..n] ==> x.target != items[n].target;
      }
    }
  }

  class FinishRegister {
    var log: seq<Event>
    const hash: KeyText -> string

    constructor (hash: KeyText -> string)
      ensures log == [] && this.hash == hash
    {
      log := [];
      this.hash := hash;
    }

    /** Appends drafts in order; each takes the next seq. */
    method AppendFinish(drafts: seq<Event>)
      modifies this`log
      ensures log == old(log) + drafts
    {
      var i := 0;
      while i < |drafts|
        invariant 0 <= i <= |drafts|
        invariant log == old(log) + drafts[..i]
      {
        log := log + [drafts[i]];
        i := i + 1;
      }
    }

    method ListCarried(st: FinishState, carried: seq<CarriedPost>) returns (out: seq<LateItem>)
      ensures out == CarriedLate(st, carried)
    {
      out := [];
      for i := 0 to |carried|
        invariant out == CarriedLate(st, carried[..i])
      {
        assert carried[..i + 1][..i] == carried[..i];
        var c := carried[i];
        if !Resolved(st, Post(c.id)) && !Named(out, Post(c.id)) {
          out := out + [LateItem(Post(c.id), c.seat, Some(c.tag))];
        }
      }
      assert carried[..|carried|] == carried;
    }

    method ListPosts(st: FinishState, first: seq<LateItem>, posts: seq<BoardPost>, coordinator: Seat, since: Time)
      returns (out: seq<LateItem>)
      ensures out == PostsLate(st, first, posts, coordinator, since)
    {
      out := first;
      for i := 0 to |posts|
        invariant out == PostsLate(st, first, posts[..i], coordinator, since)
      {
        assert posts[..i + 1][..i] == posts[..i];
        var p := posts[i];
        if !IsCorrection(p, coordinator, since) || Resolved(st, Post(p.id)) || Named(out, Post(p.id)) { continue; }
        if Restating(p) { continue; }
        out := out + [LateItem(Post(p.id), p.from, Some(p.tag))];
      }
      assert posts[..|posts|] == posts;
    }

    method ListObjections(st: FinishState, first: seq<LateItem>, acks: seq<FinishAck>) returns (out: seq<LateItem>)
      ensures out == ObjectionsLate(st, first, acks)
    {
      out := first;
      for i := 0 to |acks|
        invariant out == ObjectionsLate(st, first, acks[..i])
      {
        assert acks[..i + 1][..i] == acks[..i];
        var a := acks[i];
        if a.verdict != Objection { continue; }
        if Resolved(st, Objected(a.num)) { continue; }
        if AnsweredLater(st.acks, a) { continue; }
        out := out + [LateItem(Objected(a.num), a.seat, None)];
      }
      assert acks[..|acks|] == acks;
    }

    /** The late list, built by three loops: carried posts, then corrections, then objections. */
    method ListLate(env: Env, coordinator: Seat, report: Option<Path>) returns (out: seq<LateItem>)
      ensures out == LateItems(env, Fold(log), coordinator, report)
    {
      if report.None? { return []; }
      var st := ReadFinish(log);
      out := ListCarried(st, if st.lease.Some? then st.lease.value.carried else []);
      out := ListPosts(st, out, env.posts, coordinator, Boundary(env, st, report.value));
      out := ListObjections(st, out, st.acks);
    }

    /** A done's turn, or a prepare's: the lease as asked for now, under the lock the caller holds. */
    method TakeLease(env: Env, me: Seat, report: Option<Path>) returns (turn: Turn)
      modifies this`log
      ensures turn == AskLease(env, Fold(old(log)), me, report).0
      ensures log == old(log) + AskLease(env, Fold(old(log)), me, report).1
    {
      var st := ReadFinish(log);
      if env.finished {
        turn := AskLease(env, st, me, report).0;
        assert log == log + [];
        return;
      }
      if st.lease.None? {
        var holder := Designate(env, me, report);
        var e := Lease(me, Some(holder), Some(1), report, WrittenAt(env, report), SegmentOf(env), None);
        AppendFinish([e]);
        return Turn(holder == me, holder, 1, None, report);
      }
      var lease := st.lease.value;
      var path := report.Or(lease.report);
      if |env.resumes| > lease.segment {
        var kept := StillLate(env, st);
        var holder := Designate(env, me, path);
        var e := Lease(me, Some(holder), Some(lease.generation + 1), path, WrittenAt(env, path), SegmentOf(env), Some(kept));
        AppendFinish([e]);
        return Turn(holder == me, holder, lease.generation + 1, None, path);
      }
      if lease.holder == me {
        var since := if lease.since.None? then WrittenAt(env, path) else None;
        if (report.Some? && report != lease.report) || since.Some? {
          var e := Lease(me, Some(me), Some(lease.generation), report, since, SegmentOf(env), None);
          AppendFinish([e]);
        } else {
          assert log == log + [];
        }
        return Turn(true, me, lease.generation, None, path);
      }
      if lease.holder !in env.unavailable {
        assert log == log + [];
        return Turn(false, lease.holder, lease.generation, None, lease.report);
      }
      var e := Lease(me, Some(me), Some(lease.generation + 1), path, lease.since.Or(WrittenAt(env, path)), SegmentOf(env), None);
      AppendFinish([e]);
      return Turn(true, me, lease.generation + 1, Some(lease.holder), path);
    }

    /** Prepares the finish: the lease as a done asks for it, and a record of what is late then. */
    method PrepareFinish(env: Env, me: Seat, named: Option<Path>, ready: bool) returns (late: Option<seq<LateItem>>)
      modifies this`log
      ensures log == old(log) + PrepareDrafts(env, old(log), me, named, ready)
      ensures late.Some? ==> late.value == LateNow(env, Fold(log)) && Fold(log).lease.Some? && Fold(log).lease.value.holder == me
    {
      var st := ReadFinish(log);
      var report := named.Or(if st.lease.Some? then st.lease.value.report else None);
      if env.finished || ReportDigest(env, report).None? {
        assert log == log + [];
        return None;
      }
      var turn := TakeLease(env, me, report);
      if !turn.mine { return None; }
      TurnIsTheLease(env, old(log), me, report);
      PreparedDrafts(env, old(log), me, named, ready);
      var items := RecordPrepared(env, me, turn, ready);
      return Some(items);
    }

    /** The record of a prepare on a turn that is the seat's: what is late then, which it leaves as it was. */
    method RecordPrepared(env: Env, me: Seat, turn: Turn, ready: bool) returns (items: seq<LateItem>)
      requires TurnHolds(Fold(log).lease, me, turn)
      modifies this`log
      ensures log == old(log) + [PrepareEvent(env, Fold(old(log)), me, turn, ready)]
      ensures items == LateNow(env, Fold(log)) && Fold(log).lease == Fold(old(log)).lease
    {
      var after := ReadFinish(log);
      items := ListLate(env, me, turn.report);
      var targets := seq(|items|, i requires 0 <= i < |items| => items[i].target);
      var e := Prepare(me, Some(turn.generation), turn.report, ReportDigest(env, turn.report), after.lease.value.since,
                       if after.lease.value.segment > 0 then Some(after.lease.value.segment) else None,
                       ready, Some(env.revision), targets);
      assert e == PrepareEvent(env, after, me, turn, ready);
      FoldAppend(log, e);
      AppendFinish([e]);
      SameAcksSameLate(env, after, Fold(log));
    }

    /** The reviews weighed for the version the finish's report has, when an ack has come that asks for it. */
    method AppendCarry(env: Env) returns (recorded: bool)
      requires forall path :: path in env.reports ==> R.ValidCurrent(CurrentOf(env.reports[path]))
      modifies this`log
      ensures log == old(log) + CarryDraft(env, Fold(old(log)))
      ensures recorded <==> log != old(log)
    {
      assert log == log + [];
      recorded := false;
      var st := ReadFinish(log);
      if !Due(env, st) { return; }
      var report := st.lease.value.report.value;
      var kept, reasked := R.ListCarries(st.acks, report, CurrentOf(env.reports[report]));
      if kept == [] && reasked == [] { return; }
      AppendFinish([Carry(SYSTEM, Some(report), Some(env.reports[report].digest), kept, reasked)]);
      recorded := true;
    }

    /** An ack appended as AckDraft has it, or refused, the log being as it was. */
    method AckReport(env: Env, me: Seat, verdict: Verdict, why: string, named: Option<Path>, digest: Option<Digest>, keys: seq<string>)
      returns (acked: bool)
      modifies this`log
      ensures log == old(log) + AckDraft(env, Fold(old(log)), me, verdict, why, named, digest, keys)
      ensures acked <==> log != old(log)
    {
      assert log == log + [];
      acked := false;
      if (verdict == Objection && why == "") || |why| > LEAD_WHY_MAX { return; }
      var st := ReadFinish(log);
      var leased := if st.lease.Some? then st.lease.value.report else None;
      if leased.Some? && named.Some? && named != leased { return; }
      var report := leased.Or(named);
      if report.None? || report.value !in env.reports { return; }
      var r := env.reports[report.value];
      if digest.Some? && digest.value != r.digest { return; }
      if st.lease.Some? && st.lease.value.holder == me { return; }
      var covered := r.sections;
      if keys != [] {
        covered := map[];
        for i := 0 to |keys|
          invariant forall k :: k in keys[..i] ==> k in r.sections
          invariant covered == map k | k in keys[..i] && k in r.sections :: r.sections[k]
        {
          assert keys[..i + 1] == keys[..i] + [keys[i]];
          if keys[i] !in r.sections {
            assert keys[i] in keys;
            return;
          }
          covered := covered[keys[i] := r.sections[keys[i]]];
        }
        assert keys[..|keys|] == keys;
      }
      AppendFinish([AckOf(me, Some(r.digest), Some(verdict), if leased.Some? then None else report, Some(covered), keys == [])]);
      acked := true;
    }

    /** One typed resolution, of an item that is late now; the coordinator's only. */
    method ResolveOne(env: Env, me: Seat, target: Target, how: How, why: string) returns (recorded: bool)
      modifies this`log
      ensures log == old(log) + ResolveDraft(env, Fold(old(log)), me, target, how, why)
      ensures recorded <==> log != old(log)
    {
      recorded := false;
      var st := ReadFinish(log);
      if why == "" || st.lease.None? || st.lease.value.holder != me {
        assert log == log + [];
        return;
      }
      var open := ListLate(env, me, st.lease.value.report);
      var i := 0;
      while i < |open| && open[i].target != target
        invariant 0 <= i <= |open|
        invariant forall k :: 0 <= k < i ==> open[k].target != target
      {
        i := i + 1;
      }
      if i == |open| {
        assert log == log + [];
        return;
      }
      assert open[i] in open;
      AppendFinish([Resolve(me, target, Some(how), why, ReportDigest(env, st.lease.value.report), None, None)]);
      recorded := true;
    }

    /** The items of a batch read one by one, a problem each for the malformed and the named twice. */
    method ReadBatch(raw: seq<RawItem>) returns (items: seq<Item>, problems: nat)
      ensures (items, problems) == ReadItems(raw)
    {
      items, problems := [], 0;
      for i := 0 to |raw|
        invariant (items, problems) == ReadItems(raw[..i])
      {
        assert raw[..i + 1][..i] == raw[..i];
        var r := ReadItem(raw[i]);
        if r.None? || ItemNamed(items, r.value.target) {
          problems := problems + 1;
        } else {
          items := items + [r.value];
        }
      }
      assert raw[..|raw|] == raw;
    }

    /** The resolutions this seat recorded under the key before. */
    method FindPrior(resolutions: seq<Resolution>, me: Seat, key: string) returns (prior: seq<Resolution>)
      ensures prior == Prior(resolutions, me, key)
    {
      prior := [];
      for i := 0 to |resolutions|
        invariant prior == Prior(resolutions[..i], me, key)
      {
        assert resolutions[..i + 1][..i] == resolutions[..i];
        if resolutions[i].batch == Some(key) && resolutions[i].seat == me {
          prior := prior + [resolutions[i]];
        }
      }
      assert resolutions[..|resolutions|] == resolutions;
    }

    /** The key a batch is recorded under: the one it carries, or its own content's. */
    function KeyOf(me: Seat, batch: Batch): (key: string)
      ensures batch.key.Some? ==> key == batch.key.value
      ensures batch.key.None? ==> "auto-" <= key
    {
      if batch.key.Some? then batch.key.value
      else BatchKey(hash, me, if batch.generation.Whole? then batch.generation.n else 0, batch.digest, ReadItems(batch.items).0)
    }

    /** How many of a batch's items are not late now, and how many of those were resolved already. */
    method WeighItems(env: Env, st: FinishState, items: seq<Item>) returns (notLate: nat, resolvedAlready: nat)
      requires st == Fold(log) && st.lease.Some?
      ensures notLate == 0 <==> !exists x :: x in items && !Named(LateNow(env, st), x.target)
      ensures resolvedAlready == |items| <==> forall x :: x in items ==> ResolvedItem(env, st, x)
    {
      var open := ListLate(env, st.lease.value.holder, st.lease.value.report);
      notLate, resolvedAlready := 0, 0;
      for i := 0 to |items|
        invariant 0 <= resolvedAlready <= notLate <= i
        invariant notLate == 0 <==> forall k :: 0 <= k < i ==> Named(open, items[k].target)
        invariant resolvedAlready == i <==> forall k :: 0 <= k < i ==> ResolvedItem(env, st, items[k])
      {
        if Named(open, items[i].target) { continue; }
        if Resolved(st, items[i].target) {
          resolvedAlready := resolvedAlready + 1;
        }
        notLate := notLate + 1;
      }
    }

    /**
     * A batch answered by JudgeBatch: the log grows by all of its events when
     * the answer is Recorded, and by none otherwise.
     */
    method ResolveBatch(env: Env, me: Seat, batch: Batch) returns (reply: BatchReply)
      modifies this`log
      ensures reply == AnswerBatch(env, Fold(old(log)), me, batch, KeyOf(me, batch))
      ensures log == old(log) + BatchDrafts(env, Fold(old(log)), me, batch, KeyOf(me, batch))
      ensures !reply.Recorded? ==> log == old(log)
      ensures reply.Recorded? ==> reply.count == |batch.items| && |log| == |old(log)| + |batch.items|
    {
      ReadItemsWhole(batch.items);
      var items, problems := ReadBatch(batch.items);
      if batch.items == [] || problems > 0 || !batch.generation.Whole? || !HexPrefix(batch.digest)
         || (batch.key.Some? && !KeyOk(batch.key.value)) {
        assert log == log + [];
        return Malformed;
      }
      var key := if batch.key.Some? then batch.key.value else BatchKey(hash, me, batch.generation.n, batch.digest, items);
      assert key == KeyOf(me, batch);
      var st := ReadFinish(log);
      var prior := FindPrior(st.resolutions, me, key);
      if prior != [] {
        assert log == log + [];
        return if SameBatch(prior, items) then Replayed(prior) else OtherBatch;
      }
      if st.lease.None? || st.lease.value.holder != me {
        assert log == log + [];
        return NotCoordinator;
      }
      var lease := st.lease.value;
      var notLate, resolvedAlready := WeighItems(env, st, items);
      if resolvedAlready == |items| {
        assert log == log + [];
        return AllResolved;
      }
      var current := ReportDigest(env, lease.report);
      if batch.generation.n != lease.generation || current.None? || !(batch.digest <= current.value) || notLate > 0 {
        assert log == log + [];
        return Stale;
      }
      var drafts := seq(|items|, i requires 0 <= i < |items| => BatchEvent(env, st, me, key, items[i]));
      AppendFinish(drafts);
      return Recorded(|items|);
    }

    /** A check appended unless the revision is unknown or has one. */
    method RecordCheck(seat: Seat, revision: Option<nat>, proceed: bool, run: Option<LineRun>)
      modifies this`log
      ensures log == old(log) + CheckDraft(Fold(old(log)), seat, revision, proceed, run)
      ensures revision.Some? ==> exists c :: c in Fold(log).checks && c.revision == revision.value
    {
      assert log == log + [];
      if revision.None? { return; }
      var st := ReadFinish(log);
      for i := 0 to |st.checks|
        invariant forall k :: 0 <= k < i ==> st.checks[k].revision != revision.value
      {
        if st.checks[i].revision == revision.value { return; }
      }
      var e := Check(seat, revision, proceed, run);
      FoldAppend(log, e);
      assert Checked(|log| + 1, seat, revision.value, proceed, run) in Fold(log + [e]).checks;
      AppendFinish([e]);
    }

    /** Appends readiness when it differs from the last recorded; a first `false` is appended and not reported as turned. */
    method SyncReadiness(env: Env, ready: bool) returns (turned: bool)
      modifies this`log
      ensures log == old(log) + ReadinessDraft(env, Fold(old(log)), ready)
      ensures turned <==> log != old(log) && (ready || Fold(old(log)).readiness.Some?)
      ensures !env.finished ==> Fold(log).readiness == Some(ready)
    {
      assert log == log + [];
      turned := false;
      var st := ReadFinish(log);
      if st.readiness == Some(ready) || env.finished { return; }
      var e := Readiness(ready, Some(env.revision));
      FoldAppend(log, e);
      AppendFinish([e]);
      turned := st.readiness.Some? || ready;
    }
  }

  /** A prepare by the seat whose finish it is appends what its asking appends, then its own event. */
  lemma PreparedDrafts(env: Env, log: seq<Event>, me: Seat, named: Option<Path>, ready: bool)
    requires var report := named.Or(if Fold(log).lease.Some? then Fold(log).lease.value.report else None);
             !env.finished && ReportDigest(env, report).Some? && AskLease(env, Fold(log), me, report).0.mine
    ensures var report := named.Or(if Fold(log).lease.Some? then Fold(log).lease.value.report else None);
            var (turn, asked) := AskLease(env, Fold(log), me, report);
            PrepareDrafts(env, log, me, named, ready) == asked + [PrepareEvent(env, Fold(log + asked), me, turn, ready)]
  {
  }

  /** A turn that is mine is the lease as it then stands. */
  lemma TurnIsTheLease(env: Env, log: seq<Event>, me: Seat, report: Option<Path>)
    requires AskLease(env, Fold(log), me, report).0.mine
    ensures var (turn, asked) := AskLease(env, Fold(log), me, report);
            TurnHolds(Fold(log + asked).lease, me, turn)
  {
    var (turn, asked) := AskLease(env, Fold(log), me, report);
    AskedTurnHolds(env, Fold(log), me, report);
    if asked == [] {
      assert log + asked == log;
    } else {
      assert asked == [asked[0]];
      LeaseAppend(log, asked[0]);
    }
  }

  predicate TurnHolds(lease: Option<LeaseState>, me: Seat, turn: Turn) {
    lease.Some? && lease.value.holder == me && lease.value.generation == turn.generation && lease.value.report == turn.report
  }

  lemma AskedTurnHolds(env: Env, st: FinishState, me: Seat, report: Option<Path>)
    requires AskLease(env, st, me, report).0.mine
    ensures var (turn, asked) := AskLease(env, st, me, report);
            && |asked| <= 1 && (asked != [] ==> asked[0].Lease?)
            && TurnHolds(if asked == [] then st.lease else FoldLease(st.lease, asked[0]), me, turn)
  {
  }

  /** What is late reads only the lease, the acks and the resolutions of the state. */
  lemma SameAcksSameLate(env: Env, a: FinishState, b: FinishState)
    requires a.lease == b.lease && a.acks == b.acks && a.resolutions == b.resolutions
    ensures forall coordinator, report :: LateItems(env, a, coordinator, report) == LateItems(env, b, coordinator, report)
  {
    forall coordinator, report
      ensures LateItems(env, a, coordinator, report) == LateItems(env, b, coordinator, report)
    {
      var carried := if a.lease.Some? then a.lease.value.carried else [];
      CarriedLateReads(a, b, carried);
      if report.Some? {
        PostsLateReads(a, b, CarriedLate(a, carried), env.posts, coordinator, Boundary(env, a, report.value));
        ObjectionsLateReads(a, b, PostsLate(a, CarriedLate(a, carried), env.posts, coordinator, Boundary(env, a, report.value)), a.acks);
      }
    }
  }

  lemma {:induction false} CarriedLateReads(a: FinishState, b: FinishState, carried: seq<CarriedPost>)
    requires a.resolutions == b.resolutions
    ensures CarriedLate(a, carried) == CarriedLate(b, carried)
  {
    if carried != [] { CarriedLateReads(a, b, carried[..|carried| - 1]); }
  }

  lemma {:induction false} PostsLateReads(
    a: FinishState, b: FinishState, first: seq<LateItem>, posts: seq<BoardPost>, coordinator: Seat, since: Time)
    requires a.resolutions == b.resolutions
    ensures PostsLate(a, first, posts, coordinator, since) == PostsLate(b, first, posts, coordinator, since)
  {
    if posts != [] { PostsLateReads(a, b, first, posts[..|posts| - 1], coordinator, since); }
  }

  lemma {:induction false} ObjectionsLateReads(a: FinishState, b: FinishState, first: seq<LateItem>, acks: seq<FinishAck>)
    requires a.resolutions == b.resolutions && a.acks == b.acks
    ensures ObjectionsLate(a, first, acks) == ObjectionsLate(b, first, acks)
  {
    if acks != [] { ObjectionsLateReads(a, b, first, acks[..|acks| - 1]); }
  }
}
