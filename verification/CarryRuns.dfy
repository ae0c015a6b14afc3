/**
 * The carry events of a run (extensions/finish.ts, carryDraft and its
 * callers): when one is recorded, what it lists, and that a version is weighed
 * again only for an ack that has come since.
 */
module CarryRuns {
  import opened Wrappers
  import opened FinishLog
  import opened FinishActs
  import opened FinishRuns
  import opened Review

  // --- what it lists ---

  /** The seat's review is asked again: of a section it vouched for that has changed, or that is gone. */
  ghost predicate StandsAsked(acts: seq<FinishAck>, c: Current) {
    Reviewed(acts, c) && exists k :: AskedAgain(acts, c, k) || Gone(acts, c, k)
  }

  /** The seat's review is carried over: nothing of it is asked again, and a section rests on an ack of another version. */
  ghost predicate StandsCarried(acts: seq<FinishAck>, c: Current) {
    Reviewed(acts, c) && !StandsAsked(acts, c) && RestsElsewhere(acts, c)
  }

  lemma StandingMeans(r: SeatReview, acts: seq<FinishAck>, c: Current)
    requires IsReviewOf(r, acts, c) && Reviewed(acts, c)
    ensures r.standing == Reasked <==> StandsAsked(acts, c)
    ensures r.standing == CarriedOver <==> StandsCarried(acts, c)
  {
    if k :| AskedAgain(acts, c, k) || Gone(acts, c, k) {
      assert SaysOf(r, acts, c, k);
    }
    if r.changed != [] {
      assert SaysOf(r, acts, c, r.changed[0]) && AskedAgain(acts, c, r.changed[0]);
    }
    if k :| k in r.removed {
      assert SaysOf(r, acts, c, k) && Gone(acts, c, k);
    }
  }

  /** A line of the kept list that says of its seat what the seat's acts say: every section covered, and by which acks. */
  ghost predicate KeptLine(y: ReviewCarry, acts: seq<FinishAck>, c: Current) {
    && StandsCarried(acts, c) && y.changed == [] && y.removed == {}
    && (forall num :: num in y.acks <==> RestsOn(acts, c, num))
    && forall k :: k in y.sections <==> Covers(acts, c, k)
  }

  /** A seat's line among those asked again: the sections that changed, and those that are gone. */
  ghost predicate AskedLine(y: ReviewCarry, acts: seq<FinishAck>, c: Current) {
    && StandsAsked(acts, c) && y.sections == []
    && (forall num :: num in y.acks <==> RestsOn(acts, c, num))
    && (forall k :: k in y.changed <==> AskedAgain(acts, c, k))
    && forall k :: k in y.removed <==> Gone(acts, c, k)
  }

  /** The lists as the reviews stand: of each seat whose review is carried over or asked again, and of no other. */
  ghost predicate ListsAreReviews(kept: seq<ReviewCarry>, reasked: seq<ReviewCarry>, acks: seq<FinishAck>, report: Path, c: Current) {
    && (forall y :: y in kept ==> KeptLine(y, SeatActs(acks, report, y.seat), c))
    && (forall y :: y in reasked ==> AskedLine(y, SeatActs(acks, report, y.seat), c))
    && (forall seat :: StandsCarried(SeatActs(acks, report, seat), c) ==> Lists(kept, seat))
    && (forall seat :: StandsAsked(SeatActs(acks, report, seat), c) ==> Lists(reasked, seat))
  }

  ghost predicate Lists(lines: seq<ReviewCarry>, seat: Seat) {
    exists y :: y in lines && y.seat == seat
  }

  lemma CarryOfMeans(seat: Seat, r: SeatReview, acts: seq<FinishAck>, c: Current)
    requires IsReviewOf(r, acts, c) && Reviewed(acts, c)
    ensures r.standing == CarriedOver ==> KeptLine(CarryOf(seat, r), acts, c)
    ensures r.standing == Reasked ==> AskedLine(CarryOf(seat, r), acts, c)
  {
    StandingMeans(r, acts, c);
    SaidEach(r, acts, c);
  }

  /** What is listed of a report is its reviews. */
  lemma ListedAreReviews(acks: seq<FinishAck>, report: Path, c: Current)
    requires ValidCurrent(c)
    ensures ListsAreReviews(Listed(acks, report, c, CarriedOver), Listed(acks, report, c, Reasked), acks, report, c)
  {
    var seats, reviews := Seats(acks, report), AllReviews(acks, report, c);
    var kept, reasked := Listed(acks, report, c, CarriedOver), Listed(acks, report, c, Reasked);
    AllReviewsMean(acks, report, c);
    forall y | y in kept ensures KeptLine(y, SeatActs(acks, report, y.seat), c) {
      ListedExactly(seats, reviews, CarriedOver, y);
      CarryOfMeans(y.seat, reviews[y.seat], SeatActs(acks, report, y.seat), c);
    }
    forall y | y in reasked ensures AskedLine(y, SeatActs(acks, report, y.seat), c) {
      ListedExactly(seats, reviews, Reasked, y);
      CarryOfMeans(y.seat, reviews[y.seat], SeatActs(acks, report, y.seat), c);
    }
    forall seat | Reviewed(SeatActs(acks, report, seat), c)
      ensures StandsCarried(SeatActs(acks, report, seat), c) ==> Lists(kept, seat)
      ensures StandsAsked(SeatActs(acks, report, seat), c) ==> Lists(reasked, seat)
    {
      SeatIsListed(acks, report, c, reviews, seat);
    }
  }

  lemma SeatIsListed(acks: seq<FinishAck>, report: Path, c: Current, reviews: map<Seat, SeatReview>, seat: Seat)
    requires ReviewsOf(reviews, acks, report, c) && Reviewed(SeatActs(acks, report, seat), c)
    ensures StandsCarried(SeatActs(acks, report, seat), c) ==> Lists(Carries(Seats(acks, report), reviews, CarriedOver), seat)
    ensures StandsAsked(SeatActs(acks, report, seat), c) ==> Lists(Carries(Seats(acks, report), reviews, Reasked), seat)
  {
    var r := reviews[seat];
    StandingMeans(r, SeatActs(acks, report, seat), c);
    NoActsNoReview(c);
    SeatsAreThose(acks, report, seat);
    ListedExactly(Seats(acks, report), reviews, CarriedOver, CarryOf(seat, r));
    ListedExactly(Seats(acks, report), reviews, Reasked, CarryOf(seat, r));
  }

  // --- when one is recorded ---

  /** Some seat's review of the report is carried over or asked again. */
  ghost predicate SomeToCarry(acks: seq<FinishAck>, report: Path, c: Current) {
    exists seat :: ToCarry(SeatActs(acks, report, seat), c)
  }

  ghost predicate ToCarry(acts: seq<FinishAck>, c: Current) {
    StandsCarried(acts, c) || StandsAsked(acts, c)
  }

  lemma ToCarryIsListed(acks: seq<FinishAck>, report: Path, kept: seq<ReviewCarry>, reasked: seq<ReviewCarry>, c: Current)
    requires ListsAreReviews(kept, reasked, acks, report, c)
    ensures SomeToCarry(acks, report, c) <==> kept != [] || reasked != []
  {
    if kept != [] {
      assert kept[0] in kept && ToCarry(SeatActs(acks, report, kept[0].seat), c);
    }
    if reasked != [] {
      assert reasked[0] in reasked && ToCarry(SeatActs(acks, report, reasked[0].seat), c);
    }
    if seat :| ToCarry(SeatActs(acks, report, seat), c) {
      assert Lists(kept, seat) || Lists(reasked, seat);
    }
  }

  predicate HasReport(env: Env, st: FinishState) {
    LeaseReport(st).Some? && LeaseReport(st).value in env.reports
  }

  /** The finish's report, as reviews are weighed against it. */
  function Weighed(env: Env, st: FinishState): Current
    requires HasReport(env, st)
  {
    CurrentOf(env.reports[st.lease.value.report.value])
  }

  /** The carry an act records. */
  function CarriedBy(env: Env, log: seq<Event>): Carried
    requires HasReport(env, Fold(log))
  {
    var st := Fold(log);
    var report, c := st.lease.value.report.value, Weighed(env, st);
    Carried(|log| + 1, report, c.digest, Listed(st.acks, report, c, CarriedOver), Listed(st.acks, report, c, Reasked))
  }

  /** An ack of no objection to another version of the report. */
  predicate AckedElsewhere(a: FinishAck, report: Path, digest: Digest) {
    a.verdict.NoObjection? && a.digest != digest && (a.report.Some? ==> a.report.value == report)
  }

  ghost predicate SinceWeighed(a: FinishAck, carries: seq<Carried>, report: Path, digest: Digest) {
    forall x :: x in carries && x.report == report && x.digest == digest ==> x.num < a.num
  }

  /** Another version was acked without objection since this one was last weighed, if it ever was. */
  ghost predicate AckedSince(st: FinishState, report: Path, digest: Digest) {
    exists a :: a in st.acks && AckedElsewhere(a, report, digest) && SinceWeighed(a, st.carries, report, digest)
  }

  ghost predicate OrderedCarries(carries: seq<Carried>) {
    forall i, j :: 0 <= i < j < |carries| ==> carries[i].num < carries[j].num
  }

  lemma {:induction false} LastCarryMeans(carries: seq<Carried>, report: Path, digest: Digest, a: FinishAck)
    requires OrderedCarries(carries) && a.num >= 1
    ensures a.num > LastCarry(carries, report, digest) <==> SinceWeighed(a, carries, report, digest)
  {
    if carries != [] {
      var last := carries[|carries| - 1];
      LastCarryMeans(carries[..|carries| - 1], report, digest, a);
      assert carries == carries[..|carries| - 1] + [last];
      if last.report == report && last.digest == digest {
        forall x | x in carries ensures x.num <= last.num {
          var i :| 0 <= i < |carries| && carries[i] == x;
        }
      }
    }
  }

  lemma {:induction false} NumberedFromOne(log: seq<Event>)
    ensures forall a :: a in Fold(log).acks ==> a.num >= 1
  {
    if log != [] { NumberedFromOne(log[..|log| - 1]); }
  }

  lemma DueMeans(env: Env, log: seq<Event>)
    ensures var st := Fold(log);
            Due(env, st) <==> HasReport(env, st) && AckedSince(st, LeaseReport(st).value, env.reports[LeaseReport(st).value].digest)
  {
    var st := Fold(log);
    if HasReport(env, st) {
      var report := LeaseReport(st).value;
      var digest := env.reports[report].digest;
      FoldIsOrdered(log);
      NumberedFromOne(log);
      forall a | a in st.acks
        ensures WeighsOn(a, report, digest, LastCarry(st.carries, report, digest))
           <==> AckedElsewhere(a, report, digest) && SinceWeighed(a, st.carries, report, digest)
      {
        LastCarryMeans(st.carries, report, digest, a);
      }
    }
  }

  lemma CarryRecords(env: Env, log: seq<Event>)
    ensures var drafts := CarryDraft(env, Fold(log));
            && (drafts != [] <==> Due(env, Fold(log)) && (CarriedBy(env, log).kept != [] || CarriedBy(env, log).reasked != []))
            && (drafts == [] ==> Fold(log + drafts) == Fold(log))
            && (drafts != [] ==> Fold(log + drafts).carries == Fold(log).carries + [CarriedBy(env, log)])
  {
    var drafts := CarryDraft(env, Fold(log));
    if drafts == [] {
      assert log + drafts == log;
    } else {
      assert drafts == [drafts[0]];
      FoldAppend(log, drafts[0]);
    }
  }

  /**
   * Over every run, a carry event is recorded exactly when another version of
   * the finish's report was acked without objection since this one was last
   * weighed, and some review is to be carried over or asked again; and what it
   * lists is those reviews.
   */
  lemma CarriedExactlyWhenDue(run: Run, i: nat)
    requires IsRun(run) && i < |run.acts| && run.acts[i].CarriesReviews?
    requires HasReport(run.states[i].env, Fold(run.states[i].log)) ==> ValidCurrent(Weighed(run.states[i].env, Fold(run.states[i].log)))
    ensures var s, t := run.states[i], run.states[i + 1];
            var st := Fold(s.log);
            && (t.log != s.log <==>
                  && HasReport(s.env, st)
                  && AckedSince(st, LeaseReport(st).value, Weighed(s.env, st).digest)
                  && SomeToCarry(st.acks, LeaseReport(st).value, Weighed(s.env, st)))
            && (t.log != s.log ==>
                  var x := CarriedBy(s.env, s.log);
                  && Fold(t.log).carries == st.carries + [x]
                  && ListsAreReviews(x.kept, x.reasked, st.acks, x.report, Weighed(s.env, st)))
  {
    assert StepAt(run, i);
    var s := run.states[i];
    var st := Fold(s.log);
    DueMeans(s.env, s.log);
    CarryRecords(s.env, s.log);
    assert |s.log + CarryDraft(s.env, st)| == |s.log| + |CarryDraft(s.env, st)|;
    assert s.log + [] == s.log;
    if HasReport(s.env, st) {
      var x := CarriedBy(s.env, s.log);
      ListedAreReviews(st.acks, x.report, Weighed(s.env, st));
      ToCarryIsListed(st.acks, x.report, x.kept, x.reasked, Weighed(s.env, st));
    }
  }

  // --- once for what was weighed ---

  /** Between two carries of one version an ack came that made it due again. */
  ghost predicate AckBetween(acks: seq<FinishAck>, was: Carried, now: Carried) {
    exists a :: a in acks && AckedElsewhere(a, now.report, now.digest) && was.num < a.num < now.num
  }

  ghost predicate WeighedForAcks(st: FinishState) {
    forall p, q :: 0 <= p < q < |st.carries| && st.carries[p].report == st.carries[q].report && st.carries[p].digest == st.carries[q].digest
      ==> AckBetween(st.acks, st.carries[p], st.carries[q])
  }

  lemma AckBetweenStays(acks: seq<FinishAck>, more: seq<FinishAck>, was: Carried, now: Carried)
    requires acks <= more && AckBetween(acks, was, now)
    ensures AckBetween(more, was, now)
  {
    var a :| a in acks && AckedElsewhere(a, now.report, now.digest) && was.num < a.num < now.num;
    assert a in more;
  }

  lemma NewCarryHasAck(env: Env, log: seq<Event>, p: nat)
    requires Due(env, Fold(log)) && p < |Fold(log).carries|
    requires Fold(log).carries[p].report == CarriedBy(env, log).report && Fold(log).carries[p].digest == CarriedBy(env, log).digest
    ensures AckBetween(Fold(log).acks, Fold(log).carries[p], CarriedBy(env, log))
  {
    var st, x := Fold(log), CarriedBy(env, log);
    FoldIsOrdered(log);
    DueMeans(env, log);
    var a :| a in st.acks && AckedElsewhere(a, x.report, x.digest) && SinceWeighed(a, st.carries, x.report, x.digest);
    assert st.carries[p] in st.carries && a.num < x.num;
  }

  lemma OnlyCarriesCarry(s: Reg, a: Act)
    ensures !a.CarriesReviews? ==> forall e :: e in Drafts(s, a) ==> !e.Carry?
  {
  }

  lemma NextWeighs(s: Reg, a: Act)
    requires WeighedForAcks(Fold(s.log))
    ensures WeighedForAcks(Fold(Next(s, a).log))
  {
    var was, now := Fold(s.log), Fold(Next(s, a).log);
    FoldOnlyGrows(s.log, Drafts(s, a));
    if a.CarriesReviews? { CarryRecords(s.env, s.log); } else { OnlyCarriesCarry(s, a); NoCarryLeaves(s.log, Drafts(s, a)); }
    forall p, q | 0 <= p < q < |now.carries| && now.carries[p].report == now.carries[q].report && now.carries[p].digest == now.carries[q].digest
      ensures AckBetween(now.acks, now.carries[p], now.carries[q])
    {
      if q == |was.carries| { NewCarryHasAck(s.env, s.log, p); }
      AckBetweenStays(was.acks, now.acks, now.carries[p], now.carries[q]);
    }
  }

  lemma StepWeighs(run: Run, i: nat)
    requires IsRun(run) && i < |run.acts| && WeighedForAcks(Fold(run.states[i].log))
    ensures WeighedForAcks(Fold(run.states[i + 1].log))
  {
    assert StepAt(run, i);
    NextWeighs(run.states[i], run.acts[i]);
  }

  /** Over every run, two carries of one version have an ack of no objection on another version between them. */
  lemma {:induction false} WeighedOnce(run: Run, n: nat)
    requires IsRun(run) && n < |run.states|
    ensures WeighedForAcks(Fold(run.states[n].log))
  {
    if n > 0 {
      WeighedOnce(run, n - 1);
      StepWeighs(run, n - 1);
    }
  }
}
