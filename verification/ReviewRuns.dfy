/**
 * Reviews over runs of the register: each ack's digests come from one version
 * that existed at its step, and with a hash that never collides a standing
 * whole review implies, section by section, that the seat read the present text.
 */
module ReviewRuns {
  import opened Wrappers
  import opened FinishLog
  import opened FinishActs
  import opened FinishRuns
  import opened ActOutcomes
  import opened Review
  import Sections

  /** A report as it is read from its text: its digest, and its sections in order, each with its own. */
  ghost predicate ReadFrom(md: Sections.Markdown, hash: string -> string, r: Report, text: string) {
    && r.digest == hash(text) && r.sections == Sections.SectionDigests(md, hash, text)
    && r.order == Keys(Sections.ReportSections(md, text))
  }

  function Keys(cut: seq<Sections.Section>): seq<string> {
    seq(|cut|, i requires 0 <= i < |cut| => cut[i].key)
  }

  lemma CurrentIsValid(md: Sections.Markdown, hash: string -> string, r: Report, text: string)
    requires ReadFrom(md, hash, r, text)
    ensures ValidCurrent(CurrentOf(r))
  {
    var cut := Sections.ReportSections(md, text);
    Sections.SectionsAreTheReport(md, text);
    var c := CurrentOf(r);
    assert |c.order| == |cut| && c.order != [];
    forall k ensures k in c.order <==> k in c.now {
      if k in c.now {
        var x :| x in cut && x.key == k;
        var i :| 0 <= i < |cut| && cut[i] == x;
        assert c.order[i] == k;
      }
      if k in c.order {
        var i :| 0 <= i < |c.order| && c.order[i] == k;
        assert cut[i] in cut;
      }
    }
  }

  /** The ack's digests, its own and those in its section map, are all this report's. */
  ghost predicate BoundTo(a: FinishAck, r: Report) {
    && a.digest == r.digest
    && a.sections.Some?
    && forall k :: k in a.sections.value ==> k in r.sections && a.sections.value[k] == r.sections[k]
  }

  /** A version of a report that was there at the ith moment of the run. */
  ghost predicate ThereAt(run: Run, i: nat, r: Report) {
    i < |run.states| && r in run.states[i].env.reports.Values
  }

  /** Every version of a report that was there at some moment of the run up to the nth. */
  ghost function Versions(run: Run, n: nat): iset<Report> {
    iset r | WasThere(run, n, r)
  }

  ghost predicate WasThere(run: Run, n: nat, r: Report) {
    exists i: nat :: i <= n && ThereAt(run, i, r)
  }

  /** An ack bound to one of the versions. */
  ghost predicate BoundIn(a: FinishAck, versions: iset<Report>) {
    exists r :: r in versions && BoundTo(a, r)
  }

  lemma OnlyAcksAck(s: Reg, a: Act)
    ensures !a.Acks? ==> forall e :: e in Drafts(s, a) ==> !e.AckOf?
  {
    if a.Prepares? { PreparesAppend(s.env, s.log, a.me, a.path, a.ready); }
  }

  lemma PreparesAppend(env: Env, log: seq<Event>, me: Seat, named: Option<Path>, ready: bool)
    ensures forall e :: e in PrepareDrafts(env, log, me, named, ready) ==> e.Lease? || e.Prepare?
  {
    AsksOnlyLeases(env, Fold(log), me, named.Or(LeaseReport(Fold(log))));
  }

  lemma AsksOnlyLeases(env: Env, st: FinishState, me: Seat, report: Option<Path>)
    ensures forall e :: e in AskLease(env, st, me, report).1 ==> e.Lease?
  {
  }

  lemma VersionsGrow(run: Run, m: nat, n: nat)
    requires m <= n
    ensures Versions(run, m) <= Versions(run, n)
  {
    forall r | r in Versions(run, m) ensures r in Versions(run, n) {
      var i: nat :| i <= m && ThereAt(run, i, r);
      assert i <= n && ThereAt(run, i, r);
    }
  }

  lemma InOneMore(was: seq<FinishAck>, last: FinishAck, a: FinishAck)
    ensures a in was + [last] <==> a in was || a == last
  {
  }

  /** An ack made on a report: not its coordinator's, of the finish's report once one is named, whole when of every section. */
  ghost predicate ReviewOn(a: FinishAck, lease: Option<LeaseState>, reports: map<Path, Report>, path: Path) {
    && path in reports && BoundTo(a, reports[path])
    && (lease.Some? ==> lease.value.holder != a.seat && (lease.value.report.Some? ==> lease.value.report == Some(path)))
    && (a.report.Some? ==> a.report == Some(path) && (lease.None? || lease.value.report.None?))
    && (a.whole ==> a.sections == Some(reports[path].sections))
    && (!a.whole ==> a.sections.value != map[])
  }

  /** An ack that a step of a run adds meets ReviewOn for the lease and the reports of that step. */
  lemma AckIsAnothersReview(run: Run, i: nat, a: FinishAck)
    requires IsRun(run) && i < |run.acts|
    requires a in Fold(run.states[i + 1].log).acks && a !in Fold(run.states[i].log).acks
    ensures run.acts[i].Acks?
    ensures exists path :: && ReviewOn(a, LeaseAt(run, i), run.states[i].env.reports, path)
                           && AckOfRequest(a, run.states[i].env, LeaseAt(run, i), run.acts[i], path, |run.states[i].log| + 1)
  {
    var s := run.states[i];
    assert StepAt(run, i);
    OnlyAcksAck(s, run.acts[i]);
    if !run.acts[i].Acks? { OthersLeave(s.log, Drafts(s, run.acts[i])); }
    AckIsAsRequested(run, i);
    var st, now := Fold(s.log), Fold(run.states[i + 1].log);
    assert now.acks == st.acks + [now.acks[|st.acks|]];
    InOneMore(st.acks, now.acks[|st.acks|], a);
    var path :| AckFits(s.env, LeaseAt(run, i), run.acts[i], path)
                && AckOfRequest(a, s.env, LeaseAt(run, i), run.acts[i], path, |s.log| + 1);
    RequestIsReview(a, s.env, LeaseAt(run, i), run.acts[i], path, |s.log| + 1);
  }

  lemma RequestIsReview(a: FinishAck, env: Env, lease: Option<LeaseState>, act: Act, path: Path, n: nat)
    requires act.Acks? && AckFits(env, lease, act, path) && AckOfRequest(a, env, lease, act, path, n)
    ensures ReviewOn(a, lease, env.reports, path)
  {
    var r := env.reports[path];
    if act.keys != [] { assert act.keys[0] in act.keys && act.keys[0] in a.sections.value; }
    if act.keys == [] { assert a.sections.value.Keys == r.sections.Keys; assert a.sections.value == r.sections; }
  }

  /** Over every run, each ack binds a version of the report that was there. */
  lemma {:induction false} AcksAreBound(run: Run, n: nat, a: FinishAck)
    requires IsRun(run) && n < |run.states|
    requires a in Fold(run.states[n].log).acks
    ensures BoundIn(a, Versions(run, n))
  {
    if n > 0 {
      VersionsGrow(run, n - 1, n);
      if a in Fold(run.states[n - 1].log).acks {
        AcksAreBound(run, n - 1, a);
      } else {
        AckIsAnothersReview(run, n - 1, a);
        var path :| ReviewOn(a, LeaseAt(run, n - 1), run.states[n - 1].env.reports, path);
        assert ThereAt(run, n - 1, run.states[n - 1].env.reports[path]);
      }
    }
  }

  lemma {:induction false} SeatActsAreAcks(acks: seq<FinishAck>, report: Path, seat: Seat)
    ensures forall a :: a in SeatActs(acks, report, seat) ==> a in acks && a.seat == seat
  {
    if acks != [] {
      SeatActsAreAcks(acks[..|acks| - 1], report, seat);
    }
  }

  /** Under a whole review with nothing asked again, every section has an act that stands for it at its digest. */
  lemma StandingCoversAll(r: SeatReview, acts: seq<FinishAck>, c: Current, k: string)
    requires ValidCurrent(c) && IsReviewOf(r, acts, c) && r.whole && r.standing != Reasked && k in c.order && !PreSection(acts)
    ensures exists i: nat :: Stands(acts, k, i) && acts[i].sections.value[k] == c.now[k]
  {
    WholeReviewPartitions(r, acts, c, k);
    assert SaysOf(r, acts, c, k);
  }

  /** What a section of a text says. */
  function Says(md: Sections.Markdown, text: string): map<string, string> {
    Sections.Texts(md, Sections.ReportSections(md, text))
  }

  /** The seat read this section's very text in one of the versions, found no objection, and has objected to nothing of it since. */
  ghost predicate ReadAndUnopposed(versions: iset<Report>, md: Sections.Markdown, textOf: Report -> string,
                                   seatActs: seq<FinishAck>, k: string, says: string) {
    exists i: nat, r :: Stands(seatActs, k, i) && r in versions && BoundTo(seatActs[i], r) && SaysIn(md, textOf(r), k, says)
  }

  ghost predicate SaysIn(md: Sections.Markdown, text: string, k: string, says: string) {
    k in Says(md, text) && Says(md, text)[k] == says
  }

  lemma StandingReadsText(
    versions: iset<Report>, seatActs: seq<FinishAck>, md: Sections.Markdown, hash: string -> string, textOf: Report -> string,
    rep: Report, r: SeatReview, k: string)
    requires forall x, y :: hash(x) == hash(y) ==> x == y
    requires forall v :: v in versions ==> ReadFrom(md, hash, v, textOf(v))
    requires forall a :: a in seatActs ==> BoundIn(a, versions)
    requires rep in versions
    requires IsReviewOf(r, seatActs, CurrentOf(rep)) && r.whole && r.standing != Reasked
    requires k in rep.sections
    ensures k in Says(md, textOf(rep)) && ReadAndUnopposed(versions, md, textOf, seatActs, k, Says(md, textOf(rep))[k])
  {
    var c := CurrentOf(rep);
    CurrentIsValid(md, hash, rep, textOf(rep));
    assert !PreSection(seatActs) by {
      if seatActs != [] { assert BoundIn(seatActs[|seatActs| - 1], versions); }
    }
    StandingCoversAll(r, seatActs, c, k);
    var i: nat :| Stands(seatActs, k, i) && seatActs[i].sections.value[k] == c.now[k];
    assert BoundIn(seatActs[i], versions);
    var read :| read in versions && BoundTo(seatActs[i], read);
    SameDigestSameText(md, hash, read, textOf(read), rep, textOf(rep), k);
    assert SaysIn(md, textOf(read), k, Says(md, textOf(rep))[k]);
  }

  lemma CurrentIsVersion(run: Run, n: nat, path: Path)
    requires n < |run.states| && path in run.states[n].env.reports
    ensures run.states[n].env.reports[path] in Versions(run, n)
  {
    assert ThereAt(run, n, run.states[n].env.reports[path]);
  }

  lemma SeatStandingReadsText(
    versions: iset<Report>, acks: seq<FinishAck>, path: Path, seat: Seat, md: Sections.Markdown, hash: string -> string,
    textOf: Report -> string, rep: Report, r: SeatReview, k: string)
    requires forall x, y :: hash(x) == hash(y) ==> x == y
    requires forall v :: v in versions ==> ReadFrom(md, hash, v, textOf(v))
    requires forall a :: a in acks ==> BoundIn(a, versions)
    requires rep in versions
    requires IsReviewOf(r, SeatActs(acks, path, seat), CurrentOf(rep)) && r.whole && r.standing != Reasked
    requires k in rep.sections
    ensures k in Says(md, textOf(rep))
    ensures ReadAndUnopposed(versions, md, textOf, SeatActs(acks, path, seat), k, Says(md, textOf(rep))[k])
  {
    SeatActsAreAcks(acks, path, seat);
    StandingReadsText(versions, SeatActs(acks, path, seat), md, hash, textOf, rep, r, k);
  }

  /**
   * Over every run: if a seat's review is whole and nothing of it is asked
   * again, then for each section of the present text the seat acked, without
   * objection and with nothing against it later, a version with that very text
   * (trailing blank lines aside).
   */
  lemma StandingReviewReadThisText(
    run: Run, n: nat, md: Sections.Markdown, hash: string -> string, textOf: Report -> string,
    path: Path, seat: Seat, r: SeatReview, k: string)
    requires IsRun(run) && n < |run.states|
    requires forall x, y :: hash(x) == hash(y) ==> x == y
    requires forall v :: v in Versions(run, n) ==> ReadFrom(md, hash, v, textOf(v))
    requires path in run.states[n].env.reports && k in run.states[n].env.reports[path].sections
    requires var rep := run.states[n].env.reports[path];
             IsReviewOf(r, SeatActs(Fold(run.states[n].log).acks, path, seat), CurrentOf(rep))
    requires r.whole && r.standing != Reasked
    ensures var text := textOf(run.states[n].env.reports[path]);
            && k in Says(md, text)
            && ReadAndUnopposed(Versions(run, n), md, textOf, SeatActs(Fold(run.states[n].log).acks, path, seat), k, Says(md, text)[k])
  {
    var acks, rep := Fold(run.states[n].log).acks, run.states[n].env.reports[path];
    forall a | a in acks ensures BoundIn(a, Versions(run, n)) {
      AcksAreBound(run, n, a);
    }
    CurrentIsVersion(run, n, path);
    SeatStandingReadsText(Versions(run, n), acks, path, seat, md, hash, textOf, rep, r, k);
  }

  lemma SameDigestSameText(md: Sections.Markdown, hash: string -> string, a: Report, ta: string, b: Report, tb: string, k: string)
    requires forall x, y :: hash(x) == hash(y) ==> x == y
    requires ReadFrom(md, hash, a, ta) && ReadFrom(md, hash, b, tb)
    requires k in a.sections && k in b.sections && a.sections[k] == b.sections[k]
    ensures k in Says(md, ta) && k in Says(md, tb) && Says(md, ta)[k] == Says(md, tb)[k]
  {
    assert hash(Says(md, ta)[k]) == hash(Says(md, tb)[k]);
  }
}
