/**
 * Reviews of the report weighed against its text (extensions/finish.ts,
 * reviewStanding and carryDraft): what a seat's acks say of each section, as
 * predicates over the acks, and the code's reading of them proved to compute it.
 */
module Review {
  import opened Wrappers
  import opened FinishLog

  /** A version to weigh acts against. */
  datatype Current = Current(digest: Digest, order: seq<string>, now: map<string, Digest>)

  /** A report always has its preamble, and each key once. */
  ghost predicate ValidCurrent(c: Current) {
    && c.order != []
    && (forall i, j :: 0 <= i < j < |c.order| ==> c.order[i] != c.order[j])
    && forall k :: k in c.order <==> k in c.now
  }

  datatype Standing = Direct | CarriedOver | Reasked

  datatype SeatReview = SeatReview(
    standing: Standing, acks: set<nat>, covered: seq<string>, changed: seq<string>, removed: set<string>, whole: bool)

  /** What a seat vouches for a section with: the digest it had, and which of the seat's acts vouched. */
  datatype Vouch = Vouch(digest: Digest, act: nat)

  // --- what a seat's acts mean ---

  /** The act says something of section k: it has no section map, it is whole, or k is in its map. */
  predicate Bears(a: FinishAck, k: string) {
    a.sections.None? || a.whole || k in a.sections.value
  }

  predicate VouchesFor(a: FinishAck, k: string) {
    a.sections.Some? && a.verdict == NoObjection && k in a.sections.value
  }

  /** The act of the seat that vouches for a section now: it vouches, and no later act bears on the section. */
  ghost predicate Stands(acts: seq<FinishAck>, k: string, i: nat) {
    && i < |acts|
    && VouchesFor(acts[i], k)
    && forall j :: i < j < |acts| ==> !Bears(acts[j], k)
  }

  predicate OfWhole(a: FinishAck) {
    a.sections.None? || a.whole
  }

  /** Of the acts that speak of the report as one, the last has no objection. */
  ghost predicate WholeReview(acts: seq<FinishAck>) {
    exists i: nat :: LastOfWhole(acts, i) && acts[i].verdict == NoObjection
  }

  ghost predicate LastOfWhole(acts: seq<FinishAck>, i: nat) {
    i < |acts| && OfWhole(acts[i]) && forall j :: i < j < |acts| ==> !OfWhole(acts[j])
  }

  /** The very last act has no section map and no objection. */
  predicate PreSection(acts: seq<FinishAck>) {
    acts != [] && acts[|acts| - 1].sections.None? && acts[|acts| - 1].verdict == NoObjection
  }

  /** A section the seat's review covers: the act that stands for it vouches for it at the digest it has now. */
  ghost predicate Covers(acts: seq<FinishAck>, c: Current, k: string) {
    && k in c.now
    && (if PreSection(acts) then acts[|acts| - 1].digest == c.digest
        else exists i: nat :: Stands(acts, k, i) && acts[i].sections.value[k] == c.now[k])
  }

  /** A section of the version that is not covered, though an act still stands for it or WholeReview holds. */
  ghost predicate AskedAgain(acts: seq<FinishAck>, c: Current, k: string) {
    && k in c.now && !Covers(acts, c, k)
    && (PreSection(acts) || (exists i: nat :: Stands(acts, k, i)) || WholeReview(acts))
  }

  /** A section not in the version, for which an act still stands, where WholeReview holds. */
  ghost predicate Gone(acts: seq<FinishAck>, c: Current, k: string) {
    && k !in c.now && !PreSection(acts) && WholeReview(acts)
    && exists i: nat :: Stands(acts, k, i)
  }

  /** The seat's acts vouch for something. */
  ghost predicate Vouches(acts: seq<FinishAck>) {
    PreSection(acts) || exists k: string, i: nat :: Stands(acts, k, i)
  }

  ghost predicate InOrder(xs: seq<string>, order: seq<string>) {
    exists at :: Placed(xs, order, at, |order|)
  }

  ghost predicate Placed(xs: seq<string>, order: seq<string>, at: seq<nat>, n: nat) {
    && |at| == |xs|
    && (forall i :: 0 <= i < |xs| ==> at[i] < n && at[i] < |order| && order[at[i]] == xs[i])
    && (forall i, j :: 0 <= i < j < |xs| ==> at[i] < at[j])
  }

  /** An act that stands for a section the seat covers. */
  ghost predicate RestedOn(acts: seq<FinishAck>, c: Current, i: nat) {
    i < |acts| && exists k :: Covers(acts, c, k) && Stands(acts, k, i)
  }

  /** The number of an ack the seat's covered sections rest on. */
  ghost predicate RestsOn(acts: seq<FinishAck>, c: Current, num: nat) {
    if PreSection(acts) then num == acts[|acts| - 1].num
    else exists i: nat :: RestedOn(acts, c, i) && acts[i].num == num
  }

  /** A covered section rests on an ack of another version. */
  ghost predicate RestsElsewhere(acts: seq<FinishAck>, c: Current) {
    exists i: nat :: RestedOn(acts, c, i) && acts[i].digest != c.digest
  }

  /** What the review says of a section is what the acts mean. */
  ghost predicate SaysOf(r: SeatReview, acts: seq<FinishAck>, c: Current, k: string) {
    && (k in r.covered <==> Covers(acts, c, k))
    && (k in r.changed <==> AskedAgain(acts, c, k))
    && (k in r.removed <==> Gone(acts, c, k))
  }

  /** What the review says of the sections is what the acts mean, in the report's order. */
  ghost predicate SaysOfSections(r: SeatReview, acts: seq<FinishAck>, c: Current) {
    && (forall k :: SaysOf(r, acts, c, k))
    && InOrder(r.covered, c.order) && InOrder(r.changed, c.order)
    && (r.whole <==> WholeReview(acts))
  }

  lemma SaidEach(r: SeatReview, acts: seq<FinishAck>, c: Current)
    requires SaysOfSections(r, acts, c)
    ensures forall k :: k in r.covered <==> Covers(acts, c, k)
    ensures forall k :: k in r.changed <==> AskedAgain(acts, c, k)
    ensures forall k :: k in r.removed <==> Gone(acts, c, k)
  {
    forall k
      ensures k in r.covered <==> Covers(acts, c, k)
      ensures k in r.changed <==> AskedAgain(acts, c, k)
      ensures k in r.removed <==> Gone(acts, c, k)
    {
      assert SaysOf(r, acts, c, k);
    }
  }

  /** Asked again when something is; otherwise carried over when a section rests on another version's ack, and direct when none does. */
  ghost predicate StandsAs(r: SeatReview, acts: seq<FinishAck>, c: Current) {
    && (r.standing == Reasked <==> r.changed != [] || r.removed != {})
    && (r.standing == CarriedOver ==> !PreSection(acts) && RestsElsewhere(acts, c))
    && (r.standing == Direct ==> !RestsElsewhere(acts, c))
  }

  /** The seat's review as its acts mean it. */
  ghost predicate IsReviewOf(r: SeatReview, acts: seq<FinishAck>, c: Current) {
    SaysOfSections(r, acts, c) && StandsAs(r, acts, c) && forall num :: num in r.acks <==> RestsOn(acts, c, num)
  }

  /** A seat with a review: its acts vouch for something, and say something of the report as it is or was. */
  ghost predicate Reviewed(acts: seq<FinishAck>, c: Current) {
    Vouches(acts) && exists k :: Tells(acts, c, k)
  }

  ghost predicate Tells(acts: seq<FinishAck>, c: Current, k: string) {
    Covers(acts, c, k) || AskedAgain(acts, c, k) || Gone(acts, c, k)
  }

  // --- the reading, act by act ---

  ghost predicate VouchReading(acts: seq<FinishAck>, vouched: map<string, Vouch>) {
    && (forall k :: k in vouched ==> Stands(acts, k, vouched[k].act) && acts[vouched[k].act].sections.value[k] == vouched[k].digest)
    && (forall k: string, i: nat :: Stands(acts, k, i) ==> k in vouched && vouched[k].act == i)
  }

  lemma StandsPrefix(acts: seq<FinishAck>, n: nat, k: string, i: nat)
    requires n < |acts|
    ensures Stands(acts[..n + 1], k, i) <==>
            if i == n then VouchesFor(acts[n], k) else Stands(acts[..n], k, i) && !Bears(acts[n], k)
  {
    var most, now := acts[..n], acts[..n + 1];
    assert now == most + [acts[n]];
    if Stands(now, k, i) && i < n {
      assert !Bears(now[n], k);
      assert forall j :: i < j < n ==> now[j] == most[j];
    }
  }

  lemma LastOfWholePrefix(acts: seq<FinishAck>, n: nat, i: nat)
    requires n < |acts|
    ensures LastOfWhole(acts[..n + 1], i) <==> if OfWhole(acts[n]) then i == n else LastOfWhole(acts[..n], i)
  {
    var most, now := acts[..n], acts[..n + 1];
    assert now == most + [acts[n]];
    if LastOfWhole(now, i) && i < n {
      assert !OfWhole(now[n]) && most[i] == now[i];
      assert forall j :: i < j < n ==> now[j] == most[j];
    }
  }

  lemma WholePrefix(acts: seq<FinishAck>, n: nat)
    requires n < |acts|
    ensures WholeReview(acts[..n + 1]) <==>
            if OfWhole(acts[n]) then acts[n].verdict == NoObjection else WholeReview(acts[..n])
  {
    LastOfWholePrefix(acts, n, n);
    if i: nat :| LastOfWhole(acts[..n + 1], i) && acts[i].verdict == NoObjection {
      LastOfWholePrefix(acts, n, i);
    }
    if i: nat :| LastOfWhole(acts[..n], i) && acts[i].verdict == NoObjection {
      LastOfWholePrefix(acts, n, i);
    }
  }

  /** What is vouched for after one more act: what it does not bear on, and what it vouches for itself. */
  function VouchedAfter(was: map<string, Vouch>, a: FinishAck, n: nat): map<string, Vouch> {
    (map k | k in was && !Bears(a, k) :: was[k])
    + (if a.sections.Some? && a.verdict == NoObjection then map k | k in a.sections.value :: Vouch(a.sections.value[k], n) else map[])
  }

  lemma ReadOneMore(acts: seq<FinishAck>, n: nat, was: map<string, Vouch>)
    requires n < |acts| && VouchReading(acts[..n], was)
    ensures VouchReading(acts[..n + 1], VouchedAfter(was, acts[n], n))
  {
    var now := VouchedAfter(was, acts[n], n);
    var read := acts[..n + 1];
    assert read[n] == acts[n];
    forall k | k in now
      ensures Stands(read, k, now[k].act) && read[now[k].act].sections.value[k] == now[k].digest
    {
      StandsPrefix(acts, n, k, now[k].act);
    }
    forall k: string, i: nat | Stands(read, k, i)
      ensures k in now && now[k].act == i
    {
      StandsPrefix(acts, n, k, i);
    }
  }

  /** One act read, as the source rewrites what the seat vouches for. */
  method ReadAct(a: FinishAck, n: nat, was: map<string, Vouch>, wasWhole: bool)
    returns (vouched: map<string, Vouch>, whole: bool, legacy: bool)
    ensures vouched == VouchedAfter(was, a, n)
    ensures whole == if OfWhole(a) then a.verdict == NoObjection else wasWhole
    ensures legacy == (a.sections.None? && a.verdict == NoObjection)
  {
    vouched, whole, legacy := was, wasWhole, false;
    if a.sections.None? {
      vouched := map[];
      whole := a.verdict == NoObjection;
      legacy := whole;
      return;
    }
    if a.verdict == Objection {
      if a.whole {
        vouched := map[];
        whole := false;
      } else {
        vouched := vouched - a.sections.value.Keys;
      }
      return;
    }
    if a.whole {
      vouched := map[];
      whole := true;
    }
    vouched := vouched + map k | k in a.sections.value :: Vouch(a.sections.value[k], n);
  }

  /** The state of the loop over a seat's acts. */
  datatype Reading = Reading(vouched: map<string, Vouch>, whole: bool)

  function ReadAll(acts: seq<FinishAck>): (r: Reading)
    ensures forall k :: k in r.vouched ==> r.vouched[k].act < |acts|
  {
    if acts == [] then Reading(map[], false)
    else
      var was, a := ReadAll(acts[..|acts| - 1]), acts[|acts| - 1];
      Reading(VouchedAfter(was.vouched, a, |acts| - 1), if OfWhole(a) then a.verdict == NoObjection else was.whole)
  }

  /** The acts read in order are read as they mean: what stands for each section, and the last on the whole. */
  lemma {:induction false} ReadAllMeans(acts: seq<FinishAck>)
    ensures VouchReading(acts, ReadAll(acts).vouched) && (ReadAll(acts).whole <==> WholeReview(acts))
  {
    if acts != [] {
      var n := |acts| - 1;
      assert acts[..n + 1] == acts;
      ReadAllMeans(acts[..n]);
      ReadOneMore(acts, n, ReadAll(acts[..n]).vouched);
      WholePrefix(acts, n);
    }
  }

  /** A seat's acts read in order. */
  method ReadActs(acts: seq<FinishAck>) returns (vouched: map<string, Vouch>, whole: bool, legacy: bool)
    ensures Reading(vouched, whole) == ReadAll(acts)
    ensures VouchReading(acts, vouched) && (whole <==> WholeReview(acts))
    ensures legacy <==> PreSection(acts)
  {
    vouched, whole, legacy := map[], false, false;
    for n := 0 to |acts|
      invariant Reading(vouched, whole) == ReadAll(acts[..n])
      invariant legacy <==> PreSection(acts[..n])
    {
      assert acts[..n + 1][..n] == acts[..n];
      vouched, whole, legacy := ReadAct(acts[n], n, vouched, whole);
    }
    assert acts[..|acts|] == acts;
    ReadAllMeans(acts);
  }

  /** Unless PreSection holds, the vouches decide the three predicates section by section. */
  lemma ReadingMeans(acts: seq<FinishAck>, c: Current, vouched: map<string, Vouch>, k: string)
    requires VouchReading(acts, vouched) && !PreSection(acts)
    ensures Covers(acts, c, k) <==> k in c.now && k in vouched && vouched[k].digest == c.now[k]
    ensures AskedAgain(acts, c, k) <==> k in c.now && !Covers(acts, c, k) && (k in vouched || WholeReview(acts))
    ensures Gone(acts, c, k) <==> k !in c.now && k in vouched && WholeReview(acts)
  {
    if k in vouched {
      assert Stands(acts, k, vouched[k].act);
    }
  }

  lemma VouchedVouches(acts: seq<FinishAck>, vouched: map<string, Vouch>)
    requires VouchReading(acts, vouched) && vouched != map[]
    ensures Vouches(acts)
  {
    var k :| k in vouched;
    assert Stands(acts, k, vouched[k].act);
  }

  predicate StillAs(vouched: map<string, Vouch>, now: map<string, Digest>, k: string) {
    k in now && k in vouched && vouched[k].digest == now[k]
  }

  predicate NotAs(vouched: map<string, Vouch>, now: map<string, Digest>, whole: bool, k: string) {
    k in now && if k in vouched then vouched[k].digest != now[k] else whole
  }

  /** The sections vouched for as they are now, in order. */
  function CoveredIn(order: seq<string>, vouched: map<string, Vouch>, now: map<string, Digest>): (r: seq<string>)
    ensures forall k :: k in r <==> k in order && StillAs(vouched, now, k)
  {
    if order == [] then []
    else
      var out, k := CoveredIn(order[..|order| - 1], vouched, now), order[|order| - 1];
      assert order == order[..|order| - 1] + [k];
      if StillAs(vouched, now, k) then out + [k] else out
  }

  /** The sections vouched for otherwise than they are now, or that a review of the whole did not see, in order. */
  function AskedIn(order: seq<string>, vouched: map<string, Vouch>, now: map<string, Digest>, whole: bool): (r: seq<string>)
    ensures forall k :: k in r <==> k in order && NotAs(vouched, now, whole, k)
  {
    if order == [] then []
    else
      var out, k := AskedIn(order[..|order| - 1], vouched, now, whole), order[|order| - 1];
      assert order == order[..|order| - 1] + [k];
      if NotAs(vouched, now, whole, k) then out + [k] else out
  }

  lemma PlacedOn(xs: seq<string>, most: seq<string>, at: seq<nat>, last: string)
    requires Placed(xs, most, at, |most|)
    ensures Placed(xs, most + [last], at, |most| + 1) && Placed(xs + [last], most + [last], at + [|most|], |most| + 1)
  {
  }

  lemma {:induction false} CoveredInOrder(order: seq<string>, vouched: map<string, Vouch>, now: map<string, Digest>)
    ensures InOrder(CoveredIn(order, vouched, now), order)
  {
    if order == [] {
      assert Placed([], order, [], 0);
    } else {
      var most, k := order[..|order| - 1], order[|order| - 1];
      CoveredInOrder(most, vouched, now);
      var at :| Placed(CoveredIn(most, vouched, now), most, at, |most|);
      assert order == most + [k];
      PlacedOn(CoveredIn(most, vouched, now), most, at, k);
    }
  }

  lemma {:induction false} AskedInOrder(order: seq<string>, vouched: map<string, Vouch>, now: map<string, Digest>, whole: bool)
    ensures InOrder(AskedIn(order, vouched, now, whole), order)
  {
    if order == [] {
      assert Placed([], order, [], 0);
    } else {
      var most, k := order[..|order| - 1], order[|order| - 1];
      AskedInOrder(most, vouched, now, whole);
      var at :| Placed(AskedIn(most, vouched, now, whole), most, at, |most|);
      assert order == most + [k];
      PlacedOn(AskedIn(most, vouched, now, whole), most, at, k);
    }
  }

  /** The sections still covered and those asked again, in the report's order. */
  method WeighSections(vouched: map<string, Vouch>, whole: bool, c: Current) returns (covered: seq<string>, changed: seq<string>)
    requires ValidCurrent(c)
    ensures covered == CoveredIn(c.order, vouched, c.now) && changed == AskedIn(c.order, vouched, c.now, whole)
  {
    covered, changed := [], [];
    for n := 0 to |c.order|
      invariant covered == CoveredIn(c.order[..n], vouched, c.now) && changed == AskedIn(c.order[..n], vouched, c.now, whole)
    {
      assert c.order[..n + 1][..n] == c.order[..n];
      var k := c.order[n];
      assert k in c.now;
      if k in vouched {
        if vouched[k].digest == c.now[k] { covered := covered + [k]; } else { changed := changed + [k]; }
      } else if whole {
        changed := changed + [k];
      }
    }
    assert c.order[..|c.order|] == c.order;
  }

  /** The review where PreSection holds: all sections covered at the same digest, all asked again at another. */
  function LegacyOf(last: FinishAck, c: Current): SeatReview {
    var same := last.digest == c.digest;
    SeatReview(if same then Direct else Reasked, {last.num}, if same then c.order else [], if same then [] else c.order, {}, true)
  }

  /** The acts whose vouches the covered sections have. */
  function Rests(covered: seq<string>, vouched: map<string, Vouch>): set<nat> {
    set k | k in covered && k in vouched :: vouched[k].act
  }

  /** What was weighed, put together: the sections, the acks they rest on, and how the review stands. */
  function Assembled(acts: seq<FinishAck>, c: Current, read: Reading): SeatReview
    requires forall k :: k in read.vouched ==> read.vouched[k].act < |acts|
  {
    var covered, changed := CoveredIn(c.order, read.vouched, c.now), AskedIn(c.order, read.vouched, c.now, read.whole);
    var removed := if read.whole then read.vouched.Keys - c.now.Keys else {};
    var rests := Rests(covered, read.vouched);
    var onThis := forall i :: i in rests ==> acts[i].digest == c.digest;
    SeatReview(if changed != [] || removed != {} then Reasked else if onThis then Direct else CarriedOver,
               set i | i in rests :: acts[i].num, covered, changed, removed, read.whole)
  }

  /** The review a seat's acts come to against a version; none where there would be nothing to list. */
  function ReviewOf(acts: seq<FinishAck>, c: Current): Option<SeatReview> {
    if PreSection(acts) then Some(LegacyOf(acts[|acts| - 1], c))
    else
      var r := Assembled(acts, c, ReadAll(acts));
      if ReadAll(acts).vouched == map[] || (r.covered == [] && r.changed == [] && r.removed == {}) then None else Some(r)
  }

  /** A seat has a review exactly when its acts vouch for something the report has or had, and it is the one they mean. */
  lemma ReviewMeans(acts: seq<FinishAck>, c: Current)
    requires ValidCurrent(c)
    ensures ReviewOf(acts, c).Some? <==> Reviewed(acts, c)
    ensures ReviewOf(acts, c).Some? ==> IsReviewOf(ReviewOf(acts, c).value, acts, c)
  {
    if PreSection(acts) {
      LegacyIsReviewed(acts, c);
      LegacyReview(acts, c);
    } else {
      ReadAllMeans(acts);
      if ReadAll(acts).vouched == map[] {
        NothingVouched(acts, c, map[]);
      } else {
        AssembledMeans(acts, c);
        WeighedIsReviewed(acts, c, Assembled(acts, c, ReadAll(acts)));
      }
    }
  }

  lemma AssembledMeans(acts: seq<FinishAck>, c: Current)
    requires ValidCurrent(c) && !PreSection(acts) && ReadAll(acts).vouched != map[]
    ensures Vouches(acts) && IsReviewOf(Assembled(acts, c, ReadAll(acts)), acts, c)
  {
    var read := ReadAll(acts);
    var r := Assembled(acts, c, read);
    ReadAllMeans(acts);
    CoveredInOrder(c.order, read.vouched, c.now);
    AskedInOrder(c.order, read.vouched, c.now, read.whole);
    WeighedMeans(acts, c, read.vouched, r);
    AssembledReview(acts, c, read.vouched, Rests(r.covered, read.vouched), r);
  }

  /** A seat's review computed from its acts. */
  method ReviewSeat(acts: seq<FinishAck>, c: Current) returns (r: Option<SeatReview>)
    requires ValidCurrent(c)
    ensures r == ReviewOf(acts, c)
    ensures r.Some? <==> Reviewed(acts, c)
    ensures r.Some? ==> IsReviewOf(r.value, acts, c)
  {
    ReviewMeans(acts, c);
    var vouched, whole, legacy := ReadActs(acts);
    if legacy {
      var last := acts[|acts| - 1];
      var same := last.digest == c.digest;
      return Some(SeatReview(if same then Direct else Reasked, {last.num}, if same then c.order else [],
                             if same then [] else c.order, {}, true));
    }
    if vouched == map[] { return None; }
    var covered, changed := WeighSections(vouched, whole, c);
    var removed := if whole then vouched.Keys - c.now.Keys else {};
    if covered == [] && changed == [] && removed == {} { return None; }
    var rests := Rests(covered, vouched);
    var onThis := forall i :: i in rests ==> acts[i].digest == c.digest;
    var standing := if changed != [] || removed != {} then Reasked else if onThis then Direct else CarriedOver;
    r := Some(SeatReview(standing, set i | i in rests :: acts[i].num, covered, changed, removed, whole));
  }

  /** The review put together from what was weighed is the one the acts mean. */
  lemma AssembledReview(acts: seq<FinishAck>, c: Current, vouched: map<string, Vouch>, rests: set<nat>, r: SeatReview)
    requires VouchReading(acts, vouched) && !PreSection(acts) && SaysOfSections(r, acts, c)
    requires forall k :: k in r.covered ==> k in vouched
    requires rests == Rests(r.covered, vouched)
    requires (forall i :: i in rests ==> i < |acts|) && r.acks == set i | i in rests :: acts[i].num
    requires r.standing == if r.changed != [] || r.removed != {} then Reasked
                           else if forall i :: i in rests ==> acts[i].digest == c.digest then Direct else CarriedOver
    ensures IsReviewOf(r, acts, c)
  {
    SaidEach(r, acts, c);
    forall i: nat ensures i in rests <==> RestedOn(acts, c, i) {
      ActRested(acts, c, vouched, r.covered, i);
    }
    AssembledStands(acts, c, rests, r);
    AssembledRests(acts, c, rests, r.acks);
  }

  lemma AssembledStands(acts: seq<FinishAck>, c: Current, rests: set<nat>, r: SeatReview)
    requires !PreSection(acts) && (forall i :: i in rests ==> i < |acts|) && forall i: nat :: i in rests <==> RestedOn(acts, c, i)
    requires r.standing == if r.changed != [] || r.removed != {} then Reasked
                           else if forall i :: i in rests ==> acts[i].digest == c.digest then Direct else CarriedOver
    ensures StandsAs(r, acts, c)
  {
  }

  lemma AssembledRests(acts: seq<FinishAck>, c: Current, rests: set<nat>, nums: set<nat>)
    requires !PreSection(acts) && (forall i :: i in rests ==> i < |acts|) && forall i: nat :: i in rests <==> RestedOn(acts, c, i)
    requires nums == set i | i in rests :: acts[i].num
    ensures forall num :: num in nums <==> RestsOn(acts, c, num)
  {
    forall num ensures num in nums <==> RestsOn(acts, c, num) {
      if RestsOn(acts, c, num) {
        var i: nat :| RestedOn(acts, c, i) && acts[i].num == num;
        assert i in rests;
      }
    }
  }

  /** There is a review exactly when something is covered, asked again or gone. */
  lemma WeighedIsReviewed(acts: seq<FinishAck>, c: Current, r: SeatReview)
    requires Vouches(acts) && SaysOfSections(r, acts, c)
    ensures Reviewed(acts, c) <==> r.covered != [] || r.changed != [] || r.removed != {}
  {
    if k :| Tells(acts, c, k) {
      assert SaysOf(r, acts, c, k);
    }
    if r.covered != [] {
      assert SaysOf(r, acts, c, r.covered[0]) && Tells(acts, c, r.covered[0]);
    }
    if r.changed != [] {
      assert SaysOf(r, acts, c, r.changed[0]) && Tells(acts, c, r.changed[0]);
    }
    if k :| k in r.removed {
      assert SaysOf(r, acts, c, k) && Tells(acts, c, k);
    }
  }

  lemma NothingVouched(acts: seq<FinishAck>, c: Current, vouched: map<string, Vouch>)
    requires VouchReading(acts, vouched) && !PreSection(acts) && vouched == map[]
    ensures !Vouches(acts) && forall k :: !Covers(acts, c, k) && !Gone(acts, c, k)
  {
    forall k ensures !Covers(acts, c, k) && !Gone(acts, c, k) {
      ReadingMeans(acts, c, vouched, k);
    }
  }

  lemma WeighedMeans(acts: seq<FinishAck>, c: Current, vouched: map<string, Vouch>, r: SeatReview)
    requires VouchReading(acts, vouched) && !PreSection(acts) && vouched != map[]
    requires forall k :: k in r.covered <==> k in c.now && k in vouched && vouched[k].digest == c.now[k]
    requires forall k :: k in r.changed <==> k in c.now && (if k in vouched then vouched[k].digest != c.now[k] else r.whole)
    requires r.removed == if r.whole then vouched.Keys - c.now.Keys else {}
    requires InOrder(r.covered, c.order) && InOrder(r.changed, c.order) && (r.whole <==> WholeReview(acts))
    ensures Vouches(acts) && SaysOfSections(r, acts, c)
  {
    VouchedVouches(acts, vouched);
    forall k ensures SaysOf(r, acts, c, k) {
      ReadingMeans(acts, c, vouched, k);
    }
  }

  /** The acts the covered sections rest on are those their vouches name. */
  lemma ActRested(acts: seq<FinishAck>, c: Current, vouched: map<string, Vouch>, covered: seq<string>, i: nat)
    requires VouchReading(acts, vouched)
    requires forall k :: k in covered <==> Covers(acts, c, k)
    requires forall k :: k in covered ==> k in vouched
    ensures i in Rests(covered, vouched) <==> RestedOn(acts, c, i)
  {
    if k :| k in covered && vouched[k].act == i {
      assert Covers(acts, c, k) && Stands(acts, k, i);
    }
    if RestedOn(acts, c, i) {
      var k :| Covers(acts, c, k) && Stands(acts, k, i);
      assert k in covered && vouched[k].act == i;
    }
  }

  lemma LegacyIsWhole(acts: seq<FinishAck>)
    requires PreSection(acts)
    ensures WholeReview(acts) && forall k: string, i: nat :: !Stands(acts, k, i)
  {
    var last := acts[|acts| - 1];
    assert LastOfWhole(acts, |acts| - 1);
    assert forall k :: Bears(last, k) && !VouchesFor(last, k);
  }

  lemma LegacyReview(acts: seq<FinishAck>, c: Current)
    requires ValidCurrent(c) && PreSection(acts)
    ensures IsReviewOf(LegacyOf(acts[|acts| - 1], c), acts, c)
  {
    LegacySays(acts, c);
    LegacyStands(acts, c);
    LegacyRests(acts, c);
  }

  lemma LegacySays(acts: seq<FinishAck>, c: Current)
    requires ValidCurrent(c) && PreSection(acts)
    ensures SaysOfSections(LegacyOf(acts[|acts| - 1], c), acts, c)
  {
    var r := LegacyOf(acts[|acts| - 1], c);
    forall k ensures SaysOf(r, acts, c, k) {
      LegacySaysOf(acts, c, k);
    }
    LegacyIsWhole(acts);
    LegacyInOrder(acts[|acts| - 1], c);
  }

  lemma LegacyInOrder(last: FinishAck, c: Current)
    ensures InOrder(LegacyOf(last, c).covered, c.order) && InOrder(LegacyOf(last, c).changed, c.order)
  {
    WholeInOrder(c.order);
    NoneInOrder(c.order);
  }

  lemma LegacySaysOf(acts: seq<FinishAck>, c: Current, k: string)
    requires ValidCurrent(c) && PreSection(acts)
    ensures SaysOf(LegacyOf(acts[|acts| - 1], c), acts, c, k)
  {
  }

  lemma LegacyStands(acts: seq<FinishAck>, c: Current)
    requires ValidCurrent(c) && PreSection(acts)
    ensures StandsAs(LegacyOf(acts[|acts| - 1], c), acts, c)
  {
    LegacyIsWhole(acts);
  }

  lemma LegacyRests(acts: seq<FinishAck>, c: Current)
    requires PreSection(acts)
    ensures forall num :: num in LegacyOf(acts[|acts| - 1], c).acks <==> RestsOn(acts, c, num)
  {
  }

  lemma LegacyIsReviewed(acts: seq<FinishAck>, c: Current)
    requires ValidCurrent(c) && PreSection(acts)
    ensures Reviewed(acts, c)
  {
    assert c.order[0] in c.now;
    assert Tells(acts, c, c.order[0]);
  }

  lemma WholeInOrder(order: seq<string>)
    ensures InOrder(order, order)
  {
    var at := seq(|order|, i requires 0 <= i < |order| => i);
    assert Placed(order, order, at, |order|);
  }

  lemma NoneInOrder(order: seq<string>)
    ensures InOrder([], order)
  {
    assert Placed([], order, [], |order|);
  }

  // --- what a review that stands says ---

  /** With `whole` set, covered and changed partition the version's sections, and removed lies outside them. */
  lemma WholeReviewPartitions(r: SeatReview, acts: seq<FinishAck>, c: Current, k: string)
    requires ValidCurrent(c) && IsReviewOf(r, acts, c) && r.whole
    ensures k in c.order <==> (k in r.covered || k in r.changed)
    ensures !(k in r.covered && k in r.changed)
    ensures k in r.removed ==> k !in c.order
    ensures forall i, j :: 0 <= i < j < |r.covered| ==> r.covered[i] != r.covered[j]
    ensures forall i, j :: 0 <= i < j < |r.changed| ==> r.changed[i] != r.changed[j]
  {
    assert SaysOf(r, acts, c, k);
    PlacedOnce(r.covered, c);
    PlacedOnce(r.changed, c);
  }

  lemma PlacedOnce(xs: seq<string>, c: Current)
    requires ValidCurrent(c) && InOrder(xs, c.order)
    ensures forall i, j :: 0 <= i < j < |xs| ==> xs[i] != xs[j]
  {
    var at :| Placed(xs, c.order, at, |c.order|);
    forall i, j | 0 <= i < j < |xs| ensures xs[i] != xs[j] {
      assert at[i] < at[j] && c.order[at[i]] != c.order[at[j]];
    }
  }

  /** The last of the seat's acts that bears on a section. */
  ghost predicate LastBearing(acts: seq<FinishAck>, k: string, i: nat) {
    i < |acts| && Bears(acts[i], k) && forall j :: i < j < |acts| ==> !Bears(acts[j], k)
  }

  /**
   * The last act that bears on a section decides whether it is covered: a
   * per-section one by what it says of the section; one from before them only
   * while it is the seat's very last act.
   */
  lemma LastBearingDecides(acts: seq<FinishAck>, c: Current, k: string, i: nat)
    requires LastBearing(acts, k, i)
    ensures acts[i].sections.Some? ==>
              (Covers(acts, c, k) <==> k in c.now && VouchesFor(acts[i], k) && acts[i].sections.value[k] == c.now[k])
    ensures acts[i].sections.None? ==>
              (Covers(acts, c, k) <==> k in c.now && i == |acts| - 1 && acts[i].verdict == NoObjection && acts[i].digest == c.digest)
  {
    if PreSection(acts) {
      assert Bears(acts[|acts| - 1], k);
      assert i == |acts| - 1;
    } else {
      forall j: nat | Stands(acts, k, j) ensures j == i {
        assert Bears(acts[j], k);
      }
      if Covers(acts, c, k) {
        var j: nat :| Stands(acts, k, j) && acts[j].sections.value[k] == c.now[k];
        assert j == i;
      }
      assert Stands(acts, k, i) <==> VouchesFor(acts[i], k);
    }
  }

  /**
   * What one more act does to a section's coverage: an act that names the
   * section, or has no section map, decides it; one of the whole that does not
   * name it drops it; and one of other sections leaves it, but for what was
   * covered by an act without a section map.
   */
  lemma OneMoreAct(acts: seq<FinishAck>, a: FinishAck, c: Current, k: string)
    ensures Covers(acts + [a], c, k) <==>
              && k in c.now
              && (if a.sections.None? then a.verdict.NoObjection? && a.digest == c.digest
                  else if k in a.sections.value then a.verdict.NoObjection? && a.sections.value[k] == c.now[k]
                  else !a.whole && (acts != [] ==> acts[|acts| - 1].sections.Some?) && Covers(acts, c, k))
  {
    var now := acts + [a];
    assert now[..|acts| + 1] == now && now[..|acts|] == acts;
    forall i: nat ensures Stands(now, k, i) <==> if i == |acts| then VouchesFor(a, k) else Stands(acts, k, i) && !Bears(a, k) {
      StandsPrefix(now, |acts|, k, i);
    }
    if !PreSection(now) && k in c.now {
      if a.sections.Some? && k in a.sections.value {
        assert Stands(now, k, |acts|) <==> a.verdict.NoObjection?;
      } else if acts != [] && acts[|acts| - 1].sections.None? {
        assert Bears(acts[|acts| - 1], k);
      } else if !a.whole && a.sections.Some? {
        if i: nat :| Stands(acts, k, i) && acts[i].sections.value[k] == c.now[k] { assert Stands(now, k, i); }
      }
    }
  }

  /** An act that vouches for a section as it is now: for the section at its digest, or before per-section reviews for the whole at its own. */
  predicate VouchesNow(a: FinishAck, c: Current, k: string) {
    && k in c.now && a.verdict == NoObjection
    && (if a.sections.Some? then k in a.sections.value && a.sections.value[k] == c.now[k] else a.digest == c.digest)
  }

  /** A section is covered only by an act that vouches for it as it is now, with none of the seat's bearing on it since. */
  lemma CoveredIsBorne(acts: seq<FinishAck>, c: Current, k: string)
    requires Covers(acts, c, k)
    ensures exists i: nat :: LastBearing(acts, k, i) && VouchesNow(acts[i], c, k)
  {
    if PreSection(acts) {
      var last: nat := |acts| - 1;
      assert LastBearing(acts, k, last) && VouchesNow(acts[last], c, k);
    } else {
      var i: nat :| Stands(acts, k, i) && acts[i].sections.value[k] == c.now[k];
      assert LastBearing(acts, k, i) && VouchesNow(acts[i], c, k);
    }
  }

  /**
   * A seat that reviewed the whole report before per-section reviews, at the
   * digest it has now, and then reviews one section of it, covers no other
   * section any more: its earlier review is asked again on an unchanged report.
   */
  lemma EarlierReviewIsDropped()
    ensures var c := Current("d", ["1", "2"], map["1" := "x", "2" := "y"]);
            var before := [FinishAck(1, "a", "d", NoObjection, None, None, false)];
            var after := before + [FinishAck(2, "a", "d", NoObjection, None, Some(map["2" := "y"]), false)];
            && ValidCurrent(c) && Covers(before, c, "1") && Covers(before, c, "2")
            && !Covers(after, c, "1") && AskedAgain(after, c, "1") && Covers(after, c, "2")
  {
    var c := Current("d", ["1", "2"], map["1" := "x", "2" := "y"]);
    var before := [FinishAck(1, "a", "d", NoObjection, None, None, false)];
    var after := before + [FinishAck(2, "a", "d", NoObjection, None, Some(map["2" := "y"]), false)];
    assert LastBearing(after, "1", 0) && LastBearing(after, "2", 1);
    LastBearingDecides(after, c, "1", 0);
    LastBearingDecides(after, c, "2", 1);
    assert LastOfWhole(after, 0);
  }

  // --- every seat ---

  /** A seat's acts on the report, in order: those that name another file are left out. */
  function SeatActs(acks: seq<FinishAck>, report: Path, seat: Seat): seq<FinishAck> {
    if acks == [] then []
    else
      var out := SeatActs(acks[..|acks| - 1], report, seat);
      var a := acks[|acks| - 1];
      if a.seat == seat && (a.report.None? || a.report.value == report) then out + [a] else out
  }

  /** The seats that acked the report, in the order of their first ack. */
  function Seats(acks: seq<FinishAck>, report: Path): seq<Seat> {
    if acks == [] then []
    else
      var out := Seats(acks[..|acks| - 1], report);
      var a := acks[|acks| - 1];
      if (a.report.None? || a.report.value == report) && a.seat !in out then out + [a.seat] else out
  }

  lemma {:induction false} SeatsAreThose(acks: seq<FinishAck>, report: Path, seat: Seat)
    ensures seat in Seats(acks, report) <==> SeatActs(acks, report, seat) != []
  {
    if acks != [] {
      SeatsAreThose(acks[..|acks| - 1], report, seat);
    }
  }

  method GroupSeats(acks: seq<FinishAck>, report: Path) returns (seats: seq<Seat>, acts: map<Seat, seq<FinishAck>>)
    ensures seats == Seats(acks, report)
    ensures forall seat :: (seat in acts <==> seat in seats) && (seat in acts ==> acts[seat] == SeatActs(acks, report, seat))
    ensures forall seat :: seat !in acts ==> SeatActs(acks, report, seat) == []
  {
    seats, acts := [], map[];
    for n := 0 to |acks|
      invariant seats == Seats(acks[..n], report)
      invariant forall seat :: seat in acts <==> seat in seats
      invariant forall seat :: SeatActs(acks[..n], report, seat) == if seat in acts then acts[seat] else []
    {
      assert acks[..n + 1][..n] == acks[..n];
      var a := acks[n];
      if a.report.Some? && a.report.value != report { continue; }
      acts := acts[a.seat := (if a.seat in acts then acts[a.seat] else []) + [a]];
      if a.seat !in seats { seats := seats + [a.seat]; }
    }
    assert acks[..|acks|] == acks;
  }

  /** Every seat's review, and of no seat without one. */
  ghost predicate ReviewsOf(reviews: map<Seat, SeatReview>, acks: seq<FinishAck>, report: Path, c: Current) {
    && (forall seat :: seat in reviews ==> IsReviewOf(reviews[seat], SeatActs(acks, report, seat), c))
    && (forall seat :: seat in reviews <==> Reviewed(SeatActs(acks, report, seat), c))
  }

  /** Each seat's review, of the seats that have one. */
  function AllReviews(acks: seq<FinishAck>, report: Path, c: Current): map<Seat, SeatReview> {
    map seat | seat in Seats(acks, report) && ReviewOf(SeatActs(acks, report, seat), c).Some?
      :: ReviewOf(SeatActs(acks, report, seat), c).value
  }

  lemma AllReviewsMean(acks: seq<FinishAck>, report: Path, c: Current)
    requires ValidCurrent(c)
    ensures ReviewsOf(AllReviews(acks, report, c), acks, report, c)
  {
    var reviews := AllReviews(acks, report, c);
    forall seat
      ensures seat in reviews ==> IsReviewOf(reviews[seat], SeatActs(acks, report, seat), c)
      ensures seat in reviews <==> Reviewed(SeatActs(acks, report, seat), c)
    {
      ReviewMeans(SeatActs(acks, report, seat), c);
      SeatsAreThose(acks, report, seat);
      NoActsNoReview(c);
    }
  }

  /** Each seat's review, of the seats whose acts vouch for something the report has or had. */
  method ReviewSeats(acks: seq<FinishAck>, report: Path, c: Current) returns (reviews: map<Seat, SeatReview>)
    requires ValidCurrent(c)
    ensures reviews == AllReviews(acks, report, c) && ReviewsOf(reviews, acks, report, c)
  {
    var seats, acts := GroupSeats(acks, report);
    reviews := ReviewEach(seats, acts, c);
    ReviewsInAll(reviews, acts, acks, report, c);
    AllReviewsMean(acks, report, c);
  }

  method ReviewEach(seats: seq<Seat>, acts: map<Seat, seq<FinishAck>>, c: Current) returns (reviews: map<Seat, SeatReview>)
    requires ValidCurrent(c) && forall seat :: seat in seats ==> seat in acts
    ensures ReviewsIn(reviews, acts, seats, c)
  {
    reviews := map[];
    for n := 0 to |seats|
      invariant ReviewsIn(reviews, acts, seats[..n], c)
    {
      var r := ReviewSeat(acts[seats[n]], c);
      assert seats[..n + 1] == seats[..n] + [seats[n]];
      OneMoreReview(reviews, acts, seats[..n], c, seats[n]);
      if r.Some? { reviews := reviews[seats[n] := r.value]; }
    }
    assert seats[..|seats|] == seats;
  }

  /** The reviews of these seats, by their acts. */
  ghost predicate ReviewsIn(reviews: map<Seat, SeatReview>, acts: map<Seat, seq<FinishAck>>, seats: seq<Seat>, c: Current) {
    forall seat :: (if seat in reviews then Some(reviews[seat]) else None)
                == (if seat in seats && seat in acts then ReviewOf(acts[seat], c) else None)
  }

  lemma OneMoreReview(reviews: map<Seat, SeatReview>, acts: map<Seat, seq<FinishAck>>, seats: seq<Seat>, c: Current, seat: Seat)
    requires ReviewsIn(reviews, acts, seats, c) && seat in acts
    ensures var r := ReviewOf(acts[seat], c);
            ReviewsIn(if r.Some? then reviews[seat := r.value] else reviews, acts, seats + [seat], c)
  {
  }

  lemma ReviewsInAll(reviews: map<Seat, SeatReview>, acts: map<Seat, seq<FinishAck>>, acks: seq<FinishAck>, report: Path, c: Current)
    requires ReviewsIn(reviews, acts, Seats(acks, report), c)
    requires forall seat :: (seat in acts <==> seat in Seats(acks, report)) && (seat in acts ==> acts[seat] == SeatActs(acks, report, seat))
    ensures reviews == AllReviews(acks, report, c)
  {
    var all := AllReviews(acks, report, c);
    forall seat ensures (if seat in reviews then Some(reviews[seat]) else None) == (if seat in all then Some(all[seat]) else None) {
      assert seat in acts <==> seat in Seats(acks, report);
    }
    assert forall seat :: seat in reviews <==> seat in all;
    assert forall seat :: seat in reviews ==> reviews[seat] == all[seat];
  }

  lemma NoActsNoReview(c: Current)
    ensures !Reviewed([], c)
  {
  }

  lemma CoversIsReviewed(acts: seq<FinishAck>, c: Current, k: string)
    requires Covers(acts, c, k)
    ensures Reviewed(acts, c)
  {
    assert Tells(acts, c, k);
    if !PreSection(acts) {
      var i: nat :| Stands(acts, k, i) && acts[i].sections.value[k] == c.now[k];
    }
  }

  ghost predicate CoveredBySome(acks: seq<FinishAck>, report: Path, c: Current, k: string) {
    exists seat :: Covers(SeatActs(acks, report, seat), c, k)
  }

  /** All the reviews against a version, and which of its sections no seat covers. */
  method ReviewStanding(acks: seq<FinishAck>, report: Path, c: Current)
    returns (reviews: map<Seat, SeatReview>, uncovered: seq<string>)
    requires ValidCurrent(c)
    ensures reviews == AllReviews(acks, report, c) && ReviewsOf(reviews, acks, report, c)
    ensures forall k :: k in uncovered <==> k in c.order && !CoveredBySome(acks, report, c, k)
  {
    reviews := ReviewSeats(acks, report, c);
    var covering := set seat, k | seat in reviews && k in reviews[seat].covered :: k;
    CoveringIs(acks, report, c, reviews, covering);
    uncovered := Uncovered(c.order, covering);
  }

  method Uncovered(order: seq<string>, covering: set<string>) returns (uncovered: seq<string>)
    ensures forall k :: k in uncovered <==> k in order && k !in covering
  {
    uncovered := [];
    for n := 0 to |order|
      invariant forall k :: k in uncovered <==> k in order[..n] && k !in covering
    {
      assert order[..n + 1] == order[..n] + [order[n]];
      if order[n] !in covering { uncovered := uncovered + [order[n]]; }
    }
    assert order[..|order|] == order;
  }

  lemma CoveringIs(acks: seq<FinishAck>, report: Path, c: Current, reviews: map<Seat, SeatReview>, covering: set<string>)
    requires ReviewsOf(reviews, acks, report, c)
    requires covering == set seat, k | seat in reviews && k in reviews[seat].covered :: k
    ensures forall k :: k in covering <==> CoveredBySome(acks, report, c, k)
  {
    forall k ensures k in covering <==> CoveredBySome(acks, report, c, k) {
      CoveringMeans(acks, report, c, reviews, k);
    }
  }

  lemma CoveringMeans(acks: seq<FinishAck>, report: Path, c: Current, reviews: map<Seat, SeatReview>, k: string)
    requires ReviewsOf(reviews, acks, report, c)
    ensures (exists seat :: seat in reviews && k in reviews[seat].covered) <==> CoveredBySome(acks, report, c, k)
  {
    if seat :| seat in reviews && k in reviews[seat].covered {
      assert SaysOf(reviews[seat], SeatActs(acks, report, seat), c, k);
    }
    if CoveredBySome(acks, report, c, k) {
      var seat :| Covers(SeatActs(acks, report, seat), c, k);
      CoversIsReviewed(SeatActs(acks, report, seat), c, k);
      assert SaysOf(reviews[seat], SeatActs(acks, report, seat), c, k);
    }
  }

  // --- what a carry event lists ---

  /** One line for each of the seats whose review has the given standing, in their order. */
  function Carries(seats: seq<Seat>, reviews: map<Seat, SeatReview>, standing: Standing): seq<ReviewCarry> {
    if seats == [] then []
    else
      var out := Carries(seats[..|seats| - 1], reviews, standing);
      var seat := seats[|seats| - 1];
      if seat in reviews && reviews[seat].standing == standing then out + [CarryOf(seat, reviews[seat])] else out
  }

  function CarryOf(seat: Seat, r: SeatReview): ReviewCarry {
    if r.standing == Reasked then ReviewCarry(seat, r.acks, [], r.changed, r.removed) else ReviewCarry(seat, r.acks, r.covered, [], {})
  }

  /** A seat is listed exactly when its review stands so, as its review says. */
  lemma {:induction false} ListedExactly(seats: seq<Seat>, reviews: map<Seat, SeatReview>, standing: Standing, x: ReviewCarry)
    ensures x in Carries(seats, reviews, standing) <==>
              x.seat in seats && x.seat in reviews && reviews[x.seat].standing == standing && x == CarryOf(x.seat, reviews[x.seat])
  {
    if seats != [] {
      ListedExactly(seats[..|seats| - 1], reviews, standing, x);
      assert seats == seats[..|seats| - 1] + [seats[|seats| - 1]];
    }
  }

  lemma CarriesMore(seats: seq<Seat>, reviews: map<Seat, SeatReview>, standing: Standing, n: nat)
    requires n < |seats|
    ensures Carries(seats[..n + 1], reviews, standing)
         == Carries(seats[..n], reviews, standing)
            + if seats[n] in reviews && reviews[seats[n]].standing == standing then [CarryOf(seats[n], reviews[seats[n]])] else []
  {
    assert seats[..n + 1][..n] == seats[..n];
  }

  /** The reviews to carry over and those to ask again, of the seats given, in their order. */
  method ListStanding(seats: seq<Seat>, reviews: map<Seat, SeatReview>) returns (kept: seq<ReviewCarry>, reasked: seq<ReviewCarry>)
    ensures kept == Carries(seats, reviews, CarriedOver) && reasked == Carries(seats, reviews, Reasked)
  {
    kept, reasked := [], [];
    for n := 0 to |seats|
      invariant kept == Carries(seats[..n], reviews, CarriedOver) && reasked == Carries(seats[..n], reviews, Reasked)
    {
      CarriesMore(seats, reviews, CarriedOver, n);
      CarriesMore(seats, reviews, Reasked, n);
      if seats[n] in reviews {
        var r := reviews[seats[n]];
        if r.standing == CarriedOver {
          kept := kept + [ReviewCarry(seats[n], r.acks, r.covered, [], {})];
        } else if r.standing == Reasked {
          reasked := reasked + [ReviewCarry(seats[n], r.acks, [], r.changed, r.removed)];
        }
      }
    }
    assert seats[..|seats|] == seats;
  }

  /** The reviews to carry over and those to ask again, listed seat by seat. */
  method ListCarries(acks: seq<FinishAck>, report: Path, c: Current) returns (kept: seq<ReviewCarry>, reasked: seq<ReviewCarry>)
    requires ValidCurrent(c)
    ensures kept == Listed(acks, report, c, CarriedOver) && reasked == Listed(acks, report, c, Reasked)
  {
    var seats, _ := GroupSeats(acks, report);
    var reviews, _ := ReviewStanding(acks, report, c);
    kept, reasked := ListStanding(seats, reviews);
  }

  /** The reviews that stand so, seat by seat. */
  function Listed(acks: seq<FinishAck>, report: Path, c: Current, standing: Standing): seq<ReviewCarry> {
    Carries(Seats(acks, report), AllReviews(acks, report, c), standing)
  }
}
