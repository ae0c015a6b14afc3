/**
 * Retried calls end to end (extensions/board.ts, call and callOnce): the
 * client, the wire and a hub with a memory of request ids, interleaved in any
 * way. A call has at most one effect, and an answer it returns belongs to it.
 */
module HubRpc {
  import opened Wrappers
  import opened HubClient

  type Rid = nat

  const MOST_ATTEMPTS := 4

  /** A retried call: the requests it has sent, in order, and what it returned. */
  datatype Op = Op(ids: seq<Id>, result: Option<Outcome>)

  /** The client; the calls and whose each request is; what is on the wire; the hub's answers, its memory and what it did. */
  datatype Sys = Sys(
    client: State, ops: map<Rid, Op>, rid: map<Id, Rid>, wire: set<Id>,
    replies: map<Id, Reply>, ran: map<Rid, Reply>, effects: seq<Rid>)

  datatype Step =
    | Open
    | Destroy(link: Link)
    | Close(link: Link)
    | Begin(op: Rid)
    | Try(op: Rid, large: bool, tooLong: bool)
    | CannotOpen(op: Rid)
    | Upload(id: Id, refused: bool)
    | Serve(id: Id, reply: Reply)
    | Answer(id: Id, inParts: bool)
    | Fetch(id: Id, whole: bool)
    | TimeOut(id: Id)
    | Abort(id: Id)
    | Finish(op: Rid, aborted: bool)

  /** How a call's last request settled, if it has sent one and it has. */
  function LastOutcome(s: Sys, op: Op): Option<Outcome> {
    if op.ids != [] && op.ids[|op.ids| - 1] in s.client.settled then Some(s.client.settled[op.ids[|op.ids| - 1]]) else None
  }

  /** A call sends its first request, or another once the last was lost with its link. */
  predicate MayTry(s: Sys, op: Op) {
    op.result.None? && (op.ids == [] || (LastOutcome(s, op).Some? && Lost(LastOutcome(s, op).value) && |op.ids| < MOST_ATTEMPTS))
  }

  /** The request goes on the wire once the client has written it. */
  function Written(s: Sys, id: Id): Sys {
    if id in s.client.pending then s.(wire := s.wire + {id}) else s
  }

  /** A call and its next request, before the client settles anything on it. */
  function Asked(s: Sys, r: Rid, d: State): Sys
    requires r in s.ops
  {
    s.(client := d, rid := s.rid[s.client.next := r], ops := s.ops[r := s.ops[r].(ids := s.ops[r].ids + [s.client.next])])
  }

  function TryOp(s: Sys, r: Rid, large: bool, tooLong: bool): Sys
    requires r in s.ops && s.client.socket.Some?
  {
    Written(Asked(s, r, Issued(s.client, large, tooLong)), s.client.next)
  }

  function ServeRequest(s: Sys, id: Id, reply: Reply): Sys
    requires id in s.rid
  {
    var r, t := s.rid[id], s.(wire := s.wire - {id});
    if r in s.ran then t.(replies := s.replies[id := s.ran[r]])
    else t.(replies := s.replies[id := reply], ran := s.ran[r := reply], effects := s.effects + [r])
  }

  function FinishOp(s: Sys, r: Rid, aborted: bool): Sys
    requires r in s.ops
  {
    var op := s.ops[r];
    var last := LastOutcome(s, op);
    if op.result.None? && last.Some? && (!Lost(last.value) || |op.ids| == MOST_ATTEMPTS || aborted) then
      s.(ops := s.ops[r := op.(result := last)])
    else s
  }

  function StepTo(s: Sys, step: Step): Sys {
    match step
    case Open => if Linked(s.client) then s else s.(client := Attached(s.client))
    case Destroy(link) => s.(client := Destroyed(s.client, link))
    case Close(link) => if link < s.client.links then s.(client := Closed(s.client, link)) else s
    case Begin(r) => if r in s.ops then s else s.(ops := s.ops[r := Op([], None)])
    case Try(r, large, tooLong) =>
      if r in s.ops && MayTry(s, s.ops[r]) && s.client.socket.Some? then TryOp(s, r, large, tooLong) else s
    case CannotOpen(r) =>
      if r in s.ops && MayTry(s, s.ops[r]) then s.(ops := s.ops[r := s.ops[r].(result := Some(Unreachable))]) else s
    case Upload(id, refused) =>
      if id in s.client.uploading then Written(s.(client := Uploaded(s.client, id, refused)), id) else s
    case Serve(id, reply) => if id in s.wire && id in s.rid then ServeRequest(s, id, reply) else s
    case Answer(id, inParts) =>
      if id in s.replies && Linked(s.client) then
        s.(client := OnLine(s.client, s.client.socket.value, if inParts then Kept(id) else Here(id, s.replies[id])))
      else s
    case Fetch(id, whole) =>
      if id in s.client.fetching && id in s.replies then
        s.(client := Fetched(s.client, id, if whole then Some(s.replies[id]) else None))
      else s
    case TimeOut(id) => if id in s.client.pending then s.(client := TimedOut(s.client, id)) else s
    case Abort(id) => s.(client := AbortedCall(s.client, id))
    case Finish(r, aborted) => if r in s.ops then FinishOp(s, r, aborted) else s
  }

  /** A run: the system at each moment, and the step that led from each to the next. */
  datatype Run = Run(states: seq<Sys>, steps: seq<Step>)

  ghost predicate StepAt(run: Run, i: nat) {
    i + 1 < |run.states| && i < |run.steps| && run.states[i + 1] == StepTo(run.states[i], run.steps[i])
  }

  ghost predicate IsRun(run: Run) {
    && |run.states| == |run.steps| + 1
    && Initial(run.states[0])
    && forall i: nat :: i < |run.steps| ==> StepAt(run, i)
  }

  ghost predicate Initial(s: Sys) {
    s == Sys(State(None, 0, {}, {}, "", 1, map[], map[], map[], map[]), map[], map[], {}, map[], map[], [])
  }

  // --- what every reachable state keeps ---

  /** The hub ran each request id it remembers once, and nothing else. */
  ghost predicate HubOk(s: Sys) {
    && Distinct(s.effects)
    && forall r :: r in s.effects <==> r in s.ran
  }

  /** Every answer the hub gave is its run's, and every answer the client settled or is fetching is one the hub gave. */
  ghost predicate AnswersOk(s: Sys) {
    && (forall id :: id in s.replies ==> id in s.rid && s.rid[id] in s.ran && s.replies[id] == s.ran[s.rid[id]])
    && (forall id :: id in s.client.settled && s.client.settled[id].Answered? ==>
          id in s.replies && s.client.settled[id].reply == s.replies[id])
  }

  /** A call's requests are its own, at most four, each sent only once the one before was lost; its result is its last request's. */
  ghost predicate OpOk(s: Sys, r: Rid, op: Op) {
    && |op.ids| <= MOST_ATTEMPTS
    && (forall i :: 0 <= i < |op.ids| ==> op.ids[i] < s.client.next && op.ids[i] in s.rid && s.rid[op.ids[i]] == r)
    && (forall i :: 0 <= i < |op.ids| - 1 ==> op.ids[i] in s.client.settled && Lost(s.client.settled[op.ids[i]]))
    && (op.result.Some? && !op.result.value.Unreachable? ==> op.result == LastOutcome(s, op))
  }

  ghost predicate RequestsOk(s: Sys) {
    forall id :: id in s.rid ==> id < s.client.next && s.rid[id] in s.ops && id in s.ops[s.rid[id]].ids
  }

  ghost predicate Sound(s: Sys) {
    && Good(s.client) && s.client.next >= 1
    && HubOk(s) && AnswersOk(s) && RequestsOk(s)
    && forall r :: r in s.ops ==> OpOk(s, r, s.ops[r])
  }

  /** What a step on the client alone may do: settle calls that had not settled, never change one that had. */
  ghost predicate Advances(c: State, d: State) {
    && d.next == c.next
    && forall id :: id in c.settled ==> id in d.settled && d.settled[id] == c.settled[id]
  }

  lemma ClientStepKeepsOp(s: Sys, d: State, r: Rid, op: Op)
    requires OpOk(s, r, op) && Advances(s.client, d)
    ensures OpOk(s.(client := d), r, op)
  {
  }

  lemma ClientStepKeepsAnswers(s: Sys, d: State)
    requires AnswersOk(s)
    requires forall id :: id in d.settled && d.settled[id].Answered? ==>
               (id in s.client.settled && d.settled[id] == s.client.settled[id]) || (id in s.replies && d.settled[id].reply == s.replies[id])
    ensures AnswersOk(s.(client := d))
  {
  }

  lemma ClientStepKeeps(s: Sys, d: State)
    requires Sound(s) && Good(d) && Advances(s.client, d)
    requires forall id :: id in d.settled && id !in s.client.settled && d.settled[id].Answered? ==>
               id in s.replies && d.settled[id].reply == s.replies[id]
    ensures Sound(s.(client := d))
  {
    ClientStepKeepsAnswers(s, d);
    forall r | r in s.ops ensures OpOk(s.(client := d), r, s.ops[r]) {
      ClientStepKeepsOp(s, d, r, s.ops[r]);
    }
  }

  lemma WrittenKeeps(s: Sys, id: Id)
    requires Sound(s)
    ensures Sound(Written(s, id))
  {
    var t := Written(s, id);
    forall r | r in t.ops ensures OpOk(t, r, t.ops[r]) {
      assert OpOk(s, r, s.ops[r]);
    }
  }

  ghost predicate Grows(c: State, d: State) {
    d.next == c.next + 1 && forall id :: id in c.settled ==> id in d.settled && d.settled[id] == c.settled[id]
  }

  /** A call's next request: all before it were lost, and none had this id. */
  lemma AskedKeepsOp(s: Sys, r: Rid, d: State, other: Rid)
    requires Sound(s) && r in s.ops && MayTry(s, s.ops[r]) && Grows(s.client, d) && other in s.ops
    ensures OpOk(Asked(s, r, d), other, Asked(s, r, d).ops[other])
  {
    assert OpOk(s, other, s.ops[other]);
  }

  lemma AskedKeepsRequests(s: Sys, r: Rid, d: State)
    requires Sound(s) && r in s.ops && Grows(s.client, d)
    ensures RequestsOk(Asked(s, r, d))
  {
    var t, op := Asked(s, r, d), s.ops[r];
    forall x | x in t.rid ensures x < t.client.next && t.rid[x] in t.ops && x in t.ops[t.rid[x]].ids {
      if x != s.client.next { assert x in s.ops[s.rid[x]].ids; }
      else { assert t.ops[r].ids[|op.ids|] == x; }
    }
  }

  lemma NewIdIsNew(s: Sys)
    requires Sound(s)
    ensures s.client.next !in s.rid && s.client.next !in s.replies && s.client.next !in s.client.settled
  {
    assert Places(s.client, s.client.next) == 0;
  }

  lemma IssuedAdvances(c: State, large: bool, tooLong: bool)
    requires Good(c) && c.socket.Some? && c.next !in c.settled
    ensures var d := Issued(c, large, tooLong);
            && d.next == c.next + 1
            && (forall id :: id in c.settled ==> id in d.settled && d.settled[id] == c.settled[id])
            && forall id :: id in d.settled && d.settled[id].Answered? ==> id in c.settled && d.settled[id] == c.settled[id]
  {
  }

  lemma TryKeeps(s: Sys, r: Rid, large: bool, tooLong: bool)
    requires Sound(s) && r in s.ops && MayTry(s, s.ops[r]) && s.client.socket.Some?
    ensures Sound(TryOp(s, r, large, tooLong))
  {
    var d := Issued(s.client, large, tooLong);
    NewIdIsNew(s);
    IssuedKeeps(s.client, large, tooLong);
    IssuedAdvances(s.client, large, tooLong);
    AskedKeepsRequests(s, r, d);
    forall other | other in s.ops ensures OpOk(Asked(s, r, d), other, Asked(s, r, d).ops[other]) {
      AskedKeepsOp(s, r, d, other);
    }
    WrittenKeeps(Asked(s, r, d), s.client.next);
  }

  /** A request the hub has run before is answered as it was then; one it has not is run, and remembered. */
  lemma ServeKeepsAnswers(s: Sys, id: Id, reply: Reply)
    requires AnswersOk(s) && HubOk(s) && id in s.rid
    ensures AnswersOk(ServeRequest(s, id, reply)) && HubOk(ServeRequest(s, id, reply))
  {
    var t := ServeRequest(s, id, reply);
    forall other | other in t.replies
      ensures other in t.rid && t.rid[other] in t.ran && t.replies[other] == t.ran[t.rid[other]]
    {
      assert other != id ==> other in s.replies;
    }
  }

  lemma ServeKeeps(s: Sys, id: Id, reply: Reply)
    requires Sound(s) && id in s.rid
    ensures Sound(ServeRequest(s, id, reply))
  {
    ServeKeepsAnswers(s, id, reply);
    forall r | r in s.ops ensures OpOk(ServeRequest(s, id, reply), r, s.ops[r]) {
      ServeKeepsOp(s, id, reply, r);
    }
  }

  lemma ServeKeepsOp(s: Sys, id: Id, reply: Reply, r: Rid)
    requires id in s.rid && r in s.ops && OpOk(s, r, s.ops[r])
    ensures OpOk(ServeRequest(s, id, reply), r, s.ops[r])
  {
  }

  lemma OpStepKeeps(s: Sys, r: Rid, op: Op)
    requires Sound(s) && OpOk(s, r, op) && (if r in s.ops then s.ops[r].ids == op.ids else op.ids == [])
    ensures Sound(s.(ops := s.ops[r := op]))
  {
    var t := s.(ops := s.ops[r := op]);
    forall other | other in t.ops ensures OpOk(t, other, t.ops[other]) {
      OtherOpsKeep(s, r, op, other, t.ops[other]);
    }
  }

  lemma OtherOpsKeep(s: Sys, r: Rid, op: Op, other: Rid, its: Op)
    requires OpOk(s, other, its)
    ensures OpOk(s.(ops := s.ops[r := op]), other, its)
  {
  }

  lemma CloseStepKeeps(s: Sys, link: Link)
    requires Sound(s) && link < s.client.links
    ensures Sound(s.(client := Closed(s.client, link)))
  {
    ClosedKeeps(s.client, link);
    CloseRejectsItsOwn(s.client, link);
    ClientStepKeeps(s, Closed(s.client, link));
  }

  lemma DestroyStepKeeps(s: Sys, link: Link)
    requires Sound(s)
    ensures Sound(s.(client := Destroyed(s.client, link)))
  {
    BufferedKeeps(s.client, s.client.buffer, link);
    assert s.client.(buffer := s.client.buffer) == s.client;
    ClientStepKeeps(s, Destroyed(s.client, link));
  }

  lemma TimeOutStepKeeps(s: Sys, id: Id)
    requires Sound(s) && id in s.client.pending
    ensures Sound(s.(client := TimedOut(s.client, id)))
  {
    assert Places(s.client, id) <= 1;
    TimedOutKeeps(s.client, id);
    ClientStepKeeps(s, TimedOut(s.client, id));
  }

  lemma AbortStepKeeps(s: Sys, id: Id)
    requires Sound(s)
    ensures Sound(s.(client := AbortedCall(s.client, id)))
  {
    assert Places(s.client, id) <= 1;
    AbortedKeeps(s.client, id);
    ClientStepKeeps(s, AbortedCall(s.client, id));
  }

  lemma UploadStepKeeps(s: Sys, id: Id, refused: bool)
    requires Sound(s) && id in s.client.uploading
    ensures Sound(Written(s.(client := Uploaded(s.client, id, refused)), id))
  {
    assert Places(s.client, id) <= 1;
    UploadedKeeps(s.client, id, refused);
    ClientStepKeeps(s, Uploaded(s.client, id, refused));
    WrittenKeeps(s.(client := Uploaded(s.client, id, refused)), id);
  }

  lemma AnswerStepKeeps(s: Sys, id: Id, inParts: bool)
    requires Sound(s) && id in s.replies && Linked(s.client)
    ensures var line := if inParts then Kept(id) else Here(id, s.replies[id]);
            Sound(s.(client := OnLine(s.client, s.client.socket.value, line)))
  {
    assert Places(s.client, id) <= 1;
    var line := if inParts then Kept(id) else Here(id, s.replies[id]);
    OnLineKeeps(s.client, s.client.socket.value, line);
    ClientStepKeeps(s, OnLine(s.client, s.client.socket.value, line));
  }

  lemma FetchStepKeeps(s: Sys, id: Id, whole: bool)
    requires Sound(s) && id in s.client.fetching && id in s.replies
    ensures Sound(s.(client := Fetched(s.client, id, if whole then Some(s.replies[id]) else None)))
  {
    assert Places(s.client, id) <= 1;
    var reply := if whole then Some(s.replies[id]) else None;
    FetchedKeeps(s.client, id, reply);
    ClientStepKeeps(s, Fetched(s.client, id, reply));
  }

  lemma CannotOpenKeeps(s: Sys, r: Rid)
    requires Sound(s)
    ensures Sound(StepTo(s, CannotOpen(r)))
  {
    if r in s.ops && MayTry(s, s.ops[r]) {
      assert OpOk(s, r, s.ops[r]);
      OpStepKeeps(s, r, s.ops[r].(result := Some(Unreachable)));
    }
  }

  lemma FinishKeeps(s: Sys, r: Rid, aborted: bool)
    requires Sound(s)
    ensures Sound(StepTo(s, Finish(r, aborted)))
  {
    if r in s.ops {
      assert OpOk(s, r, s.ops[r]);
      OpStepKeeps(s, r, s.ops[r].(result := LastOutcome(s, s.ops[r])));
    }
  }

  lemma LinkStepKeeps(s: Sys, step: Step)
    requires Sound(s) && (step.Open? || step.Destroy? || step.Close?)
    ensures Sound(StepTo(s, step))
  {
    match step
    case Open => if !Linked(s.client) { AttachedKeeps(s.client); ClientStepKeeps(s, Attached(s.client)); }
    case Destroy(link) => DestroyStepKeeps(s, link);
    case Close(link) => if link < s.client.links { CloseStepKeeps(s, link); }
  }

  lemma AnswerKeeps(s: Sys, id: Id, inParts: bool)
    requires Sound(s)
    ensures Sound(StepTo(s, Answer(id, inParts)))
  {
    if id in s.replies && Linked(s.client) { AnswerStepKeeps(s, id, inParts); }
  }

  lemma FetchKeeps(s: Sys, id: Id, whole: bool)
    requires Sound(s)
    ensures Sound(StepTo(s, Fetch(id, whole)))
  {
    if id in s.client.fetching && id in s.replies { FetchStepKeeps(s, id, whole); }
  }

  lemma CallStepKeeps(s: Sys, step: Step)
    requires Sound(s) && (step.Upload? || step.TimeOut? || step.Abort?)
    ensures Sound(StepTo(s, step))
  {
    match step
    case Upload(id, refused) => if id in s.client.uploading { UploadStepKeeps(s, id, refused); }
    case TimeOut(id) => if id in s.client.pending { TimeOutStepKeeps(s, id); }
    case Abort(id) => AbortStepKeeps(s, id);
  }

  lemma TryStepKeeps(s: Sys, r: Rid, large: bool, tooLong: bool)
    requires Sound(s)
    ensures Sound(StepTo(s, Try(r, large, tooLong)))
  {
    if r in s.ops && MayTry(s, s.ops[r]) && s.client.socket.Some? { TryKeeps(s, r, large, tooLong); }
  }

  lemma ServeStepKeeps(s: Sys, id: Id, reply: Reply)
    requires Sound(s)
    ensures Sound(StepTo(s, Serve(id, reply)))
  {
    if id in s.wire && id in s.rid { ServeKeeps(s, id, reply); }
  }

  lemma StepKeeps(s: Sys, step: Step)
    requires Sound(s)
    ensures Sound(StepTo(s, step))
  {
    match step
    case Try(r, large, tooLong) => TryStepKeeps(s, r, large, tooLong);
    case Serve(id, reply) => ServeStepKeeps(s, id, reply);
    case Begin(r) => if r !in s.ops { OpStepKeeps(s, r, Op([], None)); }
    case CannotOpen(r) => CannotOpenKeeps(s, r);
    case Finish(r, aborted) => FinishKeeps(s, r, aborted);
    case Answer(id, inParts) => AnswerKeeps(s, id, inParts);
    case Fetch(id, whole) => FetchKeeps(s, id, whole);
    case _ => if step.Open? || step.Destroy? || step.Close? { LinkStepKeeps(s, step); } else { CallStepKeeps(s, step); }
  }

  lemma RunStepKeeps(run: Run, i: nat)
    requires IsRun(run) && i < |run.steps| && Sound(run.states[i])
    ensures Sound(run.states[i + 1])
  {
    assert StepAt(run, i);
    StepKeeps(run.states[i], run.steps[i]);
  }

  /** Over every run the hub, the client and the calls agree. */
  lemma {:induction false} RunIsSound(run: Run, i: nat)
    requires IsRun(run) && i < |run.states|
    ensures Sound(run.states[i])
  {
    if i > 0 {
      RunIsSound(run, i - 1);
      RunStepKeeps(run, i - 1);
    }
  }

  /**
   * Through any drops, timeouts and resends: a call takes effect at most once,
   * is sent at most four times, each time but the first after the one before
   * was lost with its link; and an answer it returns is the one run's.
   */
  lemma AtMostOnce(run: Run, n: nat, r: Rid)
    requires IsRun(run) && n < |run.states| && r in run.states[n].ops
    ensures var s, op := run.states[n], run.states[n].ops[r];
            && (forall i, j :: 0 <= i < j < |s.effects| ==> !(s.effects[i] == r && s.effects[j] == r))
            && |op.ids| <= MOST_ATTEMPTS
            && (forall i :: 0 <= i < |op.ids| - 1 ==> op.ids[i] in s.client.settled && Lost(s.client.settled[op.ids[i]]))
            && (op.result.Some? && op.result.value.Answered? ==>
                  r in s.effects && r in s.ran && op.result.value.reply == s.ran[r])
  {
    RunIsSound(run, n);
    var s := run.states[n];
    assert OpOk(s, r, s.ops[r]);
    if s.ops[r].result.Some? && s.ops[r].result.value.Answered? {
      ResultIsTheRuns(s, r);
    }
  }

  lemma ResultIsTheRuns(s: Sys, r: Rid)
    requires Sound(s) && r in s.ops && s.ops[r].result.Some? && s.ops[r].result.value.Answered?
    ensures r in s.effects && r in s.ran && s.ops[r].result.value.reply == s.ran[r]
  {
    var op := s.ops[r];
    assert OpOk(s, r, op);
    var id := op.ids[|op.ids| - 1];
    assert id in s.replies && s.rid[id] == r;
  }

  ghost predicate SettledAs(c: State, d: State, id: Id) {
    id in c.settled ==> id in d.settled && d.settled[id] == c.settled[id]
  }

  lemma LineSettlesOwn(c: State, link: Link, line: Line, id: Id)
    requires line.Noise? || line.id != id
    ensures SettledAs(c, OnLine(c, link, line), id)
  {
  }

  lemma CallSettlesOwn(c: State, of: Id, id: Id, refused: bool, reply: Option<Reply>)
    requires of != id
    ensures of in c.uploading ==> SettledAs(c, Uploaded(c, of, refused), id)
    ensures of in c.fetching ==> SettledAs(c, Fetched(c, of, reply), id)
    ensures of in c.pending ==> SettledAs(c, TimedOut(c, of), id)
    ensures SettledAs(c, AbortedCall(c, of), id)
  {
  }

  /** A call whose last request is written, on a hub link that stands. */
  ghost predicate Sent(s: Sys, r: Rid, id: Id) {
    && r in s.ops && s.ops[r].result.None? && s.ops[r].ids != [] && id == s.ops[r].ids[|s.ops[r].ids| - 1]
    && id in s.client.pending && Linked(s.client)
  }

  lemma AnswerComes(s: Sys, r: Rid, id: Id, inParts: bool)
    requires Sound(s) && Sent(s, r, id) && id in s.replies
    ensures r in s.ran
    ensures var t := StepTo(s, Answer(id, inParts));
            && t.ops == s.ops && t.replies == s.replies
            && (inParts ==> id in t.client.fetching)
            && (!inParts ==> id in t.client.settled && t.client.settled[id] == Answered(s.ran[r]))
  {
    assert OpOk(s, r, s.ops[r]);
  }

  lemma FetchComes(s: Sys, r: Rid, id: Id)
    requires Sound(s) && id in s.client.fetching && id in s.replies && id in s.rid && s.rid[id] == r
    ensures r in s.ran
    ensures var t := StepTo(s, Fetch(id, true));
            t.ops == s.ops && id in t.client.settled && t.client.settled[id] == Answered(s.ran[r])
  {
  }

  lemma FinishReturns(s: Sys, r: Rid, id: Id, reply: Reply)
    requires r in s.ops && s.ops[r].result.None? && s.ops[r].ids != [] && id == s.ops[r].ids[|s.ops[r].ids| - 1]
    requires id in s.client.settled && s.client.settled[id] == Answered(reply)
    ensures var t := StepTo(s, Finish(r, false));
            r in t.ops && t.ops[r].result == Some(Answered(reply))
  {
  }

  lemma ReturnedAtOnce(s: Sys, r: Rid, id: Id)
    requires Sound(s) && Sent(s, r, id) && id in s.replies
    ensures r in s.ran
    ensures var t := StepTo(StepTo(s, Answer(id, false)), Finish(r, false));
            r in t.ops && t.ops[r].result == Some(Answered(s.ran[r]))
  {
    AnswerComes(s, r, id, false);
    FinishReturns(StepTo(s, Answer(id, false)), r, id, s.ran[r]);
  }

  lemma ReturnedInParts(s: Sys, r: Rid, id: Id)
    requires Sound(s) && Sent(s, r, id) && id in s.replies
    ensures r in s.ran
    ensures var t := StepTo(StepTo(StepTo(s, Answer(id, true)), Fetch(id, true)), Finish(r, false));
            r in t.ops && t.ops[r].result == Some(Answered(s.ran[r]))
  {
    assert OpOk(s, r, s.ops[r]);
    AnswerComes(s, r, id, true);
    StepKeeps(s, Answer(id, true));
    KeepsRan(s, id);
    var t := StepTo(s, Answer(id, true));
    FetchComes(t, r, id);
    FinishReturns(StepTo(t, Fetch(id, true)), r, id, s.ran[r]);
  }

  /**
   * At any moment of a run, a call whose request the hub has served returns
   * the answer of its run: the answer's line comes, is fetched when the hub
   * kept it, and the call has it.
   */
  lemma ServedIsReturned(run: Run, n: nat, r: Rid, id: Id)
    requires IsRun(run) && n < |run.states| && Sent(run.states[n], r, id) && id in run.states[n].replies
    ensures r in run.states[n].ran
    ensures var s := run.states[n];
            var t, u := StepTo(StepTo(s, Answer(id, false)), Finish(r, false)),
                        StepTo(StepTo(StepTo(s, Answer(id, true)), Fetch(id, true)), Finish(r, false));
            && r in t.ops && t.ops[r].result == Some(Answered(s.ran[r]))
            && r in u.ops && u.ops[r].result == Some(Answered(s.ran[r]))
  {
    RunIsSound(run, n);
    ReturnedAtOnce(run.states[n], r, id);
    ReturnedInParts(run.states[n], r, id);
  }

  /**
   * Once a call's last request has settled: another is sent exactly where the
   * link closed under it or it was not answered, three times at most; and the
   * call returns with what it settled on where it will send no other.
   */
  lemma RetryDecides(s: Sys, r: Rid, aborted: bool)
    requires r in s.ops && s.ops[r].result.None? && s.ops[r].ids != [] && s.ops[r].ids[|s.ops[r].ids| - 1] in s.client.settled
    ensures var op := s.ops[r];
            var o := s.client.settled[op.ids[|op.ids| - 1]];
            var again := o in {LinkClosed, NotAnswered} && |op.ids| < 4;
            && (MayTry(s, op) <==> again)
            && (|op.ids| <= 4 ==> StepTo(s, Finish(r, aborted)).ops[r].result == if again && !aborted then None else Some(o))
  {
  }

  /** A request on the wire, of a call that awaits it. */
  ghost predicate Asks(s: Sys, r: Rid, id: Id) {
    Sent(s, r, id) && id in s.wire && id in s.rid && s.rid[id] == r
  }

  lemma TriedAtOnce(s: Sys, r: Rid)
    requires r in s.ops && MayTry(s, s.ops[r]) && Linked(s.client)
    ensures var id, t := s.client.next, StepTo(s, Try(r, false, false));
            Asks(t, r, id) && t.ran == s.ran && t.effects == s.effects
  {
    var id, d := s.client.next, Issued(s.client, false, false);
    assert id in d.pending && Linked(d);
    TriesOp(s, r, false);
    assert Asked(s, r, d).ops[r].ids == s.ops[r].ids + [id];
  }

  lemma TriesOp(s: Sys, r: Rid, large: bool)
    requires r in s.ops && MayTry(s, s.ops[r]) && Linked(s.client)
    ensures StepTo(s, Try(r, large, false)) == TryOp(s, r, large, false)
  {
  }

  lemma TriedUploading(s: Sys, r: Rid)
    requires Good(s.client) && s.client.next >= 1 && r in s.ops && MayTry(s, s.ops[r]) && Linked(s.client)
    ensures var id, t := s.client.next, TryOp(s, r, true, false);
            && r in t.ops && t.ops[r].result.None? && t.ops[r].ids == s.ops[r].ids + [id] && id in t.rid && t.rid[id] == r
            && id in t.client.uploading && t.client.uploading[id] in t.client.live && Linked(t.client)
            && t.ran == s.ran && t.effects == s.effects
  {
    var id, d := s.client.next, Issued(s.client, true, false);
    assert Places(s.client, id) == 0;
    assert id in d.uploading && id !in d.pending;
    assert TryOp(s, r, true, false) == Asked(s, r, d);
  }

  lemma UploadedIsWritten(t: Sys, r: Rid, id: Id)
    requires r in t.ops && t.ops[r].result.None? && t.ops[r].ids != [] && t.ops[r].ids[|t.ops[r].ids| - 1] == id
    requires id in t.rid && t.rid[id] == r && id in t.client.uploading && t.client.uploading[id] in t.client.live && Linked(t.client)
    ensures var u := StepTo(t, Upload(id, false));
            Asks(u, r, id) && u.ran == t.ran && u.effects == t.effects
  {
    var d := Uploaded(t.client, id, false);
    assert id in d.pending && Linked(d);
  }

  /** A call that may try, on a link that stands, has its request on the wire: at once, or once its arguments are through. */
  lemma TriedIsWritten(s: Sys, r: Rid)
    requires Sound(s) && r in s.ops && MayTry(s, s.ops[r]) && Linked(s.client)
    ensures var id, t := s.client.next, StepTo(s, Try(r, false, false));
            Asks(t, r, id) && t.ran == s.ran && t.effects == s.effects
    ensures var id, t := s.client.next, StepTo(StepTo(s, Try(r, true, false)), Upload(s.client.next, false));
            Asks(t, r, id) && t.ran == s.ran && t.effects == s.effects
  {
    TriedAtOnce(s, r);
    TriesOp(s, r, true);
    TriedUploading(s, r);
    UploadedIsWritten(TryOp(s, r, true, false), r, s.client.next);
  }

  lemma AskedIsServed(s: Sys, r: Rid, id: Id, reply: Reply)
    requires Asks(s, r, id)
    ensures var t := StepTo(s, Serve(id, reply));
            && Sent(t, r, id) && id in t.replies && r in t.ran
            && t.ran[r] == (if r in s.ran then s.ran[r] else reply)
            && t.effects == (if r in s.ran then s.effects else s.effects + [r])
  {
  }

  /**
   * From any moment of any run: a call that may send a request, on a link that
   * stands, written at once or uploaded, returns the hub's answer once the hub
   * has served it; and runs there only if no request of it ever had.
   */
  lemma CallGetsThrough(run: Run, n: nat, r: Rid, large: bool, reply: Reply)
    requires IsRun(run) && n < |run.states|
    requires var s := run.states[n]; r in s.ops && MayTry(s, s.ops[r]) && Linked(s.client)
    ensures var s, id := run.states[n], run.states[n].client.next;
            var asked := if large then StepTo(StepTo(s, Try(r, true, false)), Upload(id, false)) else StepTo(s, Try(r, false, false));
            var served := StepTo(asked, Serve(id, reply));
            var t := StepTo(StepTo(served, Answer(id, false)), Finish(r, false));
            && r in t.ops && t.ops[r].result == Some(Answered(if r in s.ran then s.ran[r] else reply))
            && served.effects == if r in s.ran then s.effects else s.effects + [r]
  {
    var s, id := run.states[n], run.states[n].client.next;
    RunIsSound(run, n);
    TriedIsWritten(s, r);
    StepKeeps(s, Try(r, large, false));
    if large { StepKeeps(StepTo(s, Try(r, true, false)), Upload(id, false)); }
    var asked := if large then StepTo(StepTo(s, Try(r, true, false)), Upload(id, false)) else StepTo(s, Try(r, false, false));
    AskedIsServed(asked, r, id, reply);
    StepKeeps(asked, Serve(id, reply));
    ReturnedAtOnce(StepTo(asked, Serve(id, reply)), r, id);
  }

  lemma KeepsRan(s: Sys, id: Id)
    ensures var t := StepTo(s, Answer(id, true)); t.ran == s.ran && t.rid == s.rid
  {
  }

  /** Which call a step may settle besides those a close rejects: the one it names, or the one it makes. */
  lemma SettlesOnlyOwn(s: Sys, step: Step, id: Id)
    requires step.Upload? || step.Answer? || step.Fetch? || step.TimeOut? || step.Abort?
    requires id in s.client.settled && id != step.id
    ensures id in StepTo(s, step).client.settled && StepTo(s, step).client.settled[id] == s.client.settled[id]
  {
    match step
    case Upload(of, refused) => CallSettlesOwn(s.client, of, id, refused, None);
    case Answer(of, inParts) =>
      if of in s.replies && Linked(s.client) {
        LineSettlesOwn(s.client, s.client.socket.value, if inParts then Kept(of) else Here(of, s.replies[of]), id);
      }
    case Fetch(of, whole) => CallSettlesOwn(s.client, of, id, false, if whole && of in s.replies then Some(s.replies[of]) else None);
    case TimeOut(of) => CallSettlesOwn(s.client, of, id, false, None);
    case Abort(of) => CallSettlesOwn(s.client, of, id, false, None);
  }

  lemma NamedIsNotSettled(s: Sys, step: Step, id: Id)
    requires step.Upload? || step.Answer? || step.Fetch? || step.TimeOut? || step.Abort?
    requires Sound(s) && id in s.client.settled && id == step.id
    ensures StepTo(s, step).client == s.client
  {
    assert Places(s.client, id) == 1;
  }

  lemma StepKeepsSettled(s: Sys, step: Step, id: Id)
    requires Sound(s) && id in s.client.settled
    ensures id in StepTo(s, step).client.settled && StepTo(s, step).client.settled[id] == s.client.settled[id]
  {
    if step.Upload? || step.Answer? || step.Fetch? || step.TimeOut? || step.Abort? {
      if id == step.id { NamedIsNotSettled(s, step, id); } else { SettlesOnlyOwn(s, step, id); }
    } else if step.Try? {
      TrySettlesItsOwn(s, step, id);
    } else {
      LinksSettleOthers(s, step, id);
    }
  }

  lemma TrySettlesItsOwn(s: Sys, step: Step, id: Id)
    requires Sound(s) && id in s.client.settled && step.Try?
    ensures id in StepTo(s, step).client.settled && StepTo(s, step).client.settled[id] == s.client.settled[id]
  {
    NewIdIsNew(s);
    if s.client.socket.Some? { IssuedAdvances(s.client, step.large, step.tooLong); }
  }

  lemma LinksSettleOthers(s: Sys, step: Step, id: Id)
    requires Sound(s) && id in s.client.settled
    requires !step.Try? && !step.Upload? && !step.Answer? && !step.Fetch? && !step.TimeOut? && !step.Abort?
    ensures id in StepTo(s, step).client.settled && StepTo(s, step).client.settled[id] == s.client.settled[id]
  {
    if step.Close? { CloseRejectsItsOwn(s.client, step.link); }
  }

  /** What settled stays as it settled: no reply, close, timeout or abort that comes later says anything to it. */
  lemma {:induction false} SettledOnce(run: Run, i: nat, j: nat, id: Id)
    requires IsRun(run) && i <= j < |run.states| && id in run.states[i].client.settled
    ensures id in run.states[j].client.settled && run.states[j].client.settled[id] == run.states[i].client.settled[id]
  {
    if i < j {
      SettledOnce(run, i, j - 1, id);
      RunIsSound(run, j - 1);
      assert StepAt(run, j - 1);
      StepKeepsSettled(run.states[j - 1], run.steps[j - 1], id);
    }
  }

  lemma StepRemembers(s: Sys, step: Step, r: Rid)
    ensures s.effects <= StepTo(s, step).effects
    ensures r in s.ran ==> r in StepTo(s, step).ran && StepTo(s, step).ran[r] == s.ran[r]
  {
  }

  /** What the hub ran stays as it ran, with the answer it gave. */
  lemma {:induction false} HubRemembers(run: Run, i: nat, j: nat, r: Rid)
    requires IsRun(run) && i <= j < |run.states|
    ensures run.states[i].effects <= run.states[j].effects
    ensures r in run.states[i].ran ==> r in run.states[j].ran && run.states[j].ran[r] == run.states[i].ran[r]
  {
    if i < j {
      HubRemembers(run, i, j - 1, r);
      assert StepAt(run, j - 1);
      StepRemembers(run.states[j - 1], run.steps[j - 1], r);
    }
  }

  lemma StepKeepsResult(s: Sys, step: Step, r: Rid)
    requires r in s.ops && s.ops[r].result.Some?
    ensures r in StepTo(s, step).ops && StepTo(s, step).ops[r] == s.ops[r]
  {
  }

  /** A call's result once returned is its result for good: it sends no more, and nothing changes what it returned. */
  lemma {:induction false} ResultsStay(run: Run, i: nat, j: nat, r: Rid)
    requires IsRun(run) && i <= j < |run.states| && r in run.states[i].ops && run.states[i].ops[r].result.Some?
    ensures r in run.states[j].ops && run.states[j].ops[r] == run.states[i].ops[r]
  {
    if i < j {
      ResultsStay(run, i, j - 1, r);
      assert StepAt(run, j - 1);
      StepKeepsResult(run.states[j - 1], run.steps[j - 1], r);
    }
  }
}
