/**
 * The client's end of the hub link (extensions/board.ts, HubClient), as a
 * class: every call is in exactly one place, a link's close settles the calls
 * that wait on that link and no others, and where the stream is cut into chunks
 * makes no difference.
 */
module HubClient {
  import opened Wrappers
  import opened Framing

  type Id = nat
  type Link = nat

  const MAX_REPLY_BYTES := 256 * 1024 * 1024

  datatype Reply = Reply(ok: bool, text: string)

  /** How a call settled: on the hub's reply, or without one. */
  datatype Outcome =
    | Answered(reply: Reply)
    | LinkClosed
    | NotAnswered
    | Aborted
    | Unfetched
    | UploadRefused
    | TooLarge
    | Unreachable

  /** The failures whose words say the link closed: no answer in time closes it too. */
  predicate Lost(o: Outcome) {
    o.LinkClosed? || o.NotAnswered?
  }

  /** A line off a link, as it parses: a part's answer or no message at all, a call's answer, or one to fetch in parts. */
  datatype Line = Noise | Here(id: Id, reply: Reply) | Kept(id: Id)

  /** The client: its link, the links not destroyed and the ones whose close has been seen, and every call by where it stands. */
  datatype State = State(
    socket: Option<Link>, links: nat, live: set<Link>, closed: set<Link>, buffer: string, next: Id,
    uploading: map<Id, Link>, pending: map<Id, Link>, fetching: map<Id, Link>, settled: map<Id, Outcome>)

  function On(calls: map<Id, Link>, link: Link): set<Id> {
    set id | id in calls && calls[id] == link
  }

  function Settle(c: State, id: Id, o: Outcome): State {
    c.(settled := c.settled[id := o])
  }

  predicate Linked(c: State) {
    c.socket.Some? && c.socket.value in c.live
  }

  function Attached(c: State): State {
    c.(socket := Some(c.links), links := c.links + 1, live := c.live + {c.links}, buffer := "")
  }

  /** A call on the link: uploaded first when large, refused when its line would be too long, else written. */
  function Issued(c: State, large: bool, tooLong: bool): State
    requires c.socket.Some?
  {
    var id, link := c.next, c.socket.value;
    var d := c.(next := id + 1);
    if large then d.(uploading := d.uploading[id := link])
    else if tooLong then Settle(d, id, TooLarge)
    else if link in c.live then d.(pending := d.pending[id := link])
    else Settle(d, id, LinkClosed)
  }

  /** An upload through: the call is written if the link still stands. */
  function Uploaded(c: State, id: Id, refused: bool): State
    requires id in c.uploading
  {
    var link, d := c.uploading[id], c.(uploading := c.uploading - {id});
    if refused then Settle(d, id, UploadRefused)
    else if link in c.live then d.(pending := d.pending[id := link])
    else Settle(d, id, LinkClosed)
  }

  function OnLine(c: State, link: Link, line: Line): State {
    match line
    case Noise => c
    case Here(id, reply) =>
      if id in c.pending then Settle(c.(pending := c.pending - {id}), id, Answered(reply)) else c
    case Kept(id) =>
      if id in c.pending then c.(pending := c.pending - {id}, fetching := c.fetching[id := link]) else c
  }

  function OnLines(c: State, link: Link, lines: seq<string>, parse: string -> Line): State {
    if lines == [] then c else OnLine(OnLines(c, link, lines[..|lines| - 1], parse), link, parse(lines[|lines| - 1]))
  }

  /** A fetch through: the answer it carried, or nothing readable. */
  function Fetched(c: State, id: Id, reply: Option<Reply>): State
    requires id in c.fetching
  {
    Settle(c.(fetching := c.fetching - {id}), id, if reply.Some? then Answered(reply.value) else Unfetched)
  }

  function Destroyed(c: State, link: Link): State {
    c.(live := c.live - {link})
  }

  /** The calls whose answer, upload or fetch waits on a link. */
  function Waiting(c: State, link: Link): set<Id> {
    On(c.pending, link) + On(c.uploading, link) + On(c.fetching, link)
  }

  /** A link's close: only its own calls and parts are rejected. */
  function Closed(c: State, link: Link): State {
    c.(socket := if c.socket == Some(link) then None else c.socket, live := c.live - {link}, closed := c.closed + {link},
       uploading := c.uploading - On(c.uploading, link), pending := c.pending - On(c.pending, link),
       fetching := c.fetching - On(c.fetching, link),
       settled := c.settled + Rejections(Waiting(c, link)))
  }

  function Rejections(ids: set<Id>): map<Id, Outcome> {
    map id | id in ids :: LinkClosed
  }

  lemma RejectOne(calls: map<Id, Link>, settled: map<Id, Outcome>, gone: set<Id>, id: Id)
    ensures calls - gone - {id} == calls - (gone + {id})
    ensures (settled + Rejections(gone))[id := LinkClosed] == settled + Rejections(gone + {id})
  {
  }

  lemma RejectThree(settled: map<Id, Outcome>, a: set<Id>, b: set<Id>, c: set<Id>)
    ensures settled + Rejections(a) + Rejections(b) + Rejections(c) == settled + Rejections(a + b + c)
  {
  }

  /** No answer in time: the call fails and its link is closed, for the next call to open another. */
  function TimedOut(c: State, id: Id): State
    requires id in c.pending
  {
    Settle(Destroyed(c.(pending := c.pending - {id}), c.pending[id]), id, NotAnswered)
  }

  /** An abort ends a call that was written, whether or not its answer is being fetched; one still uploading does not hear it. */
  function AbortedCall(c: State, id: Id): State {
    if id in c.pending then Settle(c.(pending := c.pending - {id}), id, Aborted)
    else if id in c.fetching then Settle(c.(fetching := c.fetching - {id}), id, Aborted)
    else c
  }

  /** What every state keeps: one link at most stands, and each call issued is in one place, on a link whose close has not been seen. */
  ghost predicate Good(c: State) {
    && (forall l :: l in c.live ==> c.socket == Some(l))
    && (forall l :: l in c.live ==> l < c.links && l !in c.closed)
    && (forall l :: l in c.closed ==> l < c.links)
    && (c.socket.Some? ==> c.socket.value < c.links && c.socket.value !in c.closed)
    && PlacesOk(c)
    && OnOpenLinks(c, c.uploading) && OnOpenLinks(c, c.pending) && OnOpenLinks(c, c.fetching)
  }

  ghost predicate OnOpenLinks(c: State, calls: map<Id, Link>) {
    forall id :: id in calls ==> calls[id] < c.links && calls[id] !in c.closed
  }

  /** In how many places a call stands. */
  ghost function Places(c: State, id: Id): nat {
    (if id in c.uploading then 1 else 0) + (if id in c.pending then 1 else 0)
    + (if id in c.fetching then 1 else 0) + (if id in c.settled then 1 else 0)
  }

  ghost predicate PlacesOk(c: State) {
    forall id: Id :: Places(c, id) == if 1 <= id < c.next then 1 else 0
  }

  /** To follow a call by where it stood before. */
  lemma PlacesFollow(c: State, d: State)
    requires PlacesOk(c)
    requires forall id: Id :: Places(c, id) == (if 1 <= id < c.next then 1 else 0) ==> Places(d, id) == if 1 <= id < d.next then 1 else 0
    ensures PlacesOk(d)
  {
    forall id: Id ensures Places(d, id) == if 1 <= id < d.next then 1 else 0 {
      assert Places(c, id) == if 1 <= id < c.next then 1 else 0;
    }
  }

  lemma AttachedKeeps(c: State)
    requires Good(c) && !Linked(c)
    ensures Good(Attached(c)) && Linked(Attached(c))
  {
    PlacesFollow(c, Attached(c));
  }

  lemma BufferedKeeps(c: State, buffer: string, link: Link)
    requires Good(c)
    ensures Good(c.(buffer := buffer)) && Good(Destroyed(c.(buffer := buffer), link))
  {
    PlacesFollow(c, c.(buffer := buffer));
    PlacesFollow(c, Destroyed(c.(buffer := buffer), link));
  }

  lemma IssuedKeeps(c: State, large: bool, tooLong: bool)
    requires Good(c) && c.socket.Some? && c.next >= 1
    ensures Good(Issued(c, large, tooLong))
  {
    PlacesFollow(c, Issued(c, large, tooLong));
  }

  lemma UploadedKeeps(c: State, id: Id, refused: bool)
    requires Good(c) && id in c.uploading
    ensures Good(Uploaded(c, id, refused))
  {
    PlacesFollow(c, Uploaded(c, id, refused));
  }

  lemma OnLineKeeps(c: State, link: Link, line: Line)
    requires Good(c) && link in c.live
    ensures Good(OnLine(c, link, line)) && OnLine(c, link, line).live == c.live
  {
    PlacesFollow(c, OnLine(c, link, line));
  }

  lemma FetchedKeeps(c: State, id: Id, reply: Option<Reply>)
    requires Good(c) && id in c.fetching
    ensures Good(Fetched(c, id, reply))
  {
    PlacesFollow(c, Fetched(c, id, reply));
  }

  lemma ClosedKeeps(c: State, link: Link)
    requires Good(c) && link < c.links
    ensures Good(Closed(c, link))
  {
    PlacesFollow(c, Closed(c, link));
  }

  lemma TimedOutKeeps(c: State, id: Id)
    requires Good(c) && id in c.pending
    ensures Good(TimedOut(c, id)) && Good(Destroyed(c, c.pending[id]))
  {
    PlacesFollow(c, Destroyed(c, c.pending[id]));
    PlacesFollow(c, TimedOut(c, id));
  }

  lemma AbortedKeeps(c: State, id: Id)
    requires Good(c)
    ensures Good(AbortedCall(c, id))
  {
    PlacesFollow(c, AbortedCall(c, id));
  }

  // --- where a call goes ---

  /** Where a call stands: not issued, being uploaded, written, its answer being fetched, or settled. */
  datatype Place = Nowhere | Uploads(link: Link) | Waits(link: Link) | Fetches(link: Link) | Done(outcome: Outcome)

  function PlaceOf(c: State, id: Id): Place {
    if id in c.uploading then Uploads(c.uploading[id])
    else if id in c.pending then Waits(c.pending[id])
    else if id in c.fetching then Fetches(c.fetching[id])
    else if id in c.settled then Done(c.settled[id])
    else Nowhere
  }

  ghost predicate OnlyMoves(c: State, d: State, id: Id) {
    forall other: Id :: other != id ==> PlaceOf(d, other) == PlaceOf(c, other)
  }

  lemma OnePlace(c: State, id: Id)
    requires Good(c)
    ensures Places(c, id) <= 1
  {
    assert Places(c, id) == if 1 <= id < c.next then 1 else 0;
  }

  /** An answer settles the written call it names on that very answer, or has it fetched; a line that names no written call moves nothing. */
  lemma LineMoves(c: State, link: Link, line: Line, id: Id)
    requires Good(c) && (line.Noise? || line.id == id)
    ensures var d := OnLine(c, link, line);
            && OnlyMoves(c, d, id)
            && PlaceOf(d, id) == (if !PlaceOf(c, id).Waits? then PlaceOf(c, id)
                                  else match line
                                    case Noise => PlaceOf(c, id)
                                    case Here(_, reply) => Done(Answered(reply))
                                    case Kept(_) => Fetches(link))
  {
    OnePlace(c, id);
  }

  /** A call begun: uploaded when large, refused when its line is too long, written on a link that stands, and failed on one that does not. */
  lemma IssueMoves(c: State, large: bool, tooLong: bool)
    requires Good(c) && c.socket.Some? && c.next >= 1
    ensures var d, id := Issued(c, large, tooLong), c.next;
            && OnlyMoves(c, d, id)
            && PlaceOf(d, id) == (if large then Uploads(c.socket.value)
                                  else if tooLong then Done(TooLarge)
                                  else if c.socket.value in c.live then Waits(c.socket.value) else Done(LinkClosed))
  {
    assert Places(c, c.next) == 0;
  }

  /** An upload that is through has its call written while its link stands; a fetch that is through settles its call on what it carried. */
  lemma TransferMoves(c: State, id: Id, refused: bool, reply: Option<Reply>)
    requires Good(c)
    ensures PlaceOf(c, id).Uploads? ==>
              var d, link := Uploaded(c, id, refused), PlaceOf(c, id).link;
              && OnlyMoves(c, d, id)
              && PlaceOf(d, id) == (if refused then Done(UploadRefused) else if link in c.live then Waits(link) else Done(LinkClosed))
    ensures PlaceOf(c, id).Fetches? ==>
              var d := Fetched(c, id, reply);
              && OnlyMoves(c, d, id) && PlaceOf(d, id) == Done(if reply.Some? then Answered(reply.value) else Unfetched)
  {
    OnePlace(c, id);
  }

  /** A call not answered in time fails as such; an abort ends a call written or being fetched, and no other. */
  lemma GivingUpMoves(c: State, id: Id)
    requires Good(c)
    ensures PlaceOf(c, id).Waits? ==> OnlyMoves(c, TimedOut(c, id), id) && PlaceOf(TimedOut(c, id), id) == Done(NotAnswered)
    ensures OnlyMoves(c, AbortedCall(c, id), id)
    ensures PlaceOf(AbortedCall(c, id), id) == if PlaceOf(c, id).Waits? || PlaceOf(c, id).Fetches? then Done(Aborted) else PlaceOf(c, id)
  {
    OnePlace(c, id);
  }

  /** A closing link settles exactly the calls waiting on it, as link closed, and touches none of those on its replacement. */
  lemma CloseRejectsItsOwn(c: State, link: Link)
    requires Good(c)
    ensures var d := Closed(c, link);
            && d.settled.Keys - c.settled.Keys == Waiting(c, link)
            && (forall id :: id in Waiting(c, link) ==> d.settled[id] == LinkClosed)
            && (forall id :: id in c.settled ==> d.settled[id] == c.settled[id])
            && (forall id :: id in c.pending && c.pending[id] != link ==> id in d.pending && d.pending[id] == c.pending[id])
            && Waiting(d, link) == {}
            && (c.socket != Some(link) ==> d.socket == c.socket)
  {
    forall id | id in Waiting(c, link) ensures id !in c.settled {
      assert Places(c, id) == if 1 <= id < c.next then 1 else 0;
    }
  }

  /** Once every link opened has closed, every call issued has settled. */
  lemma AllClosedAllSettled(c: State)
    requires Good(c) && forall l :: 0 <= l < c.links ==> l in c.closed
    ensures forall id :: 1 <= id < c.next ==> id in c.settled
  {
    forall id: Id | 1 <= id < c.next ensures id in c.settled {
      assert Places(c, id) == if 1 <= id < c.next then 1 else 0;
    }
  }

  lemma {:induction false} OnLinesAppend(c: State, link: Link, a: seq<string>, b: seq<string>, parse: string -> Line)
    ensures OnLines(c, link, a + b, parse) == OnLines(OnLines(c, link, a, parse), link, b, parse)
    decreases |b|
  {
    if b == [] {
      assert a + b == a;
    } else {
      var most := b[..|b| - 1];
      OnLinesAppend(c, link, a, most, parse);
      assert (a + b)[..|a + b| - 1] == a + most;
    }
  }

  /** A chunk's effect: its whole lines one by one, or the link destroyed past the limit. */
  function Fed(c: State, link: Link, chunk: string, parse: string -> Line): State {
    var all := c.buffer + chunk;
    if |all| > MAX_REPLY_BYTES then Destroyed(c.(buffer := all), link)
    else OnLines(c.(buffer := Rest(all)), link, Lines(all), parse)
  }

  lemma {:induction false} LinesLeaveBuffer(c: State, link: Link, lines: seq<string>, parse: string -> Line, buffer: string)
    ensures OnLines(c.(buffer := buffer), link, lines, parse) == OnLines(c, link, lines, parse).(buffer := buffer)
    ensures OnLines(c, link, lines, parse).buffer == c.buffer
  {
    if lines != [] {
      LinesLeaveBuffer(c, link, lines[..|lines| - 1], parse, buffer);
    }
  }

  /** Wherever a stream within the limit is cut in two, the client ends the same: the same calls settled, on the same answers. */
  lemma ChunksAgree(c: State, link: Link, a: string, b: string, parse: string -> Line)
    requires |c.buffer| + |a| + |b| <= MAX_REPLY_BYTES
    ensures Fed(Fed(c, link, a, parse), link, b, parse) == Fed(c, link, a + b, parse)
  {
    var all := c.buffer + a;
    assert c.buffer + (a + b) == all + b;
    ReadingOn(all, b);
    RestIsPart(all);
    var d := OnLines(c.(buffer := Rest(all)), link, Lines(all), parse);
    LinesLeaveBuffer(c, link, Lines(all), parse, Rest(all));
    LinesLeaveBuffer(c, link, Lines(all), parse, Rest(all + b));
    assert d.buffer == Rest(all);
    assert d.(buffer := Rest(all + b)) == OnLines(c.(buffer := Rest(all + b)), link, Lines(all), parse);
    OnLinesAppend(c.(buffer := Rest(all + b)), link, Lines(all), Lines(Rest(all) + b), parse);
  }

  /** The client as its methods change it: the fields the source keeps, and a call's settling as its promise's. */
  class Client {
    var socket: Option<Link>
    var links: nat
    var live: set<Link>
    var closed: set<Link>
    var buffer: string
    var next: Id
    var uploading: map<Id, Link>
    var pending: map<Id, Link>
    var fetching: map<Id, Link>
    var settled: map<Id, Outcome>
    const parse: string -> Line

    ghost function View(): State
      reads this
    {
      State(socket, links, live, closed, buffer, next, uploading, pending, fetching, settled)
    }

    ghost predicate Valid()
      reads this
    {
      Good(View()) && next >= 1
    }

    constructor (parse: string -> Line)
      ensures Valid() && View() == State(None, 0, {}, {}, "", 1, map[], map[], map[], map[])
      ensures this.parse == parse
    {
      this.parse := parse;
      socket, links, live, closed, buffer, next := None, 0, {}, {}, "", 1;
      uploading, pending, fetching, settled := map[], map[], map[], map[];
    }

    /** The held link when it stands, else another opened in its place. */
    method Open() returns (link: Link)
      requires Valid()
      modifies this
      ensures Valid() && Linked(View()) && socket == Some(link)
      ensures View() == if old(Linked(View())) then old(View()) else Attached(old(View()))
    {
      if socket.Some? && socket.value in live { return socket.value; }
      AttachedKeeps(View());
      socket, links, live, buffer := Some(links), links + 1, live + {links}, "";
      return socket.value;
    }

    method CallOnce(large: bool, tooLong: bool) returns (id: Id)
      requires Valid() && socket.Some?
      modifies this
      ensures Valid() && id == old(next) && View() == Issued(old(View()), large, tooLong)
    {
      IssuedKeeps(View(), large, tooLong);
      id, next := next, next + 1;
      if large {
        uploading := uploading[id := socket.value];
      } else if tooLong {
        settled := settled[id := TooLarge];
      } else if socket.value in live {
        pending := pending[id := socket.value];
      } else {
        settled := settled[id := LinkClosed];
      }
    }

    /** A chunk off a link that stands: every line it completes, answer by answer, or the link destroyed past the limit. */
    method OnData(link: Link, chunk: string)
      requires Valid() && link in live
      modifies this
      ensures Valid()
      ensures View() == Fed(old(View()), link, chunk, parse)
    {
      var lines, rest, tooLong := Feed(buffer, chunk, MAX_REPLY_BYTES);
      BufferedKeeps(View(), rest, link);
      buffer := rest;
      if tooLong {
        live := live - {link};
        return;
      }
      TakeLines(link, lines);
    }

    method TakeLines(link: Link, lines: seq<string>)
      requires Valid() && link in live
      modifies this`pending, this`fetching, this`settled
      ensures Valid()
      ensures View() == OnLines(old(View()), link, lines, parse)
    {
      ghost var was := View();
      var i := 0;
      while i < |lines|
        invariant 0 <= i <= |lines| && Valid() && link in live
        invariant View() == OnLines(was, link, lines[..i], parse)
      {
        OnLineKeeps(View(), link, parse(lines[i]));
        assert lines[..i + 1][..i] == lines[..i];
        Take(link, parse(lines[i]));
        i := i + 1;
      }
      assert lines[..i] == lines;
    }

    /** One line: its call's promise resolved or rejected on it, or its fetch begun; a line that names no waiting call says nothing. */
    method Take(link: Link, line: Line)
      requires Valid() && link in live
      modifies this`pending, this`fetching, this`settled
      ensures Valid() && View() == OnLine(old(View()), link, line)
    {
      OnLineKeeps(View(), link, line);
      if line.Noise? || line.id !in pending { return; }
      pending := pending - {line.id};
      if line.Kept? {
        fetching := fetching[line.id := link];
      } else {
        settled := settled[line.id := Answered(line.reply)];
      }
    }

    /** The close seen: this link's calls rejected one by one, its uploads and fetches with them. */
    method OnClose(link: Link)
      requires Valid() && link < links
      modifies this
      ensures Valid() && View() == Closed(old(View()), link)
    {
      ClosedKeeps(View(), link);
      var held, done := RejectOn(pending, settled, link);
      var sending, done' := RejectOn(uploading, done, link);
      var arriving, done'' := RejectOn(fetching, done', link);
      RejectThree(settled, On(pending, link), On(uploading, link), On(fetching, link));
      assert done'' == Closed(View(), link).settled;
      if socket == Some(link) { socket := None; }
      live, closed := live - {link}, closed + {link};
      pending, uploading, fetching, settled := held, sending, arriving, done'';
    }

    /** Each of the calls on a link taken out and rejected as link closed, whatever order they are met in. */
    static method RejectOn(calls: map<Id, Link>, settled: map<Id, Outcome>, link: Link)
      returns (kept: map<Id, Link>, done: map<Id, Outcome>)
      ensures kept == calls - On(calls, link) && done == settled + Rejections(On(calls, link))
    {
      kept, done := calls, settled;
      var left := calls.Keys;
      ghost var gone: set<Id> := {};
      while left != {}
        invariant left <= calls.Keys
        invariant forall id :: id in gone <==> id in calls && calls[id] == link && id !in left
        invariant kept == calls - gone && done == settled + Rejections(gone)
        decreases |left|
      {
        var id :| id in left;
        left := left - {id};
        if calls[id] == link {
          RejectOne(calls, settled, gone, id);
          kept, done, gone := kept - {id}, done[id := LinkClosed], gone + {id};
        }
      }
      assert gone == On(calls, link);
    }

    method OnUploaded(id: Id, refused: bool)
      requires Valid() && id in uploading
      modifies this`uploading, this`pending, this`settled
      ensures Valid() && View() == Uploaded(old(View()), id, refused)
    {
      UploadedKeeps(View(), id, refused);
      var link := uploading[id];
      uploading := uploading - {id};
      if refused {
        settled := settled[id := UploadRefused];
      } else if link in live {
        pending := pending[id := link];
      } else {
        settled := settled[id := LinkClosed];
      }
    }

    method OnFetched(id: Id, reply: Option<Reply>)
      requires Valid() && id in fetching
      modifies this`fetching, this`settled
      ensures Valid() && View() == Fetched(old(View()), id, reply)
    {
      FetchedKeeps(View(), id, reply);
      fetching := fetching - {id};
      settled := settled[id := if reply.Some? then Answered(reply.value) else Unfetched];
    }

    method OnTimeout(id: Id)
      requires Valid() && id in pending
      modifies this
      ensures Valid() && View() == TimedOut(old(View()), id)
    {
      TimedOutKeeps(View(), id);
      live, pending, settled := live - {pending[id]}, pending - {id}, settled[id := NotAnswered];
    }

    method OnAbort(id: Id)
      requires Valid()
      modifies this`pending, this`fetching, this`settled
      ensures Valid() && View() == AbortedCall(old(View()), id)
    {
      AbortedKeeps(View(), id);
      if id in pending {
        pending, settled := pending - {id}, settled[id := Aborted];
      } else if id in fetching {
        fetching, settled := fetching - {id}, settled[id := Aborted];
      }
    }
  }
}
