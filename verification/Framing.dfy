/**
 * Lines off a byte stream that arrives in chunks (extensions/board.ts, the
 * data handlers of HubClient and openHubLink): the buffer grows by a chunk and
 * every whole line is cut off its front. The lines read do not depend on where
 * the chunks were cut.
 */
module Framing {
  const NEWLINE := '\n'

  /** No newline in the line. */
  predicate Unbroken(s: string) {
    forall i :: 0 <= i < |s| ==> s[i] != NEWLINE
  }

  /** Where the first newline is, or the length when there is none. */
  function Cut(s: string): (k: nat)
    ensures k <= |s| && (k < |s| ==> s[k] == NEWLINE)
    ensures forall i :: 0 <= i < k ==> s[i] != NEWLINE
  {
    if s == [] || s[0] == NEWLINE then 0
    else 1 + Cut(s[1..])
  }

  /** The first line of a stream that has a whole one, and what comes after its newline. */
  function First(s: string): string {
    s[..Cut(s)]
  }

  function After(s: string): string
    requires Cut(s) < |s|
  {
    s[Cut(s) + 1..]
  }

  /** A stream's whole lines, and what is left after the last of them. */
  function Lines(s: string): seq<string>
    decreases |s|
  {
    if Cut(s) == |s| then [] else [First(s)] + Lines(After(s))
  }

  function Rest(s: string): string
    decreases |s|
  {
    if Cut(s) == |s| then s else Rest(After(s))
  }

  function Unlines(lines: seq<string>): string {
    if lines == [] then "" else lines[0] + [NEWLINE] + Unlines(lines[1..])
  }

  lemma UnlinesFirst(first: string, lines: seq<string>, rest: string)
    ensures Unlines([first] + lines) + rest == first + [NEWLINE] + (Unlines(lines) + rest)
  {
    assert ([first] + lines)[1..] == lines;
  }

  lemma CutInTwo(s: string, k: nat)
    requires k < |s|
    ensures s[..k] + [s[k]] + s[k + 1..] == s
  {
  }

  lemma FirstAndAfter(s: string)
    requires Cut(s) < |s|
    ensures First(s) + [NEWLINE] + After(s) == s
  {
    CutInTwo(s, Cut(s));
  }

  lemma FirstIsUnbroken(s: string)
    ensures Unbroken(First(s))
  {
  }

  /** Nothing is lost or made up: the lines, each with the newline that ended it, and the rest are the stream; no line holds one. */
  lemma {:induction false} LinesAreTheStream(s: string)
    ensures Unlines(Lines(s)) + Rest(s) == s
    ensures Unbroken(Rest(s)) && forall i :: 0 <= i < |Lines(s)| ==> Unbroken(Lines(s)[i])
    decreases |s|
  {
    if Cut(s) < |s| {
      LinesAreTheStream(After(s));
      UnlinesFirst(First(s), Lines(After(s)), Rest(After(s)));
      FirstAndAfter(s);
      FirstIsUnbroken(s);
    }
  }

  /** More of the stream changes neither its first line nor where the next begins. */
  lemma FirstStays(a: string, b: string)
    requires Cut(a) < |a|
    ensures Cut(a + b) < |a + b| && First(a + b) == First(a) && After(a + b) == After(a) + b
  {
    CutStays(a, b);
  }

  lemma CutStays(a: string, b: string)
    requires Cut(a) < |a|
    ensures Cut(a + b) == Cut(a)
  {
    var all := a + b;
    assert all[Cut(a)] == NEWLINE;
    assert forall i :: 0 <= i < Cut(a) ==> all[i] == a[i];
  }

  /** Reading on from what was left is reading the whole. */
  lemma {:induction false} ReadingOn(a: string, b: string)
    ensures Lines(a + b) == Lines(a) + Lines(Rest(a) + b)
    ensures Rest(a + b) == Rest(Rest(a) + b)
    decreases |a|
  {
    if Cut(a) < |a| {
      FirstStays(a, b);
      ReadingOn(After(a), b);
    }
  }

  function Joined(chunks: seq<string>): string {
    if chunks == [] then "" else Joined(chunks[..|chunks| - 1]) + chunks[|chunks| - 1]
  }

  lemma OneFurther(a: seq<string>, x: string, b: seq<string>)
    ensures a + ([x] + b) == a + [x] + b
  {
  }

  /** A chunk in: the lines it completes, and the buffer left, unless the buffer went past the limit. */
  method Feed(buffer: string, chunk: string, limit: nat) returns (lines: seq<string>, rest: string, tooLong: bool)
    ensures tooLong <==> |buffer| + |chunk| > limit
    ensures tooLong ==> lines == [] && rest == buffer + chunk
    ensures !tooLong ==> lines == Lines(buffer + chunk) && rest == Rest(buffer + chunk)
  {
    rest, lines := buffer + chunk, [];
    tooLong := |rest| > limit;
    if tooLong { return; }
    ghost var all := rest;
    while Cut(rest) < |rest|
      invariant Lines(all) == lines + Lines(rest) && Rest(all) == Rest(rest)
      decreases |rest|
    {
      OneFurther(lines, First(rest), Lines(After(rest)));
      lines := lines + [First(rest)];
      rest := After(rest);
    }
  }

  /** The chunks one after another: every line they complete, until the buffer is past the limit. */
  method FeedAll(chunks: seq<string>, limit: nat) returns (lines: seq<string>, rest: string, fed: nat)
    ensures fed <= |chunks|
    ensures lines == Lines(Joined(chunks[..fed]))
    ensures fed == |chunks| ==> lines == Lines(Joined(chunks)) && rest == Rest(Joined(chunks))
    ensures lines <= Lines(Joined(chunks))
    ensures fed < |chunks| <==> exists i :: 0 <= i < |chunks| && PastLimit(chunks, i, limit)
    ensures forall i :: 0 <= i < fed ==> !PastLimit(chunks, i, limit)
    ensures fed < |chunks| ==> PastLimit(chunks, fed, limit)
  {
    lines, rest, fed := [], "", 0;
    assert chunks[..0] == [];
    while fed < |chunks|
      invariant fed <= |chunks|
      invariant lines == Lines(Joined(chunks[..fed])) && rest == Rest(Joined(chunks[..fed]))
      invariant forall i :: 0 <= i < fed ==> !PastLimit(chunks, i, limit)
    {
      var more, left, tooLong := Feed(rest, chunks[fed], limit);
      if tooLong {
        assert PastLimit(chunks, fed, limit);
        ReadSoFar(chunks, fed);
        return;
      }
      assert chunks[..fed + 1][..fed] == chunks[..fed];
      ReadingOn(Joined(chunks[..fed]), chunks[fed]);
      lines, rest, fed := lines + more, left, fed + 1;
    }
    assert chunks[..fed] == chunks;
  }

  /** Chunk i overruns the buffer: the unfinished line before it and the chunk are past the limit together. */
  ghost predicate PastLimit(chunks: seq<string>, i: int, limit: nat)
    requires 0 <= i < |chunks|
  {
    |Rest(Joined(chunks[..i]))| + |chunks[i]| > limit
  }

  /** What is read before the end is the start of what is read in all. */
  lemma {:induction false} ReadSoFar(chunks: seq<string>, i: nat)
    requires i <= |chunks|
    ensures Lines(Joined(chunks[..i])) <= Lines(Joined(chunks))
    decreases |chunks|
  {
    if i == |chunks| {
      assert chunks[..i] == chunks;
    } else {
      var most := chunks[..|chunks| - 1];
      ReadSoFar(most, i);
      assert most[..i] == chunks[..i];
      ReadingOn(Joined(most), chunks[|chunks| - 1]);
    }
  }

  lemma {:induction false} RestIsPart(s: string)
    ensures |Rest(s)| <= |s|
    decreases |s|
  {
    if Cut(s) < |s| { RestIsPart(After(s)); }
  }

  lemma {:induction false} JoinedGrows(chunks: seq<string>, i: nat)
    requires i <= |chunks|
    ensures |Joined(chunks[..i])| <= |Joined(chunks)|
    decreases |chunks|
  {
    if i == |chunks| {
      assert chunks[..i] == chunks;
    } else {
      JoinedGrows(chunks[..|chunks| - 1], i);
      assert chunks[..|chunks| - 1][..i] == chunks[..i];
    }
  }

  /**
   * A stream no longer than the limit passes however it is cut: no chunk
   * overruns the buffer, so any two splits of it give the same lines.
   */
  lemma {:induction false} ShortNeverOverruns(chunks: seq<string>, limit: nat)
    requires |Joined(chunks)| <= limit
    ensures forall i :: 0 <= i < |chunks| ==> !PastLimit(chunks, i, limit)
  {
    forall i | 0 <= i < |chunks| ensures !PastLimit(chunks, i, limit) {
      RestIsPart(Joined(chunks[..i]));
      assert chunks[..i + 1][..i] == chunks[..i];
      JoinedGrows(chunks, i + 1);
    }
  }
}
