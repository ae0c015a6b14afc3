/**
 * The order of prompts on the hub link (extensions/board.ts, openHubLink):
 * between events, what has been delivered is a prefix of what arrived and did
 * not fail. The chain of tasks and the immediate path are both modelled, with
 * the exact condition under which the latter could overtake.
 */
module PromptLink {
  /** A line off the link: a prompt's words, words kept by the hub, or another message. */
  datatype Msg = Words | InParts | Other

  /** The prompts 0..n in order, without the ones whose fetch failed. */
  ghost function Surviving(n: nat, failed: set<nat>): seq<nat> {
    if n == 0 then [] else Surviving(n - 1, failed) + (if n - 1 in failed then [] else [n - 1])
  }

  function Fetches(kinds: seq<Msg>, chain: seq<nat>): nat
    requires forall i :: 0 <= i < |chain| ==> chain[i] < |kinds|
  {
    if chain == [] then 0
    else Fetches(kinds, chain[..|chain| - 1]) + (if kinds[chain[|chain| - 1]].InParts? then 1 else 0)
  }

  lemma {:induction false} SurvivingIsSorted(n: nat, failed: set<nat>)
    ensures forall i :: 0 <= i < |Surviving(n, failed)| ==> Surviving(n, failed)[i] < n && Surviving(n, failed)[i] !in failed
    ensures forall i, j :: 0 <= i < j < |Surviving(n, failed)| ==> Surviving(n, failed)[i] < Surviving(n, failed)[j]
    ensures forall k :: 0 <= k < n && k !in failed ==> k in Surviving(n, failed)
  {
    if n > 0 { SurvivingIsSorted(n - 1, failed); }
  }

  lemma LastOf<T>(s: seq<T>, x: T, a: seq<T>, b: seq<T>)
    requires s + [x] == a + b && b != []
    ensures s == a + b[..|b| - 1] && x == b[|b| - 1]
  {
    assert x == (s + [x])[|s|] == (a + b)[|s|];
    assert s == (s + [x])[..|s|] == (a + b)[..|s|] == a + b[..|b| - 1];
  }

  /** One more fetch failed takes exactly that prompt out. */
  lemma {:induction false} FailedIsDropped(n: nat, failed: set<nat>, done: seq<nat>, k: nat, rest: seq<nat>)
    requires Surviving(n, failed) == done + ([k] + rest)
    ensures Surviving(n, failed + {k}) == done + rest
    decreases n, 1
  {
    if n == 0 {
    } else if n - 1 in failed {
      FailedIsDropped(n - 1, failed, done, k, rest);
    } else if rest == [] {
      assert [k] + rest == [k];
      LastOf(Surviving(n - 1, failed), n - 1, done, [k]);
      assert done + [k][..0] == done && done + rest == done;
      NothingToDrop(n - 1, failed, k);
    } else {
      DropEarlier(n, failed, done, k, rest);
    }
  }

  lemma {:induction false} DropEarlier(n: nat, failed: set<nat>, done: seq<nat>, k: nat, rest: seq<nat>)
    requires n > 0 && n - 1 !in failed && rest != []
    requires Surviving(n, failed) == done + ([k] + rest)
    ensures Surviving(n, failed + {k}) == done + rest
    decreases n, 0
  {
    var before := rest[..|rest| - 1];
    LastOf(Surviving(n - 1, failed), n - 1, done, [k] + rest);
    assert ([k] + rest)[..|rest|] == [k] + before;
    FailedIsDropped(n - 1, failed, done, k, before);
    SurvivingIsSorted(n - 1, failed);
    assert Surviving(n - 1, failed)[|done|] == k;
    assert done + rest == done + before + [rest[|rest| - 1]];
  }

  lemma {:induction false} NothingToDrop(n: nat, failed: set<nat>, k: nat)
    requires k >= n
    ensures Surviving(n, failed + {k}) == Surviving(n, failed)
  {
    if n > 0 { NothingToDrop(n - 1, failed, k); }
  }

  lemma {:induction false} FetchesExtend(kinds: seq<Msg>, more: seq<Msg>, chain: seq<nat>)
    requires forall i :: 0 <= i < |chain| ==> chain[i] < |kinds|
    ensures Fetches(kinds + more, chain) == Fetches(kinds, chain)
  {
    if chain != [] { FetchesExtend(kinds, more, chain[..|chain| - 1]); }
  }

  lemma {:induction false} FetchesTail(kinds: seq<Msg>, chain: seq<nat>)
    requires chain != [] && forall i :: 0 <= i < |chain| ==> chain[i] < |kinds|
    ensures Fetches(kinds, chain) == (if kinds[chain[0]].InParts? then 1 else 0) + Fetches(kinds, chain[1..])
  {
    if |chain| > 1 {
      FetchesTail(kinds, chain[..|chain| - 1]);
      assert chain[..|chain| - 1][1..] == chain[1..][..|chain| - 2];
    } else {
      assert chain[1..] == [] && chain[..0] == [];
    }
  }

  class Link {
    /** How many prompts are being fetched or wait to be; the tasks chained, by their prompt; whether the first has begun. */
    var fetching: nat
    var chain: seq<nat>
    var begun: bool
    var delivered: seq<nat>
    /** Every prompt that came, in order, and the ones whose fetch failed. */
    var kinds: seq<Msg>
    ghost var failed: set<nat>

    /** The prompts handed on and the ones in the chain are all that came and did not fail, in the order they came. */
    ghost predicate InOrder()
      reads this
    {
      delivered + chain == Surviving(|kinds|, failed)
    }

    ghost predicate Valid()
      reads this
    {
      && InOrder()
      && (forall i :: 0 <= i < |chain| ==> chain[i] < |kinds|)
      && (forall k :: k in failed ==> k < |kinds|)
      && fetching == Fetches(kinds, chain)
      && (begun ==> chain != [] && kinds[chain[0]].InParts?)
    }

    /** No task is due: the tasks that can run have run, as they do before the next event is taken up. */
    predicate Quiet()
      reads this
    {
      chain == [] || begun
    }

    constructor ()
      ensures Valid() && Quiet() && delivered == [] && kinds == []
    {
      fetching, chain, begun, delivered, kinds, failed := 0, [], false, [], [], {};
    }

    /**
     * One line off the link: a prompt is handed on at once when nothing is
     * being fetched, else chained. The order is kept exactly when a prompt
     * handed on at once has none chained before it.
     */
    method OnLine(msg: Msg)
      requires Valid()
      modifies this
      ensures failed == old(failed) && begun == old(begun)
      ensures kinds == if msg.Other? then old(kinds) else old(kinds) + [msg]
      ensures Valid() <==> !(msg.Words? && old(fetching) == 0 && old(chain) != [])
      ensures fetching == old(fetching) + (if msg.InParts? then 1 else 0)
      ensures delivered == if msg.Words? && old(fetching) == 0 then old(delivered) + [old(|kinds|)] else old(delivered)
      ensures chain == if msg.InParts? || (msg.Words? && old(fetching) > 0) then old(chain) + [old(|kinds|)] else old(chain)
    {
      if msg.Other? { return; }
      var k := |kinds|;
      FetchesExtend(kinds, [msg], chain);
      kinds := kinds + [msg];
      if msg.InParts? {
        fetching := fetching + 1;
        chain := chain + [k];
        assert chain[..|chain| - 1] == old(chain);
        assert delivered + chain == delivered + old(chain) + [k];
      } else if fetching == 0 {
        assert chain == [] ==> delivered + chain == delivered;
        delivered := delivered + [k];
        assert chain == [] ==> delivered + chain == delivered;
        if chain != [] {
          assert (delivered + chain)[|delivered| - 1] == k;
          assert Surviving(k, failed)[|delivered| - 1] == chain[0];
        }
      } else {
        chain := chain + [k];
        assert chain[..|chain| - 1] == old(chain);
        assert delivered + chain == delivered + old(chain) + [k];
      }
    }

    /** The next task in the chain: its prompt is handed on, or its fetch begins. */
    method RunTask()
      requires Valid() && !Quiet()
      modifies this`delivered, this`chain, this`begun
      ensures Valid()
      ensures kinds[old(chain)[0]].InParts? ==> begun && chain == old(chain) && delivered == old(delivered)
      ensures !kinds[old(chain)[0]].InParts? ==>
                !begun && chain == old(chain)[1..] && delivered == old(delivered) + [old(chain)[0]]
    {
      FetchesTail(kinds, chain);
      if kinds[chain[0]].InParts? {
        begun := true;
      } else {
        assert delivered + chain == delivered + [chain[0]] + chain[1..];
        delivered, chain := delivered + [chain[0]], chain[1..];
      }
    }

    /** A fetch ends: its prompt is handed on, or dropped with the link. */
    method Fetched(whole: bool)
      requires Valid() && begun
      modifies this
      ensures Valid() && !begun && chain == old(chain)[1..] && kinds == old(kinds) && fetching == old(fetching) - 1
      ensures delivered == if whole then old(delivered) + [old(chain)[0]] else old(delivered)
      ensures failed == if whole then old(failed) else old(failed) + {old(chain)[0]}
    {
      FetchesTail(kinds, chain);
      assert delivered + chain == delivered + ([chain[0]] + chain[1..]);
      if whole {
        delivered := delivered + [chain[0]];
      } else {
        FailedIsDropped(|kinds|, failed, delivered, chain[0], chain[1..]);
        failed := failed + {chain[0]};
      }
      fetching, begun, chain := fetching - 1, false, chain[1..];
    }

    /** The tasks that are due, one after the other, to the first fetch or the end of the chain. */
    method RunDue()
      requires Valid()
      modifies this`delivered, this`chain, this`begun
      ensures Valid() && Quiet()
    {
      while !Quiet()
        invariant Valid()
        decreases |chain|, !begun
      {
        RunTask();
      }
    }

    /** A data event's lines, then the tasks due: between events, what was handed on is a prefix, in order, of all that did not fail. */
    method OnData(lines: seq<Msg>)
      requires Valid() && Quiet()
      modifies this
      ensures Valid() && Quiet() && failed == old(failed)
      ensures delivered <= Surviving(|kinds|, failed)
      ensures fetching == 0 ==> delivered == Surviving(|kinds|, failed)
    {
      if chain != [] { FetchesTail(kinds, chain); }
      for i := 0 to |lines|
        invariant Valid() && failed == old(failed)
        invariant fetching > 0 || chain == []
      {
        OnLine(lines[i]);
      }
      RunDue();
      if fetching == 0 && chain != [] {
        FetchesTail(kinds, chain);
      }
    }
  }
}
