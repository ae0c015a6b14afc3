/**
 * The readiness cache (extensions/finish.ts, readiness): each entry equals
 * what a fresh computation at its revision would give, although a reader's
 * steps interleave with changes of the state and with other readers' entries.
 */
module ReadinessCache {
  import opened Wrappers

  const READINESS_ATTEMPTS := 3
  const CACHE_LIMIT := 256

  /** A reader's call: its attempt, the revision it read first (none: not yet), and the registers read since. */
  datatype Reading<C> = Reading(attempt: nat, before: Option<nat>, read: seq<C>)

  /** What a reader has now: an answer and whether the state held still for it, or nothing yet. */
  datatype Answer<V> = Pending | Settled(value: V) | Unsettled(value: V)

  /** The keys after one is set: it keeps its place if it was there, else comes last, and the oldest goes past the limit. */
  function KeysAfter(keys: seq<nat>, rev: nat): seq<nat> {
    if rev in keys then keys
    else if |keys| < CACHE_LIMIT then keys + [rev]
    else keys[1..] + [rev]
  }

  class Cache<C(!new), V(!new, ==)> {
    /** What each register holds at a revision: the revision covers everything readiness reads. */
    const world: nat -> seq<C>
    const registers: nat
    const compute: (seq<C>, nat) -> V

    var revision: nat
    var entries: map<nat, V>
    var keys: seq<nat>
    var readings: map<nat, Reading<C>>

    /** The value recomputed from the state as it stood at a revision. */
    ghost function Fresh(rev: nat): V {
      compute(world(rev), rev)
    }

    ghost predicate EntriesOk()
      reads this`entries, this`keys
    {
      && Distinct(keys) && |keys| <= CACHE_LIMIT
      && (forall r :: r in entries <==> r in keys)
      && forall r :: r in entries ==> entries[r] == Fresh(r)
    }

    /** While the state has not moved since the first reading, what was read is that revision's own. */
    ghost predicate ReadingOk(r: Reading<C>)
      reads this`revision
    {
      && 1 <= r.attempt <= READINESS_ATTEMPTS && |r.read| <= registers
      && (r.before.Some? ==> r.before.value <= revision)
      && (r.before == Some(revision) ==> r.read <= world(revision))
    }

    ghost predicate Valid()
      reads this
    {
      && (forall rev :: |world(rev)| == registers)
      && EntriesOk()
      && forall me :: me in readings ==> ReadingOk(readings[me])
    }

    constructor (world: nat -> seq<C>, registers: nat, compute: (seq<C>, nat) -> V)
      requires forall rev :: |world(rev)| == registers
      ensures Valid() && revision == 0 && entries == map[] && readings == map[]
      ensures this.world == world && this.compute == compute
    {
      this.world, this.registers, this.compute := world, registers, compute;
      revision, entries, keys, readings := 0, map[], [], map[];
    }

    /** The state moves: its revision is one it never had. */
    method Move(on: nat)
      requires Valid() && on > 0
      modifies this`revision
      ensures Valid() && revision == old(revision) + on
    {
      revision := revision + on;
      forall me | me in readings ensures ReadingOk(readings[me]) {
        assert old(ReadingOk(readings[me]));
      }
    }

    method Begin(me: nat)
      requires Valid() && me !in readings
      modifies this`readings
      ensures Valid() && readings == old(readings)[me := Reading(1, None, [])]
    {
      readings := readings[me := Reading(1, None, [])];
    }

    /** An attempt's first reading: the revision's entry when it has one. */
    method Look(me: nat) returns (answer: Answer<V>)
      requires Valid() && me in readings && readings[me].before.None?
      modifies this`readings
      ensures Valid()
      ensures old(revision in entries) ==> answer == Settled(Fresh(revision)) && readings == old(readings) - {me}
      ensures old(revision !in entries) ==>
                answer.Pending? && readings == old(readings)[me := Reading(old(readings)[me].attempt, Some(revision), [])]
    {
      if revision in entries {
        readings := readings - {me};
        return Settled(entries[revision]);
      }
      readings := readings[me := Reading(readings[me].attempt, Some(revision), [])];
      return Pending;
    }

    /** The next register, as the state has it at this instant. */
    method ReadNext(me: nat)
      requires Valid() && me in readings && readings[me].before.Some? && |readings[me].read| < registers
      modifies this`readings
      ensures Valid()
      ensures var r := old(readings)[me];
              readings == old(readings)[me := Reading(r.attempt, r.before, r.read + [world(revision)[|r.read|]])]
    {
      var r := readings[me];
      readings := readings[me := Reading(r.attempt, r.before, r.read + [world(revision)[|r.read|]])];
      assert r.before == Some(revision) ==> readings[me].read <= world(revision);
    }

    /**
     * An attempt's end: cached and answered when the revision is still the one
     * first read, tried again while attempts are left, else answered as it
     * came and never cached.
     */
    method Finish(me: nat) returns (answer: Answer<V>)
      requires Valid() && me in readings && readings[me].before.Some? && |readings[me].read| == registers
      modifies this`readings, this`entries, this`keys
      ensures Valid()
      ensures var r := old(readings)[me];
              && (r.before == Some(revision) ==>
                    && answer == Settled(Fresh(revision)) && readings == old(readings) - {me}
                    && revision in entries && keys == KeysAfter(old(keys), revision))
              && (r.before != Some(revision) ==>
                    && entries == old(entries) && keys == old(keys)
                    && (r.attempt < READINESS_ATTEMPTS ==>
                          answer.Pending? && readings == old(readings)[me := Reading(r.attempt + 1, None, [])])
                    && (r.attempt == READINESS_ATTEMPTS ==>
                          answer == Unsettled(compute(r.read, r.before.value)) && readings == old(readings) - {me}))
    {
      var r := readings[me];
      var out := compute(r.read, r.before.value);
      if revision != r.before.value {
        if r.attempt < READINESS_ATTEMPTS {
          readings := readings[me := Reading(r.attempt + 1, None, [])];
          return Pending;
        }
        readings := readings - {me};
        return Unsettled(out);
      }
      assert r.read == world(revision);
      Put(revision, out);
      readings := readings - {me};
      return Settled(out);
    }

    /** The entry set, and the oldest dropped when there are more than the limit: every entry kept is still its revision's own. */
    method Put(rev: nat, value: V)
      requires EntriesOk() && value == Fresh(rev)
      modifies this`entries, this`keys
      ensures EntriesOk() && rev in entries && keys == KeysAfter(old(keys), rev)
      ensures forall r :: r in entries ==> r == rev || r in old(entries)
    {
      KeysStayDistinct(keys, rev);
      entries := entries[rev := value];
      if rev !in keys { keys := keys + [rev]; }
      DomainSize(entries.Keys, keys);
      if |entries.Keys| > CACHE_LIMIT {
        entries, keys := entries - {keys[0]}, keys[1..];
      }
    }
  }

  lemma KeysStayDistinct(keys: seq<nat>, rev: nat)
    requires Distinct(keys) && |keys| <= CACHE_LIMIT
    ensures rev !in keys ==> Distinct(keys + [rev])
    ensures Distinct(KeysAfter(keys, rev)) && |KeysAfter(keys, rev)| <= CACHE_LIMIT && rev in KeysAfter(keys, rev)
    ensures rev !in keys && |keys| == CACHE_LIMIT ==> KeysAfter(keys, rev) == (keys + [rev])[1..] && keys[0] !in KeysAfter(keys, rev)
  {
  }

  /** A map's size is its keys' count when no key is listed twice. */
  lemma {:induction false} DomainSize(domain: set<nat>, keys: seq<nat>)
    requires Distinct(keys) && forall r :: r in domain <==> r in keys
    ensures |domain| == |keys|
  {
    if keys == [] {
      assert domain == {};
    } else {
      var last := keys[|keys| - 1];
      DomainSize(domain - {last}, keys[..|keys| - 1]);
    }
  }
}
