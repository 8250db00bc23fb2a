/**
 * The per-user lookup log as stored in Redis: `store_lookup` pushes a record at the
 * head of the user's list and trims it to the configured cap; `fetch_knowledge` reads
 * the whole list and filters it.
 */
module KnowledgeStore {
  import opened RedisList
  import opened Lookups

  /** A usable MAX_LOOKUP_HISTORY. A cap of 0 would turn LTRIM 0 -1 into "keep everything". */
  type Cap = n: int | n >= 1 witness 1

  class Store {
    /** The Redis key space: every list this process can see, keyed by its Redis key. */
    var lists: Db<Record>
    /** MAX_LOOKUP_HISTORY. */
    const maxHistory: Cap

    /** A store handle over whatever the database already holds. */
    constructor (maxHistory: Cap, initial: Db<Record>)
      ensures this.maxHistory == maxHistory && lists == initial
    {
      this.maxHistory := maxHistory;
      lists := initial;
    }

    /** The user's log, newest first; a user with no key has an empty log. */
    function Log(userId: string): seq<Record>
      reads this
    {
      ListAt(lists, Key(userId))
    }

    /** `store_lookup`: LPUSH the record, then LTRIM the list to indices 0..MAX-1. */
    method Append(userId: string, rec: Record)
      modifies this
      ensures Log(userId) == ([rec] + old(Log(userId)))[..Min(maxHistory, |old(Log(userId))| + 1)]
      ensures |Log(userId)| <= maxHistory && Log(userId)[0] == rec
      ensures Log(userId) == StoreAll(old(Log(userId)), [rec], maxHistory)
      ensures forall u :: u != userId ==> Log(u) == old(Log(u))
      ensures forall k :: k != Key(userId) ==> ListAt(lists, k) == ListAt(old(lists), k)
    {
      var key := Key(userId);
      lists := LPush(lists, key, rec);
      lists := LTrim(lists, key, 0, maxHistory - 1);
      RangeHead([rec] + old(Log(userId)), maxHistory);
      forall u | u != userId
        ensures Log(u) == old(Log(u))
      {
        KeyInjective(u, userId);
      }
    }

    /** `fetch_knowledge`: LRANGE 0 -1 of the user's key, then filter and slice. */
    method Fetch(userId: string, query: string, limit: int) returns (items: seq<Record>)
      ensures items == FetchKnowledge(Log(userId), query, limit)
    {
      var raw := LRange(lists, Key(userId), 0, -1);
      RangeWhole(ListAt(lists, Key(userId)));
      items := FetchKnowledge(raw, query, limit);
    }
  }

  /**
   * The log after `recs` are stored one by one, oldest first, each followed by its trim.
   * Once anything has been stored the log fits the cap and starts with the latest record.
   */
  function StoreAll(log: seq<Record>, recs: seq<Record>, cap: Cap): (r: seq<Record>)
    ensures recs != [] ==> 1 <= |r| <= cap && r[0] == recs[|recs| - 1]
    decreases |recs|
  {
    if recs == [] then log
    else StoreAll(Range([recs[0]] + log, 0, cap - 1), recs[1..], cap)
  }

  /** Storing one more record is one more LPUSH and LTRIM on the log built so far. */
  lemma {:induction false} StoreAllSnoc(log: seq<Record>, recs: seq<Record>, rec: Record, cap: Cap)
    ensures StoreAll(log, recs + [rec], cap) == Range([rec] + StoreAll(log, recs, cap), 0, cap - 1)
    decreases |recs|
  {
    if recs == [] {
      assert recs + [rec] == [rec];
    } else {
      assert (recs + [rec])[1..] == recs[1..] + [rec];
      StoreAllSnoc(Range([recs[0]] + log, 0, cap - 1), recs[1..], rec, cap);
    }
  }

  function Reversed<T>(s: seq<T>): (r: seq<T>)
    ensures |r| == |s|
  {
    if s == [] then [] else Reversed(s[1..]) + [s[0]]
  }

  lemma {:induction false} ReversedAt<T>(s: seq<T>, k: int)
    requires 0 <= k < |s|
    ensures Reversed(s)[k] == s[|s| - 1 - k]
  {
    if k < |s| - 1 {
      ReversedAt(s[1..], k);
    }
  }

  /**
   * After any run of appends the log holds the newest records, newest first, up to the
   * cap: the appended records in reverse arrival order, followed by what was there before.
   */
  lemma {:induction false} StoreAllKeepsNewest(log: seq<Record>, recs: seq<Record>, cap: Cap)
    requires |log| <= cap || recs != []
    ensures StoreAll(log, recs, cap) == (Reversed(recs) + log)[..Min(cap, |recs| + |log|)]
    decreases |recs|
  {
    if recs == [] {
      assert Reversed(recs) + log == log;
    } else {
      var b := [recs[0]] + log;
      RangeHead(b, cap);
      var m := Min(cap, |b|);
      var next := b[..m];
      var rest := recs[1..];
      StoreAllKeepsNewest(next, rest, cap);
      var a := Reversed(rest);
      assert Reversed(recs) == a + [recs[0]];
      assert Reversed(recs) + log == a + b;
      var n := Min(cap, |recs| + |log|);
      assert n == Min(cap, |rest| + m);
      assert (a + next)[..n] == (a + b)[..n] by {
        forall i | 0 <= i < n
          ensures (a + next)[i] == (a + b)[i]
        {
          if i >= |a| {
            assert (a + next)[i] == next[i - |a|];
          }
        }
      }
    }
  }

  /**
   * Appending at least `cap` records leaves exactly `cap`: the newest `cap` of them,
   * newest first; the older appended records and the whole earlier log are evicted.
   */
  lemma StoreAllEvictsOldest(log: seq<Record>, recs: seq<Record>, cap: Cap)
    requires |recs| >= cap
    ensures |StoreAll(log, recs, cap)| == cap
    ensures StoreAll(log, recs, cap) == Reversed(recs[|recs| - cap..])
  {
    StoreAllKeepsNewest(log, recs, cap);
    var r := StoreAll(log, recs, cap);
    var tail := recs[|recs| - cap..];
    forall i | 0 <= i < cap
      ensures r[i] == Reversed(tail)[i]
    {
      ReversedAt(recs, i);
      ReversedAt(tail, i);
      assert r[i] == Reversed(recs)[i];
    }
  }
}
