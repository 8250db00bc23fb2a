/**
 * Lookup records and the read side of the per-user lookup log: the key a user's
 * log lives under and `fetch_knowledge` as a function of a snapshot of that log.
 */
module Lookups {
  import opened Wrappers
  import opened Text
  import opened RedisList

  /**
   * One logged lookup, as decoded from its JSON text. `query` is None when the
   * stored object has no "query" key; the records this service writes always have one.
   */
  datatype Record = Record(timestamp: int, query: Option<string>, limit: int, resultCount: int)

  /** The Redis key of a user's log: `USER:{user_id}:LOOKUPS`. */
  function Key(userId: string): string
  {
    "USER:" + userId + ":LOOKUPS"
  }

  /** Distinct users have distinct keys, so one user's log never aliases another's. */
  lemma KeyInjective(a: string, b: string)
    ensures Key(a) == Key(b) ==> a == b
  {
    if Key(a) == Key(b) {
      assert |a| == |b|;
      assert a == Key(a)[5..5 + |a|];
      assert b == Key(b)[5..5 + |b|];
    }
  }

  /** `record.get("query", "")`. */
  function QueryField(r: Record): (f: string)
    ensures r.query.None? ==> f == ""
    ensures r.query.Some? ==> f == r.query.value
  {
    r.query.GetOr("")
  }

  /** The filter test: the lower-cased filter occurs in the record's lower-cased query. */
  function Matches(r: Record, q: string): (b: bool)
    ensures q == "" ==> b
    ensures b ==> |q| <= |QueryField(r)|
  {
    Contains(Lower(QueryField(r)), Lower(q))
  }

  /** Keeps, in order, the records that match `q`. */
  function Filter(items: seq<Record>, q: string): (r: seq<Record>)
    ensures |r| <= |items|
    ensures forall x :: x in r ==> x in items
  {
    if items == [] then []
    else if Matches(items[0], q) then [items[0]] + Filter(items[1..], q)
    else Filter(items[1..], q)
  }

  /** Python's `s[:n]`: the first `n` elements, where a negative `n` drops `-n` from the end. */
  function SlicePrefix<T>(s: seq<T>, n: int): (r: seq<T>)
    ensures |r| <= |s| && r == s[..|r|]
    ensures n >= 0 ==> |r| == Min(n, |s|)
    ensures n < 0 ==> |r| == Max(0, |s| + n)
  {
    if n >= 0 then s[..Min(n, |s|)] else s[..Max(0, |s| + n)]
  }

  /**
   * `fetch_knowledge` over a snapshot of the user's log (newest first): when the
   * query is non-empty only matching records are kept, then the first `limit`.
   */
  function FetchKnowledge(log: seq<Record>, query: string, limit: int): (r: seq<Record>)
    ensures forall x :: x in r ==> x in log
    ensures limit >= 0 ==> |r| <= limit
  {
    var items := if query != "" then Filter(log, query) else log;
    SlicePrefix(items, limit)
  }

  /** `a` can be obtained from `b` by deleting elements (order kept). */
  predicate IsSubsequence<T(==)>(a: seq<T>, b: seq<T>)
    decreases |b|
  {
    if a == [] then true
    else if b == [] then false
    else if a[0] == b[0] then IsSubsequence(a[1..], b[1..])
    else IsSubsequence(a, b[1..])
  }

  /** A record is in the filtered list exactly when it is in the input and matches. */
  lemma {:induction false} FilterMembers(items: seq<Record>, q: string, x: Record)
    ensures x in Filter(items, q) <==> x in items && Matches(x, q)
  {
    if items != [] {
      FilterMembers(items[1..], q, x);
      assert items == [items[0]] + items[1..];
    }
  }

  /** The filter keeps every copy of a matching record and no copy of any other. */
  lemma {:induction false} FilterCount(items: seq<Record>, q: string, x: Record)
    ensures multiset(Filter(items, q))[x] == if Matches(x, q) then multiset(items)[x] else 0
  {
    if items != [] {
      FilterCount(items[1..], q, x);
      assert items == [items[0]] + items[1..];
    }
  }

  /** An empty filter matches every record: filtering by "" changes nothing. */
  lemma {:induction false} FilterEmptyQuery(items: seq<Record>)
    ensures Filter(items, "") == items
  {
    if items != [] {
      ContainsEmpty(Lower(QueryField(items[0])));
      FilterEmptyQuery(items[1..]);
    }
  }

  /** Filtering depends on the filter only through its lower-cased form. */
  lemma {:induction false} FilterCaseInsensitive(items: seq<Record>, q1: string, q2: string)
    requires Lower(q1) == Lower(q2)
    ensures Filter(items, q1) == Filter(items, q2)
  {
    if items != [] {
      FilterCaseInsensitive(items[1..], q1, q2);
    }
  }

  /** Every prefix of a filtered list is an order-preserving subsequence of the input. */
  lemma {:induction false} FilterPrefixIsSubsequence(items: seq<Record>, q: string, n: nat)
    requires n <= |Filter(items, q)|
    ensures IsSubsequence(Filter(items, q)[..n], items)
  {
    if items != [] && n > 0 {
      var f := Filter(items, q);
      var rest := Filter(items[1..], q);
      if Matches(items[0], q) {
        assert f[..n][0] == items[0];
        assert f[..n][1..] == rest[..n - 1];
        FilterPrefixIsSubsequence(items[1..], q, n - 1);
      } else {
        assert f[..n] == rest[..n];
        FilterMembers(items[1..], q, rest[0]);
        assert f[..n][0] != items[0];
        FilterPrefixIsSubsequence(items[1..], q, n);
      }
    }
  }

  /** The `if query:` guard only skips work: the result is the filtered list, sliced. */
  lemma FetchIsFilterThenSlice(log: seq<Record>, query: string, limit: int)
    ensures FetchKnowledge(log, query, limit) == SlicePrefix(Filter(log, query), limit)
  {
    if query == "" {
      FilterEmptyQuery(log);
    }
  }

  /** With no filter and a non-negative limit: the newest `min(limit, |log|)` records, in log order. */
  lemma FetchEmptyQuery(log: seq<Record>, limit: int)
    requires limit >= 0
    ensures FetchKnowledge(log, "", limit) == log[..Min(limit, |log|)]
  {
  }

  /** Every returned record comes from the log and matches the filter, case-insensitively. */
  lemma FetchSound(log: seq<Record>, query: string, limit: int)
    ensures forall x :: x in FetchKnowledge(log, query, limit) ==>
      x in log && Contains(Lower(QueryField(x)), Lower(query))
  {
    FetchIsFilterThenSlice(log, query, limit);
    var f := Filter(log, query);
    forall x | x in FetchKnowledge(log, query, limit)
      ensures x in log && Matches(x, query)
    {
      assert x in f;
      FilterMembers(log, query, x);
    }
  }

  /** The result keeps the log's newest-first order and holds at most `limit` records. */
  lemma FetchOrderAndBound(log: seq<Record>, query: string, limit: int)
    ensures IsSubsequence(FetchKnowledge(log, query, limit), log)
    ensures limit >= 0 ==> |FetchKnowledge(log, query, limit)| <= limit
    ensures |FetchKnowledge(log, query, limit)| <= |log|
  {
    FetchIsFilterThenSlice(log, query, limit);
    var f := Filter(log, query);
    var r := SlicePrefix(f, limit);
    FilterPrefixIsSubsequence(log, query, |r|);
  }

  /**
   * When the limit covers the whole log, nothing matching is left out: every copy of
   * a matching record is returned, and nothing else.
   */
  lemma FetchComplete(log: seq<Record>, query: string, limit: int)
    requires limit >= |log|
    ensures forall x :: x in FetchKnowledge(log, query, limit) <==> x in log && Matches(x, query)
    ensures forall x ::
      multiset(FetchKnowledge(log, query, limit))[x] == (if Matches(x, query) then multiset(log)[x] else 0)
  {
    FetchIsFilterThenSlice(log, query, limit);
    assert FetchKnowledge(log, query, limit) == Filter(log, query);
    forall x
      ensures x in Filter(log, query) <==> x in log && Matches(x, query)
      ensures multiset(Filter(log, query))[x] == if Matches(x, query) then multiset(log)[x] else 0
    {
      FilterMembers(log, query, x);
      FilterCount(log, query, x);
    }
  }

  /** A negative limit drops that many records from the end of the filtered list. */
  lemma FetchNegativeLimit(log: seq<Record>, query: string, limit: int)
    requires limit < 0
    ensures FetchKnowledge(log, query, limit) == Filter(log, query)[..Max(0, |Filter(log, query)| + limit)]
  {
    FetchIsFilterThenSlice(log, query, limit);
  }

  /** Two filters that differ only in letter case fetch the same records. */
  lemma FetchCaseInsensitive(log: seq<Record>, q1: string, q2: string, limit: int)
    requires Lower(q1) == Lower(q2)
    ensures FetchKnowledge(log, q1, limit) == FetchKnowledge(log, q2, limit)
  {
    FetchIsFilterThenSlice(log, q1, limit);
    FetchIsFilterThenSlice(log, q2, limit);
    FilterCaseInsensitive(log, q1, q2);
  }

  /** A user with no log yet gets an empty list, not an error. */
  lemma FetchEmptyLog(query: string, limit: int)
    ensures FetchKnowledge([], query, limit) == []
  {
  }

  /** A record stored as "Python" is found by the filter "python". */
  lemma MatchesIgnoresCase(r: Record)
    requires r.query == Some("Python")
    ensures Matches(r, "python")
  {
    assert Lower("Python") == "python";
    assert Lower("python") == "python";
    ContainsSelf("python");
  }

  /** A record is always found again by its own query. */
  lemma MatchesOwnQuery(r: Record)
    ensures Matches(r, QueryField(r))
  {
    ContainsSelf(Lower(QueryField(r)));
  }
}
