/**
 * The three Redis list commands the lookup log uses, over a key space that maps
 * each key to a list (head first). A key that is absent reads as the empty list,
 * and a list that becomes empty is removed, as Redis does.
 */
module RedisList {

  type Db<T> = map<string, seq<T>>

  function Min(a: int, b: int): int { if a < b then a else b }

  function Max(a: int, b: int): int { if a < b then b else a }

  /** The list stored at `key`; a missing key is the empty list. */
  function ListAt<T>(db: Db<T>, key: string): seq<T>
  {
    if key in db then db[key] else []
  }

  /**
   * The elements from index `start` to index `stop`, both inclusive, that LRANGE
   * returns and LTRIM keeps: a negative index counts from the tail (-1 is the last
   * element), a start before the head is moved to the head, a stop past the tail is
   * moved to the tail, and an empty or inverted range selects nothing.
   */
  function Range<T>(s: seq<T>, start: int, stop: int): (r: seq<T>)
    ensures |r| <= |s|
  {
    var n := |s|;
    var b0 := if start < 0 then n + start else start;
    var e := if stop < 0 then n + stop else stop;
    var b := if b0 < 0 then 0 else b0;
    if b > e || b >= n then [] else s[b..(if e >= n then n - 1 else e) + 1]
  }

  /** LPUSH key v: `v` becomes the new head; every other key is untouched. */
  function LPush<T>(db: Db<T>, key: string, v: T): (r: Db<T>)
    ensures ListAt(r, key) == [v] + ListAt(db, key)
    ensures forall k :: k != key ==> ListAt(r, k) == ListAt(db, k)
  {
    db[key := [v] + ListAt(db, key)]
  }

  /** LTRIM key start stop: keep only Range(start, stop); an emptied list disappears. */
  function LTrim<T>(db: Db<T>, key: string, start: int, stop: int): (r: Db<T>)
    ensures ListAt(r, key) == Range(ListAt(db, key), start, stop)
    ensures forall k :: k != key ==> ListAt(r, k) == ListAt(db, k)
  {
    var kept := Range(ListAt(db, key), start, stop);
    if kept == [] then db - {key} else db[key := kept]
  }

  /** LRANGE key start stop. */
  function LRange<T>(db: Db<T>, key: string, start: int, stop: int): seq<T>
  {
    Range(ListAt(db, key), start, stop)
  }

  /** LRANGE key 0 -1 reads the whole list; the same indices make LTRIM keep everything. */
  lemma RangeWhole<T>(s: seq<T>)
    ensures Range(s, 0, -1) == s
  {
  }

  /** With a positive `n`, Range(0, n - 1) is the first `n` elements (all of them if fewer). */
  lemma RangeHead<T>(s: seq<T>, n: int)
    requires n >= 1
    ensures Range(s, 0, n - 1) == s[..Min(n, |s|)]
  {
  }
}
