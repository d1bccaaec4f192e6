/**
 * Ordering by `grab_time`, newest first: what `ORDER BY grab_time DESC` asks of
 * a shard and what `all_results.sort(key=lambda x: x.grab_time, reverse=True)`
 * does to merged results. Both are modelled by one stable insertion sort.
 */
module Sorting {
  import opened Common

  predicate SortedDesc(s: seq<Row>)
  {
    forall i, j :: 0 <= i < j < |s| ==> s[i].grabTime >= s[j].grabTime
  }

  /** Puts `x` before the first element that is not newer than it, so equal
      keys keep their input order. */
  function InsertDesc(x: Row, s: seq<Row>): (r: seq<Row>)
    ensures |r| == |s| + 1
    ensures multiset(r) == multiset(s) + multiset{x}
  {
    if s == [] || s[0].grabTime <= x.grabTime then [x] + s
    else
      assert s == [s[0]] + s[1..];
      [s[0]] + InsertDesc(x, s[1..])
  }

  lemma {:induction false} InsertDescSorted(x: Row, s: seq<Row>)
    requires SortedDesc(s)
    ensures SortedDesc(InsertDesc(x, s))
  {
    if s == [] || s[0].grabTime <= x.grabTime {
    } else {
      var rest := InsertDesc(x, s[1..]);
      InsertDescSorted(x, s[1..]);
      forall k | 0 <= k < |rest|
        ensures rest[k].grabTime <= s[0].grabTime
      {
        assert rest[k] in multiset(rest);
        if rest[k] != x {
          assert rest[k] in multiset(s[1..]);
          var j :| 0 <= j < |s[1..]| && s[1..][j] == rest[k];
          assert s[j + 1] == rest[k];
        }
      }
      assert InsertDesc(x, s) == [s[0]] + rest;
    }
  }

  /** The rows of `s`, newest first. */
  function SortDesc(s: seq<Row>): (r: seq<Row>)
    ensures |r| == |s|
    ensures multiset(r) == multiset(s)
  {
    if s == [] then []
    else
      assert s == [s[0]] + s[1..];
      InsertDesc(s[0], SortDesc(s[1..]))
  }

  /** The sort's output is ordered newest first. */
  lemma {:induction false} SortDescSorted(s: seq<Row>)
    ensures SortedDesc(SortDesc(s))
  {
    if s != [] {
      SortDescSorted(s[1..]);
      InsertDescSorted(s[0], SortDesc(s[1..]));
    }
  }

  /** Sorting keeps exactly the rows it was given. */
  lemma SortDescMembers(s: seq<Row>, x: Row)
    ensures x in SortDesc(s) <==> x in s
  {
    assert x in SortDesc(s) <==> x in multiset(SortDesc(s));
    assert x in s <==> x in multiset(s);
  }

  /** A prefix of a sorted sequence is sorted. */
  lemma PrefixSorted(s: seq<Row>, k: int)
    requires SortedDesc(s)
    ensures SortedDesc(Take(s, k))
  {
    var t := Take(s, k);
    assert forall i :: 0 <= i < |t| ==> t[i] == s[i];
  }

  /** Records ordered by `grab_time`, newest first; each carries a time. */
  predicate NewestFirst(rs: seq<CouponResult>)
  {
    forall i, j :: 0 <= i < j < |rs| ==>
      rs[i].grabTime.Some? && rs[j].grabTime.Some? && rs[i].grabTime.value >= rs[j].grabTime.value
  }

  /** Converting sorted rows to records keeps the order. */
  lemma ResultsNewestFirst(rows: seq<Row>)
    requires SortedDesc(rows)
    ensures NewestFirst(RowsToResults(rows))
  {
  }
}
