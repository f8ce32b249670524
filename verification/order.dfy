/** sortedByDescending { it.timestamp } on meeting sessions: Kotlin's sort is stable, modelled as
    an insertion sort, with its ordering, permutation and stability facts. */
module MeetingOrder {
  import opened Base
  import opened Sessions

  predicate SortedDesc(ms: seq<MeetingSession>) {
    forall i, j :: 0 <= i < j < |ms| ==> ms[i].timestamp >= ms[j].timestamp
  }

  /** Put `x` after every session at least as recent, before the first older one. */
  function Insert(x: MeetingSession, ms: seq<MeetingSession>): seq<MeetingSession> {
    if |ms| == 0 then [x]
    else if ms[0].timestamp >= x.timestamp then [ms[0]] + Insert(x, ms[1..])
    else [x] + ms
  }

  /** Insertion adds exactly `x`. */
  lemma {:induction false} InsertCounts(x: MeetingSession, ms: seq<MeetingSession>)
    ensures multiset(Insert(x, ms)) == multiset(ms) + multiset{x}
  {
    if |ms| > 0 && ms[0].timestamp >= x.timestamp {
      InsertCounts(x, ms[1..]);
      assert ms == [ms[0]] + ms[1..];
    }
  }

  /** Every timestamp in `ms` is at most `bound`. */
  predicate AllAtMost(ms: seq<MeetingSession>, bound: int) {
    forall j :: 0 <= j < |ms| ==> ms[j].timestamp <= bound
  }

  /** Insertion into a sorted list keeps it sorted, and keeps a common upper bound. */
  lemma {:induction false} InsertSorted(x: MeetingSession, ms: seq<MeetingSession>, bound: int)
    requires SortedDesc(ms)
    ensures SortedDesc(Insert(x, ms))
    ensures AllAtMost(ms, bound) && x.timestamp <= bound ==> AllAtMost(Insert(x, ms), bound)
  {
    if |ms| > 0 && ms[0].timestamp >= x.timestamp {
      var rest := Insert(x, ms[1..]);
      InsertSorted(x, ms[1..], ms[0].timestamp);
      InsertSorted(x, ms[1..], bound);
      assert Insert(x, ms) == [ms[0]] + rest;
    }
  }

  /** sortedByDescending { it.timestamp }: a stable insertion sort; it yields a newest-first
      arrangement of the same sessions. */
  function SortByTimestampDesc(ms: seq<MeetingSession>): (r: seq<MeetingSession>)
    ensures SortedDesc(r)
    ensures multiset(r) == multiset(ms)
  {
    if |ms| == 0 then []
    else
      var sortedInit := SortByTimestampDesc(ms[..|ms| - 1]);
      SortStep(ms, sortedInit);
      Insert(ms[|ms| - 1], sortedInit)
  }

  /** One step of the sort: inserting the last session into the sorted rest sorts everything. */
  lemma SortStep(ms: seq<MeetingSession>, sortedInit: seq<MeetingSession>)
    requires |ms| > 0
    requires SortedDesc(sortedInit) && multiset(sortedInit) == multiset(ms[..|ms| - 1])
    ensures SortedDesc(Insert(ms[|ms| - 1], sortedInit))
    ensures multiset(Insert(ms[|ms| - 1], sortedInit)) == multiset(ms)
  {
    var last := ms[|ms| - 1];
    InsertSorted(last, sortedInit, last.timestamp);
    InsertCounts(last, sortedInit);
    assert ms == ms[..|ms| - 1] + [last];
  }

  /** The sessions with timestamp `t`, in order. */
  function WithTimestamp(ms: seq<MeetingSession>, t: int): seq<MeetingSession> {
    if |ms| == 0 then []
    else (if ms[0].timestamp == t then [ms[0]] else []) + WithTimestamp(ms[1..], t)
  }

  lemma {:induction false} WithTimestampAppend(a: seq<MeetingSession>, b: seq<MeetingSession>, t: int)
    ensures WithTimestamp(a + b, t) == WithTimestamp(a, t) + WithTimestamp(b, t)
  {
    if |a| == 0 {
      assert a + b == b;
    } else {
      var ab := a + b;
      assert ab[0] == a[0] && ab[1..] == a[1..] + b;
      assert WithTimestamp(ab, t) == (if a[0].timestamp == t then [a[0]] else []) + WithTimestamp(a[1..] + b, t);
      WithTimestampAppend(a[1..], b, t);
    }
  }

  lemma {:induction false} WithTimestampNone(ms: seq<MeetingSession>, t: int)
    requires forall j :: 0 <= j < |ms| ==> ms[j].timestamp < t
    ensures WithTimestamp(ms, t) == []
  {
    if |ms| > 0 {
      WithTimestampNone(ms[1..], t);
    }
  }

  lemma InsertStableFront(x: MeetingSession, ms: seq<MeetingSession>, t: int)
    requires SortedDesc(ms) && |ms| > 0 && ms[0].timestamp >= x.timestamp
    requires WithTimestamp(Insert(x, ms[1..]), t) == WithTimestamp(ms[1..], t) + (if x.timestamp == t then [x] else [])
    ensures WithTimestamp(Insert(x, ms), t) == WithTimestamp(ms, t) + (if x.timestamp == t then [x] else [])
  {
    var rest := Insert(x, ms[1..]);
    var front, xs := WithTimestamp([ms[0]], t), if x.timestamp == t then [x] else [];
    assert Insert(x, ms) == [ms[0]] + rest;
    WithTimestampAppend([ms[0]], rest, t);
    assert ms == [ms[0]] + ms[1..];
    WithTimestampAppend([ms[0]], ms[1..], t);
    AppendAssoc(front, WithTimestamp(ms[1..], t), xs);
  }

  lemma InsertStableHere(x: MeetingSession, ms: seq<MeetingSession>, t: int)
    requires SortedDesc(ms) && |ms| > 0 && ms[0].timestamp < x.timestamp
    ensures WithTimestamp(Insert(x, ms), t) == WithTimestamp(ms, t) + (if x.timestamp == t then [x] else [])
  {
    assert Insert(x, ms) == [x] + ms;
    WithTimestampAppend([x], ms, t);
    if x.timestamp == t {
      WithTimestampNone(ms, t);
    }
  }

  lemma {:induction false} InsertStable(x: MeetingSession, ms: seq<MeetingSession>, t: int)
    requires SortedDesc(ms)
    ensures WithTimestamp(Insert(x, ms), t) == WithTimestamp(ms, t) + (if x.timestamp == t then [x] else [])
  {
    if |ms| == 0 {
      assert Insert(x, ms) == [x];
    } else if ms[0].timestamp >= x.timestamp {
      InsertStable(x, ms[1..], t);
      InsertStableFront(x, ms, t);
    } else {
      InsertStableHere(x, ms, t);
    }
  }

  /** The sort of a non-empty list inserts its last session into the sorted rest. */
  lemma SortUnfold(ms: seq<MeetingSession>)
    requires |ms| > 0
    ensures SortByTimestampDesc(ms) == Insert(ms[|ms| - 1], SortByTimestampDesc(ms[..|ms| - 1]))
    ensures SortedDesc(SortByTimestampDesc(ms[..|ms| - 1]))
  {
  }

  lemma WithTimestampLast(ms: seq<MeetingSession>, t: int)
    requires |ms| > 0
    ensures WithTimestamp(ms, t) == WithTimestamp(ms[..|ms| - 1], t) + (if ms[|ms| - 1].timestamp == t then [ms[|ms| - 1]] else [])
  {
    assert ms == ms[..|ms| - 1] + [ms[|ms| - 1]];
    WithTimestampAppend(ms[..|ms| - 1], [ms[|ms| - 1]], t);
  }

  /** The sort keeps sessions with equal timestamps in listing order. */
  lemma {:induction false} SortStable(ms: seq<MeetingSession>, t: int)
    ensures WithTimestamp(SortByTimestampDesc(ms), t) == WithTimestamp(ms, t)
  {
    if |ms| > 0 {
      SortUnfold(ms);
      SortStable(ms[..|ms| - 1], t);
      InsertStable(ms[|ms| - 1], SortByTimestampDesc(ms[..|ms| - 1]), t);
      WithTimestampLast(ms, t);
    }
  }
}
