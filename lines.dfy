/** Ordering of lyric lines by start time. Every list the tracker re-sorts goes
    through `Array.prototype.sort` with the comparator `a.startTime - b.startTime`;
    that sort is stable, and it is modelled here as a stable insertion sort. */
module Lines {
  import opened Types

  predicate SortedByStart(ls: seq<LyricLine>) {
    forall i, j :: 0 <= i < j < |ls| ==> ls[i].startTime <= ls[j].startTime
  }

  /** Places `x` after every leading line of `ls` that starts no later than it. */
  function InsertByStart(x: LyricLine, ls: seq<LyricLine>): (r: seq<LyricLine>)
    ensures |r| == |ls| + 1
  {
    if ls == [] then [x]
    else if x.startTime < ls[0].startTime then [x] + ls
    else [ls[0]] + InsertByStart(x, ls[1..])
  }

  /** Inserting into a sorted list keeps it sorted. */
  lemma {:induction false} InsertSorted(x: LyricLine, ls: seq<LyricLine>)
    requires SortedByStart(ls)
    ensures SortedByStart(InsertByStart(x, ls))
    ensures InsertByStart(x, ls)[0] == x || (ls != [] && InsertByStart(x, ls)[0] == ls[0])
    decreases |ls|
  {
    if ls != [] && x.startTime >= ls[0].startTime {
      var rest := InsertByStart(x, ls[1..]);
      InsertSorted(x, ls[1..]);
      assert ls[0].startTime <= rest[0].startTime;
      var r := [ls[0]] + rest;
      forall i, j | 0 <= i < j < |r| ensures r[i].startTime <= r[j].startTime {
        if i > 0 {
          assert r[i] == rest[i - 1] && r[j] == rest[j - 1];
        } else {
          assert rest[0].startTime <= rest[j - 1].startTime;
        }
      }
    }
  }

  /** Inserting adds `x` and keeps every other line. */
  lemma {:induction false} InsertPermutes(x: LyricLine, ls: seq<LyricLine>)
    ensures multiset(InsertByStart(x, ls)) == multiset(ls) + multiset{x}
    decreases |ls|
  {
    if ls != [] && x.startTime >= ls[0].startTime {
      InsertPermutes(x, ls[1..]);
      assert ls == [ls[0]] + ls[1..];
    }
  }

  /** The lines sorted by start time, lines with equal start times kept in their order. */
  function SortByStart(ls: seq<LyricLine>): (r: seq<LyricLine>)
    ensures SortedByStart(r)
    ensures multiset(r) == multiset(ls) && |r| == |ls|
  {
    if ls == [] then []
    else
      var init, last := ls[..|ls| - 1], ls[|ls| - 1];
      assert ls == init + [last];
      var sorted := SortByStart(init);
      InsertSorted(last, sorted);
      InsertPermutes(last, sorted);
      InsertByStart(last, sorted)
  }

  /** The lines of `ls` that start at `k`, in their order in `ls`. */
  function StartingAt(ls: seq<LyricLine>, k: int): seq<LyricLine> {
    if ls == [] then []
    else (if ls[0].startTime == k then [ls[0]] else []) + StartingAt(ls[1..], k)
  }

  lemma {:induction false} StartingAtAppend(a: seq<LyricLine>, b: seq<LyricLine>, k: int)
    ensures StartingAt(a + b, k) == StartingAt(a, k) + StartingAt(b, k)
    decreases |a|
  {
    if a == [] {
      assert a + b == b;
    } else {
      assert (a + b)[1..] == a[1..] + b;
      StartingAtAppend(a[1..], b, k);
      AppendAssoc(if a[0].startTime == k then [a[0]] else [], StartingAt(a[1..], k), StartingAt(b, k));
    }
  }

  lemma {:induction false} NoneStartingAt(ls: seq<LyricLine>, k: int)
    requires forall i :: 0 <= i < |ls| ==> ls[i].startTime != k
    ensures StartingAt(ls, k) == []
    decreases |ls|
  {
    if ls != [] {
      NoneStartingAt(ls[1..], k);
    }
  }

  lemma StartingAtCons(h: LyricLine, tail: seq<LyricLine>, k: int)
    ensures StartingAt([h] + tail, k) == (if h.startTime == k then [h] else []) + StartingAt(tail, k)
  {
    assert ([h] + tail)[1..] == tail;
  }

  /** A line inserted before the first line of a sorted list starts before all of them. */
  lemma InsertFrontStable(x: LyricLine, ls: seq<LyricLine>, k: int)
    requires SortedByStart(ls) && ls != [] && x.startTime < ls[0].startTime
    ensures StartingAt([x] + ls, k) == StartingAt(ls, k) + (if x.startTime == k then [x] else [])
  {
    StartingAtCons(x, ls, k);
    if x.startTime == k {
      NoneStartingAt(ls, k);
    }
  }

  /** Inserting `x` puts it after the lines that share its start time. */
  lemma {:induction false} InsertStable(x: LyricLine, ls: seq<LyricLine>, k: int)
    requires SortedByStart(ls)
    ensures StartingAt(InsertByStart(x, ls), k) == StartingAt(ls, k) + (if x.startTime == k then [x] else [])
    decreases |ls|
  {
    if ls == [] {
      StartingAtCons(x, [], k);
    } else if x.startTime < ls[0].startTime {
      InsertFrontStable(x, ls, k);
    } else {
      var rest := InsertByStart(x, ls[1..]);
      InsertStable(x, ls[1..], k);
      StartingAtCons(ls[0], rest, k);
      StartingAtCons(ls[0], ls[1..], k);
      assert [ls[0]] + ls[1..] == ls;
      AppendAssoc(if ls[0].startTime == k then [ls[0]] else [], StartingAt(ls[1..], k), if x.startTime == k then [x] else []);
    }
  }

  /** The sort is stable: for every start time, the lines starting then keep their relative order. */
  lemma {:induction false} SortStable(ls: seq<LyricLine>, k: int)
    ensures StartingAt(SortByStart(ls), k) == StartingAt(ls, k)
    decreases |ls|
  {
    if ls != [] {
      var init, last := ls[..|ls| - 1], ls[|ls| - 1];
      calc {
        StartingAt(SortByStart(ls), k);
        StartingAt(InsertByStart(last, SortByStart(init)), k);
        { InsertStable(last, SortByStart(init), k); }
        StartingAt(SortByStart(init), k) + (if last.startTime == k then [last] else []);
        { SortStable(init, k); }
        StartingAt(init, k) + (if last.startTime == k then [last] else []);
        StartingAt(init, k) + StartingAt([last], k);
        { StartingAtAppend(init, [last], k); }
        StartingAt(init + [last], k);
        { assert init + [last] == ls; }
        StartingAt(ls, k);
      }
    }
  }

  /** Inserting a line that starts no earlier than all others appends it. */
  lemma {:induction false} InsertLast(x: LyricLine, ls: seq<LyricLine>)
    requires SortedByStart(ls)
    requires forall i :: 0 <= i < |ls| ==> ls[i].startTime <= x.startTime
    ensures InsertByStart(x, ls) == ls + [x]
    decreases |ls|
  {
    if ls != [] {
      InsertLast(x, ls[1..]);
      assert [ls[0]] + (ls[1..] + [x]) == ls + [x];
    }
  }

  /** Sorting a sorted list changes nothing. */
  lemma {:induction false} SortSorted(ls: seq<LyricLine>)
    requires SortedByStart(ls)
    ensures SortByStart(ls) == ls
    decreases |ls|
  {
    if ls != [] {
      var init := ls[..|ls| - 1];
      assert SortedByStart(init);
      SortSorted(init);
      InsertLast(ls[|ls| - 1], init);
      assert init + [ls[|ls| - 1]] == ls;
    }
  }

  /** Sorting a sorted list with one line appended inserts that line after the lines starting no later. */
  lemma AppendThenSort(ls: seq<LyricLine>, x: LyricLine)
    requires SortedByStart(ls)
    ensures SortByStart(ls + [x]) == InsertByStart(x, ls)
  {
    assert (ls + [x])[..|ls|] == ls;
    SortSorted(ls);
  }
}
