/**
 * The date order used by every "newest first" sort of the dashboard.
 *
 * Work-log dates are YYYY-MM-DD strings. The source compares them through
 * `new Date(date).getTime()`; for well-formed strings of that shape the
 * chronological order is the lexicographic order of the strings, which is
 * what DateLe defines. The comparator `(a, b) => time(b) - time(a)` of
 * src/lib/data.ts:97 and src/components/dashboard/anomaly-detection.tsx:38
 * puts newer dates first, and Array.prototype.sort is stable, so the sorted
 * array is the unique stable newest-first permutation of its input:
 * SortByDateDesc below, with its three properties proved.
 */
module DateOrder {
  import opened AttendanceTypes

  /** Lexicographic order on date strings. */
  predicate DateLe(a: string, b: string)
    decreases |a|
  {
    if a == [] then true
    else if b == [] then false
    else if a[0] < b[0] then true
    else a[0] == b[0] && DateLe(a[1..], b[1..])
  }

  /** Strictly older. */
  predicate DateLt(a: string, b: string) {
    !DateLe(b, a)
  }

  lemma {:induction false} DateLeReflexive(a: string)
    ensures DateLe(a, a)
    decreases |a|
  {
    if a != [] { DateLeReflexive(a[1..]); }
  }

  lemma {:induction false} DateLeTotal(a: string, b: string)
    ensures DateLe(a, b) || DateLe(b, a)
    decreases |a|
  {
    if a != [] && b != [] && a[0] == b[0] { DateLeTotal(a[1..], b[1..]); }
  }

  lemma {:induction false} DateLeTransitive(a: string, b: string, c: string)
    requires DateLe(a, b) && DateLe(b, c)
    ensures DateLe(a, c)
    decreases |a|
  {
    if a != [] && b != [] && c != [] && a[0] == b[0] && b[0] == c[0] {
      DateLeTransitive(a[1..], b[1..], c[1..]);
    }
  }

  lemma {:induction false} DateLeAntisymmetric(a: string, b: string)
    requires DateLe(a, b) && DateLe(b, a)
    ensures a == b
    decreases |a|
  {
    if a != [] && b != [] {
      DateLeAntisymmetric(a[1..], b[1..]);
      assert a == [a[0]] + a[1..] && b == [b[0]] + b[1..];
    }
  }

  /** Newest first: no log is newer than a log before it. */
  ghost predicate SortedDesc(s: seq<WorkLog>) {
    forall i, j :: 0 <= i < j < |s| ==> DateLe(s[j].date, s[i].date)
  }

  /** The logs of one calendar day, in their order. */
  function LogsOn(s: seq<WorkLog>, day: string): (r: seq<WorkLog>)
    ensures |r| <= |s|
    ensures forall k :: 0 <= k < |r| ==> r[k].date == day
  {
    if s == [] then []
    else LogsOn(s[..|s| - 1], day) + (if s[|s| - 1].date == day then [s[|s| - 1]] else [])
  }

  lemma {:induction false} LogsOnAppend(a: seq<WorkLog>, b: seq<WorkLog>, day: string)
    ensures LogsOn(a + b, day) == LogsOn(a, day) + LogsOn(b, day)
    decreases |b|
  {
    if b == [] {
      assert a + b == a;
    } else {
      assert (a + b)[..|a + b| - 1] == a + b[..|b| - 1];
      LogsOnAppend(a, b[..|b| - 1], day);
    }
  }

  /**
   * Inserts x into a newest-first sequence after every log that is not
   * older than x: the step of a stable insertion sort.
   */
  function Insert(s: seq<WorkLog>, x: WorkLog): (r: seq<WorkLog>)
    ensures |r| == |s| + 1
  {
    if s == [] then [x]
    else if DateLt(s[|s| - 1].date, x.date) then Insert(s[..|s| - 1], x) + [s[|s| - 1]]
    else s + [x]
  }

  lemma {:induction false} InsertPermutes(s: seq<WorkLog>, x: WorkLog)
    ensures multiset(Insert(s, x)) == multiset(s) + multiset{x}
    decreases |s|
  {
    if s != [] {
      assert s == s[..|s| - 1] + [s[|s| - 1]];
      if DateLt(s[|s| - 1].date, x.date) { InsertPermutes(s[..|s| - 1], x); }
    }
  }

  /** The stable newest-first sort of a sequence of logs. */
  function SortByDateDesc(s: seq<WorkLog>): (r: seq<WorkLog>)
    ensures |r| == |s|
  {
    if s == [] then []
    else Insert(SortByDateDesc(s[..|s| - 1]), s[|s| - 1])
  }

  /** The sort result is a permutation of its input. */
  lemma {:induction false} SortByDateDescPermutes(s: seq<WorkLog>)
    ensures multiset(SortByDateDesc(s)) == multiset(s)
    decreases |s|
  {
    if s != [] {
      assert s == s[..|s| - 1] + [s[|s| - 1]];
      SortByDateDescPermutes(s[..|s| - 1]);
      InsertPermutes(SortByDateDesc(s[..|s| - 1]), s[|s| - 1]);
    }
  }

  lemma {:induction false} InsertSorted(s: seq<WorkLog>, x: WorkLog)
    requires SortedDesc(s)
    ensures SortedDesc(Insert(s, x))
    decreases |s|
  {
    if s != [] {
      var init, last := s[..|s| - 1], s[|s| - 1];
      if DateLt(last.date, x.date) {
        InsertSorted(init, x);
        InsertPermutes(init, x);
        var t := Insert(init, x);
        forall k | 0 <= k < |t| ensures DateLe(last.date, t[k].date) {
          assert t[k] in multiset(t);
          if t[k] == x {
            DateLeTotal(last.date, x.date);
          } else {
            assert t[k] in multiset(init);
            var m :| 0 <= m < |init| && init[m] == t[k];
            assert s[m] == init[m];
          }
        }
      } else {
        DateLeTotal(x.date, last.date);
        forall k | 0 <= k < |s| ensures DateLe(x.date, s[k].date) {
          if k < |s| - 1 { DateLeTransitive(x.date, last.date, s[k].date); }
        }
      }
    }
  }

  /** The sort result is newest first. */
  lemma {:induction false} SortByDateDescSorted(s: seq<WorkLog>)
    ensures SortedDesc(SortByDateDesc(s))
    decreases |s|
  {
    if s != [] {
      SortByDateDescSorted(s[..|s| - 1]);
      InsertSorted(SortByDateDesc(s[..|s| - 1]), s[|s| - 1]);
    }
  }

  lemma {:induction false} InsertStable(s: seq<WorkLog>, x: WorkLog, day: string)
    ensures LogsOn(Insert(s, x), day) == LogsOn(s, day) + (if x.date == day then [x] else [])
    decreases |s|
  {
    if s == [] {
      assert LogsOn([x], day) == LogsOn([], day) + (if x.date == day then [x] else []);
    } else {
      var init, last := s[..|s| - 1], s[|s| - 1];
      if DateLt(last.date, x.date) {
        InsertStable(init, x, day);
        var t := Insert(init, x);
        assert (t + [last])[..|t + [last]| - 1] == t;
        if last.date == day && x.date == day {
          DateLeReflexive(day);
        }
      } else {
        assert (s + [x])[..|s + [x]| - 1] == s;
      }
    }
  }

  /**
   * Stability: the logs of any one day keep their input order, so the sort
   * is the stable one.
   */
  lemma {:induction false} SortByDateDescStable(s: seq<WorkLog>, day: string)
    ensures LogsOn(SortByDateDesc(s), day) == LogsOn(s, day)
    decreases |s|
  {
    if s != [] {
      SortByDateDescStable(s[..|s| - 1], day);
      InsertStable(SortByDateDesc(s[..|s| - 1]), s[|s| - 1], day);
    }
  }

  /** Where the insertion step puts x, given the first position it may stop at. */
  lemma {:induction false} InsertAt(s: seq<WorkLog>, x: WorkLog, j: nat)
    requires j <= |s|
    requires forall k :: j <= k < |s| ==> DateLt(s[k].date, x.date)
    requires j == 0 || !DateLt(s[j - 1].date, x.date)
    ensures Insert(s, x) == s[..j] + [x] + s[j..]
    decreases |s|
  {
    if j < |s| {
      var init, last := s[..|s| - 1], s[|s| - 1];
      assert DateLt(last.date, x.date);
      assert Insert(s, x) == Insert(init, x) + [last];
      assert j == 0 || init[j - 1] == s[j - 1];
      assert forall k :: j <= k < |init| ==> init[k] == s[k];
      InsertAt(init, x, j);
      assert init[..j] == s[..j];
      assert init[j..] + [last] == s[j..];
    } else if s != [] {
      assert s[..j] == s;
      assert !DateLt(s[|s| - 1].date, x.date);
    }
  }

  /**
   * One step of the in-place insertion sort: a[i] is moved left past every
   * strictly older log of the sorted prefix a[..i].
   */
  method InsertStep(a: array<WorkLog>, i: nat)
    requires i < a.Length
    modifies a
    ensures a[..i + 1] == Insert(old(a[..i]), old(a[i]))
    ensures a[i + 1..] == old(a[i + 1..])
  {
    ghost var sorted := a[..i];
    ghost var rest := a[i + 1..];
    var x := a[i];
    var j := i;
    while j > 0 && DateLt(a[j - 1].date, x.date)
      invariant 0 <= j <= i
      invariant a[..j] == sorted[..j]
      invariant a[j + 1..i + 1] == sorted[j..i]
      invariant a[i + 1..] == rest
      invariant forall k :: j <= k < i ==> DateLt(sorted[k].date, x.date)
    {
      a[j] := a[j - 1];
      j := j - 1;
    }
    a[j] := x;
    assert j == 0 || a[j - 1] == sorted[j - 1];
    InsertAt(sorted, x, j);
    assert a[..i + 1] == a[..j] + [x] + a[j + 1..i + 1];
  }

  /**
   * Sorts the array in place, newest first, as `workLogs.sort(...)` does
   * at src/lib/data.ts:96-97.
   */
  method SortInPlace(a: array<WorkLog>)
    modifies a
    ensures a[..] == SortByDateDesc(old(a[..]))
  {
    ghost var input := a[..];
    var i := 0;
    while i < a.Length
      invariant 0 <= i <= a.Length
      invariant a[..i] == SortByDateDesc(input[..i])
      invariant a[i..] == input[i..]
    {
      assert a[i] == input[i];
      InsertStep(a, i);
      assert input[..i + 1][..i] == input[..i];
      assert input[..i + 1][i] == input[i];
      assert a[i + 1..] == input[i + 1..];
      i := i + 1;
    }
    assert input[..a.Length] == input;
  }
}
