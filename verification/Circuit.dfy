/** The global circuit breaker of the public intake: a window opened by its first submission, a counter,
    and a trip that blocks for a whole window once the counter reaches the limit. Times are ticks. */
module Circuit {
  import opened Common

  datatype Row = Row(start: int, used: nat, tripped: Option<int>)

  predicate Blocks(c: Option<Row>, now: int) {
    c.Some? && c.value.tripped.Some? && c.value.tripped.value > now
  }

  /** The row after an admitted submission. */
  function Consumed(c: Option<Row>, limit: nat, window: nat, now: int): Row {
    var opens := c.None? || now >= c.value.start + window;
    var used := if opens then 1 else c.value.used + 1;
    Row(if opens then now else c.value.start, used, if used >= limit then Some(now + window) else None)
  }

  function StateAfter(c: Option<Row>, limit: nat, window: nat, times: seq<int>): Option<Row>
    decreases |times|
  {
    if times == [] then c
    else StateAfter(if Blocks(c, times[0]) then c
                    else Some(Consumed(c, limit, window, times[0])), limit, window, times[1..])
  }

  /** The times at which submissions are admitted, out of the times at which they arrive. */
  function Admitted(c: Option<Row>, limit: nat, window: nat, times: seq<int>): seq<int>
    decreases |times|
  {
    if times == [] then []
    else if Blocks(c, times[0]) then Admitted(c, limit, window, times[1..])
    else [times[0]] + Admitted(Some(Consumed(c, limit, window, times[0])), limit, window, times[1..])
  }

  ghost predicate Sorted(s: seq<int>) { forall i, j | 0 <= i < j < |s| :: s[i] <= s[j] }

  /** The most submissions any half-open window-long interval can hold. */
  function Capacity(limit: nat): nat { if limit <= 1 then 1 else 2 * limit - 2 }

  /** Admissions `Capacity(limit)` apart are at least a window apart. */
  ghost predicate Spaced(a: seq<int>, limit: nat, window: nat) {
    forall i | 0 <= i && i + Capacity(limit) < |a| :: a[i] + window <= a[i + Capacity(limit)]
  }

  /** How the row remembers the admissions `a` so far: the last `used` of them form the open window. */
  ghost predicate Remembers(c: Option<Row>, a: seq<int>, limit: nat, window: nat) {
    && Sorted(a) && Spaced(a, limit, window)
    && (c.None? <==> a == [])
    && (c.Some? ==>
          var row, n := c.value, |a|;
          && 1 <= row.used <= limit && row.used <= n
          && a[n - row.used] == row.start && a[n - 1] < row.start + window
          && row.tripped == (if row.used == limit then Some(a[n - 1] + window) else None)
          && (limit >= 2 && n - row.used >= limit - 1 ==> a[n - row.used - (limit - 1)] + window <= row.start))
  }

  /** The next admission is a window away from the one `Capacity(limit)` before it. */
  lemma NextIsSpaced(c: Option<Row>, a: seq<int>, limit: nat, window: nat, now: int, i: nat)
    requires limit >= 1 && window >= 1 && Remembers(c, a, limit, window)
    requires !Blocks(c, now) && i + Capacity(limit) == |a| && a[|a| - 1] <= now
    ensures a[i] + window <= now
  {
    var row, n := c.value, |a|;
    var p := n - row.used;
    if row.used < limit {
      var j := if now >= row.start + window then p else p - (limit - 1);
      assert i <= j && a[i] <= a[j];
    } else {
      assert a[i] <= a[n - 1];
    }
  }

  /** A new window opens a window away from the admission `limit - 1` before it. */
  lemma NewWindowIsSpaced(c: Option<Row>, a: seq<int>, limit: nat, window: nat, now: int)
    requires limit >= 2 && window >= 1 && Remembers(c, a, limit, window) && c.Some?
    requires !Blocks(c, now) && now >= c.value.start + window && |a| >= limit - 1
    ensures a[|a| - (limit - 1)] + window <= now
  {
    var row, n := c.value, |a|;
    if row.used < limit {
      assert a[n - (limit - 1)] <= a[n - row.used];
    } else {
      assert a[n - (limit - 1)] <= a[n - 1];
    }
  }

  lemma AdmissionIsSpaced(c: Option<Row>, a: seq<int>, limit: nat, window: nat, now: int)
    requires limit >= 1 && window >= 1 && Remembers(c, a, limit, window) && !Blocks(c, now)
    requires a != [] ==> a[|a| - 1] <= now
    ensures Sorted(a + [now]) && Spaced(a + [now], limit, window)
  {
    var b, n := a + [now], |a|;
    if n >= Capacity(limit) { NextIsSpaced(c, a, limit, window, now, n - Capacity(limit)); }
    forall i | 0 <= i && i + Capacity(limit) < |b| ensures b[i] + window <= b[i + Capacity(limit)] {
      if i + Capacity(limit) < n { assert a[i] + window <= a[i + Capacity(limit)]; }
    }
  }

  lemma AdmissionKeepsMemory(c: Option<Row>, a: seq<int>, limit: nat, window: nat, now: int)
    requires limit >= 1 && window >= 1 && Remembers(c, a, limit, window)
    requires a != [] ==> a[|a| - 1] <= now
    requires !Blocks(c, now)
    ensures Remembers(Some(Consumed(c, limit, window, now)), a + [now], limit, window)
  {
    AdmissionIsSpaced(c, a, limit, window, now);
    if c.Some? {
      assert now >= c.value.start + window || c.value.used < limit;
      if limit >= 2 && now >= c.value.start + window && |a| >= limit - 1 {
        NewWindowIsSpaced(c, a, limit, window, now);
      }
    }
    hide Sorted, Spaced;
  }

  lemma {:induction false} AdmissionsSpaced(c: Option<Row>, a: seq<int>, limit: nat, window: nat, times: seq<int>)
    requires limit >= 1 && window >= 1 && Remembers(c, a, limit, window)
    requires Sorted(times) && (a != [] && times != [] ==> a[|a| - 1] <= times[0])
    ensures Remembers(StateAfter(c, limit, window, times), a + Admitted(c, limit, window, times), limit, window)
    decreases |times|
  {
    hide Remembers, Consumed;
    if times == [] {
      assert a + [] == a;
    } else if Blocks(c, times[0]) {
      AdmissionsSpaced(c, a, limit, window, times[1..]);
    } else {
      AdmissionKeepsMemory(c, a, limit, window, times[0]);
      var c' := Some(Consumed(c, limit, window, times[0]));
      var rest := Admitted(c', limit, window, times[1..]);
      assert Admitted(c, limit, window, times) == [times[0]] + rest;
      assert StateAfter(c, limit, window, times) == StateAfter(c', limit, window, times[1..]);
      hide Admitted, StateAfter;
      AdmissionsSpaced(c', a + [times[0]], limit, window, times[1..]);
      assert a + ([times[0]] + rest) == (a + [times[0]]) + rest;
    }
  }

  lemma {:induction false} OneMoreAdmission(c: Option<Row>, limit: nat, window: nat, times: seq<int>, t: int)
    requires !Blocks(StateAfter(c, limit, window, times), t)
    ensures var s := StateAfter(c, limit, window, times);
            && StateAfter(c, limit, window, times + [t]) == Some(Consumed(s, limit, window, t))
            && Admitted(c, limit, window, times + [t]) == Admitted(c, limit, window, times) + [t]
    decreases |times|
  {
    if times != [] {
      assert (times + [t])[1..] == times[1..] + [t];
      OneMoreAdmission(if Blocks(c, times[0]) then c
                       else Some(Consumed(c, limit, window, times[0])), limit, window, times[1..], t);
    }
  }

  /** The counter never exceeds the limit, for any nondecreasing arrival times. */
  lemma CounterWithinLimit(limit: nat, window: nat, times: seq<int>)
    requires limit >= 1 && window >= 1 && Sorted(times)
    ensures StateAfter(None, limit, window, times).Some? ==> StateAfter(None, limit, window, times).value.used <= limit
  {
    AdmissionsSpaced(None, [], limit, window, times);
  }

  function Within(a: seq<int>, from: int, to: int): set<nat> {
    set i: nat | i < |a| && from <= a[i] < to
  }

  /** Any half-open interval one window long holds at most `Capacity(limit)` admitted submissions. */
  lemma CircuitBound(limit: nat, window: nat, times: seq<int>, from: int)
    requires limit >= 1 && window >= 1 && Sorted(times)
    ensures |Within(Admitted(None, limit, window, times), from, from + window)| <= Capacity(limit)
  {
    AdmissionsSpaced(None, [], limit, window, times);
    var a := Admitted(None, limit, window, times);
    assert [] + a == a;
    SpacedBound(a, limit, window, from);
  }

  lemma SpacedBound(a: seq<int>, limit: nat, window: nat, from: int)
    requires Sorted(a) && Spaced(a, limit, window)
    ensures |Within(a, from, from + window)| <= Capacity(limit)
  {
    var k := Capacity(limit);
    var inside := Within(a, from, from + window);
    if inside != {} {
      var lo := Least(inside);
      forall i | i in inside ensures lo <= i < lo + k {
        assert lo + k < |a| ==> a[lo] + window <= a[lo + k];
      }
      RangeCard(inside, lo, k);
    }
  }

  // ----- the bound is attained -----

  function Repeat(t: int, k: nat): (s: seq<int>)
    ensures |s| == k && forall i | 0 <= i < k :: s[i] == t
  {
    seq(k, i => t)
  }

  /** One submission at 0, `limit - 2` at the end of its window, `limit` at the start of the next. */
  function BusySchedule(limit: nat, window: nat): seq<int>
    requires limit >= 2 && window >= 1
  {
    [0] + Repeat(window - 1, limit - 2) + Repeat(window, limit)
  }

  lemma {:induction false} RepeatAdmitted(row: Row, limit: nat, window: nat, t: int, k: nat, rest: seq<int>)
    requires row.start <= t < row.start + window && row.tripped.None? && row.used + k <= limit
    ensures var last := if k == 0 then row
                        else Row(row.start, row.used + k, if row.used + k == limit then Some(t + window) else None);
            Admitted(Some(row), limit, window, Repeat(t, k) + rest)
              == Repeat(t, k) + Admitted(Some(last), limit, window, rest)
    decreases k
  {
    var s := Repeat(t, k) + rest;
    if k == 0 {
      assert s == rest;
    } else {
      RepeatGrows(t, k, rest);
      var next := Consumed(Some(row), limit, window, t);
      assert Admitted(Some(row), limit, window, s) == [t] + Admitted(Some(next), limit, window, s[1..]);
      hide Admitted, Repeat;
      var last := Row(row.start, row.used + k, if row.used + k == limit then Some(t + window) else None);
      if k == 1 {
        assert s[1..] == rest && next == last;
      } else {
        RepeatAdmitted(next, limit, window, t, k - 1, rest);
      }
      RepeatGrows(t, k, Admitted(Some(last), limit, window, rest));
    }
  }

  lemma RepeatGrows(t: int, k: nat, rest: seq<int>)
    requires k > 0
    ensures Repeat(t, k) + rest == [t] + (Repeat(t, k - 1) + rest)
            && (Repeat(t, k) + rest)[1..] == Repeat(t, k - 1) + rest
    ensures k == 1 ==> Repeat(t, k - 1) + rest == rest
  {}

  lemma TailAdmitted(limit: nat, window: nat)
    requires limit >= 2 && window >= 2
    ensures var second := Row(0, limit - 1, None);
            Admitted(Some(second), limit, window, Repeat(window, limit)) == Repeat(window, limit)
  {
    var tail := Repeat(window, limit);
    var third := Consumed(Some(Row(0, limit - 1, None)), limit, window, window);
    assert tail[1..] == Repeat(window, limit - 1) + [];
    RepeatAdmitted(third, limit, window, window, limit - 1, []);
    assert tail == [window] + Repeat(window, limit - 1);
  }

  /** For every limit there is traffic that reaches the bound, so it cannot be lowered. */
  lemma BoundIsAttained(limit: nat, window: nat)
    requires limit >= 2 && window >= 2
    ensures Sorted(BusySchedule(limit, window))
    ensures |Within(Admitted(None, limit, window, BusySchedule(limit, window)), window - 1, window - 1 + window)|
            == Capacity(limit)
  {
    var tail := Repeat(window, limit);
    var times := BusySchedule(limit, window);
    var first := Consumed(None, limit, window, 0);
    assert times[1..] == Repeat(window - 1, limit - 2) + tail;
    RepeatAdmitted(first, limit, window, window - 1, limit - 2, tail);
    TailAdmitted(limit, window);
    var a := Admitted(None, limit, window, times);
    assert a == times;
    BusyCount(limit, window);
  }

  lemma BusyCount(limit: nat, window: nat)
    requires limit >= 2 && window >= 2
    ensures |Within(BusySchedule(limit, window), window - 1, window - 1 + window)| == 2 * limit - 2
  {
    var inside := Within(BusySchedule(limit, window), window - 1, window - 1 + window);
    assert forall i: nat :: i in inside <==> 1 <= i < 1 + (2 * limit - 2);
    RangeCard(inside, 1, 2 * limit - 2);
  }
}
