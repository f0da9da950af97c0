/** The per-client fixed-window budget of the public intake. Windows are aligned to the epoch. */
module Budget {
  import opened Common

  datatype Slot = Slot(client: string, start: int)
  type Rates = map<Slot, nat>

  function WindowStart(window: nat, now: int): int
    requires window >= 1
  {
    now - now % window
  }

  /** The table after one more use, or none when the slot is exhausted. */
  function Consume(rates: Rates, client: string, limit: nat, window: nat, now: int): Option<Rates>
    requires window >= 1
  {
    var slot := Slot(client, WindowStart(window, now));
    if slot !in rates then Some(rates[slot := 1])
    else if rates[slot] < limit then Some(rates[slot := rates[slot] + 1])
    else None
  }

  datatype Use = Use(client: string, at: int)

  function RatesAfter(rates: Rates, limit: nat, window: nat, uses: seq<Use>): Rates
    requires window >= 1
    decreases |uses|
  {
    if uses == [] then rates
    else
      var next := Consume(rates, uses[0].client, limit, window, uses[0].at);
      RatesAfter(if next.Some? then next.value else rates, limit, window, uses[1..])
  }

  /** The uses that are let through. */
  function Granted(rates: Rates, limit: nat, window: nat, uses: seq<Use>): seq<Use>
    requires window >= 1
    decreases |uses|
  {
    if uses == [] then []
    else
      var next := Consume(rates, uses[0].client, limit, window, uses[0].at);
      if next.None? then Granted(rates, limit, window, uses[1..])
      else [uses[0]] + Granted(next.value, limit, window, uses[1..])
  }

  function CountIn(uses: seq<Use>, client: string, from: int, to: int): nat {
    if uses == [] then 0
    else (if uses[0].client == client && from <= uses[0].at < to then 1 else 0) + CountIn(uses[1..], client, from, to)
  }

  function Used(rates: Rates, client: string, start: int): nat {
    if Slot(client, start) in rates then rates[Slot(client, start)] else 0
  }

  lemma SameWindow(window: nat, now: int, start: int)
    requires window >= 1 && start % window == 0
    ensures WindowStart(window, now) == start <==> start <= now < start + window
  {
    var q, r := start / window, now / window;
    assert start == q * window + 0 && now == r * window + now % window;
    if start <= now < start + window {
      DivisionIsUnique(window, r, now % window, q, now - start);
    }
  }

  /** The counter of a slot is exactly what was granted in its window, and stays within the limit. */
  lemma {:induction false} SlotCountsGrants(rates: Rates, limit: nat, window: nat, uses: seq<Use>, client: string,
                                            start: int)
    requires window >= 1 && limit >= 1 && start % window == 0 && Used(rates, client, start) <= limit
    ensures Used(RatesAfter(rates, limit, window, uses), client, start)
            == Used(rates, client, start) + CountIn(Granted(rates, limit, window, uses), client, start, start + window)
            <= limit
    decreases |uses|
  {
    if uses != [] {
      var u := uses[0];
      var next := Consume(rates, u.client, limit, window, u.at);
      SameWindow(window, u.at, start);
      SlotCountsGrants(if next.Some? then next.value else rates, limit, window, uses[1..], client, start);
      if next.Some? {
        var g := Granted(next.value, limit, window, uses[1..]);
        assert ([u] + g)[1..] == g;
      }
    }
  }

  lemma {:induction false} CountSplits(uses: seq<Use>, client: string, from: int, mid: int, to: int)
    requires from <= mid <= to
    ensures CountIn(uses, client, from, to) == CountIn(uses, client, from, mid) + CountIn(uses, client, mid, to)
  {
    if uses != [] { CountSplits(uses[1..], client, from, mid, to); }
  }

  lemma WindowStartIsMultiple(window: nat, now: int)
    requires window >= 1
    ensures var start := WindowStart(window, now);
            start % window == 0 && (start + window) % window == 0 && start <= now < start + window
  {
    var q := now / window;
    assert now == q * window + now % window;
    MultipleOf(q, window);
    MultipleOf(q + 1, window);
    assert (q + 1) * window == q * window + window;
  }

  /** A bound on the two aligned windows around `from` bounds the interval that starts there. */
  lemma AlignedBound(g: seq<Use>, limit: nat, window: nat, client: string, from: int)
    requires window >= 1
    requires var start := WindowStart(window, from);
             && CountIn(g, client, start, start + window) <= limit
             && CountIn(g, client, start + window, start + window + window) <= limit
    ensures CountIn(g, client, from, from + window) <= if window == 1 then limit else 2 * limit
  {
    hide CountIn, WindowStart;
    var start := WindowStart(window, from);
    WindowStartIsMultiple(window, from);
    CountSplits(g, client, from, start + window, from + window);
    CountSplits(g, client, start, from, start + window);
    CountSplits(g, client, start + window, from + window, start + window + window);
  }

  /** Whatever order and times the uses come in, no client gets more than twice its limit in any
      half-open interval of window length, and not more than its limit when the window is one tick. */
  lemma BudgetBound(limit: nat, window: nat, uses: seq<Use>, client: string, from: int)
    requires window >= 1 && limit >= 1
    ensures CountIn(Granted(map[], limit, window, uses), client, from, from + window)
            <= if window == 1 then limit else 2 * limit
  {
    hide Granted, CountIn, WindowStart, RatesAfter, Used;
    var start := WindowStart(window, from);
    WindowStartIsMultiple(window, from);
    NothingUsed(map[], client, start);
    NothingUsed(map[], client, start + window);
    SlotCountsGrants(map[], limit, window, uses, client, start);
    SlotCountsGrants(map[], limit, window, uses, client, start + window);
    AlignedBound(Granted(map[], limit, window, uses), limit, window, client, from);
  }

  lemma MultipleOf(q: int, window: nat)
    requires window >= 1
    ensures (q * window) % window == 0
  {
    var n := q * window;
    assert n == (n / window) * window + n % window;
    DivisionIsUnique(window, n / window, n % window, q, 0);
  }

  lemma {:induction false} CountAppends(uses: seq<Use>, u: Use, client: string, from: int, to: int)
    ensures CountIn(uses + [u], client, from, to)
            == CountIn(uses, client, from, to) + if u.client == client && from <= u.at < to then 1 else 0
  {
    if uses == [] {
      assert uses + [u] == [u];
    } else {
      assert (uses + [u])[1..] == uses[1..] + [u];
      CountAppends(uses[1..], u, client, from, to);
    }
  }

  lemma NothingUsed(rates: Rates, client: string, start: int)
    requires Slot(client, start) !in rates
    ensures Used(rates, client, start) == 0
  {}

  function Repeated(u: Use, n: nat): seq<Use> { if n == 0 then [] else [u] + Repeated(u, n - 1) }

  /** Uses are granted as long as their slot has room; `rest` is the table they leave. */
  lemma {:induction false} RepeatedAreGranted(rates: Rates, limit: nat, window: nat, u: Use, n: nat, more: seq<Use>)
    returns (rest: Rates)
    requires window >= 1 && Used(rates, u.client, WindowStart(window, u.at)) + n <= limit
    ensures Granted(rates, limit, window, Repeated(u, n) + more) == Repeated(u, n) + Granted(rest, limit, window, more)
    ensures forall s | s != Slot(u.client, WindowStart(window, u.at)) :: s in rest <==> s in rates
    decreases n
  {
    var uses := Repeated(u, n) + more;
    if n == 0 {
      assert uses == more;
      rest := rates;
    } else {
      assert uses[0] == u && uses[1..] == Repeated(u, n - 1) + more;
      var next := Consume(rates, u.client, limit, window, u.at);
      assert next.Some? && Used(next.value, u.client, WindowStart(window, u.at)) + n - 1 <= limit;
      assert forall s | s != Slot(u.client, WindowStart(window, u.at)) :: s in next.value <==> s in rates;
      hide Consume, Used, WindowStart;
      rest := RepeatedAreGranted(next.value, limit, window, u, n - 1, more);
    }
  }

  lemma {:induction false} CountRepeated(u: Use, n: nat, more: seq<Use>, from: int, to: int)
    requires from <= u.at < to
    ensures CountIn(Repeated(u, n) + more, u.client, from, to) == n + CountIn(more, u.client, from, to)
  {
    if n == 0 {
      assert Repeated(u, n) + more == more;
    } else {
      assert (Repeated(u, n) + more)[1..] == Repeated(u, n - 1) + more;
      CountRepeated(u, n - 1, more, from, to);
    }
  }

  lemma FirstWindows(window: nat)
    requires window >= 2
    ensures WindowStart(window, window - 1) == 0 && WindowStart(window, window) == window
  {}

  /** The bound is attained: the limit at the last tick of one window, and again at the first of the next. */
  lemma BudgetIsAttained(limit: nat, window: nat, client: string)
    requires window >= 2 && limit >= 1
    ensures var uses := Repeated(Use(client, window - 1), limit) + Repeated(Use(client, window), limit);
            CountIn(Granted(map[], limit, window, uses), client, window - 1, window - 1 + window) == 2 * limit
  {
    hide WindowStart, Granted, CountIn, Used, Repeated;
    var first, second := Use(client, window - 1), Use(client, window);
    var late := Repeated(second, limit);
    FirstWindows(window);
    NothingUsed(map[], client, 0);
    var rest := RepeatedAreGranted(map[], limit, window, first, limit, late);
    assert late + [] == late;
    NothingUsed(rest, client, window);
    var last := RepeatedAreGranted(rest, limit, window, second, limit, []);
    NothingGranted(last, limit, window);
    assert Granted(rest, limit, window, late) == late + [];
    CountRepeated(first, limit, late, window - 1, window - 1 + window);
    CountRepeated(second, limit, [], window - 1, window - 1 + window);
    NothingCounted(client, window - 1, window - 1 + window);
  }

  lemma NothingCounted(client: string, from: int, to: int)
    ensures CountIn([], client, from, to) == 0
  {}

  lemma NothingGranted(rates: Rates, limit: nat, window: nat)
    requires window >= 1
    ensures Granted(rates, limit, window, []) == []
  {}
}
