/** Money in whole cents, and rounding to cents: half up, ties away from zero. */
module Amounts {
  import opened Common

  datatype Money = Money(cents: int, currency: string)
  datatype MoneyError = CurrencyMismatch | QuantityNotPositive

  /** Quantisation of an exact amount, given in cents. */
  function Round(x: real): int {
    if x >= 0.0 then (x + 0.5).Floor else -((-x + 0.5).Floor)
  }

  function Abs(x: real): real { if x < 0.0 then -x else x }

  /** The rounded value is the nearest integer; of two equally near ones it is the one further from zero. */
  lemma RoundIsNearest(x: real, n: int)
    ensures Abs(Round(x) as real - x) <= 0.5
    ensures Abs(Round(x) as real - x) <= Abs(n as real - x)
    ensures Abs(Round(x) as real - x) == Abs(n as real - x) && n != Round(x) ==> Abs(n as real) < Abs(Round(x) as real)
  {
    var r := Round(x);
    if x >= 0.0 {
      assert r as real <= x + 0.5 < (r + 1) as real;
    } else {
      assert (-r) as real <= -x + 0.5 < (-r + 1) as real;
    }
    if n > r { assert n as real >= (r + 1) as real; }
    if n < r { assert n as real <= (r - 1) as real; }
  }

  lemma RoundIsOdd(x: real)
    ensures Round(-x) == -Round(x)
  {}

  /** Rounding a whole number of cents again changes nothing. */
  lemma RoundIsIdempotent(n: int)
    ensures Round(n as real) == n
  {
    RoundIsNearest(n as real, n);
  }

  /** What a numeric(20,8) column keeps of a value. */
  function ToEightDecimals(x: real): real { Round(x * 100000000.0) as real / 100000000.0 }

  predicate HasEightDecimals(x: real) { (x * 100000000.0).Floor as real == x * 100000000.0 }

  /** The column keeps exactly the values of at most eight decimals, and what it keeps it keeps again. */
  lemma KeepsEightDecimals(x: real)
    ensures ToEightDecimals(x) == x <==> HasEightDecimals(x)
    ensures HasEightDecimals(ToEightDecimals(x))
  {
    var n := Round(x * 100000000.0);
    assert ToEightDecimals(x) * 100000000.0 == n as real;
    RoundIsIdempotent((x * 100000000.0).Floor);
  }

  function Add(a: Money, b: Money): Result<Money, MoneyError> {
    if a.currency != b.currency then Err(CurrencyMismatch) else Ok(Money(a.cents + b.cents, a.currency))
  }

  function Multiply(m: Money, quantity: real): Result<Money, MoneyError> {
    if quantity <= 0.0 then Err(QuantityNotPositive) else Ok(Money(Round(m.cents as real * quantity), m.currency))
  }

  /** Amounts of one currency add up, and only those; a positive quantity multiplies, to the nearest cent, and
      only such a one. */
  lemma MoneyOutcome(a: Money, b: Money, quantity: real)
    ensures Add(a, b) == if a.currency == b.currency then Ok(Money(a.cents + b.cents, a.currency))
                         else Err(CurrencyMismatch)
    ensures Multiply(a, quantity).Ok? <==> quantity > 0.0
    ensures Multiply(a, quantity).Ok? ==>
              && Multiply(a, quantity).value.currency == a.currency
              && -0.5 <= Multiply(a, quantity).value.cents as real - a.cents as real * quantity <= 0.5
  {
    RoundIsNearest(a.cents as real * quantity, 0);
  }
}

/** Sums over sequences. */
module Sums {
  function Sum<T>(f: T -> int, s: seq<T>): int { if s == [] then 0 else f(s[0]) + Sum(f, s[1..]) }

  lemma {:induction false} SumSplits<T>(f: T -> int, a: seq<T>, b: seq<T>)
    ensures Sum(f, a + b) == Sum(f, a) + Sum(f, b)
  {
    if a == [] {
      assert a + b == b;
    } else {
      assert (a + b)[1..] == a[1..] + b;
      SumSplits(f, a[1..], b);
    }
  }

  lemma SumExtends<T>(f: T -> int, s: seq<T>, x: T)
    ensures Sum(f, s + [x]) == Sum(f, s) + f(x)
  {
    SumSplits(f, s, [x]);
  }

  lemma Without<T>(f: T -> int, s: seq<T>, i: nat)
    requires i < |s|
    ensures var rest := s[..i] + s[i + 1..];
            multiset(rest) == multiset(s) - multiset{s[i]} && Sum(f, s) == Sum(f, rest) + f(s[i])
  {
    assert s == s[..i] + ([s[i]] + s[i + 1..]);
    SumSplits(f, s[..i], s[i + 1..]);
    SumSplits(f, s[..i], [s[i]] + s[i + 1..]);
    assert ([s[i]] + s[i + 1..])[1..] == s[i + 1..];
  }

  lemma WithoutFirst<T>(f: T -> int, s: seq<T>)
    requires s != []
    ensures multiset(s[1..]) == multiset(s) - multiset{s[0]} && Sum(f, s) == Sum(f, s[1..]) + f(s[0])
  {
    assert s == [s[0]] + s[1..];
  }

  lemma Find<T>(a: seq<T>, b: seq<T>) returns (i: nat)
    requires multiset(a) == multiset(b) && a != []
    ensures i < |b| && b[i] == a[0]
  {
    assert a[0] in multiset(b);
    i :| 0 <= i < |b| && b[i] == a[0];
  }

  /** A sum does not depend on the order of its terms. */
  lemma {:induction false} SumPermutes<T>(f: T -> int, a: seq<T>, b: seq<T>)
    requires multiset(a) == multiset(b)
    ensures Sum(f, a) == Sum(f, b)
    decreases |a|
  {
    if a == [] {
      assert |multiset(b)| == 0;
    } else {
      hide Sum;
      var i := Find(a, b);
      var rest := b[..i] + b[i + 1..];
      WithoutFirst(f, a);
      Without(f, b, i);
      SumPermutes(f, a[1..], rest);
    }
  }
}

/** Order lines and the total of an order. */
module OrderTotals {
  import opened Common
  import opened Amounts
  import Sums

  datatype LineData = LineData(id: string, description: string, quantity: real, price: Money)
  /** What the constructor of a line accepts. */
  type Line = l: LineData | l.quantity > 0.0 && l.price.cents >= 0 witness LineData("l", "d", 1.0, Money(0, "RUB"))

  function LineTotal(l: Line): Money { Multiply(l.price, l.quantity).value }

  function ExactLine(l: Line): real { l.price.cents as real * l.quantity }

  function Cents(l: Line): int { LineTotal(l).cents }

  function Sum(lines: seq<Line>): int { Sums.Sum(Cents, lines) }

  function ExactSum(lines: seq<Line>): real { if lines == [] then 0.0 else ExactLine(lines[0]) + ExactSum(lines[1..]) }

  predicate OneCurrency(lines: seq<Line>) { forall l | l in lines :: l.price.currency == lines[0].price.currency }

  /** The total of a non-empty order: the sum of the rounded lines, or an error when currencies differ. */
  function Total(lines: seq<Line>): Result<Money, MoneyError>
    requires lines != []
  {
    if OneCurrency(lines) then Ok(Money(Sum(lines), lines[0].price.currency)) else Err(CurrencyMismatch)
  }

  /** `Order.total`: the running sum over the lines. */
  method ComputeTotal(lines: seq<Line>) returns (total: Result<Money, MoneyError>)
    requires lines != []
    ensures total == Total(lines)
  {
    var result := LineTotal(lines[0]);
    assert lines[..1] == [] + [lines[0]];
    Sums.SumExtends(Cents, [], lines[0]);
    var i := 1;
    while i < |lines|
      invariant 1 <= i <= |lines|
      invariant result == Money(Sum(lines[..i]), lines[0].price.currency)
      invariant forall j | 0 <= j < i :: lines[j].price.currency == lines[0].price.currency
    {
      var added := Add(result, LineTotal(lines[i]));
      if added.Err? {
        assert lines[i] in lines;
        return Err(added.error);
      }
      assert lines[..i + 1] == lines[..i] + [lines[i]];
      Sums.SumExtends(Cents, lines[..i], lines[i]);
      result := added.value;
      i := i + 1;
    }
    assert lines[..i] == lines;
    total := Ok(result);
  }

  /** Rounding line by line moves the total by at most half a cent per line. */
  lemma {:induction false} TotalIsClose(lines: seq<Line>)
    ensures Abs(Sum(lines) as real - ExactSum(lines)) <= |lines| as real * 0.5
  {
    if lines != [] {
      RoundIsNearest(ExactLine(lines[0]), 0);
      TotalIsClose(lines[1..]);
      assert LineTotal(lines[0]).cents == Round(ExactLine(lines[0]));
      assert Sum(lines) == LineTotal(lines[0]).cents + Sum(lines[1..]);
      hide Round, LineTotal, ExactLine;
    }
  }

  function Repeated(l: Line, n: nat): seq<Line> { if n == 0 then [] else [l] + Repeated(l, n - 1) }

  /** The bound is attained: half of one cent, on every line. */
  lemma {:induction false} BoundIsAttained(n: nat)
    ensures var l := LineData("l", "d", 0.5, Money(1, "RUB"));
            Sum(Repeated(l, n)) as real - ExactSum(Repeated(l, n)) == n as real * 0.5
  {
    if n > 0 {
      var l: Line := LineData("l", "d", 0.5, Money(1, "RUB"));
      assert Repeated(l, n)[1..] == Repeated(l, n - 1);
      assert LineTotal(l).cents == 1;
      BoundIsAttained(n - 1);
    }
  }

  /** The order in which the lines are stored or reloaded does not matter, not even for the error. */
  lemma TotalPermutes(a: seq<Line>, b: seq<Line>)
    requires a != [] && b != [] && multiset(a) == multiset(b)
    ensures Total(a) == Total(b)
  {
    Sums.SumPermutes(Cents, a, b);
    assert forall l: Line :: l in a <==> l in multiset(a);
    assert forall l: Line :: l in b <==> l in multiset(b);
    assert a[0] in b && b[0] in a;
  }

  // ----- inserting and reloading -----

  /** The order of line ids. */
  predicate IdBefore(a: string, b: string)
    decreases |a|
  {
    b != [] && (a == [] || a[0] < b[0] || (a[0] == b[0] && IdBefore(a[1..], b[1..])))
  }

  function InsertLine(l: Line, lines: seq<Line>): (r: seq<Line>)
    ensures multiset(r) == multiset(lines) + multiset{l}
  {
    if lines == [] || IdBefore(l.id, lines[0].id) then [l] + lines
    else
      assert lines == [lines[0]] + lines[1..];
      [lines[0]] + InsertLine(l, lines[1..])
  }

  /** The lines sorted by line id. */
  function ByLineId(lines: seq<Line>): (r: seq<Line>)
    ensures multiset(r) == multiset(lines) && |r| == |lines|
  {
    if lines == [] then []
    else
      assert lines == [lines[0]] + lines[1..];
      var r := InsertLine(lines[0], ByLineId(lines[1..]));
      assert |multiset(r)| == |lines|;
      r
  }

  /** The quantity column keeps eight decimals, and the table accepts only what is then still positive. */
  predicate Storable(l: Line) { ToEightDecimals(l.quantity) > 0.0 }

  predicate AllStorable(lines: seq<Line>) { forall l | l in lines :: Storable(l) }

  function KeptLine(l: Line): Line
    requires Storable(l)
  {
    l.(quantity := ToEightDecimals(l.quantity))
  }

  /** The lines as the table keeps them, in the order given. */
  function Kept(lines: seq<Line>): (r: seq<Line>)
    requires AllStorable(lines)
    ensures |r| == |lines| && forall i | 0 <= i < |r| :: r[i] == KeptLine(lines[i])
  {
    seq(|lines|, i requires 0 <= i < |lines| => KeptLine(lines[i]))
  }

  /** The lines of an inserted order as they are read back. */
  function Reloaded(lines: seq<Line>): (r: seq<Line>)
    requires AllStorable(lines)
    ensures |r| == |lines|
  {
    ByLineId(Kept(lines))
  }

  lemma KeptCurrencies(lines: seq<Line>)
    requires AllStorable(lines)
    ensures OneCurrency(Kept(lines)) <==> OneCurrency(lines)
  {
    forall l | l in lines ensures exists k :: k in Kept(lines) && k.price == l.price {
      var i :| 0 <= i < |lines| && lines[i] == l;
      assert Kept(lines)[i] in Kept(lines);
    }
    hide Storable;
  }

  /** The total of an order survives insertion and reloading exactly when the line totals over the kept
      quantities add up to those over the given ones, or there is no total to begin with. */
  lemma ReloadKeepsTotalIff(lines: seq<Line>)
    requires lines != [] && AllStorable(lines)
    ensures Total(Reloaded(lines)) == Total(Kept(lines))
    ensures Total(Reloaded(lines)).Ok? <==> Total(lines).Ok?
    ensures Total(Reloaded(lines)) == Total(lines) <==> !OneCurrency(lines) || Sum(Kept(lines)) == Sum(lines)
  {
    TotalPermutes(Reloaded(lines), Kept(lines));
    KeptCurrencies(lines);
  }

  /** It does when every quantity has at most eight decimals: then the lines are kept as they are. */
  lemma EightDecimalsKeepTotal(lines: seq<Line>)
    requires lines != [] && forall l | l in lines :: HasEightDecimals(l.quantity)
    ensures AllStorable(lines) && Kept(lines) == lines && Total(Reloaded(lines)) == Total(lines)
  {
    forall l | l in lines ensures Storable(l) && KeptLine(l) == l { KeepsEightDecimals(l.quantity); }
    ReloadKeepsTotalIff(lines);
  }

  /** With nine decimals it need not: an order over 1.40 is reloaded as one over 1.00; and a smaller
      quantity cannot be inserted at all. */
  lemma ReloadMovesTotal()
    ensures var l: Line := LineData("l", "d", 0.000000014, Money(10000000000, "RUB"));
            && Storable(l) && AllStorable([l])
            && Total([l]) == Ok(Money(140, "RUB")) && Total(Reloaded([l])) == Ok(Money(100, "RUB"))
            && !Storable(l.(quantity := 0.000000004))
  {
    var l: Line := LineData("l", "d", 0.000000014, Money(10000000000, "RUB"));
    assert Round(l.quantity * 100000000.0) == 1;
    assert KeptLine(l).quantity == 0.00000001;
    assert Cents(l) == 140 && Cents(KeptLine(l)) == 100;
    assert Kept([l]) == [KeptLine(l)];
    ReloadKeepsTotalIff([l]);
  }

  // ----- the stored form -----

  predicate DistinctIds(lines: seq<Line>) { forall i, j | 0 <= i < j < |lines| :: lines[i].id != lines[j].id }

  predicate SortedById(lines: seq<Line>) { forall i, j | 0 <= i < j < |lines| :: IdBefore(lines[i].id, lines[j].id) }

  /** Lines that insertion and reloading leave as they are. */
  predicate InStoredForm(lines: seq<Line>) {
    SortedById(lines) && forall l | l in lines :: HasEightDecimals(l.quantity)
  }

  lemma {:induction false} IdOrder(a: string, b: string, c: string)
    ensures a == b || IdBefore(a, b) || IdBefore(b, a)
    ensures !(IdBefore(a, b) && IdBefore(b, a)) && !IdBefore(a, a)
    ensures IdBefore(a, b) && IdBefore(b, c) ==> IdBefore(a, c)
    decreases |a| + |b| + |c|
  {
    if a != [] && b != [] && c != [] {
      IdOrder(a[1..], b[1..], c[1..]);
    } else if a != [] && b != [] {
      IdOrder(a[1..], b[1..], c);
    } else if a != [] {
      IdOrder(a[1..], b, c);
    }
    if a != [] && b != [] && a[0] == b[0] && a[1..] == b[1..] { assert a == [a[0]] + a[1..] && b == [b[0]] + b[1..]; }
  }

  lemma {:induction false} InsertKeepsSorted(l: Line, lines: seq<Line>)
    requires SortedById(lines) && forall k | k in lines :: k.id != l.id
    ensures SortedById(InsertLine(l, lines))
  {
    if lines != [] {
      IdOrder(l.id, lines[0].id, l.id);
      if IdBefore(l.id, lines[0].id) {
        forall k | k in lines ensures IdBefore(l.id, k.id) { IdOrder(l.id, lines[0].id, k.id); }
      } else {
        InsertKeepsSorted(l, lines[1..]);
        var r := InsertLine(l, lines[1..]);
        forall k | k in r ensures IdBefore(lines[0].id, k.id) { assert k in multiset(lines[1..]) + multiset{l}; }
      }
    }
  }

  lemma {:induction false} ByLineIdIsSorted(lines: seq<Line>)
    requires DistinctIds(lines)
    ensures SortedById(ByLineId(lines))
  {
    if lines != [] {
      ByLineIdIsSorted(lines[1..]);
      forall k | k in ByLineId(lines[1..]) ensures k.id != lines[0].id { assert k in multiset(lines[1..]); }
      InsertKeepsSorted(lines[0], ByLineId(lines[1..]));
    }
  }

  lemma {:induction false} SortedIsFixed(lines: seq<Line>)
    requires SortedById(lines)
    ensures ByLineId(lines) == lines
  {
    if lines != [] { SortedIsFixed(lines[1..]); }
  }

  lemma ReloadedIsStoredForm(lines: seq<Line>)
    requires AllStorable(lines) && DistinctIds(lines)
    ensures InStoredForm(Reloaded(lines))
  {
    ByLineIdIsSorted(Kept(lines));
    forall l | l in Reloaded(lines) ensures HasEightDecimals(l.quantity) {
      assert l in multiset(Kept(lines));
      var i :| 0 <= i < |lines| && Kept(lines)[i] == l;
      KeepsEightDecimals(lines[i].quantity);
    }
  }

  /** Inserting and reloading gives the same lines exactly when they are in stored form: sorted by line id,
      with quantities of at most eight decimals. */
  lemma StoredFormIff(lines: seq<Line>)
    requires AllStorable(lines) && DistinctIds(lines)
    ensures Reloaded(lines) == lines <==> InStoredForm(lines)
  {
    ReloadedIsStoredForm(lines);
    if InStoredForm(lines) {
      forall i | 0 <= i < |lines| ensures Kept(lines)[i] == lines[i] {
        assert lines[i] in lines;
        KeepsEightDecimals(lines[i].quantity);
      }
      assert Kept(lines) == lines;
      SortedIsFixed(lines);
    }
  }

  /** Saving an order inserts its lines anew, which leaves them as they were. */
  lemma ReloadedStays(lines: seq<Line>)
    requires AllStorable(lines) && DistinctIds(lines)
    ensures AllStorable(Reloaded(lines)) && Reloaded(Reloaded(lines)) == Reloaded(lines)
  {
    var r := Reloaded(lines);
    ReloadedIsStoredForm(lines);
    forall l | l in r ensures Storable(l) { KeepsEightDecimals(l.quantity); }
    forall i, j | 0 <= i < j < |r| ensures r[i].id != r[j].id { IdOrder(r[i].id, r[j].id, r[i].id); }
    StoredFormIff(r);
  }
}

/** The economic outcome of a list of entries. */
module Economics {
  import opened Common
  import opened Amounts
  import Sums

  datatype Kind = ProviderCost | AiCost | OrderCost | Revenue | Adjustment
  datatype Entry = Entry(entity: string, kind: Kind, amount: Money, source: string)
  datatype Summary = Summary(revenue: Money, costs: Money)

  predicate Earns(k: Kind) { k == Revenue || k == Adjustment }

  function EarnedBy(e: Entry): int { if Earns(e.kind) then e.amount.cents else 0 }

  function SpentBy(e: Entry): int { if Earns(e.kind) then 0 else e.amount.cents }

  function Earned(entries: seq<Entry>): int { Sums.Sum(EarnedBy, entries) }

  function Spent(entries: seq<Entry>): int { Sums.Sum(SpentBy, entries) }

  predicate AllIn(entries: seq<Entry>, currency: string) { forall e | e in entries :: e.amount.currency == currency }

  function Summarize(entries: seq<Entry>, currency: string): Result<Summary, MoneyError> {
    if AllIn(entries, currency) then Ok(Summary(Money(Earned(entries), currency), Money(Spent(entries), currency)))
    else Err(CurrencyMismatch)
  }

  /** `summarize`: running sums of revenue and costs over the entries. */
  method ComputeSummary(entries: seq<Entry>, currency: string) returns (summary: Result<Summary, MoneyError>)
    ensures summary == Summarize(entries, currency)
  {
    var revenue, costs := Money(0, currency), Money(0, currency);
    var i := 0;
    while i < |entries|
      invariant 0 <= i <= |entries|
      invariant revenue == Money(Earned(entries[..i]), currency) && costs == Money(Spent(entries[..i]), currency)
      invariant AllIn(entries[..i], currency)
    {
      var e := entries[i];
      if e.amount.currency != currency {
        assert e in entries;
        return Err(CurrencyMismatch);
      }
      assert entries[..i + 1] == entries[..i] + [e];
      Sums.SumExtends(EarnedBy, entries[..i], e);
      Sums.SumExtends(SpentBy, entries[..i], e);
      if Earns(e.kind) {
        revenue := Add(revenue, e.amount).value;
      } else {
        costs := Add(costs, e.amount).value;
      }
      i := i + 1;
    }
    assert entries[..i] == entries;
    summary := Ok(Summary(revenue, costs));
  }

  /** A joint summary exists exactly when both parts have one, and is their sum. */
  lemma SummaryIsAdditive(a: seq<Entry>, b: seq<Entry>, currency: string)
    ensures Summarize(a + b, currency).Ok? <==> Summarize(a, currency).Ok? && Summarize(b, currency).Ok?
    ensures Summarize(a + b, currency).Ok? ==>
              var x, y := Summarize(a, currency).value, Summarize(b, currency).value;
              var z := Summarize(a + b, currency).value;
              Ok(z.revenue) == Add(x.revenue, y.revenue) && Ok(z.costs) == Add(x.costs, y.costs)
  {
    Sums.SumSplits(EarnedBy, a, b);
    Sums.SumSplits(SpentBy, a, b);
    assert forall e | e in a :: e in a + b;
    assert forall e | e in b :: e in a + b;
  }

  /** The order of the entries does not matter. */
  lemma SummaryPermutes(a: seq<Entry>, b: seq<Entry>, currency: string)
    requires multiset(a) == multiset(b)
    ensures Summarize(a, currency) == Summarize(b, currency)
  {
    Sums.SumPermutes(EarnedBy, a, b);
    Sums.SumPermutes(SpentBy, a, b);
    assert forall e :: e in a <==> e in multiset(a);
    assert forall e :: e in b <==> e in multiset(b);
  }

  /** There is a summary exactly if all entries are in the currency, and it is empty for no entries. */
  lemma SummaryIff(entries: seq<Entry>, currency: string)
    ensures Summarize(entries, currency).Ok?
            <==> forall i | 0 <= i < |entries| :: entries[i].amount.currency == currency
    ensures Summarize([], currency) == Ok(Summary(Money(0, currency), Money(0, currency)))
  {
    if forall i | 0 <= i < |entries| :: entries[i].amount.currency == currency {
      assert AllIn(entries, currency);
    }
  }

  /** One more entry moves one of the two sums by its amount: revenue and adjustments the revenue, all others the
      costs. An entry in another currency leaves no summary. */
  lemma EntryMoves(entries: seq<Entry>, e: Entry, currency: string)
    requires Summarize(entries, currency).Ok?
    ensures var before, after := Summarize(entries, currency).value, Summarize(entries + [e], currency);
            var amount := e.amount.cents;
            if e.amount.currency != currency then after == Err(CurrencyMismatch)
            else
              match e.kind
              case Revenue => after == Ok(before.(revenue := Money(before.revenue.cents + amount, currency)))
              case Adjustment => after == Ok(before.(revenue := Money(before.revenue.cents + amount, currency)))
              case ProviderCost => after == Ok(before.(costs := Money(before.costs.cents + amount, currency)))
              case AiCost => after == Ok(before.(costs := Money(before.costs.cents + amount, currency)))
              case OrderCost => after == Ok(before.(costs := Money(before.costs.cents + amount, currency)))
  {
    Sums.SumExtends(EarnedBy, entries, e);
    Sums.SumExtends(SpentBy, entries, e);
    assert e in entries + [e];
    assert AllIn(entries + [e], currency) <==> AllIn(entries, currency) && e.amount.currency == currency;
  }
}
