/** The arithmetic of an invoice: overage lines, rounding, and the total. */
module Overage {
  import opened Totals
  import opened Usage

  /** What is included by meter, and the overage rate by meter; None where the entry names no unit amount. */
  datatype Price = Price(amount: int, included: map<string, real>, rates: map<string, Option<int>>)

  datatype Line = Line(meter: string, quantity: real, included: real, unitAmount: int, amount: int)

  /** The whole number x is rounded to: the nearest, and of two as near the one farther from zero. */
  predicate RoundsTo(x: real, n: int) {
    if 0.0 <= x then n as real - 0.5 <= x < n as real + 0.5 else n as real - 0.5 < x <= n as real + 0.5
  }

  /** `quantize(Decimal("1"), rounding=ROUND_HALF_UP)`. */
  function RoundHalfUp(x: real): (r: int)
    ensures RoundsTo(x, r)
  {
    if x < 0.0 then -((0.5 - x).Floor) else (x + 0.5).Floor
  }

  lemma RoundingIsMonotone(x: real, y: real)
    requires x <= y
    ensures RoundHalfUp(x) <= RoundHalfUp(y)
  {
  }

  /** Halves go away from zero, and integers stay. */
  lemma RoundingOfHalves(n: int)
    requires 0 <= n
    ensures RoundHalfUp(n as real + 0.5) == n + 1 && RoundHalfUp(-(n as real) - 0.5) == -n - 1
    ensures RoundHalfUp(n as real) == n && RoundHalfUp(-(n as real)) == -n
  {
  }

  function Included(price: Price, meter: string): real {
    if meter in price.included then price.included[meter] else 0.0
  }

  /** `max(Decimal(0), quantity - included)`. */
  function Billable(price: Price, meter: string, quantity: real): real {
    var over := quantity - Included(price, meter);
    if over < 0.0 then 0.0 else over
  }

  predicate Rated(price: Price, meter: string) { meter in price.rates && price.rates[meter].Some? }

  function UnitAmount(price: Price, meter: string): int {
    if Rated(price, meter) then price.rates[meter].value else 0
  }

  predicate Charged(price: Price, item: (string, real)) {
    Billable(price, item.0, item.1) != 0.0 && Rated(price, item.0)
  }

  function LineFor(price: Price, item: (string, real)): Line {
    var billable := Billable(price, item.0, item.1);
    Line(item.0, billable, Included(price, item.0), UnitAmount(price, item.0),
         RoundHalfUp(billable * UnitAmount(price, item.0) as real))
  }

  /** `calculate_overage`: one line for each rated meter used beyond what is included. */
  function OverageLines(price: Price, usage: seq<(string, real)>): seq<Line> {
    if usage == [] then []
    else
      var before, last := OverageLines(price, usage[..|usage| - 1]), usage[|usage| - 1];
      if Charged(price, last) then before + [LineFor(price, last)] else before
  }

  function LineSum(lines: seq<Line>): int {
    if lines == [] then 0 else LineSum(lines[..|lines| - 1]) + lines[|lines| - 1].amount
  }

  /** The total `generate_invoice` writes: the base amount and the overage lines. */
  function InvoiceTotal(price: Price, usage: seq<(string, real)>): int {
    price.amount + LineSum(OverageLines(price, usage))
  }

  // ----- what is charged, by the price alone -----

  /** What a meter may be used for nothing. */
  predicate Free(price: Price, meter: string, quantity: real) {
    if meter in price.included then price.included[meter] == quantity else quantity == 0.0
  }

  /** The meter has a rate and is used beyond what is free. */
  predicate Over(price: Price, item: (string, real)) {
    && item.0 in price.rates && price.rates[item.0] != None
    && (if item.0 in price.included then price.included[item.0] < item.1 else 0.0 < item.1)
  }

  /** The line bills what was used beyond the free quantity at the meter's rate, rounded. */
  ghost predicate Bills(price: Price, item: (string, real), line: Line) {
    && line.meter == item.0 && Free(price, item.0, line.included) && line.quantity == item.1 - line.included
    && item.0 in price.rates && price.rates[item.0] == Some(line.unitAmount)
    && RoundsTo(line.unitAmount as real * (item.1 - line.included), line.amount)
  }

  /** The items used beyond what is free, in order. */
  function OverItems(price: Price, usage: seq<(string, real)>): seq<(string, real)> {
    if usage == [] then []
    else
      var last := usage[|usage| - 1];
      OverItems(price, usage[..|usage| - 1]) + if Over(price, last) then [last] else []
  }

  lemma OverIsCharged(price: Price, item: (string, real))
    ensures Over(price, item) <==> Charged(price, item)
    ensures Over(price, item) ==> Bills(price, item, LineFor(price, item))
  {
    var free := Included(price, item.0);
    if Over(price, item) {
      assert (item.1 - free) * UnitAmount(price, item.0) as real == UnitAmount(price, item.0) as real * (item.1 - free);
    }
  }

  /** There is one line for each rated meter used beyond what is free, in order, billing just that; and no other line. */
  lemma {:induction false} LinesBillTheOver(price: Price, usage: seq<(string, real)>)
    ensures var lines, over := OverageLines(price, usage), OverItems(price, usage);
      |lines| == |over| && forall k :: 0 <= k < |lines| ==> Bills(price, over[k], lines[k])
  {
    if usage != [] {
      LinesBillTheOver(price, usage[..|usage| - 1]);
      OverIsCharged(price, usage[|usage| - 1]);
    }
  }

  method CalculateOverage(price: Price, usage: seq<(string, real)>) returns (lines: seq<Line>)
    ensures lines == OverageLines(price, usage)
    ensures |lines| == |OverItems(price, usage)| && forall k :: 0 <= k < |lines| ==> Bills(price, OverItems(price, usage)[k], lines[k])
  {
    LinesBillTheOver(price, usage);
    lines := [];
    for i := 0 to |usage|
      invariant lines == OverageLines(price, usage[..i])
    {
      assert usage[..i + 1][..i] == usage[..i] && usage[..i + 1][i] == usage[i];
      var (meter, quantity) := usage[i];
      var included := if meter in price.included then price.included[meter] else 0.0;
      var billable := if quantity - included < 0.0 then 0.0 else quantity - included;
      if billable == 0.0 || meter !in price.rates || price.rates[meter].None? {
        continue;
      }
      var unitAmount := price.rates[meter].value;
      assert billable == Billable(price, meter, quantity) && unitAmount == UnitAmount(price, meter);
      var line := Line(meter, billable, included, unitAmount, RoundHalfUp(billable * unitAmount as real));
      assert Charged(price, usage[i]) && line == LineFor(price, usage[i]);
      lines := lines + [line];
    }
    assert usage[..|usage|] == usage;
  }

  /** Used within what is free, or without a rate, nothing is added to the price. */
  lemma {:induction false} NothingOverCostsThePrice(price: Price, usage: seq<(string, real)>)
    requires forall i :: 0 <= i < |usage| ==> !Over(price, usage[i])
    ensures OverageLines(price, usage) == [] && InvoiceTotal(price, usage) == price.amount
  {
    if usage != [] {
      NothingOverCostsThePrice(price, usage[..|usage| - 1]);
      OverIsCharged(price, usage[|usage| - 1]);
    }
  }

  /** What a meter costs before rounding: its rate for all that goes beyond what is free. */
  function ExactCharge(price: Price, item: (string, real)): real {
    if !Over(price, item) then 0.0
    else if item.0 in price.included then price.rates[item.0].value as real * (item.1 - price.included[item.0])
    else price.rates[item.0].value as real * item.1
  }

  /** The charge without any rounding. */
  function ExactTotal(price: Price, usage: seq<(string, real)>): real {
    if usage == [] then price.amount as real
    else ExactTotal(price, usage[..|usage| - 1]) + ExactCharge(price, usage[|usage| - 1])
  }

  lemma LineSumAppend(lines: seq<Line>, line: Line)
    ensures LineSum(lines + [line]) == LineSum(lines) + line.amount
  {
    assert (lines + [line])[..|lines|] == lines;
  }

  /** An uncharged meter adds nothing, a charged one adds its line. */
  lemma TotalOneMore(price: Price, usage: seq<(string, real)>)
    requires usage != []
    ensures var front, last := usage[..|usage| - 1], usage[|usage| - 1];
      InvoiceTotal(price, usage) == InvoiceTotal(price, front) + (if Charged(price, last) then LineFor(price, last).amount else 0)
  {
    var last := usage[|usage| - 1];
    if Charged(price, last) { LineSumAppend(OverageLines(price, usage[..|usage| - 1]), LineFor(price, last)); }
  }

  /** Off by at most half a minor unit a line. */
  predicate NearlyExact(total: int, exact: real, lines: nat) { exact - 0.5 * lines as real <= total as real <= exact + 0.5 * lines as real }

  /** The total is off the exact charge by at most half a minor unit for each overage line. */
  lemma {:induction false} TotalIsNearlyExact(price: Price, usage: seq<(string, real)>)
    ensures NearlyExact(InvoiceTotal(price, usage), ExactTotal(price, usage), |OverageLines(price, usage)|)
  {
    if usage != [] {
      var front, last := usage[..|usage| - 1], usage[|usage| - 1];
      TotalIsNearlyExact(price, front);
      TotalOneMore(price, usage);
      OverIsCharged(price, last);
      if Over(price, last) {
        var amount := LineFor(price, last).amount;
        assert RoundsTo(ExactCharge(price, last), amount);
        assert ExactCharge(price, last) - 0.5 <= amount as real <= ExactCharge(price, last) + 0.5;
      }
    }
  }

  ghost predicate NonNegativeRates(price: Price) { forall meter :: Rated(price, meter) ==> 0 <= UnitAmount(price, meter) }

  /** The same meters, each used at least as much. */
  ghost predicate AtLeast(more: seq<(string, real)>, less: seq<(string, real)>) {
    |more| == |less| && forall i :: 0 <= i < |less| ==> more[i].0 == less[i].0 && less[i].1 <= more[i].1
  }

  function MeterAmount(price: Price, item: (string, real)): int { if Charged(price, item) then LineFor(price, item).amount else 0 }

  lemma Scaled(a: real, b: real, k: real)
    requires a <= b && 0.0 <= k
    ensures a * k <= b * k
  {
  }

  function RoundedCharge(price: Price, item: (string, real)): int {
    RoundHalfUp(Billable(price, item.0, item.1) * UnitAmount(price, item.0) as real)
  }

  /** What a quantity is charged, whether or not it gets a line. */
  lemma MeterAmountIsRounded(price: Price, item: (string, real))
    ensures MeterAmount(price, item) == RoundedCharge(price, item)
  {
    RoundingOfHalves(0);
  }

  lemma BillableIsMonotone(price: Price, meter: string, less: real, more: real)
    requires less <= more
    ensures Billable(price, meter, less) <= Billable(price, meter, more)
  {
  }

  lemma RoundedProduct(a: real, b: real, k: int)
    requires a <= b && 0 <= k
    ensures RoundHalfUp(a * k as real) <= RoundHalfUp(b * k as real)
  {
    Scaled(a, b, k as real);
    RoundingIsMonotone(a * k as real, b * k as real);
  }

  lemma RoundedChargeIsMonotone(price: Price, less: (string, real), more: (string, real))
    requires 0 <= UnitAmount(price, less.0) && less.0 == more.0 && less.1 <= more.1
    ensures RoundedCharge(price, less) <= RoundedCharge(price, more)
  {
    var a, b, k := Billable(price, less.0, less.1), Billable(price, more.0, more.1), UnitAmount(price, less.0);
    BillableIsMonotone(price, less.0, less.1, more.1);
    RoundedProduct(a, b, k);
    assert RoundedCharge(price, less) == RoundHalfUp(a * k as real) && RoundedCharge(price, more) == RoundHalfUp(b * k as real);
  }

  lemma MeterAmountIsMonotone(price: Price, less: (string, real), more: (string, real))
    requires NonNegativeRates(price) && less.0 == more.0 && less.1 <= more.1
    ensures MeterAmount(price, less) <= MeterAmount(price, more)
  {
    MeterAmountIsRounded(price, less);
    MeterAmountIsRounded(price, more);
    RoundedChargeIsMonotone(price, less, more);
  }

  /** With non-negative rates, using more never costs less. */
  lemma {:induction false} TotalIsMonotone(price: Price, less: seq<(string, real)>, more: seq<(string, real)>)
    requires NonNegativeRates(price) && AtLeast(more, less)
    ensures InvoiceTotal(price, less) <= InvoiceTotal(price, more)
  {
    if less != [] {
      var n := |less| - 1;
      TotalIsMonotone(price, less[..n], more[..n]);
      TotalOneMore(price, less);
      TotalOneMore(price, more);
      MeterAmountIsMonotone(price, less[n], more[n]);
    }
  }

  // ----- from events to the invoice -----

  /** The aggregates of a period, each meter once. */
  ghost predicate IsUsageOf(u: Meters, period: int, usage: seq<(string, real)>) {
    && (forall i :: 0 <= i < |usage| ==> (usage[i].0, period) in u.aggregates && usage[i].1 == u.aggregates[(usage[i].0, period)])
    && (forall i, j :: 0 <= i < j < |usage| ==> usage[i].0 != usage[j].0)
    && (forall slot :: slot in u.aggregates && slot.1 == period ==> exists i :: 0 <= i < |usage| && usage[i].0 == slot.0)
  }

  /** The exact charge for the events of a period, meter by meter. */
  function EventCharge(price: Price, events: seq<UsageEvent>, period: int, meters: seq<string>): real {
    if meters == [] then price.amount as real
    else
      var m := meters[|meters| - 1];
      EventCharge(price, events, period, meters[..|meters| - 1]) + ExactCharge(price, (m, EventSum(events, (m, period))))
  }

  function MetersOf(usage: seq<(string, real)>): seq<string> { seq(|usage|, i requires 0 <= i < |usage| => usage[i].0) }

  lemma {:induction false} ChargeByEvents(price: Price, u: Meters, period: int, usage: seq<(string, real)>)
    requires forall i :: 0 <= i < |usage| ==> usage[i].1 == EventSum(u.events, (usage[i].0, period))
    ensures ExactTotal(price, usage) == EventCharge(price, u.events, period, MetersOf(usage))
  {
    if usage != [] {
      ChargeByEvents(price, u, period, usage[..|usage| - 1]);
      assert MetersOf(usage)[..|usage| - 1] == MetersOf(usage[..|usage| - 1]);
    }
  }

  /** After any run of readings, the invoice is within half a minor unit a line of what the recorded events cost exactly. */
  lemma InvoiceChargesTheEvents(price: Price, log: seq<Reading>, period: int, usage: seq<(string, real)>)
    requires IsUsageOf(After(log), period, usage)
    ensures NearlyExact(InvoiceTotal(price, usage), EventCharge(price, After(log).events, period, MetersOf(usage)), |OverageLines(price, usage)|)
  {
    AlwaysSummed(log);
    ChargeByEvents(price, After(log), period, usage);
    TotalIsNearlyExact(price, usage);
  }
}
