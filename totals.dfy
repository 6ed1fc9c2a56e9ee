/** The totals calculator of the order service (`_dec`, `_calc_totales`).
    Decimal arithmetic is modelled by `real`: exact rational arithmetic. */
module Totals {
  import opened Common
  import opened Domain

  /** `_dec(v)`: the number given, or the default zero when it is missing. */
  function Dec(v: Option<real>): real
  {
    match v
    case Some(x) => x
    case None => 0.0
  }

  /** Line value: unit price times quantity. */
  function LineValue(it: LineInput): real
  {
    Dec(it.precioUnitario) * (it.cantidad as real)
  }

  /** Line value less the discount taken off it. */
  function LineNet(it: LineInput): real
  {
    var li := LineValue(it);
    li - li * Dec(it.descuentoPct) / 100.0
  }

  /** Tax charged on the discounted (net) amount. */
  function LineTax(it: LineInput): real
  {
    LineNet(it) * Dec(it.impuestoPct) / 100.0
  }

  /** The sum of `f` over the lines: the reference meaning of a total. */
  function SumOf(items: seq<LineInput>, f: LineInput -> real): real
  {
    if items == [] then 0.0 else f(items[0]) + SumOf(items[1..], f)
  }

  /** The loop of `_calc_totales`: both accumulators advanced line by line. */
  function Accumulate(items: seq<LineInput>, subtotal: real, impuestos: real): (real, real)
  {
    if items == [] then (subtotal, impuestos)
    else Accumulate(items[1..], subtotal + LineNet(items[0]), impuestos + LineTax(items[0]))
  }

  datatype Totals = Totals(subtotal: real, impuestos: real, total: real)

  /** `_calc_totales`: both accumulators start at zero; the grand total is
      added once, after the loop. */
  function CalcTotales(items: seq<LineInput>): (t: Totals)
    ensures t.subtotal == SumOf(items, LineNet)
    ensures t.impuestos == SumOf(items, LineTax)
    ensures t.total == t.subtotal + t.impuestos
  {
    AccumulateIsSum(items, 0.0, 0.0);
    var acc := Accumulate(items, 0.0, 0.0);
    Totals(acc.0, acc.1, acc.0 + acc.1)
  }

  /** The loop lemma: running the loop from accumulators (s, i) adds the sums
      of the remaining lines to them. */
  lemma {:induction false} AccumulateIsSum(items: seq<LineInput>, s: real, i: real)
    ensures Accumulate(items, s, i) == (s + SumOf(items, LineNet), i + SumOf(items, LineTax))
  {
    if items != [] {
      AccumulateIsSum(items[1..], s + LineNet(items[0]), i + LineTax(items[0]));
    }
  }

  lemma {:induction false} SumOfConcat(a: seq<LineInput>, b: seq<LineInput>, f: LineInput -> real)
    ensures SumOf(a + b, f) == SumOf(a, f) + SumOf(b, f)
  {
    if a != [] {
      assert (a + b)[1..] == a[1..] + b;
      SumOfConcat(a[1..], b, f);
    } else {
      assert a + b == b;
    }
  }

  /** The order of the lines does not matter to a sum. */
  lemma {:induction false} SumOfPermutation(a: seq<LineInput>, b: seq<LineInput>, f: LineInput -> real)
    requires multiset(a) == multiset(b)
    ensures SumOf(a, f) == SumOf(b, f)
    decreases |a|
  {
    if a == [] {
      assert |b| == |multiset(b)| == 0;
    } else {
      var x := a[0];
      assert x in multiset(b);
      var j :| 0 <= j < |b| && b[j] == x;
      var rest := b[..j] + b[j + 1..];
      assert b == b[..j] + [x] + b[j + 1..];
      assert a == [x] + a[1..];
      assert multiset(b) == multiset(b[..j]) + multiset{x} + multiset(b[j + 1..]);
      assert multiset(rest) == multiset(b[..j]) + multiset(b[j + 1..]);
      assert multiset(a) == multiset{x} + multiset(a[1..]);
      assert multiset(a[1..]) == multiset(a) - multiset{x};
      assert multiset(rest) == multiset(b) - multiset{x};
      SumOfPermutation(a[1..], rest, f);
      SumOfConcat(b[..j], b[j + 1..], f);
      SumOfConcat(b[..j] + [x], b[j + 1..], f);
      SumOfConcat(b[..j], [x], f);
    }
  }

  /** Summing the lines in any order gives the same totals. */
  lemma TotalsOrderIndependent(a: seq<LineInput>, b: seq<LineInput>)
    requires multiset(a) == multiset(b)
    ensures CalcTotales(a) == CalcTotales(b)
  {
    SumOfPermutation(a, b, LineNet);
    SumOfPermutation(a, b, LineTax);
  }

  /** The totals of two batches of lines add up to the totals of both. */
  lemma TotalsOfConcat(a: seq<LineInput>, b: seq<LineInput>)
    ensures CalcTotales(a + b).subtotal == CalcTotales(a).subtotal + CalcTotales(b).subtotal
    ensures CalcTotales(a + b).impuestos == CalcTotales(a).impuestos + CalcTotales(b).impuestos
    ensures CalcTotales(a + b).total == CalcTotales(a).total + CalcTotales(b).total
  {
    SumOfConcat(a, b, LineNet);
    SumOfConcat(a, b, LineTax);
  }

  /** No lines: all three totals are zero. */
  lemma EmptyTotals()
    ensures CalcTotales([]) == Totals(0.0, 0.0, 0.0)
  {
  }

  /** A missing price, discount or tax counts as zero. */
  lemma MissingNumbersAreZero(it: LineInput)
    ensures it.precioUnitario.None? ==> LineValue(it) == 0.0 && LineNet(it) == 0.0 && LineTax(it) == 0.0
    ensures it.descuentoPct.None? ==> LineNet(it) == LineValue(it)
    ensures it.impuestoPct.None? ==> LineTax(it) == 0.0
  {
  }

  /** The discount comes off the line value before tax, and tax is charged on
      what remains: net = p·q·(1 − d/100), tax = net·t/100. */
  lemma DiscountBeforeTax(it: LineInput)
    ensures var pq := Dec(it.precioUnitario) * (it.cantidad as real);
            var d := Dec(it.descuentoPct);
            var t := Dec(it.impuestoPct);
            && LineNet(it) == pq * (1.0 - d / 100.0)
            && LineTax(it) == pq * (1.0 - d / 100.0) * (t / 100.0)
            && LineNet(it) + LineTax(it) == pq * (1.0 - d / 100.0) * (1.0 + t / 100.0)
  {
  }

  /** Quantity 2, unit price 10, tax 10 %, discount 5 %: 19, 1.9 and 20.9. */
  lemma WorkedExample(producto: Uuid)
    ensures CalcTotales([LineInput(producto, 2, Some(10.0), Some(10.0), Some(5.0), None)])
         == Totals(19.0, 1.9, 20.9)
  {
    var line := LineInput(producto, 2, Some(10.0), Some(10.0), Some(5.0), None);
    assert LineValue(line) == 20.0;
    assert LineNet(line) == 19.0;
    assert LineTax(line) == 1.9;
    assert SumOf([line], LineNet) == LineNet(line) + SumOf([], LineNet);
    assert SumOf([line], LineTax) == LineTax(line) + SumOf([], LineTax);
  }

  /** Non-negative price and quantity, percentages between 0 and 100. */
  predicate LineInRange(it: LineInput)
  {
    && it.cantidad >= 0
    && Dec(it.precioUnitario) >= 0.0
    && 0.0 <= Dec(it.descuentoPct) <= 100.0
    && 0.0 <= Dec(it.impuestoPct) <= 100.0
  }

  /** A percentage between 0 and 100 of a non-negative amount lies between 0 and the amount. */
  lemma PercentBounds(x: real, pct: real, part: real)
    requires x >= 0.0 && 0.0 <= pct <= 100.0
    requires part == x * pct / 100.0
    ensures 0.0 <= part <= x
  {
    assert x * pct >= 0.0;
    assert x * (100.0 - pct) >= 0.0;
    assert x * pct <= x * 100.0;
  }

  lemma LineBounds(it: LineInput)
    requires LineInRange(it)
    ensures 0.0 <= LineTax(it) <= LineNet(it) <= LineValue(it)
  {
    var p := Dec(it.precioUnitario);
    var q := it.cantidad as real;
    assert p * q >= 0.0;
    var li := LineValue(it);
    var dsc := li * Dec(it.descuentoPct) / 100.0;
    PercentBounds(li, Dec(it.descuentoPct), dsc);
    var net := LineNet(it);
    assert net == li - dsc;
    var tax := net * Dec(it.impuestoPct) / 100.0;
    PercentBounds(net, Dec(it.impuestoPct), tax);
    assert LineTax(it) == tax;
  }

  /** With every line in range, tax never exceeds the subtotal, and the
      subtotal never exceeds the undiscounted value of the lines. */
  lemma {:induction false} TotalsBounds(items: seq<LineInput>)
    requires forall i :: 0 <= i < |items| ==> LineInRange(items[i])
    ensures var t := CalcTotales(items);
            0.0 <= t.impuestos <= t.subtotal <= SumOf(items, LineValue) && t.subtotal <= t.total
  {
    if items != [] {
      LineBounds(items[0]);
      TotalsBounds(items[1..]);
    }
  }
}
