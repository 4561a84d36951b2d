/**
 The in-memory ledger of the investment tracker: an ordered, append-only
 sequence of holdings, and the total value of that sequence.

 Amounts and prices are Python floats in the original; here they are exact
 reals, so rounding of `amount * price_per_unit` is not modelled.
 */
module Portfolio {

  /** One stored holding: the JSON object `{name, amount, price_per_unit}`. */
  datatype Investment = Investment(name: string, amount: real, pricePerUnit: real)

  /** The value one holding contributes to the portfolio total. */
  function Value(inv: Investment): real {
    inv.amount * inv.pricePerUnit
  }

  /** A holding the submission form would accept: a non-empty name and
      strictly positive amount and price. */
  predicate Valid(inv: Investment) {
    |inv.name| > 0 && inv.amount > 0.0 && inv.pricePerUnit > 0.0
  }

  /** Every holding of `p` is one the submission form would accept. */
  predicate AllValid(p: seq<Investment>) {
    forall i :: 0 <= i < |p| ==> Valid(p[i])
  }

  /** No holding of `p` has a negative amount or a negative price. */
  predicate AllNonNegative(p: seq<Investment>) {
    forall i :: 0 <= i < |p| ==> p[i].amount >= 0.0 && p[i].pricePerUnit >= 0.0
  }

  /** Appends one whole record built from the arguments; nothing already in
      the portfolio is edited, moved or removed, and no argument is checked. */
  function Append(p: seq<Investment>, name: string, amount: real, pricePerUnit: real): (r: seq<Investment>)
    ensures |r| == |p| + 1
    ensures forall i :: 0 <= i < |p| ==> r[i] == p[i]
    ensures r[|p|].name == name && r[|p|].amount == amount && r[|p|].pricePerUnit == pricePerUnit
  {
    p + [Investment(name, amount, pricePerUnit)]
  }

  /** The sum of `amount * price_per_unit` over the portfolio, as a
      mathematical sum (first holding plus the total of the rest). */
  function TotalValue(p: seq<Investment>): real {
    if |p| == 0 then 0.0 else Value(p[0]) + TotalValue(p[1..])
  }

  /** When no holding has a negative amount or price, the total is not
      negative. */
  lemma {:induction false} TotalValueNonNegative(p: seq<Investment>)
    requires AllNonNegative(p)
    ensures TotalValue(p) >= 0.0
  {
    if |p| > 0 {
      assert AllNonNegative(p[1..]) by {
        forall i | 0 <= i < |p[1..]| ensures p[1..][i].amount >= 0.0 && p[1..][i].pricePerUnit >= 0.0 {
          assert p[1..][i] == p[i + 1];
        }
      }
      TotalValueNonNegative(p[1..]);
      assert Value(p[0]) >= 0.0;
    }
  }

  /** The total of the empty portfolio is zero. */
  lemma TotalValueOfEmpty()
    ensures TotalValue([]) == 0.0
  {
  }

  /** The total is additive over concatenation. */
  lemma {:induction false} TotalValueConcat(a: seq<Investment>, b: seq<Investment>)
    ensures TotalValue(a + b) == TotalValue(a) + TotalValue(b)
  {
    if |a| == 0 {
      assert a + b == b;
    } else {
      assert (a + b)[0] == a[0];
      assert (a + b)[1..] == a[1..] + b;
      TotalValueConcat(a[1..], b);
    }
  }

  /** The total of a one-holding portfolio is that holding's value. */
  lemma TotalValueOfSingle(inv: Investment)
    ensures TotalValue([inv]) == Value(inv)
  {
    assert [inv][1..] == [];
  }

  /** Adding a holding raises the total by exactly that holding's value. */
  lemma TotalValueAfterAppend(p: seq<Investment>, name: string, amount: real, pricePerUnit: real)
    ensures TotalValue(Append(p, name, amount, pricePerUnit)) == TotalValue(p) + amount * pricePerUnit
  {
    var inv := Investment(name, amount, pricePerUnit);
    assert Append(p, name, amount, pricePerUnit) == p + [inv];
    TotalValueConcat(p, [inv]);
    TotalValueOfSingle(inv);
    assert Value(inv) == amount * pricePerUnit;
  }

  /** A portfolio of accepted submissions has a strictly positive total
      unless it is empty. */
  lemma {:induction false} TotalValueOfValidPortfolio(p: seq<Investment>)
    requires AllValid(p)
    ensures |p| == 0 <==> TotalValue(p) == 0.0
    ensures |p| > 0 ==> TotalValue(p) > 0.0
  {
    if |p| > 0 {
      assert Valid(p[0]);
      assert AllValid(p[1..]) by {
        forall i | 0 <= i < |p[1..]| ensures Valid(p[1..][i]) {
          assert p[1..][i] == p[i + 1];
        }
      }
      TotalValueOfValidPortfolio(p[1..]);
      assert Value(p[0]) > 0.0;
    }
  }

  /** `calculate_total_value`: Python's `sum` over a generator, accumulating
      from the first holding to the last, starting from 0. */
  method CalculateTotalValue(p: seq<Investment>) returns (total: real)
    ensures total == TotalValue(p)
  {
    total := 0.0;
    var i := 0;
    while i < |p|
      invariant 0 <= i <= |p|
      invariant total == TotalValue(p[..i])
    {
      TotalValueConcat(p[..i], [p[i]]);
      TotalValueOfSingle(p[i]);
      assert p[..i] + [p[i]] == p[..i + 1];
      total := total + p[i].amount * p[i].pricePerUnit;
      i := i + 1;
    }
    assert p[..i] == p;
  }
}
