/**
 The accidents-by-type bar chart's arithmetic (load_accidents_by_types):
 the total over all types, each type's percentage share of it, and where a
 bar's label goes — inside the bar for the very large counts, to the right
 of the bar end otherwise. The bar scale is a function from a count to the
 pixel position of the bar end.
 */
module TypeBreakdown {
  import opened Wrappers
  import opened Seqs

  /** One row of the per-type counts. */
  datatype TypeCount = TypeCount(kind: string, count: int)

  function CountOf(d: TypeCount): int { d.count }

  /**
   The sum of all rows' counts, accumulated from the first row; with no
   negative count, no row's count exceeds it.
   */
  function Total(data: seq<TypeCount>): (t: int)
    ensures (forall j :: 0 <= j < |data| ==> data[j].count >= 0) ==>
      forall j :: 0 <= j < |data| ==> data[j].count <= t
  {
    SumOfAtLeastEach(data, CountOf);
    SumOf(data, CountOf)
  }

  /** count / total * 100; None where JavaScript gives NaN or Infinity (a zero total). */
  function Share(count: int, total: int): (s: Option<real>)
    ensures s.Some? <==> total != 0
    ensures s.Some? ==> s.value * total as real == count as real * 100.0
  {
    if total == 0 then None else Some(count as real / total as real * 100.0)
  }

  /** The sum of the shares of all rows, against a non-zero total. */
  function ShareSum(data: seq<TypeCount>, total: int): real
    requires total != 0
  {
    if data == [] then 0.0
    else ShareSum(data[..|data| - 1], total) + Share(data[|data| - 1].count, total).value
  }

  /** Scaling by 100 / t distributes over a sum. */
  lemma ScaleDistributes(s: real, c: real, t: real)
    requires t != 0.0
    ensures (s + c) / t * 100.0 == s / t * 100.0 + c / t * 100.0
  {
    assert (s + c) / t == s / t + c / t;
  }

  /** A whole against itself is 100 percent. */
  lemma WholeIsHundred(t: real)
    requires t != 0.0
    ensures t / t * 100.0 == 100.0
  {
    assert t / t == 1.0;
  }

  /** The shares add up to the rows' sum, scaled by 100 / total. */
  lemma {:induction false} ShareSumScalesSum(data: seq<TypeCount>, total: int)
    requires total != 0
    ensures ShareSum(data, total) == SumOf(data, CountOf) as real / total as real * 100.0
  {
    if data != [] {
      var init, last := data[..|data| - 1], data[|data| - 1];
      ShareSumScalesSum(init, total);
      ScaleDistributes(SumOf(init, CountOf) as real, last.count as real, total as real);
    }
  }

  /** Against their own non-zero total, the shares of all types add up to exactly 100. */
  lemma SharesSumToHundred(data: seq<TypeCount>)
    requires Total(data) != 0
    ensures ShareSum(data, Total(data)) == 100.0
  {
    var total := Total(data);
    assert total == SumOf(data, CountOf);
    ShareSumScalesSum(data, total);
    WholeIsHundred(total as real);
  }

  /** Non-negative counts: every share lies between 0 and 100. */
  lemma ShareBounds(data: seq<TypeCount>, i: nat)
    requires forall j :: 0 <= j < |data| ==> data[j].count >= 0
    requires i < |data| && Total(data) != 0
    ensures 0.0 <= Share(data[i].count, Total(data)).value <= 100.0
  {
    var c, t := data[i].count, Total(data);
    assert 0 <= c <= t;
    MeanBetween(c, t, 0, 1);
  }

  /** Counts above this are labelled inside their bar. */
  const InsideThreshold: int := 900000

  /** A label's left edge and its text colour. */
  datatype Label = Label(x: real, fill: string)

  const White: string := "white"
  const Dark: string := "#333333"

  function Max(a: real, b: real): real
  {
    if a >= b then a else b
  }

  /** The label of a bar for `count` whose end is at pixel `barEnd` (x(d.count)). */
  function LabelFor(count: int, barEnd: real): (l: Label)
    ensures count > InsideThreshold <==> l.fill == White
    ensures count <= InsideThreshold ==> l.x >= 3.0 && l.x >= barEnd + 10.0
  {
    if count > InsideThreshold then Label(10.0, White)
    else Label(Max(3.0, barEnd + 10.0), Dark)
  }

  /**
   A label is white and 10 px into the bar exactly when its count is above
   the threshold; every other label is dark, at least 3 px from the axis and
   at least 10 px right of its bar's end, touching one of the two bounds.
   */
  lemma LabelPlacement(count: int, barEnd: real)
    ensures var l := LabelFor(count, barEnd);
      && (count > InsideThreshold <==> l.fill == White)
      && (count > InsideThreshold ==> l.x == 10.0)
      && (count <= InsideThreshold ==>
            && l.fill == Dark
            && l.x >= 3.0 && l.x >= barEnd + 10.0
            && (l.x == 3.0 || l.x == barEnd + 10.0))
  {
  }

  /**
   With an order-preserving bar scale, the outside labels of two bars keep
   the order of the counts: the label of the longer bar is never left of the
   label of the shorter one.
   */
  lemma OutsideLabelsOrdered(a: int, b: int, x: int -> real)
    requires a <= b <= InsideThreshold
    requires x(a) <= x(b)
    ensures LabelFor(a, x(a)).x <= LabelFor(b, x(b)).x
  {
  }
}
