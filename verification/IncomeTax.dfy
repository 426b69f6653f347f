/** The personal income tax branch of the statutory calculator: seven progressive brackets applied to the
    income left after deductions.  Amounts are exact reals (đồng). */
module IncomeTax {

  /** A bracket starts at `lower` and charges `rate` on the part of the income above it. */
  datatype Bracket = Bracket(lower: real, rate: real)

  const PERSONAL_DEDUCTION: real := 11000000.0
  const DEPENDENT_DEDUCTION: real := 4400000.0

  const BRACKETS: seq<Bracket> := [
    Bracket(0.0, 0.05), Bracket(5000000.0, 0.10), Bracket(10000000.0, 0.15), Bracket(18000000.0, 0.20),
    Bracket(32000000.0, 0.25), Bracket(52000000.0, 0.30), Bracket(80000000.0, 0.35)
  ]

  function Min(a: real, b: real): real { if a <= b then a else b }
  function Max(a: real, b: real): real { if a <= b then b else a }

  function Assessable(income: real, dependents: int, insurance: real): real {
    Max(0.0, income - (PERSONAL_DEDUCTION + dependents as real * DEPENDENT_DEDUCTION + insurance))
  }

  /** Thresholds and rates both rise strictly. */
  ghost predicate Progressive(bs: seq<Bracket>) {
    forall i, j :: 0 <= i < j < |bs| ==> bs[i].lower < bs[j].lower && bs[i].rate < bs[j].rate
  }

  /** The part of x that falls inside the first bracket, taxed at its rate, plus the tax in the later ones. */
  function Tiered(bs: seq<Bracket>, x: real): real {
    if |bs| == 0 then 0.0
    else
      var above := Max(0.0, x - bs[0].lower);
      if |bs| == 1 then above * bs[0].rate
      else Min(above, bs[1].lower - bs[0].lower) * bs[0].rate + Tiered(bs[1..], x)
  }

  /** The straight line that continues bracket i in both directions. */
  function Line(bs: seq<Bracket>, i: nat, x: real): real
    requires i < |bs|
  {
    if i == 0 then bs[0].rate * (x - bs[0].lower)
    else (bs[1].lower - bs[0].lower) * bs[0].rate + Line(bs[1..], i - 1, x)
  }

  lemma MulMonotone(a: real, b: real, c: real)
    requires a <= b && 0.0 <= c
    ensures a * c <= b * c
  {
    assert 0.0 <= (b - a) * c;
  }

  lemma TailProgressive(bs: seq<Bracket>)
    requires Progressive(bs) && |bs| > 0
    ensures Progressive(bs[1..])
  {
    forall i, j | 0 <= i < j < |bs[1..]|
      ensures bs[1..][i].lower < bs[1..][j].lower && bs[1..][i].rate < bs[1..][j].rate
    {
      assert bs[1..][i] == bs[i + 1] && bs[1..][j] == bs[j + 1];
    }
  }

  /** Left of the second threshold no line rises above the first one. */
  lemma {:induction false} LinesBelowFirst(bs: seq<Bracket>, i: nat, x: real)
    requires Progressive(bs) && i < |bs| && (|bs| > 1 ==> x <= bs[1].lower)
    ensures Line(bs, i, x) <= Line(bs, 0, x)
    decreases i
  {
    if i > 0 {
      TailProgressive(bs);
      var tail := bs[1..];
      LinesBelowFirst(tail, i - 1, x);
      FirstLineAhead(bs, x);
    }
  }

  /** Two neighbouring lines cross at the threshold between them. */
  lemma FirstLineAhead(bs: seq<Bracket>, x: real)
    requires Progressive(bs) && |bs| > 1 && x <= bs[1].lower
    ensures (bs[1].lower - bs[0].lower) * bs[0].rate + Line(bs[1..], 0, x) <= Line(bs, 0, x)
  {
    Crossing(bs[0].rate, bs[1].rate, bs[0].lower, bs[1].lower, x);
  }

  lemma Crossing(low: real, high: real, start: real, mid: real, x: real)
    requires low <= high && x <= mid
    ensures (mid - start) * low + high * (x - mid) <= low * (x - start)
  {
    MulMonotone(low, high, mid - x);
    assert (mid - start) * low + low * (x - mid) == low * (x - start);
  }

  lemma {:induction false} NoTaxBelow(bs: seq<Bracket>, x: real)
    requires Progressive(bs) && |bs| > 0 && x <= bs[0].lower
    ensures Tiered(bs, x) == 0.0
    decreases |bs|
  {
    if |bs| > 1 {
      TailProgressive(bs);
      NoTaxBelow(bs[1..], x);
    }
  }

  /** From the second threshold on, the second line lies above the first. */
  lemma FirstLineOvertaken(bs: seq<Bracket>, x: real)
    requires Progressive(bs) && |bs| > 1 && bs[1].lower <= x
    ensures Line(bs, 0, x) <= (bs[1].lower - bs[0].lower) * bs[0].rate + Line(bs[1..], 0, x)
  {
    MulMonotone(bs[0].rate, bs[1].rate, x - bs[1].lower);
    assert bs[0].rate * (x - bs[0].lower)
      == (bs[1].lower - bs[0].lower) * bs[0].rate + bs[0].rate * (x - bs[1].lower);
  }

  /** What a second bracket does: it takes over where the first one is full. */
  lemma FullOrFirst(bs: seq<Bracket>, x: real)
    requires Progressive(bs) && |bs| > 1 && bs[0].lower <= x
    ensures bs[1].lower <= x ==>
              Tiered(bs, x) == (bs[1].lower - bs[0].lower) * bs[0].rate + Tiered(bs[1..], x)
    ensures x < bs[1].lower ==> Tiered(bs, x) == Line(bs, 0, x)
  {
    if x < bs[1].lower {
      TailProgressive(bs);
      NoTaxBelow(bs[1..], x);
    }
  }

  lemma LaterLine(bs: seq<Bracket>, i: nat, x: real)
    requires 0 < i < |bs|
    ensures Line(bs, i, x) == (bs[1].lower - bs[0].lower) * bs[0].rate + Line(bs[1..], i - 1, x)
  {
  }

  /** The tiered sum is the upper envelope of its lines: no line exceeds it and one meets it. */
  lemma {:induction false} TieredIsEnvelope(bs: seq<Bracket>, x: real) returns (k: nat)
    requires Progressive(bs) && |bs| > 0 && bs[0].lower <= x
    ensures k < |bs| && Tiered(bs, x) == Line(bs, k, x)
    ensures forall i :: 0 <= i < |bs| ==> Line(bs, i, x) <= Tiered(bs, x)
    decreases |bs|
  {
    if |bs| == 1 {
      k := 0;
    } else {
      hide Line, Tiered;
      FullOrFirst(bs, x);
      if bs[1].lower <= x {
        TailProgressive(bs);
        var later := TieredIsEnvelope(bs[1..], x);
        k := later + 1;
        LaterLine(bs, k, x);
        FirstLineOvertaken(bs, x);
        assert Line(bs[1..], 0, x) <= Tiered(bs[1..], x);
        assert Line(bs, 0, x) <= Tiered(bs, x);
        forall i | 0 < i < |bs|
          ensures Line(bs, i, x) <= Tiered(bs, x)
        {
          assert Line(bs[1..], i - 1, x) <= Tiered(bs[1..], x);
          LaterLine(bs, i, x);
        }
      } else {
        k := 0;
        assert Line(bs, 0, x) <= Tiered(bs, x);
        forall i | 0 < i < |bs|
          ensures Line(bs, i, x) <= Tiered(bs, x)
        {
          LinesBelowFirst(bs, i, x);
        }
      }
    }
  }

  lemma {:induction false} LineSlope(bs: seq<Bracket>, i: nat, x: real, y: real)
    requires i < |bs|
    ensures Line(bs, i, y) - Line(bs, i, x) == bs[i].rate * (y - x)
    decreases i
  {
    if i > 0 {
      LineSlope(bs[1..], i - 1, x, y);
    } else {
      assert bs[0].rate * (y - bs[0].lower) - bs[0].rate * (x - bs[0].lower) == bs[0].rate * (y - x);
    }
  }

  /** What a rate takes of a rise in income. */
  function Share(rate: real, rise: real): real { rate * rise }

  lemma LineShare(bs: seq<Bracket>, i: nat, x: real, y: real)
    requires i < |bs|
    ensures Line(bs, i, y) - Line(bs, i, x) == Share(bs[i].rate, y - x)
  {
    LineSlope(bs, i, x, y);
  }

  lemma RatesRise(bs: seq<Bracket>, i: nat, rise: real)
    requires Progressive(bs) && i < |bs| && 0.0 <= rise
    ensures Share(bs[0].rate, rise) <= Share(bs[i].rate, rise) <= Share(bs[|bs| - 1].rate, rise)
  {
    MulMonotone(bs[0].rate, bs[i].rate, rise);
    MulMonotone(bs[i].rate, bs[|bs| - 1].rate, rise);
  }

  /** Of two lines, the one met at the left bounds the rise of the tax from below, the one met at the right from
      above. */
  lemma TieredShare(bs: seq<Bracket>, x: real, y: real)
    requires Progressive(bs) && |bs| > 0 && bs[0].lower <= x <= y
    ensures Share(bs[0].rate, y - x) <= Tiered(bs, y) - Tiered(bs, x) <= Share(bs[|bs| - 1].rate, y - x)
  {
    hide Tiered, Line, Progressive, Share;
    var i := TieredIsEnvelope(bs, x);
    var j := TieredIsEnvelope(bs, y);
    LineShare(bs, i, x, y);
    LineShare(bs, j, x, y);
    RatesRise(bs, i, y - x);
    RatesRise(bs, j, y - x);
    assert Line(bs, i, y) <= Tiered(bs, y) && Line(bs, j, x) <= Tiered(bs, x);
  }

  /** Every extra đồng is taxed at a rate between the first and the last one of the table. */
  lemma TieredSlope(bs: seq<Bracket>, x: real, y: real)
    requires Progressive(bs) && |bs| > 0 && bs[0].lower <= x <= y
    ensures bs[0].rate * (y - x) <= Tiered(bs, y) - Tiered(bs, x) <= bs[|bs| - 1].rate * (y - x)
  {
    TieredShare(bs, x, y);
  }

  /** A weighted mean of two values, and the facts about it that need multiplication. */
  function Mix(a: real, b: real, t: real): real { t * a + (1.0 - t) * b }

  lemma MixBounds(a: real, b: real, c: real, d: real, t: real)
    requires 0.0 <= t <= 1.0 && a <= c && b <= d
    ensures Mix(a, b, t) <= Mix(c, d, t)
  {
    var s := 1.0 - t;
    assert Mix(c, d, t) - Mix(a, b, t) == t * (c - a) + s * (d - b);
    assert 0.0 <= t * (c - a) && 0.0 <= s * (d - b);
  }

  lemma MixConstant(a: real, t: real)
    ensures Mix(a, a, t) == a
  {
  }

  lemma MixAffine(r: real, x: real, y: real, lx: real, ly: real, lz: real, t: real)
    requires lx - lz == Share(r, x - Mix(x, y, t)) && ly - lz == Share(r, y - Mix(x, y, t))
    ensures lz == Mix(lx, ly, t)
  {
    var u, v := x - Mix(x, y, t), y - Mix(x, y, t);
    assert t * u + (1.0 - t) * v == 0.0;
    assert t * (r * u) + (1.0 - t) * (r * v) == r * (t * u + (1.0 - t) * v);
    assert t * (lx - lz) + (1.0 - t) * (ly - lz) == 0.0;
  }

  /** Convexity: averaging two incomes never raises the tax above the average of the two taxes. */
  lemma TieredConvex(bs: seq<Bracket>, x: real, y: real, t: real)
    requires Progressive(bs) && |bs| > 0 && bs[0].lower <= x && bs[0].lower <= y && 0.0 <= t <= 1.0
    ensures Tiered(bs, Mix(x, y, t)) <= Mix(Tiered(bs, x), Tiered(bs, y), t)
  {
    hide Tiered, Line, Progressive, Mix, Share;
    var z := Mix(x, y, t);
    MixBounds(bs[0].lower, bs[0].lower, x, y, t);
    MixConstant(bs[0].lower, t);
    var k := TieredIsEnvelope(bs, z);
    var i := TieredIsEnvelope(bs, x);
    var j := TieredIsEnvelope(bs, y);
    LineShare(bs, k, z, x);
    LineShare(bs, k, z, y);
    MixAffine(bs[k].rate, x, y, Line(bs, k, x), Line(bs, k, y), Line(bs, k, z), t);
    MixBounds(Line(bs, k, x), Line(bs, k, y), Tiered(bs, x), Tiered(bs, y), t);
  }

  /** The fixed deduction that turns each rate into the tax: the lines of the table in slope-intercept form. */
  const QUICK_DEDUCTIONS: seq<real> := [0.0, 250000.0, 750000.0, 1650000.0, 3250000.0, 5850000.0, 9850000.0]

  lemma BracketsAreProgressive()
    ensures Progressive(BRACKETS)
  {
  }

  lemma QuickDeductionLines(i: nat, x: real)
    requires i < 7
    ensures Line(BRACKETS, i, x) == BRACKETS[i].rate * x - QUICK_DEDUCTIONS[i]
  {
    LineSlope(BRACKETS, i, BRACKETS[i].lower, x);
    var b := BRACKETS;
    assert b[1..][1..] == b[2..] && b[2..][1..] == b[3..] && b[3..][1..] == b[4..];
    assert b[4..][1..] == b[5..] && b[5..][1..] == b[6..];
  }

  /** The calculator's accumulation: one guarded step per bracket. */
  method CalculateTax(income: real, dependents: int, insurance: real) returns (assessable: real, tax: real)
    ensures assessable == Assessable(income, dependents, insurance)
    ensures tax == Tiered(BRACKETS, assessable)
    ensures forall i :: 0 <= i < 7 ==> BRACKETS[i].rate * assessable - QUICK_DEDUCTIONS[i] <= tax
    ensures exists i :: 0 <= i < 7 && tax == BRACKETS[i].rate * assessable - QUICK_DEDUCTIONS[i]
  {
    var personalDeduction := 11000000.0;
    var dependentDeduction := dependents as real * 4400000.0;
    var totalDeduction := personalDeduction + dependentDeduction + insurance;
    assessable := Max(0.0, income - totalDeduction);

    tax := 0.0;
    if assessable > 0.0 {
      tax := tax + Min(assessable, 5000000.0) * 0.05;
    }
    if assessable > 5000000.0 {
      tax := tax + Min(assessable - 5000000.0, 5000000.0) * 0.10;
    }
    if assessable > 10000000.0 {
      tax := tax + Min(assessable - 10000000.0, 8000000.0) * 0.15;
    }
    if assessable > 18000000.0 {
      tax := tax + Min(assessable - 18000000.0, 14000000.0) * 0.20;
    }
    if assessable > 32000000.0 {
      tax := tax + Min(assessable - 32000000.0, 20000000.0) * 0.25;
    }
    if assessable > 52000000.0 {
      tax := tax + Min(assessable - 52000000.0, 28000000.0) * 0.30;
    }
    if assessable > 80000000.0 {
      tax := tax + (assessable - 80000000.0) * 0.35;
    }
    SevenSteps(assessable);
    HighestLine(assessable);
    hide Tiered;
  }

  lemma HighestLine(x: real)
    requires 0.0 <= x
    ensures forall i :: 0 <= i < 7 ==> BRACKETS[i].rate * x - QUICK_DEDUCTIONS[i] <= Tiered(BRACKETS, x)
    ensures exists i :: 0 <= i < 7 && Tiered(BRACKETS, x) == BRACKETS[i].rate * x - QUICK_DEDUCTIONS[i]
  {
    var k := TieredIsEnvelope(BRACKETS, x);
    hide Line, Tiered;
    forall i | 0 <= i < 7
      ensures Line(BRACKETS, i, x) == BRACKETS[i].rate * x - QUICK_DEDUCTIONS[i]
    {
      QuickDeductionLines(i, x);
    }
    assert Tiered(BRACKETS, x) == BRACKETS[k].rate * x - QUICK_DEDUCTIONS[k];
  }

  /** The recursive sum over the table, written out. */
  lemma SevenSteps(x: real)
    ensures Tiered(BRACKETS, x) ==
            Min(Max(0.0, x), 5000000.0) * 0.05 + Min(Max(0.0, x - 5000000.0), 5000000.0) * 0.10
            + Min(Max(0.0, x - 10000000.0), 8000000.0) * 0.15 + Min(Max(0.0, x - 18000000.0), 14000000.0) * 0.20
            + Min(Max(0.0, x - 32000000.0), 20000000.0) * 0.25 + Min(Max(0.0, x - 52000000.0), 28000000.0) * 0.30
            + Max(0.0, x - 80000000.0) * 0.35
  {
    var b := BRACKETS;
    assert b[1..][1..] == b[2..] && b[2..][1..] == b[3..] && b[3..][1..] == b[4..];
    assert b[4..][1..] == b[5..] && b[5..][1..] == b[6..];
    assert Tiered(b[6..], x) == Max(0.0, x - 80000000.0) * 0.35;
    assert Tiered(b[5..], x) == Min(Max(0.0, x - 52000000.0), 28000000.0) * 0.30 + Tiered(b[6..], x);
    assert Tiered(b[4..], x) == Min(Max(0.0, x - 32000000.0), 20000000.0) * 0.25 + Tiered(b[5..], x);
    assert Tiered(b[3..], x) == Min(Max(0.0, x - 18000000.0), 14000000.0) * 0.20 + Tiered(b[4..], x);
    assert Tiered(b[2..], x) == Min(Max(0.0, x - 10000000.0), 8000000.0) * 0.15 + Tiered(b[3..], x);
    assert Tiered(b[1..], x) == Min(Max(0.0, x - 5000000.0), 5000000.0) * 0.10 + Tiered(b[2..], x);
  }

  /** Earning more always leaves more: income after tax is strictly increasing in gross income, whatever the
      deductions, and keeps at least 65 % of the difference. */
  lemma NetIncomeStrictlyIncreasing(a: real, b: real, dependents: int, insurance: real)
    requires a < b
    ensures a - Tiered(BRACKETS, Assessable(a, dependents, insurance))
            < b - Tiered(BRACKETS, Assessable(b, dependents, insurance))
    ensures 0.65 * (b - a) <= (b - Tiered(BRACKETS, Assessable(b, dependents, insurance)))
                              - (a - Tiered(BRACKETS, Assessable(a, dependents, insurance)))
  {
    BracketsAreProgressive();
    var x, y := Assessable(a, dependents, insurance), Assessable(b, dependents, insurance);
    assert 0.0 <= x <= y && y - x <= b - a;
    TieredSlope(BRACKETS, x, y);
  }

  /** On the statutory table: monotone, slope within 5 % and 35 %, and convex. */
  lemma StatutoryTaxShape(x: real, y: real, t: real)
    requires 0.0 <= x <= y && 0.0 <= t <= 1.0
    ensures 0.05 * (y - x) <= Tiered(BRACKETS, y) - Tiered(BRACKETS, x) <= 0.35 * (y - x)
    ensures Tiered(BRACKETS, Mix(x, y, t)) <= Mix(Tiered(BRACKETS, x), Tiered(BRACKETS, y), t)
  {
    BracketsAreProgressive();
    TieredSlope(BRACKETS, x, y);
    TieredConvex(BRACKETS, x, y, t);
  }
}
