/** The 4px grid: the base unit and the conversions between grid units and pixels. */
module Grid {
  import opened Wrappers
  import opened Decimal
  import opened Tables

  /** The base spacing increment, in pixels. */
  const GRID_UNIT: int := 4

  /**
   * JavaScript's `%`: the remainder of truncating division, whose sign
   * follows the dividend (unlike Dafny's Euclidean `%`).
   */
  function JsRemainder(a: int, b: int): (r: int)
    requires b > 0
    ensures -b < r < b
    ensures a >= 0 ==> r >= 0
    ensures a <= 0 ==> r <= 0
    ensures (a - r) % b == 0
  {
    if a >= 0 then
      RemainderCongruent(a, b);
      a % b
    else
      RemainderCongruent(-a, b);
      -((-a) % b)
  }

  /** A number and its Euclidean remainder differ by a multiple of the divisor. */
  lemma RemainderCongruent(a: int, b: int)
    requires b > 0
    ensures (a - a % b) % b == 0
    ensures (-(a - a % b)) % b == 0
  {
    assert a - a % b == (a / b) * b;
    MultipleRemainder(a / b, b);
    assert -(a - a % b) == (-(a / b)) * b;
    MultipleRemainder(-(a / b), b);
  }

  /** A whole multiple of `b` leaves no remainder. */
  lemma MultipleRemainder(q: int, b: int)
    requires b > 0
    ensures (q * b) % b == 0
  {
    var k := q - (q * b) / b;
    assert b * k == (q * b) % b;
  }

  /** `units * GRID_UNIT` rendered as a pixel value. */
  function CreateGridValue(units: int): (s: string)
    ensures ParsePx(s) == Some(units * GRID_UNIT)
  {
    PxRoundTrip(units * GRID_UNIT);
    IntToString(units * GRID_UNIT) + "px"
  }

  /** Whether a pixel value is a whole number of grid units (`value % GRID_UNIT === 0`). */
  predicate IsGridAligned(value: int) {
    JsRemainder(value, GRID_UNIT) == 0
  }

  /** Alignment is divisibility by the grid unit, for negative values too. */
  lemma IsGridAlignedIffMultiple(value: int)
    ensures IsGridAligned(value) <==> value % GRID_UNIT == 0
    ensures IsGridAligned(value) <==> exists k :: value == k * GRID_UNIT
  {
    if value < 0 {
      assert (-value) % 4 == 0 <==> value % 4 == 0;
    }
    if value % GRID_UNIT == 0 {
      assert value == (value / GRID_UNIT) * GRID_UNIT;
    }
  }

  /** `createGridValue(n)` is `px(n * GRID_UNIT)`, and its pixel amount is always on the grid. */
  lemma CreateGridValueIsAlignedPx(units: int)
    ensures CreateGridValue(units) == Px(units * GRID_UNIT)
    ensures exists p :: ParsePx(CreateGridValue(units)) == Some(p) && IsGridAligned(p)
  {
    IsGridAlignedIffMultiple(units * GRID_UNIT);
  }

  lemma GridExamples()
    ensures GRID_UNIT == 4
    ensures IsGridAligned(0) && IsGridAligned(4) && IsGridAligned(8) && IsGridAligned(12) && IsGridAligned(100)
    ensures !IsGridAligned(1) && !IsGridAligned(2) && !IsGridAligned(3) && !IsGridAligned(5) && !IsGridAligned(15)
    ensures CreateGridValue(1) == "4px" && CreateGridValue(2) == "8px"
    ensures CreateGridValue(4) == "16px" && CreateGridValue(10) == "40px"
  {
    assert NatToString(16) == NatToString(1) + [DigitChar(6)];
    assert NatToString(40) == NatToString(4) + [DigitChar(0)];
  }

  /** A table whose values are all multiples of the grid unit sits on the grid. */
  lemma AlignedTable(t: seq<Entry<int>>)
    requires forall i :: 0 <= i < |t| ==> t[i].value % GRID_UNIT == 0
    ensures forall i :: 0 <= i < |t| ==> IsGridAligned(t[i].value)
  {
    forall i | 0 <= i < |t|
      ensures IsGridAligned(t[i].value)
    {
      IsGridAlignedIffMultiple(t[i].value);
    }
  }
}
