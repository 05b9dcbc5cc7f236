/**
 * Border compensation: given a desired outer height and per-edge borders
 * (pixels or a border width token), compute the inner height and width and
 * the per-edge paddings that keep the box on the 4px grid.
 */
module BorderCompensation {
  import opened Wrappers
  import opened Tables
  import opened Grid
  import opened BorderTokens

  /** A border given as a pixel count or as a border width token. */
  datatype BorderSpec = BorderPx(px: int) | BorderToken(token: BorderWidthToken)

  /** The named arguments; an omitted border or padding is None and defaults to 0. */
  datatype CompensationInput = CompensationInput(
    desiredHeight: int,
    borderTop: Option<BorderSpec>,
    borderBottom: Option<BorderSpec>,
    borderLeft: Option<BorderSpec>,
    borderRight: Option<BorderSpec>,
    desiredPaddingY: Option<int>,
    desiredPaddingX: Option<int>)

  datatype Compensation = Compensation(
    innerHeight: int,
    innerWidth: int,
    paddingTop: int,
    paddingBottom: int,
    paddingLeft: int,
    paddingRight: int,
    totalBorderHeight: int,
    totalBorderWidth: int)

  /**
   * The pixel width of one border: a number is used as is, a token is looked
   * up in the border width table, and an omitted border is 0.
   */
  function ResolveBorder(b: Option<BorderSpec>): (w: int)
    ensures b == None ==> w == 0
    ensures b.Some? && b.value.BorderPx? ==> w == b.value.px
    ensures b.Some? && b.value.BorderToken? ==> Lookup(BorderWidths, BorderWidthKey(b.value.token)) == Some(w)
  {
    match b
    case None => 0
    case Some(BorderPx(px)) => px
    case Some(BorderToken(t)) => BorderWidthPx(t)
  }

  function Max(a: int, b: int): int {
    if a >= b then a else b
  }

  /**
   * The padding for one edge: what is left of the desired padding once the
   * border has taken its share, never negative.
   */
  function EdgePadding(desired: int, border: int): (p: int)
    ensures p >= 0 && p >= desired - border
    ensures p > 0 ==> p + border == desired
  {
    Max(0, desired - border)
  }

  function CalculateBorderCompensation(input: CompensationInput): (r: Compensation)
    // The borders and the inner height make up the desired height exactly.
    ensures r.totalBorderHeight == ResolveBorder(input.borderTop) + ResolveBorder(input.borderBottom)
    ensures r.innerHeight + r.totalBorderHeight == input.desiredHeight
    ensures r.totalBorderWidth == ResolveBorder(input.borderLeft) + ResolveBorder(input.borderRight)
    // A zero (or omitted) horizontal padding yields no inner width; otherwise
    // the inner width and the side borders make up twice the padding.
    ensures input.desiredPaddingX.GetOr(0) == 0 ==> r.innerWidth == 0
    ensures input.desiredPaddingX.GetOr(0) != 0 ==>
      r.innerWidth + r.totalBorderWidth == 2 * input.desiredPaddingX.GetOr(0)
    // Each padding is clamped at zero, and otherwise padding plus border is the desired padding.
    ensures r.paddingTop >= 0 && r.paddingBottom >= 0 && r.paddingLeft >= 0 && r.paddingRight >= 0
    ensures r.paddingTop > 0 ==> r.paddingTop + ResolveBorder(input.borderTop) == input.desiredPaddingY.GetOr(0)
    ensures r.paddingBottom > 0 ==> r.paddingBottom + ResolveBorder(input.borderBottom) == input.desiredPaddingY.GetOr(0)
    ensures r.paddingLeft > 0 ==> r.paddingLeft + ResolveBorder(input.borderLeft) == input.desiredPaddingX.GetOr(0)
    ensures r.paddingRight > 0 ==> r.paddingRight + ResolveBorder(input.borderRight) == input.desiredPaddingX.GetOr(0)
    ensures r.paddingTop >= input.desiredPaddingY.GetOr(0) - ResolveBorder(input.borderTop)
    ensures r.paddingBottom >= input.desiredPaddingY.GetOr(0) - ResolveBorder(input.borderBottom)
    ensures r.paddingLeft >= input.desiredPaddingX.GetOr(0) - ResolveBorder(input.borderLeft)
    ensures r.paddingRight >= input.desiredPaddingX.GetOr(0) - ResolveBorder(input.borderRight)
  {
    var topWidth := ResolveBorder(input.borderTop);
    var bottomWidth := ResolveBorder(input.borderBottom);
    var leftWidth := ResolveBorder(input.borderLeft);
    var rightWidth := ResolveBorder(input.borderRight);
    var paddingY := input.desiredPaddingY.GetOr(0);
    var paddingX := input.desiredPaddingX.GetOr(0);
    var totalBorderHeight := topWidth + bottomWidth;
    var totalBorderWidth := leftWidth + rightWidth;
    Compensation(
      input.desiredHeight - totalBorderHeight,
      if paddingX != 0 then paddingX * 2 - totalBorderWidth else 0,
      EdgePadding(paddingY, topWidth),
      EdgePadding(paddingY, bottomWidth),
      EdgePadding(paddingX, leftWidth),
      EdgePadding(paddingX, rightWidth),
      totalBorderHeight,
      totalBorderWidth)
  }

  /** The vertical results depend only on the height, the top and bottom borders and the vertical padding. */
  lemma VerticalIndependence(a: CompensationInput, b: CompensationInput)
    requires a.desiredHeight == b.desiredHeight && a.desiredPaddingY == b.desiredPaddingY
    requires a.borderTop == b.borderTop && a.borderBottom == b.borderBottom
    ensures var ra, rb := CalculateBorderCompensation(a), CalculateBorderCompensation(b);
      ra.innerHeight == rb.innerHeight && ra.paddingTop == rb.paddingTop &&
      ra.paddingBottom == rb.paddingBottom && ra.totalBorderHeight == rb.totalBorderHeight
  {
  }

  /** The horizontal results depend only on the left and right borders and the horizontal padding. */
  lemma HorizontalIndependence(a: CompensationInput, b: CompensationInput)
    requires a.desiredPaddingX == b.desiredPaddingX
    requires a.borderLeft == b.borderLeft && a.borderRight == b.borderRight
    ensures var ra, rb := CalculateBorderCompensation(a), CalculateBorderCompensation(b);
      ra.innerWidth == rb.innerWidth && ra.paddingLeft == rb.paddingLeft &&
      ra.paddingRight == rb.paddingRight && ra.totalBorderWidth == rb.totalBorderWidth
  {
  }

  /** Without borders nothing is compensated: the desired height and paddings come back unchanged. */
  lemma NoBordersNoChange(input: CompensationInput)
    requires ResolveBorder(input.borderTop) == 0 && ResolveBorder(input.borderBottom) == 0
    requires ResolveBorder(input.borderLeft) == 0 && ResolveBorder(input.borderRight) == 0
    requires input.desiredPaddingY.GetOr(0) >= 0 && input.desiredPaddingX.GetOr(0) >= 0
    ensures var r := CalculateBorderCompensation(input);
      r.innerHeight == input.desiredHeight &&
      r.paddingTop == r.paddingBottom == input.desiredPaddingY.GetOr(0) &&
      r.paddingLeft == r.paddingRight == input.desiredPaddingX.GetOr(0)
  {
  }

  /**
   * With borders no wider than the padding, border plus padding on every edge is
   * the desired padding, so the outer box keeps the size asked for, on the grid
   * whenever the desired sizes are.
   */
  lemma CompensationKeepsOuterBox(input: CompensationInput)
    requires 0 <= ResolveBorder(input.borderTop) <= input.desiredPaddingY.GetOr(0)
    requires 0 <= ResolveBorder(input.borderBottom) <= input.desiredPaddingY.GetOr(0)
    ensures var r := CalculateBorderCompensation(input);
      r.innerHeight + ResolveBorder(input.borderTop) + ResolveBorder(input.borderBottom) == input.desiredHeight &&
      r.paddingTop + ResolveBorder(input.borderTop) == input.desiredPaddingY.GetOr(0) &&
      r.paddingBottom + ResolveBorder(input.borderBottom) == input.desiredPaddingY.GetOr(0)
  {
  }

  /** A 40px box with hairline borders and 16px padding: inner height 38px, paddings 15px. */
  lemma HairlineExample()
    ensures var r := CalculateBorderCompensation(CompensationInput(
      40, Some(BorderToken(Hairline)), Some(BorderToken(Hairline)), None, None, Some(16), None));
      r.innerHeight == 38 && r.paddingTop == 15 && r.paddingBottom == 15 &&
      r.totalBorderHeight == 2 && r.innerWidth == 0
  {
    BorderWidthValues();
  }
}
