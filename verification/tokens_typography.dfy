/** Font sizes, line heights, font weights, and grid-aligned line heights. */
module Typography {
  import opened Wrappers
  import opened Tables
  import opened Grid

  /** Font sizes need not sit on the grid (14px does not). */
  const FontSizes: seq<Entry<int>> := [
    Entry("xs", 12),
    Entry("sm", 14),
    Entry("md", 16),
    Entry("lg", 20),
    Entry("xl", 24),
    Entry("2xl", 32),
    Entry("3xl", 40),
    Entry("4xl", 48),
    Entry("5xl", 64)
  ]

  /** Line heights must all be multiples of the grid unit (the vertical rhythm). */
  const LineHeights: seq<Entry<int>> := [
    Entry("xs", 16),
    Entry("sm", 20),
    Entry("md", 24),
    Entry("lg", 28),
    Entry("xl", 32),
    Entry("2xl", 40),
    Entry("3xl", 48),
    Entry("4xl", 56),
    Entry("5xl", 72)
  ]

  const FontWeights: seq<Entry<int>> := [
    Entry("thin", 100),
    Entry("extralight", 200),
    Entry("light", 300),
    Entry("normal", 400),
    Entry("medium", 500),
    Entry("semibold", 600),
    Entry("bold", 700),
    Entry("extrabold", 800),
    Entry("black", 900)
  ]

  /** `Math.ceil` on a real number. */
  function Ceil(x: real): (c: int)
    ensures x <= c as real < x + 1.0
  {
    -((-x).Floor)
  }

  /** `Math.ceil(fontSize / GRID_UNIT) * GRID_UNIT`: the font size rounded up to the grid. */
  function GridAlignedLineHeight(fontSize: int): (h: int)
    ensures IsGridAligned(h)
    ensures fontSize <= h < fontSize + GRID_UNIT
    ensures forall m :: fontSize <= m && m % GRID_UNIT == 0 ==> h <= m
  {
    var q := Ceil(fontSize as real / GRID_UNIT as real);
    IsGridAlignedIffMultiple(q * GRID_UNIT);
    q * GRID_UNIT
  }

  /** An aligned size is its own line height, so rounding twice is rounding once. */
  lemma GridAlignedLineHeightIdempotent(fontSize: int)
    ensures IsGridAligned(fontSize) ==> GridAlignedLineHeight(fontSize) == fontSize
    ensures GridAlignedLineHeight(GridAlignedLineHeight(fontSize)) == GridAlignedLineHeight(fontSize)
  {
    var h := GridAlignedLineHeight(fontSize);
    IsGridAlignedIffMultiple(fontSize);
    IsGridAlignedIffMultiple(h);
  }

  lemma LineHeightsOnGrid()
    ensures forall i :: 0 <= i < |LineHeights| ==> IsGridAligned(LineHeights[i].value)
  {
    AlignedTable(LineHeights);
  }

  /** The nine type sizes, smallest first. */
  const SizeNames: seq<string> := ["xs", "sm", "md", "lg", "xl", "2xl", "3xl", "4xl", "5xl"]

  /** Font sizes and line heights have the same nine keys, xs to 5xl, in the same order. */
  lemma FontSizesMatchLineHeights()
    ensures Keys(FontSizes) == Keys(LineHeights) == ["xs", "sm", "md", "lg", "xl", "2xl", "3xl", "4xl", "5xl"]
    ensures DistinctKeys(FontSizes) && DistinctKeys(LineHeights)
  {
    FontSizeKeys();
    LineHeightKeys();
    SizeNamesDistinct();
    KeysDistinct(FontSizes, SizeNames);
    KeysDistinct(LineHeights, SizeNames);
  }

  lemma FontSizeKeys()
    ensures Keys(FontSizes) == SizeNames
  {
  }

  lemma LineHeightKeys()
    ensures Keys(LineHeights) == SizeNames
  {
  }

  lemma SizeNamesDistinct()
    ensures forall i, j :: 0 <= i < j < |SizeNames| ==> SizeNames[i] != SizeNames[j]
  {
  }

  lemma KeysDistinct(t: seq<Entry<int>>, names: seq<string>)
    requires Keys(t) == names
    requires forall i, j :: 0 <= i < j < |names| ==> names[i] != names[j]
    ensures DistinctKeys(t)
  {
    forall i, j | 0 <= i < j < |t|
      ensures t[i].key != t[j].key
    {
      assert t[i].key == names[i] && t[j].key == names[j];
    }
  }

  /** Font weights run from 100 (thin) to 900 (black) in steps of 100. */
  lemma FontWeightSteps()
    ensures |FontWeights| == 9 && FontWeights[0].key == "thin" && FontWeights[8].key == "black"
    ensures forall i :: 0 <= i < |FontWeights| ==> FontWeights[i].value == 100 * (i + 1)
    ensures DistinctKeys(FontWeights)
  {
  }
}
