/** Standard component heights and the button/input tokens derived from them. */
module ComponentTokens {
  import opened Wrappers
  import opened Tables
  import opened Grid

  const Heights: seq<Entry<int>> := [
    Entry("xs", GRID_UNIT * 6),
    Entry("sm", GRID_UNIT * 8),
    Entry("md", GRID_UNIT * 10),
    Entry("lg", GRID_UNIT * 12),
    Entry("xl", GRID_UNIT * 14),
    Entry("2xl", GRID_UNIT * 16)
  ]

  /** Padding as `[vertical, horizontal]` pixels. */
  datatype PaddingPair = PaddingPair(vertical: int, horizontal: int)

  /** The tokens of one control: its heights and paddings per size. */
  datatype ControlTokens = ControlTokens(height: seq<Entry<int>>, padding: seq<Entry<PaddingPair>>)

  /** `heights.sm`, `heights.md` and `heights.lg`, which sit at positions 1 to 3. */
  const ControlHeights: seq<Entry<int>> := [
    Entry("sm", Heights[1].value),
    Entry("md", Heights[2].value),
    Entry("lg", Heights[3].value)
  ]

  const ButtonMinWidth: int := GRID_UNIT * 16

  const Button: ControlTokens := ControlTokens(
    ControlHeights,
    [
      Entry("sm", PaddingPair(0, GRID_UNIT * 3)),
      Entry("md", PaddingPair(0, GRID_UNIT * 4)),
      Entry("lg", PaddingPair(0, GRID_UNIT * 6))
    ])

  const Input: ControlTokens := ControlTokens(
    ControlHeights,
    [
      Entry("sm", PaddingPair(0, GRID_UNIT * 3)),
      Entry("md", PaddingPair(0, GRID_UNIT * 3)),
      Entry("lg", PaddingPair(0, GRID_UNIT * 4))
    ])

  /** Heights are 24, 32, 40, 48, 56 and 64 pixels: on the grid and strictly increasing. */
  lemma HeightsOnGrid()
    ensures forall i :: 0 <= i < |Heights| ==> Heights[i].value == GRID_UNIT * (6 + 2 * i)
    ensures forall i :: 0 <= i < |Heights| ==> IsGridAligned(Heights[i].value)
    ensures forall i, j :: 0 <= i < j < |Heights| ==> Heights[i].value < Heights[j].value
    ensures DistinctKeys(Heights)
  {
    AlignedTable(Heights);
  }

  /** Button and input heights sm, md and lg are the standard heights with those keys. */
  lemma ControlHeightsAreStandard()
    ensures Button.height == Input.height
    ensures forall i :: 0 <= i < |Button.height| ==>
      Lookup(Heights, Button.height[i].key) == Some(Button.height[i].value)
  {
    HeightsOnGrid();
    forall i | 0 <= i < |Button.height|
      ensures Lookup(Heights, Button.height[i].key) == Some(Button.height[i].value)
    {
      assert Button.height[i] == Heights[i + 1];
      LookupAt(Heights, i + 1);
    }
  }

  /** Every padding pair has no vertical padding and a grid-aligned horizontal padding. */
  lemma ControlPaddingsOnGrid()
    ensures forall i :: 0 <= i < |Button.padding| ==>
      Button.padding[i].value.vertical == 0 && IsGridAligned(Button.padding[i].value.horizontal)
    ensures forall i :: 0 <= i < |Input.padding| ==>
      Input.padding[i].value.vertical == 0 && IsGridAligned(Input.padding[i].value.horizontal)
    ensures ButtonMinWidth == 64 && IsGridAligned(ButtonMinWidth)
  {
    forall i | 0 <= i < |Button.padding|
      ensures IsGridAligned(Button.padding[i].value.horizontal)
    {
      IsGridAlignedIffMultiple(Button.padding[i].value.horizontal);
    }
    forall i | 0 <= i < |Input.padding|
      ensures IsGridAligned(Input.padding[i].value.horizontal)
    {
      IsGridAlignedIffMultiple(Input.padding[i].value.horizontal);
    }
  }
}
