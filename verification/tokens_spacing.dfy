/** Spacing tokens for margins, padding and layout, read off the scale. */
module SpacingTokens {
  import opened Wrappers
  import opened Decimal
  import opened Tables
  import opened Grid
  import opened ScaleTokens

  /** Each entry reads `scales[key]`; the scale lists key `k` at the same position. */
  const Spacing: seq<Entry<int>> := [
    Entry("0", Scales[0].value),
    Entry("1", Scales[1].value),
    Entry("2", Scales[2].value),
    Entry("3", Scales[3].value),
    Entry("4", Scales[4].value),
    Entry("5", Scales[5].value),
    Entry("6", Scales[6].value),
    Entry("8", Scales[7].value),
    Entry("10", Scales[8].value),
    Entry("12", Scales[9].value),
    Entry("16", Scales[10].value),
    Entry("20", Scales[11].value),
    Entry("24", Scales[12].value),
    Entry("32", Scales[13].value),
    Entry("40", Scales[14].value),
    Entry("48", Scales[15].value),
    Entry("56", Scales[16].value),
    Entry("64", Scales[17].value)
  ]

  /** Spacing is the scale: the same keys in the same order, and `spacing[k] == scales[k]` for every key. */
  lemma SpacingIsScale()
    ensures Keys(Spacing) == Keys(Scales) && DistinctKeys(Spacing)
    ensures forall k :: Lookup(Spacing, k) == Lookup(Scales, k)
  {
    assert Spacing == Scales;
    ScalesDistinct();
  }

  /** All spacing values are multiples of the grid unit. */
  lemma SpacingOnGrid()
    ensures forall i :: 0 <= i < |Spacing| ==> IsGridAligned(Spacing[i].value)
  {
    assert Spacing == Scales;
    ScaleValuesMultiples();
    forall i | 0 <= i < |Scales|
      ensures Scales[i].value % GRID_UNIT == 0
    {
      assert Scales[i].value == ScaleKeys[i] * GRID_UNIT;
    }
    AlignedTable(Scales);
  }

  /**
   * The reduce over the entries of a spacing table whose callback writes
   * `acc[key] = `${value}px`` into the accumulator.
   */
  method BuildSpacingValues(spacing: seq<Entry<int>>) returns (acc: map<string, string>)
    requires DistinctKeys(spacing)
    ensures forall k :: k in acc <==> k in Keys(spacing)
    ensures forall i :: 0 <= i < |spacing| ==> acc[spacing[i].key] == Px(spacing[i].value)
    ensures forall k :: k in acc ==> Lookup(spacing, k).Some? && ParsePx(acc[k]) == Lookup(spacing, k)
  {
    acc := map[];
    for i := 0 to |spacing|
      invariant forall k :: k in acc <==> k in Keys(spacing[..i])
      invariant forall j :: 0 <= j < i ==> acc[spacing[j].key] == Px(spacing[j].value)
    {
      assert Keys(spacing[..i + 1]) == Keys(spacing[..i]) + [spacing[i].key];
      acc := acc[spacing[i].key := Px(spacing[i].value)];
    }
    assert spacing[..|spacing|] == spacing;
    forall k | k in acc
      ensures Lookup(spacing, k).Some? && ParsePx(acc[k]) == Lookup(spacing, k)
    {
      var j :| 0 <= j < |spacing| && spacing[j].key == k;
      PxEntryParses(spacing, acc, j);
    }
  }

  /** A value written as `${value}px` parses back to the table's value under that key. */
  lemma PxEntryParses(spacing: seq<Entry<int>>, acc: map<string, string>, j: nat)
    requires DistinctKeys(spacing) && j < |spacing|
    requires spacing[j].key in acc && acc[spacing[j].key] == Px(spacing[j].value)
    ensures Lookup(spacing, spacing[j].key).Some?
    ensures ParsePx(acc[spacing[j].key]) == Lookup(spacing, spacing[j].key)
  {
    LookupAt(spacing, j);
    PxRoundTrip(spacing[j].value);
  }

  /**
   * `spacingValues`: the reduce applied to the spacing table; its entries are
   * the scale keys, each written as the scale value in pixels.
   */
  method SpacingValues() returns (values: map<string, string>)
    ensures forall k :: k in values <==> k in Keys(Scales)
    ensures forall k :: k in values ==> Lookup(Scales, k).Some? && ParsePx(values[k]) == Lookup(Scales, k)
  {
    SpacingIsScale();
    values := BuildSpacingValues(Spacing);
  }
}
