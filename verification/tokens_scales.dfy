/** The scale: the raw multiples of the grid unit that spacing is drawn from. */
module ScaleTokens {
  import opened Wrappers
  import opened Decimal
  import opened Tables
  import opened Grid

  /** The scale steps, in grid units, in the order `Object.entries` lists them. */
  const ScaleKeys: seq<nat> := [0, 1, 2, 3, 4, 5, 6, 8, 10, 12, 16, 20, 24, 32, 40, 48, 56, 64]

  const Scales: seq<Entry<int>> := [
    Entry("0", 0),
    Entry("1", GRID_UNIT * 1),
    Entry("2", GRID_UNIT * 2),
    Entry("3", GRID_UNIT * 3),
    Entry("4", GRID_UNIT * 4),
    Entry("5", GRID_UNIT * 5),
    Entry("6", GRID_UNIT * 6),
    Entry("8", GRID_UNIT * 8),
    Entry("10", GRID_UNIT * 10),
    Entry("12", GRID_UNIT * 12),
    Entry("16", GRID_UNIT * 16),
    Entry("20", GRID_UNIT * 20),
    Entry("24", GRID_UNIT * 24),
    Entry("32", GRID_UNIT * 32),
    Entry("40", GRID_UNIT * 40),
    Entry("48", GRID_UNIT * 48),
    Entry("56", GRID_UNIT * 56),
    Entry("64", GRID_UNIT * 64)
  ]

  /** The key of the scale step `n` as JavaScript prints it. */
  lemma ScaleKeyText(i: nat)
    requires i < |Scales|
    ensures |ScaleKeys| == |Scales|
    ensures Scales[i].key == NatToString(ScaleKeys[i])
  {
    if i < 8 {
      SingleDigitKeyText(i);
    } else {
      TwoDigitKeyText(i);
    }
  }

  lemma SingleDigitKeyText(i: nat)
    requires i < 8
    ensures Scales[i].key == NatToString(ScaleKeys[i])
  {
    assert ScaleKeys[i] < 10;
  }

  lemma TwoDigitKeyText(i: nat)
    requires 8 <= i < |Scales|
    ensures Scales[i].key == NatToString(ScaleKeys[i])
  {
    var n := ScaleKeys[i];
    assert 10 <= n < 100;
    assert NatToString(n) == NatToString(n / 10) + [DigitChar(n % 10)];
  }

  /** Every scale entry is its key times the grid unit, and the keys are the documented steps. */
  lemma ScalesAreGridMultiples()
    ensures |Scales| == |ScaleKeys| && DistinctKeys(Scales)
    ensures forall i :: 0 <= i < |Scales| ==>
      Scales[i].key == NatToString(ScaleKeys[i]) && Scales[i].value == GRID_UNIT * ScaleKeys[i]
  {
    ScaleKeysText();
    ScaleValuesMultiples();
    ScalesDistinct();
  }

  lemma ScaleKeysText()
    ensures |Scales| == |ScaleKeys|
    ensures forall i :: 0 <= i < |Scales| ==> Scales[i].key == NatToString(ScaleKeys[i])
  {
    forall i | 0 <= i < |Scales|
      ensures Scales[i].key == NatToString(ScaleKeys[i])
    {
      ScaleKeyText(i);
    }
  }

  lemma ScaleValuesMultiples()
    ensures forall i :: 0 <= i < |Scales| ==> Scales[i].value == GRID_UNIT * ScaleKeys[i]
  {
  }

  /** No scale key repeats: distinct steps print distinct keys. */
  lemma ScalesDistinct()
    ensures DistinctKeys(Scales)
  {
    ScaleKeysText();
    ScalesIncrease();
    forall i, j | 0 <= i < j < |Scales|
      ensures Scales[i].key != Scales[j].key
    {
      if Scales[i].key == Scales[j].key {
        NatToStringInjective(ScaleKeys[i], ScaleKeys[j]);
      }
    }
  }

  /** Values grow strictly with the key. */
  lemma ScalesIncrease()
    ensures forall i, j :: 0 <= i < j < |Scales| ==> ScaleKeys[i] < ScaleKeys[j] && Scales[i].value < Scales[j].value
  {
  }

  /** `scaleValues`: `Object.fromEntries` over the entries mapped to `${value}px`. */
  function ScaleValues(): (m: map<string, string>)
    ensures forall k :: k in m <==> k in Keys(Scales)
    ensures forall i :: 0 <= i < |Scales| ==> m[Scales[i].key] == Px(Scales[i].value)
  {
    var pxEntries := seq(|Scales|, i requires 0 <= i < |Scales| => Entry(Scales[i].key, Px(Scales[i].value)));
    ScalesDistinct();
    SameKeysDistinct(Scales, pxEntries);
    ToMap(pxEntries)
  }
}
