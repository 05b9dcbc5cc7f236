/** Border width and border radius tokens. */
module BorderTokens {
  import opened Wrappers
  import opened Tables
  import opened Grid

  /** The keys of `borderWidths`: none, hairline, thin, thick. */
  datatype BorderWidthToken = NoneWidth | Hairline | Thin | Thick

  function BorderWidthKey(t: BorderWidthToken): string {
    match t
    case NoneWidth => "none"
    case Hairline => "hairline"
    case Thin => "thin"
    case Thick => "thick"
  }

  /** Border widths in pixels; 1px and 2px are the documented exceptions to the grid. */
  const BorderWidths: seq<Entry<int>> := [
    Entry("none", 0),
    Entry("hairline", 1),
    Entry("thin", 2),
    Entry("thick", GRID_UNIT)
  ]

  /** Where each token's entry sits in `borderWidths`. */
  function BorderWidthIndex(t: BorderWidthToken): (i: nat)
    ensures i < |BorderWidths| && BorderWidths[i].key == BorderWidthKey(t)
  {
    match t
    case NoneWidth => 0
    case Hairline => 1
    case Thin => 2
    case Thick => 3
  }

  /** `borderWidths[token]`: every token names an entry of the table. */
  function BorderWidthPx(t: BorderWidthToken): (w: int)
    ensures Lookup(BorderWidths, BorderWidthKey(t)) == Some(w)
    ensures 0 <= w <= GRID_UNIT
  {
    var i := BorderWidthIndex(t);
    LookupAt(BorderWidths, i);
    BorderWidths[i].value
  }

  /** The keys of `radii`: none, sm, md, lg, xl, full. */
  datatype RadiusToken = NoneRadius | Sm | Md | Lg | Xl | Full

  function RadiusKey(t: RadiusToken): string {
    match t
    case NoneRadius => "none"
    case Sm => "sm"
    case Md => "md"
    case Lg => "lg"
    case Xl => "xl"
    case Full => "full"
  }

  function RadiusIndex(t: RadiusToken): (i: nat)
    ensures i < |Radii| && Radii[i].key == RadiusKey(t)
  {
    match t
    case NoneRadius => 0
    case Sm => 1
    case Md => 2
    case Lg => 3
    case Xl => 4
    case Full => 5
  }

  /** A radius is a pixel count, or a CSS length written out as text. */
  datatype Radius = RadiusPx(px: int) | RadiusCss(text: string)

  const Radii: seq<Entry<Radius>> := [
    Entry("none", RadiusPx(0)),
    Entry("sm", RadiusPx(GRID_UNIT * 1)),
    Entry("md", RadiusPx(GRID_UNIT * 2)),
    Entry("lg", RadiusPx(GRID_UNIT * 3)),
    Entry("xl", RadiusPx(GRID_UNIT * 4)),
    Entry("full", RadiusCss("9999px"))
  ]

  lemma BorderWidthValues()
    ensures Keys(BorderWidths) == ["none", "hairline", "thin", "thick"] && DistinctKeys(BorderWidths)
    ensures BorderWidthPx(NoneWidth) == 0 && BorderWidthPx(Hairline) == 1
    ensures BorderWidthPx(Thin) == 2 && BorderWidthPx(Thick) == 4
  {
  }

  /** Of the non-zero widths only `thick` sits on the grid; hairline and thin are the exceptions. */
  lemma OnlyThickIsGridAligned(t: BorderWidthToken)
    requires BorderWidthPx(t) != 0
    ensures IsGridAligned(BorderWidthPx(t)) <==> t == Thick
  {
  }

  lemma BorderWidthsIncrease()
    ensures forall i, j :: 0 <= i < j < |BorderWidths| ==> BorderWidths[i].value < BorderWidths[j].value
  {
  }

  /** Every numeric radius is a multiple of the grid unit; `full` is the one textual radius. */
  lemma RadiiOnGrid()
    ensures forall i :: 0 <= i < |Radii| && Radii[i].value.RadiusPx? ==>
      Radii[i].value.px == GRID_UNIT * i && IsGridAligned(Radii[i].value.px)
    ensures forall i :: 0 <= i < |Radii| ==> (Radii[i].value.RadiusCss? <==> Radii[i].key == "full")
  {
    RadiiSteps();
    forall i | 0 <= i < |Radii| && Radii[i].value.RadiusPx?
      ensures IsGridAligned(Radii[i].value.px)
    {
      IsGridAlignedIffMultiple(Radii[i].value.px);
    }
  }

  lemma RadiiSteps()
    ensures forall i :: 0 <= i < |Radii| && Radii[i].value.RadiusPx? ==> Radii[i].value.px == GRID_UNIT * i
    ensures forall i :: 0 <= i < |Radii| ==> (Radii[i].value.RadiusCss? <==> Radii[i].key == "full")
  {
  }

  /** Every radius token names an entry of `radii`; `full` is 9999px written out. */
  lemma RadiusTokensResolve()
    ensures DistinctKeys(Radii)
    ensures Lookup(Radii, "full") == Some(RadiusCss("9999px"))
    ensures forall t :: Lookup(Radii, RadiusKey(t)) == Some(Radii[RadiusIndex(t)].value)
  {
    LookupAll(Radii);
    assert Radii[5].key == "full";
  }
}
