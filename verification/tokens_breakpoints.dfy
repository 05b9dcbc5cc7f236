/** Responsive breakpoints and the container width used above each one. */
module BreakpointTokens {
  import opened Wrappers
  import opened Tables
  import opened Grid

  const Breakpoints: seq<Entry<int>> := [
    Entry("sm", 640),
    Entry("md", 768),
    Entry("lg", 1024),
    Entry("xl", 1280),
    Entry("2xl", 1536)
  ]

  /** Container widths, slightly narrower than their breakpoints to leave a margin. */
  const Containers: seq<Entry<int>> := [
    Entry("sm", 624),
    Entry("md", 752),
    Entry("lg", 1000),
    Entry("xl", 1240),
    Entry("2xl", 1496)
  ]

  /** Every breakpoint is divisible by 16px (four grid units); every container by the grid unit. */
  lemma BreakpointsOnGrid()
    ensures forall i :: 0 <= i < |Breakpoints| ==> Breakpoints[i].value % (4 * GRID_UNIT) == 0
    ensures forall i :: 0 <= i < |Containers| ==> IsGridAligned(Containers[i].value)
  {
    AlignedTable(Containers);
  }

  /** Both tables have the keys sm, md, lg, xl, 2xl, in that order. */
  lemma SameKeys()
    ensures Keys(Containers) == Keys(Breakpoints) == ["sm", "md", "lg", "xl", "2xl"]
    ensures DistinctKeys(Breakpoints)
    ensures forall i :: 0 <= i < |Containers| ==> Containers[i].key == Breakpoints[i].key
  {
  }

  /**
   * Looking up a container's key among the breakpoints always succeeds, and
   * each container is narrower than the breakpoint with its key.
   */
  lemma ContainersFitBreakpoints()
    ensures forall i :: 0 <= i < |Containers| ==>
      Lookup(Breakpoints, Containers[i].key) == Some(Breakpoints[i].value) &&
      Containers[i].value < Breakpoints[i].value
  {
    SameKeys();
    PairedLookup(Containers, Breakpoints);
    ContainersNarrower();
  }

  lemma ContainersNarrower()
    ensures forall i :: 0 <= i < |Containers| ==> Containers[i].value < Breakpoints[i].value
  {
  }

  lemma BreakpointsIncrease()
    ensures forall i, j :: 0 <= i < j < |Breakpoints| ==> Breakpoints[i].value < Breakpoints[j].value
    ensures forall i, j :: 0 <= i < j < |Containers| ==> Containers[i].value < Containers[j].value
  {
  }
}
