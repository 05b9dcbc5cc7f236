/**
 * The utility stylesheet: spacing, typography, flex, grid, colour, border and
 * container classes, then the responsive variants under one media query per
 * breakpoint, emitted line by line in table order.
 */
module UtilityClasses {
  import opened Wrappers
  import opened Decimal
  import opened Strings
  import opened Tables
  import opened SpacingTokens
  import opened Typography
  import opened BreakpointTokens
  import opened Generator

  /** A CSS rule on one line: `<selector> { <declarations> }`. */
  function Rule(selector: string, body: string): string {
    selector + " { " + body + " }"
  }

  /** A rule read back: the selector runs to the first space, the body sits between the braces. */
  datatype ParsedRule = ParsedRule(selector: string, body: string)

  function ParseRule(line: string): Option<ParsedRule> {
    var i := IndexOf(line, ' ');
    if i + 3 <= |line| - 2 && line[i..i + 3] == " { " && line[|line| - 2..] == " }" then
      Some(ParsedRule(line[..i], line[i + 3..|line| - 2]))
    else None
  }

  /** A rule whose selector has no space reads back as its selector and body. */
  lemma RuleRoundTrip(selector: string, body: string)
    requires ' ' !in selector
    ensures ParseRule(Rule(selector, body)) == Some(ParsedRule(selector, body))
  {
    var line := Rule(selector, body);
    var n := |selector|;
    assert line[n] == ' ';
    IndexOfFirst(line, ' ', n);
    assert line[..n] == selector;
    assert line[n..n + 3] == " { ";
    assert line[|line| - 2..] == " }";
    assert line[n + 3..|line| - 2] == body;
  }

  /** The rules of every entry of a table, in table order. */
  function PerEntry(t: seq<Entry<int>>, rules: (string, int) -> seq<string>): seq<string>
    decreases |t|
  {
    if t == [] then []
    else PerEntry(t[..|t| - 1], rules) + rules(t[|t| - 1].key, t[|t| - 1].value)
  }

  lemma {:induction false} MulStep(n: nat, i: nat, m: nat)
    requires i < m
    ensures n * i + n <= n * m
    ensures m == i + 1 ==> n * m == n * i + n
    decreases m - i
  {
    assert n * (i + 1) == n * i + n;
    if i + 1 < m {
      MulStep(n, i + 1, m);
    }
  }

  /** Appends the rules of each entry in table order, as the `forEach` loops do. */
  method AppendRules(css: string, t: seq<Entry<int>>, rules: (string, int) -> seq<string>)
    returns (out: string)
    ensures out == css + Lines(PerEntry(t, rules))
  {
    out := css;
    for i := 0 to |t|
      invariant out == css + Lines(PerEntry(t[..i], rules))
    {
      var entry := t[i];
      out := out + Lines(rules(entry.key, entry.value));
      assert t[..i + 1][..i] == t[..i];
      assert PerEntry(t[..i + 1], rules) == PerEntry(t[..i], rules) + rules(entry.key, entry.value);
      LinesExtend(css, PerEntry(t[..i], rules), rules(entry.key, entry.value));
    }
    assert t[..|t|] == t;
  }

  /** Rules for the classes `.<name>-<key>`, one per name, with the matching declarations. */
  function NamedRules(names: seq<string>, key: string, bodies: seq<string>): (rs: seq<string>)
    requires |names| == |bodies|
    ensures |rs| == |names|
  {
    seq(|names|, j requires 0 <= j < |names| => Rule("." + names[j] + "-" + key, bodies[j]))
  }

  /** Each named rule reads back as its class selector and its declarations. */
  lemma NamedRulesReadBack(names: seq<string>, key: string, bodies: seq<string>)
    requires |names| == |bodies|
    requires ' ' !in key && forall j :: 0 <= j < |names| ==> ' ' !in names[j]
    ensures forall j :: 0 <= j < |names| ==>
      ParseRule(NamedRules(names, key, bodies)[j]) == Some(ParsedRule("." + names[j] + "-" + key, bodies[j]))
  {
    forall j | 0 <= j < |names|
      ensures ParseRule(NamedRules(names, key, bodies)[j]) == Some(ParsedRule("." + names[j] + "-" + key, bodies[j]))
    {
      RuleRoundTrip("." + names[j] + "-" + key, bodies[j]);
    }
  }

  const MarginNames: seq<string> := ["m", "mt", "mr", "mb", "ml", "mx", "my"]

  /** The margin declarations, each at `v` pixels: all sides, one side, then both sides of an axis. */
  function MarginBodies(v: int): (bs: seq<string>)
    ensures |bs| == 7
  {
    [ "margin: " + Px(v) + ";",
      "margin-top: " + Px(v) + ";",
      "margin-right: " + Px(v) + ";",
      "margin-bottom: " + Px(v) + ";",
      "margin-left: " + Px(v) + ";",
      "margin-left: " + Px(v) + "; margin-right: " + Px(v) + ";",
      "margin-top: " + Px(v) + "; margin-bottom: " + Px(v) + ";" ]
  }

  function MarginRules(key: string, v: int): (rs: seq<string>)
    ensures |rs| == 7
  {
    NamedRules(MarginNames, key, MarginBodies(v))
  }

  const PaddingNames: seq<string> := ["p", "pt", "pr", "pb", "pl", "px", "py"]

  function PaddingBodies(v: int): (bs: seq<string>)
    ensures |bs| == 7
  {
    [ "padding: " + Px(v) + ";",
      "padding-top: " + Px(v) + ";",
      "padding-right: " + Px(v) + ";",
      "padding-bottom: " + Px(v) + ";",
      "padding-left: " + Px(v) + ";",
      "padding-left: " + Px(v) + "; padding-right: " + Px(v) + ";",
      "padding-top: " + Px(v) + "; padding-bottom: " + Px(v) + ";" ]
  }

  function PaddingRules(key: string, v: int): (rs: seq<string>)
    ensures |rs| == 7
  {
    NamedRules(PaddingNames, key, PaddingBodies(v))
  }

  function GapRules(key: string, v: int): (rs: seq<string>)
    ensures |rs| == 1
  {
    NamedRules(["gap"], key, GapBodies(v))
  }

  /**
   * `lineHeights[key] || "normal"`: the line height of the same key, or the
   * text "normal" when there is none (or it is 0), printed before "px" either way.
   */
  function LineHeightText(key: string): string {
    match Lookup(LineHeights, key)
    case Some(h) => if h != 0 then IntToString(h) else "normal"
    case None => "normal"
  }

  function TextRules(key: string, v: int): (rs: seq<string>)
    ensures |rs| == 1
  {
    NamedRules(["text"], key, ["font-size: " + Px(v) + "; line-height: " + LineHeightText(key) + "px;"])
  }

  function WeightRules(key: string, v: int): (rs: seq<string>)
    ensures |rs| == 1
  {
    NamedRules(["font"], key, ["font-weight: " + IntToString(v) + ";"])
  }

  /** `${breakpoints[key]}`: the breakpoint of the same key, or "undefined" when there is none. */
  function BreakpointText(key: string): string {
    match Lookup(Breakpoints, key)
    case Some(b) => IntToString(b)
    case None => "undefined"
  }

  function ContainerRules(key: string, v: int): (rs: seq<string>)
    ensures |rs| == 1
  {
    ["@media (min-width: " + BreakpointText(key) + "px) { .container { max-width: " + Px(v) + "; } }"]
  }

  /** A responsive variant: the class `<key>\:<name>`, indented inside its media query. */
  function Variant(key: string, name: string, body: string): string {
    "  " + Rule("." + key + "\\:" + name, body)
  }

  /** The responsive variants, in emission order: display, grid columns, flex direction. */
  const VariantNames: seq<string> := [
    "block", "flex", "grid", "hidden",
    "grid-cols-1", "grid-cols-2", "grid-cols-3", "grid-cols-4",
    "flex-row", "flex-col"
  ]

  const VariantBodies: seq<string> := [
    "display: block !important;",
    "display: flex !important;",
    "display: grid !important;",
    "display: none !important;",
    "grid-template-columns: repeat(1, minmax(0, 1fr));",
    "grid-template-columns: repeat(2, minmax(0, 1fr));",
    "grid-template-columns: repeat(3, minmax(0, 1fr));",
    "grid-template-columns: repeat(4, minmax(0, 1fr));",
    "flex-direction: row !important;",
    "flex-direction: column !important;"
  ]

  /** The ten responsive variants of a breakpoint. */
  function VariantRules(key: string): (rs: seq<string>)
    ensures |rs| == 10
  {
    seq(10, j requires 0 <= j < 10 => Variant(key, VariantNames[j], VariantBodies[j]))
  }

  /** A breakpoint's block: a blank line, the media query, its ten variants, the closing brace. */
  function ResponsiveRules(key: string, v: int): (rs: seq<string>)
    ensures |rs| == 13
  {
    ["", "@media (min-width: " + Px(v) + ") {"] + VariantRules(key) + ["}"]
  }

  const IntroLines: seq<string> := ["/* QuadCN Utility Classes */", "", "/* Spacing utilities */"]

  const TypographyHead: seq<string> := ["", "/* Typography utilities */"]

  const FlexLines: seq<string> := [
    "",
    "/* Flex utilities */",
    Rule(".flex", "display: flex;"),
    Rule(".inline-flex", "display: inline-flex;"),
    Rule(".flex-col", "flex-direction: column;"),
    Rule(".flex-row", "flex-direction: row;"),
    Rule(".flex-wrap", "flex-wrap: wrap;"),
    Rule(".items-start", "align-items: flex-start;"),
    Rule(".items-center", "align-items: center;"),
    Rule(".items-end", "align-items: flex-end;"),
    Rule(".justify-start", "justify-content: flex-start;"),
    Rule(".justify-center", "justify-content: center;"),
    Rule(".justify-end", "justify-content: flex-end;"),
    Rule(".justify-between", "justify-content: space-between;"),
    Rule(".justify-around", "justify-content: space-around;")
  ]

  const GridLines: seq<string> := [
    "",
    "/* Grid utilities */",
    Rule(".grid", "display: grid;"),
    Rule(".grid-cols-1", "grid-template-columns: repeat(1, minmax(0, 1fr));"),
    Rule(".grid-cols-2", "grid-template-columns: repeat(2, minmax(0, 1fr));"),
    Rule(".grid-cols-3", "grid-template-columns: repeat(3, minmax(0, 1fr));"),
    Rule(".grid-cols-4", "grid-template-columns: repeat(4, minmax(0, 1fr));"),
    Rule(".grid-cols-6", "grid-template-columns: repeat(6, minmax(0, 1fr));"),
    Rule(".grid-cols-12", "grid-template-columns: repeat(12, minmax(0, 1fr));")
  ]

  const BackgroundLines: seq<string> := [
    "",
    "/* Background color utilities */",
    Rule(".bg-base", "background-color: var(--quad-bg-base);"),
    Rule(".bg-subtle", "background-color: var(--quad-bg-subtle);"),
    Rule(".bg-sunken", "background-color: var(--quad-bg-sunken);"),
    Rule(".bg-elevated", "background-color: var(--quad-bg-elevated);"),
    Rule(".bg-accent", "background-color: var(--quad-accent-default);")
  ]

  const TextColorLines: seq<string> := [
    "",
    "/* Text color utilities */",
    Rule(".text-primary", "color: var(--quad-text-primary);"),
    Rule(".text-secondary", "color: var(--quad-text-secondary);"),
    Rule(".text-tertiary", "color: var(--quad-text-tertiary);"),
    Rule(".text-disabled", "color: var(--quad-text-disabled);"),
    Rule(".text-inverse", "color: var(--quad-text-inverse);"),
    Rule(".text-accent", "color: var(--quad-accent-default);")
  ]

  const BorderLines: seq<string> := [
    "",
    "/* Border utilities */",
    Rule(".rounded-none", "border-radius: var(--quad-radius-none);"),
    Rule(".rounded-sm", "border-radius: var(--quad-radius-sm);"),
    Rule(".rounded-md", "border-radius: var(--quad-radius-md);"),
    Rule(".rounded-lg", "border-radius: var(--quad-radius-lg);"),
    Rule(".rounded-xl", "border-radius: var(--quad-radius-xl);"),
    Rule(".rounded-full", "border-radius: var(--quad-radius-full);")
  ]

  const ContainerHead: seq<string> := [
    "",
    "/* Container */",
    Rule(".container", "width: 100%; margin-left: auto; margin-right: auto; padding-left: var(--quad-space-4); padding-right: var(--quad-space-4);")
  ]

  /** The fixed catalogue between the font weights and the container widths. */
  function FixedLines(): seq<string> {
    FlexLines + GridLines + BackgroundLines + TextColorLines + BorderLines + ContainerHead
  }

  /** The whole utility stylesheet, section by section in emission order. */
  function UtilityLines(): seq<string> {
    IntroLines
    + PerEntry(Spacing, MarginRules)
    + PerEntry(Spacing, PaddingRules)
    + PerEntry(Spacing, GapRules)
    + TypographyHead
    + PerEntry(FontSizes, TextRules)
    + PerEntry(FontWeights, WeightRules)
    + FixedLines()
    + PerEntry(Containers, ContainerRules)
    + PerEntry(Breakpoints, ResponsiveRules)
  }

  method GenerateUtilityClasses() returns (css: string)
    ensures css == Lines(UtilityLines())
  {
    css := Lines(IntroLines);
    ghost var ls := IntroLines;
    css := AppendRules(css, Spacing, MarginRules);
    LinesAppend(ls, PerEntry(Spacing, MarginRules));
    ls := ls + PerEntry(Spacing, MarginRules);
    css := AppendRules(css, Spacing, PaddingRules);
    LinesAppend(ls, PerEntry(Spacing, PaddingRules));
    ls := ls + PerEntry(Spacing, PaddingRules);
    css := AppendRules(css, Spacing, GapRules);
    LinesAppend(ls, PerEntry(Spacing, GapRules));
    ls := ls + PerEntry(Spacing, GapRules);
    css := css + Lines(TypographyHead);
    LinesAppend(ls, TypographyHead);
    ls := ls + TypographyHead;
    css := AppendRules(css, FontSizes, TextRules);
    LinesAppend(ls, PerEntry(FontSizes, TextRules));
    ls := ls + PerEntry(FontSizes, TextRules);
    css := AppendRules(css, FontWeights, WeightRules);
    LinesAppend(ls, PerEntry(FontWeights, WeightRules));
    ls := ls + PerEntry(FontWeights, WeightRules);
    css := css + Lines(FixedLines());
    LinesAppend(ls, FixedLines());
    ls := ls + FixedLines();
    css := AppendRules(css, Containers, ContainerRules);
    LinesAppend(ls, PerEntry(Containers, ContainerRules));
    ls := ls + PerEntry(Containers, ContainerRules);
    css := AppendRules(css, Breakpoints, ResponsiveRules);
    LinesAppend(ls, PerEntry(Breakpoints, ResponsiveRules));
    ls := ls + PerEntry(Breakpoints, ResponsiveRules);
  }

  lemma SpacingKeysNoSpace()
    ensures forall i :: 0 <= i < |Spacing| ==> ' ' !in Spacing[i].key
  {
  }

  /** Entry `i`'s rules are the slice of `n` lines starting at line `n * i`. */
  lemma {:induction false} PerEntrySliceAt(t: seq<Entry<int>>, rules: (string, int) -> seq<string>, n: nat, i: nat)
    requires forall k :: 0 <= k < |t| ==> |rules(t[k].key, t[k].value)| == n
    requires i < |t|
    ensures |PerEntry(t, rules)| == n * |t| && n * i + n <= n * |t|
    ensures PerEntry(t, rules)[n * i..n * i + n] == rules(t[i].key, t[i].value)
    decreases |t|
  {
    var m := |t| - 1;
    var front := t[..m];
    forall k | 0 <= k < |front| ensures |rules(front[k].key, front[k].value)| == n {
      assert front[k] == t[k];
    }
    var before := PerEntry(front, rules);
    var last := rules(t[m].key, t[m].value);
    assert PerEntry(t, rules) == before + last;
    MulStep(n, m, m + 1);
    MulStep(n, i, |t|);
    if i < m {
      PerEntrySliceAt(front, rules, n, i);
      MulStep(n, i, m);
      assert front[i] == t[i];
      assert (before + last)[n * i..n * i + n] == before[n * i..n * i + n];
    } else {
      if m > 0 {
        PerEntrySliceAt(front, rules, n, m - 1);
      } else {
        assert before == [];
      }
      assert (before + last)[n * i..n * i + n] == last;
    }
  }

  lemma PerEntrySlice(t: seq<Entry<int>>, rules: (string, int) -> seq<string>, n: nat)
    requires forall i :: 0 <= i < |t| ==> |rules(t[i].key, t[i].value)| == n
    ensures |PerEntry(t, rules)| == n * |t|
    ensures forall i :: 0 <= i < |t| ==>
      n * i + n <= n * |t| && PerEntry(t, rules)[n * i..n * i + n] == rules(t[i].key, t[i].value)
  {
    if t == [] {
      assert PerEntry(t, rules) == [];
    }
    forall i | 0 <= i < |t|
      ensures |PerEntry(t, rules)| == n * |t|
      ensures n * i + n <= n * |t| && PerEntry(t, rules)[n * i..n * i + n] == rules(t[i].key, t[i].value)
    {
      PerEntrySliceAt(t, rules, n, i);
    }
  }

  /** With one rule per entry, line `i` is entry `i`'s rule. */
  lemma {:induction false} PerEntryOne(t: seq<Entry<int>>, rules: (string, int) -> seq<string>)
    requires forall k :: 0 <= k < |t| ==> |rules(t[k].key, t[k].value)| == 1
    ensures |PerEntry(t, rules)| == |t|
    ensures forall i :: 0 <= i < |t| ==> PerEntry(t, rules)[i] == rules(t[i].key, t[i].value)[0]
    decreases |t|
  {
    if t != [] {
      var m := |t| - 1;
      var front := t[..m];
      forall k | 0 <= k < |front| ensures |rules(front[k].key, front[k].value)| == 1 {
        assert front[k] == t[k];
      }
      PerEntryOne(front, rules);
      var before := PerEntry(front, rules);
      assert PerEntry(t, rules) == before + rules(t[m].key, t[m].value);
      forall i | 0 <= i < |t| ensures PerEntry(t, rules)[i] == rules(t[i].key, t[i].value)[0] {
        if i < m {
          assert front[i] == t[i];
        }
      }
    }
  }

  lemma MarginRulesReadBack(key: string, v: int)
    requires ' ' !in key
    ensures forall j :: 0 <= j < 7 ==>
      ParseRule(MarginRules(key, v)[j]) == Some(ParsedRule("." + MarginNames[j] + "-" + key, MarginBodies(v)[j]))
  {
    NamedRulesReadBack(MarginNames, key, MarginBodies(v));
  }

  lemma PaddingRulesReadBack(key: string, v: int)
    requires ' ' !in key
    ensures forall j :: 0 <= j < 7 ==>
      ParseRule(PaddingRules(key, v)[j]) == Some(ParsedRule("." + PaddingNames[j] + "-" + key, PaddingBodies(v)[j]))
  {
    NamedRulesReadBack(PaddingNames, key, PaddingBodies(v));
  }

  function GapBodies(v: int): seq<string> {
    ["gap: " + Px(v) + ";"]
  }

  /**
   * For each spacing step, in table order, the margin pass emits the seven
   * rules m, mt, mr, mb, ml, mx, my of that step and the padding pass the
   * seven rules p, pt, pr, pb, pl, px, py.
   */
  lemma SpacingUtilities()
    ensures |PerEntry(Spacing, MarginRules)| == |PerEntry(Spacing, PaddingRules)| == 7 * |Spacing|
    ensures forall i :: 0 <= i < |Spacing| ==>
      PerEntry(Spacing, MarginRules)[7 * i..7 * i + 7] == MarginRules(Spacing[i].key, Spacing[i].value) &&
      PerEntry(Spacing, PaddingRules)[7 * i..7 * i + 7] == PaddingRules(Spacing[i].key, Spacing[i].value)
  {
    SpacingPasses(Spacing);
  }

  lemma SpacingPasses(t: seq<Entry<int>>)
    ensures |PerEntry(t, MarginRules)| == |PerEntry(t, PaddingRules)| == 7 * |t|
    ensures forall i :: 0 <= i < |t| ==>
      PerEntry(t, MarginRules)[7 * i..7 * i + 7] == MarginRules(t[i].key, t[i].value) &&
      PerEntry(t, PaddingRules)[7 * i..7 * i + 7] == PaddingRules(t[i].key, t[i].value)
  {
    PerEntrySlice(t, MarginRules, 7);
    PerEntrySlice(t, PaddingRules, 7);
  }

  /** The gap pass: one `.gap-<key>` per spacing step, in table order, of the step's value in pixels. */
  lemma GapUtilities()
    ensures |PerEntry(Spacing, GapRules)| == |Spacing|
    ensures forall i :: 0 <= i < |Spacing| ==>
      ParseRule(PerEntry(Spacing, GapRules)[i]) ==
        Some(ParsedRule(".gap-" + Spacing[i].key, "gap: " + Px(Spacing[i].value) + ";"))
  {
    SpacingKeysNoSpace();
    GapPass(Spacing);
  }

  lemma GapPass(t: seq<Entry<int>>)
    requires forall i :: 0 <= i < |t| ==> ' ' !in t[i].key
    ensures |PerEntry(t, GapRules)| == |t|
    ensures forall i :: 0 <= i < |t| ==>
      ParseRule(PerEntry(t, GapRules)[i]) == Some(ParsedRule(".gap-" + t[i].key, "gap: " + Px(t[i].value) + ";"))
  {
    PerEntryOne(t, GapRules);
    forall i | 0 <= i < |t|
      ensures ParseRule(PerEntry(t, GapRules)[i]) == Some(ParsedRule(".gap-" + t[i].key, "gap: " + Px(t[i].value) + ";"))
    {
      assert GapRules(t[i].key, t[i].value)[0] == Rule("." + "gap" + "-" + t[i].key, GapBodies(t[i].value)[0]);
      assert "." + "gap" + "-" + t[i].key == ".gap-" + t[i].key;
      RuleRoundTrip(".gap-" + t[i].key, "gap: " + Px(t[i].value) + ";");
    }
  }

  lemma TextSelector(key: string)
    ensures "." + "text" + "-" + key == ".text-" + key
  {
  }

  /** A `.text-<key>` rule reads back as its class, the font size and the line-height text. */
  lemma TextRuleReadBack(key: string, v: int)
    requires ' ' !in key
    ensures ParseRule(TextRules(key, v)[0]) ==
      Some(ParsedRule(".text-" + key, "font-size: " + Px(v) + "; line-height: " + LineHeightText(key) + "px;"))
  {
    var body := "font-size: " + Px(v) + "; line-height: " + LineHeightText(key) + "px;";
    assert TextRules(key, v)[0] == Rule("." + "text" + "-" + key, body);
    TextSelector(key);
    RuleRoundTrip(".text-" + key, body);
  }

  /** A key with a non-zero line height prints that line height, not the fallback. */
  lemma LineHeightFound(key: string, h: int)
    requires Lookup(LineHeights, key) == Some(h) && h != 0
    ensures LineHeightText(key) == IntToString(h)
  {
  }

  /**
   * Each `.text-<key>` rule pairs the font size with the line height of the
   * same key, so the "normal" fallback never appears, provided every key has a
   * non-zero line height.
   */
  lemma TextPass(t: seq<Entry<int>>, heights: seq<Entry<int>>)
    requires forall i :: 0 <= i < |t| ==> ' ' !in t[i].key
    requires |heights| == |t|
    requires forall i :: 0 <= i < |t| ==>
      Lookup(LineHeights, t[i].key) == Some(heights[i].value) && heights[i].value != 0
    ensures |PerEntry(t, TextRules)| == |t|
    ensures forall i :: 0 <= i < |t| ==>
      ParseRule(PerEntry(t, TextRules)[i]) ==
        Some(ParsedRule(".text-" + t[i].key, "font-size: " + Px(t[i].value) + "; line-height: " + IntToString(heights[i].value) + "px;"))
  {
    PerEntryOne(t, TextRules);
    forall i | 0 <= i < |t|
      ensures ParseRule(PerEntry(t, TextRules)[i]) ==
        Some(ParsedRule(".text-" + t[i].key, "font-size: " + Px(t[i].value) + "; line-height: " + IntToString(heights[i].value) + "px;"))
    {
      TextRuleReadBack(t[i].key, t[i].value);
      LineHeightFound(t[i].key, heights[i].value);
    }
  }

  lemma LineHeightsNonZero()
    ensures forall i :: 0 <= i < |LineHeights| ==> LineHeights[i].value != 0
  {
  }

  lemma FontSizeKeysNoSpace()
    ensures forall i :: 0 <= i < |FontSizes| ==> ' ' !in FontSizes[i].key
  {
  }

  /** The typography pass: one `.text-<key>` per font size, in table order, with the line height of the same key. */
  lemma TextUtilities()
    ensures |PerEntry(FontSizes, TextRules)| == |FontSizes|
    ensures forall i :: 0 <= i < |FontSizes| ==>
      ParseRule(PerEntry(FontSizes, TextRules)[i]) ==
        Some(ParsedRule(".text-" + FontSizes[i].key,
          "font-size: " + Px(FontSizes[i].value) + "; line-height: " + IntToString(LineHeights[i].value) + "px;"))
  {
    FontSizesMatchLineHeights();
    FontSizeKeysNoSpace();
    LineHeightsNonZero();
    forall i | 0 <= i < |FontSizes|
      ensures Lookup(LineHeights, FontSizes[i].key) == Some(LineHeights[i].value)
    {
      assert Keys(FontSizes)[i] == Keys(LineHeights)[i];
      LookupAt(LineHeights, i);
    }
    TextPass(FontSizes, LineHeights);
  }

  /** A font size without a line height would get the text "normal" followed by "px". */
  lemma TextRuleFallback(key: string, v: int)
    requires key !in Keys(LineHeights)
    ensures TextRules(key, v) == [Rule(".text-" + key, "font-size: " + Px(v) + "; line-height: normalpx;")]
  {
    assert LineHeightText(key) == "normal";
    assert "font-size: " + Px(v) + "; line-height: " + "normal" + "px;" == "font-size: " + Px(v) + "; line-height: normalpx;";
    assert "." + "text" + "-" + key == ".text-" + key;
  }

  /** The font-weight pass: one `.font-<key>` per weight, in table order, with the bare number. */
  lemma WeightPass(t: seq<Entry<int>>)
    requires forall i :: 0 <= i < |t| ==> ' ' !in t[i].key
    ensures |PerEntry(t, WeightRules)| == |t|
    ensures forall i :: 0 <= i < |t| ==>
      ParseRule(PerEntry(t, WeightRules)[i]) == Some(ParsedRule(".font-" + t[i].key, "font-weight: " + IntToString(t[i].value) + ";"))
  {
    PerEntryOne(t, WeightRules);
    forall i | 0 <= i < |t|
      ensures ParseRule(PerEntry(t, WeightRules)[i]) == Some(ParsedRule(".font-" + t[i].key, "font-weight: " + IntToString(t[i].value) + ";"))
    {
      var body := "font-weight: " + IntToString(t[i].value) + ";";
      assert WeightRules(t[i].key, t[i].value)[0] == Rule("." + "font" + "-" + t[i].key, body);
      assert "." + "font" + "-" + t[i].key == ".font-" + t[i].key;
      RuleRoundTrip(".font-" + t[i].key, body);
    }
  }

  lemma WeightUtilities()
    ensures |PerEntry(FontWeights, WeightRules)| == |FontWeights|
    ensures forall i :: 0 <= i < |FontWeights| ==>
      ParseRule(PerEntry(FontWeights, WeightRules)[i]) ==
        Some(ParsedRule(".font-" + FontWeights[i].key, "font-weight: " + IntToString(FontWeights[i].value) + ";"))
  {
    assert forall i :: 0 <= i < |FontWeights| ==> ' ' !in FontWeights[i].key;
    WeightPass(FontWeights);
  }

  lemma ContainerRuleAt(key: string, v: int, gate: int)
    requires Lookup(Breakpoints, key) == Some(gate)
    ensures ContainerRules(key, v)[0] ==
      "@media (min-width: " + IntToString(gate) + "px) { .container { max-width: " + Px(v) + "; } }"
  {
    assert BreakpointText(key) == IntToString(gate);
  }

  /** Each container rule is gated by the breakpoint of its own key. */
  lemma ContainerPass(t: seq<Entry<int>>, gates: seq<Entry<int>>)
    requires |gates| == |t|
    requires forall i :: 0 <= i < |t| ==> Lookup(Breakpoints, t[i].key) == Some(gates[i].value)
    ensures |PerEntry(t, ContainerRules)| == |t|
    ensures forall i :: 0 <= i < |t| ==>
      PerEntry(t, ContainerRules)[i] ==
        "@media (min-width: " + IntToString(gates[i].value) + "px) { .container { max-width: " + Px(t[i].value) + "; } }"
  {
    PerEntryOne(t, ContainerRules);
    forall i | 0 <= i < |t|
      ensures PerEntry(t, ContainerRules)[i] ==
        "@media (min-width: " + IntToString(gates[i].value) + "px) { .container { max-width: " + Px(t[i].value) + "; } }"
    {
      ContainerRuleAt(t[i].key, t[i].value, gates[i].value);
    }
  }

  /**
   * One `max-width` rule per container, in table order, under a media query
   * on the breakpoint of the same key, which is always wider than the container.
   */
  lemma ContainerUtilities()
    ensures |PerEntry(Containers, ContainerRules)| == |Containers|
    ensures forall i :: 0 <= i < |Containers| ==>
      PerEntry(Containers, ContainerRules)[i] ==
        "@media (min-width: " + IntToString(Breakpoints[i].value) + "px) { .container { max-width: " + Px(Containers[i].value) + "; } }" &&
      Containers[i].value < Breakpoints[i].value
  {
    ContainersFitBreakpoints();
    ContainerPass(Containers, Breakpoints);
  }

  /** The class prefix of a breakpoint's variants: `.<key>\:`, indented. */
  function VariantPrefix(key: string): string {
    "  ." + key + "\\:"
  }

  lemma VariantHasPrefix(key: string, name: string, body: string)
    ensures |VariantPrefix(key)| <= |Variant(key, name, body)|
    ensures Variant(key, name, body)[..|VariantPrefix(key)|] == VariantPrefix(key)
  {
    assert Variant(key, name, body) == VariantPrefix(key) + (name + " { " + body + " }");
  }

  /**
   * A breakpoint's block is a blank line, a media query on the breakpoint's
   * width, exactly ten rules whose classes all carry the `<key>\:` prefix,
   * and a closing brace.
   */
  lemma ResponsiveBlockShape(key: string, v: int)
    ensures ResponsiveRules(key, v)[0] == ""
    ensures ResponsiveRules(key, v)[1] == "@media (min-width: " + Px(v) + ") {"
    ensures ResponsiveRules(key, v)[12] == "}"
    ensures forall j :: 2 <= j < 12 ==>
      |VariantPrefix(key)| <= |ResponsiveRules(key, v)[j]| &&
      ResponsiveRules(key, v)[j][..|VariantPrefix(key)|] == VariantPrefix(key)
  {
    forall j | 2 <= j < 12
      ensures |VariantPrefix(key)| <= |ResponsiveRules(key, v)[j]|
      ensures ResponsiveRules(key, v)[j][..|VariantPrefix(key)|] == VariantPrefix(key)
    {
      assert ResponsiveRules(key, v)[j] == VariantRules(key)[j - 2];
      VariantHasPrefix(key, VariantNames[j - 2], VariantBodies[j - 2]);
    }
  }

  lemma ResponsivePass(t: seq<Entry<int>>)
    ensures |PerEntry(t, ResponsiveRules)| == 13 * |t|
    ensures forall i :: 0 <= i < |t| ==>
      PerEntry(t, ResponsiveRules)[13 * i..13 * i + 13] == ResponsiveRules(t[i].key, t[i].value)
  {
    PerEntrySlice(t, ResponsiveRules, 13);
  }

  /** One thirteen-line block per breakpoint, in table order. */
  lemma ResponsiveUtilities()
    ensures |PerEntry(Breakpoints, ResponsiveRules)| == 13 * |Breakpoints|
    ensures forall i :: 0 <= i < |Breakpoints| ==>
      PerEntry(Breakpoints, ResponsiveRules)[13 * i..13 * i + 13] == ResponsiveRules(Breakpoints[i].key, Breakpoints[i].value)
  {
    ResponsivePass(Breakpoints);
  }

  lemma {:induction false} PerEntryLength(t: seq<Entry<int>>, rules: (string, int) -> seq<string>, n: nat)
    requires forall k :: 0 <= k < |t| ==> |rules(t[k].key, t[k].value)| == n
    ensures |PerEntry(t, rules)| == n * |t|
    decreases |t|
  {
    if t != [] {
      var front := t[..|t| - 1];
      forall k | 0 <= k < |front| ensures |rules(front[k].key, front[k].value)| == n {
        assert front[k] == t[k];
      }
      PerEntryLength(front, rules, n);
      MulStep(n, |front|, |t|);
    }
  }

  lemma FixedLinesCount()
    ensures |FixedLines()| == 50
  {
  }

  /**
   * The utility stylesheet has 413 lines: 3 opening lines, 7 margin, 7 padding
   * and 1 gap rule for each of the 18 spacing steps, 2 header lines, one rule
   * per font size and per weight (9 each), 50 fixed lines, one rule per
   * container (5) and 13 lines per breakpoint (5).
   */
  lemma UtilityLineCount()
    ensures |UtilityLines()| == 413
  {
    SpacingLineCount();
    TypographyLineCount();
    FixedLinesCount();
    LayoutLineCount();
  }

  lemma SpacingLineCount()
    ensures |PerEntry(Spacing, MarginRules)| == 126 && |PerEntry(Spacing, PaddingRules)| == 126
    ensures |PerEntry(Spacing, GapRules)| == 18
  {
    PerEntryLength(Spacing, MarginRules, 7);
    PerEntryLength(Spacing, PaddingRules, 7);
    PerEntryLength(Spacing, GapRules, 1);
  }

  lemma TypographyLineCount()
    ensures |PerEntry(FontSizes, TextRules)| == 9 && |PerEntry(FontWeights, WeightRules)| == 9
  {
    PerEntryLength(FontSizes, TextRules, 1);
    PerEntryLength(FontWeights, WeightRules, 1);
  }

  lemma LayoutLineCount()
    ensures |PerEntry(Containers, ContainerRules)| == 5 && |PerEntry(Breakpoints, ResponsiveRules)| == 65
  {
    PerEntryLength(Containers, ContainerRules, 1);
    PerEntryLength(Breakpoints, ResponsiveRules, 13);
  }
}
