/**
 * The CSS generator: custom-property declarations for every token table and
 * theme colour, and the utility class rules, emitted line by line.
 */
module Generator {
  import opened Wrappers
  import opened Decimal
  import opened Strings
  import opened Tables
  import opened Themes
  import opened Grid
  import opened ScaleTokens
  import opened SpacingTokens
  import opened Typography
  import opened BorderTokens
  import opened ComponentTokens
  import opened BreakpointTokens

  /** One custom property: `--quad-<name>: <value>;`. */
  datatype Declaration = Declaration(name: string, value: string)

  /** The text of a declaration line, indented by two spaces, without its newline. */
  function DeclLine(name: string, value: string): string {
    "  --quad-" + name + ": " + value + ";"
  }

  /** Reads a declaration line back: the name runs to the first colon, the value to the final semicolon. */
  function ParseDeclLine(line: string): Option<Declaration> {
    if |line| >= 10 && line[..9] == "  --quad-" && line[|line| - 1] == ';' then
      var body := line[9..|line| - 1];
      var i := IndexOf(body, ':');
      if i + 1 < |body| && body[i + 1] == ' ' then Some(Declaration(body[..i], body[i + 2..])) else None
    else None
  }

  /** A declaration line reads back as the name and value it was made of. */
  lemma DeclLineRoundTrip(name: string, value: string)
    requires ':' !in name
    ensures ParseDeclLine(DeclLine(name, value)) == Some(Declaration(name, value))
  {
    var line := DeclLine(name, value);
    assert line[..9] == "  --quad-";
    var body := line[9..|line| - 1];
    assert body == name + ": " + value;
    assert body[|name|] == ':';
    IndexOfFirst(body, ':', |name|);
    assert body[..|name|] == name;
    assert body[|name| + 2..] == value;
  }

  /** The declaration lines of a token table: `<category>-<key>` with each value rendered. */
  function DeclLines<V>(category: string, t: seq<Entry<V>>, render: V -> string): (ls: seq<string>)
    ensures |ls| == |t|
  {
    seq(|t|, i requires 0 <= i < |t| => DeclLine(category + "-" + t[i].key, render(t[i].value)))
  }

  /** Appends one declaration line per table entry, in table order. */
  method AppendDecls<V>(css: string, category: string, t: seq<Entry<V>>, render: V -> string)
    returns (out: string)
    ensures out == css + Lines(DeclLines(category, t, render))
  {
    out := css;
    for i := 0 to |t|
      invariant out == css + Lines(DeclLines(category, t[..i], render))
    {
      var entry := t[i];
      out := out + DeclLine(category + "-" + entry.key, render(entry.value)) + "\n";
      assert DeclLines(category, t[..i + 1], render) ==
        DeclLines(category, t[..i], render) + [DeclLine(category + "-" + entry.key, render(entry.value))];
      LinesSnoc(DeclLines(category, t[..i], render), DeclLine(category + "-" + entry.key, render(entry.value)));
    }
    assert t[..|t|] == t;
  }

  /**
   * Every declaration line of a table reads back as `<category>-<key>` and the
   * rendered value, and splitting the text at newlines gives the lines back.
   */
  lemma DeclLinesRoundTrip<V>(category: string, t: seq<Entry<V>>, render: V -> string)
    requires ':' !in category
    requires forall i :: 0 <= i < |t| ==> ':' !in t[i].key
    requires '\n' !in category
    requires forall i :: 0 <= i < |t| ==> '\n' !in t[i].key && '\n' !in render(t[i].value)
    ensures forall i :: 0 <= i < |t| ==>
      ParseDeclLine(DeclLines(category, t, render)[i]) == Some(Declaration(category + "-" + t[i].key, render(t[i].value)))
    ensures Split(Lines(DeclLines(category, t, render)), '\n') == DeclLines(category, t, render) + [""]
  {
    var ls := DeclLines(category, t, render);
    forall i | 0 <= i < |t|
      ensures ParseDeclLine(ls[i]) == Some(Declaration(category + "-" + t[i].key, render(t[i].value)))
      ensures '\n' !in ls[i]
    {
      DeclLineRoundTrip(category + "-" + t[i].key, render(t[i].value));
    }
    SplitLines(ls);
  }

  /** The declaration texts, in order. */
  function DeclTexts(ds: seq<Declaration>): (ls: seq<string>)
    ensures |ls| == |ds|
  {
    seq(|ds|, i requires 0 <= i < |ds| => DeclLine(ds[i].name, ds[i].value))
  }

  lemma DeclTextsAppend(a: seq<Declaration>, b: seq<Declaration>)
    ensures DeclTexts(a + b) == DeclTexts(a) + DeclTexts(b)
  {
  }

  /** A key's property name under a prefix; an empty prefix is falsy and adds nothing. */
  function PropName(prefix: string, key: string): string {
    if prefix != "" then prefix + "-" + key else key
  }

  /** The declarations `flattenColors` emits: one per colour, depth first in declaration order. */
  function Flatten(kids: seq<Child>, prefix: string): (ds: seq<Declaration>)
    ensures |ds| == LeafCount(kids)
    decreases kids
  {
    if kids == [] then []
    else
      var name := PropName(prefix, kids[0].key);
      (match kids[0].node
       case Leaf(c) => [Declaration(name, c)]
       case Group(sub) => Flatten(sub, name)) + Flatten(kids[1..], prefix)
  }

  lemma {:induction false} FlattenAppend(a: seq<Child>, b: seq<Child>, prefix: string)
    ensures Flatten(a + b, prefix) == Flatten(a, prefix) + Flatten(b, prefix)
  {
    if a == [] {
      assert a + b == b;
    } else {
      assert (a + b)[0] == a[0];
      assert (a + b)[1..] == a[1..] + b;
      FlattenAppend(a[1..], b, prefix);
    }
  }

  /** The text of a list of declarations, one line each. */
  function DeclText(ds: seq<Declaration>): string {
    Lines(DeclTexts(ds))
  }

  lemma DeclTextAppend(a: seq<Declaration>, b: seq<Declaration>)
    ensures DeclText(a + b) == DeclText(a) + DeclText(b)
  {
    DeclTextsAppend(a, b);
    LinesAppend(DeclTexts(a), DeclTexts(b));
  }

  lemma Assoc(a: string, b: string, c: string)
    ensures (a + b) + c == a + (b + c)
  {
  }

  /** Text that is the lines `ls` after `css`, extended by more lines. */
  lemma LinesExtend(css: string, ls: seq<string>, more: seq<string>)
    ensures (css + Lines(ls)) + Lines(more) == css + Lines(ls + more)
  {
    LinesAppend(ls, more);
  }

  /** What one child contributes. */
  lemma FlattenOne(child: Child, prefix: string)
    ensures Flatten([child], prefix) ==
      match child.node
      case Leaf(c) => [Declaration(PropName(prefix, child.key), c)]
      case Group(sub) => Flatten(sub, PropName(prefix, child.key))
  {
    assert [child][1..] == [];
  }

  lemma FlattenStep(kids: seq<Child>, i: nat, prefix: string)
    requires i < |kids|
    ensures DeclText(Flatten(kids[..i + 1], prefix)) ==
      DeclText(Flatten(kids[..i], prefix)) + DeclText(Flatten([kids[i]], prefix))
  {
    assert kids[..i + 1] == kids[..i] + [kids[i]];
    FlattenAppend(kids[..i], [kids[i]], prefix);
    DeclTextAppend(Flatten(kids[..i], prefix), Flatten([kids[i]], prefix));
  }

  /**
   * Walks the children in order, appending a declaration line for each colour
   * and descending into each group with the group's name as the new prefix.
   */
  method FlattenColors(css: string, kids: seq<Child>, prefix: string) returns (out: string)
    ensures out == css + DeclText(Flatten(kids, prefix))
    decreases kids
  {
    out := css;
    for i := 0 to |kids|
      invariant out == css + DeclText(Flatten(kids[..i], prefix))
    {
      var child := kids[i];
      var propName := if prefix != "" then prefix + "-" + child.key else child.key;
      ghost var before := out;
      FlattenOne(child, prefix);
      match child.node {
        case Leaf(c) =>
          out := out + DeclLine(propName, c) + "\n";
          LinesSnoc([], DeclLine(propName, c));
          assert DeclTexts([Declaration(propName, c)]) == [DeclLine(propName, c)];
          assert Lines([DeclLine(propName, c)]) == DeclLine(propName, c) + "\n";
          assert out == before + DeclText(Flatten([child], prefix));
        case Group(sub) =>
          out := FlattenColors(out, sub, propName);
          assert out == before + DeclText(Flatten([child], prefix));
      }
      FlattenStep(kids, i, prefix);
      ghost var done, next := DeclText(Flatten(kids[..i], prefix)), DeclText(Flatten([child], prefix));
      assert out == (css + done) + next;
      Assoc(css, done, next);
    }
    assert kids[..|kids|] == kids;
  }

  /** Naming a key under a prefix and then a path under it is naming the longer path. */
  lemma PropNameNest(prefix: string, key: string, path: seq<string>)
    requires key != "" && path != []
    ensures PropName(PropName(prefix, key), Join(path, "-")) == PropName(prefix, Join([key] + path, "-"))
  {
    var p := [key] + path;
    assert p[0] == key && p[1..] == path;
    assert Join(p, "-") == key + "-" + Join(path, "-");
  }

  /**
   * Flattening names every colour by its path joined with dashes, under the
   * prefix, in the order of the tree's leaves.
   */
  lemma FlattenAsLeaves(kids: seq<Child>, prefix: string)
    requires WellFormed(kids)
    ensures forall i :: 0 <= i < |Flatten(kids, prefix)| ==>
      Flatten(kids, prefix)[i] == Declaration(PropName(prefix, Join(Leaves(kids)[i].path, "-")), Leaves(kids)[i].color)
  {
    forall i | 0 <= i < |Flatten(kids, prefix)|
      ensures Flatten(kids, prefix)[i] == Declaration(PropName(prefix, Join(Leaves(kids)[i].path, "-")), Leaves(kids)[i].color)
    {
      FlattenAt(kids, prefix, i);
    }
  }

  /** The declaration at position `i` is the colour at position `i`, named by its path. */
  lemma {:induction false} FlattenAt(kids: seq<Child>, prefix: string, i: nat)
    requires WellFormed(kids) && i < LeafCount(kids)
    ensures Flatten(kids, prefix)[i] == Declaration(PropName(prefix, Join(Leaves(kids)[i].path, "-")), Leaves(kids)[i].color)
    decreases kids
  {
    var key := kids[0].key;
    var ds, ps := Flatten(kids, prefix), Leaves(kids);
    match kids[0].node {
      case Leaf(c) =>
        if i > 0 {
          FlattenAt(kids[1..], prefix, i - 1);
          assert ds[i] == Flatten(kids[1..], prefix)[i - 1];
          assert ps[i] == Leaves(kids[1..])[i - 1];
        }
      case Group(sub) =>
        var h := LeafCount(sub);
        if i < h {
          var name := PropName(prefix, key);
          FlattenAt(sub, name, i);
          assert ds[i] == Flatten(sub, name)[i];
          assert ps[i] == ColorPath([key] + Leaves(sub)[i].path, Leaves(sub)[i].color);
          PropNameNest(prefix, key, Leaves(sub)[i].path);
        } else {
          FlattenAt(kids[1..], prefix, i - h);
          assert ds[i] == Flatten(kids[1..], prefix)[i - h];
          assert ps[i] == Leaves(kids[1..])[i - h];
        }
    }
  }

  /** The colour declaration lines of a theme. */
  function ThemeColorLines(theme: Theme): (ls: seq<string>)
    ensures |ls| == LeafCount(theme.colors)
  {
    DeclTexts(Flatten(theme.colors, ""))
  }

  method GenerateThemeColorVariables(theme: Theme) returns (css: string)
    ensures css == Lines(ThemeColorLines(theme))
  {
    css := "";
    css := FlattenColors(css, theme.colors, "");
  }

  /** The comment line that opens a theme's colours. */
  function ThemeHeader(theme: Theme): string {
    "  /* Theme colors - " + theme.name + " */"
  }

  /** A theme's colours after a blank line and a comment naming the theme. */
  function ThemeLines(theme: Theme): seq<string> {
    ["", ThemeHeader(theme)] + ThemeColorLines(theme)
  }

  method GenerateThemeVariables(theme: Theme) returns (css: string)
    ensures css == Lines(ThemeLines(theme))
  {
    var colors := GenerateThemeColorVariables(theme);
    css := "\n" + ThemeHeader(theme) + "\n" + colors;
    LinesAppend(["", ThemeHeader(theme)], ThemeColorLines(theme));
    assert Lines(["", ThemeHeader(theme)]) == "\n" + ThemeHeader(theme) + "\n" by {
      assert ["", ThemeHeader(theme)][1..] == [ThemeHeader(theme)];
      assert [ThemeHeader(theme)][1..] == [];
    }
  }

  /**
   * The colour block of a well-formed theme declares each colour of the tree,
   * in order, as `--quad-<path joined by dashes>`, each line reads back as that
   * name and colour, each such path leads to its colour by property access,
   * and the block splits back into its lines.
   */
  lemma ThemeColorsDeclared(theme: Theme)
    requires WellFormed(theme.colors)
    ensures |ThemeColorLines(theme)| == |Leaves(theme.colors)|
    ensures forall i :: 0 <= i < |ThemeColorLines(theme)| ==>
      ParseDeclLine(ThemeColorLines(theme)[i]) ==
        Some(Declaration(Join(Leaves(theme.colors)[i].path, "-"), Leaves(theme.colors)[i].color))
    ensures forall i :: 0 <= i < |Leaves(theme.colors)| ==>
      ColorAt(theme.colors, Leaves(theme.colors)[i].path) == Some(Leaves(theme.colors)[i].color)
    ensures Split(Lines(ThemeColorLines(theme)), '\n') == ThemeColorLines(theme) + [""]
    ensures NoBreaks(ThemeColorLines(theme))
  {
    var kids := theme.colors;
    var ls, ps := ThemeColorLines(theme), Leaves(kids);
    forall i | 0 <= i < |ls|
      ensures ParseDeclLine(ls[i]) == Some(Declaration(Join(ps[i].path, "-"), ps[i].color))
      ensures '\n' !in ls[i]
      ensures ColorAt(kids, ps[i].path) == Some(ps[i].color)
    {
      ThemeColorLineAt(theme, i);
    }
    assert NoBreaks(ls);
    SplitLines(ls);
  }

  /** The line of the `i`th colour: one line that reads back as its path and colour. */
  lemma ThemeColorLineAt(theme: Theme, i: nat)
    requires WellFormed(theme.colors) && i < LeafCount(theme.colors)
    ensures var ls, p := ThemeColorLines(theme), Leaves(theme.colors)[i];
      ParseDeclLine(ls[i]) == Some(Declaration(Join(p.path, "-"), p.color)) &&
      '\n' !in ls[i] &&
      ColorAt(theme.colors, p.path) == Some(p.color)
  {
    var kids := theme.colors;
    var ls, p := ThemeColorLines(theme), Leaves(kids)[i];
    var name := Join(p.path, "-");
    FlattenAt(kids, "", i);
    assert ls[i] == DeclLine(name, p.color);
    LeavesPlain(kids, i);
    JoinAvoids(p.path, "-", ':');
    JoinAvoids(p.path, "-", '\n');
    DeclLineRoundTrip(name, p.color);
    DeclLineOneLine(name, p.color);
    LeavesResolve(kids, i);
  }

  lemma DeclLineOneLine(name: string, value: string)
    requires '\n' !in name && '\n' !in value
    ensures '\n' !in DeclLine(name, value)
  {
  }

  /** Every colour reachable by property access is among the declared ones, and only those are. */
  lemma ThemeColorsComplete(theme: Theme, path: seq<string>, c: string)
    requires WellFormed(theme.colors)
    ensures ColorAt(theme.colors, path) == Some(c) <==>
      exists i :: 0 <= i < |Leaves(theme.colors)| && Leaves(theme.colors)[i] == ColorPath(path, c)
  {
    if ColorAt(theme.colors, path) == Some(c) {
      ResolvedIsListed(theme.colors, path, c);
    }
    if exists i :: 0 <= i < |Leaves(theme.colors)| && Leaves(theme.colors)[i] == ColorPath(path, c) {
      var i :| 0 <= i < |Leaves(theme.colors)| && Leaves(theme.colors)[i] == ColorPath(path, c);
      LeavesResolve(theme.colors, i);
    }
  }

  /** The names of a list of declarations. */
  function Names(ds: seq<Declaration>): (ns: seq<string>)
    ensures |ns| == |ds|
  {
    seq(|ds|, i requires 0 <= i < |ds| => ds[i].name)
  }

  lemma NamesAppend(a: seq<Declaration>, b: seq<Declaration>)
    ensures Names(a + b) == Names(a) + Names(b)
  {
  }

  /** Trees of the same shape declare the same names in the same order. */
  lemma {:induction false} SameShapeSameNames(a: seq<Child>, b: seq<Child>, prefix: string)
    requires SameShape(a, b)
    ensures Names(Flatten(a, prefix)) == Names(Flatten(b, prefix))
    decreases a
  {
    if a != [] {
      var name := PropName(prefix, a[0].key);
      SameShapeSameNames(a[1..], b[1..], prefix);
      match (a[0].node, b[0].node) {
        case (Leaf(x), Leaf(y)) =>
          NamesAppend([Declaration(name, x)], Flatten(a[1..], prefix));
          NamesAppend([Declaration(name, y)], Flatten(b[1..], prefix));
        case (Group(x), Group(y)) =>
          SameShapeSameNames(x, y, name);
          NamesAppend(Flatten(x, name), Flatten(a[1..], prefix));
          NamesAppend(Flatten(y, name), Flatten(b[1..], prefix));
        case _ =>
          assert false;
      }
    }
  }

  /** A radius as CSS: a pixel count with its unit, or its text as written. */
  function RadiusText(r: Radius): string {
    match r
    case RadiusPx(px) => Px(px)
    case RadiusCss(text) => text
  }

  /** A section of the variables block: a blank line, a comment line, then one declaration per entry. */
  function SectionLines<V>(header: string, category: string, t: seq<Entry<V>>, render: V -> string): seq<string> {
    ["", header] + DeclLines(category, t, render)
  }

  lemma LinesBlankThen(ls: seq<string>, line: string)
    ensures Lines(ls + ["", line]) == Lines(ls) + "\n" + line + "\n"
  {
    LinesAppend(ls, ["", line]);
    assert ["", line][1..] == [line];
    assert [line][1..] == [];
    assert Lines([line]) == line + "\n";
    assert Lines(["", line]) == "\n" + (line + "\n");
    Assoc(Lines(ls), "\n", line + "\n");
    Assoc(Lines(ls) + "\n", line, "\n");
  }

  /** Appends a section: the blank line and comment, then the table's declarations. */
  method AppendSection<V>(css: string, header: string, category: string, t: seq<Entry<V>>, render: V -> string)
    returns (out: string)
    ensures out == css + Lines(SectionLines(header, category, t, render))
  {
    out := css + "\n" + header + "\n";
    LinesBlankThen([], header);
    out := AppendDecls(out, category, t, render);
    LinesAppend(["", header], DeclLines(category, t, render));
  }

  const ScaleHeader := "  /* Scale tokens (multiples of 4px) */"
  const SpacingHeader := "  /* Spacing tokens */"
  const FontSizeHeader := "  /* Typography - font sizes */"
  const LineHeightHeader := "  /* Typography - line heights (all multiples of 4px) */"
  const FontWeightHeader := "  /* Typography - font weights */"
  const BorderHeader := "  /* Border properties */"
  const HeightHeader := "  /* Component heights (all multiples of 4px) */"
  const BreakpointHeader := "  /* Breakpoints */"
  const ContainerHeader := "  /* Container widths */"

  /** The token part of the `:root` block: the grid unit, then every token table, section by section. */
  function TokenLines(): seq<string> {
    [DeclLine("grid", Px(GRID_UNIT))]
    + SectionLines(ScaleHeader, "scale", Scales, Px)
    + SectionLines(SpacingHeader, "space", Spacing, Px)
    + SectionLines(FontSizeHeader, "font", FontSizes, Px)
    + SectionLines(LineHeightHeader, "line", LineHeights, Px)
    + SectionLines(FontWeightHeader, "weight", FontWeights, IntToString)
    + SectionLines(BorderHeader, "border", BorderWidths, Px)
    + DeclLines("radius", Radii, RadiusText)
    + SectionLines(HeightHeader, "height", Heights, Px)
    + SectionLines(BreakpointHeader, "breakpoint", Breakpoints, Px)
    + SectionLines(ContainerHeader, "container", Containers, Px)
  }

  /**
   * The whole variables file: a `:root` block with the tokens and the light
   * colours, the dark colours inside a `prefers-color-scheme: dark` media
   * query, and the dark colours again under the `.quad-dark` class.
   */
  function VariableLines(): seq<string> {
    [":root {"] + TokenLines() + ThemeLines(LightTheme) + ["}", ""]
    + ["@media (prefers-color-scheme: dark) {"] + ["  :root {"] + ThemeColorLines(DarkTheme) + ["  }"] + ["}", ""]
    + [".quad-dark {"] + ThemeColorLines(DarkTheme) + ["}"]
  }

  /** The variables file opens the `:root` block, declares the grid unit, then leaves a blank line. */
  lemma VariablesFileOpens()
    ensures VariableLines()[0] == ":root {"
    ensures VariableLines()[1] == "  --quad-grid: 4px;"
    ensures VariableLines()[2] == ""
  {
    var tokens := TokenLines();
    assert tokens[0] == DeclLine("grid", Px(GRID_UNIT));
    assert tokens[1] == "";
    OpensWith(":root {", tokens, VariableLines());
    GridLine();
  }

  /** The list starting with `first` and continuing with `rest`. */
  lemma OpensWith(first: string, rest: seq<string>, ls: seq<string>)
    requires |rest| >= 2
    requires |ls| >= 1 + |rest| && ls[..1 + |rest|] == [first] + rest
    ensures ls[0] == first && ls[1] == rest[0] && ls[2] == rest[1]
  {
    assert ls[0] == ls[..1 + |rest|][0];
    assert ls[1] == ls[..1 + |rest|][1];
    assert ls[2] == ls[..1 + |rest|][2];
  }

  lemma GridLine()
    ensures DeclLine("grid", Px(GRID_UNIT)) == "  --quad-grid: 4px;"
  {
    assert NatToString(4) == "4";
  }

  method AppendTokens(css: string) returns (out: string)
    ensures out == css + Lines(TokenLines())
  {
    out := css + DeclLine("grid", Px(GRID_UNIT)) + "\n";
    ghost var ls := [DeclLine("grid", Px(GRID_UNIT))];
    LinesSnoc([], DeclLine("grid", Px(GRID_UNIT)));
    assert out == css + Lines(ls);
    out := AppendSection(out, ScaleHeader, "scale", Scales, Px);
    LinesExtend(css, ls, SectionLines(ScaleHeader, "scale", Scales, Px));
    ls := ls + SectionLines(ScaleHeader, "scale", Scales, Px);
    assert out == css + Lines(ls);
    out := AppendSection(out, SpacingHeader, "space", Spacing, Px);
    LinesExtend(css, ls, SectionLines(SpacingHeader, "space", Spacing, Px));
    ls := ls + SectionLines(SpacingHeader, "space", Spacing, Px);
    assert out == css + Lines(ls);
    out := AppendSection(out, FontSizeHeader, "font", FontSizes, Px);
    LinesExtend(css, ls, SectionLines(FontSizeHeader, "font", FontSizes, Px));
    ls := ls + SectionLines(FontSizeHeader, "font", FontSizes, Px);
    assert out == css + Lines(ls);
    out := AppendSection(out, LineHeightHeader, "line", LineHeights, Px);
    LinesExtend(css, ls, SectionLines(LineHeightHeader, "line", LineHeights, Px));
    ls := ls + SectionLines(LineHeightHeader, "line", LineHeights, Px);
    assert out == css + Lines(ls);
    out := AppendSection(out, FontWeightHeader, "weight", FontWeights, IntToString);
    LinesExtend(css, ls, SectionLines(FontWeightHeader, "weight", FontWeights, IntToString));
    ls := ls + SectionLines(FontWeightHeader, "weight", FontWeights, IntToString);
    assert out == css + Lines(ls);
    out := AppendSection(out, BorderHeader, "border", BorderWidths, Px);
    LinesExtend(css, ls, SectionLines(BorderHeader, "border", BorderWidths, Px));
    ls := ls + SectionLines(BorderHeader, "border", BorderWidths, Px);
    assert out == css + Lines(ls);
    out := AppendDecls(out, "radius", Radii, RadiusText);
    LinesExtend(css, ls, DeclLines("radius", Radii, RadiusText));
    ls := ls + DeclLines("radius", Radii, RadiusText);
    assert out == css + Lines(ls);
    out := AppendSection(out, HeightHeader, "height", Heights, Px);
    LinesExtend(css, ls, SectionLines(HeightHeader, "height", Heights, Px));
    ls := ls + SectionLines(HeightHeader, "height", Heights, Px);
    assert out == css + Lines(ls);
    out := AppendSection(out, BreakpointHeader, "breakpoint", Breakpoints, Px);
    LinesExtend(css, ls, SectionLines(BreakpointHeader, "breakpoint", Breakpoints, Px));
    ls := ls + SectionLines(BreakpointHeader, "breakpoint", Breakpoints, Px);
    assert out == css + Lines(ls);
    out := AppendSection(out, ContainerHeader, "container", Containers, Px);
    LinesExtend(css, ls, SectionLines(ContainerHeader, "container", Containers, Px));
    ls := ls + SectionLines(ContainerHeader, "container", Containers, Px);
    assert out == css + Lines(ls);
  }

  method GenerateCSSVariables() returns (css: string)
    ensures css == Lines(VariableLines())
  {
    ClosingLines();
    css := ":root {\n";
    ghost var ls := [":root {"];
    css := AppendTokens(css);
    LinesAppend(ls, TokenLines());
    ls := ls + TokenLines();
    var light := GenerateThemeVariables(LightTheme);
    css := css + light;
    LinesAppend(ls, ThemeLines(LightTheme));
    ls := ls + ThemeLines(LightTheme);
    css := css + "}\n\n";
    LinesAppend(ls, ["}", ""]);
    ls := ls + ["}", ""];
    css := css + "@media (prefers-color-scheme: dark) {\n";
    LinesAppend(ls, ["@media (prefers-color-scheme: dark) {"]);
    ls := ls + ["@media (prefers-color-scheme: dark) {"];
    css := css + "  :root {\n";
    LinesAppend(ls, ["  :root {"]);
    ls := ls + ["  :root {"];
    var dark := GenerateThemeColorVariables(DarkTheme);
    css := css + dark;
    LinesAppend(ls, ThemeColorLines(DarkTheme));
    ls := ls + ThemeColorLines(DarkTheme);
    css := css + "  }\n";
    LinesAppend(ls, ["  }"]);
    ls := ls + ["  }"];
    css := css + "}\n\n";
    LinesAppend(ls, ["}", ""]);
    ls := ls + ["}", ""];
    css := css + ".quad-dark {\n";
    LinesAppend(ls, [".quad-dark {"]);
    ls := ls + [".quad-dark {"];
    dark := GenerateThemeColorVariables(DarkTheme);
    css := css + dark;
    LinesAppend(ls, ThemeColorLines(DarkTheme));
    ls := ls + ThemeColorLines(DarkTheme);
    css := css + "}\n";
    LinesAppend(ls, ["}"]);
    ls := ls + ["}"];
  }

  /** The literal lines that open and close the blocks, as text. */
  lemma ClosingLines()
    ensures Lines([":root {"]) == ":root {\n"
    ensures Lines(["}", ""]) == "}\n\n"
    ensures Lines(["@media (prefers-color-scheme: dark) {"]) == "@media (prefers-color-scheme: dark) {\n"
    ensures Lines(["  :root {"]) == "  :root {\n"
    ensures Lines(["  }"]) == "  }\n"
    ensures Lines([".quad-dark {"]) == ".quad-dark {\n"
    ensures Lines(["}"]) == "}\n"
  {
    LinesSnoc([], ":root {");
    LinesSnoc([], "}");
    LinesSnoc(["}"], "");
    LinesSnoc([], "@media (prefers-color-scheme: dark) {");
    LinesSnoc([], "  :root {");
    LinesSnoc([], "  }");
    LinesSnoc([], ".quad-dark {");
  }

  /** Lines none of which holds a line break. */
  predicate NoBreaks(ls: seq<string>) {
    forall i :: 0 <= i < |ls| ==> '\n' !in ls[i]
  }

  lemma NoBreaksAppend(a: seq<string>, b: seq<string>)
    requires NoBreaks(a) && NoBreaks(b)
    ensures NoBreaks(a + b)
  {
  }

  /** Keys that can be read back out of a declaration line. */
  predicate PlainKeys<V>(t: seq<Entry<V>>) {
    forall i :: 0 <= i < |t| ==> Plain(t[i].key)
  }

  /**
   * Each line reads back as a declaration named `<category>-<key>` of the
   * entry at the same position, whose value parses back to the entry's value.
   */
  predicate ReadsBack(ls: seq<string>, category: string, t: seq<Entry<int>>, parse: string -> Option<int>) {
    |ls| == |t| &&
    forall i :: 0 <= i < |t| ==>
      ParseDeclLine(ls[i]).Some? &&
      ParseDeclLine(ls[i]).value.name == category + "-" + t[i].key &&
      parse(ParseDeclLine(ls[i]).value.value) == Some(t[i].value)
  }

  lemma IntTextPlain(i: int)
    ensures Plain(IntToString(i)) && Plain(Px(i))
  {
    var s := IntToString(i);
    if i < 0 {
      assert forall j :: 1 <= j < |s| ==> s[j] == NatToString(-i)[j - 1];
    }
    assert forall j :: 0 <= j < |s| ==> s[j] == '-' || IsDigit(s[j]);
    assert Px(i) == s + "px";
  }

  /**
   * The declarations of a numeric table, rendered by `render`, read back through
   * `parse` to the table itself, and none of them spans two lines.
   */
  lemma NumericDeclsReadBack(category: string, t: seq<Entry<int>>, render: int -> string, parse: string -> Option<int>)
    requires Plain(category) && PlainKeys(t)
    requires forall i :: 0 <= i < |t| ==> parse(render(t[i].value)) == Some(t[i].value) && '\n' !in render(t[i].value)
    ensures ReadsBack(DeclLines(category, t, render), category, t, parse)
    ensures NoBreaks(DeclLines(category, t, render))
  {
    var ls := DeclLines(category, t, render);
    forall i | 0 <= i < |t|
      ensures ParseDeclLine(ls[i]) == Some(Declaration(category + "-" + t[i].key, render(t[i].value)))
      ensures '\n' !in ls[i]
    {
      DeclLineRoundTrip(category + "-" + t[i].key, render(t[i].value));
    }
  }

  lemma PxReadsBack(category: string, t: seq<Entry<int>>)
    requires Plain(category) && PlainKeys(t)
    ensures ReadsBack(DeclLines(category, t, Px), category, t, ParsePx)
    ensures NoBreaks(DeclLines(category, t, Px))
  {
    forall i | 0 <= i < |t| ensures ParsePx(Px(t[i].value)) == Some(t[i].value) && '\n' !in Px(t[i].value) {
      PxRoundTrip(t[i].value);
      IntTextPlain(t[i].value);
    }
    NumericDeclsReadBack(category, t, Px, ParsePx);
  }

  /** The token tables' keys, table by table. */
  lemma ScaleKeysPlain() ensures PlainKeys(Scales) {}
  lemma SpacingKeysPlain() ensures PlainKeys(Spacing) {}
  lemma FontSizeKeysPlain() ensures PlainKeys(FontSizes) {}
  lemma LineHeightKeysPlain() ensures PlainKeys(LineHeights) {}
  lemma FontWeightKeysPlain() ensures PlainKeys(FontWeights) {
    LightWeightNamesPlain();
    HeavyWeightNamesPlain();
    KeysPlain(FontWeights, ["thin", "extralight", "light", "normal", "medium", "semibold", "bold", "extrabold", "black"]);
  }

  lemma LightWeightNamesPlain()
    ensures Plain("thin") && Plain("extralight") && Plain("light") && Plain("normal")
  {
  }

  lemma HeavyWeightNamesPlain()
    ensures Plain("medium") && Plain("semibold") && Plain("bold") && Plain("extrabold") && Plain("black")
  {
  }

  /** A table whose keys are the listed plain keys. */
  lemma KeysPlain<V>(t: seq<Entry<V>>, ks: seq<string>)
    requires Keys(t) == ks
    requires forall k :: k in ks ==> Plain(k)
    ensures PlainKeys(t)
  {
    forall i | 0 <= i < |t| ensures Plain(t[i].key) {
      assert t[i].key == ks[i];
    }
  }
  lemma BorderWidthKeysPlain() ensures PlainKeys(BorderWidths) {}
  lemma RadiusKeysPlain() ensures PlainKeys(Radii) {}
  lemma HeightKeysPlain() ensures PlainKeys(Heights) {}
  lemma BreakpointKeysPlain() ensures PlainKeys(Breakpoints) {}
  lemma ContainerKeysPlain() ensures PlainKeys(Containers) {}

  /**
   * Every token table's declarations in the variables file read back, entry by
   * entry and in table order, to the table's keys and values: pixel tables
   * through the `px` parser, font weights as bare integers.
   */
  lemma ScaleTablesReadBack()
    ensures ReadsBack(DeclLines("scale", Scales, Px), "scale", Scales, ParsePx)
    ensures ReadsBack(DeclLines("space", Spacing, Px), "space", Spacing, ParsePx)
  {
    ScaleKeysPlain();
    PxReadsBack("scale", Scales);
    SpacingKeysPlain();
    PxReadsBack("space", Spacing);
  }

  lemma TypographyTablesReadBack()
    ensures ReadsBack(DeclLines("font", FontSizes, Px), "font", FontSizes, ParsePx)
    ensures ReadsBack(DeclLines("line", LineHeights, Px), "line", LineHeights, ParsePx)
    ensures ReadsBack(DeclLines("weight", FontWeights, IntToString), "weight", FontWeights, ParseInt)
  {
    FontSizeKeysPlain();
    PxReadsBack("font", FontSizes);
    LineHeightKeysPlain();
    PxReadsBack("line", LineHeights);
    FontWeightKeysPlain();
    forall i | 0 <= i < |FontWeights|
      ensures ParseInt(IntToString(FontWeights[i].value)) == Some(FontWeights[i].value)
      ensures '\n' !in IntToString(FontWeights[i].value)
    {
      IntToStringRoundTrip(FontWeights[i].value);
      IntTextPlain(FontWeights[i].value);
    }
    NumericDeclsReadBack("weight", FontWeights, IntToString, ParseInt);
  }

  lemma SizeTablesReadBack()
    ensures ReadsBack(DeclLines("border", BorderWidths, Px), "border", BorderWidths, ParsePx)
    ensures ReadsBack(DeclLines("height", Heights, Px), "height", Heights, ParsePx)
    ensures ReadsBack(DeclLines("breakpoint", Breakpoints, Px), "breakpoint", Breakpoints, ParsePx)
    ensures ReadsBack(DeclLines("container", Containers, Px), "container", Containers, ParsePx)
  {
    BorderWidthKeysPlain();
    PxReadsBack("border", BorderWidths);
    HeightKeysPlain();
    PxReadsBack("height", Heights);
    BreakpointKeysPlain();
    PxReadsBack("breakpoint", Breakpoints);
    ContainerKeysPlain();
    PxReadsBack("container", Containers);
  }

  /**
   * Two well-formed themes of the same shape declare the same custom
   * properties, line for line: each colour line of one reads back under the
   * name of the matching line of the other.
   */
  lemma SameShapeSameProperties(a: Theme, b: Theme)
    requires WellFormed(a.colors) && WellFormed(b.colors) && SameShape(a.colors, b.colors)
    ensures |ThemeColorLines(a)| == |ThemeColorLines(b)|
    ensures forall i :: 0 <= i < |ThemeColorLines(a)| ==>
      ParseDeclLine(ThemeColorLines(a)[i]).Some? && ParseDeclLine(ThemeColorLines(b)[i]).Some? &&
      ParseDeclLine(ThemeColorLines(a)[i]).value.name == ParseDeclLine(ThemeColorLines(b)[i]).value.name
  {
    ThemeColorsDeclared(a);
    ThemeColorsDeclared(b);
    FlattenAsLeaves(a.colors, "");
    FlattenAsLeaves(b.colors, "");
    SameShapeSameNames(a.colors, b.colors, "");
    var fa, fb := Flatten(a.colors, ""), Flatten(b.colors, "");
    forall i | 0 <= i < |fa|
      ensures Join(Leaves(a.colors)[i].path, "-") == Join(Leaves(b.colors)[i].path, "-")
    {
      assert Names(fa)[i] == fa[i].name;
      assert Names(fb)[i] == fb[i].name;
    }
  }

  /**
   * The dark blocks override exactly the properties the light block declares,
   * in the same order, so switching theme leaves no light colour behind.
   */
  lemma DarkOverridesLight()
    ensures |ThemeColorLines(DarkTheme)| == |ThemeColorLines(LightTheme)| == 29
    ensures forall i :: 0 <= i < |ThemeColorLines(LightTheme)| ==>
      ParseDeclLine(ThemeColorLines(LightTheme)[i]).Some? && ParseDeclLine(ThemeColorLines(DarkTheme)[i]).Some? &&
      ParseDeclLine(ThemeColorLines(LightTheme)[i]).value.name == ParseDeclLine(ThemeColorLines(DarkTheme)[i]).value.name
  {
    BuiltInThemes();
    SameShapeSameProperties(LightTheme, DarkTheme);
  }

  lemma DeclLinesNoBreaks<V>(category: string, t: seq<Entry<V>>, render: V -> string)
    requires '\n' !in category
    requires forall i :: 0 <= i < |t| ==> '\n' !in t[i].key && '\n' !in render(t[i].value)
    ensures NoBreaks(DeclLines(category, t, render))
  {
    var ls := DeclLines(category, t, render);
    forall i | 0 <= i < |t|
      ensures '\n' !in ls[i]
    {
      assert ls[i] == "  --quad-" + category + "-" + t[i].key + ": " + render(t[i].value) + ";";
    }
  }

  /** Extending break-free lines by a section whose header and declarations are break-free. */
  lemma SectionNoBreaks<V>(ls: seq<string>, header: string, category: string, t: seq<Entry<V>>, render: V -> string)
    requires NoBreaks(ls) && '\n' !in header && NoBreaks(DeclLines(category, t, render))
    ensures NoBreaks(ls + SectionLines(header, category, t, render))
  {
    var s := SectionLines(header, category, t, render);
    forall i | 0 <= i < |s| ensures '\n' !in s[i] {
      if i >= 2 {
        assert s[i] == DeclLines(category, t, render)[i - 2];
      }
    }
    NoBreaksAppend(ls, s);
  }

  lemma RadiusLinesNoBreaks()
    ensures NoBreaks(DeclLines("radius", Radii, RadiusText))
  {
    RadiusKeysPlain();
    forall i | 0 <= i < |Radii|
      ensures '\n' !in Radii[i].key && '\n' !in RadiusText(Radii[i].value)
    {
      assert Plain(Radii[i].key);
      if Radii[i].value.RadiusPx? {
        IntTextPlain(Radii[i].value.px);
      }
    }
    DeclLinesNoBreaks("radius", Radii, RadiusText);
  }

  /**
   * Each radius line reads back as `radius-<key>` with the value as rendered,
   * and a numeric radius's value parses back to its pixel count.
   */
  /**
   * Each line reads back as the declaration named `<category>-<key>` of the
   * entry at the same position, with the entry's value as rendered.
   */
  predicate DeclsReadBack<V>(ls: seq<string>, category: string, t: seq<Entry<V>>, render: V -> string) {
    |ls| == |t| &&
    forall i :: 0 <= i < |t| ==>
      ParseDeclLine(ls[i]) == Some(Declaration(category + "-" + t[i].key, render(t[i].value)))
  }

  /** With plain keys and one-line values, every declaration line of a table reads back. */
  lemma PlainDeclsReadBack<V>(category: string, t: seq<Entry<V>>, render: V -> string)
    requires Plain(category) && PlainKeys(t)
    requires forall i :: 0 <= i < |t| ==> '\n' !in render(t[i].value)
    ensures DeclsReadBack(DeclLines(category, t, render), category, t, render)
  {
    var ls := DeclLines(category, t, render);
    forall i | 0 <= i < |t|
      ensures ParseDeclLine(ls[i]) == Some(Declaration(category + "-" + t[i].key, render(t[i].value)))
    {
      assert Plain(t[i].key);
      DeclLineRoundTrip(category + "-" + t[i].key, render(t[i].value));
    }
  }

  /**
   * Each radius line reads back as `radius-<key>` with the value as rendered
   * (numbers with "px", text as written), and a numeric radius's value parses
   * back to its pixel count.
   */
  lemma RadiusLinesReadBack()
    ensures DeclsReadBack(DeclLines("radius", Radii, RadiusText), "radius", Radii, RadiusText)
    ensures forall i :: 0 <= i < |Radii| && Radii[i].value.RadiusPx? ==>
      ParsePx(RadiusText(Radii[i].value)) == Some(Radii[i].value.px)
  {
    RadiusKeysPlain();
    RadiusTextsReadBack();
    PlainDeclsReadBack("radius", Radii, RadiusText);
  }

  lemma RadiusTextsReadBack()
    ensures forall i :: 0 <= i < |Radii| ==> '\n' !in RadiusText(Radii[i].value)
    ensures forall i :: 0 <= i < |Radii| && Radii[i].value.RadiusPx? ==>
      ParsePx(RadiusText(Radii[i].value)) == Some(Radii[i].value.px)
  {
    forall i | 0 <= i < |Radii|
      ensures '\n' !in RadiusText(Radii[i].value)
      ensures Radii[i].value.RadiusPx? ==> ParsePx(RadiusText(Radii[i].value)) == Some(Radii[i].value.px)
    {
      RadiusTextReadsBack(Radii[i].value);
    }
  }

  /** A radius text holds no line break, and a pixel radius's text parses back to its count. */
  lemma RadiusTextReadsBack(r: Radius)
    requires r.RadiusCss? ==> '\n' !in r.text
    ensures '\n' !in RadiusText(r)
    ensures r.RadiusPx? ==> ParsePx(RadiusText(r)) == Some(r.px)
  {
    if r.RadiusPx? {
      IntTextPlain(r.px);
      PxRoundTrip(r.px);
    }
  }

  lemma PxLinesNoBreaks(category: string, t: seq<Entry<int>>)
    requires Plain(category) && PlainKeys(t)
    ensures NoBreaks(DeclLines(category, t, Px))
  {
    forall i | 0 <= i < |t|
      ensures '\n' !in t[i].key && '\n' !in Px(t[i].value)
    {
      assert Plain(t[i].key);
      IntTextPlain(t[i].value);
    }
    DeclLinesNoBreaks(category, t, Px);
  }

  /** No line of the token part of the variables file holds a line break. */
  lemma TokenLinesNoBreaks()
    ensures NoBreaks(TokenLines())
  {
    IntTextPlain(GRID_UNIT);
    ghost var ls := [DeclLine("grid", Px(GRID_UNIT))];
    assert ls[0] == "  --quad-grid: " + Px(GRID_UNIT) + ";";
    ScaleSectionsNoBreaks(ls);
    ls := ls + SectionLines(ScaleHeader, "scale", Scales, Px)
      + SectionLines(SpacingHeader, "space", Spacing, Px);
    TypographySectionsNoBreaks(ls);
    ls := ls + SectionLines(FontSizeHeader, "font", FontSizes, Px)
      + SectionLines(LineHeightHeader, "line", LineHeights, Px)
      + SectionLines(FontWeightHeader, "weight", FontWeights, IntToString);
    BorderSectionsNoBreaks(ls);
    ls := ls + SectionLines(BorderHeader, "border", BorderWidths, Px)
      + DeclLines("radius", Radii, RadiusText);
    SizeSectionsNoBreaks(ls);
  }

  lemma ScaleSectionsNoBreaks(ls: seq<string>)
    requires NoBreaks(ls)
    ensures NoBreaks(ls + SectionLines(ScaleHeader, "scale", Scales, Px)
      + SectionLines(SpacingHeader, "space", Spacing, Px))
  {
    ScaleHeadersOneLine();
    ScaleKeysPlain();
    PxLinesNoBreaks("scale", Scales);
    SectionNoBreaks(ls, ScaleHeader, "scale", Scales, Px);
    SpacingKeysPlain();
    PxLinesNoBreaks("space", Spacing);
    SectionNoBreaks(ls + SectionLines(ScaleHeader, "scale", Scales, Px), SpacingHeader, "space", Spacing, Px);
  }

  lemma TypographySectionsNoBreaks(ls: seq<string>)
    requires NoBreaks(ls)
    ensures NoBreaks(ls + SectionLines(FontSizeHeader, "font", FontSizes, Px)
      + SectionLines(LineHeightHeader, "line", LineHeights, Px)
      + SectionLines(FontWeightHeader, "weight", FontWeights, IntToString))
  {
    TypographyHeadersOneLine();
    FontSizeKeysPlain();
    PxLinesNoBreaks("font", FontSizes);
    SectionNoBreaks(ls, FontSizeHeader, "font", FontSizes, Px);
    var ls1 := ls + SectionLines(FontSizeHeader, "font", FontSizes, Px);
    LineHeightKeysPlain();
    PxLinesNoBreaks("line", LineHeights);
    SectionNoBreaks(ls1, LineHeightHeader, "line", LineHeights, Px);
    var ls2 := ls1 + SectionLines(LineHeightHeader, "line", LineHeights, Px);
    WeightLinesNoBreaks();
    SectionNoBreaks(ls2, FontWeightHeader, "weight", FontWeights, IntToString);
  }

  lemma BorderSectionsNoBreaks(ls: seq<string>)
    requires NoBreaks(ls)
    ensures NoBreaks(ls + SectionLines(BorderHeader, "border", BorderWidths, Px)
      + DeclLines("radius", Radii, RadiusText))
  {
    BorderHeaderOneLine();
    BorderWidthKeysPlain();
    PxLinesNoBreaks("border", BorderWidths);
    SectionNoBreaks(ls, BorderHeader, "border", BorderWidths, Px);
    RadiusLinesNoBreaks();
    NoBreaksAppend(ls + SectionLines(BorderHeader, "border", BorderWidths, Px), DeclLines("radius", Radii, RadiusText));
  }

  lemma SizeSectionsNoBreaks(ls: seq<string>)
    requires NoBreaks(ls)
    ensures NoBreaks(ls + SectionLines(HeightHeader, "height", Heights, Px)
      + SectionLines(BreakpointHeader, "breakpoint", Breakpoints, Px)
      + SectionLines(ContainerHeader, "container", Containers, Px))
  {
    SizeHeadersOneLine();
    HeightKeysPlain();
    PxLinesNoBreaks("height", Heights);
    SectionNoBreaks(ls, HeightHeader, "height", Heights, Px);
    var ls1 := ls + SectionLines(HeightHeader, "height", Heights, Px);
    BreakpointKeysPlain();
    PxLinesNoBreaks("breakpoint", Breakpoints);
    SectionNoBreaks(ls1, BreakpointHeader, "breakpoint", Breakpoints, Px);
    var ls2 := ls1 + SectionLines(BreakpointHeader, "breakpoint", Breakpoints, Px);
    ContainerKeysPlain();
    PxLinesNoBreaks("container", Containers);
    SectionNoBreaks(ls2, ContainerHeader, "container", Containers, Px);
  }

  lemma WeightLinesNoBreaks()
    ensures NoBreaks(DeclLines("weight", FontWeights, IntToString))
  {
    FontWeightKeysPlain();
    forall i | 0 <= i < |FontWeights|
      ensures '\n' !in FontWeights[i].key && '\n' !in IntToString(FontWeights[i].value)
    {
      assert Plain(FontWeights[i].key);
      IntTextPlain(FontWeights[i].value);
    }
    DeclLinesNoBreaks("weight", FontWeights, IntToString);
  }

  /** Each section comment fits on one line. */
  lemma ScaleHeadersOneLine()
    ensures '\n' !in ScaleHeader && '\n' !in SpacingHeader
  {
  }

  lemma TypographyHeadersOneLine()
    ensures '\n' !in FontSizeHeader && '\n' !in LineHeightHeader && '\n' !in FontWeightHeader
  {
  }

  lemma BorderHeaderOneLine()
    ensures '\n' !in BorderHeader
  {
  }

  lemma SizeHeadersOneLine()
    ensures '\n' !in HeightHeader && '\n' !in BreakpointHeader && '\n' !in ContainerHeader
  {
    assert HeightHeader == "  /* Component heights " + "(all multiples of 4px) */";
  }

  lemma ThemeLinesNoBreaks(theme: Theme)
    requires WellFormed(theme.colors) && Plain(theme.name)
    ensures NoBreaks(ThemeLines(theme))
  {
    ThemeColorsDeclared(theme);
    ThemeHeaderOneLine(theme.name);
    NoBreaksAppend(["", ThemeHeader(theme)], ThemeColorLines(theme));
  }

  lemma ThemeHeaderOneLine(name: string)
    requires '\n' !in name
    ensures forall theme: Theme :: theme.name == name ==> '\n' !in ThemeHeader(theme)
  {
  }

  /** The layout of the variables file keeps break-free parts break-free. */
  lemma VariablesLayoutNoBreaks(tokens: seq<string>, light: seq<string>, dark: seq<string>)
    requires NoBreaks(tokens) && NoBreaks(light) && NoBreaks(dark)
    ensures NoBreaks([":root {"] + tokens + light + ["}", ""]
      + ["@media (prefers-color-scheme: dark) {"] + ["  :root {"] + dark + ["  }"] + ["}", ""]
      + [".quad-dark {"] + dark + ["}"])
  {
    var ls := [":root {"] + tokens + light + ["}", ""]
      + ["@media (prefers-color-scheme: dark) {"] + ["  :root {"] + dark + ["  }"] + ["}", ""]
      + [".quad-dark {"] + dark + ["}"];
    var n := |tokens| + |light| + 5;
    forall i | 0 <= i < |ls| ensures '\n' !in ls[i] {
      if 1 <= i < 1 + |tokens| {
        assert ls[i] == tokens[i - 1];
      } else if 1 + |tokens| <= i < 1 + |tokens| + |light| {
        assert ls[i] == light[i - 1 - |tokens|];
      } else if n <= i < n + |dark| {
        assert ls[i] == dark[i - n];
      } else if n + |dark| + 4 <= i < n + 2 * |dark| + 4 {
        assert ls[i] == dark[i - n - |dark| - 4];
      }
    }
  }

  lemma BuiltInThemesNoBreaks()
    ensures NoBreaks(ThemeLines(LightTheme)) && NoBreaks(ThemeColorLines(DarkTheme))
  {
    LightLinesNoBreaks();
    DarkLinesNoBreaks();
  }

  lemma LightLinesNoBreaks()
    ensures NoBreaks(ThemeLines(LightTheme))
  {
    BuiltInThemes();
    ThemeLinesNoBreaks(LightTheme);
  }

  lemma DarkLinesNoBreaks()
    ensures NoBreaks(ThemeColorLines(DarkTheme))
  {
    BuiltInThemes();
    ThemeColorsDeclared(DarkTheme);
  }

  /**
   * The variables file is exactly its lines: no generated line holds a line
   * break, so splitting the text at newlines gives back the lines, ending with
   * the empty remainder after the final newline.
   */
  lemma VariablesFileLines()
    ensures Split(Lines(VariableLines()), '\n') == VariableLines() + [""]
  {
    TokenLinesNoBreaks();
    BuiltInThemesNoBreaks();
    VariablesLayoutNoBreaks(TokenLines(), ThemeLines(LightTheme), ThemeColorLines(DarkTheme));
    SplitLines(VariableLines());
  }
}
