# quadcn core, modelled in Dafny

quadcn is a design system built on a 4px grid. Its core has several parts:

- **Tokens.** Tables of scales, spacing, font sizes, line heights, font weights, border widths, radii, component heights, breakpoints and container widths. Each table is a multiple of `GRID_UNIT`, or a documented exception.
- **Grid helpers.** `createGridValue`, `isGridAligned` and `px`.
- **Border compensation.** `calculateBorderCompensation` subtracts 1px or 2px borders from heights and paddings so that the outer box stays on the grid.
- **Themes and the theme registry.**
- **CSS generator.** It writes the custom-property stylesheet (`--quad-*` variables, with a light and a dark colour set) and the utility-class stylesheet.
- **Box helpers in the components package.** They turn Box props into `quad-*` class names, width and height into inline styles, and apply border compensation to a style.
- **`cx`**, which joins class names.

The project models each of these in Dafny:

- **Token tables** are ordered lists of `Entry(key, value)`, in the key order `Object.entries` yields them. Property access is `Tables.Lookup`.
- **Numbers** are integers. Decimal text is written by `Decimal.NatToString`/`IntToString` and read back by a parser, so every rendering comes with a round trip.
- **Generated CSS** is a list of lines (`Strings.Lines`). Each generator function is a method that appends to a `css` string, as the source does. It is proved equal to `Lines(<specification lines>)`. The specification lines are then proved to read back: declarations parse to `(name, value)`, rules parse to `(selector, body)`, and the file splits back into its lines.
- **The registry** is a class holding a `map` that registration updates in place.
- **`buildBoxClassNames`** is a method that pushes one class per prop in source order. It is proved equal to a slot-by-slot specification.

Dafny modules:

| Module | Models |
|---|---|
| `Grid` | `constants.ts` |
| `ScaleTokens`, `SpacingTokens`, `Typography`, `BorderTokens`, `ComponentTokens`, `BreakpointTokens` | the files under `tokens/` |
| `BorderCompensation` | `utils/borders.ts` |
| `Themes` | the theme shape and the two built-in themes |
| `ThemeRegistry` | `themes/registry.ts` |
| `Generator` | the variables half of `css/generator.ts` |
| `UtilityClasses` | `generateUtilityClasses` |
| `BoxUtils` | `boxUtils.ts` |
| `ClassNames` | `classNames.ts` |

`Decimal`, `Strings`, `Tables` and `Wrappers` are shared support modules.

## Model

| member | source | states |
|---|---|---|
| Decimal.NatToString | packages/core/src/constants.ts:26-28 | The decimal text of a natural is a non-empty digit string with no leading zero except for 0 itself. |
| Decimal.IntToString | packages/core/src/constants.ts:26-28 | The text of an integer is non-empty and starts with '-' exactly when the integer is negative. |
| Decimal.NatToStringRoundTrip | packages/core/src/constants.ts:26-28 | Reading the digits of a natural's text back gives the natural. |
| Decimal.IntToStringRoundTrip | packages/core/src/constants.ts:26-28 | Parsing an integer's text gives back that integer, sign included. |
| Decimal.NatToStringInjective | packages/core/src/constants.ts:26-28 | Distinct naturals print as distinct texts. |
| Decimal.IntToStringInjective | packages/core/src/constants.ts:26-28 | Distinct integers print as distinct texts. |
| Decimal.Px | packages/core/src/constants.ts:26-28 | `px(value)` is at least three characters long and ends with "px". |
| Decimal.PxRoundTrip | packages/core/src/constants.ts:26-28 | Parsing `px(value)` gives back `value` for every integer. |
| Grid.JsRemainder | packages/core/src/constants.ts:18 | JavaScript's `%` is the truncated remainder: it differs from the dividend by a multiple of b, lies strictly between -b and b, and takes the sign of the dividend. Together these fix it uniquely. |
| Grid.CreateGridValue | packages/core/src/constants.ts:8-10 | `createGridValue(units)` parses back as `units * GRID_UNIT` pixels. |
| Grid.IsGridAlignedIffMultiple | packages/core/src/constants.ts:17-19 | A value is grid-aligned exactly when it is a multiple of 4, negative values included (both directions). |
| Grid.CreateGridValueIsAlignedPx | packages/core/src/constants.ts:8-10 | `createGridValue` is `px` of `units * GRID_UNIT`, and the pixel value it denotes is grid-aligned. |
| Grid.GridExamples | packages/core/tests/grid.test.ts:5-33 | The grid unit is 4. 0, 4, 8, 12 and 100 are aligned; 1, 2, 3, 5 and 15 are not. 1, 2, 4 and 10 units give "4px", "8px", "16px" and "40px". |
| Grid.AlignedTable | packages/core/src/constants.ts:17-19 | Every value of a table whose values are multiples of the unit is grid-aligned. |
| Tables.Keys | packages/core/src/tokens/scales.ts:33-35 | The `Object.entries` keys of a table are its entry keys, in order. |
| Tables.Lookup | packages/core/src/utils/borders.ts:30 | Property access `table[key]`: undefined exactly when the key is absent; otherwise the value of an entry with that key. |
| Tables.ToMap | packages/core/src/tokens/scales.ts:33-35 | `Object.fromEntries` maps exactly the table's keys, and each key to its entry's value when keys are distinct. |
| ScaleTokens.ScalesAreGridMultiples | packages/core/src/tokens/scales.ts:7-26 | The scale keys are distinct and are the decimal texts of 0..64 in order; each value is `GRID_UNIT` times its key. |
| ScaleTokens.ScaleKeyText | packages/core/src/tokens/scales.ts:7-26 | The i-th scale key is the decimal text of the i-th step. |
| ScaleTokens.ScaleKeysText | packages/core/src/tokens/scales.ts:7-26 | Every scale key is the decimal text of its step. |
| ScaleTokens.ScaleValuesMultiples | packages/core/src/tokens/scales.ts:9-25 | Every scale value is `GRID_UNIT` times its step. |
| ScaleTokens.ScalesDistinct | packages/core/src/tokens/scales.ts:7-26 | No scale key repeats. |
| ScaleTokens.ScalesIncrease | packages/core/src/tokens/scales.ts:7-26 | Steps and pixel values strictly increase along the table. |
| ScaleTokens.ScaleValues | packages/core/src/tokens/scales.ts:33-35 | `scaleValues` has exactly the scale keys, each mapped to `px` of its value. |
| SpacingTokens.SpacingIsScale | packages/core/src/tokens/spacing.ts:7-26 | Spacing has the scale keys in the same order, distinct, and every key looks up the same value in both tables. |
| SpacingTokens.SpacingOnGrid | packages/core/src/tokens/spacing.ts:7-26 | Every spacing value is grid-aligned. |
| SpacingTokens.BuildSpacingValues | packages/core/src/tokens/spacing.ts:31-37 | The reduce loop builds a record with exactly the table's keys, each mapped to `px` of its value, and each entry parses back to the value the table gives that key. |
| SpacingTokens.SpacingValues | packages/core/src/tokens/spacing.ts:31-37 | The exported `spacingValues` record has exactly the scale's keys, and each entry parses back as the scale's value under that key. |
| SpacingTokens.PxEntryParses | packages/core/src/tokens/spacing.ts:33 | One accumulated entry parses back to the table's value for its key. |
| Typography.GridAlignedLineHeight | packages/core/src/tokens/typography.ts:62-65 | The result is grid-aligned, lies in [fontSize, fontSize + 4), and is the least multiple of 4 that is at least the font size. |
| Typography.GridAlignedLineHeightIdempotent | packages/core/src/tokens/typography.ts:62-65 | An aligned size is its own line height, and applying the function twice changes nothing. |
| Typography.LineHeightsOnGrid | packages/core/src/tokens/typography.ts:26-36 | Every line-height token is grid-aligned. |
| Typography.FontSizesMatchLineHeights | packages/core/src/tokens/typography.ts:8-36 | Font sizes and line heights have the same nine distinct keys, xs..5xl, in the same order. |
| Typography.FontSizeKeys | packages/core/src/tokens/typography.ts:8-18 | The font-size keys are the nine size names. |
| Typography.LineHeightKeys | packages/core/src/tokens/typography.ts:26-36 | The line-height keys are the nine size names. |
| Typography.FontWeightSteps | packages/core/src/tokens/typography.ts:43-53 | There are nine weights, from thin to black, with distinct keys; the i-th is 100*(i+1). |
| BorderTokens.BorderWidthIndex | packages/core/src/tokens/borders.ts:8-15 | Every border-width token names an entry of the table. |
| BorderTokens.BorderWidthPx | packages/core/src/tokens/borders.ts:8-13 | A token's width is what the table holds for its key, between 0 and one grid unit. |
| BorderTokens.RadiusIndex | packages/core/src/tokens/borders.ts:20-29 | Every radius token names an entry of the table. |
| BorderTokens.BorderWidthValues | packages/core/src/tokens/borders.ts:8-13 | The keys are none, hairline, thin and thick (distinct), with widths 0, 1, 2 and 4. |
| BorderTokens.OnlyThickIsGridAligned | packages/core/src/tokens/borders.ts:3-13 | Among non-zero widths, exactly "thick" is on the grid; hairline and thin are the exceptions (both directions). |
| BorderTokens.BorderWidthsIncrease | packages/core/src/tokens/borders.ts:8-13 | Border widths strictly increase along the table. |
| BorderTokens.RadiiOnGrid | packages/core/src/tokens/borders.ts:20-27 | Each numeric radius is 4 times its position and grid-aligned; the only non-numeric radius is "full". |
| BorderTokens.RadiiSteps | packages/core/src/tokens/borders.ts:20-27 | The numeric radii step by one grid unit; only "full" is text. |
| BorderTokens.RadiusTokensResolve | packages/core/src/tokens/borders.ts:20-29 | Radius keys are distinct, "full" is "9999px", and every radius token looks up its own entry. |
| BreakpointTokens.BreakpointsOnGrid | packages/core/src/tokens/breakpoints.ts:1-25 | Breakpoints are divisible by 16 and container widths are grid-aligned. |
| BreakpointTokens.SameKeys | packages/core/src/tokens/breakpoints.ts:5-25 | Breakpoints and containers have the same distinct keys sm..2xl, in the same order. |
| BreakpointTokens.ContainersFitBreakpoints | packages/core/src/tokens/breakpoints.ts:15-25 | Each container's key finds its breakpoint, and the container is narrower than that breakpoint. |
| BreakpointTokens.ContainersNarrower | packages/core/src/tokens/breakpoints.ts:15-25 | Each container is narrower than the breakpoint at the same position. |
| BreakpointTokens.BreakpointsIncrease | packages/core/src/tokens/breakpoints.ts:5-25 | Breakpoints and container widths both strictly increase. |
| ComponentTokens.HeightsOnGrid | packages/core/src/tokens/components.ts:6-13 | The i-th height is 4*(6+2i): grid-aligned, strictly increasing, with distinct keys. |
| ComponentTokens.ControlHeightsAreStandard | packages/core/src/tokens/components.ts:20-45 | Button and input heights are equal, and each is the standard height of the same key. |
| ComponentTokens.ControlPaddingsOnGrid | packages/core/src/tokens/components.ts:20-45 | Every control padding has vertical 0 and a grid-aligned horizontal part; the button minimum width is 64, on the grid. |
| BorderCompensation.ResolveBorder | packages/core/src/utils/borders.ts:9-52 | An omitted border is 0, a number is taken as is, and a token is its width in the table. |
| BorderCompensation.EdgePadding | packages/core/src/utils/borders.ts:64-67 | `Math.max(0, desired - border)`: never negative and at least desired - border; when positive, padding plus border is the desired padding. |
| BorderCompensation.CalculateBorderCompensation | packages/core/src/utils/borders.ts:8-79 | The borders plus the inner height make up the desired height. The inner width is 0 for a falsy padding; otherwise inner width plus side borders is twice the padding. Each padding is clamped at 0, and otherwise plus its border equals the desired padding. |
| BorderCompensation.VerticalIndependence | packages/core/src/utils/borders.ts:55-65 | The vertical results depend only on the height, the vertical padding and the top and bottom borders. |
| BorderCompensation.HorizontalIndependence | packages/core/src/utils/borders.ts:56-67 | The horizontal results depend only on the horizontal padding and the side borders. |
| BorderCompensation.NoBordersNoChange | packages/core/src/utils/borders.ts:55-67 | With zero borders, the height and paddings come back unchanged. |
| BorderCompensation.CompensationKeepsOuterBox | packages/core/src/utils/borders.ts:4-7 | When each border fits within the padding, border + padding and border + inner height restore the desired grid values exactly. |
| BorderCompensation.HairlineExample | packages/core/src/utils/borders.ts:8-79 | A 40px box with hairline top and bottom and 16px padding gets a 38px inner height and 15px paddings. |
| Themes.Leaves | packages/core/src/css/generator.ts:118-128 | The colours of a tree with their key paths, depth first; one per colour, none with an empty path. |
| Themes.LeavesStartAtTop | packages/core/src/css/generator.ts:118-128 | Every listed colour's path starts with a top-level key of the tree. |
| Themes.LeavesResolve | packages/core/src/themes/base.ts:5-40 | In a well-formed tree, property access along each listed path yields that path's colour. |
| Themes.LeavesPlain | packages/core/src/themes/base.ts:5-40 | In a well-formed tree, every key on a listed path is plain and no colour contains a line break. |
| Themes.ResolvedIsListed | packages/core/src/themes/base.ts:5-40 | Every colour reachable by property access is listed with its path (the converse of LeavesResolve). |
| Themes.LeafList | packages/core/src/themes/base.ts:8-32 | A group of plain colours has one child per key. |
| Themes.GroupList | packages/core/src/themes/base.ts:7-39 | A group of sub-groups has one child per key. |
| Themes.LeafListShape | packages/core/src/themes/base.ts:8-32 | A colour group over distinct plain keys is well formed, has one colour per key, and has the same shape whatever its colours. |
| Themes.LeafGroupPair | packages/core/src/themes/base.ts:8-32 | Two colourings of the same keys are both well formed, have the same shape, and have one colour per key. |
| Themes.LightDarkLeafGroups | packages/core/src/themes/light.ts:6-30 | The light and dark bg, text, border and accent groups are well formed and pairwise the same shape, with 4, 5, 4 and 4 colours. |
| Themes.BgGroups | packages/core/src/themes/light.ts:6-11 | The light and dark background groups match in shape and have 4 colours. |
| Themes.TextGroups | packages/core/src/themes/light.ts:12-18 | The light and dark text groups match in shape and have 5 colours. |
| Themes.BorderGroups | packages/core/src/themes/light.ts:19-24 | The light and dark border groups match in shape and have 4 colours. |
| Themes.AccentGroups | packages/core/src/themes/light.ts:25-30 | The light and dark accent groups match in shape and have 4 colours. |
| Themes.LightDarkStates | packages/core/src/themes/light.ts:31-52 | The four light and dark state groups are well formed and pairwise the same shape, with 3 colours each. |
| Themes.GroupListCount | packages/core/src/themes/base.ts:7-39 | A group of sub-groups has as many colours as its sub-groups together. |
| Themes.ThemeColorsCount | packages/core/src/themes/base.ts:7-39 | A theme's colours number bg + text + border + accent + state. |
| Themes.GroupListWellFormed | packages/core/src/themes/base.ts:7-39 | Well-formed sub-groups under distinct plain keys give a well-formed group. |
| Themes.GroupListSameShape | packages/core/src/themes/base.ts:7-39 | Pairwise same-shaped sub-groups give same-shaped groups. |
| Themes.LightDarkStateGroups | packages/core/src/themes/light.ts:31-52 | The light and dark state groups are well formed, the same shape, with 12 colours. |
| Themes.StateGroupsWellFormed | packages/core/src/themes/base.ts:33-38 | The light and dark state groups are well formed. |
| Themes.StateListWellFormed | packages/core/src/themes/base.ts:33-38 | Any four well-formed state entries make a well-formed state group. |
| Themes.StateGroupsSameShape | packages/core/src/themes/base.ts:33-38 | The light and dark state groups have the same shape. |
| Themes.StateListSameShape | packages/core/src/themes/base.ts:33-38 | Pairwise same-shaped state entries give same-shaped state groups. |
| Themes.StateGroupsCount | packages/core/src/themes/light.ts:31-52 | The state group has 12 colours. |
| Themes.ThemeColorsWellFormed | packages/core/src/themes/base.ts:7-39 | Five well-formed role groups make a well-formed colour tree. |
| Themes.ThemeColorsSameShape | packages/core/src/themes/base.ts:7-39 | Pairwise same-shaped role groups give same-shaped colour trees. |
| Themes.BuiltInThemes | packages/core/src/themes/light.ts:3-54 | "light" and "dark" are both well-formed `BaseTheme`s of the same shape, with 29 colours. |
| ThemeRegistry.Registry.constructor | packages/core/src/themes/registry.ts:6-9 | The registry starts with exactly "light" and "dark". |
| ThemeRegistry.Registry.RegisterTheme | packages/core/src/themes/registry.ts:16-18 | The name now maps to the theme (added or replaced); every other name keeps its presence and theme; the built-ins stay registered. |
| ThemeRegistry.Registry.GetTheme | packages/core/src/themes/registry.ts:25-27 | Some theme exactly when the name is registered, and then the registered one; otherwise undefined. |
| ThemeRegistry.Registry.GetAllThemes | packages/core/src/themes/registry.ts:33-35 | A shallow copy with exactly the registered names and themes. |
| ThemeRegistry.RegisterThenGet | packages/core/src/themes/registry.ts:6-35 | A fresh registry lists the built-ins. A registered theme is served under its name, "light" is unaffected unless replaced, and the record gains a third name only for a new name. |
| ThemeRegistry.RegisteredCount | packages/core/src/themes/registry.ts:16-18 | Registering a built-in name keeps two names; any other name makes three. |
| Generator.DeclLineRoundTrip | packages/core/src/css/generator.ts:26 | A `--quad-<name>: <value>;` line parses back as its name and value when the name has no colon. |
| Generator.DeclLines | packages/core/src/css/generator.ts:25-27 | One declaration line per table entry. |
| Generator.AppendDecls | packages/core/src/css/generator.ts:25-27 | The `forEach` loop appends exactly the table's declaration lines, in table order. |
| Generator.DeclLinesRoundTrip | packages/core/src/css/generator.ts:25-27 | Each line reads back as `<category>-<key>` and the rendered value, and the appended text splits back into exactly those lines. |
| Generator.Flatten | packages/core/src/css/generator.ts:118-128 | `flattenColors` emits one declaration per colour of the tree. |
| Generator.FlattenColors | packages/core/src/css/generator.ts:118-128 | The recursive walk appends exactly the declaration lines of the flattened tree, in declaration order. |
| Generator.FlattenAsLeaves | packages/core/src/css/generator.ts:118-128 | The i-th declaration of a well-formed tree is named by the i-th colour's path joined with "-" (under the prefix) and holds that colour. |
| Generator.FlattenAt | packages/core/src/css/generator.ts:118-128 | The same, for one index. |
| Generator.ThemeColorLines | packages/core/src/css/generator.ts:114-133 | A theme's colour block has one line per colour. |
| Generator.GenerateThemeColorVariables | packages/core/src/css/generator.ts:114-133 | The produced text is exactly the theme's colour lines, each ended by a newline. |
| Generator.GenerateThemeVariables | packages/core/src/css/generator.ts:104-109 | The produced text is a blank line and the comment naming the theme, then its colour lines. |
| Generator.ThemeColorsDeclared | packages/core/src/css/generator.ts:114-133 | Each colour line of a well-formed theme reads back as the colour's dashed path and the colour, and that path reaches the colour. The block has no stray line breaks and splits back into its lines. |
| Generator.ThemeColorLineAt | packages/core/src/css/generator.ts:125 | One colour line reads back as its path and colour, is a single line, and the path reaches the colour. |
| Generator.ThemeColorsComplete | packages/core/src/css/generator.ts:118-128 | A path reaches a colour exactly when the block lists that path and colour (both directions). |
| Generator.SameShapeSameNames | packages/core/src/css/generator.ts:118-128 | Same-shaped trees flatten to the same property names in the same order. |
| Generator.SameShapeSameProperties | packages/core/src/css/generator.ts:114-133 | Two same-shaped themes declare the same properties line for line. |
| Generator.DarkOverridesLight | packages/core/src/css/generator.ts:82-96 | The dark block declares exactly the 29 properties of the light block, line for line, so the dark overrides replace every light colour. |
| Generator.AppendSection | packages/core/src/css/generator.ts:30-33 | A blank line and comment are appended, then the table's declarations. |
| Generator.TokenLines | packages/core/src/css/generator.ts:21-79 | The token part: the grid unit, then every token table section in source order. |
| Generator.AppendTokens | packages/core/src/css/generator.ts:21-79 | The successive `css +=` steps append exactly the token lines. |
| Generator.VariableLines | packages/core/src/css/generator.ts:17-99 | The variables file: the `:root` block, the media-query dark block, then the `.quad-dark` block. |
| Generator.GenerateCSSVariables | packages/core/src/css/generator.ts:17-99 | The produced text is exactly the variables file's lines, each ended by a newline. |
| Generator.NumericDeclsReadBack | packages/core/src/css/generator.ts:25-79 | Every numeric table's declarations read back, entry by entry and in order, to the table's keys and values. |
| Generator.PxReadsBack | packages/core/src/css/generator.ts:25-79 | Tables rendered with `px` read back through the pixel parser. |
| Generator.ScaleTablesReadBack | packages/core/src/css/generator.ts:24-33 | The scale and spacing declarations read back to the scale and spacing tables. |
| Generator.TypographyTablesReadBack | packages/core/src/css/generator.ts:36-49 | The font-size, line-height and weight declarations read back to their tables (weights without a unit). |
| Generator.SizeTablesReadBack | packages/core/src/css/generator.ts:52-79 | The border, height, breakpoint and container declarations read back to their tables. |
| Generator.RadiusLinesNoBreaks | packages/core/src/css/generator.ts:57-61 | Each radius declaration (numbers with "px", text as written) is a single line. |
| Generator.RadiusLinesReadBack | packages/core/src/css/generator.ts:57-61 | Each radius line reads back as `radius-<key>` with its rendered value, in table order, and a numeric radius's value parses back to its pixel count. |
| Generator.PlainDeclsReadBack | packages/core/src/css/generator.ts:57-61 | For any table with plain keys and one-line values, each declaration line reads back as `<category>-<key>` and the rendered value. |
| Generator.VariablesFileOpens | packages/core/src/css/generator.ts:18-21 | The variables file opens with `:root {`, then `  --quad-grid: 4px;`, then a blank line. |
| Generator.TokenLinesNoBreaks | packages/core/src/css/generator.ts:21-79 | No token line contains a line break. |
| Generator.ThemeLinesNoBreaks | packages/core/src/css/generator.ts:104-109 | A well-formed theme with a plain name emits only single lines. |
| Generator.BuiltInThemesNoBreaks | packages/core/src/css/generator.ts:82-96 | The light and dark blocks emit only single lines. |
| Generator.VariablesFileLines | packages/core/src/css/generator.ts:17-99 | The generated variables file splits on newlines into exactly its lines, plus the empty text after the final newline. |
| UtilityClasses.RuleRoundTrip | packages/core/src/css/generator.ts:147 | A `<selector> { <body> }` rule whose selector has no space parses back as its selector and body. |
| UtilityClasses.AppendRules | packages/core/src/css/generator.ts:146-154 | The `forEach` loop appends exactly the rules of every entry, in table order. |
| UtilityClasses.NamedRulesReadBack | packages/core/src/css/generator.ts:147-153 | Each `.<name>-<key>` rule reads back as its selector and body. |
| UtilityClasses.MarginRules | packages/core/src/css/generator.ts:147-153 | Seven margin rules per spacing entry. |
| UtilityClasses.PaddingRules | packages/core/src/css/generator.ts:158-164 | Seven padding rules per spacing entry. |
| UtilityClasses.MarginRulesReadBack | packages/core/src/css/generator.ts:147-153 | The margin rules of a key read back as `.m-`, `.mt-`, … `.my-<key>` with their margin bodies, in order. |
| UtilityClasses.PaddingRulesReadBack | packages/core/src/css/generator.ts:158-164 | The padding rules of a key read back as `.p-` … `.py-<key>` with their padding bodies, in order. |
| UtilityClasses.SpacingUtilities | packages/core/src/css/generator.ts:146-165 | The margin and padding passes give 7 rules per spacing entry; the rules of entry i sit at lines 7i..7i+7. |
| UtilityClasses.SpacingPasses | packages/core/src/css/generator.ts:146-165 | The same, for any table. |
| UtilityClasses.GapUtilities | packages/core/src/css/generator.ts:168-170 | One `.gap-<key> { gap: <value>px; }` rule per spacing entry, in order. |
| UtilityClasses.GapPass | packages/core/src/css/generator.ts:168-170 | The same, for any table whose keys have no space. |
| UtilityClasses.TextRuleReadBack | packages/core/src/css/generator.ts:174-177 | A `.text-<key>` rule reads back with its font size and line-height text. |
| UtilityClasses.LineHeightFound | packages/core/src/css/generator.ts:175 | When the key has a non-zero line height, that height is printed. |
| UtilityClasses.TextPass | packages/core/src/css/generator.ts:174-177 | For a table whose keys all find non-zero line heights, the i-th rule reads back with the i-th size and height. |
| UtilityClasses.TextUtilities | packages/core/src/css/generator.ts:174-177 | The font-size rules read back as each size paired with the line height of the same key. |
| UtilityClasses.TextRuleFallback | packages/core/src/css/generator.ts:175-176 | A key without a line height falls back to "normal", printed as "normalpx". |
| UtilityClasses.WeightPass | packages/core/src/css/generator.ts:180-182 | One `.font-<key> { font-weight: <value>; }` rule per entry, in order. |
| UtilityClasses.WeightUtilities | packages/core/src/css/generator.ts:180-182 | The same, for the font-weight table. |
| UtilityClasses.ContainerRuleAt | packages/core/src/css/generator.ts:240-242 | A container's media query uses the breakpoint of its key. |
| UtilityClasses.ContainerPass | packages/core/src/css/generator.ts:240-242 | One media rule per container, gated at the matching breakpoint. |
| UtilityClasses.ContainerUtilities | packages/core/src/css/generator.ts:240-242 | Each container rule is gated at the breakpoint of the same key, which is wider than the container. |
| UtilityClasses.VariantHasPrefix | packages/core/src/css/generator.ts:248-261 | Every responsive variant starts with the indented `.<key>\:` class prefix. |
| UtilityClasses.ResponsiveBlockShape | packages/core/src/css/generator.ts:245-264 | A breakpoint block is a blank line, `@media (min-width: <v>px) {`, ten prefixed variants, then `}`. |
| UtilityClasses.ResponsivePass | packages/core/src/css/generator.ts:245-264 | Each entry contributes 13 lines, at 13i..13i+13. |
| UtilityClasses.ResponsiveUtilities | packages/core/src/css/generator.ts:245-264 | The same, for the breakpoint table. |
| UtilityClasses.GenerateUtilityClasses | packages/core/src/css/generator.ts:139-267 | The produced text is exactly the utility lines in emission order, each ended by a newline. |
| UtilityClasses.FixedLinesCount | packages/core/src/css/generator.ts:185-238 | The fixed flex, grid, colour, border and container catalogue is 50 lines. |
| UtilityClasses.UtilityLineCount | packages/core/src/css/generator.ts:139-267 | The utility stylesheet has 413 lines. |
| UtilityClasses.SpacingLineCount | packages/core/src/css/generator.ts:146-170 | 126 margin, 126 padding and 18 gap rules. |
| UtilityClasses.TypographyLineCount | packages/core/src/css/generator.ts:173-182 | 9 font-size rules and 9 font-weight rules. |
| UtilityClasses.LayoutLineCount | packages/core/src/css/generator.ts:240-264 | 5 container rules and 65 responsive lines. |
| BoxUtils.ClassSlots | packages/components/src/utils/boxUtils.ts:18-151 | One class slot per prop: 21 in all. |
| BoxUtils.BuildBoxClassNames | packages/components/src/utils/boxUtils.ts:18-151 | The pushes produce "quad" followed by the class of every filled slot, in prop order. |
| BoxUtils.PushSpacing | packages/components/src/utils/boxUtils.ts:45-71 | A defined spacing prop (0 included) appends `<prefix><n>`; an undefined one appends nothing (both directions). |
| BoxUtils.PushMargin | packages/components/src/utils/boxUtils.ts:74-116 | A defined margin appends its "auto" class or its step class; an undefined one appends nothing. |
| BoxUtils.PushToken | packages/components/src/utils/boxUtils.ts:124-130 | A given border token appends the class of its key; none appends nothing. |
| BoxUtils.PushTruthy | packages/components/src/utils/boxUtils.ts:119-148 | A string prop appends a class exactly when it is truthy (defined and non-empty). |
| BoxUtils.PaddingEmitted | packages/components/src/utils/boxUtils.ts:45-71 | The padding classes are those of p, px, py, pt, pr, pb, pl in that order. |
| BoxUtils.MarginEmitted | packages/components/src/utils/boxUtils.ts:74-116 | The margin classes are those of m, mx, my, mt, mr, mb, ml in that order. |
| BoxUtils.AppearanceEmitted | packages/components/src/utils/boxUtils.ts:119-148 | Display, border width, radius, border colour, background, colour, then className, in that order. |
| BoxUtils.EmittedMembers | packages/components/src/utils/boxUtils.ts:18-151 | A class is emitted exactly when some slot holds it (both directions). |
| BoxUtils.BoxClassNamesCount | packages/components/src/utils/boxUtils.ts:18-151 | The list starts with "quad" and has one more class per emitting prop. |
| BoxUtils.GroupCounts | packages/components/src/utils/boxUtils.ts:45-148 | Each group emits one class per defined spacing prop, per given token and per truthy string. |
| BoxUtils.PaddingCount | packages/components/src/utils/boxUtils.ts:45-71 | The padding group emits one class per defined padding prop. |
| BoxUtils.MarginCount | packages/components/src/utils/boxUtils.ts:74-116 | The margin group emits one class per defined margin prop. |
| BoxUtils.AppearanceCount | packages/components/src/utils/boxUtils.ts:119-148 | The appearance group emits one class per given token and per truthy string. |
| BoxUtils.BoxClassNamesMembers | packages/components/src/utils/boxUtils.ts:18-151 | A class is in the list exactly when it is "quad" or a slot's class (both directions). |
| BoxUtils.ZeroAndAutoEmit | packages/components/src/utils/boxUtils.ts:45-88 | A spacing of 0 still emits its class (`!== undefined`), and "auto" for margin, marginX, marginRight or marginLeft emits its auto class. |
| BoxUtils.ClassNameLast | packages/components/src/utils/boxUtils.ts:41-148 | A truthy className comes last; an empty one adds nothing. |
| BoxUtils.NoPropsBaseOnly | packages/components/src/utils/boxUtils.ts:18-19 | With no emitting prop, the list is just "quad". |
| BoxUtils.SizeCss | packages/components/src/utils/boxUtils.ts:165-175 | "full" is "100%", "auto" stays "auto", other text passes through, and a number n reads back as n grid units in pixels. |
| BoxUtils.GetWidthHeightStyles | packages/components/src/utils/boxUtils.ts:159-190 | The style has a width key exactly when a width is given, and likewise for height. It has no other keys, and each value is the converted size. |
| BoxUtils.PaddingYPx | packages/components/src/utils/boxUtils.ts:211 | A given paddingY is multiplied by the grid unit, an undefined one gives 0; the result is a grid multiple, and 0 exactly when paddingY is undefined or 0. |
| BoxUtils.BoxCompensationValues | packages/components/src/utils/boxUtils.ts:200-212 | The inner height is height*4 minus both borders; top and bottom paddings are py - w when that is positive, else 0. |
| BoxUtils.ApplyBorderCompensation | packages/components/src/utils/boxUtils.ts:200-227 | The new style has the old keys plus "height", plus both vertical paddings only when they are positive. Height and paddings hold the compensated pixel values; every other key keeps its value. |
| BoxUtils.CompensatedStyle | packages/components/src/utils/boxUtils.ts:214-224 | Spreading the style and setting height and the positive paddings gives exactly those keys and values. |
| BoxUtils.CompensatedBoxOnGrid | packages/components/src/utils/boxUtils.ts:193-227 | Inner height plus both borders is on the grid, positive padding plus border is on the grid, top equals bottom, and padding is set exactly when py exceeds the border. |
| ClassNames.Retained | packages/components/src/utils/classNames.ts:16 | `filter(Boolean)` keeps at most all arguments, and every kept text is non-empty. |
| ClassNames.Cx | packages/components/src/utils/classNames.ts:15-17 | The result is "" exactly when no argument is truthy. |
| ClassNames.RetainedEmpty | packages/components/src/utils/classNames.ts:16 | Nothing is kept exactly when every argument is falsy. |
| ClassNames.RetainedAppend | packages/components/src/utils/classNames.ts:16 | Filtering distributes over concatenation. |
| ClassNames.CxAppend | packages/components/src/utils/classNames.ts:15-17 | The class string of a concatenation is the two joined by one space; an all-falsy side contributes nothing. |
| ClassNames.CxDropsFalsy | packages/components/src/utils/classNames.ts:15-17 | Inserting a falsy argument anywhere changes nothing. |
| ClassNames.CxSplitsIntoRetained | packages/components/src/utils/classNames.ts:15-17 | Splitting the result on spaces gives back exactly the kept arguments, in order, when none contains a space. |
| ClassNames.RetainedNoSpaces | packages/components/src/utils/classNames.ts:16 | Kept texts without spaces stay without spaces. |
| ClassNames.CxExamples | packages/components/src/utils/classNames.ts:7-13 | `cx("btn", "btn-primary")` is "btn btn-primary", and `isActive && "active"` adds " active" only when active. A literal `true` prints as "true". |
| ClassNames.ButtonClasses | packages/components/src/utils/classNames.ts:8-9 | `cx("btn", "btn-primary")` is "btn btn-primary". |
| ClassNames.ActiveButtonClasses | packages/components/src/utils/classNames.ts:11-13 | `cx("btn", "btn-primary", isActive && "active")` ends in " active" exactly when active. |
| ClassNames.MixedClasses | packages/components/src/utils/classNames.ts:15-16 | Falsy values (undefined, "") are dropped and `true` is kept as "true". |

## Left out

- `generateCSSFiles` (packages/core/src/css/generator.ts:273-296) creates a directory, writes files, copies `reset.css` and logs. It is file-system I/O. The contents it writes are modelled by `GenerateCSSVariables` and `GenerateUtilityClasses`.
- React components and the docs app are outside the core: Box, Stack, Text, Button, Card, Panel, GridOverlay and ThemeProvider.
- Numbers are integers throughout. Fractional grid units, such as `createGridValue(1.5)` giving "6px", and JavaScript's float formatting are not modelled.
- `Grid.CreateGridValue`: stated for integer units only, because fractional units need float-to-text formatting.
- Typed keys replace plain JavaScript objects, so inherited prototype keys such as `toString` are not modelled. `Tables.Lookup` finds only own entries.
- `BorderCompensation.ResolveBorder`: a present border token is always resolved through the table. The "falsy token" branch (`borderTop ? … : 0`) cannot be reached with the TypeScript token type and is not modelled; an omitted border is 0.
- `BoxUtils.BuildBoxClassNames`: the props' runtime types are narrowed. Spacing props are grid steps (naturals), margins are a step or "auto", and border props are tokens. The source's string interpolation of arbitrary values is not modelled.
- The inline style of `applyBorderCompensation` is a map from property names to CSS text. The source's `{...style}` spread is a map copy, and object identity is not modelled.
- Themes are immutable values (a colour tree). Themes shared by reference between the registry and callers, and mutation of a theme object after registration, are not modelled.
- The registry is an instance of `ThemeRegistry.Registry`, not a module-level singleton. `RegisterThenGet` starts from a fresh registry.
- `Themes.ColorAt` resolves a path through the first child with a matching key. Well-formed trees have distinct keys, so this only matters for malformed themes.
- The fallbacks `lineHeights[key] || "normal"` and `breakpoints[key]` (which would print "undefined") cannot be reached with the built-in tables. They are modelled (`LineHeightText`, `BreakpointText`), and `UtilityClasses.TextRuleFallback` shows the "normalpx" text such a key would give.
- `UtilityClasses.GenerateUtilityClasses`: the whole utility file is not proved to split back into its lines; only the variables file has that lemma (`Generator.VariablesFileLines`). Each utility pass is proved to read back rule by rule.
- The flex, grid, colour, border and container catalogue of `generateUtilityClasses` (lines 185-238) is modelled as fixed lines of text. Only its line count is proved.
