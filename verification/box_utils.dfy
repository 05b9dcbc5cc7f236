/**
 * The logic behind the Box component: props to utility class names, width and
 * height to inline styles, and border compensation applied to a style.
 */
module BoxUtils {
  import opened Wrappers
  import opened Decimal
  import opened Grid
  import opened BorderTokens
  import opened BorderCompensation

  /** A margin is a spacing step or "auto". */
  datatype MarginValue = MarginAuto | MarginUnits(units: nat)

  /**
   * The Box props the class names are built from; None is an omitted prop.
   * Spacing steps are grid units; display and the colours are free strings.
   */
  datatype BoxProps = BoxProps(
    padding: Option<nat>,
    paddingX: Option<nat>,
    paddingY: Option<nat>,
    paddingTop: Option<nat>,
    paddingRight: Option<nat>,
    paddingBottom: Option<nat>,
    paddingLeft: Option<nat>,
    margin: Option<MarginValue>,
    marginX: Option<MarginValue>,
    marginY: Option<nat>,
    marginTop: Option<nat>,
    marginRight: Option<MarginValue>,
    marginBottom: Option<nat>,
    marginLeft: Option<MarginValue>,
    display: Option<string>,
    borderWidth: Option<BorderWidthToken>,
    borderRadius: Option<RadiusToken>,
    borderColor: Option<string>,
    backgroundColor: Option<string>,
    color: Option<string>,
    className: Option<string>)

  /** JavaScript truthiness of an optional string: undefined and "" are falsy. */
  predicate Truthy(s: Option<string>) {
    s.Some? && s.value != ""
  }

  /** The class a spacing prop emits whenever it is defined, 0 included. */
  function SpacingSlot(prefix: string, v: Option<nat>): Option<string> {
    match v
    case None => None
    case Some(n) => Some(prefix + NatToString(n))
  }

  /** The class a margin prop emits whenever it is defined: its auto class, or the prefix and the step. */
  function MarginSlot(prefix: string, auto: string, v: Option<MarginValue>): Option<string> {
    match v
    case None => None
    case Some(MarginAuto) => Some(auto)
    case Some(MarginUnits(n)) => Some(prefix + NatToString(n))
  }

  /** The class a string prop emits only when it is truthy. */
  function TruthySlot(prefix: string, v: Option<string>): Option<string> {
    if Truthy(v) then Some(prefix + v.value) else None
  }

  /** The class a token prop emits whenever it is set (every token name is a non-empty string). */
  function KeySlot<T>(prefix: string, v: Option<T>, key: T -> string): Option<string> {
    if v.Some? then Some(prefix + key(v.value)) else None
  }

  /** The padding props' slots, in the order their classes are emitted. */
  function PaddingSlots(p: BoxProps): seq<Option<string>> {
    [ SpacingSlot("quad-p-", p.padding),
      SpacingSlot("quad-px-", p.paddingX),
      SpacingSlot("quad-py-", p.paddingY),
      SpacingSlot("quad-pt-", p.paddingTop),
      SpacingSlot("quad-pr-", p.paddingRight),
      SpacingSlot("quad-pb-", p.paddingBottom),
      SpacingSlot("quad-pl-", p.paddingLeft) ]
  }

  /** The margin props' slots, in the order their classes are emitted. */
  function MarginSlots(p: BoxProps): seq<Option<string>> {
    [ MarginSlot("quad-m-", "quad-m-auto", p.margin),
      MarginSlot("quad-mx-", "quad-mx-auto", p.marginX),
      SpacingSlot("quad-my-", p.marginY),
      SpacingSlot("quad-mt-", p.marginTop),
      MarginSlot("quad-mr-", "quad-mr-auto", p.marginRight),
      SpacingSlot("quad-mb-", p.marginBottom),
      MarginSlot("quad-ml-", "quad-ml-auto", p.marginLeft) ]
  }

  /** The display, border and colour props' slots, then the caller's class name. */
  function AppearanceSlots(p: BoxProps): seq<Option<string>> {
    [ TruthySlot("quad-", p.display),
      KeySlot("quad-border-", p.borderWidth, BorderWidthKey),
      KeySlot("quad-rounded-", p.borderRadius, RadiusKey),
      TruthySlot("quad-border-", p.borderColor),
      TruthySlot("quad-bg-", p.backgroundColor),
      TruthySlot("quad-text-", p.color),
      TruthySlot("", p.className) ]
  }

  /** One slot per prop, in the order the classes are emitted. */
  function ClassSlots(p: BoxProps): (slots: seq<Option<string>>)
    ensures |slots| == 21
  {
    PaddingSlots(p) + MarginSlots(p) + AppearanceSlots(p)
  }

  function Opt(slot: Option<string>): seq<string> {
    if slot.Some? then [slot.value] else []
  }

  /** The classes of the filled slots, in slot order. */
  function Emitted(slots: seq<Option<string>>): seq<string> {
    if slots == [] then [] else Opt(slots[0]) + Emitted(slots[1..])
  }

  /** The class list: "quad", then the classes of the props' slots in order. */
  function BoxClassNames(p: BoxProps): seq<string> {
    ["quad"] + Emitted(ClassSlots(p))
  }

  /**
   * Pushes the class of every prop in turn, as the component does; each push
   * below is one of the source's guarded pushes.
   */
  method BuildBoxClassNames(props: BoxProps) returns (classes: seq<string>)
    ensures classes == BoxClassNames(props)
  {
    classes := ["quad"];

    // padding classes
    classes := PushSpacing(classes, "quad-p-", props.padding);
    classes := PushSpacing(classes, "quad-px-", props.paddingX);
    classes := PushSpacing(classes, "quad-py-", props.paddingY);
    classes := PushSpacing(classes, "quad-pt-", props.paddingTop);
    classes := PushSpacing(classes, "quad-pr-", props.paddingRight);
    classes := PushSpacing(classes, "quad-pb-", props.paddingBottom);
    classes := PushSpacing(classes, "quad-pl-", props.paddingLeft);
    PaddingEmitted(["quad"], props);
    ghost var afterPadding := classes;
    assert afterPadding == ["quad"] + Emitted(PaddingSlots(props));

    // margin classes
    classes := PushMargin(classes, "quad-m-", "quad-m-auto", props.margin);
    classes := PushMargin(classes, "quad-mx-", "quad-mx-auto", props.marginX);
    classes := PushSpacing(classes, "quad-my-", props.marginY);
    classes := PushSpacing(classes, "quad-mt-", props.marginTop);
    classes := PushMargin(classes, "quad-mr-", "quad-mr-auto", props.marginRight);
    classes := PushSpacing(classes, "quad-mb-", props.marginBottom);
    classes := PushMargin(classes, "quad-ml-", "quad-ml-auto", props.marginLeft);
    MarginEmitted(afterPadding, props);
    ghost var afterMargin := classes;
    assert afterMargin == afterPadding + Emitted(MarginSlots(props));

    // display, border and colour classes, then the caller's class name
    classes := PushTruthy(classes, "quad-", props.display);
    classes := PushToken(classes, "quad-border-", props.borderWidth, BorderWidthKey);
    classes := PushToken(classes, "quad-rounded-", props.borderRadius, RadiusKey);
    classes := PushTruthy(classes, "quad-border-", props.borderColor);
    classes := PushTruthy(classes, "quad-bg-", props.backgroundColor);
    classes := PushTruthy(classes, "quad-text-", props.color);
    classes := PushTruthy(classes, "", props.className);
    AppearanceEmitted(afterMargin, props);
    assert classes == afterMargin + Emitted(AppearanceSlots(props));

    EmittedThree(["quad"], PaddingSlots(props), MarginSlots(props), AppearanceSlots(props));
  }

  /** Pushes the class of a spacing prop when it is defined (0 included). */
  method PushSpacing(classes: seq<string>, prefix: string, v: Option<nat>) returns (next: seq<string>)
    ensures next == classes + Opt(SpacingSlot(prefix, v))
    ensures v.Some? <==> |next| == |classes| + 1
  {
    next := classes;
    if v != None {
      next := next + [prefix + NatToString(v.value)];
    }
  }

  /** Pushes the class of a margin prop when it is defined: the auto class for "auto". */
  method PushMargin(classes: seq<string>, prefix: string, auto: string, v: Option<MarginValue>)
    returns (next: seq<string>)
    ensures next == classes + Opt(MarginSlot(prefix, auto, v))
    ensures v.Some? <==> |next| == |classes| + 1
  {
    next := classes;
    if v != None {
      if v.value.MarginAuto? {
        next := next + [auto];
      } else {
        next := next + [prefix + NatToString(v.value.units)];
      }
    }
  }

  /** Pushes the class of a token prop when it is set. */
  method PushToken<T>(classes: seq<string>, prefix: string, v: Option<T>, key: T -> string)
    returns (next: seq<string>)
    ensures next == classes + Opt(KeySlot(prefix, v, key))
    ensures v.Some? <==> |next| == |classes| + 1
  {
    next := classes;
    if v.Some? {
      next := next + [prefix + key(v.value)];
    }
  }

  /** Pushes the class of a string prop when it is truthy. */
  method PushTruthy(classes: seq<string>, prefix: string, v: Option<string>) returns (next: seq<string>)
    ensures next == classes + Opt(TruthySlot(prefix, v))
    ensures Truthy(v) <==> |next| == |classes| + 1
  {
    next := classes;
    if Truthy(v) {
      next := next + [prefix + v.value];
    }
  }

  lemma PaddingEmitted(before: seq<string>, p: BoxProps)
    ensures before + Emitted(PaddingSlots(p)) == before + Opt(SpacingSlot("quad-p-", p.padding)) + Opt(SpacingSlot("quad-px-", p.paddingX)) + Opt(SpacingSlot("quad-py-", p.paddingY)) + Opt(SpacingSlot("quad-pt-", p.paddingTop)) + Opt(SpacingSlot("quad-pr-", p.paddingRight)) + Opt(SpacingSlot("quad-pb-", p.paddingBottom)) + Opt(SpacingSlot("quad-pl-", p.paddingLeft))
  {
    EmittedSeven(before, PaddingSlots(p));
  }

  lemma MarginEmitted(before: seq<string>, p: BoxProps)
    ensures before + Emitted(MarginSlots(p)) == before + Opt(MarginSlot("quad-m-", "quad-m-auto", p.margin)) + Opt(MarginSlot("quad-mx-", "quad-mx-auto", p.marginX)) + Opt(SpacingSlot("quad-my-", p.marginY)) + Opt(SpacingSlot("quad-mt-", p.marginTop)) + Opt(MarginSlot("quad-mr-", "quad-mr-auto", p.marginRight)) + Opt(SpacingSlot("quad-mb-", p.marginBottom)) + Opt(MarginSlot("quad-ml-", "quad-ml-auto", p.marginLeft))
  {
    EmittedSeven(before, MarginSlots(p));
  }

  lemma AppearanceEmitted(before: seq<string>, p: BoxProps)
    ensures before + Emitted(AppearanceSlots(p)) == before + Opt(TruthySlot("quad-", p.display)) + Opt(KeySlot("quad-border-", p.borderWidth, BorderWidthKey)) + Opt(KeySlot("quad-rounded-", p.borderRadius, RadiusKey)) + Opt(TruthySlot("quad-border-", p.borderColor)) + Opt(TruthySlot("quad-bg-", p.backgroundColor)) + Opt(TruthySlot("quad-text-", p.color)) + Opt(TruthySlot("", p.className))
  {
    EmittedSeven(before, AppearanceSlots(p));
  }

  /** Emitting seven slots, one at a time. */
  lemma EmittedSeven(before: seq<string>, s: seq<Option<string>>)
    requires |s| == 7
    ensures before + Emitted(s) == before + Opt(s[0]) + Opt(s[1]) + Opt(s[2]) + Opt(s[3]) + Opt(s[4]) + Opt(s[5]) + Opt(s[6])
  {
    assert s[..0] == [];
    assert before + Emitted(s[..0]) == before;
    EmitPrefix(before, s, 1);
    EmitPrefix(before, s, 2);
    EmitPrefix(before, s, 3);
    EmitPrefix(before, s, 4);
    EmitPrefix(before, s, 5);
    EmitPrefix(before, s, 6);
    EmitPrefix(before, s, 7);
    assert s[..7] == s;
  }

  /** One more slot of the prefix emitted after `before`. */
  lemma EmitPrefix(before: seq<string>, s: seq<Option<string>>, k: nat)
    requires 0 < k <= |s|
    ensures before + Emitted(s[..k]) == (before + Emitted(s[..k - 1])) + Opt(s[k - 1])
  {
    EmittedSnoc(s[..k]);
    assert s[..k][..k - 1] == s[..k - 1];
  }

  lemma EmittedSnoc(s: seq<Option<string>>)
    requires |s| > 0
    ensures Emitted(s) == Emitted(s[..|s| - 1]) + Opt(s[|s| - 1])
  {
    var front, last := s[..|s| - 1], s[|s| - 1];
    assert s == front + [last];
    EmittedAppend(front, [last]);
    assert Emitted([last]) == Opt(last) + Emitted([]);
  }

  lemma EmittedThree(before: seq<string>, x: seq<Option<string>>, y: seq<Option<string>>, z: seq<Option<string>>)
    ensures before + Emitted(x + y + z) == before + Emitted(x) + Emitted(y) + Emitted(z)
  {
    EmittedAppend(x, y);
    EmittedAppend(x + y, z);
  }

  lemma {:induction false} EmittedAppend(a: seq<Option<string>>, b: seq<Option<string>>)
    ensures Emitted(a + b) == Emitted(a) + Emitted(b)
  {
    if a == [] {
      assert a + b == b;
    } else {
      assert (a + b)[1..] == a[1..] + b;
      EmittedAppend(a[1..], b);
    }
  }

  /** A class is emitted exactly when some slot holds it. */
  lemma {:induction false} EmittedMembers(s: seq<Option<string>>, c: string)
    ensures c in Emitted(s) <==> exists i :: 0 <= i < |s| && s[i] == Some(c)
  {
    if s != [] {
      EmittedMembers(s[1..], c);
      if c in Emitted(s[1..]) {
        var i :| 0 <= i < |s[1..]| && s[1..][i] == Some(c);
        assert s[i + 1] == Some(c);
      }
      if exists i :: 0 <= i < |s| && s[i] == Some(c) {
        var i :| 0 <= i < |s| && s[i] == Some(c);
        if i > 0 {
          assert s[1..][i - 1] == Some(c);
        }
      }
    }
  }

  /** Whether an optional prop is given at all. */
  function Given<T>(v: Option<T>): nat {
    if v.Some? then 1 else 0
  }

  /** Whether an optional string prop is truthy. */
  function Shown(v: Option<string>): nat {
    if Truthy(v) then 1 else 0
  }

  /**
   * The number of props that produce a class: spacing, margin and token props
   * whenever they are given, the string props only when they are truthy.
   */
  function EmittingProps(p: BoxProps): nat {
    Given(p.padding) + Given(p.paddingX) + Given(p.paddingY) + Given(p.paddingTop)
    + Given(p.paddingRight) + Given(p.paddingBottom) + Given(p.paddingLeft)
    + Given(p.margin) + Given(p.marginX) + Given(p.marginY) + Given(p.marginTop)
    + Given(p.marginRight) + Given(p.marginBottom) + Given(p.marginLeft)
    + Shown(p.display) + Given(p.borderWidth) + Given(p.borderRadius)
    + Shown(p.borderColor) + Shown(p.backgroundColor) + Shown(p.color) + Shown(p.className)
  }

  /** The list starts with the base class and holds one class per emitting prop. */
  lemma BoxClassNamesCount(p: BoxProps)
    ensures BoxClassNames(p)[0] == "quad"
    ensures |BoxClassNames(p)| == 1 + EmittingProps(p)
  {
    EmittedThree([], PaddingSlots(p), MarginSlots(p), AppearanceSlots(p));
    GroupCounts(p);
  }

  lemma GroupCounts(p: BoxProps)
    ensures |Emitted(PaddingSlots(p))| == Given(p.padding) + Given(p.paddingX) + Given(p.paddingY)
      + Given(p.paddingTop) + Given(p.paddingRight) + Given(p.paddingBottom) + Given(p.paddingLeft)
    ensures |Emitted(MarginSlots(p))| == Given(p.margin) + Given(p.marginX) + Given(p.marginY)
      + Given(p.marginTop) + Given(p.marginRight) + Given(p.marginBottom) + Given(p.marginLeft)
    ensures |Emitted(AppearanceSlots(p))| == Shown(p.display) + Given(p.borderWidth) + Given(p.borderRadius)
      + Shown(p.borderColor) + Shown(p.backgroundColor) + Shown(p.color) + Shown(p.className)
  {
    PaddingCount(p);
    MarginCount(p);
    AppearanceCount(p);
  }

  lemma PaddingCount(p: BoxProps)
    ensures |Emitted(PaddingSlots(p))| == Given(p.padding) + Given(p.paddingX) + Given(p.paddingY)
      + Given(p.paddingTop) + Given(p.paddingRight) + Given(p.paddingBottom) + Given(p.paddingLeft)
  {
    var s := PaddingSlots(p);
    SevenCount(s);
    assert Filled(s[0]) == Given(p.padding) && Filled(s[1]) == Given(p.paddingX) && Filled(s[2]) == Given(p.paddingY);
    assert Filled(s[3]) == Given(p.paddingTop) && Filled(s[4]) == Given(p.paddingRight);
    assert Filled(s[5]) == Given(p.paddingBottom) && Filled(s[6]) == Given(p.paddingLeft);
  }

  lemma MarginCount(p: BoxProps)
    ensures |Emitted(MarginSlots(p))| == Given(p.margin) + Given(p.marginX) + Given(p.marginY)
      + Given(p.marginTop) + Given(p.marginRight) + Given(p.marginBottom) + Given(p.marginLeft)
  {
    var s := MarginSlots(p);
    SevenCount(s);
    assert Filled(s[0]) == Given(p.margin) && Filled(s[1]) == Given(p.marginX) && Filled(s[2]) == Given(p.marginY);
    assert Filled(s[3]) == Given(p.marginTop) && Filled(s[4]) == Given(p.marginRight);
    assert Filled(s[5]) == Given(p.marginBottom) && Filled(s[6]) == Given(p.marginLeft);
  }

  lemma AppearanceCount(p: BoxProps)
    ensures |Emitted(AppearanceSlots(p))| == Shown(p.display) + Given(p.borderWidth) + Given(p.borderRadius)
      + Shown(p.borderColor) + Shown(p.backgroundColor) + Shown(p.color) + Shown(p.className)
  {
    var s := AppearanceSlots(p);
    SevenCount(s);
    assert Filled(s[0]) == Shown(p.display) && Filled(s[1]) == Given(p.borderWidth) && Filled(s[2]) == Given(p.borderRadius);
    assert Filled(s[3]) == Shown(p.borderColor) && Filled(s[4]) == Shown(p.backgroundColor);
    assert Filled(s[5]) == Shown(p.color) && Filled(s[6]) == Shown(p.className);
  }

  function Filled(slot: Option<string>): nat {
    if slot.Some? then 1 else 0
  }

  lemma SevenCount(s: seq<Option<string>>)
    requires |s| == 7
    ensures |Emitted(s)| == Filled(s[0]) + Filled(s[1]) + Filled(s[2]) + Filled(s[3]) + Filled(s[4]) + Filled(s[5]) + Filled(s[6])
  {
    EmittedSeven([], s);
    assert forall i :: 0 <= i < 7 ==> |Opt(s[i])| == Filled(s[i]);
  }

  /** Every class after the base one is the class of one of the props, and each prop's class is in the list. */
  lemma BoxClassNamesMembers(p: BoxProps, c: string)
    ensures c in BoxClassNames(p) <==> c == "quad" || exists i :: 0 <= i < 21 && ClassSlots(p)[i] == Some(c)
  {
    EmittedMembers(ClassSlots(p), c);
  }

  /** A zero spacing step still emits its class, and "auto" margins emit their auto class. */
  lemma ZeroAndAutoEmit(p: BoxProps)
    ensures p.padding == Some(0) ==> "quad-p-0" in BoxClassNames(p)
    ensures p.marginY == Some(0) ==> "quad-my-0" in BoxClassNames(p)
    ensures p.margin == Some(MarginAuto) ==> "quad-m-auto" in BoxClassNames(p)
    ensures p.marginX == Some(MarginAuto) ==> "quad-mx-auto" in BoxClassNames(p)
    ensures p.marginRight == Some(MarginAuto) ==> "quad-mr-auto" in BoxClassNames(p)
    ensures p.marginLeft == Some(MarginAuto) ==> "quad-ml-auto" in BoxClassNames(p)
  {
    assert NatToString(0) == "0";
    assert "quad-p-" + "0" == "quad-p-0";
    assert "quad-my-" + "0" == "quad-my-0";
    assert ClassSlots(p)[0] == SpacingSlot("quad-p-", p.padding);
    assert ClassSlots(p)[7] == MarginSlot("quad-m-", "quad-m-auto", p.margin);
    assert ClassSlots(p)[8] == MarginSlot("quad-mx-", "quad-mx-auto", p.marginX);
    assert ClassSlots(p)[9] == SpacingSlot("quad-my-", p.marginY);
    assert ClassSlots(p)[11] == MarginSlot("quad-mr-", "quad-mr-auto", p.marginRight);
    assert ClassSlots(p)[13] == MarginSlot("quad-ml-", "quad-ml-auto", p.marginLeft);
    BoxClassNamesMembers(p, "quad-p-0");
    BoxClassNamesMembers(p, "quad-my-0");
    BoxClassNamesMembers(p, "quad-m-auto");
    BoxClassNamesMembers(p, "quad-mx-auto");
    BoxClassNamesMembers(p, "quad-mr-auto");
    BoxClassNamesMembers(p, "quad-ml-auto");
  }

  /** The caller's truthy class name comes last; an empty one adds nothing. */
  lemma ClassNameLast(p: BoxProps)
    ensures Truthy(p.className) ==> BoxClassNames(p)[|BoxClassNames(p)| - 1] == p.className.value
    ensures p.className == Some("") ==> BoxClassNames(p) == BoxClassNames(p.(className := None))
  {
    var q := p.(className := None);
    assert ClassSlots(p) == ClassSlots(q)[..20] + [TruthySlot("", p.className)];
    EmittedAppend(ClassSlots(q)[..20], [TruthySlot("", p.className)]);
    assert [TruthySlot("", p.className)][1..] == [];
    assert "" + p.className.GetOr("") == p.className.GetOr("");
  }

  /** A Box with no props gets the base class alone. */
  lemma NoPropsBaseOnly(p: BoxProps)
    requires EmittingProps(p) == 0
    ensures BoxClassNames(p) == ["quad"]
  {
    BoxClassNamesCount(p);
  }

  /** A width or height: a spacing step in grid units, or a CSS string ("full", "auto" or any other). */
  datatype SizeSpec = SizeUnits(units: int) | SizeText(text: string)

  /** An inline style value: a string or a number. */
  datatype CssValue = CssText(text: string) | CssNumber(n: int)

  /** An inline style object, from property name to value. */
  type Style = map<string, CssValue>

  /**
   * The CSS value of a size: "full" is the whole container, "auto" stays auto,
   * a step is that many grid units in pixels, and any other string is passed through.
   */
  function SizeCss(v: SizeSpec): (css: string)
    ensures v == SizeText("full") ==> css == "100%"
    ensures v == SizeText("auto") ==> css == "auto"
    ensures v.SizeText? && v.text != "full" && v.text != "auto" ==> css == v.text
    ensures v.SizeUnits? ==> ParsePx(css) == Some(v.units * GRID_UNIT)
  {
    match v
    case SizeText(t) => if t == "full" then "100%" else if t == "auto" then "auto" else t
    case SizeUnits(n) => CreateGridValue(n)
  }

  /** The style holds a width exactly when one is given, a height likewise, and nothing else. */
  method GetWidthHeightStyles(width: Option<SizeSpec>, height: Option<SizeSpec>) returns (style: Style)
    ensures "width" in style <==> width.Some?
    ensures "height" in style <==> height.Some?
    ensures forall key :: key in style ==> key == "width" || key == "height"
    ensures width.Some? ==> style["width"] == CssText(SizeCss(width.value))
    ensures height.Some? ==> style["height"] == CssText(SizeCss(height.value))
  {
    style := map[];
    if width != None {
      if width.value == SizeText("full") {
        style := style["width" := CssText("100%")];
      } else if width.value == SizeText("auto") {
        style := style["width" := CssText("auto")];
      } else if width.value.SizeUnits? {
        style := style["width" := CssText(CreateGridValue(width.value.units))];
      } else {
        style := style["width" := CssText(width.value.text)];
      }
    }
    if height != None {
      if height.value == SizeText("full") {
        style := style["height" := CssText("100%")];
      } else if height.value == SizeText("auto") {
        style := style["height" := CssText("auto")];
      } else if height.value.SizeUnits? {
        style := style["height" := CssText(CreateGridValue(height.value.units))];
      } else {
        style := style["height" := CssText(height.value.text)];
      }
    }
  }

  /** The vertical padding asked for, in pixels: a truthy step times the grid unit, else 0. */
  function PaddingYPx(paddingY: Option<nat>): (px: nat)
    ensures px % GRID_UNIT == 0
    ensures px == 0 <==> paddingY == None || paddingY == Some(0)
    ensures paddingY.Some? ==> px == paddingY.value * GRID_UNIT
  {
    if paddingY.Some? && paddingY.value != 0 then paddingY.value * GRID_UNIT else 0
  }

  /** The compensation the Box asks for: the height in grid units, the same token on top and bottom. */
  function BoxCompensation(height: int, borderWidth: BorderWidthToken, paddingY: Option<nat>): Compensation {
    CalculateBorderCompensation(CompensationInput(
      height * GRID_UNIT,
      Some(BorderToken(borderWidth)),
      Some(BorderToken(borderWidth)),
      None,
      None,
      Some(PaddingYPx(paddingY)),
      None))
  }

  /** What the Box's compensation comes to: the inner height, and equal vertical paddings. */
  lemma BoxCompensationValues(height: int, borderWidth: BorderWidthToken, paddingY: Option<nat>)
    ensures var c, w, py := BoxCompensation(height, borderWidth, paddingY), BorderWidthPx(borderWidth), PaddingYPx(paddingY);
      c.innerHeight == height * GRID_UNIT - 2 * w &&
      c.paddingTop == c.paddingBottom == (if py > w then py - w else 0)
  {
  }

  /**
   * Copies the style, sets its height to the inner height and, when the
   * padding is larger than the border, both vertical paddings to what is left
   * of it; every other property is kept.
   */
  method ApplyBorderCompensation(style: Style, height: int, borderWidth: BorderWidthToken, paddingY: Option<nat>)
    returns (adjusted: Style)
    ensures var w, py := BorderWidthPx(borderWidth), PaddingYPx(paddingY);
      adjusted.Keys == style.Keys + {"height"} + (if py > w then {"paddingTop", "paddingBottom"} else {})
    ensures var w := BorderWidthPx(borderWidth);
      "height" in adjusted && adjusted["height"] == CssText(Px(height * GRID_UNIT - 2 * w))
    ensures var w, py := BorderWidthPx(borderWidth), PaddingYPx(paddingY);
      py > w ==> ("paddingTop" in adjusted && "paddingBottom" in adjusted &&
                  adjusted["paddingTop"] == CssText(Px(py - w)) && adjusted["paddingBottom"] == CssText(Px(py - w)))
    ensures var w, py := BorderWidthPx(borderWidth), PaddingYPx(paddingY);
      forall key :: key in style && key != "height" && !(py > w && (key == "paddingTop" || key == "paddingBottom"))
        ==> adjusted[key] == style[key]
  {
    var compensation := BoxCompensation(height, borderWidth, paddingY);
    BoxCompensationValues(height, borderWidth, paddingY);
    adjusted := style;
    adjusted := adjusted["height" := CssText(Px(compensation.innerHeight))];
    ghost var sized := adjusted;
    if compensation.paddingTop > 0 {
      adjusted := adjusted["paddingTop" := CssText(Px(compensation.paddingTop))];
    }
    if compensation.paddingBottom > 0 {
      adjusted := adjusted["paddingBottom" := CssText(Px(compensation.paddingBottom))];
    }
    CompensatedStyle(style, sized, adjusted, compensation.innerHeight, compensation.paddingTop);
  }

  /** The style after the updates: the new height, both paddings when positive, the rest kept. */
  lemma CompensatedStyle(style: Style, sized: Style, adjusted: Style, inner: int, pad: int)
    requires sized == style["height" := CssText(Px(inner))]
    requires pad > 0 ==> adjusted == sized["paddingTop" := CssText(Px(pad))]["paddingBottom" := CssText(Px(pad))]
    requires pad <= 0 ==> adjusted == sized
    ensures adjusted.Keys == style.Keys + {"height"} + (if pad > 0 then {"paddingTop", "paddingBottom"} else {})
    ensures "height" in adjusted && adjusted["height"] == CssText(Px(inner))
    ensures pad > 0 ==> ("paddingTop" in adjusted && "paddingBottom" in adjusted &&
                         adjusted["paddingTop"] == CssText(Px(pad)) && adjusted["paddingBottom"] == CssText(Px(pad)))
    ensures forall key :: key in style && key != "height" && !(pad > 0 && (key == "paddingTop" || key == "paddingBottom")) ==>
      adjusted[key] == style[key]
  {
  }

  /**
   * The compensated height plus the two borders is the grid height asked for,
   * so the outer box stays on the grid; when the padding exceeds the border,
   * padding plus border is the padding asked for, on the grid too.
   */
  lemma CompensatedBoxOnGrid(height: int, borderWidth: BorderWidthToken, paddingY: Option<nat>)
    ensures var c, w := BoxCompensation(height, borderWidth, paddingY), BorderWidthPx(borderWidth);
      IsGridAligned(c.innerHeight + 2 * w) &&
      (c.paddingTop > 0 ==> IsGridAligned(c.paddingTop + w)) &&
      c.paddingTop == c.paddingBottom &&
      (c.paddingTop > 0 <==> PaddingYPx(paddingY) > w)
  {
    var c, w := BoxCompensation(height, borderWidth, paddingY), BorderWidthPx(borderWidth);
    IsGridAlignedIffMultiple(c.innerHeight + 2 * w);
    IsGridAlignedIffMultiple(PaddingYPx(paddingY));
  }
}
