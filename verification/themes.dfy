/**
 * Themes: a name and a tree of colours, grouped by role (background, text,
 * border, accent, state), with the built-in light and dark themes.
 */
module Themes {
  import opened Wrappers

  /** A colour tree node: a colour value, or a group of named children in declaration order. */
  datatype ColorTree = Leaf(color: string) | Group(kids: seq<Child>)

  /** A named child of a colour group. */
  datatype Child = Child(key: string, node: ColorTree)

  datatype Theme = Theme(name: string, colors: seq<Child>)

  /** The number of colours in a list of children, counting through nested groups. */
  function LeafCount(kids: seq<Child>): nat
    decreases kids
  {
    if kids == [] then 0
    else
      (match kids[0].node
       case Leaf(_) => 1
       case Group(sub) => LeafCount(sub)) + LeafCount(kids[1..])
  }

  /** A colour with the keys that lead to it from the top of the tree. */
  datatype ColorPath = ColorPath(path: seq<string>, color: string)

  /** Puts `key` in front of every path. */
  function Under(key: string, ps: seq<ColorPath>): (qs: seq<ColorPath>)
    ensures |qs| == |ps|
    ensures forall i :: 0 <= i < |ps| ==> qs[i] == ColorPath([key] + ps[i].path, ps[i].color)
  {
    seq(|ps|, i requires 0 <= i < |ps| => ColorPath([key] + ps[i].path, ps[i].color))
  }

  /** Every colour of a tree with its path, depth first in declaration order. */
  function Leaves(kids: seq<Child>): (ps: seq<ColorPath>)
    ensures |ps| == LeafCount(kids)
    ensures forall i :: 0 <= i < |ps| ==> ps[i].path != []
    decreases kids
  {
    if kids == [] then []
    else
      (match kids[0].node
       case Leaf(c) => [ColorPath([kids[0].key], c)]
       case Group(sub) => Under(kids[0].key, Leaves(sub))) + Leaves(kids[1..])
  }

  /** Property access along a path, `colors.state.info.bg`; None stands for `undefined` or a group. */
  function ColorAt(kids: seq<Child>, path: seq<string>): Option<string>
    decreases kids
  {
    if path == [] || kids == [] then None
    else if kids[0].key == path[0] then
      match kids[0].node
      case Leaf(c) => if |path| == 1 then Some(c) else None
      case Group(sub) => ColorAt(sub, path[1..])
    else ColorAt(kids[1..], path)
  }

  /** Text that fits on one line and holds no colon. */
  predicate Plain(s: string) {
    ':' !in s && '\n' !in s
  }

  /**
   * The shape every theme has: non-empty plain keys, distinct among siblings,
   * and colours that fit on one line.
   */
  predicate WellFormed(kids: seq<Child>)
    decreases kids
  {
    kids == [] ||
    (kids[0].key != "" && Plain(kids[0].key) &&
     (forall j :: 1 <= j < |kids| ==> kids[j].key != kids[0].key) &&
     (match kids[0].node
      case Leaf(c) => '\n' !in c
      case Group(sub) => WellFormed(sub)) &&
     WellFormed(kids[1..]))
  }

  /** Two trees with the same keys in the same places, differing at most in colours. */
  predicate SameShape(a: seq<Child>, b: seq<Child>)
    decreases a
  {
    |a| == |b| &&
    (a == [] ||
     (a[0].key == b[0].key &&
      (match (a[0].node, b[0].node)
       case (Leaf(_), Leaf(_)) => true
       case (Group(x), Group(y)) => SameShape(x, y)
       case _ => false) &&
      SameShape(a[1..], b[1..])))
  }

  /** Every path starts with a key of the top level. */
  lemma {:induction false} LeavesStartAtTop(kids: seq<Child>, i: nat)
    requires i < |Leaves(kids)|
    ensures exists j :: 0 <= j < |kids| && kids[j].key == Leaves(kids)[i].path[0]
    decreases kids
  {
    var head := match kids[0].node
      case Leaf(c) => [ColorPath([kids[0].key], c)]
      case Group(sub) => Under(kids[0].key, Leaves(sub));
    if i < |head| {
      assert kids[0].key == Leaves(kids)[i].path[0];
    } else {
      LeavesStartAtTop(kids[1..], i - |head|);
      var j :| 0 <= j < |kids[1..]| && kids[1..][j].key == Leaves(kids[1..])[i - |head|].path[0];
      assert kids[j + 1].key == Leaves(kids)[i].path[0];
    }
  }

  /** In a well-formed tree every listed path leads to its colour. */
  lemma {:induction false} LeavesResolve(kids: seq<Child>, i: nat)
    requires WellFormed(kids)
    requires i < |Leaves(kids)|
    ensures ColorAt(kids, Leaves(kids)[i].path) == Some(Leaves(kids)[i].color)
    decreases kids
  {
    var p := Leaves(kids)[i];
    match kids[0].node
    case Leaf(c) =>
      if i > 0 {
        TailResolves(kids, i - 1);
      }
    case Group(sub) =>
      var head := Under(kids[0].key, Leaves(sub));
      if i < |head| {
        LeavesResolve(sub, i);
        assert p.path[1..] == Leaves(sub)[i].path;
      } else {
        TailResolves(kids, i - |head|);
      }
  }

  /** A path of a later sibling resolves in the whole list as in the rest of it. */
  lemma {:induction false} TailResolves(kids: seq<Child>, k: nat)
    requires kids != [] && WellFormed(kids)
    requires k < |Leaves(kids[1..])|
    ensures Leaves(kids)[|Leaves(kids)| - |Leaves(kids[1..])| + k] == Leaves(kids[1..])[k]
    ensures ColorAt(kids, Leaves(kids[1..])[k].path) == Some(Leaves(kids[1..])[k].color)
    decreases kids, 0
  {
    var q := Leaves(kids[1..])[k];
    LeavesStartAtTop(kids[1..], k);
    var j :| 0 <= j < |kids[1..]| && kids[1..][j].key == q.path[0];
    assert kids[j + 1].key != kids[0].key;
    LeavesResolve(kids[1..], k);
  }

  /** In a well-formed tree every path is made of plain keys and leads to a one-line colour. */
  lemma {:induction false} LeavesPlain(kids: seq<Child>, i: nat)
    requires WellFormed(kids) && i < |Leaves(kids)|
    ensures forall j :: 0 <= j < |Leaves(kids)[i].path| ==> Plain(Leaves(kids)[i].path[j])
    ensures '\n' !in Leaves(kids)[i].color
    decreases kids
  {
    var p := Leaves(kids)[i];
    match kids[0].node
    case Leaf(c) =>
      if i > 0 {
        LeavesPlain(kids[1..], i - 1);
        assert p == Leaves(kids[1..])[i - 1];
      } else {
        assert p == ColorPath([kids[0].key], c);
      }
    case Group(sub) =>
      var h := LeafCount(sub);
      if i < h {
        LeavesPlain(sub, i);
        var q := Leaves(sub)[i];
        assert p == ColorPath([kids[0].key] + q.path, q.color);
        forall j | 0 <= j < |p.path| ensures Plain(p.path[j]) {
          if j > 0 {
            assert p.path[j] == q.path[j - 1];
          }
        }
      } else {
        LeavesPlain(kids[1..], i - h);
        assert p == Leaves(kids[1..])[i - h];
      }
  }

  /** Every colour a path leads to is listed with that path. */
  lemma ResolvedIsListed(kids: seq<Child>, path: seq<string>, c: string)
    requires ColorAt(kids, path) == Some(c)
    ensures ColorPath(path, c) in Leaves(kids)
  {
    var i := ResolvedIndex(kids, path, c);
  }

  /** Where a resolved colour sits among the leaves. */
  lemma {:induction false} ResolvedIndex(kids: seq<Child>, path: seq<string>, c: string) returns (i: nat)
    requires ColorAt(kids, path) == Some(c)
    ensures i < |Leaves(kids)| && Leaves(kids)[i] == ColorPath(path, c)
    decreases kids
  {
    var head := match kids[0].node
      case Leaf(c) => [ColorPath([kids[0].key], c)]
      case Group(sub) => Under(kids[0].key, Leaves(sub));
    assert Leaves(kids) == head + Leaves(kids[1..]);
    if kids[0].key == path[0] {
      match kids[0].node
      case Leaf(_) =>
        assert path == [kids[0].key];
        i := 0;
      case Group(sub) =>
        i := ResolvedIndex(sub, path[1..], c);
        assert [path[0]] + path[1..] == path;
        assert head[i] == ColorPath(path, c);
    } else {
      var k := ResolvedIndex(kids[1..], path, c);
      i := |head| + k;
      assert Leaves(kids)[i] == Leaves(kids[1..])[k];
    }
  }

  /** Keys fit for an object literal: non-empty, plain, and never repeated. */
  predicate KeySet(keys: seq<string>) {
    (forall i :: 0 <= i < |keys| ==> keys[i] != "" && Plain(keys[i])) &&
    (forall i, j :: 0 <= i < j < |keys| ==> keys[i] != keys[j])
  }

  /** A group whose children are all colours. */
  function LeafList(keys: seq<string>, colors: seq<string>): (kids: seq<Child>)
    requires |keys| == |colors|
    ensures |kids| == |keys|
  {
    seq(|keys|, i requires 0 <= i < |keys| => Child(keys[i], Leaf(colors[i])))
  }

  /** A group whose children are all groups. */
  function GroupList(keys: seq<string>, groups: seq<seq<Child>>): (kids: seq<Child>)
    requires |keys| == |groups|
    ensures |kids| == |keys|
  {
    seq(|keys|, i requires 0 <= i < |keys| => Child(keys[i], Group(groups[i])))
  }

  function TotalLeaves(groups: seq<seq<Child>>): nat {
    if groups == [] then 0 else LeafCount(groups[0]) + TotalLeaves(groups[1..])
  }

  lemma {:induction false} LeafListShape(keys: seq<string>, colors: seq<string>, colors': seq<string>)
    requires KeySet(keys) && |colors| == |keys| && |colors'| == |keys|
    requires forall i :: 0 <= i < |colors| ==> '\n' !in colors[i]
    ensures WellFormed(LeafList(keys, colors)) && LeafCount(LeafList(keys, colors)) == |keys|
    ensures SameShape(LeafList(keys, colors), LeafList(keys, colors'))
  {
    if keys != [] {
      assert LeafList(keys, colors)[1..] == LeafList(keys[1..], colors[1..]);
      assert LeafList(keys, colors')[1..] == LeafList(keys[1..], colors'[1..]);
      LeafListShape(keys[1..], colors[1..], colors'[1..]);
    }
  }

  /*
   * The shape every theme shares: one function per colour group, with the
   * group's keys in declaration order; a theme supplies the colours.
   */

  const BgKeys: seq<string> := ["base", "subtle", "sunken", "elevated"]
  const TextKeys: seq<string> := ["primary", "secondary", "tertiary", "disabled", "inverse"]
  const BorderKeys: seq<string> := ["default", "subtle", "strong", "focus"]
  const AccentKeys: seq<string> := ["default", "subtle", "muted", "emphasis"]
  const StateKeys: seq<string> := ["bg", "text", "border"]
  const StateNames: seq<string> := ["info", "success", "warning", "error"]
  const GroupNames: seq<string> := ["bg", "text", "border", "accent", "state"]

  function BgColors(base: string, subtle: string, sunken: string, elevated: string): seq<Child> {
    LeafList(BgKeys, [base, subtle, sunken, elevated])
  }

  function TextColors(primary: string, secondary: string, tertiary: string, disabled: string, inverse: string): seq<Child> {
    LeafList(TextKeys, [primary, secondary, tertiary, disabled, inverse])
  }

  function BorderColors(default: string, subtle: string, strong: string, focus: string): seq<Child> {
    LeafList(BorderKeys, [default, subtle, strong, focus])
  }

  function AccentColors(default: string, subtle: string, muted: string, emphasis: string): seq<Child> {
    LeafList(AccentKeys, [default, subtle, muted, emphasis])
  }

  /** The colours of one state. */
  function StateColors(bg: string, text: string, border: string): seq<Child> {
    LeafList(StateKeys, [bg, text, border])
  }

  const LightBg := BgColors("#ffffff", "#f8f8fa", "#f4f4f5", "#ffffff")
  const LightText := TextColors("#18181b", "#52525b", "#71717a", "#a1a1aa", "#ffffff")
  const LightBorder := BorderColors("#e4e4e7", "#f4f4f5", "#d4d4d8", "#3f51b5")
  const LightAccent := AccentColors("#3f51b5", "#e8eaf6", "#c5cae9", "#303f9f")
  const LightInfo := StateColors("#e0f2fe", "#0369a1", "#7dd3fc")
  const LightSuccess := StateColors("#dcfce7", "#15803d", "#86efac")
  const LightWarning := StateColors("#fef3c7", "#92400e", "#fcd34d")
  const LightError := StateColors("#fee2e2", "#b91c1c", "#fca5a5")

  const LightTheme: Theme := Theme("light", GroupList(GroupNames,
    [LightBg, LightText, LightBorder, LightAccent, LightStates]))

  const DarkBg := BgColors("#18181b", "#27272a", "#1f1f23", "#27272a")
  const DarkText := TextColors("#f4f4f5", "#a1a1aa", "#71717a", "#52525b", "#18181b")
  const DarkBorder := BorderColors("#27272a", "#3f3f46", "#52525b", "#818cf8")
  const DarkAccent := AccentColors("#818cf8", "#1e293b", "#334155", "#6366f1")
  const DarkInfo := StateColors("#0c4a6e", "#7dd3fc", "#0284c7")
  const DarkSuccess := StateColors("#14532d", "#86efac", "#16a34a")
  const DarkWarning := StateColors("#78350f", "#fcd34d", "#d97706")
  const DarkError := StateColors("#7f1d1d", "#fca5a5", "#dc2626")

  const DarkTheme: Theme := Theme("dark", GroupList(GroupNames,
    [DarkBg, DarkText, DarkBorder, DarkAccent, DarkStates]))

  lemma BgKeysKeySet()
    ensures KeySet(BgKeys)
  {
  }

  lemma TextKeysKeySet()
    ensures KeySet(TextKeys)
  {
  }

  lemma BorderKeysKeySet()
    ensures KeySet(BorderKeys)
  {
  }

  lemma AccentKeysKeySet()
    ensures KeySet(AccentKeys)
  {
  }

  lemma StateKeysKeySet()
    ensures KeySet(StateKeys)
  {
  }

  lemma StateNamesKeySet()
    ensures KeySet(StateNames)
  {
  }

  lemma GroupNamesKeySet()
    ensures KeySet(GroupNames)
  {
  }

  /** Two lists of one-line colours under the same keys give groups of the same shape. */
  lemma LeafGroupPair(keys: seq<string>, a: seq<string>, b: seq<string>)
    requires KeySet(keys) && |a| == |keys| && |b| == |keys|
    requires forall i :: 0 <= i < |keys| ==> '\n' !in a[i] && '\n' !in b[i]
    ensures WellFormed(LeafList(keys, a)) && WellFormed(LeafList(keys, b))
    ensures SameShape(LeafList(keys, a), LeafList(keys, b))
    ensures LeafCount(LeafList(keys, a)) == |keys| && LeafCount(LeafList(keys, b)) == |keys|
  {
    LeafListShape(keys, a, b);
    LeafListShape(keys, b, a);
  }

  lemma LightDarkLeafGroups()
    ensures WellFormed(LightBg) && WellFormed(DarkBg) && SameShape(LightBg, DarkBg)
    ensures WellFormed(LightText) && WellFormed(DarkText) && SameShape(LightText, DarkText)
    ensures WellFormed(LightBorder) && WellFormed(DarkBorder) && SameShape(LightBorder, DarkBorder)
    ensures WellFormed(LightAccent) && WellFormed(DarkAccent) && SameShape(LightAccent, DarkAccent)
    ensures LeafCount(LightBg) == 4 && LeafCount(LightText) == 5 && LeafCount(LightBorder) == 4
    ensures LeafCount(LightAccent) == 4
  {
    BgGroups();
    TextGroups();
    BorderGroups();
    AccentGroups();
  }

  lemma BgGroups()
    ensures WellFormed(LightBg) && WellFormed(DarkBg) && SameShape(LightBg, DarkBg)
    ensures LeafCount(LightBg) == 4
  {
    BgKeysKeySet();
    LeafGroupPair(BgKeys, ["#ffffff", "#f8f8fa", "#f4f4f5", "#ffffff"], ["#18181b", "#27272a", "#1f1f23", "#27272a"]);
  }

  lemma TextGroups()
    ensures WellFormed(LightText) && WellFormed(DarkText) && SameShape(LightText, DarkText)
    ensures LeafCount(LightText) == 5
  {
    TextKeysKeySet();
    LeafGroupPair(TextKeys, ["#18181b", "#52525b", "#71717a", "#a1a1aa", "#ffffff"],
                  ["#f4f4f5", "#a1a1aa", "#71717a", "#52525b", "#18181b"]);
  }

  lemma BorderGroups()
    ensures WellFormed(LightBorder) && WellFormed(DarkBorder) && SameShape(LightBorder, DarkBorder)
    ensures LeafCount(LightBorder) == 4
  {
    BorderKeysKeySet();
    LeafGroupPair(BorderKeys, ["#e4e4e7", "#f4f4f5", "#d4d4d8", "#3f51b5"], ["#27272a", "#3f3f46", "#52525b", "#818cf8"]);
  }

  lemma AccentGroups()
    ensures WellFormed(LightAccent) && WellFormed(DarkAccent) && SameShape(LightAccent, DarkAccent)
    ensures LeafCount(LightAccent) == 4
  {
    AccentKeysKeySet();
    LeafGroupPair(AccentKeys, ["#3f51b5", "#e8eaf6", "#c5cae9", "#303f9f"], ["#818cf8", "#1e293b", "#334155", "#6366f1"]);
  }

  lemma LightDarkStates()
    ensures WellFormed(LightInfo) && WellFormed(DarkInfo) && SameShape(LightInfo, DarkInfo)
    ensures WellFormed(LightSuccess) && WellFormed(DarkSuccess) && SameShape(LightSuccess, DarkSuccess)
    ensures WellFormed(LightWarning) && WellFormed(DarkWarning) && SameShape(LightWarning, DarkWarning)
    ensures WellFormed(LightError) && WellFormed(DarkError) && SameShape(LightError, DarkError)
    ensures LeafCount(LightInfo) == 3 && LeafCount(LightSuccess) == 3
    ensures LeafCount(LightWarning) == 3 && LeafCount(LightError) == 3
  {
    StateKeysKeySet();
    LeafGroupPair(StateKeys, ["#e0f2fe", "#0369a1", "#7dd3fc"], ["#0c4a6e", "#7dd3fc", "#0284c7"]);
    LeafGroupPair(StateKeys, ["#dcfce7", "#15803d", "#86efac"], ["#14532d", "#86efac", "#16a34a"]);
    LeafGroupPair(StateKeys, ["#fef3c7", "#92400e", "#fcd34d"], ["#78350f", "#fcd34d", "#d97706"]);
    LeafGroupPair(StateKeys, ["#fee2e2", "#b91c1c", "#fca5a5"], ["#7f1d1d", "#fca5a5", "#dc2626"]);
  }

  lemma TotalLeavesFour(a: seq<Child>, b: seq<Child>, c: seq<Child>, d: seq<Child>)
    ensures TotalLeaves([a, b, c, d]) == LeafCount(a) + LeafCount(b) + LeafCount(c) + LeafCount(d)
  {
    assert [d][1..] == [];
    assert TotalLeaves([d]) == LeafCount(d);
    assert [c, d][1..] == [d];
    assert TotalLeaves([c, d]) == LeafCount(c) + LeafCount(d);
    assert [b, c, d][1..] == [c, d];
    assert TotalLeaves([b, c, d]) == LeafCount(b) + LeafCount(c) + LeafCount(d);
    assert [a, b, c, d][1..] == [b, c, d];
  }

  const LightStates := GroupList(StateNames, [LightInfo, LightSuccess, LightWarning, LightError])
  const DarkStates := GroupList(StateNames, [DarkInfo, DarkSuccess, DarkWarning, DarkError])

  lemma {:induction false} GroupListCount(keys: seq<string>, groups: seq<seq<Child>>)
    requires |keys| == |groups|
    ensures LeafCount(GroupList(keys, groups)) == TotalLeaves(groups)
  {
    if keys != [] {
      assert GroupList(keys, groups)[1..] == GroupList(keys[1..], groups[1..]);
      GroupListCount(keys[1..], groups[1..]);
    }
  }

  lemma ThemeColorsCount(bg: seq<Child>, text: seq<Child>, border: seq<Child>, accent: seq<Child>, state: seq<Child>)
    ensures LeafCount(GroupList(GroupNames, [bg, text, border, accent, state])) ==
      LeafCount(bg) + LeafCount(text) + LeafCount(border) + LeafCount(accent) + LeafCount(state)
  {
    var gs := [bg, text, border, accent, state];
    GroupListCount(GroupNames, gs);
    TotalLeavesFour(text, border, accent, state);
    assert gs[1..] == [text, border, accent, state];
  }

  lemma {:induction false} GroupListWellFormed(keys: seq<string>, groups: seq<seq<Child>>)
    requires KeySet(keys) && |groups| == |keys|
    requires forall i :: 0 <= i < |groups| ==> WellFormed(groups[i])
    ensures WellFormed(GroupList(keys, groups))
  {
    if keys != [] {
      assert GroupList(keys, groups)[1..] == GroupList(keys[1..], groups[1..]);
      GroupListWellFormed(keys[1..], groups[1..]);
    }
  }

  lemma {:induction false} GroupListSameShape(keys: seq<string>, a: seq<seq<Child>>, b: seq<seq<Child>>)
    requires |a| == |keys| && |b| == |keys|
    requires forall i :: 0 <= i < |keys| ==> SameShape(a[i], b[i])
    ensures SameShape(GroupList(keys, a), GroupList(keys, b))
  {
    if keys != [] {
      assert GroupList(keys, a)[1..] == GroupList(keys[1..], a[1..]);
      assert GroupList(keys, b)[1..] == GroupList(keys[1..], b[1..]);
      GroupListSameShape(keys[1..], a[1..], b[1..]);
    }
  }

  lemma LightDarkStateGroups()
    ensures WellFormed(LightStates) && WellFormed(DarkStates)
    ensures SameShape(LightStates, DarkStates)
    ensures LeafCount(LightStates) == 12
  {
    StateGroupsWellFormed();
    StateGroupsSameShape();
    StateGroupsCount();
  }

  lemma StateGroupsWellFormed()
    ensures WellFormed(LightStates) && WellFormed(DarkStates)
  {
    LightDarkStates();
    StateNamesKeySet();
    StateListWellFormed(LightInfo, LightSuccess, LightWarning, LightError);
    StateListWellFormed(DarkInfo, DarkSuccess, DarkWarning, DarkError);
  }

  lemma StateListWellFormed(info: seq<Child>, success: seq<Child>, warning: seq<Child>, error: seq<Child>)
    requires KeySet(StateNames)
    requires WellFormed(info) && WellFormed(success) && WellFormed(warning) && WellFormed(error)
    ensures WellFormed(GroupList(StateNames, [info, success, warning, error]))
  {
    GroupListWellFormed(StateNames, [info, success, warning, error]);
  }

  lemma StateGroupsSameShape()
    ensures SameShape(LightStates, DarkStates)
  {
    LightDarkStates();
    StateListSameShape(LightInfo, LightSuccess, LightWarning, LightError,
                       DarkInfo, DarkSuccess, DarkWarning, DarkError);
  }

  lemma StateListSameShape(info: seq<Child>, success: seq<Child>, warning: seq<Child>, error: seq<Child>,
                           info': seq<Child>, success': seq<Child>, warning': seq<Child>, error': seq<Child>)
    requires SameShape(info, info') && SameShape(success, success')
    requires SameShape(warning, warning') && SameShape(error, error')
    ensures SameShape(GroupList(StateNames, [info, success, warning, error]),
                      GroupList(StateNames, [info', success', warning', error']))
  {
    GroupListSameShape(StateNames, [info, success, warning, error], [info', success', warning', error']);
  }

  lemma StateGroupsCount()
    ensures LeafCount(LightStates) == 12
  {
    LightDarkStates();
    GroupListCount(StateNames, [LightInfo, LightSuccess, LightWarning, LightError]);
    TotalLeavesFour(LightInfo, LightSuccess, LightWarning, LightError);
  }

  lemma ThemeColorsWellFormed(bg: seq<Child>, text: seq<Child>, border: seq<Child>, accent: seq<Child>, state: seq<Child>)
    requires WellFormed(bg) && WellFormed(text) && WellFormed(border) && WellFormed(accent) && WellFormed(state)
    ensures WellFormed(GroupList(GroupNames, [bg, text, border, accent, state]))
  {
    GroupNamesKeySet();
    GroupListWellFormed(GroupNames, [bg, text, border, accent, state]);
  }

  lemma ThemeColorsSameShape(bg: seq<Child>, text: seq<Child>, border: seq<Child>, accent: seq<Child>, state: seq<Child>,
                             bg': seq<Child>, text': seq<Child>, border': seq<Child>, accent': seq<Child>, state': seq<Child>)
    requires SameShape(bg, bg') && SameShape(text, text') && SameShape(border, border')
    requires SameShape(accent, accent') && SameShape(state, state')
    ensures SameShape(GroupList(GroupNames, [bg, text, border, accent, state]),
                      GroupList(GroupNames, [bg', text', border', accent', state']))
  {
    GroupListSameShape(GroupNames, [bg, text, border, accent, state], [bg', text', border', accent', state']);
  }

  /** Both built-in themes are well formed, have the same 29 colour slots, and are named after themselves. */
  lemma BuiltInThemes()
    ensures WellFormed(LightTheme.colors) && WellFormed(DarkTheme.colors)
    ensures SameShape(LightTheme.colors, DarkTheme.colors)
    ensures LeafCount(LightTheme.colors) == 29
    ensures LightTheme.name == "light" && DarkTheme.name == "dark"
  {
    LightDarkLeafGroups();
    LightDarkStateGroups();
    ThemeColorsWellFormed(LightBg, LightText, LightBorder, LightAccent, LightStates);
    ThemeColorsWellFormed(DarkBg, DarkText, DarkBorder, DarkAccent, DarkStates);
    ThemeColorsSameShape(LightBg, LightText, LightBorder, LightAccent, LightStates,
                         DarkBg, DarkText, DarkBorder, DarkAccent, DarkStates);
    ThemeColorsCount(LightBg, LightText, LightBorder, LightAccent, LightStates);
  }
}
