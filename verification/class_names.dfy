/** `cx`: keep the truthy arguments and join them with single spaces. */
module ClassNames {
  import opened Strings

  /** An argument of `cx`: a string, a boolean (from `cond && "name"`), or undefined. */
  datatype ClassArg = ClassText(text: string) | ClassFlag(flag: bool) | Undefined

  /** JavaScript truthiness of an argument: false, undefined and "" are falsy. */
  predicate Truthy(a: ClassArg) {
    match a
    case ClassText(s) => s != ""
    case ClassFlag(b) => b
    case Undefined => false
  }

  /** How `join` prints a kept argument; a literal `true` prints as "true". */
  function ArgText(a: ClassArg): (s: string)
    requires Truthy(a)
    ensures s != []
  {
    match a
    case ClassText(s) => s
    case ClassFlag(_) => "true"
  }

  /** `filter(Boolean)` followed by the string conversion of each kept argument. */
  function Retained(args: seq<ClassArg>): (ws: seq<string>)
    ensures |ws| <= |args|
    ensures forall i :: 0 <= i < |ws| ==> ws[i] != []
  {
    if args == [] then []
    else if Truthy(args[0]) then [ArgText(args[0])] + Retained(args[1..])
    else Retained(args[1..])
  }

  function Cx(args: seq<ClassArg>): (s: string)
    ensures s == "" <==> forall i :: 0 <= i < |args| ==> !Truthy(args[i])
  {
    RetainedEmpty(args);
    JoinEmpty(Retained(args), " ");
    Join(Retained(args), " ")
  }

  lemma {:induction false} RetainedEmpty(args: seq<ClassArg>)
    ensures Retained(args) == [] <==> forall i :: 0 <= i < |args| ==> !Truthy(args[i])
  {
    if args != [] {
      RetainedEmpty(args[1..]);
      if !Truthy(args[0]) {
        assert forall i :: 1 <= i < |args| ==> args[i] == args[1..][i - 1];
      }
    }
  }

  lemma {:induction false} RetainedAppend(a: seq<ClassArg>, b: seq<ClassArg>)
    ensures Retained(a + b) == Retained(a) + Retained(b)
  {
    if a != [] {
      assert (a + b)[1..] == a[1..] + b;
      RetainedAppend(a[1..], b);
    } else {
      assert a + b == b;
    }
  }

  /**
   * Kept arguments appear in argument order, separated by one space: the class
   * string of a concatenation is the two class strings joined by a space, with
   * an all-falsy side contributing nothing.
   */
  lemma CxAppend(a: seq<ClassArg>, b: seq<ClassArg>)
    ensures Cx(a + b) ==
      if Cx(a) == "" then Cx(b)
      else if Cx(b) == "" then Cx(a)
      else Cx(a) + " " + Cx(b)
  {
    RetainedAppend(a, b);
    var p, q := Retained(a), Retained(b);
    JoinEmpty(p, " ");
    JoinEmpty(q, " ");
    if p == [] {
      assert p + q == q;
    } else if q == [] {
      assert p + q == p;
    } else {
      JoinAppend(p, q, " ");
    }
  }

  /** A falsy argument anywhere changes nothing. */
  lemma CxDropsFalsy(a: seq<ClassArg>, x: ClassArg, b: seq<ClassArg>)
    requires !Truthy(x)
    ensures Cx(a + [x] + b) == Cx(a + b)
  {
    RetainedAppend(a + [x], b);
    RetainedAppend(a, [x]);
    RetainedAppend(a, b);
    assert Retained([x]) == [];
    assert Retained(a + [x]) == Retained(a);
  }

  /**
   * The class string can be split back into exactly the kept arguments, in
   * order, when no kept argument itself contains a space.
   */
  lemma CxSplitsIntoRetained(args: seq<ClassArg>)
    requires exists i :: 0 <= i < |args| && Truthy(args[i])
    requires forall i :: 0 <= i < |args| && Truthy(args[i]) ==> ' ' !in ArgText(args[i])
    ensures Split(Cx(args), ' ') == Retained(args)
  {
    RetainedEmpty(args);
    RetainedNoSpaces(args);
    SplitJoin(Retained(args), ' ');
  }

  lemma {:induction false} RetainedNoSpaces(args: seq<ClassArg>)
    requires forall i :: 0 <= i < |args| && Truthy(args[i]) ==> ' ' !in ArgText(args[i])
    ensures forall i :: 0 <= i < |Retained(args)| ==> ' ' !in Retained(args)[i]
  {
    if args != [] {
      assert forall i :: 1 <= i < |args| ==> args[i] == args[1..][i - 1];
      RetainedNoSpaces(args[1..]);
    }
  }

  /** `isActive && "active"`: the string when the flag is set, `false` otherwise. */
  function WhenActive(isActive: bool, name: string): ClassArg {
    if isActive then ClassText(name) else ClassFlag(false)
  }

  /** The documented examples, and a literal `true` that is kept as "true". */
  lemma CxExamples(isActive: bool)
    ensures Cx([ClassText("btn"), ClassText("btn-primary")]) == "btn btn-primary"
    ensures Cx([ClassText("btn"), ClassText("btn-primary"), WhenActive(isActive, "active")]) ==
      if isActive then "btn btn-primary active" else "btn btn-primary"
    ensures Cx([ClassText("a"), ClassFlag(true), Undefined, ClassText("")]) == "a true"
  {
    ButtonClasses();
    ActiveButtonClasses(isActive);
    MixedClasses();
  }

  lemma ButtonClasses()
    ensures Cx([ClassText("btn"), ClassText("btn-primary")]) == "btn btn-primary"
  {
    var two := [ClassText("btn"), ClassText("btn-primary")];
    assert two[1..] == [ClassText("btn-primary")];
    assert Retained(two[1..]) == ["btn-primary"];
    assert Retained(two) == ["btn", "btn-primary"];
    assert Join(["btn", "btn-primary"], " ") == "btn" + " " + Join(["btn-primary"], " ");
  }

  lemma ActiveButtonClasses(isActive: bool)
    ensures Cx([ClassText("btn"), ClassText("btn-primary"), WhenActive(isActive, "active")]) ==
      if isActive then "btn btn-primary active" else "btn btn-primary"
  {
    var two := [ClassText("btn"), ClassText("btn-primary")];
    var three := two + [WhenActive(isActive, "active")];
    assert three == [ClassText("btn"), ClassText("btn-primary"), WhenActive(isActive, "active")];
    ButtonClasses();
    CxAppend(two, [WhenActive(isActive, "active")]);
    var last := [WhenActive(isActive, "active")];
    assert last[1..] == [];
    if isActive {
      assert Retained(last) == ["active"];
      assert Cx(last) == "active";
    } else {
      assert Retained(last) == [];
      assert Cx(last) == "";
    }
  }

  lemma MixedClasses()
    ensures Cx([ClassText("a"), ClassFlag(true), Undefined, ClassText("")]) == "a true"
  {
    var mixed := [ClassText("a"), ClassFlag(true), Undefined, ClassText("")];
    assert mixed[1..][1..][1..][1..] == [];
    assert Retained(mixed[1..][1..]) == [];
    assert Retained(mixed[1..]) == ["true"];
    assert Retained(mixed) == ["a", "true"];
    assert Join(["a", "true"], " ") == "a" + " " + Join(["true"], " ");
  }
}
