/**
 * The theme registry: a mutable name-to-theme record that starts with the two
 * built-in themes and lets callers add or replace themes by name.
 */
module ThemeRegistry {
  import opened Wrappers
  import opened Themes

  /** The themes every registry starts with. */
  const BuiltIns: map<string, Theme> := map["light" := LightTheme, "dark" := DarkTheme]

  class Registry {
    var themes: map<string, Theme>

    /** The built-in names stay registered: registration only adds or replaces. */
    predicate Valid()
      reads this
    {
      "light" in themes && "dark" in themes
    }

    /** The registry as the module initialises it: "light" and "dark". */
    constructor ()
      ensures themes == BuiltIns
      ensures Valid()
    {
      themes := BuiltIns;
    }

    /** Add `theme` under `name`, replacing any theme already registered there. */
    method RegisterTheme(name: string, theme: Theme)
      modifies this
      ensures themes == old(themes)[name := theme]
      ensures name in themes && themes[name] == theme
      ensures forall n :: n != name ==> (n in themes <==> n in old(themes))
      ensures forall n :: n != name && n in old(themes) ==> themes[n] == old(themes)[n]
      ensures old(Valid()) ==> Valid()
    {
      themes := themes[name := theme];
    }

    /** The theme registered under `name`, or None (`undefined`) when there is none. */
    method GetTheme(name: string) returns (r: Option<Theme>)
      ensures r.Some? <==> name in themes
      ensures r.Some? ==> r.value == themes[name]
    {
      if name in themes {
        r := Some(themes[name]);
      } else {
        r := None;
      }
    }

    /** A copy of the whole record; later registrations do not reach it. */
    method GetAllThemes() returns (all: map<string, Theme>)
      ensures all.Keys == themes.Keys
      ensures forall n :: n in all ==> all[n] == themes[n]
    {
      all := map n | n in themes :: themes[n];
    }
  }

  /**
   * A fresh registry serves the built-in themes; a registered theme is served
   * back under its name, the other names keep their themes, and the snapshot
   * taken before the registration keeps the old contents.
   */
  method RegisterThenGet(name: string, extra: Theme)
    returns (before: map<string, Theme>, got: Option<Theme>, light: Option<Theme>, after: map<string, Theme>)
    ensures before == BuiltIns
    ensures got == Some(extra)
    ensures light == if name == "light" then Some(extra) else Some(LightTheme)
    ensures after == BuiltIns[name := extra]
    ensures |after.Keys| == if name in BuiltIns then 2 else 3
  {
    var reg := new Registry();
    before := reg.GetAllThemes();
    reg.RegisterTheme(name, extra);
    got := reg.GetTheme(name);
    light := reg.GetTheme("light");
    after := reg.GetAllThemes();
    RegisteredCount(name, extra);
  }

  /** Registering under a built-in name replaces it; any other name adds a third theme. */
  lemma RegisteredCount(name: string, extra: Theme)
    ensures |BuiltIns[name := extra].Keys| == if name in BuiltIns then 2 else 3
  {
    var after := BuiltIns[name := extra];
    assert BuiltIns.Keys == {"light", "dark"};
    if name in BuiltIns {
      assert after.Keys == BuiltIns.Keys;
    } else {
      assert after.Keys == BuiltIns.Keys + {name};
    }
  }
}
