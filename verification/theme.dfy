/** The theme provider: choosing the theme from storage, painting it on the
    document root (classes, data attributes, color scheme), the storage and
    media-query handlers, and the inline script that paints before the first
    render. The document root is a set of classes, an attribute map and a
    color-scheme slot; the system preference is a parameter. */
module Theme {
  import opened Wrappers
  import SeqUtil

  const LIGHT: string := "light"
  const DARK: string := "dark"
  const SYSTEM: string := "system"
  const CLASS: string := "class"
  const DEFAULT_THEMES: seq<string> := [LIGHT, DARK]
  const DEFAULT_STORAGE_KEY: string := "theme"

  /** The `attribute` prop: one attribute or several. */
  datatype AttributeSpec = One(name: string) | Many(names: seq<string>)

  /** The provider's props; `None` is a prop left out. */
  datatype ThemeProps = ThemeProps(
    forcedTheme: Option<string>,
    enableSystem: Option<bool>,
    enableColorScheme: Option<bool>,
    storageKey: Option<string>,
    themes: Option<seq<string>>,
    defaultTheme: Option<string>,
    attribute: Option<AttributeSpec>,
    value: Option<map<string, string>>)

  /** The props with their defaults filled in. */
  datatype Config = Config(
    forcedTheme: Option<string>,
    enableSystem: bool,
    enableColorScheme: bool,
    storageKey: string,
    themes: seq<string>,
    defaultTheme: string,
    attribute: AttributeSpec,
    value: Option<map<string, string>>)

  /** The document root as far as the theme touches it. */
  datatype Dom = Dom(classes: set<string>, attrs: map<string, string>, colorScheme: Option<string>)

  /** JavaScript truthiness of an optional string. */
  predicate Truthy(s: Option<string>) {
    s.Some? && s.value != ""
  }

  predicate IsColorScheme(s: string) {
    s == LIGHT || s == DARK
  }

  /** The provider's parameter defaults. */
  function Configure(p: ThemeProps): (c: Config)
    ensures p.enableSystem.None? ==> c.enableSystem
    ensures p.enableColorScheme.None? ==> c.enableColorScheme
    ensures p.storageKey.None? ==> c.storageKey == DEFAULT_STORAGE_KEY
    ensures p.themes.None? ==> c.themes == [LIGHT, DARK]
    ensures p.attribute.None? ==> c.attribute == One(CLASS)
    ensures p.defaultTheme.None? ==> (c.defaultTheme == SYSTEM <==> c.enableSystem)
    ensures p.defaultTheme.None? && !c.enableSystem ==> c.defaultTheme == LIGHT
    ensures p.defaultTheme.Some? ==> c.defaultTheme == p.defaultTheme.value
    ensures c.forcedTheme == p.forcedTheme && c.value == p.value
  {
    var enableSystem := p.enableSystem.GetOr(true);
    Config(
      p.forcedTheme,
      enableSystem,
      p.enableColorScheme.GetOr(true),
      p.storageKey.GetOr(DEFAULT_STORAGE_KEY),
      p.themes.GetOr(DEFAULT_THEMES),
      p.defaultTheme.GetOr(if enableSystem then SYSTEM else LIGHT),
      p.attribute.GetOr(One(CLASS)),
      p.value)
  }

  /** `getTheme`: nothing on the server; otherwise the stored theme when it
      is non-empty, else the fallback. */
  function GetTheme(isServer: bool, stored: Option<string>, fallback: Option<string>): (t: Option<string>)
    ensures isServer ==> t.None?
    ensures !isServer && Truthy(stored) ==> t == stored
    ensures !isServer && !Truthy(stored) ==> t == fallback
  {
    if isServer then None
    else if Truthy(stored) then stored
    else fallback
  }

  /** `getSystemTheme`. */
  function SystemTheme(prefersDark: bool): (t: string)
    ensures IsColorScheme(t)
    ensures t == DARK <==> prefersDark
  {
    if prefersDark then DARK else LIGHT
  }

  /** The theme actually shown: "system" follows the preference when system
      themes are enabled. */
  function Resolve(c: Config, theme: string, prefersDark: bool): (r: string)
    ensures theme == SYSTEM && c.enableSystem ==> r == SystemTheme(prefersDark)
    ensures !(theme == SYSTEM && c.enableSystem) ==> r == theme
  {
    if theme == SYSTEM && c.enableSystem then SystemTheme(prefersDark) else theme
  }

  /** The classes a theme change removes: the theme names, or the values of
      the name map when there is one. */
  function ThemeClasses(c: Config): set<string> {
    match c.value
    case None => set t | t in c.themes
    case Some(v) => v.Values
  }

  /** The name painted for a resolved theme: the theme itself, or its entry
      in the name map (absent when the map has none). */
  function NameOf(c: Config, resolved: string): (n: Option<string>)
    ensures c.value.None? ==> n == Some(resolved)
    ensures c.value.Some? && resolved in c.value.value ==> n == Some(c.value.value[resolved])
    ensures c.value.Some? && resolved !in c.value.value ==> n.None?
  {
    match c.value
    case None => Some(resolved)
    case Some(v) => if resolved in v then Some(v[resolved]) else None
  }

  predicate IsDataAttribute(a: string) {
    |a| >= 5 && a[..5] == "data-"
  }

  lemma ClassIsNotData()
    ensures !IsDataAttribute(CLASS)
  {
    assert CLASS[0] != "data-"[0];
  }

  /** The class set after class mode paints `name`. */
  function ResetClasses(c: Config, name: Option<string>, classes: set<string>): set<string> {
    (classes - ThemeClasses(c)) + (if Truthy(name) then {name.value} else {})
  }

  /** `handleAttribute`. */
  function HandleAttribute(c: Config, name: Option<string>, attr: string, d: Dom): (r: Dom)
    ensures attr == CLASS ==> r == d.(classes := ResetClasses(c, name, d.classes))
    ensures IsDataAttribute(attr) && Truthy(name) ==> r == d.(attrs := d.attrs[attr := name.value])
    ensures IsDataAttribute(attr) && !Truthy(name) ==> r == d.(attrs := d.attrs - {attr})
    ensures attr != CLASS && !IsDataAttribute(attr) ==> r == d
  {
    ClassIsNotData();
    if attr == CLASS then d.(classes := ResetClasses(c, name, d.classes))
    else if IsDataAttribute(attr) then
      if Truthy(name) then d.(attrs := d.attrs[attr := name.value]) else d.(attrs := d.attrs - {attr})
    else d
  }

  /** Handles each attribute in turn. */
  function HandleAll(c: Config, name: Option<string>, attrs: seq<string>, d: Dom): Dom
    decreases |attrs|
  {
    if |attrs| == 0 then d else HandleAll(c, name, attrs[1..], HandleAttribute(c, name, attrs[0], d))
  }

  function AttributeList(spec: AttributeSpec): seq<string> {
    match spec
    case One(a) => [a]
    case Many(names) => names
  }

  /** The color scheme: the resolved theme if it is light or dark, else the
      default theme if that is, else none. */
  function ColorSchemeFor(c: Config, resolved: string): (s: Option<string>)
    ensures IsColorScheme(resolved) ==> s == Some(resolved)
    ensures !IsColorScheme(resolved) && IsColorScheme(c.defaultTheme) ==> s == Some(c.defaultTheme)
    ensures !IsColorScheme(resolved) && !IsColorScheme(c.defaultTheme) ==> s.None?
  {
    var fallback := if IsColorScheme(c.defaultTheme) then Some(c.defaultTheme) else None;
    if IsColorScheme(resolved) then Some(resolved) else fallback
  }

  /** `applyTheme`: nothing for an absent or empty theme; otherwise every
      configured attribute is painted with the resolved theme's name, and
      the color scheme is set when enabled. */
  function ApplyTheme(c: Config, theme: Option<string>, prefersDark: bool, d: Dom): (r: Dom)
    ensures !Truthy(theme) ==> r == d
    ensures Truthy(theme) && c.enableColorScheme ==>
      r.colorScheme == ColorSchemeFor(c, Resolve(c, theme.value, prefersDark))
    ensures !c.enableColorScheme ==> r.colorScheme == d.colorScheme
  {
    if !Truthy(theme) then d
    else
      var resolved := Resolve(c, theme.value, prefersDark);
      var painted := HandleAll(c, NameOf(c, resolved), AttributeList(c.attribute), d);
      HandleAllEffect(c, NameOf(c, resolved), AttributeList(c.attribute), d);
      if c.enableColorScheme then painted.(colorScheme := ColorSchemeFor(c, resolved)) else painted
  }

  /** What painting a list of attributes does: class mode resets the theme
      classes once if "class" is listed; each listed data attribute holds the
      name, or is removed when there is none; nothing else changes. */
  lemma {:induction false} HandleAllEffect(c: Config, name: Option<string>, attrs: seq<string>, d: Dom)
    ensures var r := HandleAll(c, name, attrs, d);
      && r.classes == (if CLASS in attrs then ResetClasses(c, name, d.classes) else d.classes)
      && (forall k :: k in r.attrs <==> if k in attrs && IsDataAttribute(k) then Truthy(name) else k in d.attrs)
      && (forall k :: k in r.attrs ==> r.attrs[k] == if k in attrs && IsDataAttribute(k) then name.value else d.attrs[k])
      && r.colorScheme == d.colorScheme
    decreases |attrs|
  {
    if |attrs| > 0 {
      var d1 := HandleAttribute(c, name, attrs[0], d);
      HandleAllEffect(c, name, attrs[1..], d1);
      assert forall k :: k in attrs <==> k == attrs[0] || k in attrs[1..];
    }
  }

  /** In class mode, classes that are not theme classes are left alone, no
      theme class survives except the painted name, and the name is present
      exactly when it is non-empty. Attributes are untouched. */
  lemma ClassModePaints(c: Config, theme: string, prefersDark: bool, d: Dom)
    requires c.attribute == One(CLASS) && theme != ""
    ensures var r := ApplyTheme(c, Some(theme), prefersDark, d);
      var name := NameOf(c, Resolve(c, theme, prefersDark));
      && (forall k :: k !in ThemeClasses(c) && !(Truthy(name) && k == name.value) ==> (k in r.classes <==> k in d.classes))
      && (forall k :: k in ThemeClasses(c) && k in r.classes ==> Truthy(name) && k == name.value)
      && (Truthy(name) ==> name.value in r.classes)
      && r.attrs == d.attrs
  {
    var name := NameOf(c, Resolve(c, theme, prefersDark));
    HandleAllEffect(c, name, [CLASS], d);
    ClassIsNotData();
  }

  /** In data-attribute mode the attribute holds the name, or is removed
      when there is none; classes and every other attribute are untouched. */
  lemma DataModePaints(c: Config, theme: string, prefersDark: bool, d: Dom)
    requires c.attribute.One? && IsDataAttribute(c.attribute.name) && theme != ""
    ensures var r := ApplyTheme(c, Some(theme), prefersDark, d);
      var name := NameOf(c, Resolve(c, theme, prefersDark));
      var a := c.attribute.name;
      && r.classes == d.classes
      && (Truthy(name) ==> a in r.attrs && r.attrs[a] == name.value)
      && (!Truthy(name) ==> a !in r.attrs)
      && (forall k :: k != a ==> (k in r.attrs <==> k in d.attrs))
      && (forall k :: k != a && k in r.attrs ==> r.attrs[k] == d.attrs[k])
  {
    var name := NameOf(c, Resolve(c, theme, prefersDark));
    HandleAllEffect(c, name, [c.attribute.name], d);
    ClassIsNotData();
  }

  /** Painting the same theme twice paints what painting it once does. */
  lemma ApplyThemeIdempotent(c: Config, theme: Option<string>, prefersDark: bool, d: Dom)
    ensures ApplyTheme(c, theme, prefersDark, ApplyTheme(c, theme, prefersDark, d))
      == ApplyTheme(c, theme, prefersDark, d)
  {
    if Truthy(theme) {
      var resolved := Resolve(c, theme.value, prefersDark);
      var name := NameOf(c, resolved);
      var attrs := AttributeList(c.attribute);
      var d1 := ApplyTheme(c, theme, prefersDark, d);
      var d2 := ApplyTheme(c, theme, prefersDark, d1);
      HandleAllEffect(c, name, attrs, d);
      HandleAllEffect(c, name, attrs, d1);
      assert d2.classes == d1.classes;
      assert d2.attrs.Keys == d1.attrs.Keys;
      assert d2.attrs == d1.attrs;
    }
  }

  /** "system" with system themes enabled paints the preferred scheme. */
  lemma SystemFollowsPreference(c: Config, prefersDark: bool, d: Dom)
    requires c.enableSystem && c.enableColorScheme
    ensures ApplyTheme(c, Some(SYSTEM), prefersDark, d).colorScheme == Some(if prefersDark then DARK else LIGHT)
  {
  }

  /** The `themes` the provider exposes: the given ones, then "system" when
      system themes are enabled. */
  function ProviderThemes(c: Config): (ts: seq<string>)
    ensures c.enableSystem ==> ts == c.themes + [SYSTEM]
    ensures !c.enableSystem ==> ts == c.themes
  {
    if c.enableSystem then c.themes + [SYSTEM] else c.themes
  }

  /** "system" is offered iff system themes are enabled or it is already
      one of the given themes. */
  lemma SystemOffered(c: Config)
    ensures SYSTEM in ProviderThemes(c) <==> c.enableSystem || SYSTEM in c.themes
  {
    if c.enableSystem {
      assert ProviderThemes(c)[|c.themes|] == SYSTEM;
    }
  }

  /** The provider's state: the theme and the browser storage. */
  datatype ThemeState = ThemeState(theme: Option<string>, storage: map<string, string>)

  /** The initial state: the theme read from storage, or the default. */
  function InitialState(c: Config, storage: map<string, string>): (s: ThemeState)
    ensures s.storage == storage
    ensures c.storageKey in storage && storage[c.storageKey] != "" ==> s.theme == Some(storage[c.storageKey])
    ensures !(c.storageKey in storage && storage[c.storageKey] != "") ==> s.theme == Some(c.defaultTheme)
  {
    var stored := if c.storageKey in storage then Some(storage[c.storageKey]) else None;
    ThemeState(GetTheme(false, stored, Some(c.defaultTheme)), storage)
  }

  /** `setTheme` with a value: the new theme, also written to storage. */
  function SetTheme(c: Config, s: ThemeState, newTheme: string): (r: ThemeState)
    ensures r.theme == Some(newTheme)
    ensures r.storage == s.storage[c.storageKey := newTheme]
  {
    ThemeState(Some(newTheme), s.storage[c.storageKey := newTheme])
  }

  /** The storage event handler: ignores other keys; otherwise takes the new
      value, or the default theme when it was removed or emptied. */
  function HandleStorage(c: Config, s: ThemeState, key: Option<string>, newValue: Option<string>): (r: ThemeState)
    ensures key != Some(c.storageKey) ==> r == s
    ensures key == Some(c.storageKey) && Truthy(newValue) ==> r.theme == newValue
    ensures key == Some(c.storageKey) && !Truthy(newValue) ==> r.theme == Some(c.defaultTheme)
    ensures key == Some(c.storageKey) ==> c.storageKey in r.storage && Some(r.storage[c.storageKey]) == r.theme
  {
    if key != Some(c.storageKey) then s
    else SetTheme(c, s, if Truthy(newValue) then newValue.value else c.defaultTheme)
  }

  /** The effect that paints on every change: the forced theme when there
      is one, else the current theme. */
  function Effect(c: Config, theme: Option<string>, prefersDark: bool, d: Dom): (r: Dom)
    ensures c.forcedTheme.Some? ==> r == ApplyTheme(c, c.forcedTheme, prefersDark, d)
    ensures c.forcedTheme.None? ==> r == ApplyTheme(c, theme, prefersDark, d)
  {
    ApplyTheme(c, if c.forcedTheme.Some? then c.forcedTheme else theme, prefersDark, d)
  }

  /** The media-query handler repaints only for "system" with system themes
      enabled and no forced theme. */
  function HandleMediaQuery(c: Config, theme: Option<string>, prefersDark: bool, d: Dom): (r: Dom)
    ensures theme == Some(SYSTEM) && c.enableSystem && !Truthy(c.forcedTheme) ==>
      r == ApplyTheme(c, Some(SYSTEM), prefersDark, d)
    ensures !(theme == Some(SYSTEM) && c.enableSystem && !Truthy(c.forcedTheme)) ==> r == d
  {
    if theme == Some(SYSTEM) && c.enableSystem && !Truthy(c.forcedTheme) then ApplyTheme(c, Some(SYSTEM), prefersDark, d)
    else d
  }

  /** The class the inline script removes for each theme: its mapped name
      when the map has a non-empty one, else the theme itself. */
  function ScriptClass(c: Config, t: string): string {
    match c.value
    case Some(v) => if t in v && v[t] != "" then v[t] else t
    case None => t
  }

  /** The script's class list. */
  function ScriptClasses(c: Config): (cs: set<string>)
    ensures c.attribute == One(CLASS) && c.value.None? ==> cs == set t | t in c.themes
  {
    if c.attribute == One(CLASS) && c.value.Some? then set t | t in c.themes :: ScriptClass(c, t)
    else set t | t in c.themes
  }

  /** The attribute name the script writes: the attribute, or for a list
      the list turned into a string. */
  function ScriptAttribute(spec: AttributeSpec): string {
    match spec
    case One(a) => a
    case Many(names) => SeqUtil.Join(names, ",")
  }

  /** The class list an element has after its `class` attribute is set to
      `value`: that one class, or none for the empty string. */
  function ClassAttribute(value: string): (cs: set<string>)
    ensures value != "" ==> cs == {value}
    ensures value == "" ==> cs == {}
  {
    if value == "" then {} else {value}
  }

  /** The script's `updateDOM`: in class mode the theme classes are removed
      and the theme itself (not its mapped name) added; otherwise the
      attribute is set, and an attribute list naming only `class` sets the
      `class` attribute, which replaces every class on the element. The
      color scheme is set only for light or dark. */
  function UpdateDom(c: Config, theme: string, d: Dom): (r: Dom)
    ensures c.attribute == One(CLASS) ==> r.classes == (d.classes - ScriptClasses(c)) + {theme} && r.attrs == d.attrs
    ensures c.attribute != One(CLASS) && ScriptAttribute(c.attribute) == CLASS ==>
      r.classes == ClassAttribute(theme) && r.attrs == d.attrs
    ensures c.attribute == Many([CLASS]) ==> r.classes == ClassAttribute(theme) && r.attrs == d.attrs
    ensures ScriptAttribute(c.attribute) != CLASS ==>
      r.classes == d.classes && r.attrs == d.attrs[ScriptAttribute(c.attribute) := theme]
    ensures c.enableColorScheme && IsColorScheme(theme) ==> r.colorScheme == Some(theme)
    ensures !(c.enableColorScheme && IsColorScheme(theme)) ==> r.colorScheme == d.colorScheme
  {
    var name := ScriptAttribute(c.attribute);
    var painted :=
      if c.attribute == One(CLASS) then d.(classes := (d.classes - ScriptClasses(c)) + {theme})
      else if name == CLASS then d.(classes := ClassAttribute(theme))
      else d.(attrs := d.attrs[name := theme]);
    if c.enableColorScheme && IsColorScheme(theme) then painted.(colorScheme := Some(theme)) else painted
  }


  /** The inline script: a non-empty forced theme wins; otherwise the stored
      theme, or the default, with "system" resolved when enabled. */
  function Script(c: Config, stored: Option<string>, prefersDark: bool, d: Dom): (r: Dom)
    ensures Truthy(c.forcedTheme) ==> r == UpdateDom(c, c.forcedTheme.value, d)
    ensures !Truthy(c.forcedTheme) ==>
      var name := if Truthy(stored) then stored.value else c.defaultTheme;
      r == UpdateDom(c, Resolve(c, name, prefersDark), d)
  {
    if Truthy(c.forcedTheme) then UpdateDom(c, c.forcedTheme.value, d)
    else
      var themeName := if Truthy(stored) then stored.value else c.defaultTheme;
      var isSystem := c.enableSystem && themeName == SYSTEM;
      var theme := if isSystem then SystemTheme(prefersDark) else themeName;
      UpdateDom(c, theme, d)
  }

  /** A forced theme overrides the stored one in both the effect and the
      inline script: neither depends on the theme otherwise in force. */
  lemma ForcedThemeWins(c: Config, t1: Option<string>, t2: Option<string>, prefersDark: bool, d: Dom)
    requires Truthy(c.forcedTheme)
    ensures Effect(c, t1, prefersDark, d) == Effect(c, t2, prefersDark, d)
    ensures Script(c, t1, prefersDark, d) == Script(c, t2, prefersDark, d)
  {
  }

  /** In plain class mode, with no forced theme and a non-empty default, the
      inline script and the effect on the initial state paint the same
      classes. */
  lemma ScriptMatchesEffect(c: Config, storage: map<string, string>, prefersDark: bool, d: Dom)
    requires c.attribute == One(CLASS) && c.value.None? && c.forcedTheme.None? && c.defaultTheme != ""
    ensures var stored := if c.storageKey in storage then Some(storage[c.storageKey]) else None;
      Effect(c, InitialState(c, storage).theme, prefersDark, d).classes == Script(c, stored, prefersDark, d).classes
  {
    var stored := if c.storageKey in storage then Some(storage[c.storageKey]) else None;
    var theme := InitialState(c, storage).theme;
    assert Truthy(theme);
    var resolved := Resolve(c, theme.value, prefersDark);
    assert resolved != "";
    HandleAllEffect(c, NameOf(c, resolved), [CLASS], d);
  }
}
