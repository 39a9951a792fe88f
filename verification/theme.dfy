/**
 * The theme state of `src/hooks/useTheme.js`: the initial theme read from local storage
 * or the system preference, the document attributes it sets, the four actions the
 * provider offers, and the provider's effects (apply on every change, persist after
 * mount, follow the system only while nothing is stored). `JSON.parse` and the system
 * preference are parameters; a React commit is a method that runs the effects whose
 * dependencies changed.
 */
module Theme {
  import opened Strings
  import Objects

  /** A mode and an accent; `""` stands for a missing or falsy field. */
  datatype ThemeValue = ThemeValue(mode: string, accent: string)

  /** `DEFAULT_THEME` */
  const DefaultTheme := ThemeValue("dark", "purple")

  /** The keys of `ACCENT_COLORS`. */
  const AccentKeys: set<string> := {"purple", "blue", "green", "orange"}

  predicate IsMode(m: string) { m == "dark" || m == "light" }

  /** `JSON.parse(stored)`: it throws, gives `null`, or gives a value whose `mode` and `accent` are read. */
  datatype Parsed = ParseError | NullValue | Object(mode: string, accent: string)

  /** `localStorage.getItem(STORAGE_KEY)`: it throws, or gives the item (or `null`). */
  datatype StorageRead = Unavailable | Item(item: Option<string>)

  /** `x || fallback` for a string field. */
  function OrDefault(x: string, fallback: string): (r: string)
    ensures x != [] ==> r == x
    ensures x == [] ==> r == fallback
  {
    if x != [] then x else fallback
  }

  /**
   * `getInitialTheme`: the default without a window or when reading throws; a stored
   * item's own fields, each falling back to the default without any check; otherwise the
   * system preference for the mode and the default accent.
   */
  function InitialTheme(hasWindow: bool, read: StorageRead, parse: string -> Parsed, prefersDark: bool): (t: ThemeValue)
    ensures !hasWindow || read.Unavailable? ==> t == DefaultTheme
    ensures hasWindow && read.Item? && (read.item.None? || read.item.value == []) ==>
      t == ThemeValue(if prefersDark then "dark" else "light", "purple")
    ensures hasWindow && read.Item? && read.item.Some? && read.item.value != [] ==>
      match parse(read.item.value)
      case Object(m, a) => t.mode == OrDefault(m, "dark") && t.accent == OrDefault(a, "purple")
      case _ => t == DefaultTheme
    ensures t.mode != [] && t.accent != []
  {
    if !hasWindow then DefaultTheme
    else match read
      case Unavailable => DefaultTheme
      case Item(item) =>
        if item.Some? && item.value != [] then
          match parse(item.value)
          case Object(m, a) => ThemeValue(OrDefault(m, "dark"), OrDefault(a, "purple"))
          case _ => DefaultTheme
        else ThemeValue(if prefersDark then "dark" else "light", "purple")
  }

  /** `JSON.stringify({ mode, accent })` for values without quotes or backslashes. */
  function ThemeJson(t: ThemeValue): (s: string)
    ensures s != [] && s[0] == '{'
  {
    "{\"mode\":\"" + t.mode + "\",\"accent\":\"" + t.accent + "\"}"
  }

  /** What the provider saves is read back unchanged, as long as `JSON.parse` undoes `JSON.stringify`. */
  lemma SavedThemeReadBack(t: ThemeValue, parse: string -> Parsed, prefersDark: bool)
    requires t.mode != [] && t.accent != []
    requires parse(ThemeJson(t)) == Object(t.mode, t.accent)
    ensures InitialTheme(true, Item(Some(ThemeJson(t))), parse, prefersDark) == t
  {
  }

  /** The document's `data-theme` (absent or `light`) and `data-accent` attributes. */
  datatype Attrs = Attrs(dataTheme: Option<string>, dataAccent: string)

  /** `applyTheme`: `data-theme` is removed for `dark` and is `light` for any other mode; `data-accent` is the accent. */
  function Applied(mode: string, accent: string): (a: Attrs)
    ensures a.dataTheme.None? <==> mode == "dark"
    ensures a.dataTheme.Some? ==> a.dataTheme.value == "light"
    ensures a.dataAccent == accent
  {
    Attrs(if mode == "dark" then None else Some("light"), accent)
  }

  /** `toggleMode`: `dark` becomes `light`, anything else `dark`. */
  function Toggle(mode: string): (r: string)
    ensures IsMode(r)
    ensures r == "light" <==> mode == "dark"
  {
    if mode == "dark" then "light" else "dark"
  }

  /** Toggling twice is the identity on the two modes. */
  lemma ToggleTwice(mode: string)
    ensures IsMode(mode) ==> Toggle(Toggle(mode)) == mode
    ensures !IsMode(mode) ==> Toggle(Toggle(mode)) == "light"
  {
  }

  /** `setMode`: only `dark` and `light` are taken. */
  function SetModeExplicit(current: string, requested: string): (r: string)
    ensures IsMode(requested) ==> r == requested
    ensures !IsMode(requested) ==> r == current
  {
    if IsMode(requested) then requested else current
  }

  /**
   * `setAccent`: `if (ACCENT_COLORS[newAccent])`. The keys of `ACCENT_COLORS` are taken, and
   * so is a name the object inherits (such as `toString`), whose member is truthy too.
   */
  function SetAccent(current: string, requested: string): (r: string)
    ensures requested in AccentKeys || requested in Objects.InheritedNames ==> r == requested
    ensures requested !in AccentKeys && requested !in Objects.InheritedNames ==> r == current
  {
    if Objects.Found(AccentKeys, requested) then requested else current
  }

  /**
   * Once the mode and the accent are valid the mode actions keep them valid; the accent
   * stays one of `ACCENT_COLORS` exactly unless an inherited name is requested.
   */
  lemma ActionsKeepValid(t: ThemeValue, requested: string)
    requires IsMode(t.mode) && t.accent in AccentKeys
    ensures IsMode(Toggle(t.mode)) && IsMode(SetModeExplicit(t.mode, requested))
    ensures SetAccent(t.accent, requested) in AccentKeys <==> requested !in Objects.InheritedNames
    ensures IsMode(DefaultTheme.mode) && DefaultTheme.accent in AccentKeys
  {
    assert AccentKeys !! Objects.InheritedNames;
  }

  /** The system listener: it follows the system preference only while no theme is stored (`!stored`). */
  function FollowSystem(mode: string, stored: Option<string>, matches: bool): (r: string)
    ensures stored.Some? && stored.value != [] ==> r == mode
    ensures stored.None? || stored.value == [] ==> r == (if matches then "dark" else "light")
  {
    if stored.None? || stored.value == [] then (if matches then "dark" else "light") else mode
  }

  /**
   * `ThemeProvider`: the state (`mode`, `accent`, `mounted`), the stored item, the
   * document attributes, and the dependencies each effect last ran with.
   */
  class Provider {
    var mode: string
    var accent: string
    var mounted: bool
    var stored: Option<string>
    var attrs: Attrs
    var applyDeps: Option<ThemeValue>
    var persistDeps: Option<(ThemeValue, bool)>

    /** The first render: `initialTheme?.mode || 'dark'` and `initialTheme?.accent || 'purple'`; no effect has run. */
    constructor (initial: Option<ThemeValue>, storedItem: Option<string>, document: Attrs)
      ensures mode == (if initial.Some? then OrDefault(initial.value.mode, "dark") else "dark")
      ensures accent == (if initial.Some? then OrDefault(initial.value.accent, "purple") else "purple")
      ensures !mounted && stored == storedItem && attrs == document && applyDeps.None? && persistDeps.None?
    {
      mode := if initial.Some? then OrDefault(initial.value.mode, "dark") else "dark";
      accent := if initial.Some? then OrDefault(initial.value.accent, "purple") else "purple";
      mounted := false;
      stored := storedItem;
      attrs := document;
      applyDeps := None;
      persistDeps := None;
    }

    /**
     * One commit: the apply effect runs when mode or accent changed, then the persist
     * effect when mode, accent or `mounted` changed; its first run only sets `mounted`.
     */
    method Commit()
      modifies this
      ensures mode == old(mode) && accent == old(accent)
      ensures applyDeps == Some(ThemeValue(mode, accent))
      ensures old(applyDeps) != Some(ThemeValue(mode, accent)) ==> attrs == Applied(mode, accent)
      ensures old(applyDeps) == Some(ThemeValue(mode, accent)) ==> attrs == old(attrs)
      ensures old(persistDeps) == Some((ThemeValue(mode, accent), old(mounted))) ==>
        mounted == old(mounted) && stored == old(stored) && persistDeps == old(persistDeps)
      ensures old(persistDeps) != Some((ThemeValue(mode, accent), old(mounted))) ==>
        persistDeps == Some((ThemeValue(mode, accent), old(mounted))) && mounted &&
        stored == (if old(mounted) then Some(ThemeJson(ThemeValue(mode, accent))) else old(stored))
    {
      var t := ThemeValue(mode, accent);
      if applyDeps != Some(t) {
        attrs := Applied(mode, accent);
        applyDeps := Some(t);
      }
      if persistDeps != Some((t, mounted)) {
        persistDeps := Some((t, mounted));
        if !mounted {
          mounted := true;
        } else {
          stored := Some(ThemeJson(t));
        }
      }
    }

    /** Mounting: the first commit sets `mounted`, which re-renders, and the second commit saves the theme. */
    method Mount()
      requires !mounted && persistDeps.None? && applyDeps.None?
      modifies this
      ensures mode == old(mode) && accent == old(accent) && mounted
      ensures attrs == Applied(mode, accent)
      ensures stored == Some(ThemeJson(ThemeValue(mode, accent)))
      ensures persistDeps == Some((ThemeValue(mode, accent), true)) && applyDeps == Some(ThemeValue(mode, accent))
    {
      Commit();
      Commit();
    }

    /** After a state change the effects catch up: the theme is applied and, once mounted, saved. */
    predicate Settled()
      reads this
    {
      mounted && applyDeps == Some(ThemeValue(mode, accent)) && persistDeps == Some((ThemeValue(mode, accent), true)) &&
      attrs == Applied(mode, accent) && stored == Some(ThemeJson(ThemeValue(mode, accent)))
    }

    /** Sets the state and commits: the new theme is applied and saved. */
    method Render(m: string, a: string)
      requires Settled()
      modifies this
      ensures mode == m && accent == a && Settled()
    {
      var changed := ThemeValue(m, a) != ThemeValue(mode, accent);
      mode, accent := m, a;
      Commit();
      if !changed {
        assert persistDeps == Some((ThemeValue(mode, accent), true));
      }
    }

    method ToggleMode()
      requires Settled()
      modifies this
      ensures mode == Toggle(old(mode)) && accent == old(accent) && Settled()
    {
      Render(Toggle(mode), accent);
    }

    method SetMode(requested: string)
      requires Settled()
      modifies this
      ensures mode == SetModeExplicit(old(mode), requested) && accent == old(accent) && Settled()
    {
      Render(SetModeExplicit(mode, requested), accent);
    }

    method SetAccentColor(requested: string)
      requires Settled()
      modifies this
      ensures accent == SetAccent(old(accent), requested) && mode == old(mode) && Settled()
    {
      Render(mode, SetAccent(accent, requested));
    }

    method ResetTheme()
      requires Settled()
      modifies this
      ensures mode == DefaultTheme.mode && accent == DefaultTheme.accent && Settled()
    {
      Render(DefaultTheme.mode, DefaultTheme.accent);
    }

    /**
     * A change of the system preference: the mode follows it only while nothing is stored.
     * After mounting the theme is always stored, so the mode stays as it is.
     */
    method SystemChange(matches: bool)
      requires Settled()
      modifies this
      ensures mode == FollowSystem(old(mode), old(stored), matches) && accent == old(accent) && Settled()
      ensures mode == old(mode)
    {
      Render(FollowSystem(mode, stored, matches), accent);
    }
  }
}
