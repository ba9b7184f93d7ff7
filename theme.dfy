/**
 * The theme subsystem of the page script, as pure functions over one value
 * that records everything the script reads and writes: the browser storage
 * slot under the key "preferred-theme", the `prefers-color-scheme: dark` media query,
 * the body's `data-theme` attribute and the toggle button's `aria-pressed`
 * attribute. These functions are the specification that the handler methods
 * of the `Page` class are proved against.
 */
module Theme {
  import opened Wrappers

  const LIGHT: string := "light"
  const DARK: string := "dark"

  /** The only two values a theme may take. */
  predicate IsTheme(s: string) {
    s == LIGHT || s == DARK
  }

  /**
   * The state of the page and of the host around it.
   *   stored        the storage slot: None when the key is absent
   *   readThrows    reading the storage throws (storage disabled)
   *   writeThrows   writing the storage throws (quota, disabled storage)
   *   hasMatchMedia the host offers `window.matchMedia`
   *   prefersDark   the dark-scheme media query currently matches
   *   body          `document.body.dataset.theme`
   *   toggle        None when no `[data-theme-toggle]` element exists,
   *                 otherwise the element's `aria-pressed` attribute
   *   clickBound    the click listener is registered on the toggle
   *   changeBound   the change listener is registered on the media query
   */
  datatype Env = Env(
    stored: Option<string>,
    readThrows: bool,
    writeThrows: bool,
    hasMatchMedia: bool,
    prefersDark: bool,
    body: string,
    toggle: Option<string>,
    clickBound: bool,
    changeBound: bool)

  /** The `aria-pressed` value that belongs to a theme. */
  function PressedFor(theme: string): string {
    if theme == DARK then "true" else "false"
  }

  /** When the toggle exists, its pressed state says whether the page is dark. */
  predicate ToggleAgrees(e: Env) {
    e.toggle.Some? ==> e.toggle.value == PressedFor(e.body)
  }

  /** The page shows a valid theme and the toggle agrees with it. */
  predicate ThemeShown(e: Env) {
    IsTheme(e.body) && ToggleAgrees(e)
  }

  /**
   * Everything the theme code never writes is the same in `e` and `r`:
   * the host's capabilities and signal, whether a toggle exists, and the
   * registered listeners.
   */
  predicate SameSurroundings(e: Env, r: Env) {
    && r.readThrows == e.readThrows
    && r.writeThrows == e.writeThrows
    && r.hasMatchMedia == e.hasMatchMedia
    && r.prefersDark == e.prefersDark
    && r.toggle.Some? == e.toggle.Some?
    && r.clickBound == e.clickBound
    && r.changeBound == e.changeBound
  }

  /**
   * getStoredTheme: the stored preference, or None. A failing read is
   * absorbed, and any stored value other than "light" or "dark" is ignored.
   */
  function GetStoredTheme(stored: Option<string>, readThrows: bool): (r: Option<string>)
    ensures r.Some? <==> !readThrows && stored.Some? && IsTheme(stored.value)
    ensures r.Some? ==> r == stored && IsTheme(r.value)
  {
    if readThrows then None
    else match stored
      case Some(s) => if s == LIGHT || s == DARK then Some(s) else None
      case None => None
  }

  /** getSystemTheme: dark exactly when the media query exists and matches. */
  function GetSystemTheme(hasMatchMedia: bool, prefersDark: bool): (r: string)
    ensures IsTheme(r)
    ensures r == DARK <==> hasMatchMedia && prefersDark
  {
    if hasMatchMedia && prefersDark then DARK else LIGHT
  }

  /** The page after applyTheme, and whether the storage write threw. */
  datatype Applied = Applied(env: Env, threw: bool)

  /**
   * applyTheme(theme, { persist }): sets the body theme, syncs the toggle and,
   * when asked to, writes the storage. A throwing write leaves the first two
   * effects in place and the storage as it was.
   */
  function Apply(e: Env, theme: string, persist: bool): (r: Applied)
    ensures r.env.body == theme
    ensures ToggleAgrees(r.env)
    ensures SameSurroundings(e, r.env)
    ensures r.threw <==> persist && e.writeThrows
    ensures r.env.stored == if persist && !e.writeThrows then Some(theme) else e.stored
  {
    var shown := e.(body := theme,
                    toggle := if e.toggle.Some? then Some(PressedFor(theme)) else None);
    if !persist then Applied(shown, false)
    else if e.writeThrows then Applied(shown, true)
    else Applied(shown.(stored := Some(theme)), false)
  }

  /**
   * initializeTheme: the stored preference when there is one, else the
   * system theme. Persisting the preference rewrites the value already
   * there; if that write throws, the system theme is applied instead.
   */
  function Initialize(e: Env): (r: Env)
    ensures ThemeShown(r)
    ensures SameSurroundings(e, r)
    ensures r.stored == e.stored
    ensures var pref := GetStoredTheme(e.stored, e.readThrows);
            r.body == if pref.Some? && !e.writeThrows then pref.value
                      else GetSystemTheme(e.hasMatchMedia, e.prefersDark)
  {
    var pref := GetStoredTheme(e.stored, e.readThrows);
    var theme := if pref.Some? then pref.value else GetSystemTheme(e.hasMatchMedia, e.prefersDark);
    var a := Apply(e, theme, pref.Some?);
    if !a.threw then a.env
    else Apply(a.env, GetSystemTheme(e.hasMatchMedia, e.prefersDark), false).env
  }

  /** The theme a click switches to. */
  function NextTheme(current: string): (r: string)
    ensures IsTheme(r)
    ensures r == LIGHT <==> current == DARK
    ensures IsTheme(current) ==> r != current
  {
    if current == DARK then LIGHT else DARK
  }

  /**
   * The click handler: flip the theme and store it; when the store throws,
   * show the new theme anyway without storing it.
   */
  function Click(e: Env): (r: Env)
    ensures r.body == NextTheme(e.body)
    ensures ThemeShown(r)
    ensures SameSurroundings(e, r)
    ensures r.stored == if e.writeThrows then e.stored else Some(r.body)
  {
    var next := NextTheme(e.body);
    var a := Apply(e, next, true);
    if a.threw then Apply(a.env, next, false).env else a.env
  }

  /**
   * The media-query change handler: ignored while a stored preference is
   * readable, otherwise shows the reported scheme without storing it.
   */
  function Change(e: Env, matches: bool): (r: Env)
    ensures GetStoredTheme(e.stored, e.readThrows).Some? ==> r == e
    ensures GetStoredTheme(e.stored, e.readThrows).None? ==>
              r.body == (if matches then DARK else LIGHT) && ToggleAgrees(r)
    ensures r.stored == e.stored
    ensures SameSurroundings(e, r)
    ensures ThemeShown(e) ==> ThemeShown(r)
  {
    if GetStoredTheme(e.stored, e.readThrows).Some? then e
    else Apply(e, if matches then DARK else LIGHT, false).env
  }

  /**
   * initThemeToggle: without a toggle it does nothing, and no listener is
   * registered. Otherwise it syncs `aria-pressed` with the body theme and
   * registers the click listener, and the change listener when the host
   * has `matchMedia`.
   */
  function InitToggle(e: Env): (r: Env)
    ensures e.toggle.None? ==> r == e
    ensures e.toggle.Some? ==>
              && r.clickBound
              && r.toggle == Some(PressedFor(e.body))
              && r.changeBound == (e.changeBound || e.hasMatchMedia)
              && ToggleAgrees(r)
              && r == e.(toggle := r.toggle, clickBound := true, changeBound := r.changeBound)
  {
    if e.toggle.None? then e
    else e.(toggle := Some(PressedFor(e.body)),
            clickBound := true,
            changeBound := e.changeBound || e.hasMatchMedia)
  }

  /** What happens at load: initializeTheme, then initThemeToggle. */
  function Boot(e: Env): (r: Env)
    ensures ThemeShown(r)
    ensures r.body == Initialize(e).body
    ensures r.stored == e.stored
    ensures r.readThrows == e.readThrows && r.writeThrows == e.writeThrows
    ensures r.hasMatchMedia == e.hasMatchMedia && r.prefersDark == e.prefersDark
    ensures r.toggle.Some? == e.toggle.Some?
    ensures r.clickBound == (e.toggle.Some? || e.clickBound)
    ensures r.changeBound == (e.changeBound || (e.toggle.Some? && e.hasMatchMedia))
  {
    InitToggle(Initialize(e))
  }
}
