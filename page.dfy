/**
 * The theme code as the script runs it: handlers that change the page's
 * attributes and the storage step by step. Each method is proved to leave
 * the page in the state the matching function of `Theme` or `Events`
 * describes.
 */
module ThemePage {
  import opened Wrappers
  import opened Theme
  import Events

  class Page {
    // the host: these never change while the page lives
    const readThrows: bool
    const writeThrows: bool
    const hasMatchMedia: bool
    const hasToggle: bool

    // the storage slot under the key "preferred-theme"
    var stored: Option<string>
    // whether the dark-scheme media query matches
    var prefersDark: bool
    // document.body.dataset.theme
    var body: string
    // the toggle's aria-pressed attribute (meaningless when !hasToggle)
    var pressed: string
    // the registered listeners
    var clickBound: bool
    var changeBound: bool

    /** The page as a value. */
    function State(): Env
      reads this
    {
      Env(stored, readThrows, writeThrows, hasMatchMedia, prefersDark, body,
          if hasToggle then Some(pressed) else None, clickBound, changeBound)
    }

    /** A page as the browser hands it to the script, before any listener exists. */
    constructor (stored: Option<string>, readThrows: bool, writeThrows: bool,
                 hasMatchMedia: bool, prefersDark: bool, body: string, toggle: Option<string>)
      ensures State() == Env(stored, readThrows, writeThrows, hasMatchMedia, prefersDark,
                             body, toggle, false, false)
    {
      this.stored := stored;
      this.readThrows := readThrows;
      this.writeThrows := writeThrows;
      this.hasMatchMedia := hasMatchMedia;
      this.prefersDark := prefersDark;
      this.body := body;
      this.hasToggle := toggle.Some?;
      this.pressed := if toggle.Some? then toggle.value else "";
      this.clickBound := false;
      this.changeBound := false;
    }

    /**
     * applyTheme: sets the body theme, then the toggle's pressed state,
     * then, when `persist` holds, writes the storage; `threw` reports a
     * write that threw.
     */
    method ApplyTheme(theme: string, persist: bool) returns (threw: bool)
      modifies this
      ensures body == theme
      ensures hasToggle ==> pressed == PressedFor(theme)
      ensures threw == (persist && writeThrows)
      ensures stored == if persist && !writeThrows then Some(theme) else old(stored)
      ensures prefersDark == old(prefersDark)
      ensures clickBound == old(clickBound) && changeBound == old(changeBound)
      ensures Apply(old(State()), theme, persist) == Applied(State(), threw)
    {
      body := theme;
      if hasToggle {
        pressed := if theme == DARK then "true" else "false";
      }
      threw := false;
      if persist {
        if writeThrows {
          threw := true;
        } else {
          stored := Some(theme);
        }
      }
    }

    /** initializeTheme, with its catch block as the fallback after a throwing write. */
    method InitializeTheme()
      modifies this
      ensures State() == Initialize(old(State()))
      ensures ThemeShown(State())
      ensures stored == old(stored)
    {
      var pref := GetStoredTheme(stored, readThrows);
      var theme := if pref.Some? then pref.value else GetSystemTheme(hasMatchMedia, prefersDark);
      var threw := ApplyTheme(theme, pref.Some?);
      if threw {
        threw := ApplyTheme(GetSystemTheme(hasMatchMedia, prefersDark), false);
      }
    }

    /** initThemeToggle: returns early without a toggle. */
    method InitThemeToggle()
      modifies this
      ensures State() == InitToggle(old(State()))
      ensures hasToggle ==> clickBound && pressed == PressedFor(body)
      ensures !hasToggle ==> State() == old(State())
    {
      if !hasToggle {
        return;
      }
      pressed := if body == DARK then "true" else "false";
      clickBound := true;
      if hasMatchMedia {
        changeBound := true;
      }
    }

    /** The click listener's body. */
    method OnClick()
      modifies this
      ensures State() == Click(old(State()))
      ensures body == NextTheme(old(body))
      ensures stored == if writeThrows then old(stored) else Some(body)
    {
      var next := if body == DARK then LIGHT else DARK;
      var threw := ApplyTheme(next, true);
      if threw {
        threw := ApplyTheme(next, false);
      }
    }

    /** The change listener's body, given the event's `matches`. */
    method OnSchemeChange(matches: bool)
      modifies this
      ensures State() == Change(old(State()), matches)
      ensures GetStoredTheme(stored, readThrows).Some? ==> State() == old(State())
      ensures stored == old(stored)
    {
      if GetStoredTheme(stored, readThrows).Some? {
        return;
      }
      var _ := ApplyTheme(if matches then DARK else LIGHT, false);
    }

    /** The event loop delivering one event to whatever listener is registered for it. */
    method Deliver(ev: Events.Event)
      modifies this
      ensures State() == Events.Dispatch(old(State()), ev)
    {
      match ev
      case ToggleClicked =>
        if clickBound {
          OnClick();
        }
      case SchemeChange(m) =>
        if hasMatchMedia {
          prefersDark := m;
          if changeBound {
            OnSchemeChange(m);
          }
        }
    }

    /** Script load: initializeTheme runs at once, initThemeToggle once the DOM is ready. */
    method Load()
      modifies this
      ensures State() == Boot(old(State()))
      ensures ThemeShown(State())
    {
      InitializeTheme();
      InitThemeToggle();
    }
  }
}
