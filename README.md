# Theme subsystem of the portfolio page script

A model of the light/dark theme logic of `script.js`: reading the stored
preference (`localStorage` key `"preferred-theme"`), reading the host's
`prefers-color-scheme: dark` media query, applying a theme to
`document.body.dataset.theme` and to the toggle's `aria-pressed`, resolving
the theme at load, and the click and colour-scheme-change listeners. The
small string helper `capitalizeFirst` is modelled too.

Layout:

- `wrappers.dfy` — `Option`, standing for JavaScript's value-or-`null`.
- `theme.dfy` (module `Theme`) — the page and its host as one value `Env`
  (storage slot with "read throws" and "write throws" flags, media-query
  capability and match, body theme, optional toggle with its `aria-pressed`,
  and which listeners are registered) and each piece of the script's logic
  as a function over it. These functions are the specification.
- `events.dfy` (module `Events`) — the event loop after load: clicks and
  scheme changes delivered to whichever listener is registered, and lemmas
  about whole sequences of events.
- `page.dfy` (module `ThemePage`) — class `Page`, whose fields are the
  mutable attributes and whose methods are the script's functions and
  listeners written step by step; each method's postcondition ties the new
  state to the function in `Theme` or `Events`.
- `text.dfy` (module `Text`) — `capitalizeFirst`, with upper-casing as a
  parameter, and an ASCII instance.

JavaScript exceptions are modelled as follows. `localStorage.getItem`
throwing is absorbed inside `getStoredTheme` (`readThrows`). `setItem`
throwing (`writeThrows`) makes `applyTheme` stop after it has already set
the body theme and the toggle; `Apply` returns that state together with
`threw`, and the callers' `catch` blocks are the branches on `threw`.

One consequence the model makes explicit: a readable stored preference wins
over the system signal at load only when rewriting it succeeds. If the
persist write inside `initializeTheme` throws, the `catch` block applies the
system theme (`Theme.Initialize`).

## Model

| member | source | states |
|---|---|---|
| Theme.GetStoredTheme | script.js:3-10 | gives a value exactly when the read does not throw and the slot holds "light" or "dark", and then it is the stored value; absent, other values and a throwing read give None |
| Theme.GetSystemTheme | script.js:12-16 | "dark" if and only if `matchMedia` exists and the dark query matches, otherwise "light" |
| Theme.Apply | script.js:18-28 | body theme becomes the argument; an existing toggle gets "true" exactly for dark; storage is written with the theme iff `persist` and the write does not throw; `threw` iff `persist` and the write throws; nothing else changes |
| Theme.Initialize | script.js:30-39 | the page shows a valid theme with the toggle in agreement; storage is unchanged; the body is the stored preference when one is readable and rewriting it succeeds, otherwise the system theme |
| Theme.NextTheme | script.js:51 | always a valid theme; "light" exactly when the current theme is "dark"; differs from any valid current theme |
| Theme.Click | script.js:50-58 | body becomes the next theme, toggle agrees; storage holds the new theme, or is untouched when the write throws; nothing else changes |
| Theme.Change | script.js:62-65 | with a readable stored preference the page is unchanged; otherwise the body shows the reported scheme with the toggle in agreement; storage is never touched |
| Theme.InitToggle | script.js:41-66 | without a toggle nothing changes and no listener is registered; with one, the toggle stays and its `aria-pressed` is set from the body theme, the click listener is registered, and the change listener when `matchMedia` exists |
| Theme.Boot | script.js:123-126 | after load the page shows the theme `initializeTheme` resolved (stored preference or system theme), valid and with the toggle in agreement; the toggle exists iff it did; the click listener ends up registered iff there is a toggle (or it already was), the change listener iff there is a toggle and `matchMedia` (or it already was); storage is as it was, and so are the host's storage failure flags, `matchMedia` capability and scheme signal |
| Events.Dispatch | script.js:50-66 | a click with no click listener changes nothing; a registered click shows the next theme with the toggle in agreement and stores it unless the write throws; without `matchMedia` a scheme change changes nothing, otherwise it updates the query's state; without a change listener the theme and toggle stay; with one, a readable preference leaves everything else as it was, and otherwise the reported scheme is shown; only a click can write storage; a valid shown theme stays valid; listeners and host flags never change |
| Events.Run | script.js:50-66 | any sequence of events keeps a valid shown theme valid and the toggle in agreement |
| Events.OnlyClicksWriteStorage | script.js:60-65 | a sequence of events without clicks leaves the storage as it was |
| Events.PreferenceBeatsSchemeChanges | script.js:62-65 | while a stored preference is readable, any sequence of scheme changes leaves the body theme, the toggle and the storage unchanged |
| Events.UnwiredPageIgnoresEvents | script.js:42-43 | a page with no registered listener keeps its theme, toggle and storage whatever events occur |
| Events.NoToggleMeansNoListeners | script.js:41-43 | a page without a toggle keeps, after any events, the theme it got at load, still has no toggle, and keeps its storage |
| Events.ClickTwiceRestoresTheme | script.js:50-58 | two clicks give back the original valid theme with the toggle in agreement; storage then holds that theme, or is untouched when writes throw |
| Events.LatestClickIsStored | script.js:50-58 | after a click whose write succeeds, storage holds that click's theme whatever scheme changes follow |
| Events.AlwaysShowsATheme | script.js:18-66 | from load onwards the body theme is always "light" or "dark" and an existing toggle's `aria-pressed` equals whether it is dark |
| ThemePage.Page.ApplyTheme | script.js:18-28 | sets body, then toggle, then writes storage iff persisting and the write succeeds; reports a throwing write; the new state is `Theme.Apply` of the old |
| ThemePage.Page.InitializeTheme | script.js:30-39 | the new state is `Theme.Initialize` of the old: a valid theme shown, storage unchanged |
| ThemePage.Page.InitThemeToggle | script.js:41-66 | returns early without a toggle, changing nothing; otherwise syncs `aria-pressed` and registers the listeners, as `Theme.InitToggle` |
| ThemePage.Page.OnClick | script.js:50-58 | body becomes the next theme; storage holds it unless the write throws; the new state is `Theme.Click` of the old |
| ThemePage.Page.OnSchemeChange | script.js:62-65 | returns without change while a stored preference is readable; never writes storage; the new state is `Theme.Change` of the old |
| ThemePage.Page.Deliver | script.js:50-66 | one event reaches only a registered listener; the new state is `Events.Dispatch` of the old |
| ThemePage.Page.Load | script.js:123-126 | initializeTheme then initThemeToggle; the page then shows a valid theme, as `Theme.Boot` |
| Text.CapitalizeFirst | script.js:96-97 | "" gives ""; otherwise the result is the upper-cased first character followed by the rest of the text unchanged |
| Text.AsciiUpper | script.js:97 | one character out; 'a'..'z' become 'A'..'Z', every other character is kept |
| Text.AsciiCapitalizeFirst | script.js:96-97 | with ASCII upper-casing the length is kept, every character after the first is kept, and capitalising is idempotent |

## Left out

- The clock (`formatTimeForLocation`, `updateClock`, the one-second timer): it rests on `Intl.DateTimeFormat`, `Date` and time-zone data, which are host library behaviour.
- The card spotlight: pointer events and floating-point geometry from `getBoundingClientRect`.
- `console.error` diagnostics: they have no effect on the page state.
- `querySelector`, `addEventListener` and `DOMContentLoaded` as mechanisms: the toggle is an optional field, registration is the `clickBound` and `changeBound` flags, and `initThemeToggle` is assumed to run once.
- The real `localStorage` and `matchMedia` APIs: the storage is one optional string slot with fixed "read throws" and "write throws" flags, the media query a capability flag and a match flag. Other keys, other tabs and external clearing of the storage are not modelled.
- Exceptions other than a throwing storage access (a failing DOM write, a throwing `matchMedia` call) are not modelled, so the `catch` in `initializeTheme` is reached only through the persist write.
- The toggle element is taken to be present (or absent) for the whole life of the page, including when `initializeTheme` runs at script load; a missing `data-theme` attribute before load is modelled as an arbitrary string.
- Unicode case mapping of `toUpperCase`: upper-casing is a parameter of `Text.CapitalizeFirst`, with an ASCII instance only.
- Text.CapitalizeFirst: works on Unicode scalar values, while `charAt(0)` and `slice(1)` work on UTF-16 code units and split a surrogate pair; for text starting outside the Basic Multilingual Plane the model upper-cases the whole first character where the script leaves it as it is.
