/**
 * The page after load, driven by the browser's event loop: each event runs
 * the listener registered for it, if any, to completion before the next.
 */
module Events {
  import opened Wrappers
  import opened Theme

  /** A click on the toggle, or a flip of the ambient colour scheme. */
  datatype Event = ToggleClicked | SchemeChange(matches: bool)

  /** No event in `evs` is a click. */
  predicate NoClicks(evs: seq<Event>) {
    forall i :: 0 <= i < |evs| ==> !evs[i].ToggleClicked?
  }

  /**
   * One event. A scheme change updates the media query's state and then
   * runs the change listener if one is registered. Without `matchMedia`
   * there is no media query to change, so such an event cannot happen.
   */
  function Dispatch(e: Env, ev: Event): (r: Env)
    ensures ThemeShown(e) ==> ThemeShown(r)
    ensures r.clickBound == e.clickBound && r.changeBound == e.changeBound
    ensures r.readThrows == e.readThrows && r.writeThrows == e.writeThrows
    ensures r.hasMatchMedia == e.hasMatchMedia && r.toggle.Some? == e.toggle.Some?
    ensures !ev.ToggleClicked? ==> r.stored == e.stored
    ensures !e.clickBound && !e.changeBound ==>
              r.body == e.body && r.toggle == e.toggle && r.stored == e.stored
    ensures ev.ToggleClicked? && !e.clickBound ==> r == e
    ensures ev.ToggleClicked? && e.clickBound ==>
              && r.body == NextTheme(e.body)
              && ToggleAgrees(r)
              && r.stored == (if e.writeThrows then e.stored else Some(r.body))
              && r.prefersDark == e.prefersDark
    ensures ev.SchemeChange? && !e.hasMatchMedia ==> r == e
    ensures ev.SchemeChange? && e.hasMatchMedia ==> r.prefersDark == ev.matches
    ensures ev.SchemeChange? && !e.changeBound ==> r.body == e.body && r.toggle == e.toggle
    ensures ev.SchemeChange? && e.hasMatchMedia && e.changeBound ==>
              if GetStoredTheme(e.stored, e.readThrows).Some?
              then r == e.(prefersDark := ev.matches)
              else r.body == (if ev.matches then DARK else LIGHT) && ToggleAgrees(r)
  {
    match ev
    case ToggleClicked =>
      if e.clickBound then Click(e) else e
    case SchemeChange(m) =>
      if !e.hasMatchMedia then e
      else
        var signalled := e.(prefersDark := m);
        if e.changeBound then Change(signalled, m) else signalled
  }

  /** A sequence of events, delivered in order. */
  function Run(e: Env, evs: seq<Event>): (r: Env)
    ensures ThemeShown(e) ==> ThemeShown(r)
    ensures r.clickBound == e.clickBound && r.changeBound == e.changeBound
    ensures r.readThrows == e.readThrows && r.writeThrows == e.writeThrows
    ensures r.hasMatchMedia == e.hasMatchMedia && r.toggle.Some? == e.toggle.Some?
    decreases |evs|
  {
    if evs == [] then e else Run(Dispatch(e, evs[0]), evs[1..])
  }

  /** Delivering `a` and then `b` is delivering `a + b`. */
  lemma {:induction false} RunAppend(e: Env, a: seq<Event>, b: seq<Event>)
    ensures Run(e, a + b) == Run(Run(e, a), b)
    decreases |a|
  {
    if a == [] {
      assert a + b == b;
    } else {
      assert (a + b)[1..] == a[1..] + b;
      RunAppend(Dispatch(e, a[0]), a[1..], b);
    }
  }

  /** Listeners never write the storage except the click listener. */
  lemma {:induction false} OnlyClicksWriteStorage(e: Env, evs: seq<Event>)
    requires NoClicks(evs)
    ensures Run(e, evs).stored == e.stored
    decreases |evs|
  {
    if evs != [] {
      assert !evs[0].ToggleClicked?;
      assert NoClicks(evs[1..]) by {
        forall i | 0 <= i < |evs[1..]| ensures !evs[1..][i].ToggleClicked? {
          assert evs[1..][i] == evs[i + 1];
        }
      }
      OnlyClicksWriteStorage(Dispatch(e, evs[0]), evs[1..]);
    }
  }

  /**
   * While a stored preference is readable, no change of the ambient scheme
   * alters what the page shows.
   */
  lemma {:induction false} PreferenceBeatsSchemeChanges(e: Env, evs: seq<Event>)
    requires GetStoredTheme(e.stored, e.readThrows).Some?
    requires NoClicks(evs)
    ensures Run(e, evs).body == e.body
    ensures Run(e, evs).toggle == e.toggle
    ensures Run(e, evs).stored == e.stored
    decreases |evs|
  {
    if evs != [] {
      assert NoClicks(evs[1..]) by {
        forall i | 0 <= i < |evs[1..]| ensures !evs[1..][i].ToggleClicked? {
          assert evs[1..][i] == evs[i + 1];
        }
      }
      assert !evs[0].ToggleClicked?;
      PreferenceBeatsSchemeChanges(Dispatch(e, evs[0]), evs[1..]);
    }
  }

  /** A page with no listener registered ignores every event. */
  lemma {:induction false} UnwiredPageIgnoresEvents(e: Env, evs: seq<Event>)
    requires !e.clickBound && !e.changeBound
    ensures Run(e, evs).body == e.body
    ensures Run(e, evs).toggle == e.toggle
    ensures Run(e, evs).stored == e.stored
    decreases |evs|
  {
    if evs != [] {
      UnwiredPageIgnoresEvents(Dispatch(e, evs[0]), evs[1..]);
    }
  }

  /**
   * A page without a toggle registers no listener at load, so nothing that
   * happens afterwards changes its theme or its storage.
   */
  lemma NoToggleMeansNoListeners(e: Env, evs: seq<Event>)
    requires e.toggle.None? && !e.clickBound && !e.changeBound
    ensures Run(Boot(e), evs).body == Boot(e).body
    ensures Run(Boot(e), evs).toggle.None?
    ensures Run(Boot(e), evs).stored == e.stored
  {
    UnwiredPageIgnoresEvents(Boot(e), evs);
  }

  /** Two clicks restore the theme; the storage holds the second click's theme. */
  lemma ClickTwiceRestoresTheme(e: Env)
    requires e.clickBound && IsTheme(e.body)
    ensures Run(e, [ToggleClicked, ToggleClicked]).body == e.body
    ensures Run(e, [ToggleClicked, ToggleClicked]).stored ==
              if e.writeThrows then e.stored else Some(e.body)
    ensures ToggleAgrees(Run(e, [ToggleClicked, ToggleClicked]))
  {
    var once := Dispatch(e, ToggleClicked);
    assert [ToggleClicked, ToggleClicked][1..] == [ToggleClicked];
    assert Run(once, [ToggleClicked]) == Dispatch(once, ToggleClicked);
  }

  /**
   * After a click whose write succeeded, the storage holds that click's
   * theme whatever scheme changes follow.
   */
  lemma LatestClickIsStored(e: Env, before: seq<Event>, after: seq<Event>)
    requires e.clickBound && !e.writeThrows
    requires NoClicks(after)
    ensures Run(e, before + [ToggleClicked] + after).stored == Some(Run(e, before + [ToggleClicked]).body)
  {
    RunAppend(e, before + [ToggleClicked], after);
    OnlyClicksWriteStorage(Run(e, before + [ToggleClicked]), after);
    RunAppend(e, before, [ToggleClicked]);
    var mid := Run(e, before);
    assert Run(mid, [ToggleClicked]) == Dispatch(mid, ToggleClicked);
  }

  /** From load onwards the page always shows a valid theme the toggle agrees with. */
  lemma AlwaysShowsATheme(e: Env, evs: seq<Event>)
    ensures ThemeShown(Run(Boot(e), evs))
  {
  }
}
