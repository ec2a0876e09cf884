/**
 * The theme store: a reducer over one flag, the initial value chosen from the
 * stored choice or the system's colour-scheme preference, and the effect that
 * mirrors the flag onto the document's `dark` class and into storage.
 */
module ThemeContext {
  import opened Wrappers
  import Api

  const ThemeKey := "theme"
  const DarkClass := "dark"

  datatype ThemeState = ThemeState(isDark: bool)

  datatype ThemeAction = ToggleTheme | SetTheme(isDark: bool) | Unknown(kind: string)

  /** Only a toggle, or setting the other value, changes the flag. */
  function Reduce(s: ThemeState, a: ThemeAction): (r: ThemeState)
    ensures r.isDark != s.isDark <==> a.ToggleTheme? || (a.SetTheme? && a.isDark != s.isDark)
  {
    match a
    case ToggleTheme => s.(isDark := !s.isDark)
    case SetTheme(d) => s.(isDark := d)
    case Unknown(_) => s
  }

  /**
   * The starting flag: a stored `dark` means dark, any other stored non-empty
   * value means light, and with nothing (or the empty string) stored the
   * system preference decides.
   */
  function InitialIsDark(stored: Option<string>, prefersDark: bool): (dark: bool)
    ensures stored == Some("dark") ==> dark
    ensures stored.Some? && stored.value != "" && stored.value != "dark" ==> !dark
    ensures stored.None? || stored == Some("") ==> dark == prefersDark
  {
    stored == Some("dark") || ((stored.None? || stored == Some("")) && prefersDark)
  }

  /** Toggling twice restores the flag; setting is idempotent; unknown actions change nothing. */
  lemma ReducerLaws(s: ThemeState, d: bool, kind: string)
    ensures Reduce(Reduce(s, ToggleTheme), ToggleTheme) == s
    ensures Reduce(s, ToggleTheme).isDark != s.isDark
    ensures Reduce(Reduce(s, SetTheme(d)), SetTheme(d)) == Reduce(s, SetTheme(d))
    ensures Reduce(s, Unknown(kind)) == s
  {
  }

  /** The provider: browser storage, the root element's classes, and the reducer's state. */
  class ThemeProvider {
    var storage: Api.Storage
    var classes: set<string>
    var state: ThemeState

    /** Mounting: the initial state, then the effect. */
    constructor (storage: Api.Storage, classes: set<string>, prefersDark: bool)
      ensures state.isDark == InitialIsDark(Get(storage, ThemeKey), prefersDark)
      ensures this.storage == storage[ThemeKey := if state.isDark then "dark" else "light"]
      ensures this.classes == if state.isDark then classes + {DarkClass} else classes - {DarkClass}
    {
      state := ThemeState(InitialIsDark(Get(storage, ThemeKey), prefersDark));
      this.storage := storage;
      this.classes := classes;
      new;
      Apply();
    }

    /** Persisted state: the document class and the stored choice agree with the flag. */
    predicate Applied()
      reads this
    {
      (DarkClass in classes <==> state.isDark) &&
      Get(storage, ThemeKey) == Some(if state.isDark then "dark" else "light")
    }

    /**
     * The effect: adds or removes the `dark` class and stores the choice, so
     * that the next start-up reads back the same flag whatever the system prefers.
     */
    method Apply()
      modifies this`storage, this`classes
      ensures storage == old(storage)[ThemeKey := if state.isDark then "dark" else "light"]
      ensures classes == if state.isDark then old(classes) + {DarkClass} else old(classes) - {DarkClass}
      ensures Applied()
      ensures forall prefersDark :: InitialIsDark(Get(storage, ThemeKey), prefersDark) == state.isDark
    {
      if state.isDark {
        classes := classes + {DarkClass};
        storage := storage[ThemeKey := "dark"];
      } else {
        classes := classes - {DarkClass};
        storage := storage[ThemeKey := "light"];
      }
    }

    /**
     * Dispatches an action; the effect re-runs on the new flag. The page's
     * effect runs only when `isDark` changes; re-running it on an unchanged
     * flag is a no-op while `Applied()` holds, and differs only if storage or
     * the class list were changed by something outside the provider.
     */
    method Dispatch(a: ThemeAction)
      modifies this
      ensures state == Reduce(old(state), a)
      ensures storage == old(storage)[ThemeKey := if state.isDark then "dark" else "light"]
      ensures classes == if state.isDark then old(classes) + {DarkClass} else old(classes) - {DarkClass}
      ensures Applied()
    {
      state := Reduce(state, a);
      Apply();
    }

    /** `toggleTheme`: the flag flips, and storage and the `dark` class follow it and nothing else. */
    method ToggleTheme()
      modifies this
      ensures state == Reduce(old(state), ThemeAction.ToggleTheme) && state.isDark == !old(state.isDark)
      ensures storage == old(storage)[ThemeKey := if state.isDark then "dark" else "light"]
      ensures classes == if state.isDark then old(classes) + {DarkClass} else old(classes) - {DarkClass}
      ensures Applied()
    {
      Dispatch(ThemeAction.ToggleTheme);
    }

    /** `setTheme`: the flag becomes the argument, and storage and the `dark` class follow it and nothing else. */
    method SetTheme(isDark: bool)
      modifies this
      ensures state == Reduce(old(state), ThemeAction.SetTheme(isDark)) && state.isDark == isDark
      ensures storage == old(storage)[ThemeKey := if isDark then "dark" else "light"]
      ensures classes == if isDark then old(classes) + {DarkClass} else old(classes) - {DarkClass}
      ensures Applied()
      ensures old(Applied()) && old(state.isDark) == isDark ==> storage == old(storage) && classes == old(classes)
    {
      Dispatch(ThemeAction.SetTheme(isDark));
    }
  }
}
