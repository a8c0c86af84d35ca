/** The theme store: one `darkMode` flag, persisted in `localStorage` under
    "darkMode" and restored at start-up. */
module ThemeStore {
  import opened Base
  import opened BrowserStorage

  /** The storage key the theme is kept under. */
  const DarkModeKey := "darkMode"

  /** The string that records a mode: "true" for dark, "false" for light. */
  function ModeString(dark: bool): (s: string)
    ensures s == "true" || s == "false"
    ensures s == "true" <==> dark
  {
    if dark then "true" else "false"
  }

  /** What `toggleDarkMode` writes, given the mode it has just committed: it
      reads the state after the commit and stores the negation of that mode,
      that is, the mode before the toggle. */
  function StoredByToggle(committed: bool): (s: string)
    ensures s == ModeString(!committed)
  {
    if !committed then "true" else "false"
  }

  /** The mode `initTheme` leaves: a non-empty saved value decides, reading as
      dark exactly when it is "true"; otherwise a dark system preference turns
      dark mode on and a light one keeps the current mode. */
  function InitialMode(current: bool, saved: Option<string>, prefersDark: bool): (dark: bool)
    ensures StrTruthy(saved) ==> (dark <==> saved.value == "true")
    ensures !StrTruthy(saved) ==> (dark <==> current || prefersDark)
  {
    if StrTruthy(saved) then saved.value == "true"
    else if prefersDark then true
    else current
  }

  /** A recorded mode reads back as itself, whatever the system preference. */
  lemma ModeStringReadsBack(current: bool, dark: bool, prefersDark: bool)
    ensures InitialMode(current, Some(ModeString(dark)), prefersDark) == dark
  {
  }

  /** As written, a reload after a toggle brings back the mode from before
      the toggle: toggling from `before` commits `!before`, and a fresh store
      then starts in `before`. */
  lemma ReloadAfterToggleReverts(before: bool, prefersDark: bool)
    ensures InitialMode(false, Some(StoredByToggle(!before)), prefersDark) == before
  {
    ModeStringReadsBack(false, before, prefersDark);
  }

  /** With the committed mode persisted instead, a reload keeps the toggled mode. */
  lemma ReloadAfterCorrectedToggleKeeps(before: bool, prefersDark: bool)
    ensures InitialMode(false, Some(ModeString(!before)), prefersDark) == !before
  {
    ModeStringReadsBack(false, !before, prefersDark);
  }

  /** The Vuex theme module as an object. */
  class Theme {
    var darkMode: bool
    const storage: Storage

    constructor(storage: Storage)
      ensures !darkMode && this.storage == storage
    {
      darkMode := false;
      this.storage := storage;
    }

    /** The `SET_DARK_MODE` mutation. */
    method SetDarkMode(value: bool)
      modifies this
      ensures darkMode == value
    {
      darkMode := value;
    }

    /** The `toggleDarkMode` action as written: flip the mode, then store the
        string derived from the flipped state. */
    method ToggleDarkMode()
      modifies this, storage
      ensures darkMode == !old(darkMode)
      ensures storage.items == old(storage.items)[DarkModeKey := StoredByToggle(darkMode)]
      ensures storage.items[DarkModeKey] == ModeString(old(darkMode))
    {
      SetDarkMode(!darkMode);
      storage.SetItem(DarkModeKey, if !darkMode then "true" else "false");
    }

    /** `toggleDarkMode` as evidently intended: flip the mode and store the new one. */
    method ToggleDarkModePersistingNewMode()
      modifies this, storage
      ensures darkMode == !old(darkMode)
      ensures storage.items == old(storage.items)[DarkModeKey := ModeString(darkMode)]
    {
      SetDarkMode(!darkMode);
      storage.SetItem(DarkModeKey, ModeString(darkMode));
    }

    /** The `initTheme` action; the system colour-scheme preference is a parameter. */
    method InitTheme(prefersDark: bool)
      modifies this
      ensures darkMode == InitialMode(old(darkMode), storage.Lookup(DarkModeKey), prefersDark)
    {
      var savedTheme := storage.GetItem(DarkModeKey);
      if savedTheme.Some? && savedTheme.value != "" {
        SetDarkMode(savedTheme.value == "true");
      } else if prefersDark {
        SetDarkMode(true);
      }
    }
  }
}
