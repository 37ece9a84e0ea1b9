/**
 * The theme hook: `initTheme` picks dark or light from the saved
 * preference, falling back to the system preference, and `toggleTheme`
 * flips it, mirrors it on the root element's "dark" class and saves it.
 * The system preference is an input; the view-transition animation is not
 * modelled.
 */
module Theme {
  import opened Wrappers
  import opened Storage

  const ThemeKey: string := "theme"

  /** The name under which a theme is saved. */
  function ThemeName(isDark: bool): (name: string)
    ensures name == "dark" || name == "light"
  {
    if isDark then "dark" else "light"
  }

  /** A saved preference, when truthy, decides (dark exactly when it is "dark"); otherwise the system preference does. */
  function PrefersDark(saved: Option<Stored>, systemDark: bool): bool {
    if Truthy(saved) then saved == Some(Text("dark")) else systemDark
  }

  /** What a toggle saves is what the next `initTheme` reads back, whatever the system prefers. */
  lemma SavedThemeRestores(items: Items, isDark: bool, systemDark: bool)
    ensures PrefersDark(GetItem(items[ThemeKey := Text(ThemeName(isDark))], ThemeKey), systemDark) == isDark
  {
  }

  /** The hook's state: `isDark` and whether the root element carries the "dark" class. */
  class ThemeToggle {
    var isDark: bool
    var darkClass: bool
    const storage: LocalStorage

    ghost predicate Valid()
      reads this
    {
      darkClass == isDark
    }

    /** `useToggleTheme`: `isDark` starts false and `initTheme` runs at once. */
    constructor (storage: LocalStorage, systemDark: bool)
      ensures Valid() && this.storage == storage
      ensures isDark == PrefersDark(GetItem(storage.items, ThemeKey), systemDark)
    {
      this.storage := storage;
      isDark := false;
      darkClass := false;
      new;
      InitTheme(systemDark);
    }

    method InitTheme(systemDark: bool)
      modifies this
      ensures Valid()
      ensures isDark == PrefersDark(GetItem(storage.items, ThemeKey), systemDark)
    {
      var saved := GetItem(storage.items, ThemeKey);
      if Truthy(saved) {
        isDark := saved == Some(Text("dark"));
      } else {
        isDark := systemDark;
      }
      darkClass := isDark;
    }

    /**
     * `toggleTheme`: with or without view transitions, `isDark` flips, the
     * class follows it and the new theme is saved; no other key changes.
     */
    method ToggleTheme(transitionsEnabled: bool)
      requires Valid()
      modifies this, storage
      ensures Valid()
      ensures isDark == !old(isDark)
      ensures storage.items == old(storage.items)[ThemeKey := Text(ThemeName(isDark))]
    {
      if !transitionsEnabled {
        isDark := !isDark;
        darkClass := isDark;
        storage.SetItem(ThemeKey, Text(if isDark then "dark" else "light"));
        return;
      }
      isDark := !isDark;
      darkClass := isDark;
      storage.SetItem(ThemeKey, Text(if isDark then "dark" else "light"));
    }
  }

  /** Two toggles bring `isDark` back, and the saved theme with it. */
  method ToggleTwice(t: ThemeToggle, transitionsEnabled: bool)
    requires t.Valid()
    modifies t, t.storage
    ensures t.Valid() && t.isDark == old(t.isDark)
    ensures ThemeKey in t.storage.items && t.storage.items[ThemeKey] == Text(ThemeName(old(t.isDark)))
  {
    t.ToggleTheme(transitionsEnabled);
    t.ToggleTheme(transitionsEnabled);
  }
}
