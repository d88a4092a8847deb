/** The light/dark theme (`theme.service.ts`).  The saved preference in local
    storage, the operating system's colour-scheme preference and the
    `data-theme` attribute of the document element are plain values here. */
module Theme {
  import opened Js

  /** The name the service stores and writes for a theme. */
  function ThemeName(isDark: bool): (name: string)
    ensures name == "dark" <==> isDark
    ensures name == "light" <==> !isDark
  {
    if isDark then "dark" else "light"
  }

  /** The constructor's rule: dark when the saved value is 'dark', or when
      nothing (or an empty string) is saved and the system prefers dark. */
  function InitialDark(saved: Option<string>, prefersDark: bool): bool {
    saved == Some("dark") || (!Truthy(saved) && prefersDark)
  }

  /** A saved theme decides on its own: any non-empty value other than 'dark'
      means light, 'dark' means dark, whatever the system prefers. */
  lemma SavedThemeWins(saved: string, prefersDark: bool)
    requires saved != ""
    ensures InitialDark(Some(saved), prefersDark) <==> saved == "dark"
  {
  }

  /** With nothing saved the system preference decides. */
  lemma NothingSavedFollowsSystem(saved: Option<string>, prefersDark: bool)
    requires !Truthy(saved)
    ensures InitialDark(saved, prefersDark) == prefersDark
  {
  }

  class ThemeService {
    /** The value of `isDarkMode$`. */
    var isDark: bool
    /** `localStorage.getItem('theme')` */
    var storage: Option<string>
    /** The `data-theme` attribute of the document element. */
    var attribute: string

    /** The document shows the current theme. */
    ghost predicate Valid()
      reads this
    {
      attribute == ThemeName(isDark)
    }

    /** The constructor: the initial theme from what is saved and what the
        system prefers, applied to the document; storage is only read. */
    constructor(saved: Option<string>, prefersDark: bool)
      ensures Valid()
      ensures isDark == InitialDark(saved, prefersDark) && storage == saved
    {
      isDark := InitialDark(saved, prefersDark);
      storage := saved;
      attribute := "";
      new;
      ApplyTheme();
    }

    /** `applyTheme` */
    method ApplyTheme()
      modifies this
      ensures Valid()
      ensures isDark == old(isDark) && storage == old(storage)
    {
      attribute := ThemeName(isDark);
    }

    /** `toggleTheme`: the other theme, saved and applied. */
    method ToggleTheme()
      modifies this
      ensures Valid()
      ensures isDark == !old(isDark)
      ensures storage == Some(ThemeName(isDark))
    {
      isDark := !isDark;
      storage := Some(ThemeName(isDark));
      ApplyTheme();
    }
  }

  /** Toggling twice gives back the theme and the attribute, and the stored
      value too once it is the one for the current theme. */
  method ToggleTwice(s: ThemeService)
    requires s.Valid()
    modifies s
    ensures s.Valid()
    ensures s.isDark == old(s.isDark) && s.attribute == old(s.attribute)
    ensures s.storage == Some(ThemeName(s.isDark))
    ensures old(s.storage) == Some(ThemeName(old(s.isDark))) ==> s.storage == old(s.storage)
  {
    s.ToggleTheme();
    s.ToggleTheme();
  }
}
