// The theme switch of the page header (src/components/layout/header.tsx):
// `toggleTheme` writes the theme store and a local `isDarkMode` flag that is
// initialised once from the theme.

module Header {
  import opened Common

  /** The theme `toggleTheme` chooses: 'light' after 'dark', 'dark' after anything else, unset and 'system' included. */
  function NextTheme(theme: Option<string>): (r: string)
    ensures r == "light" <==> theme == Some("dark")
    ensures r == "dark" <==> theme != Some("dark")
  {
    if theme == Some("dark") then "light" else "dark"
  }

  /** Two toggles lead back to the start only from 'dark' or 'light'; from anything else they end at 'light'. */
  lemma ToggleTwice(theme: Option<string>)
    ensures Some(NextTheme(Some(NextTheme(theme)))) == theme <==> theme == Some("dark") || theme == Some("light")
    ensures theme != Some("dark") ==> NextTheme(Some(NextTheme(theme))) == "light"
  {
  }

  /** After one toggle the theme is 'dark' or 'light', and from then on toggles alternate. */
  lemma {:induction false} TogglesAlternate(theme: Option<string>, n: nat)
    ensures n >= 1 ==> NextThemeN(theme, n) == Some("dark") || NextThemeN(theme, n) == Some("light")
    ensures n >= 1 ==> NextThemeN(theme, n + 2) == NextThemeN(theme, n)
    decreases n
  {
    if n >= 2 {
      TogglesAlternate(theme, n - 1);
    }
  }

  /** The theme after `n` toggles. */
  function NextThemeN(theme: Option<string>, n: nat): Option<string>
    decreases n
  {
    if n == 0 then theme else Some(NextTheme(NextThemeN(theme, n - 1)))
  }

  class ThemeHeader {
    /** The theme store's current value (`useTheme().theme`). */
    var theme: Option<string>
    var isDarkMode: bool

    /** The flag agrees with the theme. */
    predicate InSync()
      reads this
    {
      isDarkMode == (theme == Some("dark"))
    }

    /** The first render: the flag starts as `theme === 'dark'`. */
    constructor (theme: Option<string>)
      ensures this.theme == theme
      ensures isDarkMode == (theme == Some("dark"))
      ensures InSync()
    {
      this.theme := theme;
      isDarkMode := theme == Some("dark");
    }

    /** `toggleTheme`: store the next theme and set the flag from it. */
    method ToggleTheme()
      modifies this
      ensures theme == Some(NextTheme(old(theme)))
      ensures isDarkMode == (theme == Some("dark"))
      ensures isDarkMode <==> old(theme) != Some("dark")
      ensures InSync()
    {
      var newTheme := NextTheme(theme);
      theme := Some(newTheme);
      isDarkMode := newTheme == "dark";
    }

    /** A theme change made anywhere but here: the flag is not updated. */
    method ThemeChangedElsewhere(newTheme: Option<string>)
      modifies this
      ensures theme == newTheme
      ensures isDarkMode == old(isDarkMode)
    {
      theme := newTheme;
    }
  }
}
