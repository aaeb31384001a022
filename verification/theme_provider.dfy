/** The theme provider: the light and dark themes, the initial dark-mode
    flag read from storage and the OS preference, the token written back to
    storage whenever the flag changes, and the toggle. */
module ThemeProvider {
  import opened StorageService

  // ------------------------------------------------------------ the themes

  datatype Colors = Colors(
    background: string, card: string, primary: string, secondary: string,
    text: string, textSecondary: string, border: string, accent: string,
    accentGradient: string, timerBackground: string, timerBorder: string,
    buttonPrimary: string, buttonSecondary: string, buttonText: string,
    lockIconActive: string, lockIconInactive: string, inputBackground: string,
    success: string, warning: string, error: string)

  datatype Shadows = Shadows(small: string, medium: string, large: string)

  datatype Radii = Radii(small: string, medium: string, large: string, round: string)

  datatype FontSizes = FontSizes(
    xs: string, sm: string, md: string, lg: string, xl: string,
    xxl: string, xxxl: string, timer: string)

  datatype Transitions = Transitions(fast: string, normal: string, slow: string)

  datatype Spacing = Spacing(xs: string, sm: string, md: string, lg: string, xl: string, xxl: string)

  datatype Theme = Theme(
    colors: Colors, shadows: Shadows, borderRadius: Radii,
    fontSizes: FontSizes, transitions: Transitions, spacing: Spacing)

  /** The layout both themes use. */
  const SharedRadii := Radii("4px", "8px", "16px", "50%")
  const SharedFontSizes := FontSizes("0.75rem", "0.875rem", "1rem", "1.125rem", "1.25rem", "1.5rem", "2rem", "2.5rem")
  const SharedTransitions := Transitions("0.15s ease", "0.25s ease", "0.4s ease")
  const SharedSpacing := Spacing("0.2rem", "0.45rem", "0.9rem", "1.35rem", "1.8rem", "2.7rem")

  const AccentGradient := "linear-gradient(135deg, #6c63ff 0%, #5ee7df 100%)"

  /** `lightTheme`. */
  const LightTheme := Theme(
    Colors(
      background := "#f8f9fa", card := "#ffffff", primary := "#6c63ff", secondary := "#7c69ef",
      text := "#212529", textSecondary := "#495057", border := "#dee2e6", accent := "#5ee7df",
      accentGradient := AccentGradient, timerBackground := "#ffffff", timerBorder := "#6c63ff",
      buttonPrimary := "#6c63ff", buttonSecondary := "#5ee7df", buttonText := "#ffffff",
      lockIconActive := "#6c63ff", lockIconInactive := "#adb5bd", inputBackground := "#ffffff",
      success := "#4BB543", warning := "#ffab00", error := "#ff5252"),
    Shadows("0 2px 5px rgba(0, 0, 0, 0.1)", "0 4px 12px rgba(0, 0, 0, 0.1)", "0 8px 20px rgba(0, 0, 0, 0.12)"),
    Radii("4px", "8px", "16px", "50%"),
    FontSizes("0.75rem", "0.875rem", "1rem", "1.125rem", "1.25rem", "1.5rem", "2rem", "2.5rem"),
    Transitions("0.15s ease", "0.25s ease", "0.4s ease"),
    Spacing("0.2rem", "0.45rem", "0.9rem", "1.35rem", "1.8rem", "2.7rem"))

  /** `darkTheme`. */
  const DarkTheme := Theme(
    Colors(
      background := "#121212", card := "#1e1e1e", primary := "#6c63ff", secondary := "#7c69ef",
      text := "#f8f9fa", textSecondary := "#dee2e6", border := "#343a40", accent := "#5ee7df",
      accentGradient := AccentGradient, timerBackground := "#1e1e1e", timerBorder := "#6c63ff",
      buttonPrimary := "#6c63ff", buttonSecondary := "#5ee7df", buttonText := "#ffffff",
      lockIconActive := "#6c63ff", lockIconInactive := "#6c757d", inputBackground := "#2a2a2a",
      success := "#4BB543", warning := "#ffab00", error := "#ff5252"),
    Shadows("0 2px 5px rgba(0, 0, 0, 0.2)", "0 4px 12px rgba(0, 0, 0, 0.25)", "0 8px 20px rgba(0, 0, 0, 0.3)"),
    Radii("4px", "8px", "16px", "50%"),
    FontSizes("0.75rem", "0.875rem", "1rem", "1.125rem", "1.25rem", "1.5rem", "2rem", "2.5rem"),
    Transitions("0.15s ease", "0.25s ease", "0.4s ease"),
    Spacing("0.2rem", "0.45rem", "0.9rem", "1.35rem", "1.8rem", "2.7rem"))

  /** The two themes share their layout: the same radii, font sizes,
      transitions and spacing, and the same brand colours; they differ in
      the background, text and shadows, and in nothing else. */
  lemma ThemesShareLayout()
    ensures LightTheme.borderRadius == DarkTheme.borderRadius == SharedRadii
    ensures LightTheme.fontSizes == DarkTheme.fontSizes == SharedFontSizes
    ensures LightTheme.transitions == DarkTheme.transitions == SharedTransitions
    ensures LightTheme.spacing == DarkTheme.spacing == SharedSpacing
    ensures LightTheme.colors.primary == DarkTheme.colors.primary
    ensures LightTheme.colors.accentGradient == DarkTheme.colors.accentGradient
    ensures LightTheme.colors.background != DarkTheme.colors.background
    ensures LightTheme.shadows != DarkTheme.shadows
    ensures LightTheme.(colors := DarkTheme.colors, shadows := DarkTheme.shadows) == DarkTheme
  {
    assert LightTheme.colors.background[1] != DarkTheme.colors.background[1];
    assert LightTheme.shadows.small[26] != DarkTheme.shadows.small[26];
  }

  /** `isDarkMode ? darkTheme : lightTheme`. */
  function SelectedTheme(isDarkMode: bool): (t: Theme)
    ensures t == DarkTheme <==> isDarkMode
    ensures t == LightTheme <==> !isDarkMode
  {
    ThemesShareLayout();
    if isDarkMode then DarkTheme else LightTheme
  }

  // --------------------------------------------------------- the dark flag

  /** The `useState` initializer: dark when the stored theme (default
      'dark') is 'dark', or when the OS prefers a dark scheme. */
  function InitialDarkMode(json: ListCodec, items: map<string, string>, readable: bool,
                           prefersDark: bool): bool
  {
    Retrieve(json, items, readable, ThemeKey, Text("dark")).text == "dark" || prefersDark
  }

  /** The initial mode is dark exactly when nothing readable is stored, the
      stored token is 'dark', or the OS prefers dark; so a stored 'light'
      gives light only when the OS does not prefer dark. */
  lemma InitialModeCases(json: ListCodec, items: map<string, string>, readable: bool, prefersDark: bool)
    ensures InitialDarkMode(json, items, readable, prefersDark) <==>
      !readable || ThemeKey !in items || items[ThemeKey] == "dark" || prefersDark
    ensures !readable || ThemeKey !in items ==> InitialDarkMode(json, items, readable, prefersDark)
    ensures readable && ThemeKey in items && items[ThemeKey] == "light" ==>
      (InitialDarkMode(json, items, readable, prefersDark) <==> prefersDark)
  {
  }

  /** The token the effect persists: 'dark' or 'light'. */
  function ThemeToken(isDarkMode: bool): (token: string)
    ensures token == "dark" <==> isDarkMode
    ensures token == "light" <==> !isDarkMode
  {
    if isDarkMode then "dark" else "light"
  }

  /** The persisted token is read back as the mode it was written for, on
      a machine whose OS does not prefer dark; where it does, every load is
      dark. */
  lemma TokenReadsBack(json: ListCodec, items: map<string, string>, accepts: Quota,
                        isDarkMode: bool, prefersDark: bool)
    requires accepts(items, ThemeKey, ThemeToken(isDarkMode))
    ensures var after := Store(json, items, accepts, ThemeKey, Text(ThemeToken(isDarkMode)));
      InitialDarkMode(json, after, true, prefersDark) == (isDarkMode || prefersDark)
  {
  }

  /** `toggleTheme()` flips the flag; twice restores it. */
  function Toggled(isDarkMode: bool): (b: bool)
    ensures b != isDarkMode
    ensures ThemeToken(b) != ThemeToken(isDarkMode)
  {
    !isDarkMode
  }

  // ------------------------------------------------------- the component

  /** The provider: the flag and the store the effect writes to. */
  class ThemeState {
    var isDarkMode: bool
    const storage: LocalStorage

    /** The supplied theme. */
    function CurrentTheme(): Theme
      reads this
    {
      SelectedTheme(isDarkMode)
    }

    /** Mounting: the initializer, then the effect's first run, which
        stores the token. */
    constructor (storage: LocalStorage, prefersDark: bool)
      modifies storage`items
      ensures this.storage == storage
      ensures isDarkMode == InitialDarkMode(storage.json, old(storage.items), storage.readable, prefersDark)
      ensures storage.items == Store(storage.json, old(storage.items), storage.accepts, ThemeKey, Text(ThemeToken(isDarkMode)))
    {
      var stored := storage.GetFromStorage(ThemeKey, Text("dark"));
      var dark := stored.text == "dark" || prefersDark;
      this.storage := storage;
      isDarkMode := dark;
      new;
      storage.SaveToStorage(ThemeKey, Text(if dark then "dark" else "light"));
    }

    /** `toggleTheme()`, then the effect on `isDarkMode`. */
    method ToggleTheme()
      modifies this`isDarkMode, storage`items
      ensures isDarkMode == Toggled(old(isDarkMode))
      ensures storage.items == Store(storage.json, old(storage.items), storage.accepts, ThemeKey, Text(ThemeToken(isDarkMode)))
    {
      isDarkMode := !isDarkMode;
      storage.SaveToStorage(ThemeKey, Text(if isDarkMode then "dark" else "light"));
    }
  }
}
