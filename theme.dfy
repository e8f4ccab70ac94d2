/** The dark/light display preference: how a requested value is applied and
    persisted, how the start-up theme is chosen, and the toggle. */
module Theme {
  import opened Wrappers

  /** Whether the document root carries the `dark` class. */
  datatype Theme = Light | Dark

  /** The literal persisted under the theme key for a theme. */
  function ThemeName(t: Theme): (name: string)
    ensures name == "dark" <==> t == Dark
    ensures name == "light" <==> t == Light
  {
    match t
    case Dark => "dark"
    case Light => "light"
  }

  /** The theme `setTheme(value)` applies: only the exact string "dark" gives
      the dark theme, every other value the light one. */
  function Applied(value: string): (t: Theme)
    ensures t == Dark <==> value == "dark"
  {
    if value == "dark" then Dark else Light
  }

  /** The value `setTheme(value)` persists: "dark" for exactly "dark",
      "light" for anything else, whatever was asked for. */
  lemma PersistedValue(value: string)
    ensures ThemeName(Applied(value)) == "dark" <==> value == "dark"
    ensures ThemeName(Applied(value)) == "light" <==> value != "dark"
    ensures ThemeName(Applied(value)) in {"dark", "light"}
  {
  }

  /** Re-applying a persisted theme gives that theme back. */
  lemma NameRoundTrip(t: Theme)
    ensures Applied(ThemeName(t)) == t
  {
  }

  /** The value handed to `setTheme` at start-up: a non-empty stored value,
      else "dark" when the system asks for a dark scheme, else "light". */
  function InitialChoice(stored: Option<string>, prefersDark: bool): string {
    if stored.Some? && stored.value != "" then stored.value
    else if prefersDark then "dark"
    else "light"
  }

  /** The theme in effect after start-up, in the order stored value, system
      signal, light. */
  function InitialTheme(stored: Option<string>, prefersDark: bool): (t: Theme)
    ensures stored.Some? && stored.value != "" ==> (t == Dark <==> stored.value == "dark")
    ensures (stored.None? || stored.value == "") ==> (t == Dark <==> prefersDark)
  {
    Applied(InitialChoice(stored, prefersDark))
  }

  /** A persisted theme wins over the system signal on the next start-up. */
  lemma ReloadKeepsTheme(t: Theme, prefersDark: bool)
    ensures InitialTheme(Some(ThemeName(t)), prefersDark) == t
  {
  }

  /** The theme the toggle asks for: the other one. */
  function Flipped(t: Theme): (r: Theme)
    ensures r != t
  {
    if t == Dark then Light else Dark
  }

  /** Toggling twice returns to the original theme. */
  lemma FlipTwice(t: Theme)
    ensures Flipped(Flipped(t)) == t
  {
  }

  /** Which of the two toggle icons are hidden: the moon in the dark theme,
      the sun in the light one. */
  datatype Icons = Icons(moonHidden: bool, sunHidden: bool)

  function IconsFor(t: Theme): (icons: Icons)
    ensures icons.moonHidden <==> t == Dark
    ensures icons.sunHidden <==> t == Light
    ensures icons.moonHidden != icons.sunHidden
  {
    Icons(t == Dark, t == Light)
  }
}
