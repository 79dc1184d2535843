/** Theme preference and toggle (flowchart2/src/components/theme/theme-provider.tsx). Local storage is
    a map passed in and returned; the media query becomes a parameter; the DOM write is not modelled. */
module ThemeProvider {
  import opened Wrappers

  datatype Theme = Light | Dark

  const STORAGE_KEY := "flowchart-theme"
  const NO_PROVIDER_ERROR := "useTheme must be used within ThemeProvider"

  /** The string stored under STORAGE_KEY for a theme. */
  function ThemeName(t: Theme): string {
    match t
    case Light => "light"
    case Dark => "dark"
  }

  /** `getPreferredTheme`. `hasWindow` is false on the server; `stored` is the local-storage entry;
      `prefersDark` is the media-query match, absent when `matchMedia` is not available. */
  function PreferredTheme(hasWindow: bool, stored: Option<string>, prefersDark: Option<bool>): (t: Theme)
    ensures !hasWindow ==> t == Light
    ensures hasWindow && stored == Some("light") ==> t == Light
    ensures hasWindow && stored == Some("dark") ==> t == Dark
    ensures hasWindow && stored != Some("light") && stored != Some("dark") ==> (t == Dark <==> prefersDark == Some(true))
  {
    if !hasWindow then Light
    else if stored == Some("light") then Light
    else if stored == Some("dark") then Dark
    else if prefersDark == Some(true) then Dark
    else Light
  }

  /** Local storage as a key-value map. */
  type Storage = map<string, string>

  /** `localStorage.getItem(STORAGE_KEY)`: the stored string, or null when the key is absent. */
  function ReadStored(storage: Storage): (r: Option<string>)
    ensures r.None? <==> STORAGE_KEY !in storage
    ensures r.Some? ==> r.value == storage[STORAGE_KEY]
  {
    if STORAGE_KEY in storage then Some(storage[STORAGE_KEY]) else None
  }

  /** `localStorage.setItem(STORAGE_KEY, theme)` in the theme effect: only that key changes. */
  function Persisted(storage: Storage, t: Theme): (r: Storage)
    ensures STORAGE_KEY in r && r[STORAGE_KEY] == ThemeName(t)
    ensures forall k :: k in storage && k != STORAGE_KEY ==> k in r && r[k] == storage[k]
    ensures r.Keys == storage.Keys + {STORAGE_KEY}
  {
    storage[STORAGE_KEY := ThemeName(t)]
  }

  /** What the provider writes is read back on the next visit, whatever the dark preference. */
  lemma StoredThemeRoundTrip(storage: Storage, t: Theme, prefersDark: Option<bool>)
    ensures PreferredTheme(true, ReadStored(Persisted(storage, t)), prefersDark) == t
  {
  }

  /** The `toggleTheme` updater. */
  function Toggled(t: Theme): (r: Theme)
    ensures r != t
  {
    if t == Light then Dark else Light
  }

  lemma ToggleTwiceRestores(t: Theme)
    ensures Toggled(Toggled(t)) == t
  {
  }

  /** The context value a provider supplies (the toggle function is represented by the Provider class). */
  datatype ThemeContext = ThemeContext(theme: Theme)

  /** `useTheme`: throws outside a provider, otherwise returns the context. */
  function UseTheme(ctx: Option<ThemeContext>): (r: Result<ThemeContext, string>)
    ensures r.Failure? <==> ctx.None?
    ensures r.Failure? ==> r.error == NO_PROVIDER_ERROR
    ensures r.Success? ==> r.value == ctx.value
  {
    match ctx
    case None => Failure(NO_PROVIDER_ERROR)
    case Some(c) => Success(c)
  }

  class Provider {
    var theme: Theme

    /** Before the mount effect runs the theme is light. */
    constructor ()
      ensures theme == Light
    {
      theme := Light;
    }

    /** The mount effect `setTheme(getPreferredTheme())`. */
    method ApplyPreferred(hasWindow: bool, stored: Option<string>, prefersDark: Option<bool>)
      modifies this
      ensures theme == PreferredTheme(hasWindow, stored, prefersDark)
    {
      theme := PreferredTheme(hasWindow, stored, prefersDark);
    }

    method ToggleTheme()
      modifies this
      ensures theme == Toggled(old(theme))
      ensures theme != old(theme)
    {
      theme := Toggled(theme);
    }
  }
}
