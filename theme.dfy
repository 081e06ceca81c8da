/**
 * The colour theme shared by the whole application: the current theme, the
 * "dark" class on the document's root element, and the value saved under the
 * key "theme" in the browser's local storage.
 */
module Theme {
  import opened Wrappers

  const Light := "light"
  const Dark := "dark"

  /** The theme a toggle switches to: "dark" from "light", "light" from anything else. */
  function Toggled(theme: string): (r: string)
    ensures r == Dark <==> theme == Light
    ensures r == Light || r == Dark
  {
    if theme == Light then Dark else Light
  }

  /** Toggling twice from one of the two themes gives it back. */
  lemma ToggleTwice(theme: string)
    requires theme == Light || theme == Dark
    ensures Toggled(Toggled(theme)) == theme
  {
  }

  /** Any value other than "light", including one read back from storage, toggles to "light". */
  lemma ToggleOther(theme: string)
    requires theme != Light
    ensures Toggled(theme) == Light
    ensures Toggled(Toggled(theme)) == Dark
  {
  }

  /** The theme after `n` toggles. */
  function ToggledTimes(theme: string, n: nat): string {
    if n == 0 then theme else Toggled(ToggledTimes(theme, n - 1))
  }

  /** From either theme, an even number of toggles restores it and an odd number switches it. */
  lemma {:induction false} ToggledTimesParity(theme: string, n: nat)
    requires theme == Light || theme == Dark
    ensures ToggledTimes(theme, n) == if n % 2 == 0 then theme else Toggled(theme)
  {
    if n > 0 {
      ToggledTimesParity(theme, n - 1);
      ToggleTwice(theme);
    }
  }

  /** The operating system's preference, as `prefers-color-scheme` reports it. */
  function SystemTheme(prefersDark: bool): (r: string)
    ensures r == Dark <==> prefersDark
    ensures r == Light || r == Dark
  {
    if prefersDark then Dark else Light
  }

  /**
   * The theme chosen when the provider mounts: `saved || system`. A saved
   * value wins whenever it is present and non-empty, whatever string it is;
   * otherwise the system preference decides.
   */
  function InitialTheme(saved: Option<string>, prefersDark: bool): (r: string)
    ensures saved.Some? && saved.value != "" ==> r == saved.value
    ensures saved.None? || saved.value == "" ==> r == SystemTheme(prefersDark)
  {
    if saved.Some? && saved.value != "" then saved.value else SystemTheme(prefersDark)
  }

  /** The result is always one of the two themes unless an unexpected value was saved. */
  lemma InitialThemeRange(saved: Option<string>, prefersDark: bool)
    requires saved.None? || saved.value in {"", Light, Dark}
    ensures InitialTheme(saved, prefersDark) == Light || InitialTheme(saved, prefersDark) == Dark
  {
  }

  /** The theme provider and the two pieces of browser state it writes. */
  class ThemeProvider {
    /** The theme the provider hands to its consumers. */
    var theme: string
    /** Whether the document's root element carries the class "dark". */
    var darkClass: bool
    /** The value stored under the key "theme", if any. */
    var stored: Option<string>

    /** The document flag agrees with the theme. */
    predicate Applied()
      reads this
    {
      darkClass == (theme == Dark)
    }

    /** The theme, the document flag and the stored value all agree. */
    predicate Consistent()
      reads this
    {
      Applied() && stored == Some(theme)
    }

    /**
     * Before the mount effect runs the provider holds "light", the same value
     * as the context's default; the browser state is whatever it was.
     */
    constructor (stored: Option<string>, darkClass: bool)
      ensures theme == Light
      ensures this.stored == stored && this.darkClass == darkClass
    {
      theme := Light;
      this.stored := stored;
      this.darkClass := darkClass;
    }

    /** The mount effect: choose the initial theme and apply it to the document. */
    method Mount(prefersDark: bool)
      modifies this
      ensures theme == InitialTheme(old(stored), prefersDark)
      ensures Applied()
      ensures stored == old(stored)
    {
      var saved := stored;
      var system := if prefersDark then Dark else Light;
      var initial := if saved.Some? && saved.value != "" then saved.value else system;
      theme := initial;
      darkClass := initial == Dark;
    }

    /** Switch theme: apply the new one to the document, save it, then publish it. */
    method ToggleTheme()
      modifies this
      ensures theme == Toggled(old(theme))
      ensures Consistent()
    {
      var newTheme := if theme == Light then Dark else Light;
      darkClass := newTheme == Dark;
      stored := Some(newTheme);
      theme := newTheme;
    }
  }

  /**
   * An unrecognised saved value is taken as it is: the document is not
   * marked dark, and the first toggle moves to "light".
   */
  method UnvalidatedSavedTheme(prefersDark: bool) returns (mounted: string, dark: bool, toggled: string)
    ensures mounted == "blue" && !dark
    ensures toggled == Light
  {
    var p := new ThemeProvider(Some("blue"), true);
    p.Mount(prefersDark);
    mounted, dark := p.theme, p.darkClass;
    p.ToggleTheme();
    assert p.stored == Some(Light) && !p.darkClass;
    toggled := p.theme;
  }
}
