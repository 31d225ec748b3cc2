/** frontend/src/hooks/useTheme.js: the colour theme, its first value, the two ways of changing
    it, and the effect that applies it to the root element and saves it. The browser's saved
    value and colour-scheme preference are parameters; the root element's class list and the
    local storage are state. */
module UseTheme {
  import opened Common

  const Light := "light"
  const Dark := "dark"
  const ThemeKey := "theme"

  /** The first theme: the saved one when it is a non-empty string, otherwise "dark" exactly
      when the system prefers dark; without a window, "light". */
  function InitialTheme(hasWindow: bool, saved: Option<string>, prefersDark: bool): (theme: string)
    ensures !hasWindow ==> theme == Light
    ensures hasWindow && saved.Some? && saved.value != "" ==> theme == saved.value
    ensures hasWindow && !(saved.Some? && saved.value != "") ==> (theme == Dark <==> prefersDark)
    ensures hasWindow && !(saved.Some? && saved.value != "") ==> (theme == Light <==> !prefersDark)
  {
    if !hasWindow then Light
    else if saved.Some? && saved.value != "" then saved.value
    else if prefersDark then Dark
    else Light
  }

  /** `toggleTheme`'s update: "light" becomes "dark" and every other value "light". */
  function Toggled(theme: string): (r: string)
    ensures r == Dark <==> theme == Light
    ensures r == Light <==> theme != Light
  {
    if theme == Light then Dark else Light
  }

  /** Toggling twice gives back "light" or "dark"; any other saved value ends as "dark". */
  lemma ToggleTwice(theme: string)
    ensures theme == Light || theme == Dark ==> Toggled(Toggled(theme)) == theme
    ensures theme != Light && theme != Dark ==> Toggled(Toggled(theme)) == Dark
  {
  }

  /** The root element's classes after the effect: "light" and "dark" removed, then the theme
      added. */
  function AppliedClasses(classes: set<string>, theme: string): (r: set<string>)
    ensures theme in r
    ensures forall c :: c in r && c != theme ==> c in classes && c != Light && c != Dark
    ensures forall c :: c in classes && c != Light && c != Dark ==> c in r
  {
    classes - {Light, Dark} + {theme}
  }

  /** The hook's state: the theme cell, the root element's classes and the local storage. */
  class ThemeState {
    var theme: string
    var classList: set<string>
    var storage: map<string, string>

    /** The first render, before the effect runs. */
    constructor(hasWindow: bool, storage: map<string, string>, prefersDark: bool, classList: set<string>)
      ensures theme == InitialTheme(hasWindow, if ThemeKey in storage then Some(storage[ThemeKey]) else None, prefersDark)
      ensures this.storage == storage && this.classList == classList
    {
      theme := InitialTheme(hasWindow, if ThemeKey in storage then Some(storage[ThemeKey]) else None, prefersDark);
      this.storage := storage;
      this.classList := classList;
    }

    /** The effect that runs after each change of the theme, when there is a document: the root
        element shows this theme and not the other one, and the theme is saved. */
    method Apply(hasDocument: bool)
      modifies this`classList, this`storage
      ensures hasDocument ==> classList == AppliedClasses(old(classList), theme) && storage == old(storage)[ThemeKey := theme]
      ensures hasDocument && theme == Light ==> Light in classList && Dark !in classList
      ensures hasDocument && theme == Dark ==> Dark in classList && Light !in classList
      ensures !hasDocument ==> classList == old(classList) && storage == old(storage)
    {
      if hasDocument {
        classList := classList - {Light, Dark};
        classList := classList + {theme};
        storage := storage[ThemeKey := theme];
      }
    }

    /** `toggleTheme`, followed by the effect. */
    method ToggleTheme(hasDocument: bool)
      modifies this
      ensures theme == Toggled(old(theme))
      ensures hasDocument ==> classList == AppliedClasses(old(classList), theme) && storage == old(storage)[ThemeKey := theme]
      ensures !hasDocument ==> classList == old(classList) && storage == old(storage)
    {
      theme := Toggled(theme);
      Apply(hasDocument);
    }

    /** `setTheme`: exactly the given value, followed by the effect. */
    method SetTheme(newTheme: string, hasDocument: bool)
      modifies this
      ensures theme == newTheme
      ensures hasDocument ==> classList == AppliedClasses(old(classList), theme) && storage == old(storage)[ThemeKey := theme]
      ensures !hasDocument ==> classList == old(classList) && storage == old(storage)
    {
      theme := newTheme;
      Apply(hasDocument);
    }
  }

  /** A theme the effect saved is the theme of the next visit: with a window, the saved value is
      chosen over the system preference, unless it is empty. */
  lemma SavedThemeRestored(storage: map<string, string>, theme: string, prefersDark: bool)
    requires theme != ""
    ensures InitialTheme(true, Some(storage[ThemeKey := theme][ThemeKey]), prefersDark) == theme
  {
  }
}
