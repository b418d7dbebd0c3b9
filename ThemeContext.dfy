/** The ThemeProvider of client/src/contexts/ThemeContext.tsx as an explicitly
    constructed object. Its fields are the provider's React state, the browser's
    localStorage, the listeners it keeps on the "(prefers-color-scheme: dark)"
    media query and the document's data-theme attribute. The OS signal is a
    parameter of the operations that read it. Every operation first updates the
    state and storage, then runs the effects React would run for the changed
    dependencies, and is proved to land in the state ThemeState specifies. */
module ThemeContext {
  import opened Options
  import opened ThemeState

  class ThemeProvider {
    var theme: Theme
    var userPreference: bool
    var storage: map<string, string>
    var osListeners: nat
    var dataTheme: Option<string>

    function State(): ThemeState
      reads this
    {
      ThemeState(theme, userPreference, storage, osListeners, dataTheme)
    }

    ghost predicate Valid()
      reads this
    {
      Consistent(State())
    }

    /** Mount: the two useState initialisers read storage and the OS signal,
        then both effects run once. */
    constructor (initialStorage: map<string, string>, prefersDark: bool)
      ensures Valid()
      ensures State() == Initial(initialStorage, prefersDark)
    {
      theme := InitialTheme(initialStorage, prefersDark);
      userPreference := Stored(initialStorage) != None;
      storage := initialStorage;
      osListeners := 0;
      dataTheme := None;
      new;
      if !userPreference {
        osListeners := osListeners + 1;
      }
      dataTheme := Some(Name(theme));
    }

    /** The effects after a re-render that started from prevTheme and
        prevPreference. The listener effect depends on userPreference: when it
        changed, the previous run's cleanup removes the listener that run added
        (it added one only when there was no override), and the new run adds a
        listener only when there is no override. The data-theme effect depends
        on theme. */
    method CommitEffects(prevTheme: Theme, prevPreference: bool)
      requires osListeners == (if prevPreference then 0 else 1)
      requires dataTheme == Some(Name(prevTheme))
      modifies this
      ensures osListeners == (if userPreference then 0 else 1)
      ensures dataTheme == Some(Name(theme))
      ensures theme == old(theme) && userPreference == old(userPreference) && storage == old(storage)
    {
      if userPreference != prevPreference {
        if !prevPreference {
          osListeners := osListeners - 1;
        }
        if !userPreference {
          osListeners := osListeners + 1;
        }
      }
      if theme != prevTheme {
        dataTheme := Some(Name(theme));
      }
    }

    method ToggleTheme()
      requires Valid()
      modifies this
      ensures Valid()
      ensures State() == Toggle(old(State()))
    {
      var prevTheme, prevPreference := theme, userPreference;
      var newTheme := if theme == Light then Dark else Light;
      theme := newTheme;
      userPreference := true;
      storage := storage[ThemeKey := Name(newTheme)];
      CommitEffects(prevTheme, prevPreference);
    }

    method SetThemeMode(mode: Theme)
      requires Valid()
      modifies this
      ensures Valid()
      ensures State() == SetMode(old(State()), mode)
    {
      var prevTheme, prevPreference := theme, userPreference;
      theme := mode;
      userPreference := true;
      storage := storage[ThemeKey := Name(mode)];
      CommitEffects(prevTheme, prevPreference);
    }

    /** prefersDarkNow is the media query's answer at the moment of the call. */
    method ClearThemePreference(prefersDarkNow: bool)
      requires Valid()
      modifies this
      ensures Valid()
      ensures State() == Clear(old(State()), prefersDarkNow)
    {
      var prevTheme, prevPreference := theme, userPreference;
      storage := storage - {ThemeKey};
      userPreference := false;
      theme := if prefersDarkNow then Dark else Light;
      CommitEffects(prevTheme, prevPreference);
    }

    /** A "change" event on the media query: each registered handler sets the
        theme from the event. */
    method OnOsChange(prefersDark: bool)
      requires Valid()
      modifies this
      ensures Valid()
      ensures State() == SystemChange(old(State()), prefersDark)
    {
      var prevTheme, prevPreference := theme, userPreference;
      if osListeners > 0 {
        theme := if prefersDark then Dark else Light;
      }
      CommitEffects(prevTheme, prevPreference);
    }
  }
}
