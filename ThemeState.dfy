/** The theme preference engine of the client (client/src/contexts/ThemeContext.tsx)
    as a pure state machine: the state a ThemeProvider settles in after each
    operation and the React effects it triggers. The class in ThemeContext.dfy
    performs the same operations step by step and is proved to reach these states. */
module ThemeState {
  import opened Options

  datatype Theme = Light | Dark

  /** The localStorage key that holds the user's explicit choice. */
  const ThemeKey: string := "theme"

  /** The string a theme is stored and applied as. */
  function Name(t: Theme): string
  {
    match t
    case Light => "light"
    case Dark => "dark"
  }

  /** Accepts exactly the two theme names; any other stored string is ignored. */
  function ParseTheme(s: string): (r: Option<Theme>)
    ensures r.Some? ==> s == Name(r.value)
    ensures r.None? ==> forall t :: s != Name(t)
  {
    if s == "light" then Some(Light)
    else if s == "dark" then Some(Dark)
    else None
  }

  /** The theme that matches the OS "prefers dark" signal. */
  function SystemTheme(prefersDark: bool): (t: Theme)
    ensures t == Dark <==> prefersDark
  {
    if prefersDark then Dark else Light
  }

  function Opposite(t: Theme): (r: Theme)
    ensures r != t
  {
    if t == Light then Dark else Light
  }

  /** localStorage.getItem('theme'). */
  function Stored(storage: map<string, string>): (r: Option<string>)
    ensures r.Some? <==> ThemeKey in storage
    ensures r.Some? ==> storage[ThemeKey] == r.value
  {
    if ThemeKey in storage then Some(storage[ThemeKey]) else None
  }

  /** Cold-start resolution: a stored theme name wins, then the OS signal,
      and light is the default when the OS does not prefer dark. */
  function InitialTheme(storage: map<string, string>, prefersDark: bool): (t: Theme)
    ensures (exists u :: Stored(storage) == Some(Name(u))) ==> Stored(storage) == Some(Name(t))
    ensures (forall u :: Stored(storage) != Some(Name(u))) ==> (t == Dark <==> prefersDark)
  {
    var saved := Stored(storage);
    if saved.Some? && ParseTheme(saved.value).Some? then ParseTheme(saved.value).value
    else SystemTheme(prefersDark)
  }

  /** Everything a ThemeProvider holds or affects: its two pieces of React
      state, the browser's localStorage, the number of change listeners it has
      on the "(prefers-color-scheme: dark)" media query, and the document's
      data-theme attribute. */
  datatype ThemeState = ThemeState(
    theme: Theme,
    userPreference: bool,
    storage: map<string, string>,
    osListeners: nat,
    dataTheme: Option<string>)

  /** What holds after every operation once the effects have run: the override
      flag tracks the presence of the key, a valid stored name is the theme in
      force, exactly one OS listener is registered while there is no override and
      none while there is, and data-theme mirrors the theme. */
  predicate Consistent(s: ThemeState)
  {
    && (s.userPreference <==> ThemeKey in s.storage)
    && (ThemeKey in s.storage && ParseTheme(s.storage[ThemeKey]).Some? ==> s.storage[ThemeKey] == Name(s.theme))
    && s.osListeners == (if s.userPreference then 0 else 1)
    && s.dataTheme == Some(Name(s.theme))
  }

  /** The state after mounting a ThemeProvider over the given storage while the
      OS reports prefersDark. */
  function Initial(storage: map<string, string>, prefersDark: bool): (r: ThemeState)
    ensures Consistent(r)
    ensures r.storage == storage
    ensures r.userPreference <==> ThemeKey in storage
    ensures r.theme == InitialTheme(storage, prefersDark)
    ensures r.osListeners == 0 <==> ThemeKey in storage
  {
    var t := InitialTheme(storage, prefersDark);
    var pref := ThemeKey in storage;
    ThemeState(t, pref, storage, if pref then 0 else 1, Some(Name(t)))
  }

  /** toggleTheme: flip the theme and persist it as an override. */
  function Toggle(s: ThemeState): (r: ThemeState)
    ensures Consistent(r)
    ensures r.theme != s.theme
    ensures r.userPreference && r.osListeners == 0
    ensures Stored(r.storage) == Some(Name(r.theme))
    ensures r.storage - {ThemeKey} == s.storage - {ThemeKey}
  {
    var t := Opposite(s.theme);
    ThemeState(t, true, s.storage[ThemeKey := Name(t)], 0, Some(Name(t)))
  }

  /** setThemeMode(mode): apply and persist the given theme as an override. */
  function SetMode(s: ThemeState, mode: Theme): (r: ThemeState)
    ensures Consistent(r)
    ensures r.theme == mode
    ensures r.userPreference && r.osListeners == 0
    ensures Stored(r.storage) == Some(Name(mode))
    ensures r.storage - {ThemeKey} == s.storage - {ThemeKey}
  {
    ThemeState(mode, true, s.storage[ThemeKey := Name(mode)], 0, Some(Name(mode)))
  }

  /** clearThemePreference: forget the override and take the OS signal as read
      at the moment of the call; the listener is registered again. */
  function Clear(s: ThemeState, prefersDark: bool): (r: ThemeState)
    ensures Consistent(r)
    ensures r.theme == Dark <==> prefersDark
    ensures !r.userPreference && r.osListeners == 1
    ensures Stored(r.storage) == None
    ensures r.storage == s.storage - {ThemeKey}
  {
    var t := SystemTheme(prefersDark);
    ThemeState(t, false, s.storage - {ThemeKey}, 1, Some(Name(t)))
  }

  /** An OS appearance change: the registered listener, if any, sets the theme
      from the event; without a listener nothing happens. */
  function SystemChange(s: ThemeState, prefersDark: bool): (r: ThemeState)
    ensures Consistent(s) ==> Consistent(r)
    ensures Consistent(s) && s.userPreference ==> r == s
    ensures Consistent(s) && !s.userPreference ==>
      r == s.(theme := r.theme, dataTheme := r.dataTheme) && (r.theme == Dark <==> prefersDark)
  {
    if s.osListeners > 0 then
      var t := SystemTheme(prefersDark);
      s.(theme := t, dataTheme := Some(Name(t)))
    else s
  }

  /** The operations a ThemeProvider can go through after mounting. */
  datatype Action =
    | ToggleTheme
    | SetThemeMode(mode: Theme)
    | ClearThemePreference(prefersDarkNow: bool)
    | OsChange(prefersDark: bool)

  function Step(s: ThemeState, a: Action): ThemeState
  {
    match a
    case ToggleTheme => Toggle(s)
    case SetThemeMode(m) => SetMode(s, m)
    case ClearThemePreference(d) => Clear(s, d)
    case OsChange(d) => SystemChange(s, d)
  }

  function Run(s: ThemeState, acts: seq<Action>): ThemeState
    decreases |acts|
  {
    if acts == [] then s else Run(Step(s, acts[0]), acts[1..])
  }

  predicate OnlyOsChanges(acts: seq<Action>)
  {
    forall i :: 0 <= i < |acts| ==> acts[i].OsChange?
  }

  /** Every state reachable from a consistent one is consistent: the listener
      discipline and the data-theme mirror hold after any sequence of operations. */
  lemma {:induction false} RunKeepsConsistent(s: ThemeState, acts: seq<Action>)
    requires Consistent(s)
    ensures Consistent(Run(s, acts))
    decreases |acts|
  {
    if acts != [] {
      RunKeepsConsistent(Step(s, acts[0]), acts[1..]);
    }
  }

  /** From mounting onwards, whatever the user and the OS do, the provider is
      consistent: one OS listener exactly while there is no override, none
      while there is, and data-theme showing the theme in force. */
  lemma ReachableConsistent(storage: map<string, string>, prefersDark: bool, acts: seq<Action>)
    ensures Consistent(Run(Initial(storage, prefersDark), acts))
  {
    RunKeepsConsistent(Initial(storage, prefersDark), acts);
  }

  /** While an override is active, no sequence of OS changes alters anything. */
  lemma {:induction false} OverrideIgnoresOs(s: ThemeState, acts: seq<Action>)
    requires Consistent(s) && s.userPreference
    requires OnlyOsChanges(acts)
    ensures Run(s, acts) == s
    decreases |acts|
  {
    if acts != [] {
      assert acts[0].OsChange?;
      OverrideIgnoresOs(Step(s, acts[0]), acts[1..]);
    }
  }

  /** Without an override the theme follows the OS: after a non-empty sequence of
      OS changes it is the one the last event reports, and the override stays off. */
  lemma {:induction false} FollowsOsWithoutOverride(s: ThemeState, acts: seq<Action>)
    requires Consistent(s) && !s.userPreference
    requires OnlyOsChanges(acts) && acts != []
    ensures Run(s, acts).theme == SystemTheme(acts[|acts| - 1].prefersDark)
    ensures Consistent(Run(s, acts)) && !Run(s, acts).userPreference
    ensures Run(s, acts).storage == s.storage
    decreases |acts|
  {
    assert acts[0].OsChange?;
    var next := Step(s, acts[0]);
    if |acts| > 1 {
      FollowsOsWithoutOverride(next, acts[1..]);
      assert acts[1..][|acts[1..]| - 1] == acts[|acts| - 1];
    }
  }

  /** A stored string that is neither "light" nor "dark" still counts as an
      override (the key is present) while the theme comes from the OS, and no
      listener is registered, so the theme stays at that initial OS value. */
  lemma UnrecognisedStoredValue(storage: map<string, string>, prefersDark: bool)
    requires ThemeKey in storage && ParseTheme(storage[ThemeKey]).None?
    ensures Initial(storage, prefersDark).userPreference
    ensures Initial(storage, prefersDark).theme == SystemTheme(prefersDark)
    ensures Initial(storage, prefersDark).osListeners == 0
  {
  }

  /** Setting the same mode twice gives the same state as setting it once. */
  lemma SetModeIdempotent(s: ThemeState, mode: Theme)
    ensures SetMode(SetMode(s, mode), mode) == SetMode(s, mode)
  {
  }

  /** Toggling twice restores the theme but leaves an override in place. */
  lemma ToggleTwice(s: ThemeState)
    ensures Toggle(Toggle(s)).theme == s.theme
    ensures Toggle(Toggle(s)).userPreference
  {
  }

  /** Stored "dark" with the OS on light starts dark with no listener; clearing
      the preference turns light and listens again; the OS turning dark then
      turns the theme dark. */
  lemma StoredDarkThenClear(storage: map<string, string>)
    requires storage == map[ThemeKey := "dark"]
    ensures Initial(storage, false).theme == Dark
    ensures Initial(storage, false).osListeners == 0
    ensures Clear(Initial(storage, false), false).theme == Light
    ensures Clear(Initial(storage, false), false).osListeners == 1
    ensures SystemChange(Clear(Initial(storage, false), false), true).theme == Dark
  {
  }
}
