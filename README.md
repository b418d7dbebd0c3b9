# ml-playground client: theme preference engine and auto-fit text

A Dafny model of the two pieces of client logic in the ml-playground website.

- **Theme preference engine** (`client/src/contexts/ThemeContext.tsx`). A
  `ThemeProvider` holds a theme (light or dark) and a `userPreference` flag.
  The user's explicit choice is persisted under the localStorage key `theme`.
  While there is no override, the provider listens to the OS
  `(prefers-color-scheme: dark)` media query. It mirrors the theme into the
  document's `data-theme` attribute.
  - `ThemeState.dfy` gives the states the provider settles in as pure
    functions: cold-start resolution, `toggleTheme`, `setThemeMode`,
    `clearThemePreference` and an OS change. It adds the consistency invariant
    and lemmas over any sequence of operations.
  - `ThemeContext.dfy` is the provider as a class whose fields are that state.
    Each method updates the state and storage, then runs the two React effects
    for the dependencies that changed. It is proved to reach the state
    `ThemeState` specifies.
  - The OS signal is a parameter of the operations that read it. localStorage
    is a `map<string, string>` field. The OS change listener is a count
    (`osListeners`), so "registered only while there is no override" also
    rules out a second registration.
- **Auto-fit text** (`client/src/components/AutoSizeText/AutoSizeText.tsx`).
  - `AutoFit.dfy` states `fitText`'s binary search over integer font sizes as
    a function, `BinarySearch`, whose recursion shrinks `max - min` at every probe. It gives a reference definition,
    `LargestFit`: the largest size in `[1, W]` whose text fits, or 1. It proves
    that the search returns a size in `[1, W]` that fits or is 1, for any
    measurement. For a monotone measurement it proves the search returns
    `LargestFit`.
  - `AutoSize.dfy` has `FitText`, the imperative loop that writes every probe
    to the element's font size. It also has the component's effect lifecycle:
    one window resize handler per effect run, removed by that run's cleanup.
    The DOM measurement `scrollWidth` is a function `render: int -> int` of the
    font size. The parent's `clientWidth` is a field of the element, `None`
    when there is no parent.

`ThemeContext.tsx:43` treats any present key as an override, but `:28` uses the stored string as the theme only when it is exactly `light` or `dark`. So an unrecognised stored string gives an override whose theme came
from the OS at start-up and then never follows the OS. The model keeps this
(`ThemeState.UnrecognisedStoredValue`). Its invariant `Consistent` only
ties a recognised stored name to the theme.

## Model

| member | source | states |
|---|---|---|
| `ThemeState.ParseTheme` | client/src/contexts/ThemeContext.tsx:28 | a stored string is a theme exactly when it is the name of one, and then it is that theme |
| `ThemeState.Stored` | client/src/contexts/ThemeContext.tsx:27 | reading the key gives a value exactly when the key is in storage, and that value |
| `ThemeState.SystemTheme` | client/src/contexts/ThemeContext.tsx:33-38 | the OS-derived theme is dark exactly when the OS prefers dark |
| `ThemeState.Opposite` | client/src/contexts/ThemeContext.tsx:71 | the toggled theme differs from the current one |
| `ThemeState.InitialTheme` | client/src/contexts/ThemeContext.tsx:25-39 | precedence: a stored `light`/`dark` is the theme; otherwise dark exactly when the OS prefers dark, else light |
| `ThemeState.Initial` | client/src/contexts/ThemeContext.tsx:25-67 | after mount the state is consistent, the override flag is "key present", storage is untouched, and a listener is registered exactly when the key is absent |
| `ThemeState.Toggle` | client/src/contexts/ThemeContext.tsx:70-75 | the theme changes, the override is on, the stored value is the new theme's name, no listener remains, other keys are untouched, the state is consistent |
| `ThemeState.SetMode` | client/src/contexts/ThemeContext.tsx:78-82 | the theme is the given mode, the override is on, the stored value is its name, no listener remains, other keys are untouched |
| `ThemeState.Clear` | client/src/contexts/ThemeContext.tsx:85-94 | the key is removed and nothing else in storage changes, the override is off, the theme is the OS signal read at the call, one listener is registered |
| `ThemeState.SystemChange` | client/src/contexts/ThemeContext.tsx:47-62 | with an override an OS change changes nothing; without one it sets the theme from the event and changes nothing else; consistency is kept |
| `ThemeState.RunKeepsConsistent` | client/src/contexts/ThemeContext.tsx:47-94 | every sequence of operations from a consistent state ends in a consistent state |
| `ThemeState.ReachableConsistent` | client/src/contexts/ThemeContext.tsx:25-94 | from mount onwards a listener is registered exactly when there is no override, and data-theme always equals the theme |
| `ThemeState.OverrideIgnoresOs` | client/src/contexts/ThemeContext.tsx:47-48 | while an override is active, any sequence of OS changes leaves the whole state unchanged |
| `ThemeState.FollowsOsWithoutOverride` | client/src/contexts/ThemeContext.tsx:50-57 | without an override, after OS changes the theme is the one the last event reports, and storage and the override flag are unchanged |
| `ThemeState.UnrecognisedStoredValue` | client/src/contexts/ThemeContext.tsx:25-44 | an unrecognised stored string still sets the override, the theme comes from the OS, and no listener is registered |
| `ThemeState.SetModeIdempotent` | client/src/contexts/ThemeContext.tsx:78-82 | setting a mode twice gives the same state as setting it once |
| `ThemeState.ToggleTwice` | client/src/contexts/ThemeContext.tsx:70-75 | toggling twice restores the theme and keeps the override |
| `ThemeState.StoredDarkThenClear` | client/src/contexts/ThemeContext.tsx:25-94 | stored dark with the OS light: start dark without a listener; clear: light with a listener; the OS turning dark then makes it dark |
| `ThemeContext.ThemeProvider.constructor` | client/src/contexts/ThemeContext.tsx:23-67 | the mounted provider is in the state `Initial` gives |
| `ThemeContext.ThemeProvider.CommitEffects` | client/src/contexts/ThemeContext.tsx:47-67 | when the override flag changed, the old listener is removed and a new one is added only without override; data-theme is set to the theme; the rest is unchanged |
| `ThemeContext.ThemeProvider.ToggleTheme` | client/src/contexts/ThemeContext.tsx:70-75 | the new state is `Toggle` of the old one and the invariant is kept |
| `ThemeContext.ThemeProvider.SetThemeMode` | client/src/contexts/ThemeContext.tsx:78-82 | the new state is `SetMode` of the old one and the invariant is kept |
| `ThemeContext.ThemeProvider.ClearThemePreference` | client/src/contexts/ThemeContext.tsx:85-94 | the new state is `Clear` of the old one with the OS signal read at the call |
| `ThemeContext.ThemeProvider.OnOsChange` | client/src/contexts/ThemeContext.tsx:52-54 | the new state is `SystemChange` of the old one: only a registered handler changes the theme |
| `AutoFit.SearchFitsOrFloor` | client/src/components/AutoSizeText/AutoSizeText.tsx:16-32 | whatever the measurement, from any loop state the search (`BinarySearch`, which recurses on a shrinking `max - min`) ends with a size in `[1, W]` that was measured to fit, or with the floor 1 |
| `AutoFit.FitSize` | client/src/components/AutoSizeText/AutoSizeText.tsx:16-34 | for a container of width `W >= 1` the chosen size lies in `[1, W]` and fits, or is 1 |
| `AutoFit.LargestFit` | client/src/components/AutoSizeText/AutoSizeText.tsx:16-34 | reference: a size in `[1, k]` that fits with nothing fitting above it, or 1 when nothing in `[1, k]` fits |
| `AutoFit.NothingFitsAboveSearch` | client/src/components/AutoSizeText/AutoSizeText.tsx:20-32 | for a monotone measurement, from any loop state, no size above the search's result fits |
| `AutoFit.FitSizeIsLargest` | client/src/components/AutoSizeText/AutoSizeText.tsx:16-34 | for a monotone measurement the chosen size is the largest fitting one, or 1 when none fits |
| `AutoFit.TenPerPixelIn105` | client/src/components/AutoSizeText/AutoSizeText.tsx:16-34 | width 10 px per px of font size in a 105 px container gives 10 px |
| `AutoSize.FitText` | client/src/components/AutoSizeText/AutoSizeText.tsx:9-35 | no parent or zero width leaves the font size alone; otherwise the applied size is the search's result, whatever was written while probing |
| `AutoSize.AutoSizeText.RunEffect` | client/src/components/AutoSizeText/AutoSizeText.tsx:40-48 | one effect run fits the text once and registers exactly one new resize handler |
| `AutoSize.AutoSizeText.Cleanup` | client/src/components/AutoSizeText/AutoSizeText.tsx:49-51 | the cleanup removes the handler its run registered, leaving none |
| `AutoSize.AutoSizeText.Mount` | client/src/components/AutoSizeText/AutoSizeText.tsx:37-52 | after mount exactly one handler is registered and the text is fitted |
| `AutoSize.AutoSizeText.UpdateText` | client/src/components/AutoSizeText/AutoSizeText.tsx:40-52 | new text: the old handler is replaced by a new one, one stays registered, and the text is refitted for the new measurement |
| `AutoSize.AutoSizeText.WindowResize` | client/src/components/AutoSizeText/AutoSizeText.tsx:44-47 | a resize refits the text to the new width while mounted, and does nothing to the font size otherwise |
| `AutoSize.AutoSizeText.Unmount` | client/src/components/AutoSizeText/AutoSizeText.tsx:49-51 | after unmount no resize handler is left |
| `AutoSize.RemoveHandler` | client/src/components/AutoSizeText/AutoSizeText.tsx:50 | removing a handler keeps exactly the other handlers |

## Left out

- React rendering, hooks and the context object. The provider is an explicitly constructed object. `useTheme`'s error outside a provider (`ThemeContext.tsx:111-117`) is not modelled.
- Unmounting the `ThemeProvider`. It lives for the whole session, so its listener cleanup is modelled only when `userPreference` changes.
- Exceptions from `localStorage` or `window.matchMedia`. The code catches neither, so a failing store or missing media query support is outside the model. The model's storage always answers, and the OS signal is always a boolean.
- Changes to localStorage made by other tabs. The code does not react to them.
- The `if (!element) return` branch of the auto-fit effect (`AutoSizeText.tsx:41-42`). React runs the effect after the element is attached, so the ref is always set.
- The text content itself. `boldText` and `regularText` enter only through the measurement function `render` that `UpdateText` installs.
- Real layout. The parent's width after a resize is a parameter of `WindowResize`, and `scrollWidth` is the `render` parameter. Monotonicity of `render` is an assumption of `FitSizeIsLargest`, not a fact about browsers.
- The `px` string written to `style.fontSize`. Sizes are integers, and `Math.floor` of a positive half equals Dafny's division.
- `AutoSize.FitText`: its contract gives the final font size but not the sequence of probe sizes written on the way.
