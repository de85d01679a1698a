# tldraw countdown timer buttons and user-preference resolution

This project models two pieces of decision logic from the tldraw editor and
proves properties of them in Dafny.

**The timer buttons** (`TimerButtons.dfy`, `TimerProperties.dfy`). A timer is
the record `{initialTime, remainingTime, state}` kept in the document's
settings. `state` is stopped, running (with the server timestamp of the last
start), paused or completed. All times are integer milliseconds. The buttons
work like this:

- Reset restores the full duration and stops the timer.
- Decrease and Increase change the duration by a step that depends on its size, and restart the countdown from the new duration.
- Play starts the countdown at a server timestamp. A completed timer restarts from its full duration.
- Pause takes the elapsed time off what is left, never going below zero, and is ignored unless the timer is running.

The rules are pure functions (`Reset`, `Decrease`, `Increase`, `Play`,
`Pause`). The class `TimerDocument` holds the document's `timer` field.
Each of its click handlers writes that field exactly once through
`UpdateTimer`, except an ignored pause, which writes nothing. The ghost
`writes` log makes the number of writes visible. `Step` and `Run` apply a
sequence of clicks, where a click on a disabled button does nothing. The
lemmas show that `0 <= remainingTime <= initialTime` holds after any click
sequence that starts from a timer already satisfying it, provided every Pause
is given a non-negative elapsed time.

**The user-preference manager** (`UserPreferences.dfy`,
`UserPreferencesProperties.dfy`). The persisted preference record, the
editor's instance state and the default preferences are JavaScript objects.
Each is modelled as a map from property name to a JavaScript value. An absent
property reads as `undefined`, and `??` falls through on `undefined` and
`null`. Each getter is a function of the state made of:

- the persisted record;
- the detected system colour scheme;
- the instance state;
- the `inferDarkMode` flag;
- the defaults.

`updateUserPreferences` is the object spread `{...persisted, ...partial}`,
written back once. The class `UserPreferencesManager` holds the mutable parts:
the persisted record, the `systemColorScheme` cell with its constructor
initialisation, and the media-query change handler.

Inputs that come from outside are parameters:

- the server time given to Play;
- the elapsed time given to Pause;
- whether the host has `matchMedia` and whether the dark query matches;
- the media-change event's `matches`;
- the default preferences;
- the editor's instance state.

Two facts about the code are worth stating directly:

- Play has no guard against a timer that is already running. It overwrites `lastStartTime`.
- The getters with an instance-state link try the persisted value first, then the instance state, then the default. The persisted value is tried before the instance state.

## Model

| member | source | states |
|---|---|---|
| TimerButtons.Reset | packages/tldraw/src/lib/ui/components/Timer/TimerButtons.tsx:34-43 | duration kept, remaining time equals duration, state stopped; well-formed whenever the duration is non-negative |
| TimerButtons.DecreasedTime | packages/tldraw/src/lib/ui/components/Timer/TimerButtons.tsx:53-60 | strictly shorter; step is 5 s exactly when t <= 30 s, 30 s exactly when 30 s < t <= 5 min, 1 min exactly above 5 min |
| TimerButtons.IncreasedTime | packages/tldraw/src/lib/ui/components/Timer/TimerButtons.tsx:86-93 | strictly longer; step is 5 s exactly when t < 30 s, 30 s exactly when 30 s <= t < 5 min, 1 min exactly from 5 min on |
| TimerButtons.Decrease | packages/tldraw/src/lib/ui/components/Timer/TimerButtons.tsx:52-69 | the new duration is exactly the decrease rule applied to the old one, and shorter; countdown restarted from it, state carried over; well-formed result whenever the button is enabled |
| TimerButtons.Increase | packages/tldraw/src/lib/ui/components/Timer/TimerButtons.tsx:85-102 | the new duration is exactly the increase rule applied to the old one, and longer; countdown restarted from it, state carried over; well-formed for any non-negative duration |
| TimerButtons.Play | packages/tldraw/src/lib/ui/components/Timer/TimerButtons.tsx:119-128 | duration kept, running from the given server time; full duration if it had completed, remaining time kept otherwise; keeps the invariant |
| TimerButtons.Pause | packages/tldraw/src/lib/ui/components/Timer/TimerButtons.tsx:135-146 | no write exactly when not running; otherwise paused, duration kept, remaining is old minus elapsed clamped at 0, within [0, old] for non-negative elapsed |
| TimerButtons.DecreaseDisabled | packages/tldraw/src/lib/ui/components/Timer/TimerButtons.tsx:75 | enabled exactly when the timer is not running and has at least 10 s; when enabled the decreased duration is strictly positive |
| TimerButtons.IncreaseDisabled | packages/tldraw/src/lib/ui/components/Timer/TimerButtons.tsx:109 | disabled exactly while running, hence only when Decrease is disabled too |
| TimerButtons.Step | packages/tldraw/src/lib/ui/components/Timer/TimerButtons.tsx:32-149 | a click on a disabled button or an ignored pause changes nothing; only the duration buttons of a non-running timer change the duration |
| TimerButtons.TimerDocument.UpdateTimer | packages/tldraw/src/lib/ui/components/Timer/TimerButtons.tsx:15-17 | the timer field becomes the given record and exactly one write is logged |
| TimerButtons.TimerDocument.OnReset | packages/tldraw/src/lib/ui/components/Timer/TimerButtons.tsx:34-43 | one write of Reset of the current timer |
| TimerButtons.TimerDocument.OnDecrease | packages/tldraw/src/lib/ui/components/Timer/TimerButtons.tsx:52-69 | one write of Decrease of the current timer; keeps the invariant when the button is enabled |
| TimerButtons.TimerDocument.OnIncrease | packages/tldraw/src/lib/ui/components/Timer/TimerButtons.tsx:85-102 | one write of Increase of the current timer; keeps the invariant |
| TimerButtons.TimerDocument.OnPlay | packages/tldraw/src/lib/ui/components/Timer/TimerButtons.tsx:119-128 | one write of Play at the given server time; keeps the invariant |
| TimerButtons.TimerDocument.OnPause | packages/tldraw/src/lib/ui/components/Timer/TimerButtons.tsx:135-146 | no write and no change unless running (early return); otherwise one write of the paused record; keeps the invariant for non-negative elapsed |
| TimerProperties.ResetDependsOnlyOnDuration | packages/tldraw/src/lib/ui/components/Timer/TimerButtons.tsx:34-43 | timers with equal durations reset to the same record whatever their state and remaining time; Reset is idempotent |
| TimerProperties.StepBoundariesOneApart | packages/tldraw/src/lib/ui/components/Timer/TimerButtons.tsx:53-93 | the decrease step at t equals the increase step at t - 1: the inclusive and exclusive thresholds sit one millisecond apart |
| TimerProperties.DecreaseUndoesIncrease | packages/tldraw/src/lib/ui/components/Timer/TimerButtons.tsx:53-93 | decrease after increase returns t if and only if t is not strictly between 25 s and 30 s nor strictly between 4.5 min and 5 min |
| TimerProperties.IncreaseUndoesDecrease | packages/tldraw/src/lib/ui/components/Timer/TimerButtons.tsx:53-93 | increase after decrease returns t if and only if t <= 30 s, or 60 s <= t <= 5 min, or t >= 6 min |
| TimerProperties.IncreaseMonotone | packages/tldraw/src/lib/ui/components/Timer/TimerButtons.tsx:86-93 | Increase preserves strict order of durations |
| TimerProperties.DecreaseNotMonotone | packages/tldraw/src/lib/ui/components/Timer/TimerButtons.tsx:53-60 | Decrease does not preserve order: 30.001 s decreases below what 30 s decreases to, likewise just above 5 min |
| TimerProperties.StepExamples | packages/tldraw/src/lib/ui/components/Timer/TimerButtons.tsx:53-93 | 20000 to 25000, 40000 to 70000, 300000 to 360000 up; 30000 to 25000, 300000 to 270000 down |
| TimerProperties.PauseAfterPlay | packages/tldraw/src/lib/ui/components/Timer/TimerButtons.tsx:119-146 | Pause right after Play takes the elapsed time off the time Play started from (the full duration for a completed timer) |
| TimerProperties.PauseTwiceIgnored | packages/tldraw/src/lib/ui/components/Timer/TimerButtons.tsx:136-143 | a second Pause on a paused timer writes nothing |
| TimerProperties.Scenarios | packages/tldraw/src/lib/ui/components/Timer/TimerButtons.tsx:119-146 | a 60 s timer played at 1000 and paused after 10 s has 50 s left; a completed timer restarts from 60 s |
| TimerProperties.StepKeepsWellFormed | packages/tldraw/src/lib/ui/components/Timer/TimerButtons.tsx:32-149 | every enabled click keeps 0 <= remainingTime <= initialTime, given non-negative elapsed time |
| TimerProperties.RunKeepsWellFormed | packages/tldraw/src/lib/ui/components/Timer/TimerButtons.tsx:32-149 | the invariant holds after any sequence of clicks from a well-formed timer |
| TimerProperties.RunNeverCompletes | packages/tldraw/src/lib/ui/components/Timer/TimerButtons.tsx:32-149 | no sequence of clicks puts a timer into the completed state |
| TimerProperties.OnlyDurationButtonsChangeDuration | packages/tldraw/src/lib/ui/components/Timer/TimerButtons.tsx:32-149 | any sequence of Reset, Play and Pause clicks keeps the duration |
| UserPreferences.Fallback | packages/editor/src/lib/editor/managers/UserPreferencesManager.ts:66-109 | persisted property if set, else the default's; the result is unset only when the default is |
| UserPreferences.InstanceFallback | packages/editor/src/lib/editor/managers/UserPreferencesManager.ts:111-141 | persisted property if set, else the instance state's if set, else the default's; unset only when the default is |
| UserPreferences.GetEdgeScrollSpeed | packages/editor/src/lib/editor/managers/UserPreferencesManager.ts:66-68 | persisted `edgeScrollSpeed`, else the default |
| UserPreferences.GetAnimationSpeed | packages/editor/src/lib/editor/managers/UserPreferencesManager.ts:70-72 | persisted `animationSpeed`, else the default |
| UserPreferences.GetId | packages/editor/src/lib/editor/managers/UserPreferencesManager.ts:74-76 | the persisted id with no fallback: undefined when missing |
| UserPreferences.GetName | packages/editor/src/lib/editor/managers/UserPreferencesManager.ts:78-80 | persisted `name`, else the default |
| UserPreferences.GetLocale | packages/editor/src/lib/editor/managers/UserPreferencesManager.ts:82-84 | persisted `locale`, else the default |
| UserPreferences.GetColor | packages/editor/src/lib/editor/managers/UserPreferencesManager.ts:86-88 | persisted `color`, else the default |
| UserPreferences.GetIsSnapMode | packages/editor/src/lib/editor/managers/UserPreferencesManager.ts:90-92 | persisted `isSnapMode`, else the default |
| UserPreferences.GetIsWrapMode | packages/editor/src/lib/editor/managers/UserPreferencesManager.ts:94-96 | persisted `isWrapMode`, else the default |
| UserPreferences.GetIsDynamicResizeMode | packages/editor/src/lib/editor/managers/UserPreferencesManager.ts:98-102 | reads the property `isDynamicSizeMode`: persisted, else the default |
| UserPreferences.GetIsPasteAtCursorMode | packages/editor/src/lib/editor/managers/UserPreferencesManager.ts:104-109 | persisted `isPasteAtCursorMode`, else the default |
| UserPreferences.GetIsToolLocked | packages/editor/src/lib/editor/managers/UserPreferencesManager.ts:111-117 | persisted `isToolLocked`, else the instance state's, else the default |
| UserPreferences.GetIsGridMode | packages/editor/src/lib/editor/managers/UserPreferencesManager.ts:119-125 | persisted `isGridMode`, else the instance state's, else the default |
| UserPreferences.GetIsFocusMode | packages/editor/src/lib/editor/managers/UserPreferencesManager.ts:127-133 | persisted `isFocusMode`, else the instance state's, else the default |
| UserPreferences.GetIsDebugMode | packages/editor/src/lib/editor/managers/UserPreferencesManager.ts:135-141 | persisted `isDebugMode`, else the instance state's, else the default |
| UserPreferences.GetIsDarkMode | packages/editor/src/lib/editor/managers/UserPreferencesManager.ts:50-61 | 'dark' gives true, 'light' false, 'system' the detected scheme, any other or missing value the detected scheme only with inference on |
| UserPreferences.GetUserPreferences | packages/editor/src/lib/editor/managers/UserPreferencesManager.ts:35-48 | each field equals its own getter; `colorScheme` is the raw persisted value |
| UserPreferences.Merge | packages/editor/src/lib/editor/managers/UserPreferencesManager.ts:29-34 | keys are the union; every key of the partial takes the partial's value; every other key keeps the persisted value |
| UserPreferences.SchemeFromMedia | packages/editor/src/lib/editor/managers/UserPreferencesManager.ts:20-26 | dark exactly when the media query matches |
| UserPreferences.UserPreferencesManager.constructor | packages/editor/src/lib/editor/managers/UserPreferencesManager.ts:8-19 | the system scheme starts light and is dark only when `matchMedia` exists and the dark query matches |
| UserPreferences.UserPreferencesManager.OnColorSchemeChange | packages/editor/src/lib/editor/managers/UserPreferencesManager.ts:20-26 | the change event sets the cell to dark when it matches, light otherwise; every other part of the getters' state is unchanged, and the aggregate snapshot changes at most in `isDarkMode` |
| UserPreferences.UserPreferencesManager.UpdateUserPreferences | packages/editor/src/lib/editor/managers/UserPreferencesManager.ts:29-34 | the persisted record becomes the merge of the old record and the partial, written exactly once; nothing else the getters read changes, and an update without `colorScheme` keeps dark mode |
| UserPreferencesProperties.NameExamples | packages/editor/src/lib/editor/managers/UserPreferencesManager.ts:78-80 | no persisted name gives the default; a persisted "Ada" gives "Ada" |
| UserPreferencesProperties.PersistedWinsOverInstance | packages/editor/src/lib/editor/managers/UserPreferencesManager.ts:111-141 | a set persisted value is the result, whatever the instance state holds |
| UserPreferencesProperties.InstanceWinsOverDefault | packages/editor/src/lib/editor/managers/UserPreferencesManager.ts:111-141 | with nothing persisted, a set instance-state value beats the default |
| UserPreferencesProperties.ExplicitSchemeIgnoresSystem | packages/editor/src/lib/editor/managers/UserPreferencesManager.ts:50-61 | with 'dark' or 'light' chosen, dark mode depends neither on the system scheme nor on the inference flag |
| UserPreferencesProperties.DarkModeNeedsDarkSource | packages/editor/src/lib/editor/managers/UserPreferencesManager.ts:50-61 | dark mode only if the user chose dark or the system is dark; 'light' never gives dark mode |
| UserPreferencesProperties.UnnamedSchemeFallsBack | packages/editor/src/lib/editor/managers/UserPreferencesManager.ts:50-61 | an unrecognised or missing choice acts as 'system' with inference on and as 'light' with it off |
| UserPreferencesProperties.SystemSchemeAffectsOnlyDarkMode | packages/editor/src/lib/editor/managers/UserPreferencesManager.ts:35-141 | changing the system scheme leaves every getter and every aggregate field except dark mode unchanged |
| UserPreferencesProperties.SnapshotIgnoresInstanceState | packages/editor/src/lib/editor/managers/UserPreferencesManager.ts:35-48 | the aggregate does not depend on the instance state |
| UserPreferencesProperties.MergeIdempotent | packages/editor/src/lib/editor/managers/UserPreferencesManager.ts:29-34 | merging the same partial twice equals merging it once |
| UserPreferencesProperties.MergeEmpty | packages/editor/src/lib/editor/managers/UserPreferencesManager.ts:29-34 | an empty partial leaves the record unchanged |
| UserPreferencesProperties.MergeSequential | packages/editor/src/lib/editor/managers/UserPreferencesManager.ts:29-34 | two updates in a row equal one update with the second partial merged over the first |
| UserPreferencesProperties.UpdateIsRead | packages/editor/src/lib/editor/managers/UserPreferencesManager.ts:29-141 | after an update, a property set to a real value reads back as that value through either fallback chain |
| UserPreferencesProperties.UpdateWithNullishClears | packages/editor/src/lib/editor/managers/UserPreferencesManager.ts:29-141 | a property the partial sets to undefined or null falls through to the next source |
| UserPreferencesProperties.UpdateKeepsOtherProperties | packages/editor/src/lib/editor/managers/UserPreferencesManager.ts:29-141 | a property the partial does not name reads as before |
| UserPreferencesProperties.UpdateWithoutColorSchemeKeepsDarkMode | packages/editor/src/lib/editor/managers/UserPreferencesManager.ts:29-61 | an update that does not name `colorScheme` keeps dark mode |

## Left out

- The reactive state library behind `atom` and `@computed` (memoisation, epochs, dependency tracking, subscriber scheduling) is not part of this model. Each getter is a plain function of the current state, and `atom.set` is a field assignment.
- Listener registration with `window.matchMedia` is host I/O. The constructor takes whether `matchMedia` exists and whether the dark query matches, and the change handler takes the event's `matches`.
- UserPreferencesManager.OnColorSchemeChange: may be called on any manager, including one built without `matchMedia`, where the source never registers the listener; the model does not tie the handler to a registration.
- The replication done by `editor.updateDocumentSettings` is a call into the transport layer. It is a single assignment to the `timer` field. How it combines `meta` with other document settings is not modelled.
- `updateTimer` accepts a partial timer record. Every caller passes all three fields, so the model writes whole records.
- `getCurrentServerTime` and `getElapsedTime` of the timer hook are not part of this model. The server time and the elapsed time are parameters, and how elapsed time is computed is not assumed.
- `defaultUserPreferences`, `TLUser` and `getInstanceState` are not part of this model. The defaults are an opaque record, the instance state is an input record, and the user's preference store is a field of the manager.
- Setting the timer's state to completed when the countdown reaches zero happens outside these buttons. It is not modelled.
- JavaScript numbers are doubles. Timer values are unbounded integers of milliseconds, and numeric preferences are reals. Floating-point rounding is not modelled.
- TypeScript's static types are not modelled. A property's value kind is not tied to its name, and a getter returns whatever the fallback chain yields.
- The rendering parts are not modelled: `CollapseButton`, the `TimerButton` presentation, `useCallback` and `useEditor`. Only the `disabled` predicates are kept.
- The other files of the repository are not part of this model: the browser-test home page fixture, the anonymous layout and the keyboard-shortcut component.
