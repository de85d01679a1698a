/** How the editor resolves a user's effective preferences. The persisted
    preference record, the editor's instance state and the default
    preferences are JavaScript objects, modelled as maps from property name
    to value: a property that is absent reads as `undefined`. Every getter is
    a function of the current state: the persisted record, the detected
    system colour scheme, the instance state, the `inferDarkMode` flag and
    the defaults. */
module UserPreferences {

  datatype Value = Undefined | Null | Bool(b: bool) | Num(n: real) | Str(s: string)

  type Record = map<string, Value>

  /** Reading a property: `undefined` when the object does not have it. */
  function Get(r: Record, key: string): Value
  {
    if key in r then r[key] else Undefined
  }

  predicate Nullish(v: Value)
  {
    v.Undefined? || v.Null?
  }

  /** The `??` operator: the left value unless it is `undefined` or `null`. */
  function Coalesce(a: Value, b: Value): (v: Value)
    ensures !Nullish(a) ==> v == a
    ensures Nullish(a) ==> v == b
  {
    if Nullish(a) then b else a
  }

  datatype SystemColorScheme = Dark | Light

  datatype PreferenceState = PreferenceState(
    userPreferences: Record,
    systemColorScheme: SystemColorScheme,
    instanceState: Record,
    inferDarkMode: bool,
    defaults: Record)

  /** A one-link fallback: the persisted property if it is set (neither
      `undefined` nor `null`), else the default's property. */
  predicate PersistedOrDefault(s: PreferenceState, key: string, v: Value)
  {
    && (!Nullish(Get(s.userPreferences, key)) ==> v == Get(s.userPreferences, key))
    && (Nullish(Get(s.userPreferences, key)) ==> v == Get(s.defaults, key))
  }

  /** A two-link fallback: the persisted property if set, else the instance
      state's property if set, else the default's property. */
  predicate PersistedThenInstanceThenDefault(s: PreferenceState, key: string, v: Value)
  {
    && (!Nullish(Get(s.userPreferences, key)) ==> v == Get(s.userPreferences, key))
    && (Nullish(Get(s.userPreferences, key)) && !Nullish(Get(s.instanceState, key)) ==> v == Get(s.instanceState, key))
    && (Nullish(Get(s.userPreferences, key)) && Nullish(Get(s.instanceState, key)) ==> v == Get(s.defaults, key))
  }

  /** `userPreferences.key ?? defaultUserPreferences.key` */
  function Fallback(s: PreferenceState, key: string): (v: Value)
    ensures PersistedOrDefault(s, key, v)
    ensures Nullish(v) ==> Nullish(Get(s.defaults, key))
  {
    Coalesce(Get(s.userPreferences, key), Get(s.defaults, key))
  }

  /** `userPreferences.key ?? instanceState.key ?? defaultUserPreferences.key` */
  function InstanceFallback(s: PreferenceState, key: string): (v: Value)
    ensures PersistedThenInstanceThenDefault(s, key, v)
    ensures Nullish(v) ==> Nullish(Get(s.defaults, key))
  {
    Coalesce(Get(s.userPreferences, key), Coalesce(Get(s.instanceState, key), Get(s.defaults, key)))
  }

  function GetEdgeScrollSpeed(s: PreferenceState): (v: Value)
    ensures PersistedOrDefault(s, "edgeScrollSpeed", v)
  {
    Fallback(s, "edgeScrollSpeed")
  }

  function GetAnimationSpeed(s: PreferenceState): (v: Value)
    ensures PersistedOrDefault(s, "animationSpeed", v)
  {
    Fallback(s, "animationSpeed")
  }

  /** The id has no fallback: a missing id reads as `undefined`, even when
      the defaults have one. */
  function GetId(s: PreferenceState): (v: Value)
    ensures "id" !in s.userPreferences ==> v == Undefined
    ensures "id" in s.userPreferences ==> v == s.userPreferences["id"]
  {
    Get(s.userPreferences, "id")
  }

  function GetName(s: PreferenceState): (v: Value)
    ensures PersistedOrDefault(s, "name", v)
  {
    Fallback(s, "name")
  }

  function GetLocale(s: PreferenceState): (v: Value)
    ensures PersistedOrDefault(s, "locale", v)
  {
    Fallback(s, "locale")
  }

  function GetColor(s: PreferenceState): (v: Value)
    ensures PersistedOrDefault(s, "color", v)
  {
    Fallback(s, "color")
  }

  function GetIsSnapMode(s: PreferenceState): (v: Value)
    ensures PersistedOrDefault(s, "isSnapMode", v)
  {
    Fallback(s, "isSnapMode")
  }

  function GetIsWrapMode(s: PreferenceState): (v: Value)
    ensures PersistedOrDefault(s, "isWrapMode", v)
  {
    Fallback(s, "isWrapMode")
  }

  /** Reads the persisted property `isDynamicSizeMode` (not "...ResizeMode"). */
  function GetIsDynamicResizeMode(s: PreferenceState): (v: Value)
    ensures PersistedOrDefault(s, "isDynamicSizeMode", v)
  {
    Fallback(s, "isDynamicSizeMode")
  }

  function GetIsPasteAtCursorMode(s: PreferenceState): (v: Value)
    ensures PersistedOrDefault(s, "isPasteAtCursorMode", v)
  {
    Fallback(s, "isPasteAtCursorMode")
  }

  function GetIsToolLocked(s: PreferenceState): (v: Value)
    ensures PersistedThenInstanceThenDefault(s, "isToolLocked", v)
  {
    InstanceFallback(s, "isToolLocked")
  }

  function GetIsGridMode(s: PreferenceState): (v: Value)
    ensures PersistedThenInstanceThenDefault(s, "isGridMode", v)
  {
    InstanceFallback(s, "isGridMode")
  }

  function GetIsFocusMode(s: PreferenceState): (v: Value)
    ensures PersistedThenInstanceThenDefault(s, "isFocusMode", v)
  {
    InstanceFallback(s, "isFocusMode")
  }

  function GetIsDebugMode(s: PreferenceState): (v: Value)
    ensures PersistedThenInstanceThenDefault(s, "isDebugMode", v)
  {
    InstanceFallback(s, "isDebugMode")
  }

  /** The three colour-scheme choices the dark-mode switch recognises. */
  predicate NamedScheme(v: Value)
  {
    v == Str("dark") || v == Str("light") || v == Str("system")
  }

  /** Dark mode: an explicit `'dark'` or `'light'` decides alone; `'system'`
      follows the detected scheme; any other value (missing included)
      follows it only when dark-mode inference is switched on. */
  function GetIsDarkMode(s: PreferenceState): (dark: bool)
    ensures Get(s.userPreferences, "colorScheme") == Str("dark") ==> dark
    ensures Get(s.userPreferences, "colorScheme") == Str("light") ==> !dark
    ensures Get(s.userPreferences, "colorScheme") == Str("system") ==> (dark <==> s.systemColorScheme == Dark)
    ensures !NamedScheme(Get(s.userPreferences, "colorScheme")) ==>
              (dark <==> s.inferDarkMode && s.systemColorScheme == Dark)
  {
    match Get(s.userPreferences, "colorScheme")
    case Str("dark") => true
    case Str("light") => false
    case Str("system") => s.systemColorScheme == Dark
    case _ => if s.inferDarkMode then s.systemColorScheme == Dark else false
  }

  /** The aggregate returned by `getUserPreferences`. */
  datatype UserPreferencesSnapshot = UserPreferencesSnapshot(
    id: Value,
    name: Value,
    locale: Value,
    color: Value,
    animationSpeed: Value,
    isSnapMode: Value,
    colorScheme: Value,
    isDarkMode: bool,
    isWrapMode: Value,
    isDynamicResizeMode: Value)

  /** Each field is its own getter, except `colorScheme`, which is the raw
      persisted value with no fallback. */
  function GetUserPreferences(s: PreferenceState): (r: UserPreferencesSnapshot)
    ensures r.id == GetId(s) && r.name == GetName(s) && r.locale == GetLocale(s)
    ensures r.color == GetColor(s) && r.animationSpeed == GetAnimationSpeed(s)
    ensures r.isSnapMode == GetIsSnapMode(s) && r.isWrapMode == GetIsWrapMode(s)
    ensures r.isDynamicResizeMode == GetIsDynamicResizeMode(s)
    ensures r.colorScheme == Get(s.userPreferences, "colorScheme")
    ensures r.isDarkMode == GetIsDarkMode(s)
  {
    UserPreferencesSnapshot(
      id := GetId(s),
      name := GetName(s),
      locale := GetLocale(s),
      color := GetColor(s),
      animationSpeed := GetAnimationSpeed(s),
      isSnapMode := GetIsSnapMode(s),
      colorScheme := Get(s.userPreferences, "colorScheme"),
      isDarkMode := GetIsDarkMode(s),
      isWrapMode := GetIsWrapMode(s),
      isDynamicResizeMode := GetIsDynamicResizeMode(s))
  }

  /** `{...prefs, ...partial}`: every property the partial has (even one it
      sets to `undefined`) takes the partial's value; every other property
      keeps the persisted one. */
  function Merge(prefs: Record, partial: Record): (r: Record)
    ensures r.Keys == prefs.Keys + partial.Keys
    ensures forall k :: k in partial ==> r[k] == partial[k]
    ensures forall k :: k in prefs && k !in partial ==> r[k] == prefs[k]
  {
    prefs + partial
  }

  /** The system scheme as seen by the `prefers-color-scheme: dark` media query. */
  function SchemeFromMedia(matches: bool): (scheme: SystemColorScheme)
    ensures scheme == Dark <==> matches
  {
    if matches then Dark else Light
  }

  /** The preference manager of one editor. `userPreferences` is the user's
      persisted preference record; `writes` lists every record written to it,
      so that an update is seen to write exactly once. */
  class UserPreferencesManager {
    var userPreferences: Record
    var systemColorScheme: SystemColorScheme
    const inferDarkMode: bool
    const defaults: Record
    ghost var writes: seq<Record>

    /** The system scheme starts as light and becomes dark only when the
        host can evaluate the media query and it matches. */
    constructor (userPreferences: Record, inferDarkMode: bool, defaults: Record,
                 hasMatchMedia: bool, prefersDark: bool)
      ensures this.userPreferences == userPreferences && writes == []
      ensures this.inferDarkMode == inferDarkMode && this.defaults == defaults
      ensures systemColorScheme == (if hasMatchMedia && prefersDark then Dark else Light)
    {
      this.userPreferences := userPreferences;
      this.inferDarkMode := inferDarkMode;
      this.defaults := defaults;
      writes := [];
      systemColorScheme := Light;
      new;
      if hasMatchMedia && prefersDark {
        systemColorScheme := Dark;
      }
    }

    /** Everything the getters read, with the editor's current instance state. */
    function State(instanceState: Record): (s: PreferenceState)
      reads this
      ensures s.userPreferences == userPreferences && s.systemColorScheme == systemColorScheme
      ensures s.instanceState == instanceState
      ensures s.inferDarkMode == inferDarkMode && s.defaults == defaults
    {
      PreferenceState(userPreferences, systemColorScheme, instanceState, inferDarkMode, defaults)
    }

    /** The media query's change event. */
    method OnColorSchemeChange(matches: bool)
      modifies this`systemColorScheme
      ensures systemColorScheme == SchemeFromMedia(matches)
      ensures forall i :: State(i) == old(State(i)).(systemColorScheme := systemColorScheme)
      ensures forall i :: GetUserPreferences(State(i))
                       == old(GetUserPreferences(State(i))).(isDarkMode := GetIsDarkMode(State(i)))
    {
      if matches {
        systemColorScheme := Dark;
      } else {
        systemColorScheme := Light;
      }
    }

    /** Read the persisted record, merge the partial over it and write it
        back, once. */
    method UpdateUserPreferences(partial: Record)
      modifies this`userPreferences, this`writes
      ensures userPreferences == Merge(old(userPreferences), partial)
      ensures writes == old(writes) + [userPreferences]
      ensures forall i :: State(i) == old(State(i)).(userPreferences := userPreferences)
      ensures "colorScheme" !in partial ==> forall i :: GetIsDarkMode(State(i)) == old(GetIsDarkMode(State(i)))
    {
      var merged := Merge(userPreferences, partial);
      userPreferences := merged;
      writes := writes + [merged];
    }
  }
}
