/** Properties of preference resolution: which sources each getter depends
    on, how an update shows through the getters, and the merge's algebra. */
module UserPreferencesProperties {
  import opened UserPreferences

  /** The state after `updateUserPreferences(partial)`. */
  function Updated(s: PreferenceState, partial: Record): PreferenceState
  {
    s.(userPreferences := Merge(s.userPreferences, partial))
  }

  /** With no persisted name the default name is shown; a persisted "Ada"
      is shown as is. */
  lemma NameExamples(s: PreferenceState)
    ensures "name" !in s.userPreferences ==> GetName(s) == Get(s.defaults, "name")
    ensures Get(s.userPreferences, "name") == Str("Ada") ==> GetName(s) == Str("Ada")
  {
  }

  /** A persisted value wins over the instance state, whatever the
      instance state holds. */
  lemma PersistedWinsOverInstance(s: PreferenceState, key: string, instanceState: Record)
    requires !Nullish(Get(s.userPreferences, key))
    ensures InstanceFallback(s, key) == Get(s.userPreferences, key)
    ensures InstanceFallback(s.(instanceState := instanceState), key) == InstanceFallback(s, key)
  {
  }

  /** The instance state is consulted only when nothing is persisted: then
      it wins over the defaults. */
  lemma InstanceWinsOverDefault(s: PreferenceState, key: string)
    requires Nullish(Get(s.userPreferences, key)) && !Nullish(Get(s.instanceState, key))
    ensures InstanceFallback(s, key) == Get(s.instanceState, key)
  {
  }

  /** An explicit `'dark'` or `'light'` choice makes dark mode independent
      of the detected scheme and of the inference flag. */
  lemma ExplicitSchemeIgnoresSystem(s: PreferenceState, scheme: SystemColorScheme, infer: bool)
    requires Get(s.userPreferences, "colorScheme") in {Str("dark"), Str("light")}
    ensures GetIsDarkMode(s.(systemColorScheme := scheme, inferDarkMode := infer)) == GetIsDarkMode(s)
  {
  }

  /** Dark mode is on only if the user chose dark or the system is dark;
      a light choice always gives light mode. */
  lemma DarkModeNeedsDarkSource(s: PreferenceState)
    ensures GetIsDarkMode(s) ==> Get(s.userPreferences, "colorScheme") == Str("dark") || s.systemColorScheme == Dark
    ensures Get(s.userPreferences, "colorScheme") == Str("light") ==> !GetIsDarkMode(s)
  {
  }

  /** With inference on, an unrecognised or missing choice behaves exactly
      like `'system'`; with it off, it behaves like `'light'`. */
  lemma UnnamedSchemeFallsBack(s: PreferenceState)
    requires !NamedScheme(Get(s.userPreferences, "colorScheme"))
    ensures s.inferDarkMode ==>
      GetIsDarkMode(s) == GetIsDarkMode(s.(userPreferences := s.userPreferences["colorScheme" := Str("system")]))
    ensures !s.inferDarkMode ==>
      GetIsDarkMode(s) == GetIsDarkMode(s.(userPreferences := s.userPreferences["colorScheme" := Str("light")]))
  {
  }

  /** Changing the detected system scheme can change dark mode and nothing
      else, on its own or as a field of the aggregate. */
  lemma SystemSchemeAffectsOnlyDarkMode(s: PreferenceState, scheme: SystemColorScheme)
    ensures var t := s.(systemColorScheme := scheme);
      && GetUserPreferences(t) == GetUserPreferences(s).(isDarkMode := GetIsDarkMode(t))
      && GetEdgeScrollSpeed(t) == GetEdgeScrollSpeed(s)
      && GetIsPasteAtCursorMode(t) == GetIsPasteAtCursorMode(s)
      && GetIsToolLocked(t) == GetIsToolLocked(s)
      && GetIsGridMode(t) == GetIsGridMode(s)
      && GetIsFocusMode(t) == GetIsFocusMode(s)
      && GetIsDebugMode(t) == GetIsDebugMode(s)
  {
  }

  /** The aggregate leaves out the instance-state fields, so it does not
      depend on the instance state at all. */
  lemma SnapshotIgnoresInstanceState(s: PreferenceState, instanceState: Record)
    ensures GetUserPreferences(s.(instanceState := instanceState)) == GetUserPreferences(s)
  {
  }

  /** Merging the same partial twice is merging it once. */
  lemma MergeIdempotent(prefs: Record, partial: Record)
    ensures Merge(Merge(prefs, partial), partial) == Merge(prefs, partial)
  {
  }

  /** An empty partial writes back the record unchanged. */
  lemma MergeEmpty(prefs: Record)
    ensures Merge(prefs, map[]) == prefs
  {
  }

  /** A later partial overrides an earlier one wherever both set a property. */
  lemma MergeSequential(prefs: Record, p1: Record, p2: Record)
    ensures Merge(Merge(prefs, p1), p2) == Merge(prefs, Merge(p1, p2))
  {
  }

  /** After an update, a property the partial sets to a real value reads as
      that value, through either kind of fallback. */
  lemma UpdateIsRead(s: PreferenceState, partial: Record, key: string)
    requires key in partial && !Nullish(partial[key])
    ensures Fallback(Updated(s, partial), key) == partial[key]
    ensures InstanceFallback(Updated(s, partial), key) == partial[key]
  {
  }

  /** A property the partial sets to `undefined` or `null` is cleared: it
      now falls through to the next source. */
  lemma UpdateWithNullishClears(s: PreferenceState, partial: Record, key: string)
    requires key in partial && Nullish(partial[key])
    ensures Fallback(Updated(s, partial), key) == Get(s.defaults, key)
    ensures InstanceFallback(Updated(s, partial), key) == Coalesce(Get(s.instanceState, key), Get(s.defaults, key))
  {
  }

  /** A property the partial does not name reads as before. */
  lemma UpdateKeepsOtherProperties(s: PreferenceState, partial: Record, key: string)
    requires key !in partial
    ensures Fallback(Updated(s, partial), key) == Fallback(s, key)
    ensures InstanceFallback(Updated(s, partial), key) == InstanceFallback(s, key)
  {
  }

  /** An update that does not name `colorScheme` keeps dark mode, and
      so the update of any other property never flips the theme. */
  lemma UpdateWithoutColorSchemeKeepsDarkMode(s: PreferenceState, partial: Record)
    requires "colorScheme" !in partial
    ensures GetIsDarkMode(Updated(s, partial)) == GetIsDarkMode(s)
  {
  }
}
