/**
 * The system theme listener (src/theme/system.tsx), reduced to the dispatches of its
 * `updateFromWindow` callback against the theme slice. The window query, the event
 * subscription and logging are not modelled.
 */
module SystemTheme {
  import opened Wrappers
  import opened ThemeSlice

  /**
   * The value `updateFromWindow` switches on: the window theme `"light"` or `"dark"`, or, when
   * the window query fails, the enum value `Theme.Light`, which is the number 0 and no string.
   */
  datatype NewTheme = LightName | DarkName | QueryFailed

  /** The actions the callback dispatches as written: the `"light"` case falls through into `"dark"`. */
  function DispatchedAsWritten(newTheme: NewTheme): seq<Action> {
    match newTheme
    case LightName => [UpdateTargetSystemTheme(Light), UpdateTargetSystemTheme(Dark)]
    case DarkName => [UpdateTargetSystemTheme(Dark)]
    case QueryFailed => []
  }

  /** The actions evidently intended: one update per window theme, and the light default on failure. */
  function Dispatched(newTheme: NewTheme): seq<Action> {
    match newTheme
    case LightName => [UpdateTargetSystemTheme(Light)]
    case DarkName => [UpdateTargetSystemTheme(Dark)]
    case QueryFailed => [UpdateTargetSystemTheme(Light)]
  }

  /** The theme a window theme stands for; a failed query defaults to light. */
  function ThemeOf(newTheme: NewTheme): Theme {
    if newTheme == DarkName then Dark else Light
  }

  /** The callback as written, run against the store. */
  method UpdateFromWindowAsWritten(store: ThemeState, newTheme: NewTheme)
    modifies store
    ensures store.Snapshot() == Run(old(store.Snapshot()), DispatchedAsWritten(newTheme))
  {
    ghost var acts := DispatchedAsWritten(newTheme);
    ghost var done: seq<Action> := [];
    var matched := newTheme == LightName;
    if matched {
      store.UpdateTargetSystemTheme(Light);
      done := [UpdateTargetSystemTheme(Light)];
    }
    // no `break` after the "light" case: control falls through
    if matched || newTheme == DarkName {
      RunAppend(old(store.Snapshot()), done, [UpdateTargetSystemTheme(Dark)]);
      store.UpdateTargetSystemTheme(Dark);
      done := done + [UpdateTargetSystemTheme(Dark)];
    }
    assert done == acts;
  }

  /** The callback with a `break` after each case and the light default dispatched on failure. */
  method UpdateFromWindow(store: ThemeState, newTheme: NewTheme)
    modifies store
    ensures store.Snapshot() == Run(old(store.Snapshot()), Dispatched(newTheme))
  {
    match newTheme
    case LightName => store.UpdateTargetSystemTheme(Light);
    case DarkName => store.UpdateTargetSystemTheme(Dark);
    case QueryFailed => store.UpdateTargetSystemTheme(Light);
  }

  /** As written, a light window theme records `Dark` as the system theme. */
  lemma LightWindowRecordsDarkAsWritten(s: State)
    ensures Run(s, DispatchedAsWritten(LightName)).targetSystem == Some(Dark)
  {
  }

  /** As written, a failed window query records nothing, although the light theme is announced as the default. */
  lemma FailedQueryRecordsNothingAsWritten(s: State)
    ensures Run(s, DispatchedAsWritten(QueryFailed)) == s
  {
  }

  /** The intended callback records the window's theme, the light default on failure, and changes nothing else. */
  lemma RecordsWindowTheme(s: State, newTheme: NewTheme)
    ensures Run(s, Dispatched(newTheme)) == s.(targetSystem := Some(ThemeOf(newTheme)))
  {
  }
}
