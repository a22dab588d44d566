/**
 * The theme preference slice of the Redux store (src/redux/slices/theme.ts).
 *
 * The slice's reducers assign fields of a mutable draft, so the state is a class with three
 * field-updating methods. `Reduce` states what each reducer does as a function of the state and
 * the action, and `Run` applies a sequence of dispatched actions in order.
 *
 * The initial state leaves `targetSystem` undefined (the cast to `ThemeState` hides the missing
 * field), and `shouldUseSystemTheme(true)` copies `targetSystem` into `active`, so `active` can
 * become undefined as well: both are `Option<Theme>`.
 */
module ThemeSlice {
  import opened Wrappers

  datatype Theme = Light | Dark

  /** A snapshot of the slice; an undefined field is `None`. */
  datatype State = State(active: Option<Theme>, targetSystem: Option<Theme>, useSystem: bool)

  /** The slice's actions, one per reducer. */
  datatype Action =
    | UpdateTargetSystemTheme(theme: Theme)
    | ShouldUseSystemTheme(useSystem: bool)
    | SetTheme(theme: Theme)

  const InitialState: State := State(Some(Light), None, false)

  /** The reducer of each action, on snapshots. */
  function Reduce(s: State, a: Action): State {
    match a
    case UpdateTargetSystemTheme(t) => s.(targetSystem := Some(t))
    case ShouldUseSystemTheme(b) => if b then s.(useSystem := true, active := s.targetSystem) else s.(useSystem := false)
    case SetTheme(t) => if s.useSystem then s else s.(active := Some(t))
  }

  /** The state after dispatching `actions` in order. */
  function Run(s: State, actions: seq<Action>): State
    decreases |actions|
  {
    if actions == [] then s else Run(Reduce(s, actions[0]), actions[1..])
  }

  class ThemeState {
    var active: Option<Theme>
    var targetSystem: Option<Theme>
    var useSystem: bool

    function Snapshot(): State
      reads this
    {
      State(active, targetSystem, useSystem)
    }

    /** The slice's initial state. */
    constructor ()
      ensures active == Some(Light) && targetSystem == None && !useSystem
      ensures Snapshot() == InitialState
    {
      active := Some(Light);
      targetSystem := None;
      useSystem := false;
    }

    /** Records the system's theme; `active` does not follow it, even while the system theme is in use. */
    method UpdateTargetSystemTheme(t: Theme)
      modifies this
      ensures targetSystem == Some(t)
      ensures active == old(active) && useSystem == old(useSystem)
      ensures Snapshot() == Reduce(old(Snapshot()), Action.UpdateTargetSystemTheme(t))
    {
      targetSystem := Some(t);
    }

    /** Turns use of the system theme on, adopting the recorded system theme, or off, keeping the active theme. */
    method ShouldUseSystemTheme(b: bool)
      modifies this
      ensures useSystem == b && targetSystem == old(targetSystem)
      ensures active == if b then old(targetSystem) else old(active)
      ensures Snapshot() == Reduce(old(Snapshot()), Action.ShouldUseSystemTheme(b))
    {
      useSystem := b;
      if useSystem {
        active := targetSystem;
      }
    }

    /** Selects a theme by hand; ignored while the system theme is in use. */
    method SetTheme(t: Theme)
      modifies this
      ensures old(useSystem) ==> Snapshot() == old(Snapshot())
      ensures !old(useSystem) ==> active == Some(t) && targetSystem == old(targetSystem) && !useSystem
      ensures Snapshot() == Reduce(old(Snapshot()), Action.SetTheme(t))
    {
      if useSystem {
        return;
      }
      active := Some(t);
    }
  }

  /** Setting a theme by hand twice is the same as setting it once. */
  lemma SetThemeIdempotent(s: State, t: Theme)
    ensures Reduce(Reduce(s, SetTheme(t)), SetTheme(t)) == Reduce(s, SetTheme(t))
  {
  }

  /** Dispatching one sequence of actions after another is dispatching their concatenation. */
  lemma {:induction false} RunAppend(s: State, a: seq<Action>, b: seq<Action>)
    ensures Run(s, a + b) == Run(Run(s, a), b)
    decreases |a|
  {
    if a != [] {
      assert (a + b)[0] == a[0] && (a + b)[1..] == a[1..] + b;
      RunAppend(Reduce(s, a[0]), a[1..], b);
    } else {
      assert a + b == b;
    }
  }

  /** `targetSystem` changes only through `updateTargetSystemTheme`. */
  lemma {:induction false} TargetChangesOnlyByUpdate(s: State, actions: seq<Action>)
    requires forall i :: 0 <= i < |actions| ==> !actions[i].UpdateTargetSystemTheme?
    ensures Run(s, actions).targetSystem == s.targetSystem
    decreases |actions|
  {
    if actions != [] {
      TargetChangesOnlyByUpdate(Reduce(s, actions[0]), actions[1..]);
    }
  }

  /** After any sequence of actions, `targetSystem` holds the payload of the last `updateTargetSystemTheme`. */
  lemma LastUpdateWins(s: State, actions: seq<Action>, k: nat)
    requires k < |actions| && actions[k].UpdateTargetSystemTheme?
    requires forall j :: k < j < |actions| ==> !actions[j].UpdateTargetSystemTheme?
    ensures Run(s, actions).targetSystem == Some(actions[k].theme)
  {
    var before, after := actions[..k + 1], actions[k + 1..];
    assert actions == before + after;
    RunAppend(s, before, after);
    assert before == actions[..k] + [actions[k]];
    RunAppend(s, actions[..k], [actions[k]]);
    TargetChangesOnlyByUpdate(Run(s, before), after);
  }

  /**
   * While the system theme is in use and nobody turns it off or on again, the active theme
   * stays as it is: hand-picked themes are ignored and system theme changes are not followed.
   */
  lemma {:induction false} SystemModeFreezesActive(s: State, actions: seq<Action>)
    requires s.useSystem
    requires forall i :: 0 <= i < |actions| ==> !actions[i].ShouldUseSystemTheme?
    ensures Run(s, actions).active == s.active && Run(s, actions).useSystem
    decreases |actions|
  {
    if actions != [] {
      SystemModeFreezesActive(Reduce(s, actions[0]), actions[1..]);
    }
  }

  /** While the system theme is in use, `active` need not equal `targetSystem`. */
  lemma ActiveDoesNotFollowTarget()
    ensures var s := Run(InitialState, [UpdateTargetSystemTheme(Light), ShouldUseSystemTheme(true), UpdateTargetSystemTheme(Dark)]);
            s.useSystem && s.active == Some(Light) && s.targetSystem == Some(Dark)
  {
  }

  /** Turning the system theme on before any system theme was recorded leaves `active` undefined. */
  lemma UseSystemBeforeTargetKnown()
    ensures Run(InitialState, [ShouldUseSystemTheme(true)]).active == None
  {
  }
}
