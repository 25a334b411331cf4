/**
 * `createStateManager` (app/controllers/stateManager.js): setters over the
 * shared state object. Every operation assigns fields of the one object it
 * was created with; the UI refresh after setAppState is counted, not drawn.
 */
module StateManager {
  import opened Wrappers
  import opened Json

  /** The settings value `(s.settings || {})`: a falsy value reads as `{}`. */
  function SettingsOrEmpty(settings: Json): (r: Json)
    ensures Truthy(r)
    ensures Truthy(settings) ==> r == settings
    ensures !Truthy(settings) ==> r == EmptyObject
  {
    if Truthy(settings) then settings else EmptyObject
  }

  class StateManager {
    /** Whether the manager was given a UI whose refresh hooks it calls. */
    const hasUi: bool
    var appState: Option<string>
    var settings: Json
    var playQueue: seq<string>
    var currentIndex: int
    var repeatsRemaining: int
    /** How many times the start/pause button and the controls were refreshed. */
    var refreshes: nat

    constructor (hasUi: bool, appState: Option<string>, settings: Json, playQueue: seq<string>, currentIndex: int, repeatsRemaining: int)
      ensures this.hasUi == hasUi && this.appState == appState && this.settings == settings
      ensures this.playQueue == playQueue && this.currentIndex == currentIndex && this.repeatsRemaining == repeatsRemaining
      ensures refreshes == 0
    {
      this.hasUi := hasUi;
      this.appState := appState;
      this.settings := settings;
      this.playQueue := playQueue;
      this.currentIndex := currentIndex;
      this.repeatsRemaining := repeatsRemaining;
      refreshes := 0;
    }

    /** Assigns without comparing to the old value, then refreshes the UI. */
    method SetAppState(v: string)
      modifies this`appState, this`refreshes
      ensures appState == Some(v)
      ensures refreshes == if hasUi then old(refreshes) + 1 else old(refreshes)
    {
      appState := Some(v);
      if hasUi {
        refreshes := refreshes + 1;
      }
    }

    /** `is(v)`: the state is exactly v. */
    method Is(v: string) returns (r: bool)
      ensures r <==> appState == Some(v)
    {
      r := appState == Some(v);
    }

    /** The settings, or a fresh `{}` when they are null. */
    method GetSettings() returns (r: Json)
      ensures Truthy(r)
      ensures Truthy(settings) ==> r == settings
      ensures !Truthy(settings) ==> r == EmptyObject
    {
      r := SettingsOrEmpty(settings);
    }

    /** `{ ...(s.settings || {}), ...patch }`: patch keys win, the others stay. */
    method UpdateSettings(patch: Json)
      modifies this`settings
      ensures settings == Obj(Spread(OwnProps(SettingsOrEmpty(old(settings))), patch), false)
      ensures patch.Obj? && Distinct(patch.props) ==> forall k ::
        Member(settings, k) == if k in Keys(patch.props) then Get(patch.props, k) else Member(old(settings), k)
    {
      var base := OwnProps(SettingsOrEmpty(settings));
      ghost var was := settings;
      settings := Obj(Spread(base, patch), false);
      forall k | patch.Obj? && Distinct(patch.props)
        ensures Member(settings, k) == if k in Keys(patch.props) then Get(patch.props, k) else Member(was, k)
      {
        GetSpread(base, patch, k);
      }
    }

    /** `{ ...next }`: a shallow copy of next replaces the settings. */
    method ReplaceSettings(next: Json)
      modifies this`settings
      ensures settings == Obj(Spread([], next), false)
      ensures next.Obj? && Distinct(next.props) ==> forall k :: Member(settings, k) == Member(next, k)
    {
      settings := Obj(Spread([], next), false);
      forall k | next.Obj? && Distinct(next.props)
        ensures Member(settings, k) == Member(next, k)
      {
        GetSpread([], next, k);
      }
    }

    /** Empty queue, index 0, one repeat, whatever the settings say. */
    method ResetPlaybackState()
      modifies this`playQueue, this`currentIndex, this`repeatsRemaining
      ensures playQueue == [] && currentIndex == 0 && repeatsRemaining == 1
    {
      playQueue := [];
      currentIndex := 0;
      repeatsRemaining := 1;
    }
  }
}
