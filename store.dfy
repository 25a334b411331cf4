/**
 * The settings store created by `createStore` in the bus-based revisions
 * (app/main_00.js and app/main.js). The store owns the app state name, the
 * settings object and the playback index, and announces every change on the
 * bus; the announcements are kept in an outbox, in emit order.
 */
module Store {
  import opened Wrappers
  import opened Json

  /** What the store emits: APP_STATE, PLAYBACK_INDEX and SETTINGS_CHANGED. */
  datatype Notice =
    | AppStateChanged(appState: string)
    | IndexChanged(index: int)
    | SettingsChanged(settings: seq<Prop>)

  const TwoTo31: int := 0x8000_0000
  const TwoTo32: int := 0x1_0000_0000

  /** Truncation toward zero, as ToInt32 does before wrapping. */
  function TruncateReal(x: real): (r: int)
    ensures 0.0 <= x ==> r as real <= x < r as real + 1.0
    ensures x < 0.0 ==> r as real - 1.0 < x <= r as real
  {
    if x >= 0.0 then x.Floor else -((-x).Floor)
  }

  /** Two's-complement wrap of an integer into the signed 32-bit range. */
  function Wrap32(n: int): (r: int)
    ensures -TwoTo31 <= r < TwoTo31
    ensures (r - n) % TwoTo32 == 0
    ensures -TwoTo31 <= n < TwoTo31 ==> r == n
  {
    (n + TwoTo31) % TwoTo32 - TwoTo31
  }

  /**
   * `Math.max(0, Number(i) | 0)`; None stands for a value whose Number is NaN
   * or infinite, for which `| 0` gives 0.
   */
  function IndexValue(i: Option<real>): (r: nat)
    ensures r < TwoTo31
    ensures i.None? ==> r == 0
    ensures i.Some? && 0.0 <= i.value < TwoTo31 as real ==> r == i.value.Floor
    ensures i.Some? && -(TwoTo31 as real) < i.value < 1.0 ==> r == 0
  {
    if i.None? then 0
    else
      var w := Wrap32(TruncateReal(i.value));
      if w < 0 then 0 else w
  }

  /** A change-only setter applied twice announces nothing the second time. */
  lemma IndexValueStable(i: Option<real>)
    ensures IndexValue(Some(IndexValue(i) as real)) == IndexValue(i)
  {
  }

  /** The settings every store starts with. */
  const InitialSettings: seq<Prop> := [Prop("pitch", Num(1.0)), Prop("volume", Num(1.0))]

  class Store {
    /** True for the app/main_00.js store, whose updateSettings ignores non-objects. */
    const guarded: bool
    var appState: string
    var settings: seq<Prop>
    var currentIndex: nat
    var outbox: seq<Notice>

    constructor (guarded: bool)
      ensures this.guarded == guarded
      ensures appState == "init" && settings == InitialSettings && currentIndex == 0 && outbox == []
    {
      this.guarded := guarded;
      appState := "init";
      settings := InitialSettings;
      currentIndex := 0;
      outbox := [];
    }

    /**
     * `{ ...settings, ...patch }`, then SETTINGS_CHANGED. The guarded store
     * drops a falsy or non-object patch without announcing anything; the
     * unguarded one spreads it (adding nothing) and still announces.
     */
    method UpdateSettings(patch: Json)
      modifies this`settings, this`outbox
      ensures guarded && !(Truthy(patch) && patch.Obj?) ==> settings == old(settings) && outbox == old(outbox)
      ensures !(guarded && !(Truthy(patch) && patch.Obj?)) ==>
        settings == Spread(old(settings), patch) && outbox == old(outbox) + [SettingsChanged(settings)]
      ensures patch.Obj? && Distinct(patch.props) ==> forall k ::
        Get(settings, k) == if k in Keys(patch.props) then Get(patch.props, k) else Get(old(settings), k)
    {
      if guarded && !(Truthy(patch) && patch.Obj?) {
        return;
      }
      settings := Spread(settings, patch);
      outbox := outbox + [SettingsChanged(settings)];
      forall k | patch.Obj? && Distinct(patch.props)
        ensures Get(settings, k) == if k in Keys(patch.props) then Get(patch.props, k) else Get(old(settings), k)
      {
        GetSpread(old(settings), patch, k);
      }
    }

    /** `{ ...defaults }`: the settings are replaced wholesale and announced. */
    method ResetSettings(defaults: Json)
      modifies this`settings, this`outbox
      ensures settings == Spread([], defaults)
      ensures outbox == old(outbox) + [SettingsChanged(settings)]
      ensures defaults.Obj? && Distinct(defaults.props) ==> forall k :: Get(settings, k) == Get(defaults.props, k)
    {
      settings := Spread([], defaults);
      outbox := outbox + [SettingsChanged(settings)];
      forall k | defaults.Obj? && Distinct(defaults.props)
        ensures Get(settings, k) == Get(defaults.props, k)
      {
        GetSpread([], defaults, k);
      }
    }

    /** The appState is assigned and APP_STATE emitted only when it changes. */
    method SetAppState(next: string)
      modifies this`appState, this`outbox
      ensures appState == next
      ensures outbox == if old(appState) == next then old(outbox) else old(outbox) + [AppStateChanged(next)]
    {
      if appState != next {
        appState := next;
        outbox := outbox + [AppStateChanged(next)];
      }
    }

    /** The index becomes IndexValue(i); PLAYBACK_INDEX is emitted only on a change. */
    method SetCurrentIndex(i: Option<real>)
      modifies this`currentIndex, this`outbox
      ensures currentIndex == IndexValue(i)
      ensures outbox == if old(currentIndex) == IndexValue(i) then old(outbox) else old(outbox) + [IndexChanged(IndexValue(i))]
    {
      var idx := IndexValue(i);
      if currentIndex != idx {
        currentIndex := idx;
        outbox := outbox + [IndexChanged(idx)];
      }
    }

    /**
     * loadSettings: what local storage held (Null when nothing, storage off or
     * unparsable) is spread over the settings when truthy, then announced.
     */
    method LoadSettings(loaded: Json) returns (r: seq<Prop>)
      modifies this`settings, this`outbox
      ensures Truthy(loaded) ==> settings == Spread(old(settings), loaded) && outbox == old(outbox) + [SettingsChanged(settings)]
      ensures !Truthy(loaded) ==> settings == old(settings) && outbox == old(outbox)
      ensures r == settings
    {
      if Truthy(loaded) {
        settings := Spread(settings, loaded);
        outbox := outbox + [SettingsChanged(settings)];
      }
      r := settings;
    }
  }
}
