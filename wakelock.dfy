/**
 * The screen wake lock (modules/wakelock.js, and the same state machine in
 * `createWakeLock` of app/main.js): a lock is held or not. Whether the
 * browser has the capability and whether it grants a request are
 * parameters of the request. `createWakeLock` of app/main_00.js requests
 * and releases the same way, but its visibility handler answers a visible
 * page with an `APP_STATE` "resume-visibility" event instead of a request.
 */
module WakeLock {
  /** Whether a lock is held after `request()`. */
  function AfterRequest(held: bool, supported: bool, granted: bool): (r: bool)
    ensures held ==> r
    ensures !held ==> (r <==> supported && granted)
  {
    if supported && !held then granted else held
  }

  /** Whether a lock is held after the visibility handler runs. */
  function AfterVisibility(held: bool, visible: bool, playing: bool, supported: bool, granted: bool): (r: bool)
    ensures !visible ==> !r
    ensures visible && !playing ==> r == held
    ensures visible && playing ==> r == AfterRequest(held, supported, granted)
  {
    if !visible then false
    else if playing then AfterRequest(held, supported, granted)
    else held
  }

  /** The `APP_STATE` listener of app/main.js and app/main_00.js: "playing" requests the lock, any other state releases it. */
  function AfterAppState(held: bool, playing: bool, supported: bool, granted: bool): (r: bool)
    ensures !playing ==> !r
    ensures playing ==> r == AfterRequest(held, supported, granted)
  {
    if playing then AfterRequest(held, supported, granted) else false
  }

  /**
   * The visibility handler of app/main_00.js: hiding releases the lock;
   * showing emits "resume-visibility", which the `APP_STATE` listener
   * answers with a release as well.
   */
  function AfterVisibilityEvent(held: bool, visible: bool, supported: bool, granted: bool): (r: bool)
    ensures !r
  {
    if visible then AfterAppState(held, false, supported, granted) else false
  }

  /** Showing the page during playback keeps a granted lock in app/main.js and loses it in app/main_00.js. */
  lemma ShowWhilePlayingDiffers(held: bool, supported: bool, granted: bool)
    requires supported && granted
    ensures AfterVisibility(held, true, true, supported, granted)
    ensures !AfterVisibilityEvent(held, true, supported, granted)
  {
  }

  /** Hiding the page and showing it again re-acquires the lock only while playing. */
  lemma HideThenShow(held: bool, playing: bool, supported: bool, granted: bool)
    ensures AfterVisibility(AfterVisibility(held, false, playing, supported, granted), true, playing, supported, granted)
      == (playing && supported && granted)
  {
  }

  /**
   * `request()` of app/main.js across its await: `current` is
   * `this.wakeLock`, `pending` counts the requests still waiting for the
   * browser, sentinels are numbered in the order they are granted, and
   * `open` holds those granted and not yet released.
   */
  datatype Sentinels = Sentinels(hasCurrent: bool, current: nat, pending: nat, granted: nat, open: set<nat>)

  const NoSentinel := Sentinels(false, 0, 0, 0, {})

  /**
   * A call of `request()` up to its await. As written (`guardPending`
   * false) only `this.wakeLock` is checked, so a second call made while
   * the first is still waiting asks the browser again.
   */
  function BeginRequest(s: Sentinels, guardPending: bool): (r: Sentinels)
    ensures r.hasCurrent == s.hasCurrent && r.current == s.current && r.granted == s.granted && r.open == s.open
    ensures !s.hasCurrent && !(guardPending && s.pending > 0) ==> r.pending == s.pending + 1
    ensures s.hasCurrent || (guardPending && s.pending > 0) ==> r.pending == s.pending
  {
    if !s.hasCurrent && !(guardPending && s.pending > 0) then s.(pending := s.pending + 1) else s
  }

  /** The browser grants a waiting request: the new sentinel becomes `this.wakeLock`. */
  function CompleteRequest(s: Sentinels): (r: Sentinels)
    requires s.pending > 0
    ensures r.hasCurrent && r.current == s.granted && r.pending == s.pending - 1
    ensures r.granted == s.granted + 1 && r.open == s.open + {s.granted}
  {
    s.(hasCurrent := true, current := s.granted, pending := s.pending - 1, granted := s.granted + 1, open := s.open + {s.granted})
  }

  /** `release()`: only the sentinel in `this.wakeLock` is released. */
  function ReleaseSentinel(s: Sentinels): (r: Sentinels)
    ensures !r.hasCurrent && r.pending == s.pending && r.granted == s.granted
    ensures s.hasCurrent ==> r.open == s.open - {s.current}
    ensures !s.hasCurrent ==> r.open == s.open
  {
    if s.hasCurrent then s.(hasCurrent := false, open := s.open - {s.current}) else s
  }

  /**
   * `setAppStateDirect("playing")` in app/main.js calls `request()` twice
   * before either await completes; once both are granted, the release
   * that follows leaves the first sentinel held.
   */
  lemma DoubleRequestLeaks()
    ensures var b := BeginRequest(BeginRequest(NoSentinel, false), false);
      b.pending == 2 && ReleaseSentinel(CompleteRequest(CompleteRequest(b))).open == {0}
  {
    var b := BeginRequest(BeginRequest(NoSentinel, false), false);
    var c := CompleteRequest(CompleteRequest(b));
    assert c.current == 1 && c.open == {0, 1};
    assert ReleaseSentinel(c).open == {0, 1} - {1};
  }

  /** At most one request is in flight, and the only open sentinel is the current one. */
  predicate OneSentinel(s: Sentinels) {
    s.pending <= 1 && (s.pending == 1 ==> !s.hasCurrent)
    && s.open == (if s.hasCurrent then {s.current} else {})
  }

  /** With a request guarded by the pending one, every step keeps at most one sentinel open, and a release closes it. */
  lemma GuardedRequestKeepsOne(s: Sentinels)
    requires OneSentinel(s)
    ensures OneSentinel(BeginRequest(s, true))
    ensures s.pending > 0 ==> OneSentinel(CompleteRequest(s))
    ensures OneSentinel(ReleaseSentinel(s)) && ReleaseSentinel(s).open == {}
  {
  }

  class WakeLock {
    var held: bool

    constructor ()
      ensures !held
    {
      held := false;
    }

    /**
     * request: only with the capability and no lock held; a rejected request
     * leaves the lock unheld. Returns whether a lock is held afterwards
     * (app/main_00.js returns `!!wakeLock`).
     */
    method Request(supported: bool, granted: bool) returns (ok: bool)
      modifies this
      ensures held == AfterRequest(old(held), supported, granted)
      ensures ok == held
    {
      if supported && !held {
        held := granted;
      }
      ok := held;
    }

    /** release: always leaves the lock unheld; a no-op when nothing is held. */
    method Release()
      modifies this
      ensures !held
    {
      if held {
        held := false;
      }
    }

    /** The `APP_STATE` listener installed by `init`. */
    method OnAppState(appState: string, supported: bool, granted: bool)
      modifies this
      ensures held == AfterAppState(old(held), appState == "playing", supported, granted)
    {
      if appState == "playing" {
        var _ := Request(supported, granted);
      } else {
        Release();
      }
    }

    /** The visibilitychange handler of app/main_00.js, with the event it emits delivered to `OnAppState`. */
    method OnVisibilityEvent(visible: bool, supported: bool, granted: bool)
      modifies this
      ensures held == AfterVisibilityEvent(old(held), visible, supported, granted)
    {
      if visible {
        OnAppState("resume-visibility", supported, granted);
      } else {
        Release();
      }
    }

    /** The visibilitychange handler installed by `init`. */
    method OnVisibilityChange(visible: bool, appState: string, supported: bool, granted: bool)
      modifies this
      ensures held == AfterVisibility(old(held), visible, appState == "playing", supported, granted)
    {
      if visible {
        if appState == "playing" {
          var _ := Request(supported, granted);
        }
      } else {
        Release();
      }
    }
  }
}
