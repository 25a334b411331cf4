/**
 * `createPlayback` of app/main_00.js and app/main.js: the playback loop
 * driven by bus events, over a runtime record (`playQueue`,
 * `repeatsRemaining`) and the cursor `currentIndex`.
 *
 * In app/main_00.js (`BusRevision`) Playback keeps its own
 * `currentAppState`; the store mirrors the index through the
 * `PLAYBACK_INDEX_SET`/`PLAYBACK_INDEX` round trip, and nothing subscribes
 * to `APP_STATE_SET`, so only the command handlers and the `APP_STATE`
 * event change `currentAppState`. In app/main.js (`StoreRevision`) the
 * state lives in the store and `APP_STATE_SET` goes through
 * `setAppStateDirect`, which requests the wake lock for playing and
 * releases it for any other state; when the state changes, the store's
 * `APP_STATE` event reaches the wake lock's own listener first, so the
 * same call is made twice.
 *
 * The async loop is cut at its suspension points: `Speaking(idx)` is the
 * await on the speech of item `idx`, `Delaying` the await on the delay.
 * `Step` is what happens when the pending await completes, up to the next
 * suspension point or the end of the loop.
 */
module PlaybackEvents {
  import opened Sequencing

  datatype Revision = BusRevision | StoreRevision

  datatype Phase = Idle | Speaking(idx: nat) | Delaying

  /** `setting` is `safeNumber` of the repeat setting with fallback 1. */
  datatype State = State(app: AppState, index: nat, queue: seq<string>, repeats: int, setting: int, phase: Phase, trace: seq<Effect>)

  /** A suspended speech await is always on the current, non-empty item. */
  predicate Inv(s: State) {
    s.phase.Speaking? ==> s.phase.idx == s.index && s.index < |s.queue| && s.queue[s.index] != ""
  }

  /** The state after construction: no repeat setting yet, so it counts as 1. */
  function Initial(): (s: State)
    ensures s.app == Init && s.phase == Idle && s.queue == [] && s.trace == [] && s.repeats == 1
  {
    State(Init, 0, [], 1, 1, Idle, [])
  }

  /** The wake-lock effect of `setAppStateDirect(a)` in app/main.js. */
  function LockFor(a: AppState): (e: Effect)
    ensures e == LockOn <==> a == Playing
    ensures e != LockOn ==> e == LockOff
  {
    if a == Playing then LockOn else LockOff
  }

  /**
   * The wake-lock calls of `setAppStateDirect(a)` in app/main.js: the
   * `APP_STATE` listener's when the store's state changes, then its own.
   */
  function DirectLocks(from: AppState, a: AppState): (r: seq<Effect>)
    ensures |r| == (if from != a then 2 else 1)
    ensures forall e :: e in r ==> e == LockFor(a)
  {
    if from != a then [LockFor(a), LockFor(a)] else [LockFor(a)]
  }

  /** Emitting `APP_STATE_SET a`: only app/main.js listens. */
  function SetDirect(s: State, a: AppState, rv: Revision): (r: State)
    ensures rv == BusRevision ==> r == s
    ensures rv == StoreRevision ==> r == s.(app := a, trace := s.trace + DirectLocks(s.app, a))
  {
    if rv == BusRevision then s else s.(app := a, trace := s.trace + DirectLocks(s.app, a))
  }

  /** The wake-lock requests of `PLAYBACK_START` from the state `from`. */
  function Opening(from: AppState, rv: Revision): seq<Effect> {
    if rv == BusRevision then [LockOn] else DirectLocks(from, Playing)
  }

  /** The effects of the finish branch after the loop's own output, the loop having run while playing. */
  function Closing(rv: Revision): seq<Effect> {
    if rv == BusRevision then [LockOff, Finish] else [LockOff, LockOff, LockOff]
  }

  /** The state the finish branch leaves. */
  function FinalApp(s: State, rv: Revision): AppState {
    if rv == BusRevision then s.app else Ready
  }

  /**
   * The finish branch: the runtime is reset and the wake lock released.
   * app/main_00.js emits `PLAYBACK_FINISH` and leaves `currentAppState` as
   * it is; app/main.js sets the store to ready, whose two releases come
   * before the loop's own.
   */
  function Finished(s: State, rv: Revision): (r: State)
    ensures r.phase == Idle && r.index == 0 && r.queue == [] && r.repeats == s.setting && r.setting == s.setting
    ensures r.app == FinalApp(s, rv)
    ensures r.trace == s.trace + (if rv == BusRevision then [LockOff, Finish] else DirectLocks(s.app, Ready) + [LockOff])
    ensures s.app == Playing ==> r.trace == s.trace + Closing(rv)
  {
    var t := SetDirect(s, Ready, rv).(index := 0, queue := [], repeats := s.setting, phase := Idle);
    if rv == BusRevision then t.(trace := t.trace + [LockOff, Finish]) else t.(trace := t.trace + [LockOff])
  }

  /** The item at the cursor: a non-empty value is spoken, anything else advances the cursor and waits. */
  function Take(t: State): (r: State)
    ensures Inv(r)
    ensures r.app == t.app && r.queue == t.queue && r.repeats == t.repeats && r.setting == t.setting
    ensures t.index < |t.queue| && t.queue[t.index] != "" ==> r.phase == Speaking(t.index) && r.index == t.index && r.trace == t.trace + [Speak(t.queue[t.index])]
    ensures !(t.index < |t.queue| && t.queue[t.index] != "") ==> r.phase == Delaying && r.index == t.index + 1 && r.trace == t.trace + [Wait]
  {
    if t.index < |t.queue| && t.queue[t.index] != "" then
      t.(phase := Speaking(t.index), trace := t.trace + [Speak(t.queue[t.index])])
    else t.(index := t.index + 1, phase := Delaying, trace := t.trace + [Wait])
  }

  /** The top of the `while` loop: wrap or finish at the end of the queue, then take the item. */
  function Top(s: State, rv: Revision): (r: State)
    ensures Inv(r)
    ensures s.app != Playing ==> r == s.(phase := Idle)
  {
    if s.app != Playing then s.(phase := Idle)
    else if s.index >= |s.queue| && s.repeats <= 1 then Finished(s, rv)
    else if s.index >= |s.queue| then Take(s.(repeats := s.repeats - 1, index := 0))
    else Take(s)
  }

  /** The pending await completes. */
  function Step(s: State, rv: Revision): (r: State)
    ensures Inv(s) ==> Inv(r)
  {
    match s.phase
    case Idle => s
    case Speaking(idx) =>
      if s.app != Playing then s.(phase := Idle)
      else s.(index := idx + 1, phase := Delaying, trace := s.trace + [Wait])
    case Delaying => Top(s, rv)
  }

  function Rank(p: Phase): nat {
    if p.Delaying? then 1 else 0
  }

  /** The loop left to itself: every await completes in turn, with no command in between. */
  function Run(s: State, rv: Revision): (r: State)
    requires Inv(s)
    ensures r.phase == Idle
    decreases if s.phase.Idle? then 0 else 1, if s.repeats > 0 then s.repeats else 0,
      if s.index < |s.queue| then |s.queue| - s.index else 0, Rank(s.phase)
  {
    if s.phase.Idle? then s else Run(Step(s, rv), rv)
  }

  /** `PLAYBACK_START`: fresh runtime from the selection, wake lock requested, loop started. */
  function OnStart(s: State, selected: seq<string>, rv: Revision): (r: State)
    ensures Inv(r)
  {
    var t := s.(repeats := s.setting, queue := selected, index := 0);
    var u := if rv == BusRevision then t.(app := Playing, trace := t.trace + [LockOn]) else SetDirect(t, Playing, rv);
    Top(u, rv)
  }

  /** `PLAYBACK_RESUME`: back to playing, and a new loop from the current cursor. */
  function OnResume(s: State, rv: Revision): (r: State)
    ensures Inv(r)
  {
    Top(if rv == BusRevision then s.(app := Playing) else SetDirect(s, Playing, rv), rv)
  }

  /** `PLAYBACK_PAUSE`: cancel speech and mark the state paused. */
  function OnPause(s: State, rv: Revision): (r: State)
    ensures r.app == Paused && r.index == s.index && r.queue == s.queue && r.repeats == s.repeats && r.phase == s.phase
    ensures r.trace == s.trace + [Cancel] + (if rv == BusRevision then [] else DirectLocks(s.app, Paused))
    ensures s.app == Playing ==> r.trace == s.trace + (if rv == BusRevision then [Cancel] else [Cancel, LockOff, LockOff])
  {
    var t := s.(trace := s.trace + [Cancel]);
    if rv == BusRevision then t.(app := Paused) else SetDirect(t, Paused, rv)
  }

  /** `PLAYBACK_STOP`: cancel speech, ready, runtime reset, wake lock released. */
  function OnStop(s: State, rv: Revision): (r: State)
    ensures r.app == Ready && r.index == 0 && r.queue == [] && r.repeats == s.setting && r.phase == s.phase
    ensures r.trace == s.trace + [Cancel] + (if rv == BusRevision then [] else DirectLocks(s.app, Ready)) + [LockOff]
    ensures s.app != Ready ==> r.trace == s.trace + (if rv == BusRevision then [Cancel, LockOff] else [Cancel, LockOff, LockOff, LockOff])
  {
    var t := s.(trace := s.trace + [Cancel]);
    var u := if rv == BusRevision then t.(app := Ready) else SetDirect(t, Ready, rv);
    u.(index := 0, queue := [], repeats := s.setting, trace := u.trace + [LockOff])
  }

  /** `PLAYBACK_TOGGLE`, routed by the current application state. */
  function OnToggle(s: State, selected: seq<string>, rv: Revision): State {
    if s.app == Playing then OnPause(s, rv)
    else if s.app == Paused then OnResume(s, rv)
    else OnStart(s, selected, rv)
  }

  /** Toggle pauses exactly while playing, resumes exactly while paused, and starts afresh otherwise. */
  lemma ToggleRoutes(s: State, selected: seq<string>, rv: Revision)
    ensures s.app == Playing ==> OnToggle(s, selected, rv).app == Paused && OnToggle(s, selected, rv).index == s.index
    ensures s.app == Paused ==> OnToggle(s, selected, rv) == Top(s.(app := Playing, trace := s.trace + (if rv == BusRevision then [] else [LockOn, LockOn])), rv)
    ensures s.app != Playing && s.app != Paused ==> OnToggle(s, selected, rv) == OnStart(s, selected, rv)
  {
  }

  /** Taking an item while playing ends, once its awaits complete, at the top of the loop one item further on. */
  lemma TakeRuns(t: State, rv: Revision)
    requires t.app == Playing
    ensures Run(Take(t), rv) == Run(Top(t.(index := t.index + 1, phase := Delaying, trace := t.trace + Item(t.queue, t.index)), rv), rv)
  {
    var d := t.(index := t.index + 1, phase := Delaying, trace := t.trace + Item(t.queue, t.index));
    if t.index < |t.queue| && t.queue[t.index] != "" {
      assert Step(Take(t), rv) == d;
    }
    assert Step(d, rv) == Top(d, rv);
  }

  /** The state the finish leaves depends only on the application state and the repeat setting, apart from the trace. */
  lemma FinishedRetrace(a: State, b: State, rv: Revision, tr: seq<Effect>)
    requires a.app == b.app && a.setting == b.setting
    ensures Finished(a, rv).(trace := tr) == Finished(b, rv).(trace := tr)
  {
  }

  /** The loop one item further: wrapped first at the end of the queue, then past the item at the cursor with its effects. */
  function Advanced(s: State): State
    requires s.index < |s.queue| || s.repeats > 1
  {
    var t := if s.index >= |s.queue| then s.(repeats := s.repeats - 1, index := 0) else s;
    t.(index := t.index + 1, phase := Delaying, trace := t.trace + Item(t.queue, t.index))
  }

  /** A loop top that does not finish runs on as the loop top one item further, and the reference run agrees. */
  lemma TopAdvances(s: State, rv: Revision)
    requires s.app == Playing && (s.index < |s.queue| || s.repeats > 1)
    ensures Run(Top(s, rv), rv) == Run(Top(Advanced(s), rv), rv)
    ensures Advanced(s).app == Playing && Advanced(s).queue == s.queue && Advanced(s).setting == s.setting
    ensures s.trace + Total(s.queue, s.index, s.repeats) == Advanced(s).trace + Total(s.queue, Advanced(s).index, Advanced(s).repeats)
  {
    var q := s.queue;
    var t: State;
    if s.index >= |q| {
      t := s.(repeats := s.repeats - 1, index := 0);
    } else {
      t := s;
    }
    var d := t.(index := t.index + 1, phase := Delaying, trace := t.trace + Item(q, t.index));
    assert Advanced(s) == d;
    assert Top(s, rv) == Take(t);
    TakeRuns(t, rv);
    TotalStep(q, s.index, s.repeats);
    assert Total(q, s.index, s.repeats) == Item(q, t.index) + Total(q, d.index, d.repeats);
    AppendTwice(s.trace, Item(q, t.index), Total(q, d.index, d.repeats));
  }

  /** An uninterrupted loop from its top follows the reference run, then finishes. */
  lemma {:induction false} RunFromTop(s: State, rv: Revision)
    requires s.app == Playing
    ensures Run(Top(s, rv), rv) == Finished(s, rv).(trace := s.trace + Total(s.queue, s.index, s.repeats) + Closing(rv))
    decreases if s.repeats > 0 then s.repeats else 0, if s.index < |s.queue| then |s.queue| - s.index else 0
  {
    if s.index >= |s.queue| && s.repeats <= 1 {
      assert Total(s.queue, s.index, s.repeats) == [];
    } else {
      var d := Advanced(s);
      TopAdvances(s, rv);
      RunFromTop(d, rv);
      FinishedRetrace(d, s, rv, s.trace + Total(s.queue, s.index, s.repeats) + Closing(rv));
    }
  }

  /**
   * An uninterrupted START speaks the non-empty selected values in order,
   * once per pass, in `max(r, 1)` passes of the repeat setting `r`; then
   * the runtime is reset and the wake lock released.
   */
  lemma UninterruptedRun(s: State, selected: seq<string>, rv: Revision)
    ensures Run(OnStart(s, selected, rv), rv) == s.(app := FinalApp(s.(app := Playing), rv), index := 0, queue := [], repeats := s.setting, phase := Idle,
      trace := s.trace + Opening(s.app, rv) + Total(selected, 0, s.setting) + Closing(rv))
    ensures Spoken(Run(OnStart(s, selected, rv), rv).trace) == Spoken(s.trace) + Repeat(NonEmpty(selected), Passes(s.setting))
  {
    var t := s.(app := Playing, repeats := s.setting, queue := selected, index := 0, trace := s.trace + Opening(s.app, rv));
    assert OnStart(s, selected, rv) == Top(t, rv);
    RunFromTop(t, rv);
    SpokenSilent(Opening(s.app, rv));
    SpokenSilent(Closing(rv));
    SpokenRun(s.trace, Opening(s.app, rv), selected, s.setting, Closing(rv));
  }

  /**
   * In app/main_00.js a finished run leaves `currentAppState` playing, so
   * the next toggle pauses (speaking nothing) instead of starting; in
   * app/main.js the finish sets ready, so the next toggle starts afresh.
   */
  lemma ToggleAfterFinish(s: State, selected: seq<string>, next: seq<string>, rv: Revision)
    ensures rv == BusRevision ==> OnToggle(Run(OnStart(s, selected, rv), rv), next, rv) == OnPause(Run(OnStart(s, selected, rv), rv), rv)
    ensures rv == StoreRevision ==> OnToggle(Run(OnStart(s, selected, rv), rv), next, rv) == OnStart(Run(OnStart(s, selected, rv), rv), next, rv)
  {
    UninterruptedRun(s, selected, rv);
  }

  /** The loop top does not depend on the await it came from. */
  lemma TopIgnoresPhase(s: State, p: Phase, rv: Revision)
    ensures s.app == Playing ==> Top(s.(phase := p), rv) == Top(s, rv)
  {
  }

  /** After a pause during the speech of an item, resume speaks that item again and nothing else. */
  lemma ResumeSpeaksAgain(s: State, rv: Revision)
    requires s.app == Playing && s.phase.Speaking? && Inv(s)
    ensures Spoken(OnResume(OnPause(s, rv).(phase := Idle), rv).trace) == Spoken(s.trace) + [s.queue[s.index]]
  {
    var v := s.queue[s.index];
    var r := OnResume(OnPause(s, rv).(phase := Idle), rv);
    if rv == BusRevision {
      assert r.trace == s.trace + [Cancel] + [Speak(v)];
      assert Spoken([Cancel]) == [];
      SpokenThenSpeak(s.trace, [Cancel], v);
    } else {
      assert r.trace == s.trace + [Cancel, LockOff, LockOff, LockOn, LockOn] + [Speak(v)];
      assert Spoken([Cancel, LockOff, LockOff, LockOn, LockOn]) == [];
      SpokenThenSpeak(s.trace, [Cancel, LockOff, LockOff, LockOn, LockOn], v);
    }
  }

  /** A pause while the loop is suspended ends that loop without advancing; resume re-enters at the same cursor. */
  lemma PauseThenResume(s: State, rv: Revision)
    requires s.app == Playing && s.phase != Idle && Inv(s)
    ensures Step(OnPause(s, rv), rv) == OnPause(s, rv).(phase := Idle)
    ensures Step(OnPause(s, rv), rv).index == s.index
    ensures rv == BusRevision ==> OnResume(Step(OnPause(s, rv), rv), rv) == Top(s.(trace := s.trace + [Cancel]), rv)
    ensures rv == StoreRevision ==> OnResume(Step(OnPause(s, rv), rv), rv) == Top(s.(trace := s.trace + [Cancel, LockOff, LockOff, LockOn, LockOn]), rv)
    ensures s.phase.Speaking? ==> Spoken(OnResume(Step(OnPause(s, rv), rv), rv).trace) == Spoken(s.trace) + [s.queue[s.index]]
  {
    var p := OnPause(s, rv);
    assert Step(p, rv) == p.(phase := Idle);
    var u: State;
    if rv == BusRevision {
      u := s.(trace := s.trace + [Cancel]);
      assert p.(phase := Idle).(app := Playing) == u.(phase := Idle);
    } else {
      u := s.(trace := s.trace + [Cancel, LockOff, LockOff, LockOn, LockOn]);
      assert p.trace == s.trace + [Cancel, LockOff, LockOff];
      assert SetDirect(p.(phase := Idle), Playing, rv) == u.(phase := Idle);
    }
    assert OnResume(p.(phase := Idle), rv) == Top(u.(phase := Idle), rv);
    TopIgnoresPhase(u, Idle, rv);
    if s.phase.Speaking? {
      ResumeSpeaksAgain(s, rv);
    }
  }


  /** Stop resets the runtime from any state, and a loop still suspended then ends without effect. */
  lemma StopQuiesces(s: State, rv: Revision)
    ensures OnStop(s, rv).app == Ready && OnStop(s, rv).index == 0 && OnStop(s, rv).queue == [] && OnStop(s, rv).repeats == s.setting
    ensures Step(OnStop(s, rv), rv) == OnStop(s, rv).(phase := Idle)
  {
  }

  /**
   * A `visibilitychange`. Hiding the page releases the wake lock in both
   * revisions. Showing it: app/main.js requests the lock again while
   * playing; app/main_00.js emits `APP_STATE` "resume-visibility", which the
   * wake lock's listener answers with a release and Playback's listener
   * copies into `currentAppState`.
   */
  function OnVisibility(s: State, visible: bool, rv: Revision): (r: State)
    ensures r.index == s.index && r.queue == s.queue && r.repeats == s.repeats && r.phase == s.phase
    ensures !visible ==> r == s.(trace := s.trace + [LockOff])
    ensures visible && rv == BusRevision ==> r == s.(app := Other, trace := s.trace + [LockOff])
    ensures visible && rv == StoreRevision ==> r.app == s.app && r.trace == s.trace + (if s.app == Playing then [LockOn] else [])
  {
    if !visible then s.(trace := s.trace + [LockOff])
    else if rv == BusRevision then s.(app := Other, trace := s.trace + [LockOff])
    else if s.app == Playing then s.(trace := s.trace + [LockOn])
    else s
  }

  /**
   * In app/main_00.js showing the page during playback ends the loop: its
   * pending await completes without effect, and the next toggle starts a
   * fresh run instead of pausing. In app/main.js the loop goes on.
   */
  lemma ShowingPageEndsBusLoop(s: State, selected: seq<string>)
    requires s.app == Playing && Inv(s)
    ensures Step(OnVisibility(s, true, BusRevision), BusRevision) == OnVisibility(s, true, BusRevision).(phase := Idle) || s.phase == Idle
    ensures OnToggle(OnVisibility(s, true, BusRevision), selected, BusRevision) == OnStart(OnVisibility(s, true, BusRevision), selected, BusRevision)
    ensures OnVisibility(s, true, StoreRevision) == s.(trace := s.trace + [LockOn])
  {
  }

  /** The playback object of one revision; the fields mirror `State`. */
  class Playback {
    const rv: Revision
    var app: AppState
    var index: nat
    var queue: seq<string>
    var repeats: int
    var setting: int
    var phase: Phase
    var trace: seq<Effect>

    function Snapshot(): State
      reads this
    {
      State(app, index, queue, repeats, setting, phase, trace)
    }

    constructor (rv: Revision)
      ensures this.rv == rv && Snapshot() == Initial()
    {
      this.rv := rv;
      app, index, queue, repeats, setting, phase, trace := Init, 0, [], 1, 1, Idle, [];
    }

    /** `APP_STATE_SET a` as the revision handles it. */
    method SetDirectly(a: AppState)
      modifies this
      ensures Snapshot() == SetDirect(old(Snapshot()), a, rv)
    {
      if rv == StoreRevision {
        if app != a {
          trace := trace + [LockFor(a)];
        }
        app := a;
        trace := trace + [LockFor(a)];
      }
    }

    /** The top of the loop, up to the next await or the end of the loop. */
    method LoopTop()
      modifies this
      ensures Snapshot() == Top(old(Snapshot()), rv)
    {
      if app != Playing {
        phase := Idle;
        return;
      }
      if index >= |queue| {
        if repeats > 1 {
          repeats := repeats - 1;
          index := 0;
        } else {
          SetDirectly(Ready);
          queue := [];
          repeats := setting;
          index := 0;
          trace := trace + [LockOff];
          if rv == BusRevision {
            trace := trace + [Finish];
          }
          phase := Idle;
          return;
        }
      }
      if index < |queue| && queue[index] != "" {
        trace := trace + [Speak(queue[index])];
        phase := Speaking(index);
      } else {
        index := index + 1;
        trace := trace + [Wait];
        phase := Delaying;
      }
    }

    /** The pending speech or delay completes. */
    method Wake()
      modifies this
      ensures Snapshot() == Step(old(Snapshot()), rv)
    {
      match phase
      case Idle =>
      case Speaking(idx) =>
        if app != Playing {
          phase := Idle;
        } else {
          index := idx + 1;
          trace := trace + [Wait];
          phase := Delaying;
        }
      case Delaying =>
        LoopTop();
    }

    /** A command that starts a loop needs the previous loop to have ended. */
    method Start(selected: seq<string>)
      requires phase == Idle
      modifies this
      ensures Snapshot() == OnStart(old(Snapshot()), selected, rv)
    {
      repeats := setting;
      queue := selected;
      index := 0;
      if rv == BusRevision {
        app := Playing;
        trace := trace + [LockOn];
      } else {
        SetDirectly(Playing);
      }
      LoopTop();
    }

    method Resume()
      requires phase == Idle
      modifies this
      ensures Snapshot() == OnResume(old(Snapshot()), rv)
    {
      if rv == BusRevision {
        app := Playing;
      } else {
        SetDirectly(Playing);
      }
      LoopTop();
    }

    method Pause()
      modifies this
      ensures Snapshot() == OnPause(old(Snapshot()), rv)
    {
      trace := trace + [Cancel];
      if rv == BusRevision {
        app := Paused;
      } else {
        SetDirectly(Paused);
      }
    }

    method Stop()
      modifies this
      ensures Snapshot() == OnStop(old(Snapshot()), rv)
    {
      trace := trace + [Cancel];
      if rv == BusRevision {
        app := Ready;
      } else {
        SetDirectly(Ready);
      }
      index := 0;
      queue := [];
      repeats := setting;
      trace := trace + [LockOff];
    }

    method Toggle(selected: seq<string>)
      requires app == Playing || phase == Idle
      modifies this
      ensures Snapshot() == OnToggle(old(Snapshot()), selected, rv)
    {
      if app == Playing {
        Pause();
      } else if app == Paused {
        Resume();
      } else {
        Start(selected);
      }
    }

    /** app/main_00.js: the `APP_STATE` subscription sets `currentAppState` and nothing else. */
    method OnAppState(a: AppState)
      requires rv == BusRevision
      modifies this
      ensures Snapshot() == old(Snapshot()).(app := a)
    {
      app := a;
    }

    /** The `visibilitychange` listeners of the wake lock, with Playback's `APP_STATE` listener in app/main_00.js. */
    method OnVisibilityChange(visible: bool)
      modifies this
      ensures Snapshot() == OnVisibility(old(Snapshot()), visible, rv)
    {
      if !visible {
        trace := trace + [LockOff];
      } else if rv == BusRevision {
        app := Other;
        trace := trace + [LockOff];
      } else if app == Playing {
        trace := trace + [LockOn];
      }
    }

    /** A new repeat setting (`SETTINGS_CHANGED` in app/main_00.js, the store's settings in app/main.js). */
    method OnSettings(repeat: int)
      modifies this
      ensures Snapshot() == old(Snapshot()).(setting := repeat)
    {
      setting := repeat;
    }
  }
}
