/**
 * `Playback` of script/script_09.js and `Speech` of modules/speech.js: a
 * shared `state` record (`appState`, `currentIndex`, `playQueue`,
 * `repeatsRemaining`) mutated by `togglePlay`, `stopPlayback` and the
 * async `playSequence` loop, which first awaits the wake-lock request.
 *
 * The loop is cut at its suspension points: `Locking` is the await on
 * the wake-lock request, `Speaking` the await on the speech of the item at
 * the cursor, `Delaying` the await on the delay. In modules/speech.js
 * (`SpeechModule`) an utterance made while `window.userActivated` is falsy
 * is never spoken and its promise never settles: the loop is `Stalled`
 * for good, after the cancel `speakUtterance` makes before its check.
 * `Speak` stands for the cancel-then-speak of `speakUtterance`.
 */
module PlaybackShared {
  import opened Sequencing

  datatype Revision = Script09 | SpeechModule

  datatype Phase = Idle | Locking | Speaking | Delaying | Stalled

  /** `setting` is `safeNumber(repeatSelect.value, 1)`. */
  datatype State = State(app: AppState, index: nat, queue: seq<string>, repeats: int, setting: int, phase: Phase, trace: seq<Effect>)

  /** Whether an utterance is actually spoken. */
  predicate Utters(rv: Revision, activated: bool) {
    rv == Script09 || activated
  }

  /** A loop that will never run again: ended, or waiting on a promise that never settles. */
  predicate Dormant(p: Phase) {
    p == Idle || p == Stalled
  }

  /** A suspended speech await is always on the current, non-empty item. */
  predicate Inv(s: State) {
    s.phase == Speaking ==> s.index < |s.queue| && s.queue[s.index] != ""
  }

  /** `stopPlayback`: cancel speech, ready, cursor and queue cleared, repeats from the select, wake lock released. */
  function Stopped(s: State): (r: State)
    ensures r.app == Ready && r.index == 0 && r.queue == [] && r.repeats == s.setting && r.setting == s.setting
    ensures r.phase == s.phase && r.trace == s.trace + [Cancel, LockOff]
  {
    s.(app := Ready, index := 0, queue := [], repeats := s.setting, trace := s.trace + [Cancel, LockOff])
  }

  /** The item at the cursor: a non-empty value is spoken, anything else advances the cursor and waits. */
  function Take(t: State, rv: Revision, activated: bool): (r: State)
    ensures Inv(r)
    ensures r.app == t.app && r.queue == t.queue && r.repeats == t.repeats && r.setting == t.setting
    ensures t.index < |t.queue| && t.queue[t.index] != "" && Utters(rv, activated) ==> r.phase == Speaking && r.index == t.index && r.trace == t.trace + [Speak(t.queue[t.index])]
    ensures t.index < |t.queue| && t.queue[t.index] != "" && !Utters(rv, activated) ==> r.phase == Stalled && r.index == t.index && r.trace == t.trace + [Cancel]
    ensures !(t.index < |t.queue| && t.queue[t.index] != "") ==> r.phase == Delaying && r.index == t.index + 1 && r.trace == t.trace + [Wait]
  {
    if t.index < |t.queue| && t.queue[t.index] != "" then
      if Utters(rv, activated) then t.(phase := Speaking, trace := t.trace + [Speak(t.queue[t.index])])
      else t.(phase := Stalled, trace := t.trace + [Cancel])
    else t.(index := t.index + 1, phase := Delaying, trace := t.trace + [Wait])
  }

  /** The top of the `while` loop: wrap or stop at the end of the queue, then take the item. */
  function Top(s: State, rv: Revision, activated: bool): (r: State)
    ensures Inv(r)
    ensures s.app != Playing ==> r == s.(phase := Idle)
    ensures Utters(rv, activated) ==> r.phase != Stalled
  {
    if s.app != Playing then s.(phase := Idle)
    else if s.index >= |s.queue| && s.repeats <= 1 then Stopped(s).(phase := Idle)
    else if s.index >= |s.queue| then Take(s.(repeats := s.repeats - 1, index := 0), rv, activated)
    else Take(s, rv, activated)
  }

  /** The pending await completes; a stalled one never does. */
  function Step(s: State, rv: Revision, activated: bool): (r: State)
    ensures Inv(s) ==> Inv(r)
    ensures Utters(rv, activated) && s.phase != Stalled ==> r.phase != Stalled
  {
    match s.phase
    case Idle => s
    case Stalled => s
    case Speaking =>
      if s.app != Playing then s.(phase := Idle)
      else s.(index := s.index + 1, phase := Delaying, trace := s.trace + [Wait])
    case Locking => Top(s, rv, activated)
    case Delaying => Top(s, rv, activated)
  }

  function Rank(p: Phase): nat {
    if p.Delaying? || p.Locking? then 1 else 0
  }

  /** The loop left to itself while utterances are spoken: every await completes in turn. */
  function Run(s: State, rv: Revision, activated: bool): (r: State)
    requires Inv(s) && Utters(rv, activated) && s.phase != Stalled
    ensures r.phase == Idle
    decreases if s.phase.Idle? then 0 else 1, if s.repeats > 0 then s.repeats else 0,
      if s.index < |s.queue| then |s.queue| - s.index else 0, Rank(s.phase)
  {
    if s.phase.Idle? then s else Run(Step(s, rv, activated), rv, activated)
  }

  /** `playSequence` is called: the wake-lock request is awaited first. */
  function Launch(s: State): (r: State)
    ensures r.phase == Locking && r.trace == s.trace + [LockOn]
  {
    s.(phase := Locking, trace := s.trace + [LockOn])
  }

  /** `togglePlay` from any state other than playing or paused: a fresh run over the selection. */
  function Fresh(s: State, selected: seq<string>): (r: State)
    ensures r.app == Playing && r.index == 0 && r.queue == selected && r.repeats == s.setting && r.phase == Locking
  {
    Launch(s.(repeats := s.setting, queue := selected, index := 0, app := Playing))
  }

  /** `togglePlay`: playing pauses with a cancel, paused resumes with a new loop, anything else starts afresh. */
  function Toggle(s: State, selected: seq<string>): (r: State)
    ensures s.app == Playing ==> r == s.(app := Paused, trace := s.trace + [Cancel])
    ensures s.app == Paused ==> r == Launch(s.(app := Playing))
    ensures s.app != Playing && s.app != Paused ==> r == Fresh(s, selected)
  {
    if s.app == Playing then s.(app := Paused, trace := s.trace + [Cancel])
    else if s.app == Paused then Launch(s.(app := Playing))
    else Fresh(s, selected)
  }

  lemma TakeRuns(t: State, rv: Revision, activated: bool)
    requires t.app == Playing && Utters(rv, activated)
    ensures Run(Take(t, rv, activated), rv, activated)
      == Run(Top(t.(index := t.index + 1, phase := Delaying, trace := t.trace + Item(t.queue, t.index)), rv, activated), rv, activated)
  {
    var d := t.(index := t.index + 1, phase := Delaying, trace := t.trace + Item(t.queue, t.index));
    if t.index < |t.queue| && t.queue[t.index] != "" {
      assert Step(Take(t, rv, activated), rv, activated) == d;
    }
    assert Step(d, rv, activated) == Top(d, rv, activated);
  }

  /** `stopPlayback` leaves nothing of the state it stopped but the repeat setting. */
  lemma StoppedRetrace(a: State, b: State, tr: seq<Effect>)
    requires a.setting == b.setting
    ensures Stopped(a).(phase := Idle, trace := tr) == Stopped(b).(phase := Idle, trace := tr)
  {
  }

  /** The loop one item further: wrapped first at the end of the queue, then past the item at the cursor with its effects. */
  function Advanced(s: State): State
    requires s.index < |s.queue| || s.repeats > 1
  {
    var t := if s.index >= |s.queue| then s.(repeats := s.repeats - 1, index := 0) else s;
    t.(index := t.index + 1, phase := Delaying, trace := t.trace + Item(t.queue, t.index))
  }

  /** A loop top that does not stop runs on as the loop top one item further, and the reference run agrees. */
  lemma TopAdvances(s: State, rv: Revision, activated: bool)
    requires s.app == Playing && Utters(rv, activated) && (s.index < |s.queue| || s.repeats > 1)
    ensures Run(Top(s, rv, activated), rv, activated) == Run(Top(Advanced(s), rv, activated), rv, activated)
    ensures Advanced(s).app == Playing && Advanced(s).queue == s.queue && Advanced(s).setting == s.setting
    ensures s.trace + Total(s.queue, s.index, s.repeats) == Advanced(s).trace + Total(s.queue, Advanced(s).index, Advanced(s).repeats)
  {
    var q := s.queue;
    var t: State;
    if s.index >= |q| {
      t := s.(repeats := s.repeats - 1, index := 0);
    } else {
      t := s;
    }
    var d := t.(index := t.index + 1, phase := Delaying, trace := t.trace + Item(q, t.index));
    assert Advanced(s) == d;
    assert Top(s, rv, activated) == Take(t, rv, activated);
    TakeRuns(t, rv, activated);
    TotalStep(q, s.index, s.repeats);
    assert Total(q, s.index, s.repeats) == Item(q, t.index) + Total(q, d.index, d.repeats);
    AppendTwice(s.trace, Item(q, t.index), Total(q, d.index, d.repeats));
  }

  /** An uninterrupted loop from its top follows the reference run, then stops playback. */
  lemma {:induction false} RunFromTop(s: State, rv: Revision, activated: bool)
    requires s.app == Playing && Utters(rv, activated)
    ensures Run(Top(s, rv, activated), rv, activated)
      == Stopped(s).(phase := Idle, trace := s.trace + Total(s.queue, s.index, s.repeats) + [Cancel, LockOff])
    decreases if s.repeats > 0 then s.repeats else 0, if s.index < |s.queue| then |s.queue| - s.index else 0
  {
    if s.index >= |s.queue| && s.repeats <= 1 {
      assert Total(s.queue, s.index, s.repeats) == [];
    } else {
      var d := Advanced(s);
      TopAdvances(s, rv, activated);
      RunFromTop(d, rv, activated);
      StoppedRetrace(d, s, s.trace + Total(s.queue, s.index, s.repeats) + [Cancel, LockOff]);
    }
  }

  /**
   * A fresh run left uninterrupted requests the wake lock, speaks the
   * non-empty selected values in order, once per pass, in `max(r, 1)`
   * passes, and ends through `stopPlayback`.
   */
  lemma UninterruptedRun(s: State, selected: seq<string>, rv: Revision, activated: bool)
    requires Utters(rv, activated)
    ensures Run(Fresh(s, selected), rv, activated) == s.(app := Ready, index := 0, queue := [], repeats := s.setting, phase := Idle,
      trace := s.trace + [LockOn] + Total(selected, 0, s.setting) + [Cancel, LockOff])
    ensures Spoken(Run(Fresh(s, selected), rv, activated).trace) == Spoken(s.trace) + Repeat(NonEmpty(selected), Passes(s.setting))
  {
    var f := Fresh(s, selected);
    assert Step(f, rv, activated) == Top(f, rv, activated);
    RunFromTop(f, rv, activated);
    assert Spoken([Cancel, LockOff]) == [];
    assert Spoken([LockOn]) == [];
    SpokenRun(s.trace, [LockOn], selected, s.setting, [Cancel, LockOff]);
  }

  /** The loop returns at once, without touching the state, when it is not playing after the wake-lock await. */
  lemma NotPlayingAfterLock(s: State, rv: Revision, activated: bool)
    requires s.phase == Locking && s.app != Playing
    ensures Step(s, rv, activated) == s.(phase := Idle)
  {
  }

  /** Pausing during a spoken item ends that loop at the same cursor; the toggle back re-speaks that item. */
  lemma PauseThenResume(s: State, selected: seq<string>, rv: Revision, activated: bool)
    requires s.app == Playing && s.phase == Speaking && Inv(s) && Utters(rv, activated)
    ensures Step(Toggle(s, selected), rv, activated) == s.(app := Paused, phase := Idle, trace := s.trace + [Cancel])
    ensures Step(Toggle(Step(Toggle(s, selected), rv, activated), selected), rv, activated).index == s.index
    ensures Step(Toggle(Step(Toggle(s, selected), rv, activated), selected), rv, activated).trace
      == s.trace + [Cancel, LockOn, Speak(s.queue[s.index])]
  {
  }

  /** In modules/speech.js without user activation the first non-empty item stalls the loop: speech is cancelled and nothing is spoken, for good. */
  lemma StallsWithoutActivation(s: State)
    requires s.app == Playing && s.index < |s.queue| && s.queue[s.index] != ""
    ensures Top(s, SpeechModule, false).phase == Stalled
    ensures Top(s, SpeechModule, false).trace == s.trace + [Cancel]
    ensures forall act :: Step(Top(s, SpeechModule, false), SpeechModule, act) == Top(s, SpeechModule, false)
  {
  }

  /** `stopPlayback` resets from any state, and a loop still suspended then ends without effect. */
  lemma StopQuiesces(s: State, rv: Revision, activated: bool)
    requires s.phase != Stalled
    ensures Stopped(s).app == Ready && Stopped(s).index == 0 && Stopped(s).queue == [] && Stopped(s).repeats == s.setting
    ensures Step(Stopped(s), rv, activated) == Stopped(s).(phase := Idle)
  {
  }

  /** The shared playback state of one revision; the fields mirror `State`. */
  class Playback {
    const rv: Revision
    var app: AppState
    var index: nat
    var queue: seq<string>
    var repeats: int
    var setting: int
    var phase: Phase
    var trace: seq<Effect>

    function Snapshot(): State
      reads this
    {
      State(app, index, queue, repeats, setting, phase, trace)
    }

    constructor (rv: Revision, setting: int)
      ensures this.rv == rv && Snapshot() == State(Init, 0, [], 1, setting, Idle, [])
    {
      this.rv := rv;
      this.setting := setting;
      app, index, queue, repeats, phase, trace := Init, 0, [], 1, Idle, [];
    }

    method StopPlayback()
      modifies this
      ensures Snapshot() == Stopped(old(Snapshot()))
    {
      trace := trace + [Cancel];
      app := Ready;
      index := 0;
      queue := [];
      repeats := setting;
      trace := trace + [LockOff];
    }

    /** The top of the loop, up to the next await or the end of the loop. */
    method LoopTop(activated: bool)
      modifies this
      ensures Snapshot() == Top(old(Snapshot()), rv, activated)
    {
      if app != Playing {
        phase := Idle;
        return;
      }
      if index >= |queue| {
        if repeats > 1 {
          repeats := repeats - 1;
          index := 0;
        } else {
          StopPlayback();
          phase := Idle;
          return;
        }
      }
      if index < |queue| && queue[index] != "" {
        if rv == SpeechModule && !activated {
          trace := trace + [Cancel];
          phase := Stalled;
        } else {
          trace := trace + [Speak(queue[index])];
          phase := Speaking;
        }
      } else {
        index := index + 1;
        trace := trace + [Wait];
        phase := Delaying;
      }
    }

    /** The pending wake-lock request, speech or delay completes. */
    method Wake(activated: bool)
      modifies this
      ensures Snapshot() == Step(old(Snapshot()), rv, activated)
    {
      match phase
      case Idle =>
      case Stalled =>
      case Speaking =>
        if app != Playing {
          phase := Idle;
        } else {
          index := index + 1;
          trace := trace + [Wait];
          phase := Delaying;
        }
      case Locking =>
        LoopTop(activated);
      case Delaying =>
        LoopTop(activated);
    }

    /** A toggle that starts a loop needs the previous loop to be dormant. */
    method TogglePlay(selected: seq<string>)
      requires app == Playing || Dormant(phase)
      modifies this
      ensures Snapshot() == Toggle(old(Snapshot()), selected)
    {
      if app == Playing {
        trace := trace + [Cancel];
        app := Paused;
        return;
      }
      if app != Paused {
        repeats := setting;
        queue := selected;
        index := 0;
      }
      app := Playing;
      trace := trace + [LockOn];
      phase := Locking;
    }

    /** A new value of the repeat select. */
    method OnRepeatSelect(repeat: int)
      modifies this
      ensures Snapshot() == old(Snapshot()).(setting := repeat)
    {
      setting := repeat;
    }
  }
}
