/**
 * The callback-driven playback of script/script_05.js: `togglePlay`,
 * `playSequence` and `stopPlayback` over the global `state`. Each call of
 * `playSequence` handles one item and leaves one pending callback: the
 * delay timer that calls `playSequence` again, the 100 ms timer that
 * speaks the utterance, or the utterance's `onend`, which advances the
 * cursor only while playing.
 */
module PlaybackCallback {
  import opened Sequencing

  /** The pending callback, if any. */
  datatype Phase = Idle | DelayTimer | SpeakTimer(text: string) | Speaking(text: string)

  /** `setting` is `Number(repeatSelect.value) || 1`. */
  datatype State = State(app: AppState, index: nat, queue: seq<string>, repeats: int, setting: int, phase: Phase, trace: seq<Effect>)

  /** A pending utterance is always the current, non-empty item. */
  predicate Inv(s: State) {
    (s.phase.SpeakTimer? || s.phase.Speaking?) ==> s.index < |s.queue| && s.queue[s.index] == s.phase.text && s.phase.text != ""
  }

  /** `stopPlayback`: cancel speech, ready, cursor and queue cleared, repeats from the select. */
  function Stopped(s: State): (r: State)
    ensures r.app == Ready && r.index == 0 && r.queue == [] && r.repeats == s.setting
    ensures r.phase == s.phase && r.trace == s.trace + [Cancel]
  {
    s.(app := Ready, index := 0, queue := [], repeats := s.setting, trace := s.trace + [Cancel])
  }

  /** The item at the cursor: a non-empty value is deferred to the speak timer, anything else advances and waits. */
  function Take(t: State): (r: State)
    ensures Inv(r)
    ensures r.app == t.app && r.queue == t.queue && r.repeats == t.repeats && r.setting == t.setting
    ensures t.index < |t.queue| && t.queue[t.index] != "" ==> r.phase == SpeakTimer(t.queue[t.index]) && r.index == t.index && r.trace == t.trace
    ensures !(t.index < |t.queue| && t.queue[t.index] != "") ==> r.phase == DelayTimer && r.index == t.index + 1 && r.trace == t.trace + [Wait]
  {
    if t.index < |t.queue| && t.queue[t.index] != "" then t.(phase := SpeakTimer(t.queue[t.index]))
    else t.(index := t.index + 1, phase := DelayTimer, trace := t.trace + [Wait])
  }

  /** One call of `playSequence`. */
  function Sequence(s: State): (r: State)
    ensures Inv(r)
    ensures s.app != Playing ==> r == s.(phase := Idle)
  {
    if s.app != Playing then s.(phase := Idle)
    else if s.index >= |s.queue| && s.repeats <= 1 then Stopped(s).(phase := Idle)
    else if s.index >= |s.queue| then Take(s.(repeats := s.repeats - 1, index := 0))
    else Take(s)
  }

  /** The pending callback runs. */
  function Fire(s: State): (r: State)
    ensures Inv(s) ==> Inv(r)
  {
    match s.phase
    case Idle => s
    case DelayTimer => Sequence(s)
    case SpeakTimer(text) =>
      if s.app == Playing then s.(phase := Speaking(text), trace := s.trace + [Speak(text)])
      else s.(phase := Idle)
    case Speaking(_) =>
      if s.app == Playing then s.(index := s.index + 1, phase := DelayTimer, trace := s.trace + [Wait])
      else s.(phase := Idle)
  }

  function Rank(p: Phase): nat {
    match p
    case Idle => 0
    case Speaking(_) => 0
    case SpeakTimer(_) => 1
    case DelayTimer => 2
  }

  /** The callbacks left to themselves: each runs in turn, with no command in between. */
  function Run(s: State): (r: State)
    requires Inv(s)
    ensures r.phase == Idle
    decreases if s.phase.Idle? then 0 else 1, if s.repeats > 0 then s.repeats else 0,
      if s.index < |s.queue| then |s.queue| - s.index else 0, Rank(s.phase)
  {
    if s.phase.Idle? then s else Run(Fire(s))
  }

  /** `togglePlay` from any state other than playing or paused: a fresh run over the selection. */
  function Fresh(s: State, selected: seq<string>): (r: State)
    ensures Inv(r)
  {
    Sequence(s.(repeats := s.setting, queue := selected, index := 0, app := Playing))
  }

  /** `togglePlay`: playing pauses with a cancel, paused resumes at the cursor, anything else starts afresh. */
  function Toggle(s: State, selected: seq<string>): (r: State)
    ensures s.app == Playing ==> r == s.(app := Paused, trace := s.trace + [Cancel])
    ensures s.app == Paused ==> r == Sequence(s.(app := Playing))
    ensures s.app != Playing && s.app != Paused ==> r == Fresh(s, selected)
  {
    if s.app == Playing then s.(app := Paused, trace := s.trace + [Cancel])
    else if s.app == Paused then Sequence(s.(app := Playing))
    else Fresh(s, selected)
  }

  lemma TakeRuns(t: State)
    requires t.app == Playing
    ensures Run(Take(t)) == Run(Sequence(t.(index := t.index + 1, phase := DelayTimer, trace := t.trace + Item(t.queue, t.index))))
  {
    var d := t.(index := t.index + 1, phase := DelayTimer, trace := t.trace + Item(t.queue, t.index));
    if t.index < |t.queue| && t.queue[t.index] != "" {
      var v := t.queue[t.index];
      var p := t.(phase := Speaking(v), trace := t.trace + [Speak(v)]);
      assert Fire(Take(t)) == p;
      assert t.trace + [Speak(v)] + [Wait] == t.trace + Item(t.queue, t.index);
      assert Fire(p) == d;
      assert Run(Take(t)) == Run(p);
      assert Run(p) == Run(d);
    }
    assert Fire(d) == Sequence(d);
    assert Run(d) == Run(Sequence(d));
  }

  /** `stopPlayback` leaves nothing of the state it stopped but the repeat setting. */
  lemma StoppedRetrace(a: State, b: State, tr: seq<Effect>)
    requires a.setting == b.setting
    ensures Stopped(a).(phase := Idle, trace := tr) == Stopped(b).(phase := Idle, trace := tr)
  {
  }

  /** The chain one item further: wrapped first at the end of the queue, then past the item at the cursor with its effects. */
  function Advanced(s: State): State
    requires s.index < |s.queue| || s.repeats > 1
  {
    var t := if s.index >= |s.queue| then s.(repeats := s.repeats - 1, index := 0) else s;
    t.(index := t.index + 1, phase := DelayTimer, trace := t.trace + Item(t.queue, t.index))
  }

  /** A call of `playSequence` that does not stop runs on as the call one item further, and the reference run agrees. */
  lemma SequenceAdvances(s: State)
    requires s.app == Playing && (s.index < |s.queue| || s.repeats > 1)
    ensures Run(Sequence(s)) == Run(Sequence(Advanced(s)))
    ensures Advanced(s).app == Playing && Advanced(s).queue == s.queue && Advanced(s).setting == s.setting
    ensures s.trace + Total(s.queue, s.index, s.repeats) == Advanced(s).trace + Total(s.queue, Advanced(s).index, Advanced(s).repeats)
  {
    var q := s.queue;
    var t: State;
    if s.index >= |q| {
      t := s.(repeats := s.repeats - 1, index := 0);
    } else {
      t := s;
    }
    var d := t.(index := t.index + 1, phase := DelayTimer, trace := t.trace + Item(q, t.index));
    assert Advanced(s) == d;
    assert Sequence(s) == Take(t);
    TakeRuns(t);
    TotalStep(q, s.index, s.repeats);
    assert Total(q, s.index, s.repeats) == Item(q, t.index) + Total(q, d.index, d.repeats);
    AppendTwice(s.trace, Item(q, t.index), Total(q, d.index, d.repeats));
  }

  /** Callbacks left to themselves follow the reference run from the cursor, then stop playback. */
  lemma {:induction false} RunFromSequence(s: State)
    requires s.app == Playing
    ensures Run(Sequence(s)) == Stopped(s).(phase := Idle, trace := s.trace + Total(s.queue, s.index, s.repeats) + [Cancel])
    decreases if s.repeats > 0 then s.repeats else 0, if s.index < |s.queue| then |s.queue| - s.index else 0
  {
    if s.index >= |s.queue| && s.repeats <= 1 {
      assert Total(s.queue, s.index, s.repeats) == [];
    } else {
      var d := Advanced(s);
      SequenceAdvances(s);
      RunFromSequence(d);
      StoppedRetrace(d, s, s.trace + Total(s.queue, s.index, s.repeats) + [Cancel]);
    }
  }

  /**
   * A fresh run left uninterrupted speaks the non-empty selected values in
   * order, once per pass, in `max(r, 1)` passes, and ends through `stopPlayback`.
   */
  lemma UninterruptedRun(s: State, selected: seq<string>)
    ensures Run(Fresh(s, selected)) == s.(app := Ready, index := 0, queue := [], repeats := s.setting, phase := Idle,
      trace := s.trace + Total(selected, 0, s.setting) + [Cancel])
    ensures Spoken(Run(Fresh(s, selected)).trace) == Spoken(s.trace) + Repeat(NonEmpty(selected), Passes(s.setting))
  {
    RunFromSequence(s.(repeats := s.setting, queue := selected, index := 0, app := Playing));
    var tot := Total(selected, 0, s.setting);
    SpokenConcat(s.trace, tot + [Cancel]);
    SpokenConcat(tot, [Cancel]);
    assert s.trace + tot + [Cancel] == s.trace + (tot + [Cancel]);
    TotalSpeaksPasses(selected, s.setting);
  }

  /**
   * The cursor only advances in `onend` while playing: a pause at any
   * pending callback leaves the current item, and the toggle back
   * re-speaks it.
   */
  lemma PauseKeepsInterruptedItem(s: State, selected: seq<string>)
    requires s.app == Playing && Inv(s) && (s.phase.SpeakTimer? || s.phase.Speaking?)
    ensures Fire(Toggle(s, selected)) == s.(app := Paused, phase := Idle, trace := s.trace + [Cancel])
    ensures Toggle(Fire(Toggle(s, selected)), selected) == s.(phase := SpeakTimer(s.queue[s.index]), trace := s.trace + [Cancel])
  {
  }

  /** `stopPlayback` resets from any state, and a pending callback then ends the chain without effect. */
  lemma StopQuiesces(s: State)
    ensures Stopped(s).app == Ready && Stopped(s).index == 0 && Stopped(s).queue == [] && Stopped(s).repeats == s.setting
    ensures Fire(Stopped(s)) == Stopped(s).(phase := Idle)
  {
  }

  /** The global playback state of script/script_05.js; the fields mirror `State`. */
  class Playback {
    var app: AppState
    var index: nat
    var queue: seq<string>
    var repeats: int
    var setting: int
    var phase: Phase
    var trace: seq<Effect>

    function Snapshot(): State
      reads this
    {
      State(app, index, queue, repeats, setting, phase, trace)
    }

    constructor (setting: int)
      ensures Snapshot() == State(Init, 0, [], 1, setting, Idle, [])
    {
      this.setting := setting;
      app, index, queue, repeats, phase, trace := Init, 0, [], 1, Idle, [];
    }

    method StopPlayback()
      modifies this
      ensures Snapshot() == Stopped(old(Snapshot()))
    {
      trace := trace + [Cancel];
      app := Ready;
      index := 0;
      queue := [];
      repeats := setting;
    }

    method PlaySequence()
      modifies this
      ensures Snapshot() == Sequence(old(Snapshot()))
    {
      if app != Playing {
        phase := Idle;
        return;
      }
      if index >= |queue| {
        if repeats > 1 {
          repeats := repeats - 1;
          index := 0;
        } else {
          StopPlayback();
          phase := Idle;
          return;
        }
      }
      if !(index < |queue| && queue[index] != "") {
        index := index + 1;
        trace := trace + [Wait];
        phase := DelayTimer;
        return;
      }
      phase := SpeakTimer(queue[index]);
    }

    /** The pending timer or `onend` callback runs. */
    method FireCallback()
      modifies this
      ensures Snapshot() == Fire(old(Snapshot()))
    {
      match phase
      case Idle =>
      case DelayTimer =>
        PlaySequence();
      case SpeakTimer(text) =>
        if app == Playing {
          trace := trace + [Speak(text)];
          phase := Speaking(text);
        } else {
          phase := Idle;
        }
      case Speaking(_) =>
        if app == Playing {
          index := index + 1;
          trace := trace + [Wait];
          phase := DelayTimer;
        } else {
          phase := Idle;
        }
    }

    /** A toggle that calls `playSequence` needs no callback to be pending. */
    method TogglePlay(selected: seq<string>)
      requires app == Playing || phase == Idle
      modifies this
      ensures Snapshot() == Toggle(old(Snapshot()), selected)
    {
      if app == Playing {
        trace := trace + [Cancel];
        app := Paused;
        return;
      }
      if app != Paused {
        repeats := setting;
        queue := selected;
        index := 0;
      }
      app := Playing;
      PlaySequence();
    }

    method OnRepeatSelect(repeat: int)
      modifies this
      ensures Snapshot() == old(Snapshot()).(setting := repeat)
    {
      setting := repeat;
    }
  }
}
