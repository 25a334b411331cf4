/**
 * The recursive, callback-driven playback of script/script_02.js:
 * `togglePlay`, `playSequence` and `stopPlayback` over the global `state`.
 * `playSequence` wraps by calling itself, speaks every item (there is no
 * check for empty values), defers the speech by 100 ms without checking
 * the state again, and stops playback whenever it runs while not playing.
 */
module PlaybackRecursive {
  import opened Sequencing

  /** The pending callback, if any. */
  datatype Phase = Idle | DelayTimer | SpeakTimer(text: string) | Speaking(text: string)

  /** `setting` is `Number(repeatSelect.value) || 1`. */
  datatype State = State(app: AppState, index: nat, queue: seq<string>, repeats: int, setting: int, phase: Phase, trace: seq<Effect>)

  /** A pending utterance is always the current item. */
  predicate Inv(s: State) {
    (s.phase.SpeakTimer? || s.phase.Speaking?) ==> s.index < |s.queue| && s.queue[s.index] == s.phase.text
  }

  /** Every item from `i` to the end of the queue, spoken and followed by a delay. */
  function Each(q: seq<string>, i: nat): seq<Effect>
    decreases |q| - i
  {
    if i >= |q| then [] else [Speak(q[i]), Wait] + Each(q, i + 1)
  }

  /** The reference run of this revision from cursor `i` with `r` repeats remaining: it wraps while `r > 1`, and speaks empty values too. */
  function Straight(q: seq<string>, i: nat, r: int): seq<Effect>
    decreases if r > 0 then r else 0, if i < |q| then |q| - i else 0
  {
    if i < |q| then [Speak(q[i]), Wait] + Straight(q, i + 1, r)
    else if r > 1 then Straight(q, 0, r - 1)
    else []
  }

  lemma {:induction false} SpokenEach(q: seq<string>, i: nat)
    requires i <= |q|
    ensures Spoken(Each(q, i)) == q[i..]
    decreases |q| - i
  {
    if i < |q| {
      SpokenEach(q, i + 1);
      SpokenConcat([Speak(q[i]), Wait], Each(q, i + 1));
      assert [Speak(q[i]), Wait][1..] == [Wait];
      assert q[i..] == [q[i]] + q[i + 1..];
    } else {
      assert q[i..] == [];
    }
  }

  lemma {:induction false} StraightSplits(q: seq<string>, i: nat, r: int)
    requires i <= |q|
    ensures Straight(q, i, r) == Each(q, i) + Straight(q, |q|, r)
    decreases |q| - i
  {
    if i < |q| {
      StraightSplits(q, i + 1, r);
    }
  }

  lemma {:induction false} StraightOfEmpty(i: nat, r: int)
    ensures Straight([], i, r) == []
    decreases if r > 0 then r else 0
  {
    if r > 1 {
      StraightOfEmpty(0, r - 1);
    }
  }

  lemma {:induction false} StraightAtEnd(q: seq<string>, r: int)
    requires q != []
    ensures Spoken(Straight(q, |q|, r)) == Repeat(q, Passes(r) - 1)
    decreases if r > 0 then r else 0
  {
    if r > 1 {
      StraightSplits(q, 0, r - 1);
      StraightAtEnd(q, r - 1);
      SpokenConcat(Each(q, 0), Straight(q, |q|, r - 1));
      SpokenEach(q, 0);
      assert q[0..] == q;
      assert Passes(r) - 1 == (Passes(r - 1) - 1) + 1;
    }
  }

  /** The reference run speaks every queue value, empty ones included, once per pass, in `max(r, 1)` passes. */
  lemma StraightSpeaksPasses(q: seq<string>, r: int)
    ensures Spoken(Straight(q, 0, r)) == Repeat(q, Passes(r))
  {
    if q == [] {
      StraightOfEmpty(0, r);
      RepeatEmpty(Passes(r));
    } else {
      StraightSplits(q, 0, r);
      SpokenConcat(Each(q, 0), Straight(q, |q|, r));
      SpokenEach(q, 0);
      StraightAtEnd(q, r);
      assert q[0..] == q;
    }
  }

  /** `stopPlayback`: ready, cursor and queue cleared, repeats from the select; speech is not cancelled. */
  function Stopped(s: State): (r: State)
    ensures r.app == Ready && r.index == 0 && r.queue == [] && r.repeats == s.setting
    ensures r.phase == s.phase && r.trace == s.trace
  {
    s.(app := Ready, index := 0, queue := [], repeats := s.setting)
  }

  /** One call of `playSequence`, with its recursive calls on wrapping. */
  function Sequence(s: State): (r: State)
    ensures Inv(r)
    ensures !r.phase.Idle? ==> r.phase.SpeakTimer? && r.queue == s.queue && r.app == Playing
    ensures !r.phase.Idle? ==> (r.repeats == s.repeats && r.index == s.index) || 1 <= r.repeats < s.repeats
    decreases if s.repeats > 0 then s.repeats else 0
  {
    if s.app != Playing || s.index >= |s.queue| then
      if s.index >= |s.queue| && s.repeats > 1 then Sequence(s.(repeats := s.repeats - 1, index := 0))
      else Stopped(s).(phase := Idle)
    else s.(phase := SpeakTimer(s.queue[s.index]))
  }

  /** The pending callback runs. */
  function Fire(s: State): (r: State)
    ensures Inv(s) ==> Inv(r)
  {
    match s.phase
    case Idle => s
    case DelayTimer => Sequence(s)
    case SpeakTimer(text) => s.(phase := Speaking(text), trace := s.trace + [Speak(text)])
    case Speaking(_) =>
      if s.app == Playing then s.(index := s.index + 1, phase := DelayTimer, trace := s.trace + [Wait])
      else s.(phase := Idle)
  }

  function Rank(p: Phase): nat {
    match p
    case Idle => 0
    case Speaking(_) => 0
    case SpeakTimer(_) => 1
    case DelayTimer => 2
  }

  /** The callbacks left to themselves: each runs in turn, with no command in between. */
  function Run(s: State): (r: State)
    requires Inv(s)
    ensures r.phase == Idle
    decreases if s.phase.Idle? then 0 else 1, if s.repeats > 0 then s.repeats else 0,
      if s.index < |s.queue| then |s.queue| - s.index else 0, Rank(s.phase)
  {
    if s.phase.Idle? then s else Run(Fire(s))
  }

  /** `togglePlay`: playing pauses with a cancel; otherwise the runtime is rebuilt only when ready, and playback (re)starts. */
  function Toggle(s: State, selected: seq<string>): (r: State)
    ensures s.app == Playing ==> r == s.(app := Paused, trace := s.trace + [Cancel])
    ensures s.app == Ready ==> r == Sequence(s.(repeats := s.setting, queue := selected, index := 0, app := Playing))
    ensures s.app != Playing && s.app != Ready ==> r == Sequence(s.(app := Playing))
  {
    if s.app == Playing then s.(app := Paused, trace := s.trace + [Cancel])
    else
      var t := if s.app == Ready then s.(repeats := s.setting, queue := selected, index := 0) else s;
      Sequence(t.(app := Playing))
  }

  lemma SpeakRuns(t: State)
    requires t.app == Playing && t.index < |t.queue|
    ensures Run(t.(phase := SpeakTimer(t.queue[t.index])))
      == Run(Sequence(t.(index := t.index + 1, phase := DelayTimer, trace := t.trace + [Speak(t.queue[t.index]), Wait])))
  {
    var v := t.queue[t.index];
    var p := t.(phase := Speaking(v), trace := t.trace + [Speak(v)]);
    var d := t.(index := t.index + 1, phase := DelayTimer, trace := t.trace + [Speak(v), Wait]);
    assert Fire(t.(phase := SpeakTimer(v))) == p;
    assert t.trace + [Speak(v)] + [Wait] == t.trace + [Speak(v), Wait];
    assert Fire(p) == d;
    assert Fire(d) == Sequence(d);
    assert Run(t.(phase := SpeakTimer(v))) == Run(p) == Run(d) == Run(Sequence(d));
  }

  /** Callbacks left to themselves follow the reference run from the cursor, then stop playback. */
  lemma {:induction false} RunFromSequence(s: State)
    requires s.app == Playing
    ensures Run(Sequence(s)) == Stopped(s).(phase := Idle, trace := s.trace + Straight(s.queue, s.index, s.repeats))
    decreases if s.repeats > 0 then s.repeats else 0, if s.index < |s.queue| then |s.queue| - s.index else 0
  {
    var q := s.queue;
    if s.index >= |q| {
      if s.repeats > 1 {
        RunFromSequence(s.(repeats := s.repeats - 1, index := 0));
      }
    } else {
      SpeakRuns(s);
      var d := s.(index := s.index + 1, phase := DelayTimer, trace := s.trace + [Speak(q[s.index]), Wait]);
      RunFromSequence(d);
      assert d.trace + Straight(q, d.index, d.repeats) == s.trace + Straight(q, s.index, s.repeats);
    }
  }

  /** A run started from ready and left uninterrupted speaks every selected value, in order, in `max(r, 1)` passes. */
  lemma UninterruptedRun(s: State, selected: seq<string>)
    requires s.app == Ready
    ensures Run(Toggle(s, selected)) == s.(index := 0, queue := [], repeats := s.setting, phase := Idle,
      trace := s.trace + Straight(selected, 0, s.setting))
    ensures Spoken(Run(Toggle(s, selected)).trace) == Spoken(s.trace) + Repeat(selected, Passes(s.setting))
  {
    RunFromSequence(s.(repeats := s.setting, queue := selected, index := 0, app := Playing));
    SpokenConcat(s.trace, Straight(selected, 0, s.setting));
    StraightSpeaksPasses(selected, s.setting);
  }

  /** A pause during a spoken item keeps the cursor there, and the toggle back speaks that item again. */
  lemma PauseThenResume(s: State, selected: seq<string>)
    requires s.app == Playing && s.phase.Speaking? && Inv(s)
    ensures Fire(Toggle(s, selected)) == s.(app := Paused, phase := Idle, trace := s.trace + [Cancel])
    ensures Toggle(Fire(Toggle(s, selected)), selected) == s.(phase := SpeakTimer(s.queue[s.index]), trace := s.trace + [Cancel])
  {
  }

  /** A pause during the delay is lost: the timer's `playSequence` finds the state paused and stops playback. */
  lemma PauseDuringDelayStops(s: State, selected: seq<string>)
    requires s.app == Playing && s.phase == DelayTimer && s.index < |s.queue|
    ensures Fire(Toggle(s, selected)).app == Ready
    ensures Fire(Toggle(s, selected)).index == 0 && Fire(Toggle(s, selected)).queue == []
  {
  }

  /** A pause during the 100 ms deferral does not prevent the item from being spoken. */
  lemma PauseDuringDeferralStillSpeaks(s: State, selected: seq<string>)
    requires s.app == Playing && s.phase.SpeakTimer?
    ensures Fire(Toggle(s, selected)).trace == s.trace + [Cancel, Speak(s.phase.text)]
    ensures Fire(Fire(Toggle(s, selected))).phase == Idle
  {
  }

  /** `stopPlayback` resets from any state without cancelling speech; a pending `onend` then ends the chain. */
  lemma StopQuiesces(s: State)
    requires s.phase.Speaking? || s.phase == Idle
    ensures Stopped(s).trace == s.trace
    ensures Fire(Stopped(s)) == Stopped(s).(phase := Idle)
  {
  }

  /** The global playback state of script/script_02.js; the fields mirror `State`. */
  class Playback {
    var app: AppState
    var index: nat
    var queue: seq<string>
    var repeats: int
    var setting: int
    var phase: Phase
    var trace: seq<Effect>

    function Snapshot(): State
      reads this
    {
      State(app, index, queue, repeats, setting, phase, trace)
    }

    constructor (setting: int)
      ensures Snapshot() == State(Init, 0, [], 1, setting, Idle, [])
    {
      this.setting := setting;
      app, index, queue, repeats, phase, trace := Init, 0, [], 1, Idle, [];
    }

    method StopPlayback()
      modifies this
      ensures Snapshot() == Stopped(old(Snapshot()))
    {
      app := Ready;
      index := 0;
      queue := [];
      repeats := setting;
    }

    method PlaySequence()
      modifies this
      ensures Snapshot() == Sequence(old(Snapshot()))
      decreases if repeats > 0 then repeats else 0
    {
      if app != Playing || index >= |queue| {
        if index >= |queue| && repeats > 1 {
          repeats := repeats - 1;
          index := 0;
          PlaySequence();
          return;
        }
        StopPlayback();
        phase := Idle;
        return;
      }
      phase := SpeakTimer(queue[index]);
    }

    /** The pending timer or `onend` callback runs. */
    method FireCallback()
      modifies this
      ensures Snapshot() == Fire(old(Snapshot()))
    {
      match phase
      case Idle =>
      case DelayTimer =>
        PlaySequence();
      case SpeakTimer(text) =>
        trace := trace + [Speak(text)];
        phase := Speaking(text);
      case Speaking(_) =>
        if app == Playing {
          index := index + 1;
          trace := trace + [Wait];
          phase := DelayTimer;
        } else {
          phase := Idle;
        }
    }

    /** A toggle that calls `playSequence` needs no callback to be pending. */
    method TogglePlay(selected: seq<string>)
      requires app == Playing || phase == Idle
      modifies this
      ensures Snapshot() == Toggle(old(Snapshot()), selected)
    {
      if app == Playing {
        trace := trace + [Cancel];
        app := Paused;
        return;
      }
      if app == Ready {
        repeats := setting;
        queue := selected;
        index := 0;
      }
      app := Playing;
      PlaySequence();
    }

    method OnRepeatSelect(repeat: int)
      modifies this
      ensures Snapshot() == old(Snapshot()).(setting := repeat)
    {
      setting := repeat;
    }
  }
}
