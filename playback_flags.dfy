/**
 * `createPlayback` of app/main_01.js: a `for` loop over the number inputs
 * from `playbackFlags.sequenceIndex`, guarded only by the `abort` flag.
 * Blank (trimmed) inputs are skipped at once; each spoken phrase is
 * followed by the delay. Pause only sets `isPaused`, which the loop never
 * reads, so `cont()` after `pause()` starts a second loop beside the first:
 * the model keeps the list of live loop instances, each suspended at the
 * await on its speech or on its delay.
 */
module PlaybackFlags {
  import opened Wrappers
  import opened Text
  import opened Sequencing

  /** The playback part of the store (`isSpeaking` is left out). */
  datatype Flags = Flags(isSequenceMode: bool, isPaused: bool, sequenceIndex: nat)

  /** Where a live loop instance is suspended, with its loop variable. */
  datatype Cursor = SpeakingAt(i: nat) | DelayingAt(i: nat)

  /** The trimmed values of the number inputs, the store flags, `abort`, the live loop instances and what has been spoken. */
  datatype State = State(values: seq<string>, flags: Flags, abort: bool, loops: seq<Cursor>, trace: seq<Effect>)

  datatype Command = PauseCmd | ContinueCmd | StartCmd(index: nat)

  const Cleared := Flags(false, false, 0)

  /** The start button: pause a running sequence, continue a paused one, otherwise start from the first input. */
  function StartButton(f: Flags): (c: Command)
    ensures c == PauseCmd <==> f.isSequenceMode && !f.isPaused
    ensures c == ContinueCmd <==> f.isSequenceMode && f.isPaused
    ensures c.StartCmd? <==> !f.isSequenceMode
    ensures c.StartCmd? ==> c.index == 0
  {
    if f.isSequenceMode && !f.isPaused then PauseCmd
    else if f.isSequenceMode && f.isPaused then ContinueCmd
    else StartCmd(0)
  }

  /** The trimmed value of every number input, the phrases the loop reads. */
  function Trimmed(inputs: seq<string>): (r: seq<string>)
    ensures |r| == |inputs| && forall k :: 0 <= k < |inputs| ==> r[k] == Trim(inputs[k])
  {
    seq(|inputs|, k requires 0 <= k < |inputs| => Trim(inputs[k]))
  }

  /** The phrase of input `i`. */
  function Phrase(values: seq<string>, i: nat): string
    requires i < |values|
  {
    values[i]
  }

  /** The code after the loop: flags cleared, active input unset, `PLAYBACK_FINISH`. */
  function Done(s: State): (r: State)
    ensures r.flags == Cleared && r.trace == s.trace + [Finish] && r.loops == s.loops && r.values == s.values && r.abort == s.abort
  {
    s.(flags := Cleared, trace := s.trace + [Finish])
  }

  /** The index of the first non-blank input from `i` on, if there is one. */
  function Next(values: seq<string>, i: nat): (r: Option<nat>)
    ensures r.Some? ==> i <= r.value < |values| && Phrase(values, r.value) != ""
    ensures r.Some? ==> forall j :: i <= j < r.value ==> Phrase(values, j) == ""
    ensures r.None? ==> forall j :: i <= j < |values| ==> Phrase(values, j) == ""
    decreases |values| - i
  {
    if i >= |values| then None
    else if Phrase(values, i) == "" then Next(values, i + 1)
    else Some(i)
  }

  /**
   * The loop header and body from `i` up to the next await: the loop ends
   * at the last input or on `abort`; blank inputs are skipped without a
   * delay; a phrase sets the flags and is spoken.
   */
  function Enter(s: State, i: nat): (r: (State, Option<Cursor>))
    ensures r.0.loops == s.loops && r.0.values == s.values && r.0.abort == s.abort
    ensures r.1.Some? ==> r.1.value.SpeakingAt? && i <= r.1.value.i < |s.values| && Phrase(s.values, r.1.value.i) != ""
    ensures r.1.Some? ==> r.0.flags == Flags(true, false, r.1.value.i) && r.0.trace == s.trace + [Speak(Phrase(s.values, r.1.value.i))]
    ensures r.1.None? ==> r.0 == Done(s)
    ensures s.abort ==> r.1.None?
  {
    if s.abort then (Done(s), None)
    else match Next(s.values, i)
      case None => (Done(s), None)
      case Some(j) => (s.(flags := Flags(true, false, j), trace := s.trace + [Speak(Phrase(s.values, j))]), Some(SpeakingAt(j)))
  }

  /** Loop `k` continues as `c`, or is gone. */
  function Place(loops: seq<Cursor>, k: nat, c: Option<Cursor>): (r: seq<Cursor>)
    requires k < |loops|
    ensures c.Some? ==> r == loops[k := c.value]
    ensures c.None? ==> r == loops[..k] + loops[k + 1..]
  {
    if c.Some? then loops[k := c.value] else loops[..k] + loops[k + 1..]
  }

  /** The await of loop `k` completes. */
  function Step(s: State, k: nat): (r: State)
    requires k < |s.loops|
    ensures r.values == s.values && r.abort == s.abort
  {
    match s.loops[k]
    case SpeakingAt(i) => s.(loops := s.loops[k := DelayingAt(i)], trace := s.trace + [Wait])
    case DelayingAt(i) =>
      var (t, c) := Enter(s, i + 1);
      t.(loops := Place(s.loops, k, c))
  }

  /** A loop instance entered at `i`, added to the live ones unless it ends at once. */
  function Begin(s: State, i: nat): (r: State)
    ensures |r.loops| == |s.loops| || r.loops == s.loops + [SpeakingAt(r.flags.sequenceIndex)]
  {
    var (t, c) := Enter(s, i);
    if c.Some? then t.(loops := s.loops + [c.value]) else t
  }

  /** `playSequence` is called: a new loop instance from `sequenceIndex`. */
  function Spawn(s: State): State {
    Begin(s, s.flags.sequenceIndex)
  }

  function OnStart(s: State, index: nat): State {
    Spawn(s.(abort := false, flags := Flags(true, false, index)))
  }

  function OnPause(s: State): (r: State)
    ensures r == s.(flags := s.flags.(isPaused := true))
  {
    s.(flags := s.flags.(isPaused := true))
  }

  function OnContinue(s: State): State {
    Spawn(s.(flags := s.flags.(isPaused := false)))
  }

  function OnStop(s: State): (r: State)
    ensures r.abort && r.flags == Cleared && r.loops == s.loops && r.trace == s.trace + [Finish]
  {
    s.(abort := true, flags := Cleared, trace := s.trace + [Finish])
  }

  /** What an uninterrupted loop from `i` speaks and waits for. */
  function Sweep(values: seq<string>, i: nat): seq<Effect>
    decreases |values| - i
  {
    if i >= |values| then []
    else if Phrase(values, i) == "" then Sweep(values, i + 1)
    else [Speak(Phrase(values, i)), Wait] + Sweep(values, i + 1)
  }

  /** The phrases of the non-blank inputs from `i` on, in order. */
  function NonBlank(values: seq<string>, i: nat): (r: seq<string>)
    ensures forall p :: p in r ==> p != ""
    decreases |values| - i
  {
    if i >= |values| then []
    else if Phrase(values, i) == "" then NonBlank(values, i + 1)
    else [Phrase(values, i)] + NonBlank(values, i + 1)
  }

  lemma {:induction false} SpokenSweep(values: seq<string>, i: nat)
    ensures Spoken(Sweep(values, i)) == NonBlank(values, i)
    decreases |values| - i
  {
    if i < |values| {
      SpokenSweep(values, i + 1);
      if Phrase(values, i) != "" {
        var head := [Speak(Phrase(values, i)), Wait];
        SpokenConcat(head, Sweep(values, i + 1));
        assert head[1..] == [Wait];
      }
    }
  }

  function Rank(c: Cursor): nat {
    if c.SpeakingAt? then 1 else 0
  }

  /** A single loop left to itself: every await completes in turn, with no command in between. */
  function RunOne(s: State): (r: State)
    requires |s.loops| <= 1
    ensures r.loops == []
    decreases |s.loops|, if s.loops == [] then 0 else |s.values| - s.loops[0].i, if s.loops == [] then 0 else Rank(s.loops[0])
  {
    if s.loops == [] then s else RunOne(Step(s, 0))
  }

  /** The reference run jumps over blank inputs. */
  lemma {:induction false} SweepSkips(values: seq<string>, i: nat)
    ensures Next(values, i).None? ==> Sweep(values, i) == []
    ensures Next(values, i).Some? ==> Sweep(values, i) == [Speak(Phrase(values, Next(values, i).value)), Wait] + Sweep(values, Next(values, i).value + 1)
    decreases |values| - i
  {
    if i < |values| && Phrase(values, i) == "" {
      SweepSkips(values, i + 1);
    }
  }

  /** The loop after a phrase's delay carries on as a fresh entry at the next input. */
  lemma AfterDelay(s: State, j: nat)
    requires s.loops == [] && !s.abort && j < |s.values|
    ensures Step(s.(flags := Flags(true, false, j), trace := s.trace + [Speak(Phrase(s.values, j))] + [Wait], loops := [DelayingAt(j)]), 0)
         == Begin(s.(trace := s.trace + [Speak(Phrase(s.values, j)), Wait]), j + 1)
  {
    assert s.trace + [Speak(Phrase(s.values, j))] + [Wait] == s.trace + [Speak(Phrase(s.values, j)), Wait];
  }

  /** The state after the next phrase from `i` has been spoken and its delay has passed. */
  function Past(s: State, i: nat): (r: State)
    requires Next(s.values, i).Some?
    ensures r.values == s.values && r.loops == s.loops && r.abort == s.abort && r.flags == s.flags
  {
    s.(trace := s.trace + [Speak(Phrase(s.values, Next(s.values, i).value)), Wait])
  }

  /** A loop entered at `i` that finds a phrase runs on as a loop entered past that phrase, and the reference run agrees. */
  lemma BeginAdvances(s: State, i: nat)
    requires s.loops == [] && !s.abort && Next(s.values, i).Some?
    ensures RunOne(Begin(s, i)) == RunOne(Begin(Past(s, i), Next(s.values, i).value + 1))
    ensures s.trace + Sweep(s.values, i) == Past(s, i).trace + Sweep(s.values, Next(s.values, i).value + 1)
  {
    SweepSkips(s.values, i);
    var j := Next(s.values, i).value;
    var phrase := Phrase(s.values, j);
    var dl := s.(flags := Flags(true, false, j), trace := s.trace + [Speak(phrase)] + [Wait], loops := [DelayingAt(j)]);
    assert Step(Begin(s, i), 0) == dl;
    AfterDelay(s, j);
    assert RunOne(Begin(s, i)) == RunOne(dl);
    var head, rest := [Speak(phrase), Wait], Sweep(s.values, j + 1);
    assert Sweep(s.values, i) == head + rest;
    AppendTwice(s.trace, head, rest);
  }

  /** A loop entered at `i` that finds no phrase goes straight to the code after the loop. */
  lemma BeginEnds(s: State, i: nat)
    requires s.loops == [] && Next(s.values, i).None?
    ensures RunOne(Begin(s, i)) == s.(flags := Cleared, trace := s.trace + Sweep(s.values, i) + [Finish])
  {
    SweepSkips(s.values, i);
    assert Begin(s, i) == Done(s);
    assert s.trace + Sweep(s.values, i) == s.trace;
  }

  lemma {:induction false} RunFromEnter(s: State, i: nat)
    requires s.loops == [] && !s.abort
    ensures RunOne(Begin(s, i)) == s.(flags := Cleared, trace := s.trace + Sweep(s.values, i) + [Finish])
    decreases |s.values| - i
  {
    if Next(s.values, i).Some? {
      var p, j := Past(s, i), Next(s.values, i).value + 1;
      BeginAdvances(s, i);
      RunFromEnter(p, j);
      assert p.(flags := Cleared, trace := p.trace + Sweep(s.values, j) + [Finish])
          == s.(flags := Cleared, trace := s.trace + Sweep(s.values, i) + [Finish]);
    } else {
      BeginEnds(s, i);
    }
  }

  /**
   * Starting with no live loop and leaving it alone speaks every non-blank
   * trimmed input from the start index on, each followed by the delay, and
   * then clears the flags and signals the finish.
   */
  lemma UninterruptedRun(s: State, index: nat)
    requires s.loops == []
    ensures RunOne(OnStart(s, index)) == s.(abort := false, flags := Cleared, trace := s.trace + Sweep(s.values, index) + [Finish])
    ensures Spoken(RunOne(OnStart(s, index)).trace) == Spoken(s.trace) + NonBlank(s.values, index)
  {
    RunFromEnter(s.(abort := false, flags := Flags(true, false, index)), index);
    SpokenConcat(s.trace, Sweep(s.values, index) + [Finish]);
    SpokenConcat(Sweep(s.values, index), [Finish]);
    assert s.trace + Sweep(s.values, index) + [Finish] == s.trace + (Sweep(s.values, index) + [Finish]);
    SpokenSweep(s.values, index);
  }

  /** The loops never read `isPaused`: after a pause every step speaks and waits exactly as before. */
  lemma PauseIgnored(s: State, k: nat)
    requires k < |s.loops|
    ensures Step(OnPause(s), k).loops == Step(s, k).loops
    ensures Step(OnPause(s), k).trace == Step(s, k).trace
  {
  }

  /** A pause is forgotten as soon as the loop reaches its next phrase. */
  lemma NextPhraseClearsPause(s: State, k: nat)
    requires k < |s.loops| && s.loops[k].DelayingAt?
    requires Enter(s, s.loops[k].i + 1).1.Some?
    ensures !Step(OnPause(s), k).flags.isPaused
  {
  }

  /** Continue after a pause while a phrase is being spoken starts a second loop that speaks the same phrase again. */
  lemma ContinueDuplicatesLoop(s: State, i: nat)
    requires s.loops == [SpeakingAt(i)] && s.flags == Flags(true, false, i) && !s.abort
    requires i < |s.values| && Phrase(s.values, i) != ""
    ensures OnContinue(OnPause(s)).loops == [SpeakingAt(i), SpeakingAt(i)]
    ensures OnContinue(OnPause(s)).trace == s.trace + [Speak(Phrase(s.values, i))]
  {
  }

  /** After stop every live loop ends at its next loop header without speaking again. */
  lemma StopEndsLoops(s: State, k: nat)
    requires k < |s.loops| && s.loops[k].DelayingAt?
    ensures |Step(OnStop(s), k).loops| == |s.loops| - 1
    ensures Step(OnStop(s), k).trace == s.trace + [Finish, Finish]
    ensures Step(OnStop(s), k).flags == Cleared
  {
  }

  /** `abort` stays set after stop, so continue then only finishes again: no loop starts and nothing is spoken. */
  lemma ContinueAfterStop(s: State)
    ensures OnContinue(OnStop(s)).loops == s.loops
    ensures OnContinue(OnStop(s)).trace == s.trace + [Finish, Finish]
    ensures OnContinue(OnStop(s)).flags == Cleared
  {
  }

  /** The playback of app/main_01.js with the live loop instances it has started. */
  class Playback {
    var values: seq<string>
    var flags: Flags
    var abort: bool
    var loops: seq<Cursor>
    var trace: seq<Effect>

    function Snapshot(): State
      reads this
    {
      State(values, flags, abort, loops, trace)
    }

    constructor (inputs: seq<string>)
      ensures Snapshot() == State(Trimmed(inputs), Cleared, false, [], [])
    {
      values := Trimmed(inputs);
      flags, abort, loops, trace := Cleared, false, [], [];
    }

    /** The `for` loop from `i` up to its next await, or to its end. */
    method EnterLoop(from: nat) returns (c: Option<Cursor>)
      modifies this`flags, this`trace
      ensures (Snapshot(), c) == Enter(old(Snapshot()), from)
    {
      var i := from;
      while i < |values| && !abort && Phrase(values, i) == ""
        invariant from <= i
        invariant flags == old(flags) && trace == old(trace)
        invariant !abort ==> Next(values, from) == Next(values, i)
        decreases |values| - i
      {
        i := i + 1;
      }
      if i >= |values| || abort {
        flags := Cleared;
        trace := trace + [Finish];
        return None;
      }
      flags := Flags(true, false, i);
      trace := trace + [Speak(Phrase(values, i))];
      return Some(SpeakingAt(i));
    }

    /** The await of loop `k` completes. */
    method Wake(k: nat)
      requires k < |loops|
      modifies this
      ensures Snapshot() == Step(old(Snapshot()), k)
    {
      match loops[k]
      case SpeakingAt(i) =>
        loops := loops[k := DelayingAt(i)];
        trace := trace + [Wait];
      case DelayingAt(i) =>
        var c := EnterLoop(i + 1);
        loops := Place(loops, k, c);
    }

    method PlaySequence()
      modifies this
      ensures Snapshot() == Spawn(old(Snapshot()))
    {
      var c := EnterLoop(flags.sequenceIndex);
      if c.Some? {
        loops := loops + [c.value];
      }
    }

    method Start(index: nat)
      modifies this
      ensures Snapshot() == OnStart(old(Snapshot()), index)
    {
      abort := false;
      flags := Flags(true, false, index);
      PlaySequence();
    }

    method Pause()
      modifies this
      ensures Snapshot() == OnPause(old(Snapshot()))
    {
      flags := flags.(isPaused := true);
    }

    method Cont()
      modifies this
      ensures Snapshot() == OnContinue(old(Snapshot()))
    {
      flags := flags.(isPaused := false);
      PlaySequence();
    }

    method Stop()
      modifies this
      ensures Snapshot() == OnStop(old(Snapshot()))
    {
      abort := true;
      flags := Cleared;
      trace := trace + [Finish];
    }

    /** The start button's click handler. */
    method ClickStartPause()
      modifies this
      ensures StartButton(old(flags)) == PauseCmd ==> Snapshot() == OnPause(old(Snapshot()))
      ensures StartButton(old(flags)) == ContinueCmd ==> Snapshot() == OnContinue(old(Snapshot()))
      ensures StartButton(old(flags)).StartCmd? ==> Snapshot() == OnStart(old(Snapshot()), 0)
    {
      match StartButton(flags)
      case PauseCmd => Pause();
      case ContinueCmd => Cont();
      case StartCmd(index) => Start(index);
    }
  }
}
