/**
 * What the playback loops of the revisions have in common: the effects a
 * run has on the outside world, the application states, and the reference
 * run of the loop that wraps at the end of the queue while repeats remain
 * and skips empty items.
 */
module Sequencing {
  /** The application states; `Other` is any further string a bus event may carry. */
  datatype AppState = Init | Ready | Playing | Paused | Other

  /**
   * Observable effects, in the order the loop causes them: an item handed
   * to speech synthesis, one delay, a cancel of pending speech, a wake-lock
   * request or release, and the finish notification.
   */
  datatype Effect = Speak(text: string) | Wait | Cancel | LockOn | LockOff | Finish

  /** The texts spoken by a trace, in order. */
  function Spoken(t: seq<Effect>): (r: seq<string>)
    ensures |r| <= |t|
  {
    if t == [] then []
    else if t[0].Speak? then [t[0].text] + Spoken(t[1..])
    else Spoken(t[1..])
  }

  lemma {:induction false} SpokenConcat(a: seq<Effect>, b: seq<Effect>)
    ensures Spoken(a + b) == Spoken(a) + Spoken(b)
    decreases |a|
  {
    if a == [] {
      assert a + b == b;
    } else {
      assert (a + b)[1..] == a[1..] + b;
      SpokenConcat(a[1..], b);
    }
  }

  /** A trace without speech speaks nothing. */
  lemma {:induction false} SpokenSilent(t: seq<Effect>)
    requires forall i :: 0 <= i < |t| ==> !t[i].Speak?
    ensures Spoken(t) == []
    decreases |t|
  {
    if t != [] {
      assert forall i :: 0 <= i < |t[1..]| ==> t[1..][i] == t[i + 1];
      SpokenSilent(t[1..]);
    }
  }

  /** Extending a trace by two pieces one after the other extends it by both at once. */
  lemma AppendTwice(t: seq<Effect>, a: seq<Effect>, b: seq<Effect>)
    ensures t + a + b == t + (a + b)
  {
  }

  /** A trace extended by effects that speak nothing and then one utterance speaks just that one text more. */
  lemma SpokenThenSpeak(t: seq<Effect>, quiet: seq<Effect>, v: string)
    requires Spoken(quiet) == []
    ensures Spoken(t + quiet + [Speak(v)]) == Spoken(t) + [v]
  {
    SpokenConcat(t + quiet, [Speak(v)]);
    SpokenConcat(t, quiet);
    assert [Speak(v)][1..] == [];
  }

  /** The non-empty values of a queue, in order. */
  function NonEmpty(q: seq<string>): (r: seq<string>)
    ensures forall v :: v in r ==> v in q && v != ""
  {
    if q == [] then []
    else if q[0] != "" then [q[0]] + NonEmpty(q[1..])
    else NonEmpty(q[1..])
  }

  /** `s` repeated `n` times. */
  function Repeat(s: seq<string>, n: nat): (r: seq<string>)
    ensures |r| == n * |s|
  {
    if n == 0 then [] else s + Repeat(s, n - 1)
  }

  /** The repeat count the loop honours: any value below 1 still plays one pass. */
  function Passes(r: int): (n: nat)
    ensures n >= 1
    ensures r >= 1 ==> n == r
  {
    if r > 1 then r else 1
  }

  /** What the loop does with the item at `j`: a present non-empty value is spoken, then one delay follows either way. */
  function Item(q: seq<string>, j: nat): (r: seq<Effect>)
    ensures j < |q| && q[j] != "" ==> r == [Speak(q[j]), Wait]
    ensures !(j < |q| && q[j] != "") ==> r == [Wait]
  {
    if j < |q| && q[j] != "" then [Speak(q[j]), Wait] else [Wait]
  }

  /** The items from `i` to the end of the queue. */
  function Pass(q: seq<string>, i: nat): seq<Effect>
    decreases |q| - i
  {
    if i >= |q| then [] else Item(q, i) + Pass(q, i + 1)
  }

  /**
   * The reference run from the top of the loop with cursor `i` and `r`
   * repeats remaining, up to (not including) the finish: at the end of the
   * queue it wraps to index 0 while `r > 1`, decrementing `r`.
   */
  function Total(q: seq<string>, i: nat, r: int): seq<Effect>
    decreases if r > 0 then r else 0, if i < |q| then |q| - i else 0
  {
    if i < |q| then Item(q, i) + Total(q, i + 1, r)
    else if r > 1 then Item(q, 0) + Total(q, 1, r - 1)
    else []
  }

  /** One step of the reference run: at the end of the queue it wraps first, then takes the item at the cursor. */
  lemma TotalStep(q: seq<string>, i: nat, r: int)
    requires i < |q| || r > 1
    ensures i < |q| ==> Total(q, i, r) == Item(q, i) + Total(q, i + 1, r)
    ensures i >= |q| ==> Total(q, i, r) == Item(q, 0) + Total(q, 1, r - 1)
  {
  }

  lemma {:induction false} SpokenPass(q: seq<string>, i: nat)
    requires i <= |q|
    ensures Spoken(Pass(q, i)) == NonEmpty(q[i..])
    decreases |q| - i
  {
    if i < |q| {
      SpokenPass(q, i + 1);
      SpokenConcat(Item(q, i), Pass(q, i + 1));
      assert q[i..][1..] == q[i + 1..];
    } else {
      assert q[i..] == [];
    }
  }

  /** Within a pass, the run emits the rest of the pass and then continues from the end of the queue. */
  lemma {:induction false} TotalSplits(q: seq<string>, i: nat, r: int)
    requires i <= |q|
    ensures Total(q, i, r) == Pass(q, i) + Total(q, |q|, r)
    decreases |q| - i
  {
    if i < |q| {
      TotalSplits(q, i + 1, r);
    }
  }

  /** From the end of a non-empty queue with repeats left, the run replays the whole queue. */
  lemma TotalWraps(q: seq<string>, r: int)
    requires q != [] && r > 1
    ensures Total(q, |q|, r) == Pass(q, 0) + Total(q, |q|, r - 1)
  {
    var head, rest, tail := Item(q, 0), Pass(q, 1), Total(q, |q|, r - 1);
    assert Total(q, |q|, r) == head + Total(q, 1, r - 1);
    TotalSplits(q, 1, r - 1);
    assert Pass(q, 0) == head + rest;
    assert head + (rest + tail) == (head + rest) + tail;
  }

  /** From the end of a non-empty queue, each remaining repeat replays the whole queue. */
  lemma {:induction false} TotalAtEnd(q: seq<string>, r: int)
    requires q != []
    ensures Spoken(Total(q, |q|, r)) == Repeat(NonEmpty(q), Passes(r) - 1)
    decreases if r > 0 then r else 0
  {
    if r > 1 {
      TotalWraps(q, r);
      TotalAtEnd(q, r - 1);
      SpokenConcat(Pass(q, 0), Total(q, |q|, r - 1));
      SpokenPass(q, 0);
      assert q[0..] == q;
      assert Passes(r) - 1 == (Passes(r - 1) - 1) + 1;
    }
  }

  /** An empty queue speaks nothing, however often it wraps. */
  lemma {:induction false} TotalOfEmpty(i: nat, r: int)
    ensures Spoken(Total([], i, r)) == []
    decreases if r > 0 then r else 0
  {
    if r > 1 {
      TotalOfEmpty(1, r - 1);
      SpokenConcat(Item([], 0), Total([], 1, r - 1));
    }
  }

  /** The reference run speaks the non-empty values of the queue in order, once per pass, in `max(r, 1)` passes. */
  lemma TotalSpeaksPasses(q: seq<string>, r: int)
    ensures Spoken(Total(q, 0, r)) == Repeat(NonEmpty(q), Passes(r))
  {
    if q == [] {
      TotalOfEmpty(0, r);
      RepeatEmpty(Passes(r));
    } else {
      TotalSplits(q, 0, r);
      SpokenConcat(Pass(q, 0), Total(q, |q|, r));
      SpokenPass(q, 0);
      TotalAtEnd(q, r);
      assert q[0..] == q;
    }
  }

  /**
   * A run's trace, after what came before: the wake-lock request, the
   * reference run and a closing that speaks nothing. It adds the passes
   * over the non-empty values to what was spoken before.
   */
  lemma SpokenRun(t: seq<Effect>, opening: seq<Effect>, q: seq<string>, r: int, closing: seq<Effect>)
    requires Spoken(opening) == [] && Spoken(closing) == []
    ensures Spoken(t + opening + Total(q, 0, r) + closing) == Spoken(t) + Repeat(NonEmpty(q), Passes(r))
  {
    var tot := Total(q, 0, r);
    SpokenConcat(t + opening + tot, closing);
    SpokenConcat(t + opening, tot);
    SpokenConcat(t, opening);
    TotalSpeaksPasses(q, r);
  }

  lemma {:induction false} RepeatEmpty(n: nat)
    ensures Repeat([], n) == []
  {
    if n > 0 {
      RepeatEmpty(n - 1);
    }
  }

  /** An empty queue still consumes one delay per extra pass: `r - 1` delays, and nothing else. */
  lemma {:induction false} TotalOfEmptyWaits(i: nat, r: int)
    ensures |Total([], i, r)| == Passes(r) - 1
    ensures forall k :: 0 <= k < |Total([], i, r)| ==> Total([], i, r)[k] == Wait
    decreases if r > 0 then r else 0
  {
    if r > 1 {
      TotalOfEmptyWaits(1, r - 1);
    }
  }
}
