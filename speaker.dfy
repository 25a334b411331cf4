/**
 * How the speech wrappers turn a text and its options into an utterance:
 * `Speaker.speak`/`stop` (app/modules/speaker.js), `createSpeaker.speak`
 * (app/main.js) and `speakAsync` (app/main_00.js). The synthesis engine
 * is outside the model; what is modelled is which utterance is handed to
 * it, whether pending speech is cancelled first, and when the returned
 * promise settles.
 */
module Speaker {
  import opened Wrappers
  import Voices

  /**
   * An option as JavaScript sees it: absent (undefined), null, or a value
   * whose `Number(...)` is the real given, or NaN/infinite (None).
   */
  datatype Arg = Undefined | NullArg | Val(number: Option<real>)

  /** `Number(a)`, None standing for NaN or an infinity. */
  function NumberOf(a: Arg): (r: Option<real>)
    ensures a == Undefined ==> r.None?
    ensures a == NullArg ==> r == Some(0.0)
  {
    match a
    case Undefined => None
    case NullArg => Some(0.0)
    case Val(n) => n
  }

  /** The `interrupt` option: absent, exactly false, another falsy value, or truthy. */
  datatype Interrupt = Unset | ExactlyFalse | OtherFalsy | Truthy

  /**
   * The merged options the wrappers read; "" stands for a falsy voice name
   * or language code.
   */
  datatype Options = Options(
    voiceName: string, languageCode: string,
    rate: Arg, speed: Arg, pitch: Arg, volume: Arg, interrupt: Interrupt)

  datatype Utterance = Utterance(text: string, voice: Option<Voices.Voice>, lang: Option<string>, rate: real, pitch: real, volume: real)

  /** A positive finite number, else 1.0. */
  function PositiveOrOne(n: Option<real>): (r: real)
    ensures r > 0.0
    ensures n.Some? && n.value > 0.0 ==> r == n.value
    ensures !(n.Some? && n.value > 0.0) ==> r == 1.0
  {
    if n.Some? && n.value > 0.0 then n.value else 1.0
  }

  /** A finite number within [0, 1], else 1.0. */
  function UnitOrOne(n: Option<real>): (r: real)
    ensures 0.0 <= r <= 1.0
    ensures n.Some? && 0.0 <= n.value <= 1.0 ==> r == n.value
    ensures !(n.Some? && 0.0 <= n.value <= 1.0) ==> r == 1.0
  {
    if n.Some? && 0.0 <= n.value <= 1.0 then n.value else 1.0
  }

  /** app/modules/speaker.js: `s.rate !== undefined ? Number(s.rate) : Number(s.speed)`. */
  function RateArgDefined(o: Options): Option<real> {
    if o.rate != Undefined then NumberOf(o.rate) else NumberOf(o.speed)
  }

  /** app/main.js and app/main_00.js: `Number(s.rate ?? s.speed)`; null falls through too. */
  function RateArgNullish(o: Options): Option<real> {
    if o.rate != Undefined && o.rate != NullArg then NumberOf(o.rate) else NumberOf(o.speed)
  }

  /** `voices.find(v => v.name === s.voiceName)`, tried only for a truthy name. */
  function ExactVoice(voices: seq<Voices.Voice>, name: string): (r: Option<Voices.Voice>)
    ensures r.Some? ==> r.value in voices && r.value.name == name && name != ""
    ensures r.None? && name != "" ==> forall v :: v in voices ==> v.name != name
  {
    if name == "" || voices == [] then None
    else if voices[0].name == name then Some(voices[0])
    else ExactVoice(voices[1..], name)
  }

  /** Whether speaker.js cancels first: interrupt defaults to true, only a falsy value keeps pending speech. */
  predicate CancelsSpeaker(o: Options) {
    o.interrupt == Unset || o.interrupt == Truthy
  }

  /** Whether app/main.js and app/main_00.js cancel first: unless interrupt is exactly false. */
  predicate CancelsRevision(o: Options) {
    o.interrupt != ExactlyFalse
  }

  /** The utterance `Speaker.speak` builds; None when the text is empty and nothing is spoken. */
  function SpeakerUtterance(text: string, o: Options, voices: seq<Voices.Voice>): (r: Option<Utterance>)
    ensures text == "" <==> r.None?
    ensures r.Some? ==> r.value.text == text && r.value.voice == ExactVoice(voices, o.voiceName)
    ensures r.Some? ==> r.value.lang == (if o.languageCode != "" then Some(o.languageCode) else None)
    ensures r.Some? ==> r.value.rate == PositiveOrOne(RateArgDefined(o)) && r.value.pitch == PositiveOrOne(NumberOf(o.pitch))
    ensures r.Some? ==> r.value.volume == UnitOrOne(NumberOf(o.volume))
  {
    if text == "" then None
    else Some(Utterance(text, ExactVoice(voices, o.voiceName),
      if o.languageCode != "" then Some(o.languageCode) else None,
      PositiveOrOne(RateArgDefined(o)), PositiveOrOne(NumberOf(o.pitch)), UnitOrOne(NumberOf(o.volume))))
  }

  /** The utterance app/main.js `speak` builds from the settings merged with the options. */
  function RevisionUtterance(text: string, o: Options, voices: seq<Voices.Voice>): (r: Option<Utterance>)
    ensures text == "" <==> r.None?
    ensures r.Some? ==> r.value.text == text && r.value.voice == ExactVoice(voices, o.voiceName)
    ensures r.Some? ==> r.value.lang == (if o.languageCode != "" then Some(o.languageCode) else None)
    ensures r.Some? ==> r.value.rate == PositiveOrOne(RateArgNullish(o)) && r.value.pitch == PositiveOrOne(NumberOf(o.pitch))
    ensures r.Some? ==> r.value.volume == UnitOrOne(NumberOf(o.volume))
  {
    if text == "" then None
    else Some(Utterance(text, ExactVoice(voices, o.voiceName),
      if o.languageCode != "" then Some(o.languageCode) else None,
      PositiveOrOne(RateArgNullish(o)), PositiveOrOne(NumberOf(o.pitch)), UnitOrOne(NumberOf(o.volume))))
  }

  /**
   * The utterance app/main_00.js `speakAsync` builds: the voice is the
   * selection cascade's choice and its lang wins over the language code.
   */
  function CascadeUtterance(text: string, o: Options, voices: seq<Voices.Voice>, navigatorLanguage: string): (r: Option<Utterance>)
    ensures text == "" <==> r.None?
    ensures r.Some? ==> r.value.text == text
    ensures r.Some? ==> (r.value.voice.None? <==> voices == [])
    ensures r.Some? ==>
      var c := Voices.SelectVoice(voices, Voices.Wanted(o.voiceName, o.languageCode, navigatorLanguage));
      r.value.voice == (if c.Some? then Some(voices[c.value]) else None)
    ensures r.Some? && r.value.voice.Some? && r.value.voice.value.lang != "" ==> r.value.lang == Some(r.value.voice.value.lang)
    ensures r.Some? && r.value.voice.Some? && r.value.voice.value.lang == "" ==> r.value.lang == Some(o.languageCode)
    ensures r.Some? && r.value.voice.None? ==> r.value.lang == (if o.languageCode != "" then Some(o.languageCode) else None)
    ensures r.Some? ==> r.value.rate == PositiveOrOne(RateArgNullish(o)) && r.value.pitch == PositiveOrOne(NumberOf(o.pitch))
    ensures r.Some? ==> r.value.volume == UnitOrOne(NumberOf(o.volume))
  {
    if text == "" then None
    else
      var chosen := Voices.SelectVoice(voices, Voices.Wanted(o.voiceName, o.languageCode, navigatorLanguage));
      var voice := if chosen.Some? then Some(voices[chosen.value]) else None;
      var lang := if voice.Some? then Some(if voice.value.lang != "" then voice.value.lang else o.languageCode)
        else if o.languageCode != "" then Some(o.languageCode) else None;
      Some(Utterance(text, voice, lang,
        PositiveOrOne(RateArgNullish(o)), PositiveOrOne(NumberOf(o.pitch)), UnitOrOne(NumberOf(o.volume))))
  }

  /**
   * `speakAsync` of app/main_00.js sanitises text, rate, pitch and volume
   * exactly as app/main.js does; only the voice and the lang differ.
   */
  lemma CascadeMatchesRevision(text: string, o: Options, voices: seq<Voices.Voice>, navigatorLanguage: string)
    requires text != ""
    ensures var u := CascadeUtterance(text, o, voices, navigatorLanguage).value;
      u == RevisionUtterance(text, o, voices).value.(voice := u.voice, lang := u.lang)
  {
  }

  /**
   * With voices available, the utterance of `speakAsync` carries the voice
   * the selection cascade ranks best, the earliest among equally ranked.
   */
  lemma CascadeVoiceIsFirstBest(text: string, o: Options, voices: seq<Voices.Voice>, navigatorLanguage: string)
    requires text != "" && voices != []
    ensures var w := Voices.Wanted(o.voiceName, o.languageCode, navigatorLanguage);
      var u := CascadeUtterance(text, o, voices, navigatorLanguage).value;
      exists i :: 0 <= i < |voices| && u.voice == Some(voices[i])
        && (forall j :: 0 <= j < |voices| ==> Voices.Tier(voices[i], w) <= Voices.Tier(voices[j], w))
        && (forall j :: 0 <= j < i ==> Voices.Tier(voices[i], w) < Voices.Tier(voices[j], w))
  {
    var w := Voices.Wanted(o.voiceName, o.languageCode, navigatorLanguage);
    Voices.SelectVoiceIsFirstBest(voices, w);
    var i := Voices.SelectVoice(voices, w).value;
    assert CascadeUtterance(text, o, voices, navigatorLanguage).value.voice == Some(voices[i]);
  }

  /** app/main.js builds the utterance of app/modules/speaker.js, except that an explicit `rate: null` falls back to the speed. */
  lemma RevisionMatchesSpeaker(text: string, o: Options, voices: seq<Voices.Voice>)
    ensures o.rate != NullArg ==> RevisionUtterance(text, o, voices) == SpeakerUtterance(text, o, voices)
    ensures o.rate == NullArg && text != "" ==>
      RevisionUtterance(text, o, voices).value == SpeakerUtterance(text, o, voices).value.(rate := PositiveOrOne(NumberOf(o.speed)))
  {
  }

  /** The two rate readings differ exactly on an explicit `rate: null`. */
  lemma RateReadingsDiffer(o: Options)
    ensures o.rate != NullArg ==> RateArgDefined(o) == RateArgNullish(o)
    ensures o.rate == NullArg ==> RateArgDefined(o) == Some(0.0) && PositiveOrOne(RateArgDefined(o)) == 1.0
  {
  }

  /** The events an utterance can deliver to its promise wiring. */
  datatype UtterEvent = Start | Pause | Resume | End | Error

  predicate Settles(e: UtterEvent) {
    e == End || e == Error
  }

  /** How many times `resolve` runs for a sequence of events, behind the `finished` latch. */
  function Resolutions(events: seq<UtterEvent>, finished: bool): (n: nat)
    decreases |events|
  {
    if events == [] then 0
    else if Settles(events[0]) && !finished then 1 + Resolutions(events[1..], true)
    else Resolutions(events[1..], finished || Settles(events[0]))
  }

  predicate SomeSettles(events: seq<UtterEvent>) {
    exists i :: 0 <= i < |events| && Settles(events[i])
  }

  /** The promise resolves at most once, and exactly once when an end or error arrives. */
  lemma {:induction false} ResolvesOnce(events: seq<UtterEvent>, finished: bool)
    ensures Resolutions(events, finished) <= 1
    ensures finished ==> Resolutions(events, finished) == 0
    ensures !finished ==> (Resolutions(events, finished) == 1 <==> SomeSettles(events))
    decreases |events|
  {
    if events != [] {
      ResolvesOnce(events[1..], finished || Settles(events[0]));
      if !Settles(events[0]) && !finished {
        if SomeSettles(events) {
          var i :| 0 <= i < |events| && Settles(events[i]);
          assert events[1..][i - 1] == events[i];
        }
        if SomeSettles(events[1..]) {
          var i :| 0 <= i < |events[1..]| && Settles(events[1..][i]);
          assert events[i + 1] == events[1..][i];
        }
      }
    }
  }

  /** The promise of one `Speaker.speak` call, with its `finished` latch. */
  class SpeechCompletion {
    var finished: bool
    var resolutions: nat

    constructor ()
      ensures !finished && resolutions == 0
    {
      finished := false;
      resolutions := 0;
    }

    /**
     * One event: the user callback runs (a throw is swallowed, so it is not
     * modelled), then end and error call `done`, which resolves only once.
     */
    method Fire(e: UtterEvent)
      modifies this
      ensures finished == (old(finished) || Settles(e))
      ensures resolutions == old(resolutions) + (if Settles(e) && !old(finished) then 1 else 0)
    {
      if Settles(e) && !finished {
        finished := true;
        resolutions := resolutions + 1;
      }
    }

    /** Delivering a whole sequence of events, one after the other. */
    method FireAll(events: seq<UtterEvent>)
      modifies this
      ensures resolutions == old(resolutions) + Resolutions(events, old(finished))
    {
      var i := 0;
      while i < |events|
        invariant 0 <= i <= |events|
        invariant resolutions + Resolutions(events[i..], finished) == old(resolutions) + Resolutions(events, old(finished))
      {
        assert events[i..][1..] == events[i + 1..];
        Fire(events[i]);
        i := i + 1;
      }
    }
  }

  /** Speaker: the last utterance handed to the engine, and how often speech was cancelled. */
  class Speaker {
    var lastUtterance: Option<Utterance>
    var cancels: nat

    constructor ()
      ensures lastUtterance.None? && cancels == 0
    {
      lastUtterance := None;
      cancels := 0;
    }

    /** speak: nothing for an empty text; otherwise cancel if interrupting, then hand over the utterance. */
    method Speak(text: string, o: Options, voices: seq<Voices.Voice>) returns (spoken: Option<Utterance>)
      modifies this
      ensures spoken == SpeakerUtterance(text, o, voices)
      ensures text == "" ==> lastUtterance == old(lastUtterance) && cancels == old(cancels)
      ensures text != "" ==> lastUtterance == spoken && cancels == old(cancels) + (if CancelsSpeaker(o) then 1 else 0)
    {
      spoken := SpeakerUtterance(text, o, voices);
      if text == "" {
        return;
      }
      if CancelsSpeaker(o) {
        cancels := cancels + 1;
      }
      lastUtterance := spoken;
    }

    /** stop: cancel speech and forget the last utterance. */
    method Stop()
      modifies this
      ensures lastUtterance.None? && cancels == old(cancels) + 1
    {
      cancels := cancels + 1;
      lastUtterance := None;
    }
  }
}
