/**
 * `_selectVoice` of app/main_00.js (duplicated in app/main_01.js): a
 * first-match cascade over the voice catalogue, driven by the configured
 * voice name and language code and by the browser language.
 */
module Voices {
  import opened Wrappers
  import opened Text
  import opened Utils

  /** A synthesis voice; a missing `lang` is the empty string. */
  datatype Voice = Voice(name: string, lang: string)

  /** The settings fields the cascade reads, and `navigator.language`. */
  datatype Wanted = Wanted(voiceName: string, languageCode: string, navigatorLanguage: string)

  function DesiredName(w: Wanted): string { Trim(w.voiceName) }
  function DesiredLang(w: Wanted): string { Lower(Trim(w.languageCode)) }
  function LangBase(w: Wanted): string { FirstSegment(DesiredLang(w), false) }
  /** The browser's base subtag, compared without lower-casing it. */
  function NavBase(w: Wanted): string { FirstSegment(w.navigatorLanguage, false) }

  /** The five tests of the cascade, in priority order 1 to 5. */
  predicate Matches(v: Voice, w: Wanted, tier: nat) {
    match tier
    case 1 => NameExact(v, w)
    case 2 => NamePartial(v, w)
    case 3 => LangExact(v, w)
    case 4 => LangBaseMatch(v, w)
    case 5 => NavigatorMatch(v, w)
    case _ => false
  }

  predicate NameExact(v: Voice, w: Wanted) {
    DesiredName(w) != "" && v.name == DesiredName(w)
  }

  predicate NamePartial(v: Voice, w: Wanted) {
    DesiredName(w) != "" && Contains(TrimLower(v.name), TrimLower(DesiredName(w)))
  }

  predicate LangExact(v: Voice, w: Wanted) {
    DesiredLang(w) != "" && Lower(v.lang) == DesiredLang(w)
  }

  predicate LangBaseMatch(v: Voice, w: Wanted) {
    DesiredLang(w) != "" && LangBase(w) != "" && Lower(FirstSegment(v.lang, false)) == LangBase(w)
  }

  predicate NavigatorMatch(v: Voice, w: Wanted) {
    NavBase(w) != "" && StartsWith(Lower(v.lang), NavBase(w))
  }

  /** `all.find(...)` for one test, as an index. */
  function Find(all: seq<Voice>, w: Wanted, tier: nat): (r: Option<nat>)
    ensures r.Some? ==> r.value < |all| && Matches(all[r.value], w, tier)
    ensures r.Some? ==> forall j :: 0 <= j < r.value ==> !Matches(all[j], w, tier)
    ensures r.None? ==> forall j :: 0 <= j < |all| ==> !Matches(all[j], w, tier)
  {
    if all == [] then None
    else if Matches(all[0], w, tier) then Some(0)
    else match Find(all[1..], w, tier)
      case None => None
      case Some(i) => Some(i + 1)
  }

  /** The cascade as the source writes it; the result indexes the catalogue. */
  function SelectVoice(all: seq<Voice>, w: Wanted): (r: Option<nat>)
    ensures r.None? <==> all == []
    ensures r.Some? ==> r.value < |all|
  {
    if all == [] then None
    else if DesiredName(w) != "" && Find(all, w, 1).Some? then Find(all, w, 1)
    else if DesiredName(w) != "" && Find(all, w, 2).Some? then Find(all, w, 2)
    else if DesiredLang(w) != "" && Find(all, w, 3).Some? then Find(all, w, 3)
    else if DesiredLang(w) != "" && LangBase(w) != "" && Find(all, w, 4).Some? then Find(all, w, 4)
    else if NavBase(w) != "" && Find(all, w, 5).Some? then Find(all, w, 5)
    else Some(0)
  }

  /** The rank of a voice: the first test it passes, 6 when it passes none. */
  function Tier(v: Voice, w: Wanted): (t: nat)
    ensures 1 <= t <= 6
    ensures t <= 5 ==> Matches(v, w, t)
    ensures t > 1 ==> !Matches(v, w, 1)
    ensures t > 2 ==> !Matches(v, w, 2)
    ensures t > 3 ==> !Matches(v, w, 3)
    ensures t > 4 ==> !Matches(v, w, 4)
    ensures t > 5 ==> !Matches(v, w, 5)
  {
    if Matches(v, w, 1) then 1
    else if Matches(v, w, 2) then 2
    else if Matches(v, w, 3) then 3
    else if Matches(v, w, 4) then 4
    else if Matches(v, w, 5) then 5
    else 6
  }

  /** A voice passing test `t` ranks `t` or better; one failing every test before `t` ranks `t` or worse. */
  lemma TierBounds(v: Voice, w: Wanted, t: nat)
    requires 1 <= t <= 5
    ensures Matches(v, w, t) ==> Tier(v, w) <= t
    ensures (forall u :: 1 <= u < t ==> !Matches(v, w, u)) ==> Tier(v, w) >= t
  {
    if forall u :: 1 <= u < t ==> !Matches(v, w, u) {
      assert t > 1 ==> !Matches(v, w, 1);
      assert t > 2 ==> !Matches(v, w, 2);
      assert t > 3 ==> !Matches(v, w, 3);
      assert t > 4 ==> !Matches(v, w, 4);
    }
  }

  /** Each guard of the cascade holds whenever its test finds a voice, so it takes the first test that finds one. */
  lemma SelectVoiceCascade(all: seq<Voice>, w: Wanted)
    requires all != []
    ensures Find(all, w, 1).Some? ==> SelectVoice(all, w) == Find(all, w, 1)
    ensures Find(all, w, 1).None? && Find(all, w, 2).Some? ==> SelectVoice(all, w) == Find(all, w, 2)
    ensures Find(all, w, 1).None? && Find(all, w, 2).None? && Find(all, w, 3).Some? ==> SelectVoice(all, w) == Find(all, w, 3)
    ensures Find(all, w, 1).None? && Find(all, w, 2).None? && Find(all, w, 3).None? && Find(all, w, 4).Some? ==> SelectVoice(all, w) == Find(all, w, 4)
    ensures Find(all, w, 1).None? && Find(all, w, 2).None? && Find(all, w, 3).None? && Find(all, w, 4).None? && Find(all, w, 5).Some?
      ==> SelectVoice(all, w) == Find(all, w, 5)
    ensures Find(all, w, 1).None? && Find(all, w, 2).None? && Find(all, w, 3).None? && Find(all, w, 4).None? && Find(all, w, 5).None?
      ==> SelectVoice(all, w) == Some(0)
  {
    if Find(all, w, 1).Some? {
      assert NameExact(all[Find(all, w, 1).value], w);
    }
    if Find(all, w, 2).Some? {
      assert NamePartial(all[Find(all, w, 2).value], w);
    }
    if Find(all, w, 3).Some? {
      assert LangExact(all[Find(all, w, 3).value], w);
    }
    if Find(all, w, 4).Some? {
      assert LangBaseMatch(all[Find(all, w, 4).value], w);
    }
    if Find(all, w, 5).Some? {
      assert NavigatorMatch(all[Find(all, w, 5).value], w);
    }
  }

  /** The first test that some voice of the catalogue passes, 6 when none does. */
  function FirstTier(all: seq<Voice>, w: Wanted): (t: nat)
    ensures 1 <= t <= 6
    ensures t <= 5 ==> Find(all, w, t).Some?
    ensures t > 1 ==> Find(all, w, 1).None?
    ensures t > 2 ==> Find(all, w, 2).None?
    ensures t > 3 ==> Find(all, w, 3).None?
    ensures t > 4 ==> Find(all, w, 4).None?
    ensures t > 5 ==> Find(all, w, 5).None?
  {
    if Find(all, w, 1).Some? then 1
    else if Find(all, w, 2).Some? then 2
    else if Find(all, w, 3).Some? then 3
    else if Find(all, w, 4).Some? then 4
    else if Find(all, w, 5).Some? then 5
    else 6
  }

  /** No test before the first one that finds a voice finds any. */
  lemma BeforeFirstTier(all: seq<Voice>, w: Wanted, u: nat)
    requires 1 <= u < FirstTier(all, w)
    ensures Find(all, w, u).None?
  {
    if u == 1 {
    } else if u == 2 {
    } else if u == 3 {
    } else if u == 4 {
    } else {
      assert u == 5;
    }
  }

  /** When test `t` is the first any voice passes, its first match ranks `t`, no voice ranks better and every earlier one worse. */
  lemma FirstAtTier(all: seq<Voice>, w: Wanted, t: nat)
    requires t == FirstTier(all, w) && t <= 5
    ensures var i := Find(all, w, t).value;
      Tier(all[i], w) == t && (forall j :: 0 <= j < |all| ==> t <= Tier(all[j], w))
      && (forall j :: 0 <= j < i ==> t < Tier(all[j], w))
  {
    var i := Find(all, w, t).value;
    forall j | 0 <= j < |all|
      ensures t <= Tier(all[j], w)
      ensures j < i ==> t < Tier(all[j], w)
      ensures j == i ==> Tier(all[j], w) == t
    {
      forall u | 1 <= u < t
        ensures !Matches(all[j], w, u)
      {
        BeforeFirstTier(all, w, u);
      }
      TierBounds(all[j], w, t);
      if j < i {
        assert !Matches(all[j], w, t);
      }
    }
  }

  /** The cascade returns the first match of the first test that finds one, and the first voice when no test does. */
  lemma ChosenAtFirstTier(all: seq<Voice>, w: Wanted)
    requires all != []
    ensures FirstTier(all, w) <= 5 ==> SelectVoice(all, w) == Find(all, w, FirstTier(all, w))
    ensures FirstTier(all, w) == 6 ==> SelectVoice(all, w) == Some(0)
  {
    SelectVoiceCascade(all, w);
  }

  /** When no test finds a voice, every voice ranks 6. */
  lemma NoTierMatches(all: seq<Voice>, w: Wanted)
    requires FirstTier(all, w) == 6
    ensures forall j :: 0 <= j < |all| ==> Tier(all[j], w) == 6
  {
    forall j | 0 <= j < |all|
      ensures Tier(all[j], w) == 6
    {
      TierBounds(all[j], w, 5);
      assert Find(all, w, 5).None?;
    }
  }

  /**
   * The cascade picks the best-ranked voice, and among equally ranked
   * voices the first one: no voice outranks the chosen one and every
   * earlier voice ranks strictly worse.
   */
  lemma SelectVoiceIsFirstBest(all: seq<Voice>, w: Wanted)
    requires all != []
    ensures var i := SelectVoice(all, w).value;
      (forall j :: 0 <= j < |all| ==> Tier(all[i], w) <= Tier(all[j], w))
      && (forall j :: 0 <= j < i ==> Tier(all[i], w) < Tier(all[j], w))
  {
    var t := FirstTier(all, w);
    ChosenAtFirstTier(all, w);
    if t <= 5 {
      FirstAtTier(all, w, t);
    } else {
      NoTierMatches(all, w);
    }
  }
}
