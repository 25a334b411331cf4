/**
 * The decision tables of `createUI` (modules/ui.js): which value the
 * language and voice selects end up holding, which controls are disabled,
 * which number cells are marked, and how the settings are read back from
 * the controls. `isMobile` stands for the user-agent probe.
 */
module Ui {
  import opened Wrappers
  import opened Text
  import opened Json
  import opened Utils
  import opened Voices

  /** The select value after its options are replaced by `options` and nothing is chosen: the first option. */
  function FirstOption(options: seq<string>): (r: string)
    ensures options != [] ==> r == options[0]
    ensures options == [] ==> r == ""
  {
    if options == [] then "" else options[0]
  }

  /** The base code the settings ask for: `((languageCode || "ALL").split(/[-_]/)[0] || "ALL").toUpperCase()`. */
  function ConfiguredBase(languageCode: string): (r: string)
    ensures r != []
  {
    var seg := FirstSegment(if languageCode == "" then "ALL" else languageCode, false);
    Upper(if seg == "" then "ALL" else seg)
  }

  /**
   * populateLanguageSelect: the options become the available languages; the
   * configured base code is selected when available, else "ALL" on mobile,
   * else the select keeps the value the new options give it.
   */
  function LanguageSelect(available: seq<string>, languageCode: string, isMobile: bool): (r: Select)
    ensures r.options == available
    ensures ConfiguredBase(languageCode) in available ==> r.value == ConfiguredBase(languageCode)
    ensures ConfiguredBase(languageCode) !in available && isMobile ==> r == Assign(Select(available, FirstOption(available)), "ALL")
    ensures ConfiguredBase(languageCode) !in available && !isMobile ==> r.value == FirstOption(available)
    ensures r.value in available || r.value == ""
  {
    var blank := Select(available, FirstOption(available));
    var base := ConfiguredBase(languageCode);
    if base in available then Assign(blank, base)
    else if isMobile then Assign(blank, "ALL")
    else blank
  }

  /** A voice is shown for a selected code when its upper-cased lang starts with the code. */
  predicate ShownFor(v: Voice, code: string) {
    StartsWith(Upper(v.lang), code)
  }

  function FilterByCode(voices: seq<Voice>, code: string): (r: seq<Voice>)
    ensures forall v :: v in r <==> v in voices && ShownFor(v, code)
    ensures |r| <= |voices|
  {
    if voices == [] then []
    else (if ShownFor(voices[0], code) then [voices[0]] else []) + FilterByCode(voices[1..], code)
  }

  /** `filter` keeps the order: filtering a concatenation filters each part. */
  lemma {:induction false} FilterByCodeConcat(a: seq<Voice>, b: seq<Voice>, code: string)
    ensures FilterByCode(a + b, code) == FilterByCode(a, code) + FilterByCode(b, code)
    decreases |a|
  {
    if a == [] {
      assert a + b == b;
    } else {
      assert (a + b)[0] == a[0] && (a + b)[1..] == a[1..] + b;
      FilterByCodeConcat(a[1..], b, code);
    }
  }

  /** A single voice is kept exactly when it is shown for the code. */
  lemma FilterByCodeSingle(v: Voice, code: string)
    ensures FilterByCode([v], code) == if ShownFor(v, code) then [v] else []
  {
    assert [v][1..] == [];
  }

  /** The voices populateVoiceSelect lists: all on mobile or for "ALL", else those of the selected code. */
  function ShownVoices(voices: seq<Voice>, selectValue: string, isMobile: bool): (r: seq<Voice>)
    ensures var code := Upper(if selectValue == "" then "ALL" else selectValue);
      (isMobile || code == "ALL" ==> r == voices) &&
      (!isMobile && code != "ALL" ==> r == FilterByCode(voices, code) && forall v :: v in r <==> v in voices && ShownFor(v, code))
  {
    var code := Upper(if selectValue == "" then "ALL" else selectValue);
    if isMobile || code == "ALL" then voices else FilterByCode(voices, code)
  }

  /** What a voice is compared on: its normalised lang on mobile, its normalised name on desktop. */
  function VoiceKey(v: Voice, isMobile: bool): string {
    NormalizeString(if isMobile then v.lang else v.name)
  }

  /** What the settings ask for, normalised the same way. */
  function RequestKey(isMobile: bool, voiceName: string, languageCode: string): string {
    NormalizeString(if isMobile then languageCode else voiceName)
  }

  function VoiceKeys(vs: seq<Voice>, isMobile: bool): (r: seq<string>)
    ensures |r| == |vs| && forall i :: 0 <= i < |vs| ==> r[i] == VoiceKey(vs[i], isMobile)
  {
    seq(|vs|, i requires 0 <= i < |vs| => VoiceKey(vs[i], isMobile))
  }

  /** `find` on the keys: the first position holding `want`. */
  function FindKey(keys: seq<string>, want: string): (r: Option<nat>)
    ensures r.Some? ==> r.value < |keys| && keys[r.value] == want
    ensures r.Some? ==> forall j :: 0 <= j < r.value ==> keys[j] != want
    ensures r.None? ==> forall j :: 0 <= j < |keys| ==> keys[j] != want
  {
    if keys == [] then None
    else if keys[0] == want then Some(0)
    else match FindKey(keys[1..], want)
      case None => None
      case Some(i) => Some(i + 1)
  }

  /**
   * The name of the first entry whose key is `want`, else the first name,
   * else "" (a select with no options has the empty value).
   */
  function ChooseByKey(names: seq<string>, keys: seq<string>, want: string): (r: string)
    requires |names| == |keys|
    ensures names == [] ==> r == ""
    ensures forall k :: 0 <= k < |keys| && keys[k] == want && (forall j :: 0 <= j < k ==> keys[j] != want) ==> r == names[k]
    ensures (forall j :: 0 <= j < |keys| ==> keys[j] != want) && names != [] ==> r == names[0]
    ensures names != [] ==> r in names
  {
    match FindKey(keys, want)
    case Some(i) => names[i]
    case None => FirstOption(names)
  }

  function Names(vs: seq<Voice>): (r: seq<string>)
    ensures |r| == |vs| && forall i :: 0 <= i < |vs| ==> r[i] == vs[i].name
  {
    seq(|vs|, i requires 0 <= i < |vs| => vs[i].name)
  }

  /**
   * The voice name the select holds afterwards, which populateVoiceSelect
   * also stores as `settings.voiceName`; it does nothing (None) when there
   * are no voices at all.
   */
  function VoiceSelectValue(voices: seq<Voice>, selectValue: string, isMobile: bool, voiceName: string, languageCode: string): (r: Option<string>)
    ensures voices == [] <==> r.None?
    ensures r.Some? ==> r.value == ChooseByKey(Names(ShownVoices(voices, selectValue, isMobile)),
      VoiceKeys(ShownVoices(voices, selectValue, isMobile), isMobile), RequestKey(isMobile, voiceName, languageCode))
  {
    if voices == [] then None
    else
      var shown := ShownVoices(voices, selectValue, isMobile);
      Some(ChooseByKey(Names(shown), VoiceKeys(shown, isMobile), RequestKey(isMobile, voiceName, languageCode)))
  }

  /** When some voice is shown, the choice is the name of a shown voice. */
  lemma ChoiceIsShownVoice(shown: seq<Voice>, isMobile: bool, want: string)
    requires shown != []
    ensures var r := ChooseByKey(Names(shown), VoiceKeys(shown, isMobile), want);
      exists i :: 0 <= i < |shown| && shown[i].name == r
  {
    var names := Names(shown);
    var keys := VoiceKeys(shown, isMobile);
    var r := ChooseByKey(names, keys, want);
    match FindKey(keys, want)
    case Some(i) =>
      assert r == names[i];
      assert shown[i].name == r;
    case None =>
      assert r == names[0];
      assert shown[0].name == r;
  }

  /** The first shown voice whose key is the requested one is chosen. */
  lemma ChoiceIsFirstMatch(shown: seq<Voice>, isMobile: bool, want: string, k: nat)
    requires k < |shown| && VoiceKey(shown[k], isMobile) == want
    requires forall j :: 0 <= j < k ==> VoiceKey(shown[j], isMobile) != want
    ensures ChooseByKey(Names(shown), VoiceKeys(shown, isMobile), want) == shown[k].name
  {
    var keys := VoiceKeys(shown, isMobile);
    assert keys[k] == want;
    assert forall j :: 0 <= j < k ==> keys[j] != want;
    assert Names(shown)[k] == shown[k].name;
  }

  /** Without a requested voice among those shown, the first shown voice is chosen. */
  lemma ChoiceFallsBackToFirst(shown: seq<Voice>, isMobile: bool, want: string)
    requires shown != []
    requires forall j :: 0 <= j < |shown| ==> VoiceKey(shown[j], isMobile) != want
    ensures ChooseByKey(Names(shown), VoiceKeys(shown, isMobile), want) == shown[0].name
  {
    var keys := VoiceKeys(shown, isMobile);
    assert forall j :: 0 <= j < |keys| ==> keys[j] != want;
  }

  /** Which controls updateControlsState disables. */
  datatype Controls = Controls(
    languageDisabled: bool, voiceDisabled: bool, fillRandomDisabled: bool, countDisabled: bool,
    repeatDisabled: bool, digitLengthDisabled: bool, resetDisabled: bool)

  /**
   * The initial state: READY, index 0, and the repeats-left label equal to
   * the repeat select as numbers; None stands for a text whose Number is NaN,
   * which equals nothing.
   */
  predicate IsInitial(appState: string, currentIndex: int, repeatLeft: Option<real>, repeatSelect: Option<real>) {
    appState == "ready" && currentIndex == 0 && repeatLeft.Some? && repeatSelect.Some? && repeatLeft.value == repeatSelect.value
  }

  function ControlsState(appState: string, currentIndex: int, repeatLeft: Option<real>, repeatSelect: Option<real>): (r: Controls)
    ensures r.languageDisabled == r.voiceDisabled == (appState == "playing")
    ensures var initial := IsInitial(appState, currentIndex, repeatLeft, repeatSelect);
      r.fillRandomDisabled == r.countDisabled == r.repeatDisabled == r.digitLengthDisabled == !initial
    ensures r.resetDisabled == !(appState == "paused" && !IsInitial(appState, currentIndex, repeatLeft, repeatSelect))
  {
    var initial := IsInitial(appState, currentIndex, repeatLeft, repeatSelect);
    Controls(appState == "playing", appState == "playing", !initial, !initial, !initial, !initial, !(appState == "paused" && !initial))
  }

  /** Because the initial state is READY, reset is enabled exactly when paused. */
  lemma ResetEnabledIffPaused(appState: string, currentIndex: int, repeatLeft: Option<real>, repeatSelect: Option<real>)
    ensures !ControlsState(appState, currentIndex, repeatLeft, repeatSelect).resetDisabled <==> appState == "paused"
  {
  }

  /** While playing the language and voice are locked, and the count/repeat/digit controls too. */
  lemma PlayingLocksEverything(currentIndex: int, repeatLeft: Option<real>, repeatSelect: Option<real>)
    ensures var c := ControlsState("playing", currentIndex, repeatLeft, repeatSelect);
      c.languageDisabled && c.voiceDisabled && c.countDisabled && c.repeatDisabled && c.digitLengthDisabled && c.resetDisabled
  {
  }

  /** A number cell of the grid: its text and its two marker classes. */
  datatype Input = Input(value: string, selected: bool, highlight: bool)

  /** `idx < count` with count = `Number(settings.count || 0)`; None stands for NaN. */
  predicate Counted(idx: int, count: Option<real>) {
    count.Some? && (idx as real) < count.value
  }

  /** buildPlayQueue: the values of the cells marked `selected`, in grid order. */
  function SelectedValues(cells: seq<Input>): (r: seq<string>)
    ensures |r| <= |cells|
  {
    if cells == [] then [] else (if cells[0].selected then [cells[0].value] else []) + SelectedValues(cells[1..])
  }

  /** The queue keeps grid order: the queue of two runs of cells is the first run's queue, then the second's. */
  lemma {:induction false} SelectedValuesConcat(a: seq<Input>, b: seq<Input>)
    ensures SelectedValues(a + b) == SelectedValues(a) + SelectedValues(b)
    decreases |a|
  {
    if a == [] {
      assert a + b == b;
    } else {
      assert (a + b)[0] == a[0] && (a + b)[1..] == a[1..] + b;
      SelectedValuesConcat(a[1..], b);
    }
  }

  /** One cell contributes its value exactly when it is marked. */
  lemma SelectedValuesSingle(c: Input)
    ensures SelectedValues([c]) == if c.selected then [c.value] else []
  {
    assert [c][1..] == [];
  }

  /** The queue holds the value of every marked cell and no other value. */
  lemma {:induction false} SelectedValuesMembers(cells: seq<Input>)
    ensures forall i :: 0 <= i < |cells| && cells[i].selected ==> cells[i].value in SelectedValues(cells)
    ensures forall v :: v in SelectedValues(cells) ==> exists i :: 0 <= i < |cells| && cells[i].selected && cells[i].value == v
    decreases |cells|
  {
    if cells != [] {
      SelectedValuesMembers(cells[1..]);
      assert forall i :: 1 <= i < |cells| ==> cells[i] == cells[1..][i - 1];
    }
  }

  /** The cells' values, in grid order. */
  function Values(cells: seq<Input>): (r: seq<string>)
    ensures |r| == |cells| && forall i :: 0 <= i < |cells| ==> r[i] == cells[i].value
  {
    if cells == [] then [] else [cells[0].value] + Values(cells[1..])
  }

  /** Marking the cells: their first `n` cells selected, none after. */
  predicate MarkedPrefix(cells: seq<Input>, n: nat) {
    n <= |cells| && (forall i :: 0 <= i < n ==> cells[i].selected) && (forall i :: n <= i < |cells| ==> !cells[i].selected)
  }

  /** After highlightSelection the play queue is the values of the first `count` cells. */
  lemma {:induction false} SelectedPrefix(cells: seq<Input>, n: nat)
    requires MarkedPrefix(cells, n)
    ensures SelectedValues(cells) == Values(cells)[..n]
  {
    if cells != [] {
      assert MarkedPrefix(cells[1..], if n == 0 then 0 else n - 1) by {
        forall i | 0 <= i < |cells[1..]| ensures cells[1..][i] == cells[i + 1] { }
      }
      SelectedPrefix(cells[1..], if n == 0 then 0 else n - 1);
      assert Values(cells) == [cells[0].value] + Values(cells[1..]);
    }
  }

  /** The number of cells below a count, as highlightSelection selects them. */
  function CountedCells(len: nat, count: Option<real>): (n: nat)
    ensures n <= len
    ensures forall i :: 0 <= i < len ==> (Counted(i, count) <==> i < n)
  {
    if len == 0 then 0
    else if Counted(len - 1, count) then len
    else CountedCells(len - 1, count)
  }

  /**
   * highlightSelection: cell i is `selected` iff i < count and `highlight`
   * iff i is the current index; the values stay. Returns the overlay text,
   * the current cell's value or "".
   */
  method HighlightSelection(cells: array<Input>, count: Option<real>, currentIndex: int) returns (overlay: string)
    modifies cells
    ensures forall i :: 0 <= i < cells.Length ==>
      cells[i] == old(cells[i]).(selected := Counted(i, count), highlight := i == currentIndex)
    ensures MarkedPrefix(cells[..], CountedCells(cells.Length, count))
    ensures overlay == if 0 <= currentIndex < cells.Length then cells[currentIndex].value else ""
  {
    for idx := 0 to cells.Length
      invariant forall i :: 0 <= i < idx ==> cells[i] == old(cells[i]).(selected := Counted(i, count), highlight := i == currentIndex)
      invariant forall i :: idx <= i < cells.Length ==> cells[i] == old(cells[i])
    {
      var sel := Counted(idx, count);
      var hi := idx == currentIndex;
      if cells[idx].selected != sel {
        cells[idx] := cells[idx].(selected := sel);
      }
      if cells[idx].highlight != hi {
        cells[idx] := cells[idx].(highlight := hi);
      }
    }
    overlay := if 0 <= currentIndex < cells.Length then cells[currentIndex].value else "";
  }

  /** The settings keys updateSettingsFromUI writes, in its order. */
  const UiKeys: seq<string> := ["digitLength", "count", "repeat", "uiLang", "languageCode", "voiceName", "speed", "delay", "fullscreen"]

  /**
   * updateSettingsFromUI over `keys`: each key whose control exists gets the
   * control's value when it is non-empty, else keeps its previous value.
   */
  function SettingsFromUi(settings: seq<Prop>, keys: seq<string>, controls: map<string, string>): (r: seq<Prop>)
    ensures forall k :: k !in keys ==> Get(r, k) == Get(settings, k)
    ensures forall k :: k in keys && k in controls && controls[k] != "" ==> Get(r, k) == Some(Str(controls[k]))
    ensures forall k :: k in keys && !(k in controls && controls[k] != "") ==> Get(r, k) == Get(settings, k)
    decreases |keys|
  {
    if keys == [] then settings
    else
      var k := keys[0];
      var next := if k in controls && controls[k] != "" then Put(settings, k, Str(controls[k])) else settings;
      PutOthers(settings, k, Str(if k in controls then controls[k] else ""));
      var r := SettingsFromUi(next, keys[1..], controls);
      assert forall x :: x in keys ==> x == k || x in keys[1..];
      r
  }
}
