/**
 * Small conversions shared by the revisions: number fallbacks, the two
 * `normalizeString` helpers, `parseBinary`, and the select-value helpers.
 *
 * A JavaScript `Number(x)` result is modelled as an Option: None stands
 * for NaN or an infinite value, which `Number.isFinite` rejects.
 */
module Utils {
  import opened Wrappers
  import opened Text
  import opened Json

  /** `safeNumber(v, f)`: the number when it is finite, else the fallback. */
  function SafeNumber<T>(parsed: Option<T>, fallback: T): (r: T)
    ensures parsed.Some? ==> r == parsed.value
    ensures parsed.None? ==> r == fallback
  {
    match parsed
    case Some(n) => n
    case None => fallback
  }

  /** `Number(x) || 1`: NaN and 0 are falsy and give 1. */
  function NumberOrOne(parsed: Option<int>): (r: int)
    ensures r != 0
    ensures parsed.Some? && parsed.value != 0 ==> r == parsed.value
    ensures parsed.None? || parsed.value == 0 ==> r == 1
  {
    if parsed.Some? && parsed.value != 0 then parsed.value else 1
  }

  /** Characters of the class `[_\s]`. */
  predicate IsGap(c: char) {
    c == '_' || IsSpace(c)
  }

  /**
   * `replace(/[_\s]+/g, "-")` read left to right: the first gap character of
   * a run becomes a dash, the rest of the run (`inRun`) is dropped.
   */
  function Collapse(s: string, inRun: bool): (r: string)
    ensures forall c :: c in r ==> !IsGap(c)
    ensures forall c :: c in r ==> c in s || c == '-'
    decreases |s|
  {
    if s == [] then []
    else if IsGap(s[0]) then (if inRun then [] else "-") + Collapse(s[1..], true)
    else [s[0]] + Collapse(s[1..], false)
  }

  /** The replacement over a whole string, which starts outside any run. */
  function CollapseGaps(s: string): (r: string)
    ensures forall c :: c in r ==> !IsGap(c)
    ensures forall c :: c in r ==> c in s || c == '-'
  {
    Collapse(s, false)
  }

  /** `normalizeString` of app/modules/utils.js, modules/utils.js and script/script_09.js. */
  function NormalizeString(s: string): (r: string)
    ensures forall c :: c in r ==> !IsGap(c) && !('A' <= c <= 'Z')
  {
    Trim(CollapseGaps(Lower(s)))
  }

  /** The same helper called with its argument omitted takes the default `""`. */
  function NormalizeArgument(s: Option<string>): (r: string)
    ensures s.None? ==> r == ""
    ensures s.Some? ==> r == NormalizeString(s.value)
  {
    NormalizeString(s.GetOr(""))
  }

  lemma {:induction false} CollapseWithoutGaps(s: string)
    requires forall c :: c in s ==> !IsGap(c)
    ensures CollapseGaps(s) == s
    decreases |s|
  {
    if s != [] {
      assert forall c :: c in s[1..] ==> c in s;
      CollapseWithoutGaps(s[1..]);
    }
  }

  lemma TrimWithoutSpaces(s: string)
    requires forall c :: c in s ==> !IsSpace(c)
    ensures Trim(s) == s
  {
    assert TrimStart(s) == s;
  }

  lemma LowerWithoutCapitals(s: string)
    requires forall c :: c in s ==> !('A' <= c <= 'Z')
    ensures Lower(s) == s
  {
    forall i | 0 <= i < |s|
      ensures Lower(s)[i] == s[i]
    {
      assert s[i] in s;
    }
  }

  /** A non-gap character ends the run before it; the text after it is scanned afresh. */
  lemma {:induction false} CollapseSplitsAt(a: string, c: char, b: string, inRun: bool)
    requires !IsGap(c)
    ensures Collapse(a + [c] + b, inRun) == Collapse(a, inRun) + [c] + Collapse(b, false)
    decreases |a|
  {
    if a == [] {
      assert a + [c] + b == [c] + b && ([c] + b)[1..] == b;
    } else {
      var s := a + [c] + b;
      assert s[0] == a[0] && s[1..] == a[1..] + [c] + b;
      CollapseSplitsAt(a[1..], c, b, IsGap(a[0]));
    }
  }

  /** A non-gap character splits the replacement: each side collapses on its own and the character stays between them. */
  lemma CollapseSplitsAtNonGap(a: string, c: char, b: string)
    requires !IsGap(c)
    ensures CollapseGaps(a + [c] + b) == CollapseGaps(a) + [c] + CollapseGaps(b)
  {
    CollapseSplitsAt(a, c, b, false);
  }

  /** A run of gap characters gives nothing more once a run has begun. */
  lemma {:induction false} CollapseInRun(g: string)
    requires forall i :: 0 <= i < |g| ==> IsGap(g[i])
    ensures Collapse(g, true) == []
    decreases |g|
  {
    if g != [] {
      CollapseInRun(g[1..]);
    }
  }

  /** A non-empty run of gap characters becomes a single dash. */
  lemma CollapseRun(g: string)
    requires g != [] && forall i :: 0 <= i < |g| ==> IsGap(g[i])
    ensures CollapseGaps(g) == "-"
  {
    CollapseInRun(g[1..]);
  }

  /** The trim comes after the replacement, so it never removes anything. */
  lemma NormalizeTrimIsInert(s: string)
    ensures NormalizeString(s) == CollapseGaps(Lower(s))
  {
    TrimWithoutSpaces(CollapseGaps(Lower(s)));
  }

  /** The result has no gap characters and no capitals, so normalising twice changes nothing. */
  lemma NormalizeIdempotent(s: string)
    ensures NormalizeString(NormalizeString(s)) == NormalizeString(s)
  {
    var n := NormalizeString(s);
    LowerWithoutCapitals(n);
    CollapseWithoutGaps(n);
    TrimWithoutSpaces(n);
  }

  /** Leading whitespace is replaced by a dash rather than trimmed away. */
  lemma NormalizeLeadingSpace(s: string)
    requires s != [] && IsSpace(s[0])
    ensures NormalizeString(s) != [] && NormalizeString(s)[0] == '-'
  {
    NormalizeTrimIsInert(s);
    assert Lower(s)[0] == s[0];
  }

  lemma CollapseExample()
    ensures CollapseGaps(" a ") == "-a-"
  {
    assert !IsGap('a') && IsGap(' ');
    assert " "[1..] == [];
    assert "a "[1..] == " ";
    assert " a "[1..] == "a ";
    assert Collapse(" ", false) == "-";
    assert Collapse("a ", true) == "a-";
  }

  /** Surrounding spaces turn into dashes: `" a "` normalises to `"-a-"`. */
  lemma NormalizeExample()
    ensures NormalizeString(" a ") == "-a-"
  {
    var s := " a ";
    assert LowerChar(' ') == ' ' && LowerChar('a') == 'a';
    assert Lower(s) == s by {
      assert Lower(s)[0] == s[0] && Lower(s)[1] == s[1] && Lower(s)[2] == s[2];
    }
    CollapseExample();
    NormalizeTrimIsInert(s);
  }

  /** `normalizeString` of app/main_00.js and app/main.js: trim, then lower-case. */
  function TrimLower(s: string): (r: string)
    ensures r == [] || (!IsSpace(r[0]) && !IsSpace(r[|r| - 1]))
    ensures forall c :: c in r ==> !('A' <= c <= 'Z')
  {
    Lower(Trim(s))
  }

  lemma TrimLowerIdempotent(s: string)
    ensures TrimLower(TrimLower(s)) == TrimLower(s)
  {
    var n := TrimLower(s);
    assert Trim(n) == n by {
      assert TrimStart(n) == n;
      assert TrimEnd(n) == n;
    }
    LowerWithoutCapitals(n);
  }

  /**
   * `parseBinary(val, defaultVal)`: the strings "true"/"1" and "false"/"0"
   * in any case, the booleans and the numbers 1 and 0; anything else is
   * the default.
   */
  function ParseBinary(v: Json, fallback: bool): (r: bool)
    ensures v.Str? && Lower(v.s) in {"true", "1"} ==> r
    ensures v.Str? && Lower(v.s) in {"false", "0"} ==> !r
    ensures v.Bool? ==> r == v.b
    ensures v == Num(1.0) ==> r
    ensures v == Num(0.0) ==> !r
    ensures !(v.Str? && Lower(v.s) in {"true", "1", "false", "0"}) && !v.Bool? && v != Num(1.0) && v != Num(0.0) ==> r == fallback
  {
    if v.Str? && (Lower(v.s) == "true" || Lower(v.s) == "1") then true
    else if v.Str? && (Lower(v.s) == "false" || Lower(v.s) == "0") then false
    else if v == Bool(true) || v == Num(1.0) then true
    else if v == Bool(false) || v == Num(0.0) then false
    else fallback
  }

  /** `parseBinary(x) ? 1 : 0`. */
  function BinaryFlag(v: Json): (r: Json)
    ensures r == Num(1.0) || r == Num(0.0)
    ensures r == Num(1.0) <==> ParseBinary(v, false)
  {
    if ParseBinary(v, false) then Num(1.0) else Num(0.0)
  }

  /** The boolean flags stay normalised: a second parse gives the same answer. */
  lemma BinaryFlagStable(v: Json)
    ensures BinaryFlag(BinaryFlag(v)) == BinaryFlag(v)
  {
  }

  /** The form-factor keys whose `fullscreen` entry is normalised after loading. */
  const FormFactors: seq<string> := ["shared", "mobile", "desktop"]

  /** Normalises `fullscreen` in one form factor's settings when the key is present. */
  function NormalizeFormFactor(entry: Json): (r: Json)
    ensures entry.Obj? && Get(entry.props, "fullscreen").Some? ==>
      r.Obj? && Get(r.props, "fullscreen") == Some(BinaryFlag(Get(entry.props, "fullscreen").value))
    ensures entry.Obj? ==> r.Obj? && forall k :: k != "fullscreen" ==> Get(r.props, k) == Get(entry.props, k)
    ensures !(entry.Obj? && Get(entry.props, "fullscreen").Some?) ==> r == entry
  {
    if entry.Obj? && Get(entry.props, "fullscreen").Some? then
      var v := Get(entry.props, "fullscreen").value;
      PutOthers(entry.props, "fullscreen", BinaryFlag(v));
      Obj(Put(entry.props, "fullscreen", BinaryFlag(v)), entry.isArray)
    else entry
  }

  /** Normalising a form factor twice changes nothing more. */
  lemma NormalizeFormFactorIdempotent(entry: Json)
    ensures NormalizeFormFactor(NormalizeFormFactor(entry)) == NormalizeFormFactor(entry)
  {
    if entry.Obj? && Get(entry.props, "fullscreen").Some? {
      var f := BinaryFlag(Get(entry.props, "fullscreen").value);
      PutOthers(entry.props, "fullscreen", f);
      BinaryFlagStable(Get(entry.props, "fullscreen").value);
      PutPut(entry.props, "fullscreen", f, f);
    }
  }

  /** A form-factor member on which `"fullscreen" in set` raises a TypeError: truthy, but not an object. */
  predicate BadFormFactor(m: Option<Json>) {
    m.Some? && Truthy(m.value) && !m.value.Obj?
  }

  /** What the pass leaves in one form-factor member: an object is normalised, anything else is kept. */
  function NormalizedMember(m: Option<Json>): (r: Option<Json>)
    ensures r.None? <==> m.None?
    ensures BadFormFactor(r) <==> BadFormFactor(m)
  {
    if m.Some? && m.value.Obj? then Some(NormalizeFormFactor(m.value)) else m
  }

  /**
   * One iteration of the `forEach`: `DEFAULT_SETTINGS[k]` raises on null,
   * `"fullscreen" in set` raises for a truthy non-object; the failure
   * carries the settings as the exception leaves them.
   */
  function FullscreenStep(settings: Json, k: string): (r: Result<Json, Json>)
    ensures settings.Null? ==> r == Failure(settings)
    ensures !settings.Null? && !settings.Obj? ==> r == Success(settings)
    ensures settings.Obj? ==> (r.Failure? <==> BadFormFactor(Get(settings.props, k)))
    ensures settings.Obj? && r.Failure? ==> r.error == settings
    ensures settings.Obj? && r.Success? ==> r.value.Obj? && r.value.isArray == settings.isArray
    ensures settings.Obj? && r.Success? ==> Get(r.value.props, k) == NormalizedMember(Get(settings.props, k))
  {
    if settings.Null? then Failure(settings)
    else if !settings.Obj? then Success(settings)
    else
      var m := Get(settings.props, k);
      if BadFormFactor(m) then Failure(settings)
      else if m.Some? && m.value.Obj? then
        PutOthers(settings.props, k, NormalizeFormFactor(m.value));
        Success(Obj(Put(settings.props, k, NormalizeFormFactor(m.value)), settings.isArray))
      else Success(settings)
  }

  /** One iteration writes only the member it visits. */
  lemma FullscreenStepOthers(settings: Json, k: string, x: string)
    requires settings.Obj? && FullscreenStep(settings, k).Success? && x != k
    ensures Get(FullscreenStep(settings, k).value.props, x) == Get(settings.props, x)
  {
    var m := Get(settings.props, k);
    if m.Some? && m.value.Obj? {
      GetPut(settings.props, k, NormalizeFormFactor(m.value), x);
    }
  }

  /**
   * The `fullscreen` pass over `DEFAULT_SETTINGS`, one form factor after
   * the other; an exception ends it with the settings left as they are.
   */
  function NormalizeFullscreen(settings: Json, keys: seq<string>): (r: Result<Json, Json>)
    ensures settings.Null? ==> r == (if keys == [] then Success(settings) else Failure(settings))
    ensures !settings.Null? && !settings.Obj? ==> r == Success(settings)
    ensures settings.Obj? && r.Success? ==> r.value.Obj? && r.value.isArray == settings.isArray
    ensures settings.Obj? && r.Failure? ==> r.error.Obj? && r.error.isArray == settings.isArray
    decreases |keys|
  {
    if keys == [] then Success(settings)
    else
      match FullscreenStep(settings, keys[0])
      case Failure(e) => Failure(e)
      case Success(next) => NormalizeFullscreen(next, keys[1..])
  }

  /**
   * On an object the pass fails exactly when a listed member is a truthy
   * non-object; otherwise every listed member holds its normalisation
   * (a present `fullscreen` becomes its 1/0 flag) and every other key keeps
   * its value, and even a failure touches no unlisted key.
   */
  lemma {:induction false} NormalizeFullscreenSettings(settings: Json, keys: seq<string>)
    requires settings.Obj?
    ensures var r := NormalizeFullscreen(settings, keys);
      r.Failure? <==> exists i :: 0 <= i < |keys| && BadFormFactor(Get(settings.props, keys[i]))
    ensures var r := NormalizeFullscreen(settings, keys);
      r.Success? ==> forall k :: Get(r.value.props, k) == (if k in keys then NormalizedMember(Get(settings.props, k)) else Get(settings.props, k))
    ensures var r := NormalizeFullscreen(settings, keys);
      r.Failure? ==> forall k :: k !in keys ==> Get(r.error.props, k) == Get(settings.props, k)
    decreases |keys|
  {
    if keys != [] {
      var k0 := keys[0];
      var step := FullscreenStep(settings, k0);
      if step.Failure? {
        assert BadFormFactor(Get(settings.props, keys[0]));
      } else {
        var next := step.value;
        var rest := keys[1..];
        NormalizeFullscreenSettings(next, rest);
        var r := NormalizeFullscreen(next, rest);
        assert NormalizeFullscreen(settings, keys) == r;
        assert BadFormFactor(Get(next.props, k0)) <==> BadFormFactor(Get(settings.props, k0));
        forall x
          ensures BadFormFactor(Get(next.props, x)) <==> BadFormFactor(Get(settings.props, x))
        {
          if x != k0 {
            FullscreenStepOthers(settings, k0, x);
          }
        }
        if r.Failure? {
          var i :| 0 <= i < |rest| && BadFormFactor(Get(next.props, rest[i]));
          assert keys[i + 1] == rest[i];
          forall k | k !in keys
            ensures Get(r.error.props, k) == Get(settings.props, k)
          {
            FullscreenStepOthers(settings, k0, k);
          }
        } else {
          forall i | 0 <= i < |keys|
            ensures !BadFormFactor(Get(settings.props, keys[i]))
          {
            if i > 0 {
              assert rest[i - 1] == keys[i];
            }
          }
          forall k
            ensures Get(r.value.props, k) == (if k in keys then NormalizedMember(Get(settings.props, k)) else Get(settings.props, k))
          {
            if k != k0 {
              FullscreenStepOthers(settings, k0, k);
            } else if k in rest {
              var m := Get(settings.props, k0);
              if m.Some? && m.value.Obj? {
                NormalizeFormFactorIdempotent(m.value);
              }
            }
          }
        }
      }
    }
  }

  /** The pass over two lists of keys in a row is the pass over the first, then, unless it raised, over the second. */
  lemma {:induction false} NormalizeFullscreenConcat(settings: Json, a: seq<string>, b: seq<string>)
    ensures NormalizeFullscreen(settings, a + b) ==
      match NormalizeFullscreen(settings, a)
      case Failure(e) => Failure(e)
      case Success(next) => NormalizeFullscreen(next, b)
    decreases |a|
  {
    if a == [] {
      assert a + b == b;
    } else {
      assert (a + b)[0] == a[0] && (a + b)[1..] == a[1..] + b;
      match FullscreenStep(settings, a[0])
      case Failure(e) =>
      case Success(next) => NormalizeFullscreenConcat(next, a[1..], b);
    }
  }

  /**
   * An exception ends the pass at the first bad member, with the members
   * before it already normalised in place.
   */
  lemma NormalizeFullscreenStopsAtFirstBad(settings: Json, pre: seq<string>, bad: string, post: seq<string>)
    requires settings.Obj? && BadFormFactor(Get(settings.props, bad))
    requires forall k :: k in pre ==> !BadFormFactor(Get(settings.props, k))
    ensures NormalizeFullscreen(settings, pre).Success?
    ensures NormalizeFullscreen(settings, pre + [bad] + post) == Failure(NormalizeFullscreen(settings, pre).value)
  {
    NormalizeFullscreenSettings(settings, pre);
    var next := NormalizeFullscreen(settings, pre).value;
    assert bad !in pre;
    assert Get(next.props, bad) == Get(settings.props, bad);
    assert pre + [bad] + post == pre + ([bad] + post);
    NormalizeFullscreenConcat(settings, pre, [bad] + post);
    assert ([bad] + post)[0] == bad;
  }

  /** A `<select>`: its option values and its current value. */
  datatype Select = Select(options: seq<string>, value: string)

  /** Assigning `select.value`: a value that names no option leaves nothing selected. */
  function Assign(sel: Select, v: string): (r: Select)
    ensures r.options == sel.options
    ensures v in sel.options ==> r.value == v
    ensures v !in sel.options ==> r.value == ""
  {
    sel.(value := if v in sel.options then v else "")
  }

  /**
   * `safeSetSelectValue(select, value, fallback)` of app/modules/utils.js,
   * modules/ui.js and app/main_00.js: the choice is the value when it is an
   * option and the fallback otherwise; the select is written only when its
   * value differs; a missing select returns the fallback.
   */
  function SafeSetSelectValue(sel: Option<Select>, value: string, fallback: string): (r: (string, Option<Select>))
    ensures sel.None? ==> r == (fallback, None)
    ensures sel.Some? && value in sel.value.options ==> r.0 == value
    ensures sel.Some? && value !in sel.value.options ==> r.0 == fallback
    ensures sel.Some? ==> r.1.Some? && r.1.value.options == sel.value.options
    ensures sel.Some? && r.0 in sel.value.options ==> r.1.value.value == r.0
    ensures sel.Some? && sel.value.value == r.0 ==> r.1 == sel
  {
    match sel
    case None => (fallback, None)
    case Some(s) =>
      var chosen := if value in s.options then value else fallback;
      (chosen, Some(if s.value != chosen then Assign(s, chosen) else s))
  }

  /** Setting the same value twice writes nothing the second time. */
  lemma SafeSetSelectValueIdempotent(sel: Option<Select>, value: string, fallback: string)
    ensures var (c, after) := SafeSetSelectValue(sel, value, fallback);
            SafeSetSelectValue(after, value, fallback) == (c, after)
  {
  }

  /**
   * `safeSetSelectValue` of app/main_01.js: the value if it is an option,
   * else a non-empty fallback that is an option, else the first option;
   * a select without options and a missing select are left alone.
   */
  function SetSelectValueOrFirst(sel: Option<Select>, value: string, fallback: string): (r: Option<Select>)
    ensures sel.None? ==> r.None?
    ensures sel.Some? ==> r.Some? && r.value.options == sel.value.options
    ensures sel.Some? && value in sel.value.options ==> r.value.value == value
    ensures sel.Some? && value !in sel.value.options && fallback != "" && fallback in sel.value.options ==> r.value.value == fallback
    ensures sel.Some? && value !in sel.value.options && (fallback == "" || fallback !in sel.value.options) && sel.value.options != [] ==>
      r.value.value == sel.value.options[0]
    ensures sel.Some? && sel.value.options == [] ==> r == sel
  {
    match sel
    case None => None
    case Some(s) =>
      if value in s.options then Some(Assign(s, value))
      else if fallback != "" && fallback in s.options then Some(Assign(s, fallback))
      else if |s.options| > 0 then Some(Assign(s, s.options[0]))
      else sel
  }

  /** Whenever the select has options, one of them ends up selected. */
  lemma SetSelectValueOrFirstSelects(sel: Select, value: string, fallback: string)
    requires sel.options != []
    ensures SetSelectValueOrFirst(Some(sel), value, fallback).value.value in sel.options
  {
  }

  /**
   * `setSelectValueWithFallback` of script/script_05.js: the value when it
   * is an option, else the fallback, written to the select unconditionally.
   */
  function SetSelectValueWithFallback(sel: Select, value: string, fallback: string): (r: (string, Select))
    ensures value in sel.options ==> r.0 == value
    ensures value !in sel.options ==> r.0 == fallback
    ensures r.1 == Assign(sel, r.0)
  {
    var chosen := if value in sel.options then value else fallback;
    (chosen, Assign(sel, chosen))
  }
}
