/**
 * `readSettingsFromUI` of app/main_01.js: the settings the form's selects
 * hold, each kept only when it parses as the field's kind of number (or is
 * an allowed interface language) and names one of its select's options;
 * every other field, and a field whose select is missing, takes the
 * default settings' value.
 */
module SettingsForm {
  import opened Wrappers
  import opened Text
  import opened Json
  import opened Utils

  /** `utils.ALLOWED_LANGS`. */
  const AllowedLangs: seq<string> := ["ar", "de", "en", "fr", "nl", "pl", "pt", "ru", "tr", "uk"]

  /** The form's selects; None is a missing element. */
  datatype Controls = Controls(uiLang: Option<Select>, speed: Option<Select>, delay: Option<Select>, digitLength: Option<Select>, count: Option<Select>)

  /** The record read from the form; None is `undefined`. */
  datatype FormSettings = FormSettings(
    uiLang: Option<Json>, speed: Option<Json>, delay: Option<Json>, digitLength: Option<Json>, count: Option<Json>,
    fullscreen: Option<Json>, languageCode: Option<Json>, voiceName: Option<Json>)

  predicate IsDigit(c: char) {
    '0' <= c <= '9'
  }

  /** What follows the leading white space and an optional sign. */
  function Unsigned(s: string): (u: string)
    ensures |u| <= |s| && u == s[|s| - |u|..]
  {
    var t := TrimStart(s);
    if t != [] && (t[0] == '+' || t[0] == '-') then t[1..] else t
  }

  /** `!isNaN(parseInt(s, 10))`: a digit follows the white space and the sign. */
  predicate ParsesAsInt(s: string) {
    var u := Unsigned(s);
    u != [] && IsDigit(u[0])
  }

  /** `!isNaN(parseFloat(s))`: a digit, a point and a digit, or `Infinity` follows the white space and the sign. */
  predicate ParsesAsFloat(s: string) {
    var u := Unsigned(s);
    (u != [] && IsDigit(u[0])) || (|u| >= 2 && u[0] == '.' && IsDigit(u[1])) || "Infinity" <= u
  }

  /** `allowedOpt(sel, val)`: the select exists and one of its options is `val`. */
  predicate Offered(sel: Option<Select>, v: string) {
    sel.Some? && v in sel.value.options
  }

  /** The value of a select, `undefined` when it is missing. */
  function ValueOf(sel: Option<Select>): (r: Option<string>)
    ensures r.Some? <==> sel.Some?
  {
    if sel.Some? then Some(sel.value.value) else None
  }

  /** The select's value is kept for the interface language. */
  predicate KeepsLang(sel: Option<Select>) {
    sel.Some? && sel.value.value != "" && sel.value.value in AllowedLangs && Offered(sel, sel.value.value)
  }

  /** The select's value is kept for a field read with `parseFloat`. */
  predicate KeepsFloat(sel: Option<Select>) {
    sel.Some? && ParsesAsFloat(sel.value.value) && Offered(sel, sel.value.value)
  }

  /** The select's value is kept for a field read with `parseInt`. */
  predicate KeepsInt(sel: Option<Select>) {
    sel.Some? && ParsesAsInt(sel.value.value) && Offered(sel, sel.value.value)
  }

  /** The select's value as a string when kept, the default otherwise. */
  function Pick(sel: Option<Select>, keep: bool, fallback: Option<Json>): (r: Option<Json>)
    requires keep ==> sel.Some?
  {
    if keep then Some(Str(sel.value.value)) else fallback
  }

  function ReadSettingsFromUI(c: Controls, defaults: seq<Prop>): (r: FormSettings)
    ensures KeepsLang(c.uiLang) ==> r.uiLang == Some(Str(c.uiLang.value.value))
    ensures !KeepsLang(c.uiLang) ==> r.uiLang == Get(defaults, "uiLang")
    ensures KeepsFloat(c.speed) ==> r.speed == Some(Str(c.speed.value.value))
    ensures !KeepsFloat(c.speed) ==> r.speed == Get(defaults, "speed")
    ensures KeepsInt(c.delay) ==> r.delay == Some(Str(c.delay.value.value))
    ensures !KeepsInt(c.delay) ==> r.delay == Get(defaults, "delay")
    ensures KeepsInt(c.digitLength) ==> r.digitLength == Some(Str(c.digitLength.value.value))
    ensures !KeepsInt(c.digitLength) ==> r.digitLength == Get(defaults, "digitLength")
    ensures KeepsInt(c.count) ==> r.count == Some(Str(c.count.value.value))
    ensures !KeepsInt(c.count) ==> r.count == Get(defaults, "count")
    ensures r.fullscreen == Get(defaults, "fullscreen")
    ensures r.languageCode == Get(defaults, "languageCode")
    ensures r.voiceName == Get(defaults, "voiceName")
  {
    FormSettings(
      Pick(c.uiLang, KeepsLang(c.uiLang), Get(defaults, "uiLang")),
      Pick(c.speed, KeepsFloat(c.speed), Get(defaults, "speed")),
      Pick(c.delay, KeepsInt(c.delay), Get(defaults, "delay")),
      Pick(c.digitLength, KeepsInt(c.digitLength), Get(defaults, "digitLength")),
      Pick(c.count, KeepsInt(c.count), Get(defaults, "count")),
      Get(defaults, "fullscreen"), Get(defaults, "languageCode"), Get(defaults, "voiceName"))
  }

  /** A field that is not its default is a value its select offers, of the field's kind. */
  lemma OnlyOfferedValues(c: Controls, defaults: seq<Prop>)
    ensures var r := ReadSettingsFromUI(c, defaults);
      (r.uiLang != Get(defaults, "uiLang") ==> exists v :: r.uiLang == Some(Str(v)) && Offered(c.uiLang, v) && v in AllowedLangs)
      && (r.speed != Get(defaults, "speed") ==> exists v :: r.speed == Some(Str(v)) && Offered(c.speed, v) && ParsesAsFloat(v))
      && (r.delay != Get(defaults, "delay") ==> exists v :: r.delay == Some(Str(v)) && Offered(c.delay, v) && ParsesAsInt(v))
      && (r.digitLength != Get(defaults, "digitLength") ==> exists v :: r.digitLength == Some(Str(v)) && Offered(c.digitLength, v) && ParsesAsInt(v))
      && (r.count != Get(defaults, "count") ==> exists v :: r.count == Some(Str(v)) && Offered(c.count, v) && ParsesAsInt(v))
  {
    var r := ReadSettingsFromUI(c, defaults);
    if r.uiLang != Get(defaults, "uiLang") {
      assert r.uiLang == Some(Str(c.uiLang.value.value));
    }
    if r.speed != Get(defaults, "speed") {
      assert r.speed == Some(Str(c.speed.value.value));
    }
    if r.delay != Get(defaults, "delay") {
      assert r.delay == Some(Str(c.delay.value.value));
    }
    if r.digitLength != Get(defaults, "digitLength") {
      assert r.digitLength == Some(Str(c.digitLength.value.value));
    }
    if r.count != Get(defaults, "count") {
      assert r.count == Some(Str(c.count.value.value));
    }
  }

  /** Every value `parseInt` reads as a number `parseFloat` reads as one too, so the integer fields are the stricter ones. */
  lemma IntParsesAsFloat(s: string)
    ensures ParsesAsInt(s) ==> ParsesAsFloat(s)
  {
  }

  /** A missing select, or one showing no option, always yields the default. */
  lemma UnofferedYieldsDefault(c: Controls, defaults: seq<Prop>)
    requires c.speed.None? || c.speed.value.value !in c.speed.value.options
    requires c.delay.None? || c.delay.value.value !in c.delay.value.options
    ensures ReadSettingsFromUI(c, defaults).speed == Get(defaults, "speed")
    ensures ReadSettingsFromUI(c, defaults).delay == Get(defaults, "delay")
  {
  }

  /** A value that starts with no white space is its own `trimStart`. */
  lemma Untrimmed(s: string)
    requires s != [] && !IsSpace(s[0])
    ensures TrimStart(s) == s
  {
  }

  /** `parseInt` reads a delay option and a leading signed integer, and rejects a bare fraction. */
  lemma IntExamples()
    ensures ParsesAsInt("1000") && ParsesAsInt("-3px") && !ParsesAsInt("") && !ParsesAsInt(".5")
  {
    Untrimmed("1000");
    Untrimmed("-3px");
    assert Unsigned("-3px") == "3px";
    Untrimmed(".5");
  }

  /** `parseFloat` reads a fraction and a decimal. */
  lemma FloatExamples()
    ensures ParsesAsFloat(".5") && ParsesAsFloat("1.25")
  {
    Untrimmed(".5");
    assert Unsigned(".5") == ".5";
    Untrimmed("1.25");
    assert Unsigned("1.25") == "1.25";
  }

  /** `parseFloat` reads `Infinity`, which `parseInt` rejects. */
  lemma InfinityExample()
    ensures ParsesAsFloat("Infinity") && !ParsesAsInt("Infinity")
  {
    Untrimmed("Infinity");
  }

  /** `parseFloat` rejects a lone point and letters. */
  lemma FloatRejects()
    ensures !ParsesAsFloat(".") && !ParsesAsFloat("abc")
  {
    Untrimmed(".");
    Untrimmed("abc");
    assert !("Infinity" <= "abc");
  }
}
