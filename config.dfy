/**
 * `createConfigService` (app/services/configService.js): a shallow copy of
 * the raw configuration object, and `mergeExternal`, which copies the typed
 * scalar overrides and then merges each form factor's default settings
 * with the external entry of the same name. A failure inside the merge is
 * rethrown as a ConfigError, with whatever was assigned before it kept.
 */
module Config {
  import opened Wrappers
  import opened Json

  datatype ConfigFailure = ConfigError

  /** The outcome of mergeExternal: the configuration afterwards, and whether it threw. */
  datatype Merged = Merged(config: Json, failed: bool)

  const Settings: Json := Obj([
    Prop("uiLang", Str("en")),
    Prop("delay", Str("1000")),
    Prop("speed", Str("1.0")),
    Prop("digitLength", Str("2")),
    Prop("count", Str("40")),
    Prop("repeat", Str("1")),
    Prop("fullscreen", Str("0")),
    Prop("languageCode", Str("nl-NL")),
    Prop("voiceName", Str("Google Nederlands"))
  ], false)

  /**
   * The `Config` object of modules/config.js, without its `load` method:
   * the defaults sit under DEFAULT_CONFIG, not at the top level.
   */
  const RawConfig: Json := Obj([
    Prop("PATHS", Obj([Prop("CONFIG", Str("config.json"))], false)),
    Prop("DEFAULT_CONFIG", Obj([
      Prop("DEVELOPER_MODE", Bool(false)),
      Prop("USE_LOCAL_STORAGE", Bool(true)),
      Prop("DEFAULT_VOICE", Str("Google Nederlands")),
      Prop("DEFAULT_SETTINGS", Obj([Prop("mobile", Settings), Prop("desktop", Settings)], false)),
      Prop("ENUMS", Obj([Prop("AppStates", Obj([
        Prop("INIT", Str("init")), Prop("READY", Str("ready")),
        Prop("PLAYING", Str("playing")), Prop("PAUSED", Str("paused"))], false))], false))
    ], false)),
    Prop("CONFIG", Null)
  ], false)

  /** `cfg[key] = external[key]` when the external value passes the type test. */
  function CopyTyped(cfg: seq<Prop>, external: Json, key: string, wantString: bool): (r: seq<Prop>)
  {
    var e := Member(external, key);
    if e.Some? && (if wantString then e.value.Str? else e.value.Bool?) then Put(cfg, key, e.value) else cfg
  }

  /** One typed copy changes only its own key, and only for a value of the right type. */
  lemma CopyTypedGet(cfg: seq<Prop>, external: Json, key: string, wantString: bool, k: string)
    ensures var e := Member(external, key);
      Get(CopyTyped(cfg, external, key, wantString), k) ==
        if k == key && e.Some? && (if wantString then e.value.Str? else e.value.Bool?) then e else Get(cfg, k)
  {
    var e := Member(external, key);
    if e.Some? && (if wantString then e.value.Str? else e.value.Bool?) {
      GetPut(cfg, key, e.value, k);
    }
  }

  /** The three scalar overrides, in source order. */
  function Scalars(cfg: seq<Prop>, external: Json): seq<Prop> {
    CopyTyped(CopyTyped(CopyTyped(cfg, external, "DEVELOPER_MODE", false), external, "USE_LOCAL_STORAGE", false), external, "DEFAULT_VOICE", true)
  }

  /** `external.DEFAULT_SETTINGS[formFactor] || {}`. */
  function ExternalEntry(extSettings: Json, formFactor: string): (r: Json)
    ensures Truthy(r)
  {
    match Member(extSettings, formFactor)
    case Some(v) => if Truthy(v) then v else EmptyObject
    case None => EmptyObject
  }

  /** `{ ...entry, ...(external entry || {}) }` for one form factor. */
  function MergedEntry(entry: Prop, extSettings: Json): (r: Prop)
    ensures r.key == entry.key && r.value.Obj? && !r.value.isArray
  {
    Prop(entry.key, Obj(Spread(OwnProps(entry.value), ExternalEntry(extSettings, entry.key)), false))
  }

  /** Every form factor of the configuration, merged; no factor is added. */
  function MergeFactors(factors: seq<Prop>, extSettings: Json): (r: seq<Prop>)
    ensures |r| == |factors|
    ensures forall m :: 0 <= m < |factors| ==> r[m] == MergedEntry(factors[m], extSettings)
    ensures Keys(r) == Keys(factors)
  {
    if factors == [] then [] else [MergedEntry(factors[0], extSettings)] + MergeFactors(factors[1..], extSettings)
  }

  /**
   * The form-factor loop over `Object.keys(cfg.DEFAULT_SETTINGS)`: a missing
   * or null value makes Object.keys throw; a non-empty string has index keys,
   * and assigning onto a string throws in strict mode; other primitives have
   * no keys and the loop does nothing.
   */
  function MergeSettings(cfg: seq<Prop>, extSettings: Json): (r: Merged)
    ensures r.config.Obj?
    ensures r.failed ==> r.config == Obj(cfg, false)
    ensures r.failed ==> var d := Get(cfg, "DEFAULT_SETTINGS"); d.None? || d.value.Null? || d.value.Str?
    ensures Get(cfg, "DEFAULT_SETTINGS").Some? && Get(cfg, "DEFAULT_SETTINGS").value.Obj? ==> !r.failed
  {
    match Get(cfg, "DEFAULT_SETTINGS")
    case None => Merged(Obj(cfg, false), true)
    case Some(Null) => Merged(Obj(cfg, false), true)
    case Some(Str(t)) => Merged(Obj(cfg, false), t != "")
    case Some(Obj(factors, arr)) => Merged(Obj(Put(cfg, "DEFAULT_SETTINGS", Obj(MergeFactors(factors, extSettings), arr)), false), false)
    case Some(_) => Merged(Obj(cfg, false), false)
  }

  /** mergeExternal on the configuration object's own properties. */
  function MergeExternal(cfg: seq<Prop>, external: Json): (r: Merged)
    ensures !(Truthy(external) && external.Obj?) ==> r == Merged(Obj(cfg, false), false)
    ensures r.config.Obj?
    ensures r.failed ==> r.config == Obj(Scalars(cfg, external), false)
    ensures r.failed ==> (Truthy(external) && external.Obj? && var d := Get(Scalars(cfg, external), "DEFAULT_SETTINGS"); d.None? || d.value.Null? || d.value.Str?)
  {
    if !(Truthy(external) && external.Obj?) then Merged(Obj(cfg, false), false)
    else
      var s := Scalars(cfg, external);
      var ds := Member(external, "DEFAULT_SETTINGS");
      if ds.Some? && Truthy(ds.value) && ds.value.Obj? then MergeSettings(s, ds.value)
      else Merged(Obj(s, false), false)
  }

  /** The scalar overrides are copied only when they have the right type. */
  lemma ScalarsTyped(cfg: seq<Prop>, external: Json, k: string)
    ensures var e := Member(external, k);
      Get(Scalars(cfg, external), k) ==
        if k in {"DEVELOPER_MODE", "USE_LOCAL_STORAGE"} && e.Some? && e.value.Bool? then e
        else if k == "DEFAULT_VOICE" && e.Some? && e.value.Str? then e
        else Get(cfg, k)
  {
    var c1 := CopyTyped(cfg, external, "DEVELOPER_MODE", false);
    var c2 := CopyTyped(c1, external, "USE_LOCAL_STORAGE", false);
    CopyTypedGet(cfg, external, "DEVELOPER_MODE", false, k);
    CopyTypedGet(c1, external, "USE_LOCAL_STORAGE", false, k);
    CopyTypedGet(c2, external, "DEFAULT_VOICE", true, k);
  }

  /**
   * After a merge that did not throw on a configuration with a form-factor
   * object, each form factor holds its old entries overridden by the
   * external entry's, and the set of form factors is unchanged.
   */
  lemma MergedFactorEntries(cfg: seq<Prop>, external: Json, formFactor: string, key: string)
    requires Truthy(external) && external.Obj?
    requires var ds := Member(external, "DEFAULT_SETTINGS"); ds.Some? && Truthy(ds.value) && ds.value.Obj?
    requires var f := Get(Scalars(cfg, external), "DEFAULT_SETTINGS"); f.Some? && f.value.Obj? && Distinct(f.value.props)
    requires formFactor in Keys(Get(Scalars(cfg, external), "DEFAULT_SETTINGS").value.props)
    requires var e := ExternalEntry(Member(external, "DEFAULT_SETTINGS").value, formFactor); e.Obj? ==> Distinct(e.props)
    ensures var r := MergeExternal(cfg, external); !r.failed
    ensures var r := MergeExternal(cfg, external);
      var was := Get(Get(Scalars(cfg, external), "DEFAULT_SETTINGS").value.props, formFactor).value;
      var ext := ExternalEntry(Member(external, "DEFAULT_SETTINGS").value, formFactor);
      var f := Member(r.config, "DEFAULT_SETTINGS");
      f.Some? && f.value.Obj? && Keys(f.value.props) == Keys(Get(Scalars(cfg, external), "DEFAULT_SETTINGS").value.props) &&
      var entry := Get(f.value.props, formFactor);
      entry.Some? && entry.value.Obj? &&
      Get(entry.value.props, key) == if Member(ext, key).Some? then Member(ext, key) else Member(was, key)
  {
    var s := Scalars(cfg, external);
    var extSettings := Member(external, "DEFAULT_SETTINGS").value;
    var factors := Get(s, "DEFAULT_SETTINGS").value.props;
    var arr := Get(s, "DEFAULT_SETTINGS").value.isArray;
    var merged := MergeFactors(factors, extSettings);
    MergeExternalReachesFactors(cfg, external);
    GetPut(s, "DEFAULT_SETTINGS", Obj(merged, arr), "DEFAULT_SETTINGS");
    var m := FirstIndex(factors, formFactor);
    GetDistinctAt(factors, m);
    GetDistinctAt(merged, m);
    var was := factors[m].value;
    GetSpread(OwnProps(was), ExternalEntry(extSettings, formFactor), key);
  }

  /** With an external settings object and a form-factor object, the merge rewrites the factors. */
  lemma MergeExternalReachesFactors(cfg: seq<Prop>, external: Json)
    requires Truthy(external) && external.Obj?
    requires var ds := Member(external, "DEFAULT_SETTINGS"); ds.Some? && Truthy(ds.value) && ds.value.Obj?
    requires var f := Get(Scalars(cfg, external), "DEFAULT_SETTINGS"); f.Some? && f.value.Obj?
    ensures var s := Scalars(cfg, external); var f := Get(s, "DEFAULT_SETTINGS").value;
      MergeExternal(cfg, external) ==
        Merged(Obj(Put(s, "DEFAULT_SETTINGS", Obj(MergeFactors(f.props, Member(external, "DEFAULT_SETTINGS").value), f.isArray)), false), false)
  {
    var s := Scalars(cfg, external);
    var ds := Member(external, "DEFAULT_SETTINGS").value;
    assert MergeExternal(cfg, external) == MergeSettings(s, ds);
  }

  function FirstIndex(props: seq<Prop>, k: string): (m: nat)
    requires k in Keys(props)
    ensures m < |props| && props[m].key == k
  {
    if props[0].key == k then 0 else 1 + FirstIndex(props[1..], k)
  }

  /** The configuration this service starts from has no top-level DEFAULT_SETTINGS. */
  lemma RawConfigHasNoTopLevelDefaults()
    ensures Get(RawConfig.props, "DEFAULT_SETTINGS") == None
  {
  }

  /**
   * So every external configuration with a DEFAULT_SETTINGS object makes the
   * first merge raise a ConfigError, after applying the scalar overrides.
   */
  lemma RawConfigMergeFails(external: Json)
    requires Truthy(external) && external.Obj?
    requires var ds := Member(external, "DEFAULT_SETTINGS"); ds.Some? && Truthy(ds.value) && ds.value.Obj?
    ensures MergeExternal(RawConfig.props, external) == Merged(Obj(Scalars(RawConfig.props, external), false), true)
  {
    RawConfigHasNoTopLevelDefaults();
    ScalarsTyped(RawConfig.props, external, "DEFAULT_SETTINGS");
  }

  class ConfigService {
    /** The configuration's own properties; `get()` hands out this same object. */
    var cfg: seq<Prop>

    constructor ()
      ensures cfg == RawConfig.props
    {
      cfg := RawConfig.props;
    }

    /**
     * mergeExternal: the scalar copies, then the loop that replaces each form
     * factor's entry in place; a throw inside becomes a ConfigError.
     */
    method MergeExternalInto(external: Json) returns (r: Result<(), ConfigFailure>)
      modifies this`cfg
      ensures Obj(cfg, false) == MergeExternal(old(cfg), external).config
      ensures r.Failure? <==> MergeExternal(old(cfg), external).failed
    {
      if !(Truthy(external) && external.Obj?) {
        return Success(());
      }
      ghost var was := cfg;
      cfg := CopyTyped(cfg, external, "DEVELOPER_MODE", false);
      cfg := CopyTyped(cfg, external, "USE_LOCAL_STORAGE", false);
      cfg := CopyTyped(cfg, external, "DEFAULT_VOICE", true);
      assert cfg == Scalars(was, external);
      var ds := Member(external, "DEFAULT_SETTINGS");
      if !(ds.Some? && Truthy(ds.value) && ds.value.Obj?) {
        return Success(());
      }
      assert MergeExternal(was, external) == MergeSettings(cfg, ds.value);
      var current := Get(cfg, "DEFAULT_SETTINGS");
      if current.None? || current.value.Null? || (current.value.Str? && current.value.s != "") {
        return Failure(ConfigError);
      }
      if !current.value.Obj? {
        return Success(());
      }
      var factors := MergeEachFactor(current.value.props, ds.value);
      assert MergeSettings(cfg, ds.value) == Merged(Obj(Put(cfg, "DEFAULT_SETTINGS", Obj(factors, current.value.isArray)), false), false);
      cfg := Put(cfg, "DEFAULT_SETTINGS", Obj(factors, current.value.isArray));
      r := Success(());
    }
  }

  /** The `for ... in` loop of mergeExternal: each form factor's entry replaced by its merge, in place. */
  method MergeEachFactor(current: seq<Prop>, extSettings: Json) returns (factors: seq<Prop>)
    ensures factors == MergeFactors(current, extSettings)
  {
    factors := current;
    var i := 0;
    while i < |factors|
      invariant 0 <= i <= |factors| == |current|
      invariant forall m :: 0 <= m < i ==> factors[m] == MergedEntry(current[m], extSettings)
      invariant forall m :: i <= m < |factors| ==> factors[m] == current[m]
    {
      factors := factors[i := MergedEntry(factors[i], extSettings)];
      i := i + 1;
    }
  }
}
