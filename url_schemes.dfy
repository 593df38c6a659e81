/**
 * The URL-scheme configuration of src/config/url-schemes.ts: the default paths
 * and timeout, and loadConfig's shallow merge of an override object over them.
 */
module UrlSchemes {
  import opened Wrappers

  /** A value as JSON.parse produces it; numbers are kept exact. */
  datatype Json =
    | JNull
    | JBool(b: bool)
    | JNumber(n: real)
    | JString(s: string)
    | JArray(items: seq<Json>)
    | JObject(fields: map<string, Json>)

  /** A plain object, as its own enumerable properties (what object spread copies). */
  type Object = map<string, Json>

  datatype Paths = Paths(replace: string, insert: string, add: string, importAction: string)

  /** The UrlSchemeConfig interface: the four URL templates and a timeout in milliseconds. */
  datatype UrlSchemeConfig = UrlSchemeConfig(paths: Paths, timeout: real)

  const DefaultConfig: UrlSchemeConfig :=
    UrlSchemeConfig(
      Paths("textwell:///replace", "textwell:///insert", "textwell:///add", "textwell:///importAction"),
      5000.0)

  const FallbackWarning: string := "Failed to parse custom config, using defaults"

  /** A configuration as the object it is at run time. */
  function ToObject(c: UrlSchemeConfig): (o: Object)
    ensures o.Keys == {"paths", "timeout"}
  {
    map[
      "paths" := JObject(map[
        "replace" := JString(c.paths.replace),
        "insert" := JString(c.paths.insert),
        "add" := JString(c.paths.add),
        "importAction" := JString(c.paths.importAction)]),
      "timeout" := JNumber(c.timeout)]
  }

  function StringField(o: map<string, Json>, key: string): Option<string> {
    if key in o && o[key].JString? then Some(o[key].s) else None
  }

  /** An object read back as a UrlSchemeConfig: None unless every field of the interface is there with its type. */
  function AsConfig(o: Object): Option<UrlSchemeConfig> {
    if "paths" in o && o["paths"].JObject? && "timeout" in o && o["timeout"].JNumber? then
      var p := o["paths"].fields;
      var replace, insert, add, importAction :=
        StringField(p, "replace"), StringField(p, "insert"), StringField(p, "add"), StringField(p, "importAction");
      if replace.Some? && insert.Some? && add.Some? && importAction.Some? then
        Some(UrlSchemeConfig(Paths(replace.value, insert.value, add.value, importAction.value), o["timeout"].n))
      else None
    else None
  }

  /** Reading an object back gives the configuration it was made from. */
  lemma AsConfigToObject(c: UrlSchemeConfig)
    ensures AsConfig(ToObject(c)) == Some(c)
  {
    var p := ToObject(c)["paths"].fields;
    assert StringField(p, "replace") == Some(c.paths.replace);
    assert StringField(p, "insert") == Some(c.paths.insert);
    assert StringField(p, "add") == Some(c.paths.add);
    assert StringField(p, "importAction") == Some(c.paths.importAction);
  }

  /**
   * The TEXTWELL_CONFIG override as loadConfig sees it: unset (or empty), text
   * JSON.parse rejects, or the parsed value's own enumerable properties.
   */
  datatype Override = Absent | Malformed | Parsed(props: Object)

  /**
   * What loadConfig hands back: the configuration object, whether that object is
   * defaultConfig itself rather than a fresh copy, and the warnings it printed.
   */
  datatype Loaded = Loaded(config: Object, sharesDefault: bool, warnings: seq<string>)

  /** `{ ...defaultConfig, ...custom }`: a fresh object, the override's properties winning. */
  function Merge(defaults: Object, custom: Object): (m: Object)
    ensures m.Keys == defaults.Keys + custom.Keys
    ensures forall k :: k in custom ==> m[k] == custom[k]
    ensures forall k :: k in defaults && k !in custom ==> m[k] == defaults[k]
  {
    defaults + custom
  }

  /**
   * loadConfig: the defaults with the override merged over them, or, when the
   * override cannot be parsed, defaultConfig itself and a warning.
   */
  function LoadConfig(ov: Override): (l: Loaded)
    ensures ToObject(DefaultConfig).Keys <= l.config.Keys
    ensures ov.Parsed? ==> ov.props.Keys <= l.config.Keys && forall k :: k in ov.props ==> l.config[k] == ov.props[k]
    ensures l.sharesDefault <==> ov.Malformed?
    ensures l.warnings != [] <==> ov.Malformed?
  {
    match ov
    case Absent => Loaded(Merge(ToObject(DefaultConfig), map[]), false, [])
    case Parsed(props) => Loaded(Merge(ToObject(DefaultConfig), props), false, [])
    case Malformed => Loaded(ToObject(DefaultConfig), true, [FallbackWarning])
  }

  /** Without an override the result is a fresh copy of the defaults, and nothing is printed. */
  lemma NoOverrideGivesDefaults()
    ensures var l := LoadConfig(Absent);
      l.config == ToObject(DefaultConfig) && AsConfig(l.config) == Some(DefaultConfig)
      && !l.sharesDefault && l.warnings == []
  {
    assert Merge(ToObject(DefaultConfig), map[]) == ToObject(DefaultConfig);
    AsConfigToObject(DefaultConfig);
  }

  /** Every key of the override wins, every other default is kept, extra keys are copied. */
  lemma OverrideMerge(props: Object)
    ensures var l := LoadConfig(Parsed(props));
      && l.config.Keys == {"paths", "timeout"} + props.Keys
      && (forall k :: k in props ==> l.config[k] == props[k])
      && (forall k :: k in {"paths", "timeout"} && k !in props ==> l.config[k] == ToObject(DefaultConfig)[k])
      && !l.sharesDefault && l.warnings == []
  {
  }

  /**
   * The merge is shallow: a `paths` override replaces the whole record, so one
   * that leaves out a mode loses that mode's default and the result no longer
   * reads as a UrlSchemeConfig.
   */
  lemma PartialPathsOverride(paths: map<string, Json>)
    requires "replace" !in paths
    ensures var l := LoadConfig(Parsed(map["paths" := JObject(paths)]));
      l.config["paths"] == JObject(paths) && l.config["timeout"] == JNumber(5000.0)
      && AsConfig(l.config) == None
  {
    var l := LoadConfig(Parsed(map["paths" := JObject(paths)]));
    assert StringField(l.config["paths"].fields, "replace") == None;
  }

  /** A malformed override falls back to defaultConfig itself, with one warning and no failure. */
  lemma MalformedFallsBack()
    ensures var l := LoadConfig(Malformed);
      l.config == ToObject(DefaultConfig) && AsConfig(l.config) == Some(DefaultConfig)
      && l.sharesDefault && l.warnings == ["Failed to parse custom config, using defaults"]
  {
    AsConfigToObject(DefaultConfig);
  }
}
