/**
 * The configuration and option building of advanced_extractor.py:
 * `load_config` (lines 31-59), the option dictionary `setup_ydl_options`
 * builds (lines 61-89), and the errors Python raises on the way when the
 * configuration lacks a key or holds a value of the wrong type.
 *
 * The configuration file is an input: missing, unreadable, or the JSON
 * value it holds.  Paths are joined as `dir + "/" + name`.
 */
module AdvancedOptions {
  import opened Wrappers
  import opened PyJson

  /** The exceptions the modelled code can raise. */
  datatype PyError =
    | KeyError(key: string)   // `d[key]` with `key` absent
    | TypeError               // a subscript, `**` or comparison on the wrong type
    | AttributeError          // `.get` on a value that is not a dictionary
    | ValueError              // `ThreadPoolExecutor(max_workers)` with `max_workers <= 0`

  datatype ConfigFile = Missing | Unreadable | Loaded(value: Json)

  /** The configuration `load_config` falls back to (lines 44-59). */
  function DefaultConfig(): Json {
    JObject([
      ("output_directory", JStr("./downloads")),
      ("audio_format", JStr("mp3")),
      ("audio_quality", JStr("192")),
      ("filename_template", JStr("%(playlist_index)02d_%(title)s.%(ext)s")),
      ("max_concurrent_downloads", JInt(3)),
      ("retry_attempts", JInt(3)),
      ("download_options", JObject([("writeinfojson", JBool(true)), ("writethumbnail", JBool(false))])),
      ("postprocessor_options", JObject([("preferredcodec", JStr("mp3")), ("preferredquality", JStr("192"))]))
    ])
  }

  /** `load_config`: the parsed file if it exists and parses, else the
      default, from which the extractor always starts: it downloads to
      `./downloads`, three at a time, and its options build without error. */
  function LoadConfig(file: ConfigFile): (c: Json)
    ensures file.Loaded? ==> c == file.value
    ensures !file.Loaded? ==> c == DefaultConfig()
    ensures !file.Loaded? ==>
              && OutputDirectory(c) == Success("./downloads")
              && Subscript(c, "max_concurrent_downloads") == Success(JInt(3))
              && YdlOptions(c, "./downloads").Success?
  {
    match file
    case Loaded(value) => value
    case _ =>
      DefaultConfigValues();
      DefaultConfigBuilds("./downloads");
      DefaultConfig()
  }

  /** `c[key]`. */
  function Subscript(c: Json, key: string): (r: Result<Json, PyError>)
    ensures r.Success? <==> c.JObject? && key in Keys(c.fields)
    ensures r.Success? ==> Some(r.value) == Get(c.fields, key)
    ensures c.JObject? && key !in Keys(c.fields) ==> r == Failure(KeyError(key))
    ensures !c.JObject? ==> r == Failure(TypeError)
  {
    if !c.JObject? then Failure(TypeError)
    else match Get(c.fields, key)
      case Some(v) => Success(v)
      case None => Failure(KeyError(key))
  }

  /** `c.get(key, default)`. */
  function GetMethod(c: Json, key: string, default: Json): (r: Result<Json, PyError>)
    ensures r.Success? <==> c.JObject?
    ensures c.JObject? ==> r == Success(GetOr(c.fields, key, default))
    ensures !c.JObject? ==> r == Failure(AttributeError)
  {
    if c.JObject? then Success(GetOr(c.fields, key, default)) else Failure(AttributeError)
  }

  /** The pairs `**x` unpacks. */
  function Mapping(x: Json): (r: Result<Dict, PyError>)
    ensures r.Success? <==> x.JObject?
    ensures x.JObject? ==> r == Success(x.fields)
  {
    if x.JObject? then Success(x.fields) else Failure(TypeError)
  }

  /** `self.config['output_directory']` taken as a path (line 25). */
  function OutputDirectory(config: Json): (r: Result<string, PyError>)
    ensures r.Success? <==> Subscript(config, "output_directory").Success?
                            && Subscript(config, "output_directory").value.JStr?
  {
    match Subscript(config, "output_directory")
    case Failure(e) => Failure(e)
    case Success(JStr(s)) => Success(s)
    case Success(_) => Failure(TypeError)
  }

  /** The eight keys of the option dictionary before `download_options`. */
  const BaseKeys: seq<string> :=
    ["format", "outtmpl", "extractaudio", "audioformat", "audioquality", "postprocessors", "ignoreerrors", "retries"]

  /** The first pairs of the dictionary display of lines 63-76. */
  function BasePairs(outtmpl: string, audioFormat: Json, audioQuality: Json, postprocessor: Dict, retries: Json): (d: Dict)
    ensures Keys(d) == BaseKeys
  {
    var d := [("format", JStr("bestaudio/best")),
              ("outtmpl", JStr(outtmpl)),
              ("extractaudio", JBool(true)),
              ("audioformat", audioFormat),
              ("audioquality", audioQuality),
              ("postprocessors", JList([JObject(postprocessor)])),
              ("ignoreerrors", JBool(true)),
              ("retries", retries)];
    KeysAt(d);
    d
  }

  /** The single postprocessor: `{'key': 'FFmpegExtractAudio', **options}`. */
  function Postprocessor(options: Dict): Dict {
    Spread([("key", JStr("FFmpegExtractAudio"))], options)
  }

  /** What the dictionary display of lines 63-76 reads from the
      configuration. */
  datatype Parts = Parts(template: string, audioFormat: Json, audioQuality: Json,
                         ppOptions: Dict, retries: Json, extra: Dict)

  /** The reads of lines 65-75 in evaluation order, raising at the first
      missing key or wrong type. */
  function BaseParts(config: Json): (r: Result<Parts, PyError>)
    ensures !config.JObject? ==> r == Failure(TypeError)
    ensures config.JObject? && "filename_template" !in Keys(config.fields) ==>
              r == Failure(KeyError("filename_template"))
    ensures r.Success? ==> config.JObject?
    ensures r.Success? ==>
              var c := config.fields;
              Get(c, "filename_template") == Some(JStr(r.value.template))
              && Get(c, "audio_format") == Some(r.value.audioFormat)
              && Get(c, "audio_quality") == Some(r.value.audioQuality)
              && Get(c, "postprocessor_options") == Some(JObject(r.value.ppOptions))
              && r.value.retries == GetOr(c, "retry_attempts", JInt(3))
              && GetOr(c, "download_options", JObject([])) == JObject(r.value.extra)
  {
    match Subscript(config, "filename_template")
    case Failure(e) => Failure(e)
    case Success(template) =>
      if !template.JStr? then Failure(TypeError) else
      match Subscript(config, "audio_format")
      case Failure(e) => Failure(e)
      case Success(audioFormat) =>
      match Subscript(config, "audio_quality")
      case Failure(e) => Failure(e)
      case Success(audioQuality) =>
      match Subscript(config, "postprocessor_options")
      case Failure(e) => Failure(e)
      case Success(ppOptions) =>
      match Mapping(ppOptions)
      case Failure(e) => Failure(e)
      case Success(pp) =>
      match GetMethod(config, "retry_attempts", JInt(3))
      case Failure(e) => Failure(e)
      case Success(retries) =>
      match GetMethod(config, "download_options", JObject([]))
      case Failure(e) => Failure(e)
      case Success(downloadOptions) =>
      match Mapping(downloadOptions)
      case Failure(e) => Failure(e)
      case Success(extra) =>
        Success(Parts(template.s, audioFormat, audioQuality, pp, retries, extra))
  }

  /** The dictionary of lines 63-76 from what it reads. */
  function Assemble(p: Parts, outputDir: string): Dict {
    Spread(BasePairs(outputDir + "/" + p.template, p.audioFormat, p.audioQuality,
                     Postprocessor(p.ppOptions), p.retries), p.extra)
  }

  function BaseOptions(config: Json, outputDir: string): (r: Result<Dict, PyError>)
    ensures r.Success? <==> BaseParts(config).Success?
  {
    match BaseParts(config)
    case Failure(e) => Failure(e)
    case Success(p) => Success(Assemble(p, outputDir))
  }

  /** A key's value when `extra` is spread over a dictionary giving it `v`. */
  function Overridden(extra: Dict, key: string, v: Json): Option<Json> {
    if key in Keys(extra) then Get(extra, key) else Some(v)
  }

  /** The eight base keys are distinct. */
  lemma BaseKeysDistinct()
    ensures Distinct(BaseKeys)
  {
    var ks := BaseKeys;
    assert ks[0][0] == 'f' && ks[1][0] == 'o' && ks[2][0] == 'e' && ks[3][0] == 'a';
    assert ks[4][0] == 'a' && ks[5][0] == 'p' && ks[6][0] == 'i' && ks[7][0] == 'r';
    assert ks[3][5] == 'f' && ks[4][5] == 'q';
  }

  /** The assembled dictionary begins with the eight base keys, and the base
      key at index `i` keeps its value unless `extra` has it. */
  lemma AssembleGet(p: Parts, outputDir: string, i: nat)
    requires DistinctKeys(p.extra) && i < 8
    ensures var base := BasePairs(outputDir + "/" + p.template, p.audioFormat, p.audioQuality,
                                  Postprocessor(p.ppOptions), p.retries);
            var d := Assemble(p, outputDir);
            |d| >= 8 && Keys(d)[..8] == BaseKeys
            && Get(d, BaseKeys[i]) == Overridden(p.extra, BaseKeys[i], base[i].1)
  {
    var base := BasePairs(outputDir + "/" + p.template, p.audioFormat, p.audioQuality,
                          Postprocessor(p.ppOptions), p.retries);
    SpreadKeepsOrder(base, p.extra);
    BaseKeysDistinct();
    KeysAt(base);
    SpreadGetAt(base, p.extra, i);
  }

  /** The options begin with the eight base keys in display order; `outtmpl`
      joins the output directory and `filename_template`, `audioformat` and
      `audioquality` come from the configuration, `ignoreerrors` is true and
      `retries` is `retry_attempts` or 3 -- each unless `download_options`
      has the same key, which then wins. */
  lemma OptionsRules(config: Json, outputDir: string)
    requires BaseParts(config).Success? && DistinctKeys(BaseParts(config).value.extra)
    ensures var d := BaseOptions(config, outputDir).value;
            var p := BaseParts(config).value;
            |d| >= 8 && Keys(d)[..8] == BaseKeys
            && Get(d, "outtmpl") == Overridden(p.extra, "outtmpl", JStr(outputDir + "/" + p.template))
            && Get(d, "audioformat") == Overridden(p.extra, "audioformat", p.audioFormat)
            && Get(d, "audioquality") == Overridden(p.extra, "audioquality", p.audioQuality)
            && Get(d, "ignoreerrors") == Overridden(p.extra, "ignoreerrors", JBool(true))
            && Get(d, "retries") == Overridden(p.extra, "retries", GetOr(config.fields, "retry_attempts", JInt(3)))
  {
    var p := BaseParts(config).value;
    AssembleGet(p, outputDir, 1);
    AssembleGet(p, outputDir, 3);
    AssembleGet(p, outputDir, 4);
    AssembleGet(p, outputDir, 6);
    AssembleGet(p, outputDir, 7);
  }

  /** The postprocessor entry holds `'key': 'FFmpegExtractAudio'` first,
      which a `key` in `postprocessor_options` overrides. */
  lemma PostprocessorKey(options: Dict)
    requires DistinctKeys(options)
    ensures |Postprocessor(options)| >= 1 && Keys(Postprocessor(options))[0] == "key"
    ensures Get(Postprocessor(options), "key") ==
              if "key" in Keys(options) then Get(options, "key") else Some(JStr("FFmpegExtractAudio"))
  {
    var start: Dict := [("key", JStr("FFmpegExtractAudio"))];
    SpreadKeepsOrder(start, options);
    SpreadWins(start, options);
    assert Keys(start) == ["key"];
  }

  /** The default configuration builds without error, downloads 3 at a time,
      retries 3 times, and extracts 192 kbit/s MP3. */
  lemma DefaultConfigValues()
    ensures Subscript(DefaultConfig(), "max_concurrent_downloads") == Success(JInt(3))
    ensures Subscript(DefaultConfig(), "retry_attempts") == Success(JInt(3))
    ensures Subscript(DefaultConfig(), "audio_format") == Success(JStr("mp3"))
    ensures Subscript(DefaultConfig(), "audio_quality") == Success(JStr("192"))
    ensures OutputDirectory(DefaultConfig()) == Success("./downloads")
  {
  }

  // ---------------------------------------------------------------------
  // Lines 78-89: proxy, user agent and headers, assigned after the display.

  /** Whether the proxy is used: `config.get('proxy', {}).get('enabled')` is
      truthy and so is `proxy.get('http_proxy')`; fails when `proxy` is not a
      dictionary. */
  function ProxyValue(config: Json): (r: Result<Option<Json>, PyError>)
    requires config.JObject?
    ensures r.Failure? <==> !GetOr(config.fields, "proxy", JObject([])).JObject?
    ensures r.Success? && r.value.Some? ==> Truthy(r.value.value)
  {
    var proxy := GetOr(config.fields, "proxy", JObject([]));
    match GetMethod(proxy, "enabled", JNull)
    case Failure(e) => Failure(e)
    case Success(enabled) =>
      if !Truthy(enabled) then Success(None)
      else
        var http := GetOr(proxy.fields, "http_proxy", JNull);
        if Truthy(http) then Success(Some(http)) else Success(None)
  }

  /** A truthy `config.get(key)`, if any. */
  function TruthyEntry(config: Json, key: string): (r: Option<Json>)
    requires config.JObject?
    ensures r.Some? <==> Truthy(GetOr(config.fields, key, JNull))
    ensures r.Some? ==> Some(r.value) == Get(config.fields, key)
  {
    var v := GetOr(config.fields, key, JNull);
    if Truthy(v) then Some(v) else None
  }

  /** `opts` with `value` assigned to `key` when there is a value. */
  function SetIf(opts: Dict, key: string, value: Option<Json>): (r: Dict)
    ensures Get(r, key) == if value.Some? then value else Get(opts, key)
    ensures forall k :: k != key ==> Get(r, k) == Get(opts, k)
    ensures |r| >= |opts| && Keys(r)[..|opts|] == Keys(opts)
  {
    if value.Some? then
      SetKeys(opts, key, value.value);
      Set(opts, key, value.value)
    else opts
  }

  /** The options after lines 78-89: the base options when `proxy` is not a
      dictionary fails first. */
  function Extras(config: Json, base: Dict): (r: Result<Dict, PyError>)
    requires config.JObject?
    ensures r.Failure? <==> !GetOr(config.fields, "proxy", JObject([])).JObject?
  {
    match ProxyValue(config)
    case Failure(e) => Failure(e)
    case Success(proxy) =>
      var withProxy := SetIf(base, "proxy", proxy);
      var withAgent := SetIf(withProxy, "user_agent", TruthyEntry(config, "user_agent"));
      Success(SetIf(withAgent, "http_headers", TruthyEntry(config, "headers")))
  }

  /** Three conditional assignments to the keys `proxy`, `user_agent` and
      `http_headers`. */
  function SetThree(base: Dict, proxy: Option<Json>, agent: Option<Json>, headers: Option<Json>): Dict {
    SetIf(SetIf(SetIf(base, "proxy", proxy), "user_agent", agent), "http_headers", headers)
  }

  lemma SetThreeFacts(base: Dict, proxy: Option<Json>, agent: Option<Json>, headers: Option<Json>)
    ensures var r := SetThree(base, proxy, agent, headers);
            && Get(r, "proxy") == (if proxy.Some? then proxy else Get(base, "proxy"))
            && Get(r, "user_agent") == (if agent.Some? then agent else Get(base, "user_agent"))
            && Get(r, "http_headers") == (if headers.Some? then headers else Get(base, "http_headers"))
            && (forall k :: k != "proxy" && k != "user_agent" && k != "http_headers" ==> Get(r, k) == Get(base, k))
            && |r| >= |base| && Keys(r)[..|base|] == Keys(base)
  {
    var p := SetIf(base, "proxy", proxy);
    var a := SetIf(p, "user_agent", agent);
    var h := SetIf(a, "http_headers", headers);
    assert "proxy"[0] == 'p' && "user_agent"[0] == 'u' && "http_headers"[0] == 'h';
    PrefixTrans(Keys(h), Keys(a), Keys(p));
    PrefixTrans(Keys(h), Keys(p), Keys(base));
  }

  /** `proxy`, `user_agent` and `http_headers` are set only from truthy
      configuration values and then win over what the base options hold;
      every other key keeps its value, and the keys keep their order. */
  lemma ExtrasRules(config: Json, base: Dict)
    requires config.JObject? && Extras(config, base).Success?
    ensures var r := Extras(config, base).value;
            && Get(r, "proxy") == (if ProxyValue(config).value.Some? then ProxyValue(config).value else Get(base, "proxy"))
            && Get(r, "user_agent") == (if Truthy(GetOr(config.fields, "user_agent", JNull))
                                        then Get(config.fields, "user_agent") else Get(base, "user_agent"))
            && Get(r, "http_headers") == (if Truthy(GetOr(config.fields, "headers", JNull))
                                          then Get(config.fields, "headers") else Get(base, "http_headers"))
            && (forall k :: k != "proxy" && k != "user_agent" && k != "http_headers" ==> Get(r, k) == Get(base, k))
            && |r| >= |base| && Keys(r)[..|base|] == Keys(base)
  {
    var agent := TruthyEntry(config, "user_agent");
    var headers := TruthyEntry(config, "headers");
    assert Extras(config, base).value == SetThree(base, ProxyValue(config).value, agent, headers);
    SetThreeFacts(base, ProxyValue(config).value, agent, headers);
  }

  /** A key outside the eight base keys has the value `download_options`
      gives it. */
  lemma AssembleOther(p: Parts, outputDir: string, key: string)
    requires DistinctKeys(p.extra) && key !in BaseKeys
    ensures Get(Assemble(p, outputDir), key) == Get(p.extra, key)
  {
    var base := BasePairs(outputDir + "/" + p.template, p.audioFormat, p.audioQuality,
                          Postprocessor(p.ppOptions), p.retries);
    SpreadWins(base, p.extra);
    assert Get(base, key).None?;
  }

  /** The proxy is set when enabled and given, whatever `download_options`
      says, and otherwise comes only from `download_options`. */
  lemma ProxyRule(config: Json, outputDir: string)
    requires BaseParts(config).Success? && DistinctKeys(BaseParts(config).value.extra)
    requires Extras(config, BaseOptions(config, outputDir).value).Success?
    ensures var r := Extras(config, BaseOptions(config, outputDir).value).value;
            var proxy := GetOr(config.fields, "proxy", JObject([]));
            var enabled := Truthy(GetOr(proxy.fields, "enabled", JNull));
            var http := GetOr(proxy.fields, "http_proxy", JNull);
            Get(r, "proxy") == if enabled && Truthy(http) then Some(http) else Get(BaseParts(config).value.extra, "proxy")
  {
    var p := BaseParts(config).value;
    AssembleOther(p, outputDir, "proxy");
    ExtrasRules(config, BaseOptions(config, outputDir).value);
  }

  /** The whole of `setup_ydl_options`: the options, or the first error. */
  function YdlOptions(config: Json, outputDir: string): (r: Result<Dict, PyError>)
    ensures r.Success? <==> BaseParts(config).Success? && GetOr(config.fields, "proxy", JObject([])).JObject?
  {
    match BaseOptions(config, outputDir)
    case Failure(e) => Failure(e)
    case Success(base) => Extras(config, base)
  }

  /** The default configuration reads. */
  lemma DefaultConfigParts()
    ensures BaseParts(DefaultConfig()) ==
              Success(Parts("%(playlist_index)02d_%(title)s.%(ext)s", JStr("mp3"), JStr("192"),
                            [("preferredcodec", JStr("mp3")), ("preferredquality", JStr("192"))],
                            JInt(3), [("writeinfojson", JBool(true)), ("writethumbnail", JBool(false))]))
  {
    var c := DefaultConfig();
    assert Subscript(c, "filename_template") == Success(JStr("%(playlist_index)02d_%(title)s.%(ext)s"));
    assert Subscript(c, "audio_format") == Success(JStr("mp3"));
    assert Subscript(c, "audio_quality") == Success(JStr("192"));
    assert Subscript(c, "postprocessor_options")
             == Success(JObject([("preferredcodec", JStr("mp3")), ("preferredquality", JStr("192"))]));
    assert GetOr(c.fields, "retry_attempts", JInt(3)) == JInt(3);
    assert GetOr(c.fields, "download_options", JObject([]))
             == JObject([("writeinfojson", JBool(true)), ("writethumbnail", JBool(false))]);
  }

  /** The default configuration has no proxy section. */
  lemma DefaultConfigNoProxy()
    ensures GetOr(DefaultConfig().fields, "proxy", JObject([])) == JObject([])
  {
  }

  /** The default configuration builds without error. */
  lemma DefaultConfigBuilds(outputDir: string)
    ensures YdlOptions(DefaultConfig(), outputDir).Success?
  {
    DefaultConfigParts();
    DefaultConfigNoProxy();
  }
}
