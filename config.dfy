/**
 * Turning the parsed configuration document into typed records (radar/config.py, from
 * line 43 on). Reading the file and parsing its YAML are outside the model: the document
 * arrives as a `Json` value.
 */
module Config {
  import opened Wrappers
  import opened Text
  import opened Values

  /**
   * Why loading stopped. Only `MissingKey` carries the message `_must` raises; `WrongType`
   * stands for a required key looked up in a value that is not a mapping.
   */
  datatype ConfigError =
    | MissingKey(key: string, ctx: string)
    | WrongType(ctx: string)
    | BadValue(ctx: string)

  datatype GlobalConfig = GlobalConfig(
    mode: string,
    watchThreshold: int,
    redThreshold: int,
    fullTextScope: string,
    timeoutSec: int,
    userAgent: string,
    maxFeedItemsPerSource: int,
    keepDays: int,
    maxItemsPerSection: int,
    includeGreenInMd: bool,
    includeGreenInTelegram: bool)

  /** The keyword and context-rule entries stay raw; scoring interprets them. */
  datatype SourceConfig = SourceConfig(
    id: string,
    name: string,
    url: string,
    policy: string,
    keywords: seq<Json>,
    contextRules: seq<Json>)

  datatype AppConfig = AppConfig(globalCfg: GlobalConfig, sources: seq<SourceConfig>)

  /**
   * `_must(d, k, ctx)`: the value under a required key. Only a mapping is looked into; any
   * other value fails as `WrongType`.
   */
  function Must(d: Json, k: string, ctx: string): (r: Result<Json, ConfigError>)
    ensures r.Ok? <==> d.JObj? && k in d.fields
    ensures r.Ok? ==> r.value == d.fields[k]
  {
    if !d.JObj? then Err(WrongType(ctx))
    else if k !in d.fields then Err(MissingKey(k, ctx))
    else Ok(d.fields[k])
  }

  /** The message of the `ValueError` that `_must` raises. */
  function MissingMessage(k: string, ctx: string): string {
    "Missing required key '" + k + "' in " + ctx
  }

  /** The message names the key, quoted, and then the context path. */
  lemma MessageNamesKey(k: string, ctx: string)
    ensures var m := MissingMessage(k, ctx);
      |m| == 27 + |k| + |ctx| && m[22..22 + |k|] == k && m[|m| - |ctx|..] == ctx
  {
    var m := MissingMessage(k, ctx);
    assert m == "Missing required key '" + (k + ("' in " + ctx));
  }

  function Str(j: Json, ctx: string): Result<string, ConfigError> {
    match StrOf(j)
    case Some(s) => Ok(s)
    case None => Err(BadValue(ctx))
  }

  function Int(j: Json, ctx: string): Result<int, ConfigError> {
    match IntOf(j)
    case Some(i) => Ok(i)
    case None => Err(BadValue(ctx))
  }

  /** `str(_must(d, k, ctx))`. */
  function MustStr(d: Json, k: string, ctx: string): Result<string, ConfigError> {
    var v :- Must(d, k, ctx);
    Str(v, ctx)
  }

  /** `int(_must(d, k, ctx))`. */
  function MustInt(d: Json, k: string, ctx: string): Result<int, ConfigError> {
    var v :- Must(d, k, ctx);
    Int(v, ctx)
  }

  /** The one-character strings of `s`, as iterating a Python string yields them. */
  function Chars(s: string): seq<Json> {
    seq(|s|, i requires 0 <= i < |s| => JStr([s[i]]))
  }

  /**
   * `list(v)`, or what a `for` loop iterates: a list's elements, a string's characters.
   * A non-empty mapping would yield its keys; that is not modelled and reported as a bad value.
   */
  function Iterated(j: Json, ctx: string): Result<seq<Json>, ConfigError> {
    match j
    case JList(es) => Ok(es)
    case JStr(s) => Ok(Chars(s))
    case JObj(m) => if m == map[] then Ok([]) else Err(BadValue(ctx))
    case _ => Err(BadValue(ctx))
  }

  /** `yaml.safe_load(f) or {}`. */
  function Data(doc: Json): Json {
    if Truthy(doc) then doc else JObj(map[])
  }

  /** The `global` block, looked up in the order the source reads it. */
  function GlobalOf(data: Json): Result<GlobalConfig, ConfigError> {
    var g :- Must(data, "global", "root.global");
    var thresholds :- Must(g, "thresholds", "root.global.thresholds");
    var req :- Must(g, "request", "root.global.request");
    var dedupe :- Must(g, "dedupe", "root.global.dedupe");
    var digest :- Must(g, "digest", "root.global.digest");
    GlobalFields(g, thresholds, req, digest, dedupe)
  }

  /** The fields of the global block, read from the block and its four sections in source order. */
  function GlobalFields(g: Json, thresholds: Json, req: Json, digest: Json, dedupe: Json): Result<GlobalConfig, ConfigError> {
    var mode :- MustStr(g, "mode", "root.global.mode");
    var watch :- MustInt(thresholds, "watch", "root.global.thresholds.watch");
    var red :- MustInt(thresholds, "red", "root.global.thresholds.red");
    var scope :- MustStr(g, "full_text_scope", "root.global.full_text_scope");
    LimitFields(Strip(mode), watch, red, Strip(scope), req, digest, dedupe)
  }

  /** The remaining fields: the request settings, the retention and the digest settings. */
  function LimitFields(mode: string, watch: int, red: int, scope: string,
                       req: Json, digest: Json, dedupe: Json): Result<GlobalConfig, ConfigError> {
    var timeout :- MustInt(req, "timeout_sec", "root.global.request.timeout_sec");
    var agent :- MustStr(req, "user_agent", "root.global.request.user_agent");
    var maxFeed :- MustInt(req, "max_feed_items_per_source",
                           "root.global.request.max_feed_items_per_source");
    var keep :- MustInt(dedupe, "keep_days", "root.global.dedupe.keep_days");
    var maxItems :- MustInt(digest, "max_items_per_section",
                            "root.global.digest.max_items_per_section");
    Ok(GlobalConfig(
      mode, watch, red, scope, timeout, agent, maxFeed, keep, maxItems,
      Truthy(Get(digest, "include_green_in_md", JBool(true))),
      Truthy(Get(digest, "include_green_in_telegram", JBool(false)))))
  }

  /** `f"root.sources[{i}]"`. */
  function SourceCtx(i: nat): string {
    "root.sources[" + NatToString(i) + "]"
  }

  /** Source number `i`: four stripped required strings, and the rule lists. */
  function ParseSource(s: Json, i: nat): Result<SourceConfig, ConfigError> {
    var ctx := SourceCtx(i);
    var id :- MustStr(s, "id", ctx + ".id");
    var name :- MustStr(s, "name", ctx + ".name");
    var url :- MustStr(s, "url", ctx + ".url");
    var policy :- MustStr(s, "policy", ctx + ".policy");
    var keywords :- Iterated(Get(s, "keywords", JList([])), ctx + ".keywords");
    var rules :- Iterated(Get(s, "context_rules", JList([])), ctx + ".context_rules");
    Ok(SourceConfig(Strip(id), Strip(name), Strip(url), Strip(policy), keywords, rules))
  }

  /** Applies `f` to each element and its index in order; the first failure stops. */
  function TryEach<T, U, E>(f: (T, nat) -> Result<U, E>, xs: seq<T>): Result<seq<U>, E>
    decreases |xs|
  {
    if xs == [] then Ok([])
    else
      var init :- TryEach(f, xs[..|xs| - 1]);
      var last :- f(xs[|xs| - 1], |xs| - 1);
      Ok(init + [last])
  }

  /** The sources in order; the first one that fails stops the load. */
  function ParseSources(raw: seq<Json>): Result<seq<SourceConfig>, ConfigError> {
    TryEach(ParseSource, raw)
  }

  /** What `load_config` returns for a parsed document, or the error it raises. */
  function ConfigOf(doc: Json): Result<AppConfig, ConfigError> {
    var data := Data(doc);
    var globalCfg :- GlobalOf(data);
    var sourcesRaw :- Must(data, "sources", "root.sources");
    var raw :- Iterated(sourcesRaw, "root.sources");
    var sources :- ParseSources(raw);
    Ok(AppConfig(globalCfg, sources))
  }

  // ---------------------------------------------------------------------------
  // The loading loop

  /** The `for i, s in enumerate(sources_raw)` loop. */
  method LoadSources(raw: seq<Json>) returns (r: Result<seq<SourceConfig>, ConfigError>)
    ensures r == ParseSources(raw)
  {
    var sources: seq<SourceConfig> := [];
    var i := 0;
    while i < |raw|
      invariant 0 <= i <= |raw|
      invariant TryEach(ParseSource, raw[..i]) == Ok(sources)
    {
      assert raw[..i + 1][..i] == raw[..i];
      var s := ParseSource(raw[i], i);
      if s.Err? {
        ErrorPersists(ParseSource, raw, i + 1);
        return Err(s.error);
      }
      sources := sources + [s.value];
      i := i + 1;
    }
    assert raw[..i] == raw;
    return Ok(sources);
  }

  method LoadConfig(doc: Json) returns (r: Result<AppConfig, ConfigError>)
    ensures r == ConfigOf(doc)
  {
    var data := Data(doc);
    var globalCfg :- GlobalOf(data);
    var sourcesRaw :- Must(data, "sources", "root.sources");
    var raw :- Iterated(sourcesRaw, "root.sources");
    var sources :- LoadSources(raw);
    return Ok(AppConfig(globalCfg, sources));
  }

  /** Once a prefix fails, the whole sequence fails with the same error. */
  lemma {:induction false} ErrorPersists<T, U, E>(f: (T, nat) -> Result<U, E>, xs: seq<T>, j: nat)
    requires j <= |xs| && TryEach(f, xs[..j]).Err?
    ensures TryEach(f, xs) == TryEach(f, xs[..j])
    decreases |xs|
  {
    if j < |xs| {
      var init := xs[..|xs| - 1];
      assert init[..j] == xs[..j];
      ErrorPersists(f, init, j);
    } else {
      assert xs[..j] == xs;
    }
  }

  // ---------------------------------------------------------------------------
  // Lemmas

  /** The sequence succeeds exactly when each element does; then it keeps their number and order. */
  lemma {:induction false} TryEachFacts<T, U, E>(f: (T, nat) -> Result<U, E>, xs: seq<T>)
    ensures TryEach(f, xs).Ok? <==> forall i :: 0 <= i < |xs| ==> f(xs[i], i).Ok?
    ensures TryEach(f, xs).Ok? ==>
              |TryEach(f, xs).value| == |xs| &&
              forall i :: 0 <= i < |xs| ==> f(xs[i], i) == Ok(TryEach(f, xs).value[i])
    decreases |xs|
  {
    if xs != [] {
      var init := xs[..|xs| - 1];
      TryEachFacts(f, init);
      assert forall i :: 0 <= i < |init| ==> init[i] == xs[i];
    }
  }

  /** The error reported is that of the first element that fails. */
  lemma FirstErrorReported<T, U, E>(f: (T, nat) -> Result<U, E>, xs: seq<T>, i: nat)
    requires i < |xs|
    requires forall k :: 0 <= k < i ==> f(xs[k], k).Ok?
    requires f(xs[i], i).Err?
    ensures TryEach(f, xs) == Err(f(xs[i], i).error)
  {
    var pre := xs[..i];
    TryEachFacts(f, pre);
    assert forall k :: 0 <= k < i ==> pre[k] == xs[k];
    assert xs[..i + 1][..i] == pre;
    ErrorPersists(f, xs, i + 1);
  }

  /** The sources load exactly when each loads, in order; the first bad source is reported. */
  lemma SourcesFacts(raw: seq<Json>)
    ensures ParseSources(raw).Ok? <==> forall i :: 0 <= i < |raw| ==> ParseSource(raw[i], i).Ok?
    ensures ParseSources(raw).Ok? ==>
              |ParseSources(raw).value| == |raw| &&
              forall i :: 0 <= i < |raw| ==> ParseSource(raw[i], i) == Ok(ParseSources(raw).value[i])
    ensures forall i :: 0 <= i < |raw| && ParseSource(raw[i], i).Err? &&
                        (forall k :: 0 <= k < i ==> ParseSource(raw[k], k).Ok?) ==>
              ParseSources(raw) == Err(ParseSource(raw[i], i).error)
  {
    TryEachFacts(ParseSource, raw);
    forall i | 0 <= i < |raw| && ParseSource(raw[i], i).Err? &&
               (forall k :: 0 <= k < i ==> ParseSource(raw[k], k).Ok?)
      ensures ParseSources(raw) == Err(ParseSource(raw[i], i).error)
    {
      FirstErrorReported(ParseSource, raw, i);
    }
  }

  const SourceKeyNames: seq<string> := ["id", "name", "url", "policy"]

  /**
   * A source's four keys are required in order: the first one missing is reported, with the
   * source's own index in the context.
   */
  lemma SourceWithoutId(s: Json, i: nat, j: nat)
    requires j < |SourceKeyNames|
    requires forall t :: 0 <= t < j ==>
      MustStr(s, SourceKeyNames[t], SourceCtx(i) + "." + SourceKeyNames[t]).Ok?
    requires s.JObj? && SourceKeyNames[j] !in s.fields
    ensures ParseSource(s, i) == Err(MissingKey(SourceKeyNames[j], SourceCtx(i) + "." + SourceKeyNames[j]))
  {
    var ctx := SourceCtx(i);
    assert ctx + "." + "id" == ctx + ".id";
    assert ctx + "." + "name" == ctx + ".name";
    assert ctx + "." + "url" == ctx + ".url";
    assert ctx + "." + "policy" == ctx + ".policy";
    if j > 0 { assert MustStr(s, SourceKeyNames[0], ctx + "." + SourceKeyNames[0]).Ok?; }
    if j > 1 { assert MustStr(s, SourceKeyNames[1], ctx + "." + SourceKeyNames[1]).Ok?; }
    if j > 2 { assert MustStr(s, SourceKeyNames[2], ctx + "." + SourceKeyNames[2]).Ok?; }
  }

  /** An empty or false document reads as `{}`, so `global` is the key reported missing. */
  lemma EmptyDocument(doc: Json)
    requires !Truthy(doc)
    ensures ConfigOf(doc) == Err(MissingKey("global", "root.global"))
  {
  }

  const Sections: seq<string> := ["thresholds", "request", "dedupe", "digest"]
  const SectionCtx: seq<string> :=
    ["root.global.thresholds", "root.global.request", "root.global.dedupe", "root.global.digest"]

  /** The four sections of `global` are required in order: the first missing one is reported. */
  lemma FirstMissingSection(doc: Json, j: nat)
    requires Data(doc).JObj? && "global" in Data(doc).fields
    requires Data(doc).fields["global"].JObj?
    requires j < |Sections|
    requires forall t :: 0 <= t < j ==> Sections[t] in Data(doc).fields["global"].fields
    requires Sections[j] !in Data(doc).fields["global"].fields
    ensures ConfigOf(doc) == Err(MissingKey(Sections[j], SectionCtx[j]))
  {
    var g := Data(doc).fields["global"];
    if j > 0 { assert Sections[0] in g.fields; }
    if j > 1 { assert Sections[1] in g.fields; }
    if j > 2 { assert Sections[2] in g.fields; }
  }

  /** The section of the `global` block a field is read from. */
  datatype Block = GlobalBlock | ThresholdsBlock | RequestBlock | DedupeBlock | DigestBlock

  /** One required field of `GlobalConfig`: where it is read, its key and context, and whether `int()` converts it. */
  datatype Lookup = Lookup(block: Block, key: string, ctx: string, isInt: bool)

  /** The nine required fields, in the order the source reads them. */
  const FieldLookups: seq<Lookup> := [
    Lookup(GlobalBlock, "mode", "root.global.mode", false),
    Lookup(ThresholdsBlock, "watch", "root.global.thresholds.watch", true),
    Lookup(ThresholdsBlock, "red", "root.global.thresholds.red", true),
    Lookup(GlobalBlock, "full_text_scope", "root.global.full_text_scope", false),
    Lookup(RequestBlock, "timeout_sec", "root.global.request.timeout_sec", true),
    Lookup(RequestBlock, "user_agent", "root.global.request.user_agent", false),
    Lookup(RequestBlock, "max_feed_items_per_source", "root.global.request.max_feed_items_per_source", true),
    Lookup(DedupeBlock, "keep_days", "root.global.dedupe.keep_days", true),
    Lookup(DigestBlock, "max_items_per_section", "root.global.digest.max_items_per_section", true)]

  function BlockOf(b: Block, g: Json, th: Json, req: Json, digest: Json, dedupe: Json): Json {
    match b
    case GlobalBlock => g
    case ThresholdsBlock => th
    case RequestBlock => req
    case DedupeBlock => dedupe
    case DigestBlock => digest
  }

  /** The field is present in its section and `int()` or `str()` converts it. */
  predicate Reads(l: Lookup, g: Json, th: Json, req: Json, digest: Json, dedupe: Json) {
    var d := BlockOf(l.block, g, th, req, digest, dedupe);
    if l.isInt then MustInt(d, l.key, l.ctx).Ok? else MustStr(d, l.key, l.ctx).Ok?
  }

  /** The field's section is a mapping without the field's key. */
  predicate Lacks(l: Lookup, g: Json, th: Json, req: Json, digest: Json, dedupe: Json) {
    var d := BlockOf(l.block, g, th, req, digest, dedupe);
    d.JObj? && l.key !in d.fields
  }

  /** A key missing from a mapping is reported before `str()` or `int()` runs. */
  lemma MustMissing(d: Json, k: string, ctx: string)
    requires d.JObj? && k !in d.fields
    ensures MustStr(d, k, ctx) == Err(MissingKey(k, ctx)) && MustInt(d, k, ctx) == Err(MissingKey(k, ctx))
  {
  }

  /** The first required field that is missing, after the earlier ones have read, is the one reported. */
  lemma FirstMissingField(g: Json, th: Json, req: Json, digest: Json, dedupe: Json, j: nat)
    requires j < |FieldLookups|
    requires forall t :: 0 <= t < j ==> Reads(FieldLookups[t], g, th, req, digest, dedupe)
    requires Lacks(FieldLookups[j], g, th, req, digest, dedupe)
    ensures GlobalFields(g, th, req, digest, dedupe) == Err(MissingKey(FieldLookups[j].key, FieldLookups[j].ctx))
  {
    if j == 0 {
      assert FieldLookups[j] == Lookup(GlobalBlock, "mode", "root.global.mode", false);
      MissingMode(g, th, req, digest, dedupe);
    } else if j == 1 {
      assert FieldLookups[j] == Lookup(ThresholdsBlock, "watch", "root.global.thresholds.watch", true);
      MissingWatch(g, th, req, digest, dedupe);
    } else if j == 2 {
      assert FieldLookups[j] == Lookup(ThresholdsBlock, "red", "root.global.thresholds.red", true);
      MissingRed(g, th, req, digest, dedupe);
    } else if j == 3 {
      assert FieldLookups[j] == Lookup(GlobalBlock, "full_text_scope", "root.global.full_text_scope", false);
      MissingScope(g, th, req, digest, dedupe);
    } else if j == 4 {
      assert FieldLookups[j] == Lookup(RequestBlock, "timeout_sec", "root.global.request.timeout_sec", true);
      MissingTimeout(g, th, req, digest, dedupe);
    } else if j == 5 {
      assert FieldLookups[j] == Lookup(RequestBlock, "user_agent", "root.global.request.user_agent", false);
      MissingUserAgent(g, th, req, digest, dedupe);
    } else if j == 6 {
      assert FieldLookups[j] == Lookup(RequestBlock, "max_feed_items_per_source", "root.global.request.max_feed_items_per_source", true);
      MissingMaxFeed(g, th, req, digest, dedupe);
    } else if j == 7 {
      assert FieldLookups[j] == Lookup(DedupeBlock, "keep_days", "root.global.dedupe.keep_days", true);
      MissingKeepDays(g, th, req, digest, dedupe);
    } else {
      assert FieldLookups[j] == Lookup(DigestBlock, "max_items_per_section", "root.global.digest.max_items_per_section", true);
      MissingMaxItems(g, th, req, digest, dedupe);
    }
  }

  /** Each of the required fields is reported missing once the fields before it have read. */
  lemma MissingMode(g: Json, th: Json, req: Json, digest: Json, dedupe: Json)
    requires Lacks(FieldLookups[0], g, th, req, digest, dedupe)
    ensures GlobalFields(g, th, req, digest, dedupe) == Err(MissingKey("mode", "root.global.mode"))
  {
  }

  lemma MissingWatch(g: Json, th: Json, req: Json, digest: Json, dedupe: Json)
    requires Reads(FieldLookups[0], g, th, req, digest, dedupe)
    requires Lacks(FieldLookups[1], g, th, req, digest, dedupe)
    ensures GlobalFields(g, th, req, digest, dedupe) == Err(MissingKey("watch", "root.global.thresholds.watch"))
  {
  }

  lemma MissingRed(g: Json, th: Json, req: Json, digest: Json, dedupe: Json)
    requires Reads(FieldLookups[0], g, th, req, digest, dedupe)
    requires Reads(FieldLookups[1], g, th, req, digest, dedupe)
    requires Lacks(FieldLookups[2], g, th, req, digest, dedupe)
    ensures GlobalFields(g, th, req, digest, dedupe) == Err(MissingKey("red", "root.global.thresholds.red"))
  {
  }

  lemma MissingScope(g: Json, th: Json, req: Json, digest: Json, dedupe: Json)
    requires Reads(FieldLookups[0], g, th, req, digest, dedupe)
    requires Reads(FieldLookups[1], g, th, req, digest, dedupe)
    requires Reads(FieldLookups[2], g, th, req, digest, dedupe)
    requires Lacks(FieldLookups[3], g, th, req, digest, dedupe)
    ensures GlobalFields(g, th, req, digest, dedupe) == Err(MissingKey("full_text_scope", "root.global.full_text_scope"))
  {
  }

  lemma MissingTimeout(g: Json, th: Json, req: Json, digest: Json, dedupe: Json)
    requires Reads(FieldLookups[0], g, th, req, digest, dedupe)
    requires Reads(FieldLookups[1], g, th, req, digest, dedupe)
    requires Reads(FieldLookups[2], g, th, req, digest, dedupe)
    requires Reads(FieldLookups[3], g, th, req, digest, dedupe)
    requires Lacks(FieldLookups[4], g, th, req, digest, dedupe)
    ensures GlobalFields(g, th, req, digest, dedupe) == Err(MissingKey("timeout_sec", "root.global.request.timeout_sec"))
  {
  }

  lemma MissingUserAgent(g: Json, th: Json, req: Json, digest: Json, dedupe: Json)
    requires Reads(FieldLookups[0], g, th, req, digest, dedupe)
    requires Reads(FieldLookups[1], g, th, req, digest, dedupe)
    requires Reads(FieldLookups[2], g, th, req, digest, dedupe)
    requires Reads(FieldLookups[3], g, th, req, digest, dedupe)
    requires Reads(FieldLookups[4], g, th, req, digest, dedupe)
    requires Lacks(FieldLookups[5], g, th, req, digest, dedupe)
    ensures GlobalFields(g, th, req, digest, dedupe) == Err(MissingKey("user_agent", "root.global.request.user_agent"))
  {
  }

  lemma MissingMaxFeed(g: Json, th: Json, req: Json, digest: Json, dedupe: Json)
    requires Reads(FieldLookups[0], g, th, req, digest, dedupe)
    requires Reads(FieldLookups[1], g, th, req, digest, dedupe)
    requires Reads(FieldLookups[2], g, th, req, digest, dedupe)
    requires Reads(FieldLookups[3], g, th, req, digest, dedupe)
    requires Reads(FieldLookups[4], g, th, req, digest, dedupe)
    requires Reads(FieldLookups[5], g, th, req, digest, dedupe)
    requires Lacks(FieldLookups[6], g, th, req, digest, dedupe)
    ensures GlobalFields(g, th, req, digest, dedupe) == Err(MissingKey("max_feed_items_per_source", "root.global.request.max_feed_items_per_source"))
  {
  }

  lemma MissingKeepDays(g: Json, th: Json, req: Json, digest: Json, dedupe: Json)
    requires Reads(FieldLookups[0], g, th, req, digest, dedupe)
    requires Reads(FieldLookups[1], g, th, req, digest, dedupe)
    requires Reads(FieldLookups[2], g, th, req, digest, dedupe)
    requires Reads(FieldLookups[3], g, th, req, digest, dedupe)
    requires Reads(FieldLookups[4], g, th, req, digest, dedupe)
    requires Reads(FieldLookups[5], g, th, req, digest, dedupe)
    requires Reads(FieldLookups[6], g, th, req, digest, dedupe)
    requires Lacks(FieldLookups[7], g, th, req, digest, dedupe)
    ensures GlobalFields(g, th, req, digest, dedupe) == Err(MissingKey("keep_days", "root.global.dedupe.keep_days"))
  {
  }

  lemma MissingMaxItems(g: Json, th: Json, req: Json, digest: Json, dedupe: Json)
    requires Reads(FieldLookups[0], g, th, req, digest, dedupe)
    requires Reads(FieldLookups[1], g, th, req, digest, dedupe)
    requires Reads(FieldLookups[2], g, th, req, digest, dedupe)
    requires Reads(FieldLookups[3], g, th, req, digest, dedupe)
    requires Reads(FieldLookups[4], g, th, req, digest, dedupe)
    requires Reads(FieldLookups[5], g, th, req, digest, dedupe)
    requires Reads(FieldLookups[6], g, th, req, digest, dedupe)
    requires Reads(FieldLookups[7], g, th, req, digest, dedupe)
    requires Lacks(FieldLookups[8], g, th, req, digest, dedupe)
    ensures GlobalFields(g, th, req, digest, dedupe) == Err(MissingKey("max_items_per_section", "root.global.digest.max_items_per_section"))
  {
  }

  /**
   * For a whole document whose `global` block has its four sections: the first missing
   * required field is the error `load_config` raises.
   */
  lemma FirstMissingGlobalField(doc: Json, j: nat)
    requires HasKeys(Data(doc), {"global"})
    requires HasKeys(Data(doc).fields["global"], {"thresholds", "request", "dedupe", "digest"})
    requires var g := Data(doc).fields["global"];
      var th, req, digest, dedupe := g.fields["thresholds"], g.fields["request"], g.fields["digest"], g.fields["dedupe"];
      j < |FieldLookups| &&
      (forall t :: 0 <= t < j ==> Reads(FieldLookups[t], g, th, req, digest, dedupe)) &&
      Lacks(FieldLookups[j], g, th, req, digest, dedupe)
    ensures ConfigOf(doc) == Err(MissingKey(FieldLookups[j].key, FieldLookups[j].ctx))
  {
    var data := Data(doc);
    var g := data.fields["global"];
    var th, req, dedupe, digest := g.fields["thresholds"], g.fields["request"], g.fields["dedupe"], g.fields["digest"];
    assert GlobalOf(data) == GlobalFields(g, th, req, digest, dedupe);
    FirstMissingField(g, th, req, digest, dedupe, j);
  }

  predicate HasKeys(d: Json, ks: set<string>) {
    d.JObj? && ks <= d.fields.Keys
  }

  /** Every key the source requires is present in its block. */
  predicate Complete(data: Json) {
    HasKeys(data, {"global", "sources"}) &&
    var g := data.fields["global"];
    HasKeys(g, {"thresholds", "request", "dedupe", "digest", "mode", "full_text_scope"}) &&
    HasKeys(g.fields["thresholds"], {"watch", "red"}) &&
    HasKeys(g.fields["request"], {"timeout_sec", "user_agent", "max_feed_items_per_source"}) &&
    HasKeys(g.fields["dedupe"], {"keep_days"}) &&
    HasKeys(g.fields["digest"], {"max_items_per_section"})
  }

  lemma GlobalComplete(data: Json)
    requires GlobalOf(data).Ok?
    ensures HasKeys(data, {"global"})
    ensures var g := data.fields["global"];
      HasKeys(g, {"thresholds", "request", "dedupe", "digest", "mode", "full_text_scope"}) &&
      HasKeys(g.fields["thresholds"], {"watch", "red"}) &&
      HasKeys(g.fields["request"], {"timeout_sec", "user_agent", "max_feed_items_per_source"}) &&
      HasKeys(g.fields["dedupe"], {"keep_days"}) &&
      HasKeys(g.fields["digest"], {"max_items_per_section"})
  {
    var g := data.fields["global"];
    var th := g.fields["thresholds"];
    var req := g.fields["request"];
    var digest := g.fields["digest"];
    var dedupe := g.fields["dedupe"];
    assert GlobalOf(data) == GlobalFields(g, th, req, digest, dedupe);
    FieldsPresent(g, th, req, digest, dedupe);
  }

  lemma FieldsPresent(g: Json, th: Json, req: Json, digest: Json, dedupe: Json)
    requires GlobalFields(g, th, req, digest, dedupe).Ok?
    ensures HasKeys(g, {"mode", "full_text_scope"}) && HasKeys(th, {"watch", "red"})
    ensures HasKeys(req, {"timeout_sec", "user_agent", "max_feed_items_per_source"})
    ensures HasKeys(dedupe, {"keep_days"}) && HasKeys(digest, {"max_items_per_section"})
  {
    var mode := MustStr(g, "mode", "root.global.mode").value;
    var scope := MustStr(g, "full_text_scope", "root.global.full_text_scope").value;
    LimitsPresent(Strip(mode), MustInt(th, "watch", "root.global.thresholds.watch").value,
                  MustInt(th, "red", "root.global.thresholds.red").value, Strip(scope), req, digest, dedupe);
  }

  lemma LimitsPresent(mode: string, watch: int, red: int, scope: string, req: Json, digest: Json, dedupe: Json)
    requires LimitFields(mode, watch, red, scope, req, digest, dedupe).Ok?
    ensures HasKeys(req, {"timeout_sec", "user_agent", "max_feed_items_per_source"})
    ensures HasKeys(dedupe, {"keep_days"}) && HasKeys(digest, {"max_items_per_section"})
  {
  }

  /** A loaded configuration passed each stage of the loading chain. */
  lemma ConfigStages(doc: Json)
    requires ConfigOf(doc).Ok?
    ensures GlobalOf(Data(doc)).Ok? && HasKeys(Data(doc), {"sources"})
    ensures ConfigOf(doc).value.globalCfg == GlobalOf(Data(doc)).value
    ensures Data(doc).fields["sources"].JList? ==> ParseSources(Data(doc).fields["sources"].items).Ok?
  {
  }

  /** A source without `keywords` or `context_rules` gets empty lists for them. */
  lemma SourceListsDefault(s: Json, i: nat)
    requires ParseSource(s, i).Ok?
    ensures "keywords" !in s.fields ==> ParseSource(s, i).value.keywords == []
    ensures "context_rules" !in s.fields ==> ParseSource(s, i).value.contextRules == []
  {
  }

  /** A source that parses has its four required keys. */
  lemma SourceKeys(s: Json, i: nat)
    requires ParseSource(s, i).Ok?
    ensures HasKeys(s, {"id", "name", "url", "policy"})
  {
  }

  /** A loaded configuration had every required key, and each source its four. */
  lemma LoadedIsComplete(doc: Json)
    requires ConfigOf(doc).Ok?
    ensures Complete(Data(doc))
    ensures Data(doc).fields["sources"].JList? ==>
      forall s :: s in Data(doc).fields["sources"].items ==> HasKeys(s, {"id", "name", "url", "policy"})
  {
    var data := Data(doc);
    ConfigStages(doc);
    GlobalComplete(data);
    var sv := data.fields["sources"];
    if sv.JList? {
      var raw := sv.items;
      SourcesFacts(raw);
      forall s | s in raw ensures HasKeys(s, {"id", "name", "url", "policy"}) {
        var i :| 0 <= i < |raw| && raw[i] == s;
        SourceKeys(s, i);
      }
    }
  }

  /** The digest block of a complete document. */
  function DigestOf(doc: Json): Json
    requires Complete(Data(doc))
  {
    Data(doc).fields["global"].fields["digest"]
  }

  /** Without the flags, green items go to the markdown report and stay out of the digest. */
  lemma GreenDefaults(doc: Json)
    requires ConfigOf(doc).Ok?
    ensures Complete(Data(doc))
    ensures "include_green_in_md" !in DigestOf(doc).fields ==>
              ConfigOf(doc).value.globalCfg.includeGreenInMd
    ensures "include_green_in_telegram" !in DigestOf(doc).fields ==>
              !ConfigOf(doc).value.globalCfg.includeGreenInTelegram
  {
    LoadedIsComplete(doc);
    ConfigStages(doc);
    GlobalOfFacts(Data(doc));
  }

  predicate Stripped(s: string) {
    Strip(s) == s
  }

  lemma SourceStripped(s: Json, i: nat)
    requires ParseSource(s, i).Ok?
    ensures var c := ParseSource(s, i).value;
      Stripped(c.id) && Stripped(c.name) && Stripped(c.url) && Stripped(c.policy)
  {
    var ctx := SourceCtx(i);
    StripIdempotent(MustStr(s, "id", ctx + ".id").value);
    StripIdempotent(MustStr(s, "name", ctx + ".name").value);
    StripIdempotent(MustStr(s, "url", ctx + ".url").value);
    StripIdempotent(MustStr(s, "policy", ctx + ".policy").value);
  }

  lemma GlobalFieldsStripped(g: Json, thresholds: Json, req: Json, digest: Json, dedupe: Json)
    requires GlobalFields(g, thresholds, req, digest, dedupe).Ok?
    ensures var c := GlobalFields(g, thresholds, req, digest, dedupe).value;
            Stripped(c.mode) && Stripped(c.fullTextScope)
  {
    var mode := MustStr(g, "mode", "root.global.mode").value;
    var scope := MustStr(g, "full_text_scope", "root.global.full_text_scope").value;
    StripIdempotent(mode);
    StripIdempotent(scope);
    LimitsKeep(Strip(mode), MustInt(thresholds, "watch", "root.global.thresholds.watch").value,
               MustInt(thresholds, "red", "root.global.thresholds.red").value, Strip(scope), req, digest, dedupe);
  }

  /**
   * The mode, thresholds and scope read first pass through the remaining lookups unchanged;
   * the user agent is the string read, and the green flags are the digest's.
   */
  lemma LimitsKeep(mode: string, watch: int, red: int, scope: string, req: Json, digest: Json, dedupe: Json)
    requires LimitFields(mode, watch, red, scope, req, digest, dedupe).Ok?
    ensures var c := LimitFields(mode, watch, red, scope, req, digest, dedupe).value;
            c.mode == mode && c.watchThreshold == watch && c.redThreshold == red && c.fullTextScope == scope &&
            c.userAgent == MustStr(req, "user_agent", "root.global.request.user_agent").value &&
            c.includeGreenInMd == Truthy(Get(digest, "include_green_in_md", JBool(true))) &&
            c.includeGreenInTelegram == Truthy(Get(digest, "include_green_in_telegram", JBool(false)))
  {
  }

  /** What the global block yields for the user agent and the green flags. */
  lemma GlobalOfFacts(data: Json)
    requires GlobalOf(data).Ok?
    ensures HasKeys(data, {"global"}) && HasKeys(data.fields["global"], {"request", "digest"})
    ensures var g := data.fields["global"];
            var req := g.fields["request"];
            var digest := g.fields["digest"];
            var c := GlobalOf(data).value;
            c.userAgent == MustStr(req, "user_agent", "root.global.request.user_agent").value &&
            c.includeGreenInMd == Truthy(Get(digest, "include_green_in_md", JBool(true))) &&
            c.includeGreenInTelegram == Truthy(Get(digest, "include_green_in_telegram", JBool(false)))
  {
    var g := data.fields["global"];
    var th := g.fields["thresholds"];
    var req := g.fields["request"];
    var digest := g.fields["digest"];
    var dedupe := g.fields["dedupe"];
    assert GlobalOf(data) == GlobalFields(g, th, req, digest, dedupe);
    var mode := MustStr(g, "mode", "root.global.mode").value;
    var scope := MustStr(g, "full_text_scope", "root.global.full_text_scope").value;
    LimitsKeep(Strip(mode), MustInt(th, "watch", "root.global.thresholds.watch").value,
               MustInt(th, "red", "root.global.thresholds.red").value, Strip(scope), req, digest, dedupe);
  }

  lemma GlobalStripped(data: Json)
    requires GlobalOf(data).Ok?
    ensures Stripped(GlobalOf(data).value.mode) && Stripped(GlobalOf(data).value.fullTextScope)
  {
    var g := data.fields["global"];
    GlobalFieldsStripped(g, g.fields["thresholds"], g.fields["request"], g.fields["digest"], g.fields["dedupe"]);
  }

  lemma SourcesStripped(raw: seq<Json>)
    requires ParseSources(raw).Ok?
    ensures var ss := ParseSources(raw).value;
      forall i :: 0 <= i < |ss| ==>
        Stripped(ss[i].id) && Stripped(ss[i].name) && Stripped(ss[i].url) && Stripped(ss[i].policy)
  {
    SourcesFacts(raw);
    forall i | 0 <= i < |raw| ensures var c := ParseSources(raw).value[i];
      Stripped(c.id) && Stripped(c.name) && Stripped(c.url) && Stripped(c.policy)
    {
      SourceStripped(raw[i], i);
    }
  }

  /**
   * The mode, the full-text scope and each source's four strings come out stripped; the
   * user agent does not (see UserAgentVerbatim).
   */
  lemma ConfigStripped(doc: Json)
    requires ConfigOf(doc).Ok?
    ensures var c := ConfigOf(doc).value;
      Stripped(c.globalCfg.mode) && Stripped(c.globalCfg.fullTextScope) &&
      forall i :: 0 <= i < |c.sources| ==>
        Stripped(c.sources[i].id) && Stripped(c.sources[i].name) &&
        Stripped(c.sources[i].url) && Stripped(c.sources[i].policy)
  {
    var data := Data(doc);
    GlobalStripped(data);
    SourcesStripped(Iterated(data.fields["sources"], "root.sources").value);
  }

  /** A user agent given as a string is kept as written, surrounding white space included. */
  lemma UserAgentVerbatim(doc: Json, agent: string)
    requires ConfigOf(doc).Ok?
    requires Complete(Data(doc))
    requires Data(doc).fields["global"].fields["request"].fields["user_agent"] == JStr(agent)
    ensures ConfigOf(doc).value.globalCfg.userAgent == agent
  {
    ConfigStages(doc);
    GlobalOfFacts(Data(doc));
  }

  // ---------------------------------------------------------------------------
  // A document that loads

  /** A complete document with the given thresholds and no sources. */
  function SampleDoc(watch: int, red: int): Json {
    JObj(map["global" := SampleBlock(watch, red), "sources" := JList([])])
  }

  function SampleBlock(watch: int, red: int): Json {
    JObj(map[
      "mode" := JStr(" aggressive "),
      "full_text_scope" := JStr("RED"),
      "thresholds" := SampleThresholdBlock(watch, red),
      "request" := SampleRequest(),
      "dedupe" := SampleDedupe(),
      "digest" := SampleDigest()])
  }

  function SampleThresholdBlock(watch: int, red: int): Json {
    JObj(map["watch" := JInt(watch), "red" := JInt(red)])
  }

  function SampleDedupe(): Json {
    JObj(map["keep_days" := JInt(14)])
  }

  function SampleDigest(): Json {
    JObj(map["max_items_per_section" := JInt(10)])
  }

  function SampleRequest(): Json {
    JObj(map[
      "timeout_sec" := JInt(20),
      "user_agent" := JStr("radar"),
      "max_feed_items_per_source" := JInt(30)])
  }

  /** The global block loads once each of its fourteen lookups succeeds. */
  lemma GlobalOfLookups(data: Json, g: Json, th: Json, req: Json, dd: Json, dg: Json,
                        mode: string, scope: string, agent: string,
                        watch: int, red: int, timeout: int, maxFeed: int, keep: int, maxItems: int)
    requires Must(data, "global", "root.global") == Ok(g)
    requires Must(g, "thresholds", "root.global.thresholds") == Ok(th)
    requires Must(g, "request", "root.global.request") == Ok(req)
    requires Must(g, "dedupe", "root.global.dedupe") == Ok(dd)
    requires Must(g, "digest", "root.global.digest") == Ok(dg)
    requires MustStr(g, "mode", "root.global.mode") == Ok(mode)
    requires MustInt(th, "watch", "root.global.thresholds.watch") == Ok(watch)
    requires MustInt(th, "red", "root.global.thresholds.red") == Ok(red)
    requires MustStr(g, "full_text_scope", "root.global.full_text_scope") == Ok(scope)
    requires MustInt(req, "timeout_sec", "root.global.request.timeout_sec") == Ok(timeout)
    requires MustStr(req, "user_agent", "root.global.request.user_agent") == Ok(agent)
    requires MustInt(req, "max_feed_items_per_source",
                     "root.global.request.max_feed_items_per_source") == Ok(maxFeed)
    requires MustInt(dd, "keep_days", "root.global.dedupe.keep_days") == Ok(keep)
    requires MustInt(dg, "max_items_per_section",
                     "root.global.digest.max_items_per_section") == Ok(maxItems)
    ensures GlobalOf(data) == Ok(GlobalConfig(
      Strip(mode), watch, red, Strip(scope), timeout, agent, maxFeed, keep, maxItems,
      Truthy(Get(dg, "include_green_in_md", JBool(true))),
      Truthy(Get(dg, "include_green_in_telegram", JBool(false)))))
  {
  }

  /** The global block of the sample: the mode stripped. */
  lemma SampleGlobal(watch: int, red: int)
    ensures GlobalOf(SampleDoc(watch, red)) ==
      Ok(GlobalConfig("aggressive", watch, red, "RED", 20, "radar", 30, 14, 10, true, false))
  {
    SampleMode();
    SampleScope();
    var g := SampleBlock(watch, red);
    SampleOuter(watch, red);
    SampleSections(watch, red);
    SampleRequestFields();
    SampleThresholds(watch, red);
    SampleLimits(watch, red);
    GlobalOfLookups(SampleDoc(watch, red), g, SampleThresholdBlock(watch, red), SampleRequest(),
                    SampleDedupe(), SampleDigest(), " aggressive ", "RED", "radar",
                    watch, red, 20, 30, 14, 10);
  }

  lemma SampleOuter(watch: int, red: int)
    ensures Must(SampleDoc(watch, red), "global", "root.global") == Ok(SampleBlock(watch, red))
    ensures MustStr(SampleBlock(watch, red), "mode", "root.global.mode") == Ok(" aggressive ")
    ensures MustStr(SampleBlock(watch, red), "full_text_scope", "root.global.full_text_scope") == Ok("RED")
  {
  }

  lemma SampleSections(watch: int, red: int)
    ensures Must(SampleBlock(watch, red), "thresholds", "root.global.thresholds") == Ok(SampleThresholdBlock(watch, red))
    ensures Must(SampleBlock(watch, red), "request", "root.global.request") == Ok(SampleRequest())
    ensures Must(SampleBlock(watch, red), "dedupe", "root.global.dedupe") == Ok(SampleDedupe())
    ensures Must(SampleBlock(watch, red), "digest", "root.global.digest") == Ok(SampleDigest())
  {
  }

  lemma SampleThresholds(watch: int, red: int)
    ensures MustInt(SampleThresholdBlock(watch, red), "watch", "root.global.thresholds.watch") == Ok(watch)
    ensures MustInt(SampleThresholdBlock(watch, red), "red", "root.global.thresholds.red") == Ok(red)
  {
  }

  lemma SampleLimits(watch: int, red: int)
    ensures MustInt(SampleDedupe(), "keep_days", "root.global.dedupe.keep_days") == Ok(14)
    ensures MustInt(SampleDigest(), "max_items_per_section",
                    "root.global.digest.max_items_per_section") == Ok(10)
    ensures Get(SampleDigest(), "include_green_in_md", JBool(true)) == JBool(true)
    ensures Get(SampleDigest(), "include_green_in_telegram", JBool(false)) == JBool(false)
  {
  }

  lemma SampleRequestFields()
    ensures MustInt(SampleRequest(), "timeout_sec", "root.global.request.timeout_sec") == Ok(20)
    ensures MustStr(SampleRequest(), "user_agent", "root.global.request.user_agent") == Ok("radar")
    ensures MustInt(SampleRequest(), "max_feed_items_per_source",
                    "root.global.request.max_feed_items_per_source") == Ok(30)
  {
  }

  lemma SampleMode()
    ensures Strip(" aggressive ") == "aggressive"
  {
    assert Strip(" aggressive ") == Strip("aggressive ");
    assert Strip("aggressive ") == Strip("aggressive");
    StripFacts("aggressive");
  }

  lemma SampleScope()
    ensures Strip("RED") == "RED"
  {
    StripFacts("RED");
  }

  /**
   * Any two thresholds load, in either order: nothing requires `watch <= red`; and the
   * green flags take their defaults.
   */
  lemma AnyThresholdsLoad(watch: int, red: int)
    ensures ConfigOf(SampleDoc(watch, red)) ==
      Ok(AppConfig(GlobalConfig("aggressive", watch, red, "RED", 20, "radar", 30, 14, 10, true, false), []))
  {
    SampleGlobal(watch, red);
    assert ParseSources([]) == Ok([]);
  }
}
