/** Application settings: numeric defaults, the embedding-dimension lookup,
    and the prompt and schema configurations with their fallbacks. Reading
    and creating the YAML files is I/O; a file is given here as its parsed
    content, or None when it does not exist (the dummy content is used then). */
module Config {
  import opened Common
  import opened Strings

  /** A scalar read from the main configuration file. */
  datatype ConfigValue = CInt(i: int) | CReal(r: real) | CStr(s: string)

  type AppConfig = map<string, ConfigValue>

  const DefaultEmbeddingDimension: int := 1536

  /** The content written when the main configuration file is missing. */
  function DummyAppConfig(): AppConfig {
    map[
      "app_name" := CStr("Graph RAG Application"),
      "api_v1_str" := CStr("/api/v1"),
      "llm_ingestion_model_name" := CStr("gpt-4o-mini"),
      "llm_query_ner_model_name" := CStr("gpt-4o-mini"),
      "llm_query_intent_model_name" := CStr("gpt-4o-mini"),
      "llm_query_response_model_name" := CStr("gpt-4o"),
      "llm_embedding_model_name" := CStr("text-embedding-3-small"),
      "schema_file_path" := CStr("schema.yaml"),
      "prompts_file_path" := CStr("prompts.yaml"),
      "faiss_index_path" := CStr("data/vector_store/graph_entities.index"),
      "vector_match_threshold" := CReal(0.7),
      "entity_info_hop_depth" := CInt(1),
      "relationship_discovery_max_path_length" := CInt(3),
      "complex_query_hop_depth" := CInt(2)
    ]
  }

  // ---- numeric strings ----

  predicate IsDigit(c: char) {
    '0' <= c <= '9'
  }

  predicate AllDigits(s: string) {
    forall i :: 0 <= i < |s| ==> IsDigit(s[i])
  }

  /** The value of a string of decimal digits, most significant first. */
  function DigitsValue(s: string): nat
    requires AllDigits(s)
  {
    if s == [] then 0 else 10 * DigitsValue(s[..|s| - 1]) + (s[|s| - 1] as int - '0' as int)
  }

  function Pow10(k: nat): (r: nat)
    ensures r >= 1
  {
    if k == 0 then 1 else 10 * Pow10(k - 1)
  }

  /** `s.lstrip()`: the suffix left after the leading whitespace. */
  function TrimStart(s: string): (r: string)
    ensures |r| <= |s| && r == s[|s| - |r|..]
    ensures forall i :: 0 <= i < |s| - |r| ==> IsPyWhitespace(s[i])
    ensures r == [] || !IsPyWhitespace(r[0])
  {
    if s != [] && IsPyWhitespace(s[0]) then TrimStart(s[1..]) else s
  }

  /** `s.rstrip()`: the prefix left before the trailing whitespace. */
  function TrimEnd(s: string): (r: string)
    ensures |r| <= |s| && r == s[..|r|]
    ensures forall i :: |r| <= i < |s| ==> IsPyWhitespace(s[i])
    ensures r == [] || !IsPyWhitespace(r[|r| - 1])
  {
    if s != [] && IsPyWhitespace(s[|s| - 1]) then TrimEnd(s[..|s| - 1]) else s
  }

  /** `s.strip()` */
  function Strip(s: string): string {
    TrimEnd(TrimStart(s))
  }

  /** The digits after an optional leading sign. */
  function Unsigned(t: string): string {
    if t != [] && (t[0] == '-' || t[0] == '+') then t[1..] else t
  }

  predicate Negative(t: string) {
    t != [] && t[0] == '-'
  }

  /** A stripped integer literal: an optional sign and one or more digits. */
  function IntLiteral(t: string): Option<int> {
    var digits := Unsigned(t);
    if digits != [] && AllDigits(digits) then
      var n: int := DigitsValue(digits);
      Some(if Negative(t) then -n else n)
    else None
  }

  /** Python's `int(s)` on a string: surrounding whitespace is ignored and
      what remains must be an integer literal; otherwise it raises (None). */
  function ParseInt(s: string): Option<int> {
    IntLiteral(Strip(s))
  }

  /** `k` digits are worth less than `10^k`. */
  lemma {:induction false} DigitsBelowPow10(s: string)
    requires AllDigits(s)
    ensures DigitsValue(s) < Pow10(|s|)
  {
    if s != [] {
      DigitsBelowPow10(s[..|s| - 1]);
    }
  }

  lemma FractionBounds(d: nat, p: nat)
    requires d < p
    ensures 0.0 <= d as real / p as real < 1.0
  {
    assert d as real / p as real * p as real == d as real;
  }

  /** The value of `whole.fraction` in decimal-point notation. */
  function PointValue(whole: string, fraction: string): (r: real)
    requires AllDigits(whole) && AllDigits(fraction)
    ensures DigitsValue(whole) as real <= r < DigitsValue(whole) as real + 1.0
  {
    DigitsBelowPow10(fraction);
    FractionBounds(DigitsValue(fraction), Pow10(|fraction|));
    DigitsValue(whole) as real + DigitsValue(fraction) as real / Pow10(|fraction|) as real
  }

  /** Digits with at most one decimal point and at least one digit. */
  function DecimalMagnitude(body: string): Option<real> {
    var k := LastIndexOf(body, '.');
    if k < 0 then
      if body != [] && AllDigits(body) then Some(DigitsValue(body) as real) else None
    else
      var whole, fraction := body[..k], body[k + 1..];
      if AllDigits(whole) && AllDigits(fraction) && |whole| + |fraction| > 0 then
        Some(PointValue(whole, fraction))
      else None
  }

  /** A stripped decimal-point literal with an optional sign. */
  function RealLiteral(t: string): Option<real> {
    var m := DecimalMagnitude(Unsigned(t));
    if m.None? then None else Some(if Negative(t) then -m.value else m.value)
  }

  /** Python's `float(s)` on a string in decimal-point notation: surrounding
      whitespace is ignored; anything else raises (None). */
  function ParseReal(s: string): Option<real> {
    RealLiteral(Strip(s))
  }

  /** Python's `int(x)`: floats are truncated toward zero, strings parsed. */
  function ToInt(v: ConfigValue): (r: Option<int>)
    ensures v.CInt? ==> r == Some(v.i)
    ensures v.CReal? && v.r >= 0.0 ==> r.Some? && r.value as real <= v.r < r.value as real + 1.0
    ensures v.CReal? && v.r < 0.0 ==> r.Some? && r.value as real - 1.0 < v.r <= r.value as real
    ensures v.CStr? ==> r == ParseInt(v.s)
  {
    match v
    case CInt(i) => Some(i)
    case CReal(x) => if x >= 0.0 then Some(x.Floor) else Some(-((-x).Floor))
    case CStr(s) => ParseInt(s)
  }

  /** Python's `float(x)`: numbers are widened, strings parsed. */
  function ToReal(v: ConfigValue): (r: Option<real>)
    ensures v.CInt? ==> r == Some(v.i as real)
    ensures v.CReal? ==> r == Some(v.r)
    ensures v.CStr? ==> r == ParseReal(v.s)
  {
    match v
    case CInt(i) => Some(i as real)
    case CReal(x) => Some(x)
    case CStr(s) => ParseReal(s)
  }

  /** `float(x)` succeeds wherever `int(x)` does on an integer or a string,
      with the same value. */
  lemma ToRealExtendsToInt(v: ConfigValue)
    requires !v.CReal? && ToInt(v).Some?
    ensures ToReal(v) == Some(ToInt(v).value as real)
  {
    if v.CStr? {
      ParseRealExtendsParseInt(v.s);
    }
  }

  /** The digits `str(n)` writes are read back as `n`. */
  lemma {:induction false} NatToStringDigits(n: nat)
    ensures AllDigits(NatToString(n)) && DigitsValue(NatToString(n)) == n
    decreases n
  {
    var s := NatToString(n);
    if n >= 10 {
      NatToStringDigits(n / 10);
      assert s[..|s| - 1] == NatToString(n / 10);
    }
  }

  /** A string without whitespace at either end is its own `strip()`. */
  lemma StripUnpadded(s: string)
    requires s != [] && !IsPyWhitespace(s[0]) && !IsPyWhitespace(s[|s| - 1])
    ensures Strip(s) == s
  {
  }

  /** `str(i)` has no whitespace to strip. */
  lemma StripIntToString(i: int)
    ensures Strip(IntToString(i)) == IntToString(i)
  {
    var digits := NatToString(if i < 0 then -i else i);
    NatToStringDigits(if i < 0 then -i else i);
    var s := IntToString(i);
    assert IsDigit(digits[0]) && IsDigit(s[|s| - 1]);
    StripUnpadded(s);
  }

  /** `str(i)` is an integer literal with the value `i`. */
  lemma IntLiteralOfIntToString(i: int)
    ensures IntLiteral(IntToString(i)) == Some(i)
  {
    var digits := NatToString(if i < 0 then -i else i);
    NatToStringDigits(if i < 0 then -i else i);
    assert IsDigit(digits[0]);
    assert Unsigned(IntToString(i)) == digits;
  }

  /** `int(str(i)) == i` */
  lemma ParseIntToString(i: int)
    ensures ParseInt(IntToString(i)) == Some(i)
  {
    StripIntToString(i);
    IntLiteralOfIntToString(i);
  }

  /** `float(s)` agrees with `int(s)` wherever `int(s)` succeeds. */
  lemma ParseRealExtendsParseInt(s: string)
    requires ParseInt(s).Some?
    ensures ParseReal(s) == Some(ParseInt(s).value as real)
  {
    var digits := Unsigned(Strip(s));
    assert LastIndexOf(digits, '.') < 0;
  }

  /** A literal holding a point is no integer literal. */
  lemma IntLiteralRejectsPoint(t: string, i: nat)
    requires i < |t| && t[i] == '.'
    ensures IntLiteral(t) == None
  {
  }

  /** A character `lstrip()` does not remove keeps its place after the
      leading whitespace. */
  lemma TrimStartKeeps(s: string, i: nat)
    requires i < |s| && !IsPyWhitespace(s[i])
    ensures var a := |s| - |TrimStart(s)|; a <= i && TrimStart(s)[i - a] == s[i]
  {
  }

  /** A character `rstrip()` does not remove stays where it was. */
  lemma TrimEndKeeps(t: string, i: nat)
    requires i < |t| && !IsPyWhitespace(t[i])
    ensures i < |TrimEnd(t)| && TrimEnd(t)[i] == t[i]
  {
  }

  /** A character `strip()` does not remove keeps its place after the
      leading whitespace. */
  lemma StripKeeps(s: string, i: nat)
    requires i < |s| && !IsPyWhitespace(s[i])
    ensures var a := |s| - |TrimStart(s)|;
      a <= i && i - a < |Strip(s)| && Strip(s)[i - a] == s[i]
  {
    TrimStartKeeps(s, i);
    TrimEndKeeps(TrimStart(s), i - (|s| - |TrimStart(s)|));
  }

  /** `int` raises on a string holding a decimal point. */
  lemma ParseIntRejectsPoint(s: string, i: nat)
    requires i < |s| && s[i] == '.'
    ensures ParseInt(s) == None
  {
    StripKeeps(s, i);
    IntLiteralRejectsPoint(Strip(s), i - (|s| - |TrimStart(s)|));
  }

  /** Digits, a point and digits read as a whole part plus a fraction. */
  lemma DecimalMagnitudePoint(whole: string, fraction: string)
    requires AllDigits(whole) && AllDigits(fraction) && |whole| + |fraction| > 0
    ensures DecimalMagnitude(whole + "." + fraction) == Some(PointValue(whole, fraction))
  {
    var body := whole + "." + fraction;
    assert '.' !in fraction;
    LastIndexOfAfter(whole, '.', fraction);
    assert body[..|whole|] == whole && body[|whole| + 1..] == fraction;
  }

  /** `float` reads a whole part, a point and a fraction. */
  lemma ParseRealPoint(w: string, f: string)
    requires w != [] && f != [] && AllDigits(w) && AllDigits(f)
    ensures var r := ParseReal(w + "." + f);
      && r == Some(PointValue(w, f))
      && DigitsValue(w) as real <= r.value < DigitsValue(w) as real + 1.0
  {
    var s := w + "." + f;
    assert s[0] == w[0] && s[|s| - 1] == f[|f| - 1];
    StripUnpadded(s);
    assert Unsigned(s) == s && !Negative(s);
    DecimalMagnitudePoint(w, f);
  }

  /** Leading whitespace is dropped whatever follows it. */
  lemma {:induction false} TrimStartPadded(a: string, t: string)
    requires IsBlank(a) && t != [] && !IsPyWhitespace(t[0])
    ensures TrimStart(a + t) == t
    decreases |a|
  {
    if a != [] {
      assert (a + t)[1..] == a[1..] + t;
      TrimStartPadded(a[1..], t);
    }
  }

  /** Trailing whitespace is dropped whatever precedes it. */
  lemma {:induction false} TrimEndPadded(t: string, b: string)
    requires IsBlank(b) && t != [] && !IsPyWhitespace(t[|t| - 1])
    ensures TrimEnd(t + b) == t
    decreases |b|
  {
    if b != [] {
      assert (t + b)[..|t + b| - 1] == t + b[..|b| - 1];
      TrimEndPadded(t, b[..|b| - 1]);
    }
  }

  /** Both conversions ignore whitespace around the number. */
  lemma PaddedNumber(a: string, t: string, b: string)
    requires IsBlank(a) && IsBlank(b)
    requires t != [] && !IsPyWhitespace(t[0]) && !IsPyWhitespace(t[|t| - 1])
    ensures ParseInt(a + t + b) == ParseInt(t) && ParseReal(a + t + b) == ParseReal(t)
  {
    assert a + t + b == a + (t + b);
    TrimStartPadded(a, t + b);
    TrimEndPadded(t, b);
    StripUnpadded(t);
  }

  function Lookup(cfg: AppConfig, key: string, default: ConfigValue): ConfigValue {
    if key in cfg then cfg[key] else default
  }

  function EmbeddingModel(cfg: AppConfig): ConfigValue {
    Lookup(cfg, "llm_embedding_model_name", CStr("text-embedding-3-small"))
  }

  const KnownEmbeddingModels: set<ConfigValue> :=
    {CStr("text-embedding-3-small"), CStr("text-embedding-3-large"), CStr("text-embedding-ada-002")}

  /** The embedding dimension: fixed for the three known OpenAI models,
      otherwise the configured `embedding_dimension`, defaulting to 1536. */
  function EmbeddingDimension(cfg: AppConfig): (r: Option<int>)
    ensures EmbeddingModel(cfg) == CStr("text-embedding-3-small") ==> r == Some(1536)
    ensures EmbeddingModel(cfg) == CStr("text-embedding-3-large") ==> r == Some(3072)
    ensures EmbeddingModel(cfg) == CStr("text-embedding-ada-002") ==> r == Some(1536)
    ensures EmbeddingModel(cfg) !in KnownEmbeddingModels ==>
      r == ToInt(Lookup(cfg, "embedding_dimension", CInt(DefaultEmbeddingDimension)))
  {
    var model := EmbeddingModel(cfg);
    if model == CStr("text-embedding-3-small") then Some(1536)
    else if model == CStr("text-embedding-3-large") then Some(3072)
    else if model == CStr("text-embedding-ada-002") then Some(1536)
    else ToInt(Lookup(cfg, "embedding_dimension", CInt(DefaultEmbeddingDimension)))
  }

  /** The values read from the main configuration file. Names and paths are
      kept as read: the source does not convert them. */
  datatype Settings = Settings(
    appName: ConfigValue,
    apiV1Str: ConfigValue,
    ingestionModel: ConfigValue,
    queryNerModel: ConfigValue,
    queryIntentModel: ConfigValue,
    queryResponseModel: ConfigValue,
    embeddingModel: ConfigValue,
    schemaFilePath: ConfigValue,
    promptsFilePath: ConfigValue,
    faissIndexPath: ConfigValue,
    embeddingDimension: int,
    vectorMatchThreshold: real,
    entityInfoHopDepth: int,
    relationshipDiscoveryMaxPathLength: int,
    complexQueryHopDepth: int)

  /** A key present in the configuration was kept as read. */
  predicate KeptAsRead(cfg: AppConfig, key: string, v: ConfigValue) {
    key in cfg ==> v == cfg[key]
  }

  /** The settings built from the main configuration file (None: the file
      is missing and the dummy content is used). None as a result stands for
      the exception Python raises on a value `float` or `int` rejects. A
      present numeric entry that converts is used as converted. */
  function LoadSettings(file: Option<AppConfig>): (r: Option<Settings>)
    ensures file.Some? && "vector_match_threshold" in file.value ==>
      (ToReal(file.value["vector_match_threshold"]).None? ==> r.None?)
      && (r.Some? ==> ToReal(file.value["vector_match_threshold"]) == Some(r.value.vectorMatchThreshold))
    ensures file.Some? && "entity_info_hop_depth" in file.value ==>
      (ToInt(file.value["entity_info_hop_depth"]).None? ==> r.None?)
      && (r.Some? ==> ToInt(file.value["entity_info_hop_depth"]) == Some(r.value.entityInfoHopDepth))
    ensures file.Some? && "relationship_discovery_max_path_length" in file.value ==>
      (ToInt(file.value["relationship_discovery_max_path_length"]).None? ==> r.None?)
      && (r.Some? ==> ToInt(file.value["relationship_discovery_max_path_length"])
                      == Some(r.value.relationshipDiscoveryMaxPathLength))
    ensures file.Some? && "complex_query_hop_depth" in file.value ==>
      (ToInt(file.value["complex_query_hop_depth"]).None? ==> r.None?)
      && (r.Some? ==> ToInt(file.value["complex_query_hop_depth"]) == Some(r.value.complexQueryHopDepth))
    ensures file.Some? ==>
      (EmbeddingDimension(file.value).None? ==> r.None?)
      && (r.Some? ==> EmbeddingDimension(file.value) == Some(r.value.embeddingDimension))
    ensures file.Some? && r.Some? ==>
      var cfg := file.value;
      var st := r.value;
      && KeptAsRead(cfg, "app_name", st.appName) && KeptAsRead(cfg, "api_v1_str", st.apiV1Str)
      && KeptAsRead(cfg, "llm_ingestion_model_name", st.ingestionModel)
      && KeptAsRead(cfg, "llm_query_ner_model_name", st.queryNerModel)
      && KeptAsRead(cfg, "llm_query_intent_model_name", st.queryIntentModel)
      && KeptAsRead(cfg, "llm_query_response_model_name", st.queryResponseModel)
      && KeptAsRead(cfg, "llm_embedding_model_name", st.embeddingModel)
      && KeptAsRead(cfg, "schema_file_path", st.schemaFilePath)
      && KeptAsRead(cfg, "prompts_file_path", st.promptsFilePath)
      && KeptAsRead(cfg, "faiss_index_path", st.faissIndexPath)
  {
    var cfg := file.GetOr(DummyAppConfig());
    var threshold := ToReal(Lookup(cfg, "vector_match_threshold", CReal(0.7)));
    var entityHop := ToInt(Lookup(cfg, "entity_info_hop_depth", CInt(1)));
    var relPath := ToInt(Lookup(cfg, "relationship_discovery_max_path_length", CInt(3)));
    var complexHop := ToInt(Lookup(cfg, "complex_query_hop_depth", CInt(2)));
    var dim := EmbeddingDimension(cfg);
    if threshold.None? || entityHop.None? || relPath.None? || complexHop.None? || dim.None? then None
    else Some(Settings(
      Lookup(cfg, "app_name", CStr("Graph RAG Application")),
      Lookup(cfg, "api_v1_str", CStr("/api/v1")),
      Lookup(cfg, "llm_ingestion_model_name", CStr("gpt-4o-mini")),
      Lookup(cfg, "llm_query_ner_model_name", CStr("gpt-4o-mini")),
      Lookup(cfg, "llm_query_intent_model_name", CStr("gpt-4o-mini")),
      Lookup(cfg, "llm_query_response_model_name", CStr("gpt-4o")),
      EmbeddingModel(cfg),
      Lookup(cfg, "schema_file_path", CStr("schema.yaml")),
      Lookup(cfg, "prompts_file_path", CStr("prompts.yaml")),
      Lookup(cfg, "faiss_index_path", CStr("data/vector_store/graph_entities.index")),
      dim.value, threshold.value, entityHop.value, relPath.value, complexHop.value))
  }

  /** Keys absent from the configuration take their defaults: threshold 0.7,
      entity hop depth 1, relationship path length 3, complex hop depth 2,
      and the small embedding model with dimension 1536. */
  lemma DefaultSettings(cfg: AppConfig)
    requires "vector_match_threshold" !in cfg && "entity_info_hop_depth" !in cfg
    requires "relationship_discovery_max_path_length" !in cfg && "complex_query_hop_depth" !in cfg
    requires "llm_embedding_model_name" !in cfg
    ensures LoadSettings(Some(cfg)).Some?
    ensures var st := LoadSettings(Some(cfg)).value;
      && st.embeddingModel == CStr("text-embedding-3-small") && st.embeddingDimension == 1536
      && st.vectorMatchThreshold == 0.7 && st.entityInfoHopDepth == 1
      && st.relationshipDiscoveryMaxPathLength == 3 && st.complexQueryHopDepth == 2
  {
  }

  /** An `entity_info_hop_depth` that `int` rejects makes loading fail,
      whatever else the file holds. */
  lemma NonNumericHopDepthFails(cfg: AppConfig, s: string)
    requires ParseInt(s).None?
    ensures LoadSettings(Some(cfg["entity_info_hop_depth" := CStr(s)])).None?
  {
  }

  /** With the other numeric keys and the model absent, a hop depth given
      as an integer, or as the string `str(i)`, is loaded as `i`. */
  lemma PresentHopDepthUsed(cfg: AppConfig, i: int)
    requires "vector_match_threshold" !in cfg
    requires "relationship_discovery_max_path_length" !in cfg && "complex_query_hop_depth" !in cfg
    requires "llm_embedding_model_name" !in cfg
    ensures LoadSettings(Some(cfg["entity_info_hop_depth" := CInt(i)])).Some?
    ensures LoadSettings(Some(cfg["entity_info_hop_depth" := CInt(i)])).value.entityInfoHopDepth == i
    ensures LoadSettings(Some(cfg["entity_info_hop_depth" := CStr(IntToString(i))])).Some?
    ensures LoadSettings(Some(cfg["entity_info_hop_depth" := CStr(IntToString(i))])).value.entityInfoHopDepth == i
  {
    ParseIntToString(i);
  }

  /** The numeric entries of the dummy content. */
  lemma DummyNumericEntries()
    ensures var cfg := DummyAppConfig();
      && Lookup(cfg, "vector_match_threshold", CReal(0.7)) == CReal(0.7)
      && Lookup(cfg, "entity_info_hop_depth", CInt(1)) == CInt(1)
      && Lookup(cfg, "relationship_discovery_max_path_length", CInt(3)) == CInt(3)
      && Lookup(cfg, "complex_query_hop_depth", CInt(2)) == CInt(2)
  {
  }

  /** The dummy content names the small embedding model, of dimension 1536. */
  lemma DummyEmbeddingEntries()
    ensures EmbeddingModel(DummyAppConfig()) == CStr("text-embedding-3-small")
    ensures EmbeddingDimension(DummyAppConfig()) == Some(1536)
  {
    assert EmbeddingModel(DummyAppConfig()) == CStr("text-embedding-3-small");
  }

  /** The language-model entries of the dummy content. */
  lemma DummyModelEntries()
    ensures var cfg := DummyAppConfig();
      && Lookup(cfg, "llm_ingestion_model_name", CStr("gpt-4o-mini")) == CStr("gpt-4o-mini")
      && Lookup(cfg, "llm_query_ner_model_name", CStr("gpt-4o-mini")) == CStr("gpt-4o-mini")
      && Lookup(cfg, "llm_query_intent_model_name", CStr("gpt-4o-mini")) == CStr("gpt-4o-mini")
      && Lookup(cfg, "llm_query_response_model_name", CStr("gpt-4o")) == CStr("gpt-4o")
  {
  }

  /** The name and path entries of the dummy content. */
  lemma DummyPathEntries()
    ensures var cfg := DummyAppConfig();
      && Lookup(cfg, "app_name", CStr("Graph RAG Application")) == CStr("Graph RAG Application")
      && Lookup(cfg, "api_v1_str", CStr("/api/v1")) == CStr("/api/v1")
      && Lookup(cfg, "schema_file_path", CStr("schema.yaml")) == CStr("schema.yaml")
      && Lookup(cfg, "prompts_file_path", CStr("prompts.yaml")) == CStr("prompts.yaml")
      && Lookup(cfg, "faiss_index_path", CStr("data/vector_store/graph_entities.index"))
         == CStr("data/vector_store/graph_entities.index")
  {
  }

  /** A missing configuration file yields the dummy content's values. */
  lemma MissingFileSettings()
    ensures LoadSettings(None) == Some(Settings(
      CStr("Graph RAG Application"), CStr("/api/v1"),
      CStr("gpt-4o-mini"), CStr("gpt-4o-mini"), CStr("gpt-4o-mini"), CStr("gpt-4o"),
      CStr("text-embedding-3-small"), CStr("schema.yaml"), CStr("prompts.yaml"),
      CStr("data/vector_store/graph_entities.index"), 1536, 0.7, 1, 3, 2))
  {
    DummyNumericEntries();
    DummyEmbeddingEntries();
    DummyModelEntries();
    DummyPathEntries();
  }

  /** For a known model the configured `embedding_dimension` is ignored. */
  lemma KnownModelIgnoresConfiguredDimension(cfg: AppConfig, d: ConfigValue)
    requires Lookup(cfg, "llm_embedding_model_name", CStr("text-embedding-3-small")) == CStr("text-embedding-3-large")
    ensures EmbeddingDimension(cfg["embedding_dimension" := d]) == Some(3072)
  {
  }

  // ---- prompts ----

  /** The parsed prompts file: each section may be missing. */
  datatype PromptsFile = PromptsFile(systemMessages: Option<map<string, string>>, userPrompts: Option<map<string, string>>)

  datatype PromptsConfig = PromptsConfig(systemMessages: map<string, string>, userPrompts: map<string, string>)

  function DummyPromptsFile(): PromptsFile {
    PromptsFile(
      Some(map["default" := "You are a helpful assistant."]),
      Some(map["default_task" := "Perform the default task with this input: {input}"]))
  }

  /** A missing section reads as an empty table. */
  function LoadPrompts(file: Option<PromptsFile>): (p: PromptsConfig)
    ensures file.Some? && file.value.systemMessages.None? ==> p.systemMessages == map[]
    ensures file.Some? && file.value.userPrompts.None? ==> p.userPrompts == map[]
    ensures file.Some? && file.value.systemMessages.Some? ==> p.systemMessages == file.value.systemMessages.value
    ensures file.Some? && file.value.userPrompts.Some? ==> p.userPrompts == file.value.userPrompts.value
    ensures file.None? ==> p == PromptsConfig(
      map["default" := "You are a helpful assistant."],
      map["default_task" := "Perform the default task with this input: {input}"])
  {
    var f := file.GetOr(DummyPromptsFile());
    PromptsConfig(f.systemMessages.GetOr(map[]), f.userPrompts.GetOr(map[]))
  }

  /** `get_system_message(key, default)`: the supplied default when the key is absent. */
  function GetSystemMessage(p: PromptsConfig, key: string, default: string): (r: string)
    ensures key !in p.systemMessages ==> r == default
    ensures key in p.systemMessages ==> r == p.systemMessages[key]
  {
    if key in p.systemMessages then p.systemMessages[key] else default
  }

  /** `get_user_prompt(key, default)`: the supplied default when the key is absent. */
  function GetUserPrompt(p: PromptsConfig, key: string, default: string): (r: string)
    ensures key !in p.userPrompts ==> r == default
    ensures key in p.userPrompts ==> r == p.userPrompts[key]
  {
    if key in p.userPrompts then p.userPrompts[key] else default
  }

  // ---- schema ----

  datatype SchemaFile = SchemaFile(
    entityTypes: Option<seq<string>>, relationshipTypes: Option<seq<string>>,
    allowDynamicEntityTypes: Option<bool>, allowDynamicRelationshipTypes: Option<bool>)

  datatype SchemaConfig = SchemaConfig(
    entityTypes: seq<string>, relationshipTypes: seq<string>,
    allowDynamicEntityTypes: bool, allowDynamicRelationshipTypes: bool)

  function DummySchemaFile(): SchemaFile {
    SchemaFile(Some(["PERSON", "ORGANIZATION"]), Some(["WORKS_FOR"]), Some(true), Some(true))
  }

  /** Missing keys give empty type lists and permissive dynamic-type flags. */
  function LoadSchema(file: Option<SchemaFile>): (c: SchemaConfig)
    ensures file.Some? && file.value.entityTypes.None? ==> c.entityTypes == []
    ensures file.Some? && file.value.relationshipTypes.None? ==> c.relationshipTypes == []
    ensures file.Some? && file.value.allowDynamicEntityTypes.None? ==> c.allowDynamicEntityTypes
    ensures file.Some? && file.value.allowDynamicRelationshipTypes.None? ==> c.allowDynamicRelationshipTypes
    ensures file.Some? && file.value.entityTypes.Some? ==> c.entityTypes == file.value.entityTypes.value
    ensures file.Some? && file.value.relationshipTypes.Some? ==> c.relationshipTypes == file.value.relationshipTypes.value
    ensures file.Some? && file.value.allowDynamicEntityTypes.Some? ==>
      c.allowDynamicEntityTypes == file.value.allowDynamicEntityTypes.value
    ensures file.Some? && file.value.allowDynamicRelationshipTypes.Some? ==>
      c.allowDynamicRelationshipTypes == file.value.allowDynamicRelationshipTypes.value
    ensures file.None? ==> c == SchemaConfig(["PERSON", "ORGANIZATION"], ["WORKS_FOR"], true, true)
  {
    var f := file.GetOr(DummySchemaFile());
    SchemaConfig(
      f.entityTypes.GetOr([]), f.relationshipTypes.GetOr([]),
      f.allowDynamicEntityTypes.GetOr(true), f.allowDynamicRelationshipTypes.GetOr(true))
  }
}
