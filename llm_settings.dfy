/**
 * The backend's LLM configuration endpoints: validation of a submitted
 * configuration into the dictionary that is saved, and the view returned
 * by GET, which never exposes a non-empty API key.
 */
module LlmSettings {
  import opened Wrappers
  import opened Json
  import opened Http
  import Text
  import LlmFactory

  /** The body of a POST on the LLM configuration endpoint. */
  datatype LlmConfigRequest = LlmConfigRequest(
    llmType: string,
    model: string,
    apiKey: Option<string>,
    baseUrl: Option<string>,
    apiBase: Option<string>)

  /** The GET response: the configuration without a non-empty key, and whether one is stored. */
  datatype LlmConfigView = LlmConfigView(config: Record, hasApiKey: bool)

  const DefaultOllamaUrl := "http://localhost:11434"

  /** The provider a submitted type selects; types other than the three named ones select OpenAI. */
  function StoredType(llmType: string): (t: string)
    ensures t in {"ollama", "gemini", "groq", "openai"}
    ensures Text.Lower(llmType) in {"ollama", "gemini", "groq"} ==> t == Text.Lower(llmType)
    ensures Text.Lower(llmType) !in {"ollama", "gemini", "groq"} ==> t == "openai"
  {
    var lowered := Text.Lower(llmType);
    if lowered in {"ollama", "gemini", "groq"} then lowered else "openai"
  }

  /** The provider's name as it appears in error details. */
  function DisplayName(t: string): string {
    if t == "ollama" then "Ollama"
    else if t == "gemini" then "Gemini"
    else if t == "groq" then "Groq"
    else "OpenAI"
  }

  /** The model-name check comes first, then the key check for every provider but Ollama. */
  function ValidationError(req: LlmConfigRequest): Option<HttpError> {
    var t := StoredType(req.llmType);
    if req.model == "" then Some(HttpError(BadRequest, "Model name is required for " + DisplayName(t)))
    else if t != "ollama" && !Given(req.apiKey) then Some(HttpError(BadRequest, "API key is required for " + DisplayName(t)))
    else None
  }

  /**
   * The configuration dictionary saved for a request, or the 400 error the
   * request is rejected with.
   */
  function SetLlmConfig(req: LlmConfigRequest): (r: Result<Record, HttpError>)
    ensures r.Failure? <==> req.model == "" || (StoredType(req.llmType) != "ollama" && !Given(req.apiKey))
    ensures r.Failure? ==> Some(r.error) == ValidationError(req) && r.error.status == BadRequest
    ensures r.Success? ==>
      {"type", "model", "active"} <= r.value.Keys <= {"type", "model", "api_key", "base_url", "api_base", "active"}
    ensures r.Success? ==>
      && r.value["type"] == Str(StoredType(req.llmType))
      && r.value["model"] == Str(Text.Strip(req.model))
      && r.value["active"] == Bool(true)
    ensures r.Success? ==>
      ("api_key" in r.value <==> StoredType(req.llmType) != "ollama")
      && ("api_key" in r.value ==> r.value["api_key"] == Str(req.apiKey.value) && req.apiKey.value != "")
    ensures r.Success? ==>
      ("base_url" in r.value <==> StoredType(req.llmType) == "ollama")
      && ("base_url" in r.value ==>
            r.value["base_url"] == Str(if Given(req.baseUrl) then req.baseUrl.value else DefaultOllamaUrl))
    ensures r.Success? ==>
      ("api_base" in r.value <==> StoredType(req.llmType) == "openai" && Given(req.apiBase))
      && ("api_base" in r.value ==> r.value["api_base"] == Str(req.apiBase.value))
  {
    var t := StoredType(req.llmType);
    var e := ValidationError(req);
    if e.Some? then Failure(e.value)
    else
      SavedConfigShape(t, req);
      Success(SavedConfig(t, req))
  }

  /**
   * The dictionary saved for provider `t`: the provider's own entries, with
   * the model name trimmed (the model is non-empty once validated, so the
   * trimming step always applies).
   */
  function SavedConfig(t: string, req: LlmConfigRequest): Record
    requires t in {"ollama", "gemini", "groq", "openai"}
  {
    var configDict :=
      if t == "ollama" then OllamaConfig(req)
      else if t == "openai" then OpenAiConfig(req)
      else KeyedConfig(t, req);
    configDict["model" := Str(Text.Strip(req.model))]
  }

  /** Which entries a saved dictionary for provider `t` and model entry `model` has, and their values. */
  predicate SavedShape(d: Record, t: string, model: Json, req: LlmConfigRequest) {
    && {"type", "model", "active"} <= d.Keys <= {"type", "model", "api_key", "base_url", "api_base", "active"}
    && d["type"] == Str(t) && d["model"] == model && d["active"] == Bool(true)
    && ("api_key" in d <==> t != "ollama")
    && ("api_key" in d ==> d["api_key"] == Str(GivenText(req.apiKey)))
    && ("base_url" in d <==> t == "ollama")
    && ("base_url" in d ==> d["base_url"] == Str(if Given(req.baseUrl) then req.baseUrl.value else DefaultOllamaUrl))
    && ("api_base" in d <==> t == "openai" && Given(req.apiBase))
    && ("api_base" in d ==> d["api_base"] == Str(req.apiBase.value))
  }

  lemma SavedConfigShape(t: string, req: LlmConfigRequest)
    requires t in {"ollama", "gemini", "groq", "openai"}
    ensures SavedShape(SavedConfig(t, req), t, Str(Text.Strip(req.model)), req)
  {
    var model := Str(Text.Strip(req.model));
    if t == "ollama" {
      OllamaShape(req, model);
    } else if t == "openai" {
      OpenAiShape(req, model);
    } else {
      KeyedShape(t, req, model);
    }
  }

  lemma OllamaShape(req: LlmConfigRequest, model: Json)
    ensures SavedShape(OllamaConfig(req)["model" := model], "ollama", model, req)
  {
    var d := OllamaConfig(req)["model" := model];
    KeySetBounds(d.Keys, {"base_url"});
  }

  lemma OpenAiShape(req: LlmConfigRequest, model: Json)
    ensures SavedShape(OpenAiConfig(req)["model" := model], "openai", model, req)
  {
    var d := OpenAiConfig(req)["model" := model];
    KeySetBounds(d.Keys, {"api_key"} + (if Given(req.apiBase) then {"api_base"} else {}));
  }

  lemma KeyedShape(t: string, req: LlmConfigRequest, model: Json)
    requires t in {"gemini", "groq"}
    ensures SavedShape(KeyedConfig(t, req)["model" := model], t, model, req)
  {
    var d := KeyedConfig(t, req)["model" := model];
    KeySetBounds(d.Keys, {"api_key"});
  }

  /** A saved dictionary has the three common entries and some of the provider-specific ones. */
  lemma KeySetBounds(keys: set<string>, specific: set<string>)
    requires keys == {"type", "model", "active"} + specific
    requires specific <= {"api_key", "base_url", "api_base"}
    ensures {"type", "model", "active"} <= keys <= {"type", "model", "api_key", "base_url", "api_base", "active"}
    ensures forall k :: k in {"api_key", "base_url", "api_base"} ==> (k in keys <==> k in specific)
  {
  }

  function OllamaConfig(req: LlmConfigRequest): (d: Record)
    ensures d.Keys == {"type", "model", "base_url", "active"}
    ensures d["type"] == Str("ollama") && d["active"] == Bool(true)
    ensures d["base_url"] == Str(if Given(req.baseUrl) then req.baseUrl.value else DefaultOllamaUrl)
  {
    map["type" := Str("ollama"), "model" := Str(req.model),
        "base_url" := Str(if Given(req.baseUrl) then req.baseUrl.value else DefaultOllamaUrl),
        "active" := Bool(true)]
  }

  /** The Gemini and Groq dictionaries, which differ only in their type. */
  function KeyedConfig(t: string, req: LlmConfigRequest): (d: Record)
    ensures d.Keys == {"type", "model", "api_key", "active"}
    ensures d["type"] == Str(t) && d["active"] == Bool(true) && d["api_key"] == Str(GivenText(req.apiKey))
  {
    map["type" := Str(t), "model" := Str(req.model), "api_key" := Str(GivenText(req.apiKey)), "active" := Bool(true)]
  }

  function OpenAiConfig(req: LlmConfigRequest): (d: Record)
    ensures d.Keys == {"type", "model", "api_key", "active"} + (if Given(req.apiBase) then {"api_base"} else {})
    ensures d["type"] == Str("openai") && d["active"] == Bool(true) && d["api_key"] == Str(GivenText(req.apiKey))
    ensures "api_base" in d ==> d["api_base"] == Str(req.apiBase.value)
  {
    var d := KeyedConfig("openai", req);
    if Given(req.apiBase) then d["api_base" := Str(req.apiBase.value)] else d
  }

  function GivenText(o: Option<string>): string {
    if o.Some? then o.value else ""
  }

  /**
   * GET on the LLM configuration: the "api_key" entry survives only when it
   * is falsy; `hasApiKey` says whether a truthy key is stored.
   */
  function GetLlmConfig(config: Record): (v: LlmConfigView)
    ensures v.hasApiKey == Truthy(GetOrNull(config, "api_key"))
    ensures "api_key" in v.config <==> "api_key" in config && !Truthy(config["api_key"])
    ensures "api_key" in v.config ==> !Truthy(v.config["api_key"])
    ensures forall k :: k in config && k != "api_key" ==> k in v.config && v.config[k] == config[k]
    ensures v.config.Keys <= config.Keys
  {
    var safe := map k | k in config && (k != "api_key" || !Truthy(config[k])) :: config[k];
    LlmConfigView(safe, Truthy(GetOrNull(config, "api_key")))
  }

  /**
   * A saved configuration always carries what its provider needs: resolving
   * it never fails for a missing key, and when the client packages are
   * present and the constructor does not raise, it resolves to the provider
   * that was submitted with the trimmed model name.
   */
  lemma SavedConfigResolves(req: LlmConfigRequest, streaming: bool, host: LlmFactory.Host)
    ensures SetLlmConfig(req).Success? ==>
            var r := LlmFactory.CreateLlmFromConfig(SetLlmConfig(req).value, streaming, host, None);
            && (r.Failure? ==> r.error.MissingPackage?)
            && (r.Success? ==> r.value.model == Str(Text.Strip(req.model)))
            && (r.Success? ==> r.value.provider == LlmFactory.ProviderFor(StoredType(req.llmType)))
  {
    if SetLlmConfig(req).Success? {
      var saved := SetLlmConfig(req).value;
      var t := StoredType(req.llmType);
      LowerOfLowercase(t);
      assert LlmFactory.TypeEntry(saved) == Str(t);
      assert LlmFactory.ModelEntry(saved) == Str(Text.Strip(req.model));
      if t != "ollama" {
        assert Truthy(saved["api_key"]);
        assert LlmFactory.ResolveKey(saved, host.env, LlmFactory.KeyVariable(LlmFactory.ProviderFor(t))).Some?;
      }
    }
  }

  /** The four stored type names are already lower-case. */
  lemma LowerOfLowercase(t: string)
    requires t in {"ollama", "gemini", "groq", "openai"}
    ensures Text.Lower(t) == t
  {
    assert forall i :: 0 <= i < |t| ==> 'a' <= t[i] <= 'z';
  }
}
