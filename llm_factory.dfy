/**
 * Resolution of an LLM configuration dictionary to a provider. Instead of
 * constructing a client object, the resolution returns a descriptor of the
 * client that would be built. Whether the optional client packages are
 * installed, the process environment, and the message of an exception the
 * client constructor raises are inputs.
 */
module LlmFactory {
  import opened Wrappers
  import opened Json
  import Text

  datatype Provider = OpenAi | Groq | Ollama | Gemini

  /** The client that would be constructed (temperature is passed through and not modelled). */
  datatype Llm = Llm(provider: Provider, model: Json, apiKey: Option<Json>, baseUrl: Option<Json>, streaming: bool)

  /** How a Gemini construction failure is reported. */
  datatype GeminiFault = InvalidModel | InvalidKey | InitFailed

  datatype LlmError =
    | TypeNotText                                   // config["type"] has no lower(): AttributeError
    | MissingPackage(message: string)               // ImportError
    | MissingApiKey(message: string)                // ValueError
    | OllamaUnreachable(baseUrl: Json, detail: string)       // ValueError wrapping the constructor's error
    | GeminiRejected(fault: GeminiFault, model: Json, detail: string)  // ValueError, classified
    | ConstructorFailed(detail: string)             // the OpenAI-compatible constructor's own error

  /** What the process offers: environment variables and which optional client packages import. */
  datatype Host = Host(env: map<string, string>, ollamaInstalled: bool, geminiInstalled: bool)

  const DefaultModel := "gpt-4o"
  const DefaultOllamaUrl := "http://localhost:11434"
  const GroqBaseUrl := "https://api.groq.com/openai/v1"

  const OllamaMissing :=
    "ChatOllama is not available. Ensure 'langchain-ollama' is in requirements.txt and redeploy."
  const GeminiMissing :=
    "ChatGoogleGenerativeAI is not available. Ensure 'langchain-google-genai' is in requirements.txt and redeploy."
  const GroqKeyMissing := "Groq API key is required"
  const GeminiKeyMissing :=
    "Google API key is required for Gemini. Get one from https://aistudio.google.com/app/apikey"
  const OpenAiKeyMissing := "OpenAI API key is required"

  /** The configured "type" entry, or "openai" when there is none. */
  function TypeEntry(config: Record): Json {
    if "type" in config then config["type"] else Str("openai")
  }

  /** The configured "model" entry, or "gpt-4o" when there is none. */
  function ModelEntry(config: Record): Json {
    if "model" in config then config["model"] else Str(DefaultModel)
  }

  /** The provider a lower-cased type selects: anything unrecognised is OpenAI. */
  function ProviderFor(lowered: string): (p: Provider)
    ensures p == Ollama <==> lowered == "ollama"
    ensures p == Groq <==> lowered == "groq"
    ensures p == Gemini <==> lowered == "gemini"
  {
    if lowered == "ollama" then Ollama
    else if lowered == "groq" then Groq
    else if lowered == "gemini" then Gemini
    else OpenAi
  }

  /** The environment variable consulted for a provider's key when the configuration has none. */
  function KeyVariable(p: Provider): string {
    match p
    case Groq => "GROQ_API_KEY"
    case Gemini => "GOOGLE_API_KEY"
    case _ => "OPENAI_API_KEY"
  }

  function KeyMissing(p: Provider): string {
    match p
    case Groq => GroqKeyMissing
    case Gemini => GeminiKeyMissing
    case _ => OpenAiKeyMissing
  }

  /** The configured key when truthy, else the environment variable when non-empty, else None. */
  function ResolveKey(config: Record, env: map<string, string>, variable: string): (k: Option<Json>)
    ensures "api_key" in config && Truthy(config["api_key"]) ==> k == Some(config["api_key"])
    ensures !("api_key" in config && Truthy(config["api_key"])) ==>
      k == (if variable in env && env[variable] != "" then Some(Str(env[variable])) else None)
    ensures k.Some? ==> Truthy(k.value)
  {
    if "api_key" in config && Truthy(config["api_key"]) then Some(config["api_key"])
    else if variable in env && env[variable] != "" then Some(Str(env[variable]))
    else None
  }

  /**
   * How a Gemini constructor error is reported, tested in order: an
   * invalid argument or any mention of "model" (in any case) first, then
   * an API key or authentication problem, then a generic failure.
   */
  function ClassifyGeminiError(message: string): (f: GeminiFault)
    ensures Text.Contains(Text.Lower(message), "model") ==> f == InvalidModel
    ensures f == InvalidModel <==>
      Text.Contains(message, "INVALID_ARGUMENT") || Text.Contains(Text.Lower(message), "model")
    ensures f == InvalidKey <==>
      f != InvalidModel && (Text.Contains(message, "API_KEY") || Text.Contains(Text.Lower(message), "authentication"))
  {
    if Text.Contains(message, "INVALID_ARGUMENT") || Text.Contains(Text.Lower(message), "model") then InvalidModel
    else if Text.Contains(message, "API_KEY") || Text.Contains(Text.Lower(message), "authentication") then InvalidKey
    else InitFailed
  }

  /** The optional package a provider's client comes from is importable (OpenAI and Groq always are). */
  predicate PackagePresent(p: Provider, host: Host) {
    match p
    case Ollama => host.ollamaInstalled
    case Gemini => host.geminiInstalled
    case _ => true
  }

  /** The ollama base url: the configured one, or the local default. */
  function OllamaUrl(config: Record): Json {
    if "base_url" in config then config["base_url"] else Str(DefaultOllamaUrl)
  }

  /**
   * Everything the constructor call needs is there: a textual type, the
   * provider's package, and a key for every provider but Ollama.
   */
  predicate Ready(config: Record, host: Host) {
    && TypeEntry(config).Str?
    && var p := ProviderFor(Text.Lower(TypeEntry(config).s));
    && PackagePresent(p, host)
    && (p != Ollama ==> ResolveKey(config, host.env, KeyVariable(p)).Some?)
  }

  /**
   * `create_llm_from_config`: the client descriptor for a configuration, or
   * the error raised. `constructorError` is the message of the exception
   * the client constructor raises, if it raises one.
   */
  function CreateLlmFromConfig(config: Record, streaming: bool, host: Host, constructorError: Option<string>)
    : (r: Result<Llm, LlmError>)
    // The type must be text; it is lower-cased and selects the provider, defaulting to OpenAI.
    ensures !TypeEntry(config).Str? <==> r == Failure(TypeNotText)
    ensures r.Success? ==> r.value.provider == ProviderFor(Text.Lower(TypeEntry(config).s))
    ensures r.Success? ==> r.value.model == ModelEntry(config) && r.value.streaming == streaming
    // A missing optional package is reported before anything else is looked at.
    ensures TypeEntry(config).Str? && ProviderFor(Text.Lower(TypeEntry(config).s)) == Ollama && !host.ollamaInstalled
      ==> r == Failure(MissingPackage(OllamaMissing))
    ensures TypeEntry(config).Str? && ProviderFor(Text.Lower(TypeEntry(config).s)) == Gemini && !host.geminiInstalled
      ==> r == Failure(MissingPackage(GeminiMissing))
    // Ollama needs no key and takes base_url from the configuration.
    ensures r.Success? && r.value.provider == Ollama ==>
      r.value.apiKey == None
      && r.value.baseUrl == Some(OllamaUrl(config))
    // The other providers take the configured key before the environment's, and fail without one.
    ensures r.Success? && r.value.provider == Groq ==>
      r.value.apiKey == ResolveKey(config, host.env, "GROQ_API_KEY") && r.value.baseUrl == Some(Str(GroqBaseUrl))
    ensures r.Success? && r.value.provider == Gemini ==>
      r.value.apiKey == ResolveKey(config, host.env, "GOOGLE_API_KEY") && r.value.baseUrl == None
    ensures r.Success? && r.value.provider == OpenAi ==>
      r.value.apiKey == ResolveKey(config, host.env, "OPENAI_API_KEY")
      && (r.value.baseUrl.Some? <==> Truthy(GetOrNull(config, "api_base")))
      && (r.value.baseUrl.Some? ==> r.value.baseUrl.value == config["api_base"])
    ensures r.Success? && r.value.provider != Ollama ==> r.value.apiKey.Some?
    ensures TypeEntry(config).Str? && ProviderFor(Text.Lower(TypeEntry(config).s)) in {Groq, OpenAi}
      && ResolveKey(config, host.env, KeyVariable(ProviderFor(Text.Lower(TypeEntry(config).s)))).None?
      ==> r == Failure(MissingApiKey(KeyMissing(ProviderFor(Text.Lower(TypeEntry(config).s)))))
    ensures TypeEntry(config).Str? && ProviderFor(Text.Lower(TypeEntry(config).s)) == Gemini && host.geminiInstalled
      && ResolveKey(config, host.env, KeyVariable(Gemini)).None?
      ==> r == Failure(MissingApiKey(GeminiKeyMissing))
    // Only a constructor error can stop a configuration that has everything it needs.
    ensures constructorError.None? && r.Failure? ==>
      r.error.TypeNotText? || r.error.MissingPackage? || r.error.MissingApiKey?
    ensures r.Success? ==> constructorError.None?
    // Only Ollama and Gemini need an optional package, and only its absence reports one missing.
    ensures r.Failure? && r.error.MissingPackage? ==>
      TypeEntry(config).Str? && ProviderFor(Text.Lower(TypeEntry(config).s)) in {Ollama, Gemini}
      && !PackagePresent(ProviderFor(Text.Lower(TypeEntry(config).s)), host)
    // With everything in place, the constructor alone decides.
    ensures Ready(config, host) && constructorError.None? ==> r.Success?
    ensures Ready(config, host) && constructorError.Some? ==>
      var msg := constructorError.value;
      match ProviderFor(Text.Lower(TypeEntry(config).s))
      case Ollama => r == Failure(OllamaUnreachable(OllamaUrl(config), msg))
      case Gemini => r == Failure(GeminiRejected(ClassifyGeminiError(msg), ModelEntry(config), msg))
      case _ => r == Failure(ConstructorFailed(msg))
  {
    var typeEntry := TypeEntry(config);
    if !typeEntry.Str? then Failure(TypeNotText)
    else
      var llmType := Text.Lower(typeEntry.s);
      var model := ModelEntry(config);
      if llmType == "ollama" then
        if !host.ollamaInstalled then Failure(MissingPackage(OllamaMissing))
        else
          var baseUrl := OllamaUrl(config);
          if constructorError.Some? then Failure(OllamaUnreachable(baseUrl, constructorError.value))
          else Success(Llm(Ollama, model, None, Some(baseUrl), streaming))
      else if llmType == "groq" then
        var apiKey := ResolveKey(config, host.env, "GROQ_API_KEY");
        if apiKey.None? then Failure(MissingApiKey(GroqKeyMissing))
        else if constructorError.Some? then Failure(ConstructorFailed(constructorError.value))
        else Success(Llm(Groq, model, apiKey, Some(Str(GroqBaseUrl)), streaming))
      else if llmType == "gemini" then
        if !host.geminiInstalled then Failure(MissingPackage(GeminiMissing))
        else
          var apiKey := ResolveKey(config, host.env, "GOOGLE_API_KEY");
          if apiKey.None? then Failure(MissingApiKey(GeminiKeyMissing))
          else if constructorError.Some? then
            Failure(GeminiRejected(ClassifyGeminiError(constructorError.value), model, constructorError.value))
          else Success(Llm(Gemini, model, apiKey, None, streaming))
      else
        var apiKey := ResolveKey(config, host.env, "OPENAI_API_KEY");
        if apiKey.None? then Failure(MissingApiKey(OpenAiKeyMissing))
        else
          var apiBase := GetOrNull(config, "api_base");
          if constructorError.Some? then Failure(ConstructorFailed(constructorError.value))
          else Success(Llm(OpenAi, model, apiKey, if Truthy(apiBase) then Some(apiBase) else None, streaming))
  }
}
