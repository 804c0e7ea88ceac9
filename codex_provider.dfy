/** The Codex provider value and its builder (`providers/codex/mod.rs`,
    `providers/codex/settings.rs`). The builder's setters consume and return
    the builder, so they are functions from builder to builder. */
module CodexProvider {
  import opened Common
  import opened Strings

  /** `CodexProviderSettings`. */
  datatype Settings = Settings(
    providerName: string,
    baseUrl: string,
    apiKey: string,
    path: Option<string>,
    instructions: string)

  const DefaultProviderName := "codex"
  const DefaultBaseUrl := "https://chatgpt.com/backend-api/codex"
  const DefaultPath := "/responses"

  /** `CodexProviderSettings::default()`. `envKey` is the value of
      `CODEX_API_KEY`, or else of `OPENAI_API_KEY`, when either is set. */
  function DefaultSettings(envKey: Option<string>): (s: Settings)
    ensures s.providerName == DefaultProviderName && s.baseUrl == DefaultBaseUrl
    ensures s.path == Some(DefaultPath) && s.instructions == ""
    ensures envKey.None? ==> s.apiKey == ""
    ensures envKey.Some? ==> s.apiKey == Trim(envKey.value)
    ensures s.apiKey == [] || (!IsWhitespace(s.apiKey[0]) && !IsWhitespace(s.apiKey[|s.apiKey| - 1]))
  {
    Settings(DefaultProviderName, DefaultBaseUrl,
             if envKey.Some? then Trim(envKey.value) else "",
             Some(DefaultPath), "")
  }

  /** `OpenAILanguageModelOptions`: the model, the stream flag, and the
      remaining request fields (input, tools, sampling settings), which the
      core only passes along. */
  datatype LmOptions = LmOptions(model: string, stream: Option<bool>, rest: map<string, Json>)

  /** `OpenAILanguageModelOptions::builder().model(m).build()`: every other
      field at its default. */
  function OptionsFor(model: string): (o: LmOptions)
    ensures o.model == model && o.stream.None? && o.rest == map[]
  {
    LmOptions(model, None, map[])
  }

  /** `Codex<M>`. */
  datatype Codex = Codex(settings: Settings, lmOptions: LmOptions)

  /** `Codex::default()` for the model type whose name is `modelName`, and
      equally `Codex::model_name(modelName)` for a dynamic model. */
  function DefaultCodex(modelName: string, envKey: Option<string>): (c: Codex)
    ensures c.settings == DefaultSettings(envKey)
    ensures c.lmOptions.model == modelName && c.lmOptions.stream.None?
  {
    Codex(DefaultSettings(envKey), OptionsFor(modelName))
  }

  /** `CodexBuilder<M>`. */
  datatype Builder = Builder(settings: Settings, options: LmOptions)

  /** `CodexBuilder::default()`: default settings and the model type's name. */
  function DefaultBuilder(modelName: string, envKey: Option<string>): (b: Builder)
    ensures b.settings == DefaultSettings(envKey) && b.options == OptionsFor(modelName)
  {
    Builder(DefaultSettings(envKey), OptionsFor(modelName))
  }

  /** `CodexBuilder::model_name`: replaces the builder's model. */
  function WithModelName(b: Builder, name: string): (r: Builder)
    ensures r.options.model == name && r.settings == b.settings
    ensures r.options.stream == b.options.stream && r.options.rest == b.options.rest
  {
    b.(options := b.options.(model := name))
  }

  function WithBaseUrl(b: Builder, url: string): (r: Builder)
    ensures r.settings.baseUrl == url && r.options == b.options
    ensures r.settings == b.settings.(baseUrl := url)
  {
    b.(settings := b.settings.(baseUrl := url))
  }

  /** `CodexBuilder::api_key`: the key is stored trimmed. */
  function WithApiKey(b: Builder, key: string): (r: Builder)
    ensures r.options == b.options && r.settings == b.settings.(apiKey := r.settings.apiKey)
    ensures r.settings.apiKey == [] <==> IsBlank(key)
    ensures r.settings.apiKey == Trim(r.settings.apiKey)
    ensures r == b.(settings := b.settings.(apiKey := Trim(key)))
  {
    TrimEmptyIffBlank(key);
    TrimIdempotent(key);
    b.(settings := b.settings.(apiKey := Trim(key)))
  }

  function WithProviderName(b: Builder, name: string): (r: Builder)
    ensures r.settings.providerName == name && r.options == b.options
    ensures r.settings == b.settings.(providerName := name)
  {
    b.(settings := b.settings.(providerName := name))
  }

  /** `CodexBuilder::path`: overrides the default path. */
  function WithPath(b: Builder, path: string): (r: Builder)
    ensures r.settings.path == Some(path) && r.options == b.options
    ensures r.settings == b.settings.(path := Some(path))
  {
    b.(settings := b.settings.(path := Some(path)))
  }

  function WithInstructions(b: Builder, instructions: string): (r: Builder)
    ensures r.settings.instructions == instructions && r.options == b.options
    ensures r.settings == b.settings.(instructions := instructions)
  {
    b.(settings := b.settings.(instructions := instructions))
  }

  /** `CodexBuilder::build` as written: the base URL is validated first, then
      a key that is blank after trimming is refused; the provider's model is
      `modelName`, the model type's own name, whatever the builder holds.
      `validateBaseUrl` is the crate's URL check, which is not part of this
      model. */
  function BuildAsWritten(b: Builder, modelName: string, validateBaseUrl: string -> Result<string>): (r: Result<Codex>)
    ensures validateBaseUrl(b.settings.baseUrl).Err? ==> r == Err(validateBaseUrl(b.settings.baseUrl).error)
    ensures (validateBaseUrl(b.settings.baseUrl).Ok? && IsBlank(b.settings.apiKey))
            ==> r == Err(MissingField("api_key"))
    ensures r.Ok? <==> validateBaseUrl(b.settings.baseUrl).Ok? && !IsBlank(b.settings.apiKey)
    ensures r.Ok? ==> r.value.lmOptions == OptionsFor(modelName)
    ensures r.Ok? ==> (r.value.settings.baseUrl == validateBaseUrl(b.settings.baseUrl).value
                       && r.value.settings.apiKey == Trim(b.settings.apiKey)
                       && r.value.settings.apiKey != []
                       && r.value.settings.providerName == b.settings.providerName
                       && r.value.settings.path == b.settings.path
                       && r.value.settings.instructions == b.settings.instructions)
  {
    match validateBaseUrl(b.settings.baseUrl)
    case Err(e) => Err(e)
    case Ok(baseUrl) =>
      var apiKey := Trim(b.settings.apiKey);
      TrimEmptyIffBlank(b.settings.apiKey);
      if apiKey == [] then Err(MissingField("api_key"))
      else Ok(Codex(b.settings.(baseUrl := baseUrl, apiKey := apiKey), OptionsFor(modelName)))
  }

  /** The model name the builder was given is lost by `build`: a dynamic-model
      builder told to use `name` yields a provider for the type's own name. */
  lemma BuildDropsModelName(b: Builder, typeModelName: string, name: string,
                            validateBaseUrl: string -> Result<string>)
    requires name != typeModelName
    requires BuildAsWritten(WithModelName(b, name), typeModelName, validateBaseUrl).Ok?
    ensures BuildAsWritten(WithModelName(b, name), typeModelName, validateBaseUrl).value.lmOptions.model != name
  {
  }

  /** `build` as evidently intended: like `BuildAsWritten`, but the provider
      keeps the builder's model options. */
  function Build(b: Builder, validateBaseUrl: string -> Result<string>): (r: Result<Codex>)
    ensures r.Ok? <==> validateBaseUrl(b.settings.baseUrl).Ok? && !IsBlank(b.settings.apiKey)
    ensures validateBaseUrl(b.settings.baseUrl).Err? ==> r == Err(validateBaseUrl(b.settings.baseUrl).error)
    ensures r.Err? && validateBaseUrl(b.settings.baseUrl).Ok? ==> r.error == MissingField("api_key")
    ensures r.Ok? ==> r.value.lmOptions == b.options
    ensures r.Ok? ==> r.value.settings == BuildAsWritten(b, b.options.model, validateBaseUrl).value.settings
  {
    match BuildAsWritten(b, b.options.model, validateBaseUrl)
    case Err(e) => Err(e)
    case Ok(c) => Ok(c.(lmOptions := b.options))
  }

  /** With the intended `build`, the model name set on the builder is the
      model of the built provider. */
  lemma BuildKeepsModelName(b: Builder, name: string, validateBaseUrl: string -> Result<string>)
    requires Build(WithModelName(b, name), validateBaseUrl).Ok?
    ensures Build(WithModelName(b, name), validateBaseUrl).value.lmOptions.model == name
  {
  }

  /** A key set through the builder decides `build`'s key check alone: the
      build fails on the key exactly when the key given was blank, and
      otherwise stores the key unchanged from the setter. */
  lemma ApiKeyDecidesBuild(b: Builder, key: string, validateBaseUrl: string -> Result<string>)
    requires validateBaseUrl(b.settings.baseUrl).Ok?
    ensures Build(WithApiKey(b, key), validateBaseUrl).Err? <==> IsBlank(key)
    ensures IsBlank(key) ==> Build(WithApiKey(b, key), validateBaseUrl) == Err(MissingField("api_key"))
    ensures !IsBlank(key) ==> Build(WithApiKey(b, key), validateBaseUrl).value.settings.apiKey == Trim(key)
  {
    TrimEmptyIffBlank(key);
    TrimEmptyIffBlank(Trim(key));
    TrimIdempotent(key);
  }

  /** `Codex::path`: the configured path, or "/responses". */
  function RequestPath(c: Codex): (path: string)
    ensures c.settings.path.Some? ==> path == c.settings.path.value
    ensures c.settings.path.None? ==> path == DefaultPath
  {
    c.settings.path.GetOr(DefaultPath)
  }

  /** `Codex::headers` as name/value pairs. */
  function Headers(c: Codex): (h: seq<(string, string)>)
    ensures |h| == 3 && h[0] == ("content-type", "application/json")
    ensures h[1] == ("accept", "text/event-stream")
    ensures h[2].0 == "Authorization" && h[2].1 == "Bearer " + Trim(c.settings.apiKey)
  {
    [("content-type", "application/json"), ("accept", "text/event-stream"),
     ("Authorization", "Bearer " + Trim(c.settings.apiKey))]
  }

  /** A built provider sends its stored key unchanged as the bearer token. */
  lemma BuiltProviderBearer(b: Builder, validateBaseUrl: string -> Result<string>)
    requires Build(b, validateBaseUrl).Ok?
    ensures Headers(Build(b, validateBaseUrl).value)[2].1
            == "Bearer " + Build(b, validateBaseUrl).value.settings.apiKey
  {
    TrimIdempotent(b.settings.apiKey);
  }
}
