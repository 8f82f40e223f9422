/**
 * Choosing and validating a content generator (packages/core/dist/src/core/contentGenerator.js):
 * the auth type and the environment decide the API key, the Vertex AI flag and the model of
 * the configuration, and the factory rejects combinations it cannot serve. The configured
 * model, DEFAULT_GEMINI_MODEL and the pass-through settings are parameters.
 */
module ContentGenerator {
  import opened Wrappers
  import opened Text

  /** The AuthType enumeration; `Other` is any other string a caller passes. */
  datatype AuthType =
    | LoginWithGoogle | UseGemini | UseVertexAi | CloudShell | UseOpenAI | QwenOAuth
    | Other(value: string)

  /** The string value of an auth type, `undefined` when absent. */
  function AuthTypeText(a: Option<AuthType>): string {
    match a
    case None => "undefined"
    case Some(LoginWithGoogle) => "oauth-personal"
    case Some(UseGemini) => "gemini-api-key"
    case Some(UseVertexAi) => "vertex-ai"
    case Some(CloudShell) => "cloud-shell"
    case Some(UseOpenAI) => "openai"
    case Some(QwenOAuth) => "qwen-oauth"
    case Some(Other(v)) => v
  }

  /** The string values of the six AuthType members. */
  const KNOWN_AUTH_TEXTS: set<string> :=
    {"oauth-personal", "gemini-api-key", "vertex-ai", "cloud-shell", "openai", "qwen-oauth"}

  /** The auth type a string value stands for: `Other` only for a string outside the enumeration. */
  function ParseAuthType(s: string): (a: AuthType)
    ensures AuthTypeText(Some(a)) == s
    ensures a.Other? <==> s !in KNOWN_AUTH_TEXTS
  {
    if s == "oauth-personal" then LoginWithGoogle
    else if s == "gemini-api-key" then UseGemini
    else if s == "vertex-ai" then UseVertexAi
    else if s == "cloud-shell" then CloudShell
    else if s == "openai" then UseOpenAI
    else if s == "qwen-oauth" then QwenOAuth
    else Other(s)
  }

  /** The environment variables the configuration reads. */
  datatype Env = Env(
    geminiApiKey: Option<string>,         // GEMINI_API_KEY
    googleApiKey: Option<string>,         // GOOGLE_API_KEY
    googleCloudProject: Option<string>,   // GOOGLE_CLOUD_PROJECT
    googleCloudLocation: Option<string>,  // GOOGLE_CLOUD_LOCATION
    openaiApiKey: Option<string>,         // OPENAI_API_KEY
    openaiModel: Option<string>           // OPENAI_MODEL
  )

  /** Settings copied from the CLI configuration without inspection. */
  datatype Settings = Settings(
    proxy: Option<string>, enableOpenAILogging: bool, timeout: Option<int>,
    maxRetries: Option<int>, samplingParams: Option<string>)

  datatype GeneratorConfig = GeneratorConfig(
    model: string, authType: Option<AuthType>, settings: Settings,
    apiKey: Option<string>, vertexai: Option<bool>)

  /** The generator the factory builds. */
  datatype Generator =
    | CodeAssist(authType: AuthType)
    | GoogleGenAI(apiKey: Option<string>, vertexai: Option<bool>)
    | OpenAIGenerator(openaiKey: string, model: string)
    | QwenGenerator(model: string)

  const QWEN_OAUTH_MARKER: string := "QWEN_OAUTH_DYNAMIC_TOKEN"

  /** The errors the factory throws. */
  datatype FactoryError =
    | OpenAIKeyMissing
    | InvalidQwenConfiguration
    | QwenInitFailed(cause: string)
    | Unsupported(authType: string)
  {
    /** The thrown error's message. */
    function Message(): string {
      match this
      case OpenAIKeyMissing => "OpenAI API key is required"
      case InvalidQwenConfiguration => "Invalid Qwen OAuth configuration"
      case QwenInitFailed(cause) => "Failed to initialize Qwen: " + cause
      case Unsupported(a) => "Error creating contentGenerator: Unsupported authType: " + a
    }
  }

  /** `value || undefined`. */
  function OrUndefined(v: Option<string>): (r: Option<string>)
    ensures r.Some? <==> Truthy(v)
    ensures r.Some? ==> r == v
  {
    if Truthy(v) then v else None
  }

  /** `value || fallback`. */
  function OrElse(v: Option<string>, fallback: string): (r: string)
    ensures Truthy(v) ==> r == v.value
    ensures !Truthy(v) ==> r == fallback
  {
    if Truthy(v) then v.value else fallback
  }

  /** The configuration `createContentGeneratorConfig` returns, as a table over the auth type. */
  function ConfigFor(configuredModel: Option<string>, defaultModel: string, settings: Settings,
                     env: Env, authType: Option<AuthType>): GeneratorConfig
  {
    var base := GeneratorConfig(OrElse(configuredModel, defaultModel), authType, settings, None, None);
    match authType
    case Some(UseGemini) =>
      if Truthy(env.geminiApiKey) then base.(apiKey := env.geminiApiKey, vertexai := Some(false)) else base
    case Some(UseVertexAi) =>
      if Truthy(env.googleApiKey) || (Truthy(env.googleCloudProject) && Truthy(env.googleCloudLocation))
      then base.(apiKey := OrUndefined(env.googleApiKey), vertexai := Some(true))
      else base
    case Some(UseOpenAI) =>
      if Truthy(env.openaiApiKey) then base.(apiKey := env.openaiApiKey, model := OrElse(env.openaiModel, defaultModel))
      else base
    case Some(QwenOAuth) => base.(apiKey := Some(QWEN_OAUTH_MARKER))
    case _ => base
  }

  /** createContentGeneratorConfig: builds the base configuration and fills it in per branch. */
  method CreateContentGeneratorConfig(configuredModel: Option<string>, defaultModel: string, settings: Settings,
                                      env: Env, authType: Option<AuthType>)
    returns (config: GeneratorConfig)
    ensures config == ConfigFor(configuredModel, defaultModel, settings, env, authType)
  {
    var geminiApiKey := OrUndefined(env.geminiApiKey);
    var googleApiKey := OrUndefined(env.googleApiKey);
    var googleCloudProject := OrUndefined(env.googleCloudProject);
    var googleCloudLocation := OrUndefined(env.googleCloudLocation);
    var openaiApiKey := env.openaiApiKey;
    var effectiveModel := OrElse(configuredModel, defaultModel);
    config := GeneratorConfig(effectiveModel, authType, settings, None, None);

    if authType == Some(LoginWithGoogle) || authType == Some(CloudShell) {
      return;
    }
    if authType == Some(UseGemini) && geminiApiKey.Some? {
      config := config.(apiKey := geminiApiKey, vertexai := Some(false));
      return;
    }
    if authType == Some(UseVertexAi) && (googleApiKey.Some? || (googleCloudProject.Some? && googleCloudLocation.Some?)) {
      config := config.(apiKey := googleApiKey, vertexai := Some(true));
      return;
    }
    if authType == Some(UseOpenAI) && Truthy(openaiApiKey) {
      config := config.(apiKey := openaiApiKey, model := OrElse(env.openaiModel, defaultModel));
      return;
    }
    if authType == Some(QwenOAuth) {
      config := config.(apiKey := Some(QWEN_OAUTH_MARKER), model := OrElse(configuredModel, defaultModel));
      return;
    }
  }

  /**
   * The validation and dispatch of `createContentGenerator`; `qwenClient` is the outcome of
   * obtaining the Qwen OAuth client, with the failure's message.
   */
  function CreateContentGenerator(config: GeneratorConfig, qwenClient: Result<(), string>): (r: Result<Generator, FactoryError>)
    ensures r.Err? ==> config.authType in {Some(UseOpenAI), Some(QwenOAuth)} || !KnownAuthType(config.authType)
    ensures r.Ok? && r.value.GoogleGenAI? ==> r.value.apiKey != Some("")
  {
    match config.authType
    case Some(LoginWithGoogle) => Ok(CodeAssist(LoginWithGoogle))
    case Some(CloudShell) => Ok(CodeAssist(CloudShell))
    case Some(UseGemini) => Ok(GoogleGenAI(if config.apiKey == Some("") then None else config.apiKey, config.vertexai))
    case Some(UseVertexAi) => Ok(GoogleGenAI(if config.apiKey == Some("") then None else config.apiKey, config.vertexai))
    case Some(UseOpenAI) =>
      if !Truthy(config.apiKey) then Err(OpenAIKeyMissing)
      else Ok(OpenAIGenerator(config.apiKey.value, config.model))
    case Some(QwenOAuth) =>
      if config.apiKey != Some(QWEN_OAUTH_MARKER) then Err(InvalidQwenConfiguration)
      else if qwenClient.Err? then Err(QwenInitFailed(qwenClient.error))
      else Ok(QwenGenerator(config.model))
    case _ => Err(Unsupported(AuthTypeText(config.authType)))
  }

  predicate KnownAuthType(a: Option<AuthType>) {
    a.Some? && !a.value.Other?
  }

  // ---------------------------------------------------------------------------
  // Properties

  /** Every configuration keeps the auth type and the settings, and starts from the configured model. */
  lemma ConfigKeepsSettings(m: Option<string>, d: string, s: Settings, env: Env, a: Option<AuthType>)
    ensures ConfigFor(m, d, s, env, a).settings == s
    ensures ConfigFor(m, d, s, env, a).authType == a
    ensures !(a == Some(UseOpenAI) && Truthy(env.openaiApiKey)) ==>
      ConfigFor(m, d, s, env, a).model == (if Truthy(m) then m.value else d)
  {
  }

  /** Google login and Cloud Shell carry no API key and no Vertex AI flag. */
  lemma GoogleLoginHasNoKey(m: Option<string>, d: string, s: Settings, env: Env, a: Option<AuthType>)
    requires a == Some(LoginWithGoogle) || a == Some(CloudShell)
    ensures ConfigFor(m, d, s, env, a).apiKey.None? && ConfigFor(m, d, s, env, a).vertexai.None?
    ensures CreateContentGenerator(ConfigFor(m, d, s, env, a), Ok(())) == Ok(CodeAssist(a.value))
  {
  }

  /** Vertex AI is selected with a Google API key, or with both a project and a location. */
  lemma VertexNeedsKeyOrProject(m: Option<string>, d: string, s: Settings, env: Env)
    ensures var c := ConfigFor(m, d, s, env, Some(UseVertexAi));
      c.vertexai == Some(true)
      <==> Truthy(env.googleApiKey) || (Truthy(env.googleCloudProject) && Truthy(env.googleCloudLocation))
    ensures var c := ConfigFor(m, d, s, env, Some(UseGemini));
      c.vertexai == Some(false) <==> Truthy(env.geminiApiKey)
  {
  }

  /**
   * The factory rejects an OpenAI configuration exactly when OPENAI_API_KEY is unset or empty;
   * with a key, the model is OPENAI_MODEL or the default, whatever model is configured.
   */
  lemma OpenAIKeyRequired(m: Option<string>, d: string, s: Settings, env: Env, q: Result<(), string>)
    ensures var r := CreateContentGenerator(ConfigFor(m, d, s, env, Some(UseOpenAI)), q);
      (r == Err(OpenAIKeyMissing) <==> !Truthy(env.openaiApiKey))
      && (r.Ok? ==> r.value == OpenAIGenerator(env.openaiApiKey.value, if Truthy(env.openaiModel) then env.openaiModel.value else d))
  {
  }

  /** A Qwen configuration always passes the marker check; only the OAuth client can fail it. */
  lemma QwenConfigAccepted(m: Option<string>, d: string, s: Settings, env: Env, q: Result<(), string>)
    ensures var c := ConfigFor(m, d, s, env, Some(QwenOAuth));
      c.apiKey == Some(QWEN_OAUTH_MARKER)
      && CreateContentGenerator(c, q)
         == (if q.Ok? then Ok(QwenGenerator(if Truthy(m) then m.value else d)) else Err(QwenInitFailed(q.error)))
  {
  }

  /** A Qwen configuration with any other API key is rejected before the OAuth client is asked. */
  lemma QwenWrongKeyRejected(c: GeneratorConfig, q: Result<(), string>)
    requires c.authType == Some(QwenOAuth) && c.apiKey != Some(QWEN_OAUTH_MARKER)
    ensures CreateContentGenerator(c, q) == Err(InvalidQwenConfiguration)
  {
  }

  /** Only the six known auth types are served; anything else is unsupported. */
  lemma UnsupportedAuthType(c: GeneratorConfig, q: Result<(), string>)
    ensures !KnownAuthType(c.authType) <==> CreateContentGenerator(c, q) == Err(Unsupported(AuthTypeText(c.authType)))
  {
  }

  /** A configured auth-type string is unsupported exactly when it is none of the six enumeration values. */
  lemma UnsupportedAuthText(c: GeneratorConfig, s: string, q: Result<(), string>)
    ensures CreateContentGenerator(c.(authType := Some(ParseAuthType(s))), q) == Err(Unsupported(s))
      <==> s !in KNOWN_AUTH_TEXTS
  {
    UnsupportedAuthType(c.(authType := Some(ParseAuthType(s))), q);
  }

  /** An API key without a Gemini or Vertex configuration still reaches GoogleGenAI, with '' as undefined. */
  lemma GeminiWithoutKeyNotRejected(m: Option<string>, d: string, s: Settings, env: Env)
    requires !Truthy(env.geminiApiKey)
    ensures CreateContentGenerator(ConfigFor(m, d, s, env, Some(UseGemini)), Ok(())) == Ok(GoogleGenAI(None, None))
  {
  }
}
