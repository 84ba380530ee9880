/** The Dify adapter around the Vertex AI provider: model configuration and
    schemas, the message-to-prompt serialiser, response generation with
    usage accounting, and provider initialisation from a credentials
    dictionary. Steps the source hands to libraries (writing a temporary
    key file, the SDK set-up, the model-service client) are given as
    their outcomes. */
module DifyIntegration {
  import opened Wrappers
  import opened Text
  import opened Tables
  import VP = VertexProvider

  /** A configured numeric value: Python `int` or `float` (as an exact real). */
  datatype Number = Int(i: int) | Float(f: real)

  /** One entry of a model's `parameters`; `min`/`max` are `None` when the key is absent. */
  datatype ParamConfig = ParamConfig(kind: string, min: Option<Number>, max: Option<Number>, default: Number)

  /** One entry of `model_configs`. */
  datatype ModelConfig = ModelConfig(
    modelName: string,
    modelType: string,
    mode: string,
    contextSize: nat,
    maxChunks: nat,
    chunkSize: nat,
    credentials: seq<string>,
    parameters: seq<(string, ParamConfig)>)

  /** The generation parameters every model offers; only the temperature default differs. */
  function StandardParameters(temperatureDefault: real): seq<(string, ParamConfig)> {
    [ ("temperature", ParamConfig("float", Some(Float(0.0)), Some(Float(1.0)), Float(temperatureDefault))),
      ("max_tokens", ParamConfig("int", Some(Int(1)), Some(Int(8192)), Int(1024))),
      ("top_p", ParamConfig("float", Some(Float(0.0)), Some(Float(1.0)), Float(0.95))),
      ("top_k", ParamConfig("int", Some(Int(1)), Some(Int(100)), Int(40))) ]
  }

  const CredentialFields: seq<string> := ["project_id", "location", "service_account_key"]

  /** `model_configs`, in declaration order. */
  const ModelConfigs: seq<(string, ModelConfig)> := [
    ("gemini-pro", ModelConfig("gemini-pro", "llm", "chat", 30720, 1, 4000, CredentialFields, StandardParameters(0.7))),
    ("gemini-flash", ModelConfig("gemini-flash", "llm", "chat", 30720, 1, 4000, CredentialFields, StandardParameters(0.3)))
  ]

  // ---------------------------------------------------------------- schemas

  datatype ParameterRule = ParameterRule(
    name: string, useTemplate: string, kind: string, default: Number, min: Option<Number>, max: Option<Number>)

  datatype ModelProperties = ModelProperties(contextSize: nat, maxChunks: nat, chunkSize: nat, mode: string)

  /** A model schema as Dify reads it (the title-cased labels are not modelled). */
  datatype ModelSchema = ModelSchema(
    model: string,
    modelType: string,
    features: seq<string>,
    fetchFrom: string,
    properties: ModelProperties,
    parameterRules: seq<ParameterRule>)

  const SchemaFeatures: seq<string> := ["agent-thought", "stream-tool-call"]

  /** One parameter rule per configured parameter, in order, with type and
      default copied and `min`/`max` present exactly when configured. */
  function ParameterRules(params: seq<(string, ParamConfig)>): (rules: seq<ParameterRule>)
    ensures |rules| == |params|
    ensures forall i :: 0 <= i < |params| ==>
      && rules[i].name == params[i].0
      && rules[i].useTemplate == params[i].0
      && rules[i].kind == params[i].1.kind
      && rules[i].default == params[i].1.default
      && rules[i].min == params[i].1.min
      && rules[i].max == params[i].1.max
  {
    if params == [] then []
    else
      var (name, c) := params[0];
      [ParameterRule(name, name, c.kind, c.default, c.min, c.max)] + ParameterRules(params[1..])
  }

  /** `get_model_schemas`: one schema per configured model, in configuration order. */
  function GetModelSchemas(configs: seq<(string, ModelConfig)>): (schemas: seq<ModelSchema>)
    ensures |schemas| == |configs|
    ensures forall i :: 0 <= i < |configs| ==>
      var c := configs[i].1;
      && schemas[i].model == configs[i].0
      && schemas[i].modelType == c.modelType
      && schemas[i].features == SchemaFeatures
      && schemas[i].fetchFrom == "predefined-model"
      && schemas[i].properties == ModelProperties(c.contextSize, c.maxChunks, c.chunkSize, c.mode)
      && schemas[i].parameterRules == ParameterRules(c.parameters)
  {
    if configs == [] then []
    else
      var (name, c) := configs[0];
      [ModelSchema(name, c.modelType, SchemaFeatures, "predefined-model",
                   ModelProperties(c.contextSize, c.maxChunks, c.chunkSize, c.mode),
                   ParameterRules(c.parameters))]
      + GetModelSchemas(configs[1..])
  }

  /** The shipped configuration yields two LLM schemas, `gemini-pro` then
      `gemini-flash`, each with four bounded parameter rules. */
  lemma ShippedSchemas()
    ensures var s := GetModelSchemas(ModelConfigs);
      && |s| == 2 && s[0].model == "gemini-pro" && s[1].model == "gemini-flash"
      && (forall i :: 0 <= i < 2 ==> s[i].modelType == "llm" && |s[i].parameterRules| == 4)
      && forall i, j :: 0 <= i < 2 && 0 <= j < |s[i].parameterRules| ==>
           s[i].parameterRules[j].min.Some? && s[i].parameterRules[j].max.Some?
  {
    var s := GetModelSchemas(ModelConfigs);
    assert ModelConfigs[0].1.parameters == StandardParameters(0.7);
    assert ModelConfigs[1].1.parameters == StandardParameters(0.3);
  }

  /** Every model Dify may ask for is one the provider knows, so the
      provider's "not available" error cannot reach a Dify caller. */
  lemma ConfiguredModelsAreAvailable(model: string)
    requires Lookup(ModelConfigs, model).Some?
    ensures Lookup(VP.AvailableModels, model).Some?
  {
    var c := Lookup(ModelConfigs, model).value;
    var i :| 0 <= i < |ModelConfigs| && ModelConfigs[i] == (model, c);
    assert Keys(VP.AvailableModels) == ["gemini-pro", "gemini-flash"];
  }

  // --------------------------------------------------------------- messages

  /** A Dify message dictionary: `role` and `content` may be missing or `None`. */
  datatype ChatMessage = ChatMessage(role: Field<string>, content: Field<string>)

  /** `message.get("role", "user")`; `None` when the role is present but `None`. */
  function RoleOf(m: ChatMessage): Option<string> {
    match m.role
    case Missing => Some("user")
    case Null => None
    case Given(r) => Some(r)
  }

  /** `message.get("content", "")` as an f-string renders it (`None` prints as "None"). */
  function ContentText(m: ChatMessage): string {
    match m.content
    case Missing => ""
    case Null => "None"
    case Given(c) => c
  }

  /** The tag written before a message's content, for the three roles the serialiser knows. */
  function Tag(role: string): Option<string> {
    if role == "system" then Some("System")
    else if role == "user" then Some("User")
    else if role == "assistant" then Some("Assistant")
    else None
  }

  /** A message the serialiser keeps: its role is system, user or assistant. */
  predicate Recognised(m: ChatMessage) {
    RoleOf(m).Some? && Tag(RoleOf(m).value).Some?
  }

  /** `"<Tag>: <content>"` for a recognised message. */
  function RenderMessage(m: ChatMessage): (part: string)
    requires Recognised(m)
  {
    Tag(RoleOf(m).value).value + ": " + ContentText(m)
  }

  /** A part of the prompt starts with one of the three tags. */
  predicate Tagged(part: string) {
    "System: " <= part || "User: " <= part || "Assistant: " <= part
  }

  /** The parts of the prompt, one per recognised message, in input order. */
  function PromptParts(ms: seq<ChatMessage>): (parts: seq<string>)
    ensures |parts| <= |ms|
    ensures forall p :: p in parts ==> Tagged(p)
    ensures parts == [] <==> forall i :: 0 <= i < |ms| ==> !Recognised(ms[i])
  {
    if ms == [] then []
    else
      var rest := PromptParts(ms[1..]);
      assert forall i :: 1 <= i < |ms| ==> ms[i] == ms[1..][i - 1];
      (if Recognised(ms[0]) then [RenderMessage(ms[0])] else []) + rest
  }

  /** `_messages_to_prompt`: the recognised messages rendered and joined by a blank line. */
  function MessagesToPrompt(ms: seq<ChatMessage>): (prompt: string)
    ensures prompt == "" <==> forall i :: 0 <= i < |ms| ==> !Recognised(ms[i])
  {
    var parts := PromptParts(ms);
    assert parts != [] ==> parts[0] in parts && parts[0] <= Join(parts, "\n\n");
    Join(parts, "\n\n")
  }

  /** Serialising one message gives its tagged rendering, or nothing when its role is unknown. */
  lemma MessagesToPromptSingle(m: ChatMessage)
    ensures MessagesToPrompt([m]) == if Recognised(m) then RenderMessage(m) else ""
  {
    assert PromptParts([m]) == (if Recognised(m) then [RenderMessage(m)] else []) + PromptParts([]);
  }

  lemma {:induction false} PromptPartsAppend(a: seq<ChatMessage>, b: seq<ChatMessage>)
    ensures PromptParts(a + b) == PromptParts(a) + PromptParts(b)
    decreases |a|
  {
    if a == [] {
      assert a + b == b;
    } else {
      assert (a + b)[1..] == a[1..] + b;
      PromptPartsAppend(a[1..], b);
    }
  }

  /** Serialising a concatenation joins the two serialisations with a blank
      line, or keeps whichever is non-empty: message order is kept and no
      message affects another's rendering. */
  lemma MessagesToPromptAppend(a: seq<ChatMessage>, b: seq<ChatMessage>)
    ensures MessagesToPrompt(a + b) ==
      if MessagesToPrompt(a) == "" then MessagesToPrompt(b)
      else if MessagesToPrompt(b) == "" then MessagesToPrompt(a)
      else MessagesToPrompt(a) + "\n\n" + MessagesToPrompt(b)
  {
    PromptPartsAppend(a, b);
    JoinAppend(PromptParts(a), PromptParts(b), "\n\n");
  }

  // ------------------------------------------------------------- generation

  /** The adapter's state: the provider, once one has been constructed. */
  datatype Integration = Integration(provider: Option<VP.Provider>)

  /** The `parameters` dictionary, as far as generation reads it. */
  datatype Parameters = Parameters(temperature: Option<real>, maxTokens: Option<int>)

  datatype Usage = Usage(promptTokens: nat, completionTokens: nat, totalTokens: nat)

  /** The response dictionary; the message role is always "assistant". */
  datatype ChatResponse = ChatResponse(model: string, usage: Usage, role: string, content: string)

  /** The exceptions `generate_response` raises. */
  datatype DifyError = NotInitialized | UnsupportedModel(model: string) | GenerationError(message: string)

  /** The text of each raised exception. */
  function ErrorText(e: DifyError): string {
    match e
    case NotInitialized => "Vertex AI provider not initialized"
    case UnsupportedModel(m) => "Model " + m + " not supported"
    case GenerationError(msg) => "Generation failed: " + msg
  }

  /** `parameters.get("temperature", 0.7)`. */
  function TemperatureOf(params: Parameters): real {
    match params.temperature case Some(t) => t case None => 0.7
  }

  /** `parameters.get("max_tokens", 1024)`. */
  function MaxTokensOf(params: Parameters): int {
    match params.maxTokens case Some(n) => n case None => 1024
  }

  /** The provider call `generate_response` makes for an initialised adapter. */
  function ProviderCall(p: VP.Provider, model: string, ms: seq<ChatMessage>, params: Parameters,
                        backend: VP.Request -> VP.Reply): VP.Generation
  {
    VP.GenerateResponse(p, MessagesToPrompt(ms), model, MaxTokensOf(params), TemperatureOf(params), true, backend)
  }

  /** `generate_response`: both preconditions are checked before the
      provider is called; a failed generation is raised, never returned;
      usage counts words of the prompt and of the reply. */
  function GenerateResponse(
    integ: Integration, model: string, ms: seq<ChatMessage>, params: Parameters,
    backend: VP.Request -> VP.Reply): (r: Result<ChatResponse, DifyError>)
    ensures integ.provider.None? ==> r == Failure(NotInitialized)
    ensures integ.provider.Some? && Lookup(ModelConfigs, model).None? ==> r == Failure(UnsupportedModel(model))
    ensures integ.provider.Some? && Lookup(ModelConfigs, model).Some? ==>
      var g := ProviderCall(integ.provider.value, model, ms, params, backend);
      && (r.Success? <==> g.Generated?)
      && (g.GenerationFailed? ==> r == Failure(GenerationError(g.error)))
      && (g.Generated? ==> r.value.content == g.response && r.value.usage.completionTokens == g.tokensUsed)
    ensures r.Success? ==>
      && r.value.model == model
      && r.value.role == "assistant"
      && r.value.usage.promptTokens == WordCount(MessagesToPrompt(ms))
      && r.value.usage.completionTokens == WordCount(r.value.content)
      && r.value.usage.totalTokens == r.value.usage.promptTokens + r.value.usage.completionTokens
  {
    match integ.provider
    case None => Failure(NotInitialized)
    case Some(p) =>
      if Lookup(ModelConfigs, model).None? then Failure(UnsupportedModel(model))
      else
        var prompt := MessagesToPrompt(ms);
        match ProviderCall(p, model, ms, params, backend)
        case GenerationFailed(e, _) => Failure(GenerationError(e))
        case Generated(text, _, _, used, _, _) =>
          var promptTokens := |Split(prompt)|;
          Success(ChatResponse(model, Usage(promptTokens, used, promptTokens + used), "assistant", text))
  }

  /** For a configured model on an initialised adapter, a failure carries
      exactly the message of the exception the model SDK raised. */
  lemma GenerateFailureIsBackendError(
    integ: Integration, model: string, ms: seq<ChatMessage>, params: Parameters,
    backend: VP.Request -> VP.Reply)
    requires integ.provider.Some? && Lookup(ModelConfigs, model).Some?
    requires GenerateResponse(integ, model, ms, params, backend).Failure?
    ensures Lookup(VP.AvailableModels, model).Some?
    ensures
      var q := VP.BuildRequest(Lookup(VP.AvailableModels, model).value, MessagesToPrompt(ms),
                               MaxTokensOf(params), TemperatureOf(params), true);
      backend(q) == VP.Raised(GenerateResponse(integ, model, ms, params, backend).error.message)
  {
    ConfiguredModelsAreAvailable(model);
  }

  // --------------------------------------------------------- initialisation

  /** The credentials dictionary `initialize_provider` reads. */
  datatype Credentials = Credentials(projectId: Field<string>, location: Field<string>, serviceAccountKey: Field<string>)

  /** How the service-account key is used. */
  datatype KeySource = NoKey | InlineJson(json: string) | KeyFile(path: string)

  /** Python truthiness of an optional string: present, not `None`, not empty. */
  predicate Truthy(f: Field<string>) {
    f.Given? && f.value != ""
  }

  /** A key starting with `{` is inline JSON, any other non-empty key is a file path. */
  function ClassifyKey(key: Field<string>): (k: KeySource)
    ensures k.NoKey? <==> !Truthy(key)
    ensures k.InlineJson? <==> Truthy(key) && key.value[0] == '{'
    ensures k.InlineJson? ==> k.json == key.value
    ensures k.KeyFile? ==> k.path == key.value
  {
    if !Truthy(key) then NoKey
    else if "{" <= key.value then InlineJson(key.value)
    else KeyFile(key.value)
  }

  /** `credentials.get("location", "us-east1")`. */
  function LocationOf(creds: Credentials): Option<string> {
    match creds.location
    case Missing => Some("us-east1")
    case Null => None
    case Given(l) => Some(l)
  }

  /** Outcomes of the library steps of initialisation: the path of the
      temporary key file (`None` if writing it raised), the exception of the
      SDK set-up if any, and that of building the model-service client. */
  datatype Cloud = Cloud(tempFile: Option<string>, initError: Option<string>, clientError: Option<string>)

  /** The adapter after initialisation, and the boolean `initialize_provider` returns. */
  datatype InitOutcome = InitOutcome(integration: Integration, ok: bool)

  /** The credentials path handed to the provider, or `None` when writing the temporary file failed. */
  function CredentialsPath(key: KeySource, cloud: Cloud): Option<Option<string>> {
    match key
    case NoKey => Some(None)
    case KeyFile(path) => Some(Some(path))
    case InlineJson(_) => if cloud.tempFile.Some? then Some(cloud.tempFile) else None
  }

  /** `initialize_provider`: never raises. The provider is replaced as soon as
      it is constructed, even when the later validation fails. */
  function InitializeProvider(integ: Integration, creds: Credentials, cloud: Cloud): (out: InitOutcome)
    ensures !Truthy(creds.projectId) ==> out == InitOutcome(integ, false)
    ensures ClassifyKey(creds.serviceAccountKey).InlineJson? && cloud.tempFile.None? ==> out == InitOutcome(integ, false)
    ensures cloud.initError.Some? ==> out == InitOutcome(integ, false)
    ensures out.ok <==> Truthy(creds.projectId) && CredentialsPath(ClassifyKey(creds.serviceAccountKey), cloud).Some?
                        && cloud.initError.None? && cloud.clientError.None?
    ensures out.integration != integ ==>
      && Truthy(creds.projectId)
      && out.integration.provider.Some?
      && out.integration.provider.value.projectId == creds.projectId.value
      && out.integration.provider.value.location == LocationOf(creds)
      && Some(out.integration.provider.value.credentialsPath) == CredentialsPath(ClassifyKey(creds.serviceAccountKey), cloud)
    ensures out.ok ==> out.integration.provider.Some? && out.integration.provider.value.projectId == creds.projectId.value
    ensures Truthy(creds.projectId) && CredentialsPath(ClassifyKey(creds.serviceAccountKey), cloud).Some?
            && cloud.initError.None? ==>
      out.integration == Integration(Some(VP.Provider(
        creds.projectId.value, LocationOf(creds), CredentialsPath(ClassifyKey(creds.serviceAccountKey), cloud).value)))
  {
    if !Truthy(creds.projectId) then InitOutcome(integ, false)
    else
      match CredentialsPath(ClassifyKey(creds.serviceAccountKey), cloud)
      case None => InitOutcome(integ, false)
      case Some(path) =>
        if cloud.initError.Some? then InitOutcome(integ, false)
        else
          var p := VP.Provider(creds.projectId.value, LocationOf(creds), path);
          var validation := VP.ValidateConfiguration(p, cloud.clientError);
          InitOutcome(Integration(Some(p)), validation.ConfigValid?)
  }
}
