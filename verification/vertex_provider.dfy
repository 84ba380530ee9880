/** The Vertex AI provider: its model table, the Hebrew prompt shaping and
    the pure parts of response generation. The Gemini SDK is not modelled;
    the generation call is a parameter `backend` that maps the request the
    provider builds to the reply (or the exception) it gets back. */
module VertexProvider {
  import opened Wrappers
  import opened Text
  import opened Tables

  /** The fixed instruction block asking for a clear, grammatical Hebrew
      answer that respects right-to-left direction. */
  const HebrewInstructions: string :=
    "אנא השב בעברית בצורה ברורה ומדויקת. \n" + "שים לב לכיווניות הטקסט (RTL) ולתקינות הדקדוק העברי.\n"

  /** The blank line placed between the instructions and the prompt. */
  const Gap: string := "\n\n"

  /** One entry of `available_models`. */
  datatype ModelInfo = ModelInfo(
    name: string,
    modelId: string,
    maxTokens: nat,
    supportsHebrew: bool,
    description: string)

  /** `available_models`, in declaration order. */
  const AvailableModels: seq<(string, ModelInfo)> := [
    ("gemini-pro", ModelInfo("Gemini Pro", "gemini-1.5-pro", 8192, true,
                             "Advanced multimodal model with Hebrew RTL support")),
    ("gemini-flash", ModelInfo("Gemini Flash", "gemini-1.5-flash", 8192, true,
                               "Fast, efficient model optimized for Hebrew conversations"))
  ]

  /** A constructed provider. `location` is `None` when the caller passed Python `None`. */
  datatype Provider = Provider(projectId: string, location: Option<string>, credentialsPath: Option<string>)

  /** `generation_config` as sent to the model. Temperatures and `top_p`
      are carried as exact reals; the source does no arithmetic on them. */
  datatype GenerationConfig = GenerationConfig(maxOutputTokens: int, temperature: real, topP: real, topK: int)

  /** The call the provider makes: which model, which prompt, which settings. */
  datatype Request = Request(modelId: string, prompt: string, config: GenerationConfig)

  /** What the SDK call gives back: reply text (`""` also stands for a
      missing text) or an exception with its message. */
  datatype Reply = Replied(text: string) | Raised(message: string)

  datatype Metadata = Metadata(projectId: string, location: Option<string>, temperature: real, maxTokens: int)

  /** The dictionary `generate_response` returns; on failure `response` is `None`. */
  datatype Generation =
    | Generated(response: string, model: string, modelId: string, tokensUsed: nat,
                supportsHebrew: bool, metadata: Metadata)
    | GenerationFailed(error: string, model: string)

  /** The enhanced prompt starts with the instruction block and the gap. */
  predicate InstructionsFirst(r: string) {
    HebrewInstructions + Gap <= r
  }

  lemma InstructionsAreHebrew()
    ensures HebrewInstructions != [] && IsHebrew(HebrewInstructions[0])
    ensures ContainsHebrew(HebrewInstructions)
  {
    assert IsHebrew(HebrewInstructions[0]);
  }

  /** `_prepare_hebrew_prompt`: a prompt that already holds Hebrew gets the
      instructions in front of it, any other prompt gets them after it. */
  function PrepareHebrewPrompt(prompt: string): (r: string)
    ensures |r| == |prompt| + |HebrewInstructions| + 2
    ensures ContainsHebrew(r)
    ensures ContainsHebrew(prompt) ==> InstructionsFirst(r) && r[|r| - |prompt|..] == prompt
    ensures !ContainsHebrew(prompt) ==>
      prompt <= r && r[|prompt|..|prompt| + 2] == Gap && r[|prompt| + 2..] == HebrewInstructions
  {
    InstructionsAreHebrew();
    if ContainsHebrew(prompt) then
      ContainsHebrewAppend(HebrewInstructions + Gap, prompt);
      ContainsHebrewAppend(HebrewInstructions, Gap);
      HebrewInstructions + Gap + prompt
    else
      ContainsHebrewAppend(prompt + Gap, HebrewInstructions);
      prompt + Gap + HebrewInstructions
  }

  /** Undoes `PrepareHebrewPrompt`: drops the instruction block from whichever end holds it. */
  function StripHebrewInstructions(r: string): string {
    if InstructionsFirst(r) then r[|HebrewInstructions| + 2..]
    else if |r| >= |HebrewInstructions| + 2 then r[..|r| - |HebrewInstructions| - 2]
    else r
  }

  /** The instructions lead the enhanced prompt exactly when the original
      prompt held Hebrew, and stripping them gives the original prompt back. */
  lemma PrepareHebrewPromptRoundTrip(prompt: string)
    ensures InstructionsFirst(PrepareHebrewPrompt(prompt)) <==> ContainsHebrew(prompt)
    ensures StripHebrewInstructions(PrepareHebrewPrompt(prompt)) == prompt
  {
    InstructionsAreHebrew();
    var r := PrepareHebrewPrompt(prompt);
    if !ContainsHebrew(prompt) {
      TrailingBlockNotLeading(prompt, HebrewInstructions);
      assert r[..|r| - |HebrewInstructions| - 2] == prompt;
    }
  }

  /** A block that starts with a Hebrew letter cannot lead `prompt + gap + h`
      when `prompt` holds no Hebrew: the first character would have to be both. */
  lemma TrailingBlockNotLeading(prompt: string, h: string)
    requires h != [] && IsHebrew(h[0])
    requires !ContainsHebrew(prompt)
    ensures !(h + Gap <= prompt + Gap + h)
  {
    var r := prompt + Gap + h;
    if prompt == [] {
      assert r[0] == '\n';
    } else {
      assert r[0] == prompt[0];
    }
    assert r[0] != (h + Gap)[0];
  }

  /** `model_name not in self.available_models` raises this message, listing the keys. */
  function NotAvailableMessage(modelName: string): string {
    "Model " + modelName + " not available. Choose from: " + PyListRepr(Keys(AvailableModels))
  }

  /** `repr` of a list of quote-free strings: `['a', 'b']`. */
  function PyListRepr(items: seq<string>): string {
    "[" + Join(Quoted(items), ", ") + "]"
  }

  function Quoted(items: seq<string>): (q: seq<string>)
    ensures |q| == |items|
  {
    if items == [] then [] else ["'" + items[0] + "'"] + Quoted(items[1..])
  }

  /** The request `generate_response` hands to the model once `model` is found. */
  function BuildRequest(model: ModelInfo, prompt: string, maxTokens: int, temperature: real, enableHebrew: bool): (q: Request)
    ensures q.modelId == model.modelId
    ensures q.config.maxOutputTokens <= maxTokens && q.config.maxOutputTokens <= model.maxTokens
    ensures q.config.maxOutputTokens == maxTokens || q.config.maxOutputTokens == model.maxTokens
    ensures q.config.temperature == temperature && q.config.topP == 0.95 && q.config.topK == 40
    ensures enableHebrew ==> q.prompt == PrepareHebrewPrompt(prompt)
    ensures !enableHebrew ==> q.prompt == prompt
  {
    var limit := if maxTokens <= model.maxTokens then maxTokens else model.maxTokens;
    Request(model.modelId,
            if enableHebrew then PrepareHebrewPrompt(prompt) else prompt,
            GenerationConfig(limit, temperature, 0.95, 40))
  }

  /** `generate_response`: look the model up, build the request, call the
      model, and turn the reply or any exception into a result dictionary.
      It never raises. */
  function GenerateResponse(
    p: Provider, prompt: string, modelName: string, maxTokens: int, temperature: real,
    enableHebrew: bool, backend: Request -> Reply): (r: Generation)
    ensures r.model == modelName
    ensures Lookup(AvailableModels, modelName).None? ==>
      r == GenerationFailed(NotAvailableMessage(modelName), modelName)
    ensures Lookup(AvailableModels, modelName).Some? ==>
      var m := Lookup(AvailableModels, modelName).value;
      var reply := backend(BuildRequest(m, prompt, maxTokens, temperature, enableHebrew));
      && (r.Generated? <==> reply.Replied?)
      && (r.Generated? ==>
            && reply.text == r.response
            && r.modelId == m.modelId
            && r.supportsHebrew == m.supportsHebrew
            && r.metadata == Metadata(p.projectId, p.location, temperature, maxTokens))
      && (r.GenerationFailed? ==> r.error == reply.message)
    ensures r.Generated? ==> r.tokensUsed == WordCount(r.response)
  {
    match Lookup(AvailableModels, modelName)
    case None => GenerationFailed(NotAvailableMessage(modelName), modelName)
    case Some(m) =>
      match backend(BuildRequest(m, prompt, maxTokens, temperature, enableHebrew))
      case Raised(e) => GenerationFailed(e, modelName)
      case Replied(text) =>
        Generated(text, modelName, m.modelId,
                  if text == "" then 0 else |Split(text)|,
                  m.supportsHebrew,
                  Metadata(p.projectId, p.location, temperature, maxTokens))
  }

  /** Every configured model caps output at 8192 tokens, so no request the
      provider builds asks for more, whatever the caller requested. */
  lemma MaxOutputTokensCapped(modelName: string, prompt: string, maxTokens: int, temperature: real, enableHebrew: bool)
    requires Lookup(AvailableModels, modelName).Some?
    ensures BuildRequest(Lookup(AvailableModels, modelName).value, prompt, maxTokens, temperature, enableHebrew)
              .config.maxOutputTokens <= 8192
  {
    var m := Lookup(AvailableModels, modelName).value;
    var i :| 0 <= i < |AvailableModels| && AvailableModels[i] == (modelName, m);
  }

  /** `validate_configuration`: the result of building the model-service
      client is given as `clientError` (`None` when it was built). */
  datatype ConfigValidation =
    | ConfigValid(projectId: string, location: Option<string>, availableModels: seq<string>, status: string)
    | ConfigInvalid(error: string, status: string)

  function ValidateConfiguration(p: Provider, clientError: Option<string>): (v: ConfigValidation)
    ensures v.ConfigValid? <==> clientError.None?
    ensures v.ConfigValid? ==>
      v.projectId == p.projectId && v.location == p.location && v.availableModels == ["gemini-pro", "gemini-flash"]
    ensures v.ConfigInvalid? ==> v.error == clientError.value
  {
    match clientError
    case None => ConfigValid(p.projectId, p.location, Keys(AvailableModels), "Vertex AI configuration is valid")
    case Some(e) => ConfigInvalid(e, "Vertex AI configuration failed")
  }

  /** One entry of the map `test_hebrew_capabilities` returns. */
  datatype HebrewProbe = HebrewProbe(success: bool, hasHebrewResponse: bool, responseLength: nat, error: Option<string>)

  /** The fixed Hebrew prompt the capability test sends to every model. */
  const HebrewTestPrompt: string :=
    "בדוק את יכולות העיבוד שלך בעברית. ספר לי על היתרונות של בינה מלאכותית."

  /** The message Python raises when a `None` response is iterated. */
  const NoneNotIterable: string := "'NoneType' object is not iterable"

  function ProbeModel(p: Provider, modelName: string, backend: Request -> Reply): Generation {
    GenerateResponse(p, HebrewTestPrompt, modelName, 200, 0.7, true, backend)
  }

  /** The generation for each named model, in order. */
  function Probes(p: Provider, names: seq<string>, backend: Request -> Reply): (gs: seq<Generation>)
    ensures |gs| == |names|
    ensures forall i :: 0 <= i < |names| ==> gs[i] == ProbeModel(p, names[i], backend)
  {
    seq(|names|, i requires 0 <= i < |names| => ProbeModel(p, names[i], backend))
  }

  /** The entry a successful generation gives. */
  function SucceededProbe(g: Generation): HebrewProbe
    requires g.Generated?
  {
    HebrewProbe(true, ContainsHebrew(g.response), |g.response|, None)
  }

  /** `test_hebrew_capabilities` as written: a failed generation leaves
      `response` set to `None`, which `_contains_hebrew` then iterates, so
      the whole test raises instead of reporting the failure. */
  function TestHebrewCapabilitiesAsWritten(p: Provider, names: seq<string>, backend: Request -> Reply)
    : (r: Result<seq<(string, HebrewProbe)>, string>)
    ensures r.Failure? <==> exists i :: 0 <= i < |names| && ProbeModel(p, names[i], backend).GenerationFailed?
    ensures r.Failure? ==> r.error == NoneNotIterable
    ensures r.Success? ==> r.value == TestHebrewCapabilities(p, names, backend)
  {
    var gs := Probes(p, names, backend);
    var r := ReportAsWritten(names, gs);
    assert r.Failure? <==> exists i :: 0 <= i < |names| && gs[i].GenerationFailed?;
    assert r.Success? ==> r.value == TestHebrewCapabilities(p, names, backend) by {
      if r.Success? {
        var fixed := TestHebrewCapabilities(p, names, backend);
        assert forall i :: 0 <= i < |names| ==> r.value[i] == fixed[i];
      }
    }
    r
  }

  /** The loop of the capability test as written, over the generations `gs`
      of the models `names`. */
  function ReportAsWritten(names: seq<string>, gs: seq<Generation>): (r: Result<seq<(string, HebrewProbe)>, string>)
    requires |gs| == |names|
    ensures r.Failure? <==> exists i :: 0 <= i < |gs| && gs[i].GenerationFailed?
    ensures r.Failure? ==> r.error == NoneNotIterable
    ensures r.Success? ==> |r.value| == |names|
    ensures r.Success? ==> forall i :: 0 <= i < |names| ==> r.value[i] == (names[i], ProbeEntry(gs[i]))
  {
    if names == [] then Success([])
    else if gs[0].GenerationFailed? then Failure(NoneNotIterable)
    else
      var rest := ReportAsWritten(names[1..], gs[1..]);
      assert forall i :: 1 <= i < |gs| ==> gs[1..][i - 1] == gs[i];
      match rest
      case Failure(e) => Failure(e)
      case Success(entries) => Success([(names[0], SucceededProbe(gs[0]))] + entries)
  }

  /** With a model SDK that raises on every call, the capability test as
      written raises rather than returning a map. */
  lemma TestHebrewCapabilitiesAsWrittenRaises(p: Provider)
    ensures TestHebrewCapabilitiesAsWritten(p, Keys(AvailableModels), (q: Request) => Raised("quota exceeded"))
              == Failure(NoneNotIterable)
  {
    var backend := (q: Request) => Raised("quota exceeded");
    var names := Keys(AvailableModels);
    assert names[0] == "gemini-pro";
    LookupEntry(AvailableModels, 0);
    assert ProbeModel(p, names[0], backend).GenerationFailed?;
  }

  /** `test_hebrew_capabilities` with a failed generation's missing response
      read as `""`, as its `.get("response", "")` intends: one entry per
      model, in table order, and never an exception. */
  function TestHebrewCapabilities(p: Provider, names: seq<string>, backend: Request -> Reply)
    : (r: seq<(string, HebrewProbe)>)
    ensures |r| == |names|
    ensures forall i :: 0 <= i < |names| ==>
      var g := ProbeModel(p, names[i], backend);
      && r[i].0 == names[i]
      && r[i].1.success == g.Generated?
      && (g.Generated? ==> r[i].1 == HebrewProbe(true, ContainsHebrew(g.response), |g.response|, None))
      && (g.GenerationFailed? ==> r[i].1 == HebrewProbe(false, false, 0, Some(g.error)))
  {
    var gs := Probes(p, names, backend);
    seq(|names|, i requires 0 <= i < |names| => (names[i], ProbeEntry(gs[i])))
  }

  /** The entry the corrected test records for one generation. */
  function ProbeEntry(g: Generation): HebrewProbe {
    match g
    case GenerationFailed(e, _) => HebrewProbe(false, false, 0, Some(e))
    case Generated(text, _, _, _, _, _) => HebrewProbe(true, ContainsHebrew(text), |text|, None)
  }
}
