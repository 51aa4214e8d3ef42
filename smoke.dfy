/** The pipeline (the ChainSmoker class and the cig factory of src/smoke.ts):
    an append-only list of operations with an optional input schema and a
    shared configuration, the builders that extend it, and `run`, which
    resolves the caller's input and threads it through the operations.

    Everything that talks to the model provider, validates with Zod, renders
    a prompt or tokenizes text is a field of `Env`: the pipeline only decides
    what to ask and what to do with the answer. */
module Smoke {
  import opened Types
  import opened Configuration
  import Logit
  import ProcessInput

  // ---------------------------------------------------------------------
  // Collaborators

  datatype Role = System | User

  /** A chat message; the content is whatever value the pipeline hands over. */
  datatype Message = Message(role: Role, content: Value)

  /** A chat completion request. */
  datatype ChatRequest = ChatRequest(
    model: string,
    messages: seq<Message>,
    temperature: Option<int>,
    maxTokens: Option<nat>,
    logitBias: Option<map<Logit.BiasKey, int>>)

  /** The context handed to one of the three prompt templates. */
  datatype PromptContext =
    | ExtractPrompt(data: string, instructions: string, examples: seq<Example>, outputSchema: Schema)
    | GeneratePrompt(data: string, count: int, instructions: string, examples: seq<Example>)
    | ClassifyPrompt(data: string, instructions: string, examples: seq<Example>, labels: seq<string>)

  /** A tool-orchestration session over sub-pipelines (executeTools). */
  datatype ToolSession = ToolSession(tools: seq<Pipeline>, rawText: string, description: string, model: string)

  /** The external collaborators, each of which may throw. */
  datatype Env = Env(
    parse: (Schema, Value) -> Result<Value>,          // schema.parse
    resolve: StructuredRequest -> Result<Value>,       // getStructuredResponse
    complete: ChatRequest -> Result<Option<string>>,   // first choice's message content, if any
    executeTools: ToolSession -> Result<string>,       // final content of a tool session
    json: Value -> Result<string>,                     // JSON.stringify
    render: PromptContext -> Result<string>,           // formatExtract/Generate/ClassifyPrompt
    encode: string -> seq<nat>)                        // the tokenizer

  // ---------------------------------------------------------------------
  // Operations and pipelines

  /** One step, tagged by the builder that made it, with what it captured:
      the step configurator's instruction and examples and the model of the
      pipeline it was appended to. */
  datatype Op =
    | SchemaOp(target: Schema, instruction: string, examples: seq<Example>, model: string)
    | GenerateOp(item: Schema, count: int, instruction: string, examples: seq<Example>, model: string)
    | ClassifyOp(labels: seq<string>, instruction: string, examples: seq<Example>, model: string)
    | HandlerOp(handler: Value -> Result<Value>)
    | UsesOp(tools: seq<Pipeline>, instruction: string, model: string)
    | LogOp(observer: Value -> Option<Failure>)

  /** A pipeline value: the declared input schema (none: accept anything),
      the configuration and the operations in chain order. */
  datatype Pipeline = Pipeline(inputSchema: Option<Schema>, config: Config, ops: seq<Op>)

  /** The model an operation asks, if it asks one. */
  function OpModel(op: Op): Option<string> {
    match op
    case SchemaOp(_, _, _, m) => Some(m)
    case GenerateOp(_, _, _, _, m) => Some(m)
    case ClassifyOp(_, _, _, m) => Some(m)
    case UsesOp(_, _, m) => Some(m)
    case HandlerOp(_) => None
    case LogOp(_) => None
  }

  /** Every model-backed step of the pipeline asks the pipeline's own model. */
  ghost predicate Consistent(p: Pipeline) {
    forall i :: 0 <= i < |p.ops| && OpModel(p.ops[i]).Some? ==> OpModel(p.ops[i]).value == p.config.model
  }

  /** The ChainSmoker constructor: no operations, missing fields defaulted. */
  function NewPipeline(name: string, inputSchema: Option<Schema>, pc: PartialConfig): (p: Pipeline)
    ensures p.ops == [] && p.inputSchema == inputSchema
    ensures p.config == WithDefaults(name, pc)
    ensures Consistent(p)
  {
    Pipeline(inputSchema, WithDefaults(name, pc), [])
  }

  /** A full configuration spread into an object literal, with the step's
      instruction and examples written over it. */
  function Spread(c: Config, instruction: string, examples: seq<Example>): PartialConfig {
    PartialConfig(Some(c.description), Some(c.model), Some(c.logLevel), Some(instruction), Some(examples))
  }

  /** The child the builders make: same name and schema, the given
      configuration, and the parent's operations plus one. */
  function Derive(p: Pipeline, pc: PartialConfig, op: Op): Pipeline {
    NewPipeline(p.config.name, p.inputSchema, pc).(ops := p.ops + [op])
  }

  /** What a step configurator's callback leaves as instruction and examples. */
  function StepInstruction(configure: Option<seq<Setting>>): string {
    Replay(NoSettings, configure.GetOr([])).instruction.GetOr("")
  }

  function StepExamples(configure: Option<seq<Setting>>): seq<Example> {
    Replay(NoSettings, configure.GetOr([])).examples.GetOr([])
  }

  /** The schema used when none is declared: an object with one string field `input`. */
  const DefaultInputSchema: Schema := ObjectSchema([("input", StringSchema)])

  /** getInputSchema: the declared schema, else the single-text-field one. */
  function GetInputSchema(p: Pipeline): (s: Schema)
    ensures p.inputSchema.Some? ==> s == p.inputSchema.value
    ensures p.inputSchema.None? ==> s == DefaultInputSchema
  {
    if p.inputSchema.Some? then p.inputSchema.value else DefaultInputSchema
  }

  // ---------------------------------------------------------------------
  // The cig factory

  /** The factory's second argument: absent, a schema, or a configurator callback. */
  datatype SecondArgument =
    | Omitted
    | SchemaArgument(schema: Schema)
    | ConfiguratorArgument(configure: seq<Setting>)

  /** The callback cig runs: a callback in second place replaces the third argument. */
  function FactoryCallback(second: SecondArgument, configure: Option<seq<Setting>>): Option<seq<Setting>> {
    if second.ConfiguratorArgument? then Some(second.configure) else configure
  }

  /** cig: a schema in second place becomes the input schema, a callback
      there becomes the configurator and leaves no schema; the configurator's
      settings, with defaults for the rest, become the configuration, and the
      pipeline has no operations yet. */
  method Cig(name: string, second: SecondArgument, configure: Option<seq<Setting>>) returns (p: Pipeline)
    ensures p.ops == [] && p.config.name == name
    ensures second.SchemaArgument? ==> p.inputSchema == Some(second.schema)
    ensures !second.SchemaArgument? ==> p.inputSchema == None
    ensures p.config == WithDefaults(name, Replay(NoSettings, FactoryCallback(second, configure).GetOr([])))
    ensures Consistent(p)
  {
    var inputSchema: Option<Schema> := None;
    var config := NoSettings;
    var callback := configure;
    if second.SchemaArgument? {
      inputSchema := Some(second.schema);
    } else if second.ConfiguratorArgument? {
      callback := Some(second.configure);
    }
    if callback.Some? {
      var cfg := new Configurator();
      cfg.Configure(callback.value);
      config := cfg.GetConfig();
    }
    p := NewPipeline(name, inputSchema, config);
  }

  /** Without settings, cig's configuration is the documented defaults:
      log level 5, the default model, and empty description, instruction and
      examples; the name is always the argument. */
  lemma CigDefaults(name: string, second: SecondArgument)
    requires !second.ConfiguratorArgument?
    ensures WithDefaults(name, Replay(NoSettings, FactoryCallback(second, None).GetOr([])))
      == Config(name, 5, "gpt-4o-2024-08-06", "", "", [])
  {
  }

  // ---------------------------------------------------------------------
  // The builders. Each returns a new pipeline; the parent, a value, is unchanged.

  /** schema: appends a structured-transformation step. */
  method SchemaStep(p: Pipeline, target: Schema, configure: Option<seq<Setting>>) returns (q: Pipeline)
    ensures q.inputSchema == p.inputSchema
    ensures q.ops == p.ops + [SchemaOp(target, StepInstruction(configure), StepExamples(configure), p.config.model)]
    ensures q.config == p.config.(instruction := StepInstruction(configure), examples := StepExamples(configure))
    ensures Consistent(p) ==> Consistent(q)
  {
    var config := new Configurator();
    if configure.Some? {
      config.Configure(configure.value);
    }
    var op := SchemaOp(target, config.GetInstruction(), config.GetExamples(), p.config.model);
    q := Derive(p, Spread(p.config, config.GetInstruction(), config.GetExamples()), op);
  }

  /** generate: appends a step asking for `count` items of `item`. */
  method Generate(p: Pipeline, item: Schema, count: int, configure: Option<seq<Setting>>) returns (q: Pipeline)
    ensures q.inputSchema == p.inputSchema
    ensures q.ops == p.ops + [GenerateOp(item, count, StepInstruction(configure), StepExamples(configure), p.config.model)]
    ensures q.config == p.config.(instruction := StepInstruction(configure), examples := StepExamples(configure))
    ensures Consistent(p) ==> Consistent(q)
  {
    var config := new Configurator();
    if configure.Some? {
      config.Configure(configure.value);
    }
    var op := GenerateOp(item, count, config.GetInstruction(), config.GetExamples(), p.config.model);
    q := Derive(p, Spread(p.config, config.GetInstruction(), config.GetExamples()), op);
  }

  /** classify: appends a step choosing one of `labels`. */
  method Classify(p: Pipeline, labels: seq<string>, configure: Option<seq<Setting>>) returns (q: Pipeline)
    ensures q.inputSchema == p.inputSchema
    ensures q.ops == p.ops + [ClassifyOp(labels, StepInstruction(configure), StepExamples(configure), p.config.model)]
    ensures q.config == p.config.(instruction := StepInstruction(configure), examples := StepExamples(configure))
    ensures Consistent(p) ==> Consistent(q)
  {
    var config := new Configurator();
    if configure.Some? {
      config.Configure(configure.value);
    }
    var op := ClassifyOp(labels, config.GetInstruction(), config.GetExamples(), p.config.model);
    q := Derive(p, Spread(p.config, config.GetInstruction(), config.GetExamples()), op);
  }

  /** uses: appends a tool-orchestration step over sub-pipelines. */
  method Uses(p: Pipeline, tools: seq<Pipeline>, configure: Option<seq<Setting>>) returns (q: Pipeline)
    ensures q.inputSchema == p.inputSchema
    ensures q.ops == p.ops + [UsesOp(tools, StepInstruction(configure), p.config.model)]
    ensures q.config == p.config.(instruction := StepInstruction(configure), examples := StepExamples(configure))
    ensures Consistent(p) ==> Consistent(q)
  {
    var config := new Configurator();
    if configure.Some? {
      config.Configure(configure.value);
    }
    var op := UsesOp(tools, config.GetInstruction(), p.config.model);
    q := Derive(p, Spread(p.config, config.GetInstruction(), config.GetExamples()), op);
  }

  /** handler: appends a caller-supplied step; the configuration is passed on unchanged. */
  function Handler(p: Pipeline, handler: Value -> Result<Value>): (q: Pipeline)
    ensures q.inputSchema == p.inputSchema && q.config == p.config
    ensures q.ops == p.ops + [HandlerOp(handler)]
    ensures Consistent(p) ==> Consistent(q)
  {
    Derive(p, Spread(p.config, p.config.instruction, p.config.examples), HandlerOp(handler))
  }

  /** log: appends an observing step; the configuration is passed on unchanged. */
  function Log(p: Pipeline, observer: Value -> Option<Failure>): (q: Pipeline)
    ensures q.inputSchema == p.inputSchema && q.config == p.config
    ensures q.ops == p.ops + [LogOp(observer)]
    ensures Consistent(p) ==> Consistent(q)
  {
    Derive(p, Spread(p.config, p.config.instruction, p.config.examples), LogOp(observer))
  }

  /** A step's instruction is its callback's last instruction (empty when
      there was none) and its examples are every pair the callback added, in
      order. (That a callback's model cannot reach the step is stated by the
      builders' own contracts: the new step carries the parent's model.) */
  lemma StepConfigMeaning(configure: seq<Setting>)
    ensures StepInstruction(Some(configure)) == Last(configure, PickInstruction).GetOr("")
    ensures StepExamples(Some(configure)) == AddedExamples(configure)
  {
    ReplayMeaning(NoSettings, configure);
  }

  // ---------------------------------------------------------------------
  // parseInt and the classification reply

  predicate IsWhiteSpace(c: char) {
    c == ' ' || c == '\t' || c == '\n' || c == '\r' || c == '\U{0B}' || c == '\U{0C}'
    || c == '\U{A0}' || c == '\U{FEFF}' || c == '\U{2028}' || c == '\U{2029}'
  }

  predicate IsDigit(c: char) {
    '0' <= c <= '9'
  }

  /** The text with its leading white space removed: a suffix of the input
      that does not start with white space. */
  function TrimStart(s: string): (t: string)
    ensures |t| <= |s| && t == s[|s| - |t|..]
    ensures |t| > 0 ==> !IsWhiteSpace(t[0])
  {
    if |s| > 0 && IsWhiteSpace(s[0]) then TrimStart(s[1..]) else s
  }

  /** The longest prefix made of decimal digits. */
  function DigitPrefix(s: string): (d: string)
    ensures forall k :: 0 <= k < |d| ==> IsDigit(d[k])
  {
    if |s| > 0 && IsDigit(s[0]) then [s[0]] + DigitPrefix(s[1..]) else []
  }

  function DigitsValue(ds: string): nat
    requires forall k :: 0 <= k < |ds| ==> IsDigit(ds[k])
  {
    if ds == [] then 0
    else
      assert IsDigit(ds[|ds| - 1]);
      DigitsValue(ds[..|ds| - 1]) * 10 + (ds[|ds| - 1] as int - '0' as int)
  }

  /** parseInt(s, 10): leading white space skipped, an optional sign, then
      the longest run of digits; no digits at all is NaN (None). */
  function ParseInt(s: string): (r: Option<int>)
    ensures (forall k :: 0 <= k < |s| ==> !IsDigit(s[k])) ==> r.None?
    ensures r.Some? && r.value < 0 ==> |TrimStart(s)| > 0 && TrimStart(s)[0] == '-'
  {
    var t := TrimStart(s);
    var negative := |t| > 0 && t[0] == '-';
    var body := if |t| > 0 && (t[0] == '-' || t[0] == '+') then t[1..] else t;
    var digits := DigitPrefix(body);
    if digits == [] then None
    else
      var magnitude: int := DigitsValue(digits);
      Some(if negative then -magnitude else magnitude)
  }

  /** The classify step's answer: the reply (or "0" when it is missing or
      empty) read as an index into the labels. Whatever the model says, the
      answer is one of the labels or undefined, never any other text. */
  function ClassifyReply(labels: seq<string>, content: Option<string>): (v: Value)
    ensures v == Undefined || (v.Str? && v.s in labels)
  {
    var reply := if content.Some? && content.value != "" then content.value else "0";
    match ParseInt(reply)
    case Some(i) => if 0 <= i < |labels| then Str(labels[i]) else Undefined
    case None => Undefined
  }

  lemma {:induction false} DigitPrefixOfDigits(ds: string)
    requires forall k :: 0 <= k < |ds| ==> IsDigit(ds[k])
    ensures DigitPrefix(ds) == ds
  {
    if ds != [] {
      DigitPrefixOfDigits(ds[1..]);
      assert ds == [ds[0]] + ds[1..];
    }
  }

  lemma {:induction false} DigitsValueOfDecimal(n: nat)
    ensures DigitsValue(Logit.Decimal(n)) == n
  {
    var s := Logit.Decimal(n);
    if n >= 10 {
      DigitsValueOfDecimal(n / 10);
      assert s[..|s| - 1] == Logit.Decimal(n / 10);
    }
  }

  /** parseInt reads back exactly the index whose decimal text it is given. */
  lemma ParseIntOfDecimal(n: nat)
    ensures ParseInt(Logit.Decimal(n)) == Some(n)
  {
    var s := Logit.Decimal(n);
    assert IsDigit(s[0]) && !IsWhiteSpace(s[0]) && s[0] != '-' && s[0] != '+';
    assert TrimStart(s) == s;
    DigitPrefixOfDigits(s);
    DigitsValueOfDecimal(n);
  }

  /** An index token in the reply names its label, or undefined out of range. */
  lemma ClassifyIndexReply(labels: seq<string>, i: nat)
    ensures ClassifyReply(labels, Some(Logit.Decimal(i))) == if i < |labels| then Str(labels[i]) else Undefined
  {
    ParseIntOfDecimal(i);
  }

  /** A missing or empty reply is read as the text "0". */
  lemma ClassifyMissingReply(labels: seq<string>)
    ensures ClassifyReply(labels, None) == ClassifyReply(labels, Some(""))
    ensures ClassifyReply(labels, None) == ClassifyReply(labels, Some(Logit.Decimal(0)))
  {
    assert Logit.Decimal(0) == "0";
  }

  /** The reply cases the classify step promises: an index token in range
      names its label, an index out of range gives undefined, and a missing
      or empty reply counts as index 0. */
  lemma ClassifyReplyCases(labels: seq<string>, i: nat)
    ensures i < |labels| ==> ClassifyReply(labels, Some(Logit.Decimal(i))) == Str(labels[i])
    ensures i >= |labels| ==> ClassifyReply(labels, Some(Logit.Decimal(i))) == Undefined
    ensures |labels| > 0 ==> ClassifyReply(labels, None) == Str(labels[0])
    ensures |labels| > 0 ==> ClassifyReply(labels, Some("")) == Str(labels[0])
  {
    ClassifyIndexReply(labels, i);
    ClassifyIndexReply(labels, 0);
    ClassifyMissingReply(labels);
  }

  // ---------------------------------------------------------------------
  // Running a pipeline

  /** The system text of the default operation when no description is set. */
  const DefaultSystemText: string := "Process the following input."

  /** Property access `v[key]`, which throws on null and undefined. */
  function Property(v: Value, key: string): (r: Result<Value>)
    ensures r.Err? <==> v.Null? || v.Undefined?
    ensures v.Obj? && key in v.fields ==> r == Ok(v.fields[key])
    ensures r.Ok? && !(v.Obj? && key in v.fields) ==> r == Ok(Undefined)
  {
    match v
    case Null => Err(Error("Cannot read properties of null (reading '" + key + "')"))
    case Undefined => Err(Error("Cannot read properties of undefined (reading '" + key + "')"))
    case Obj(fields) => Ok(if key in fields then fields[key] else Undefined)
    case _ => Ok(Undefined)
  }

  /** The schema generate asks for: an object whose `results` is an array of items. */
  function ResultsEnvelope(item: Schema): Schema {
    ObjectSchema([("results", ArraySchema(item))])
  }

  /** The prompt context a prompt-rendering step fills in for its data. */
  function StepPrompt(op: Op, data: string): PromptContext
    requires op.SchemaOp? || op.GenerateOp? || op.ClassifyOp?
  {
    match op
    case SchemaOp(target, instruction, examples, _) => ExtractPrompt(data, instruction, examples, target)
    case GenerateOp(_, count, instruction, examples, _) => GeneratePrompt(data, count, instruction, examples)
    case ClassifyOp(labels, instruction, examples, _) => ClassifyPrompt(data, instruction, examples, labels)
  }

  /** A prompt-rendering step's serialised input and rendered prompt; the
      serialisation and the template may each throw. */
  function Rendered(op: Op, x: Value, env: Env): Result<(string, string)>
    requires op.SchemaOp? || op.GenerateOp? || op.ClassifyOp?
  {
    var data :- env.json(x);
    var prompt :- env.render(StepPrompt(op, data));
    Ok((data, prompt))
  }

  /** The structured request a schema or generate step sends: the data, the
      prompt as description, the name `result` and the step's captured model;
      generate asks for the `results` envelope around its item schema. */
  function StructuredStepRequest(op: Op, data: string, prompt: string): (req: StructuredRequest)
    requires op.SchemaOp? || op.GenerateOp?
    ensures req.input == data && req.description == Some(prompt)
    ensures req.name == Some("result") && req.model == op.model
    ensures op.SchemaOp? ==> req.schema == op.target
    ensures op.GenerateOp? ==> req.schema == ResultsEnvelope(op.item)
  {
    StructuredRequest(data, if op.SchemaOp? then op.target else ResultsEnvelope(op.item), Some(prompt), Some("result"), op.model)
  }

  /** The completion request a classify step sends: the prompt as the only
      user message, temperature 0, one token at most, and the index tokens
      boosted, asking the step's captured model. */
  function ClassifyRequest(op: Op, prompt: string, env: Env): (req: ChatRequest)
    requires op.ClassifyOp?
    ensures req.model == op.model && req.messages == [Message(User, Str(prompt))]
    ensures req.temperature == Some(0) && req.maxTokens == Some(1)
    ensures req.logitBias == Some(Logit.LogitBias(env.encode, |op.labels|))
  {
    ChatRequest(op.model, [Message(User, Str(prompt))], Some(0), Some(1), Some(Logit.LogitBias(env.encode, |op.labels|)))
  }

  /** One operation applied to its input, as the operation's body does it. */
  function Apply(op: Op, x: Value, env: Env): (r: Result<Value>)
    ensures (op.SchemaOp? || op.GenerateOp? || op.ClassifyOp?) && Rendered(op, x, env).Err? ==>
      r == Err(Rendered(op, x, env).failure)
    ensures op.SchemaOp? && Rendered(op, x, env).Ok? ==>
      var (data, prompt) := Rendered(op, x, env).value;
      r == env.resolve(StructuredStepRequest(op, data, prompt))
    ensures op.GenerateOp? && Rendered(op, x, env).Ok? ==>
      var (data, prompt) := Rendered(op, x, env).value;
      var response := env.resolve(StructuredStepRequest(op, data, prompt));
      r == if response.Ok? then Property(response.value, "results") else Err(response.failure)
    ensures op.ClassifyOp? && Rendered(op, x, env).Ok? ==>
      var reply := env.complete(ClassifyRequest(op, Rendered(op, x, env).value.1, env));
      r == if reply.Ok? then Ok(ClassifyReply(op.labels, reply.value)) else Err(reply.failure)
    ensures op.ClassifyOp? && r.Ok? ==> r.value == Undefined || (r.value.Str? && r.value.s in op.labels)
    ensures op.UsesOp? && env.json(x).Err? ==> r == Err(env.json(x).failure)
    ensures op.UsesOp? && env.json(x).Ok? ==>
      var reply := env.executeTools(ToolSession(op.tools, env.json(x).value, op.instruction, op.model));
      r == if reply.Ok? then Ok(Str(reply.value)) else Err(reply.failure)
    ensures op.UsesOp? && r.Ok? ==> r.value.Str?
    ensures op.HandlerOp? ==> r == op.handler(x)
    ensures op.LogOp? && op.observer(x).None? ==> r == Ok(x)
    ensures op.LogOp? && op.observer(x).Some? ==> r == Err(op.observer(x).value)
  {
    match op
    case SchemaOp(_, _, _, _) =>
      var (data, prompt) :- Rendered(op, x, env);
      env.resolve(StructuredStepRequest(op, data, prompt))
    case GenerateOp(_, _, _, _, _) =>
      var (data, prompt) :- Rendered(op, x, env);
      var response :- env.resolve(StructuredStepRequest(op, data, prompt));
      Property(response, "results")
    case ClassifyOp(labels, _, _, _) =>
      var (_, prompt) :- Rendered(op, x, env);
      var content :- env.complete(ClassifyRequest(op, prompt, env));
      Ok(ClassifyReply(labels, content))
    case HandlerOp(handler) =>
      handler(x)
    case UsesOp(tools, instruction, model) =>
      var data :- env.json(x);
      var content :- env.executeTools(ToolSession(tools, data, instruction, model));
      Ok(Str(content))
    case LogOp(observer) =>
      match observer(x)
      case Some(failure) => Err(failure)
      case None => Ok(x)
  }

  /** In a consistent pipeline every model-backed step asks the pipeline's
      own model, whatever its step configurator set: the request a schema or
      generate step sends, the completion a classify step asks for and the
      tool session of a uses step all carry `p.config.model`. */
  lemma StepsAskPipelineModel(p: Pipeline, i: nat, data: string, prompt: string, env: Env)
    requires Consistent(p) && i < |p.ops|
    ensures (p.ops[i].SchemaOp? || p.ops[i].GenerateOp?) ==> StructuredStepRequest(p.ops[i], data, prompt).model == p.config.model
    ensures p.ops[i].ClassifyOp? ==> ClassifyRequest(p.ops[i], prompt, env).model == p.config.model
    ensures p.ops[i].UsesOp? ==> p.ops[i].model == p.config.model
  {
    assert OpModel(p.ops[i]).Some? ==> OpModel(p.ops[i]).value == p.config.model;
  }

  /** The operations applied left to right, each output the next input; the
      first failure ends the run. */
  function Fold(ops: seq<Op>, x: Value, env: Env): Result<Value>
    decreases |ops|
  {
    if ops == [] then Ok(x)
    else match Apply(ops[0], x, env)
      case Err(f) => Err(f)
      case Ok(y) => Fold(ops[1..], y, env)
  }

  /** A result followed by one more operation. */
  function Then(r: Result<Value>, op: Op, env: Env): Result<Value> {
    match r
    case Err(f) => Err(f)
    case Ok(v) => Apply(op, v, env)
  }

  /** Folding one more operation is applying it to the previous fold's result. */
  lemma {:induction false} FoldSnoc(ops: seq<Op>, op: Op, x: Value, env: Env)
    ensures Fold(ops + [op], x, env) == Then(Fold(ops, x, env), op, env)
    decreases |ops|
  {
    if ops == [] {
      assert [op][1..] == [];
    } else {
      assert (ops + [op])[0] == ops[0];
      assert (ops + [op])[1..] == ops[1..] + [op];
      match Apply(ops[0], x, env)
      case Err(f) =>
      case Ok(y) => FoldSnoc(ops[1..], op, y, env);
    }
  }

  /** Once a prefix of the operations fails, no later operation runs. */
  lemma {:induction false} FoldFailureSticks(ops: seq<Op>, rest: seq<Op>, x: Value, env: Env)
    requires Fold(ops, x, env).Err?
    ensures Fold(ops + rest, x, env) == Fold(ops, x, env)
    decreases |ops|
  {
    assert ops != [];
    assert (ops + rest)[0] == ops[0];
    assert (ops + rest)[1..] == ops[1..] + rest;
    match Apply(ops[0], x, env)
    case Err(f) =>
    case Ok(y) => FoldFailureSticks(ops[1..], rest, y, env);
  }

  /** run's input resolution: a string is coerced through processInput when
      a schema is declared (with processInput's default model) and used raw
      otherwise; any other value is parsed by the declared schema, or used
      as it is. */
  function ResolveInput(p: Pipeline, input: Value, env: Env): (r: Result<Value>)
    ensures p.inputSchema.None? ==> r == Ok(input)
    ensures p.inputSchema.Some? && input.Str? ==>
      r == env.resolve(StructuredRequest(input.s, p.inputSchema.value, None, Some("input"), DefaultModel))
    ensures p.inputSchema.Some? && !input.Str? ==> r == env.parse(p.inputSchema.value, input)
  {
    if input.Str? then
      if p.inputSchema.Some? then ProcessInput.ProcessInput(input, p.inputSchema, Some("input"), None, env.parse, env.resolve)
      else Ok(input)
    else if p.inputSchema.Some? then env.parse(p.inputSchema.value, input)
    else Ok(input)
  }

  /** The default operation's system text: the description, or the generic
      text when the description is empty. */
  function DefaultSystem(config: Config): (text: string)
    ensures config.description != "" ==> text == config.description
    ensures config.description == "" ==> text == DefaultSystemText
    ensures text != ""
  {
    if config.description != "" then config.description else DefaultSystemText
  }

  /** The one free-form call of the default operation: the pipeline's model,
      the system text, then the input as the user message, with no sampling
      settings. */
  function DefaultRequest(config: Config, input: Value): (req: ChatRequest)
    ensures req.model == config.model
    ensures req.messages == [Message(System, Str(DefaultSystem(config))), Message(User, input)]
    ensures req.temperature.None? && req.maxTokens.None? && req.logitBias.None?
  {
    ChatRequest(config.model, [Message(System, Str(DefaultSystem(config))), Message(User, input)], None, None, None)
  }

  /** The default operation of a pipeline without steps: its answer is the
      model's text, the empty text when the model gave none, and a failing
      call is the operation's failure. */
  function DefaultOperation(config: Config, input: Value, env: Env): (r: Result<Value>)
    ensures env.complete(DefaultRequest(config, input)).Err? ==>
      r == Err(env.complete(DefaultRequest(config, input)).failure)
    ensures env.complete(DefaultRequest(config, input)) == Ok(None) ==> r == Ok(Str(""))
    ensures env.complete(DefaultRequest(config, input)).Ok? && env.complete(DefaultRequest(config, input)).value.Some? ==>
      r == Ok(Str(env.complete(DefaultRequest(config, input)).value.value))
    ensures r.Ok? ==> r.value.Str?
  {
    var content :- env.complete(DefaultRequest(config, input));
    Ok(Str(content.GetOr("")))
  }

  /** What run computes. */
  function RunSpec(p: Pipeline, input: Value, env: Env): Result<Value> {
    var resolved :- ResolveInput(p, input, env);
    if |p.ops| == 0 then DefaultOperation(p.config, resolved, env)
    else Fold(p.ops, resolved, env)
  }

  /** run: resolves the input, then either makes the default call (no steps)
      or applies the steps in index order, stopping at the first failure. */
  method Run(p: Pipeline, input: Value, env: Env) returns (r: Result<Value>)
    ensures r == RunSpec(p, input, env)
  {
    var resolved := ResolveInput(p, input, env);
    if resolved.Err? {
      return resolved;
    }
    if |p.ops| == 0 {
      return DefaultOperation(p.config, resolved.value, env);
    }
    var result := resolved.value;
    var i := 0;
    while i < |p.ops|
      invariant 0 <= i <= |p.ops|
      invariant Fold(p.ops[..i], resolved.value, env) == Ok(result)
    {
      var step := Apply(p.ops[i], result, env);
      FoldSnoc(p.ops[..i], p.ops[i], resolved.value, env);
      assert p.ops[..i + 1] == p.ops[..i] + [p.ops[i]];
      if step.Err? {
        FoldFailureSticks(p.ops[..i + 1], p.ops[i + 1..], resolved.value, env);
        assert p.ops[..i + 1] + p.ops[i + 1..] == p.ops;
        return step;
      }
      result := step.value;
      i := i + 1;
    }
    assert p.ops[..i] == p.ops;
    return Ok(result);
  }

  // ---------------------------------------------------------------------
  // Properties of run

  /** Chain composition: running a pipeline with one more step is running
      the parent and feeding its result to the new step; for a parent
      without steps, the new step replaces the default call. */
  lemma RunExtended(p: Pipeline, q: Pipeline, op: Op, input: Value, env: Env)
    requires q.inputSchema == p.inputSchema && q.ops == p.ops + [op]
    ensures |p.ops| > 0 ==> RunSpec(q, input, env) == Then(RunSpec(p, input, env), op, env)
    ensures |p.ops| == 0 ==> RunSpec(q, input, env) == Then(ResolveInput(p, input, env), op, env)
  {
    match ResolveInput(p, input, env)
    case Err(_) =>
    case Ok(v) =>
      FoldSnoc(p.ops, op, v, env);
      if |p.ops| == 0 {
        assert q.ops == [op];
        assert q.ops[1..] == [];
      }
  }

  /** A log step whose observer does not throw leaves what a run returns unchanged. */
  lemma LogKeepsResult(p: Pipeline, observer: Value -> Option<Failure>, input: Value, env: Env)
    requires |p.ops| > 0
    requires forall v :: observer(v).None?
    ensures RunSpec(Log(p, observer), input, env) == RunSpec(p, input, env)
  {
    RunExtended(p, Log(p, observer), LogOp(observer), input, env);
  }

  /** An input that cannot be resolved fails the run with that failure,
      whatever the steps: no step runs. */
  lemma InputFailureStopsRun(p: Pipeline, input: Value, env: Env)
    requires ResolveInput(p, input, env).Err?
    ensures RunSpec(p, input, env) == ResolveInput(p, input, env)
    ensures forall q: Pipeline :: q.inputSchema == p.inputSchema ==> RunSpec(q, input, env) == RunSpec(p, input, env)
  {
  }

  /** A pipeline without schema or steps, given text, makes exactly the
      default call on that text. */
  lemma PlainTextRun(p: Pipeline, s: string, env: Env)
    requires p.inputSchema.None? && p.ops == []
    ensures RunSpec(p, Str(s), env) == DefaultOperation(p.config, Str(s), env)
  {
  }
}
