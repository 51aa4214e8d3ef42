# A verified model of the cigs pipeline core

cigs builds typed pipelines of steps. Several kinds of step delegate their work to a
language model. A pipeline (`ChainSmoker`) holds:

- a name;
- an optional Zod input schema;
- a configuration: log level, model, description, instruction and few-shot examples;
- an append-only list of operations.

The `cig` factory creates a pipeline. The builders `schema`, `generate`, `classify`,
`handler`, `uses` and `log` each return a new pipeline with one more operation. Each
builder's optional callback configures a fresh per-step `Configurator`. `run` resolves
the caller's input, then either makes a default free-form model call (when there are no
steps) or threads the value through the steps in order.

This project models that skeleton in Dafny and proves its rules. Every collaborator that
talks to the model provider is opaque. So are Zod parsing, JSON serialisation, the
prompt templates and the tokenizer. They are the function-typed fields of `Smoke.Env`,
or plain function parameters in the lower modules. Each one that can throw in the
source returns a `Result` and may fail. The tokenizer (`encode`) and the `String(x)`
fallback of `outputToString` are total functions.

- `types.dfy` (`Types`): JavaScript values, schemas as shapes, example pairs, failures, a
  `Result` type, `Array.prototype.join`.
- `configurator.dfy` (`Configuration`): the `Configurator` class with mutable fields. A
  callback is modelled as the sequence of setter calls it makes. `Replay` is the meaning
  of such a sequence.
- `smoke.dfy` (`Smoke`): the `Op` sum type and the `Pipeline` value, the `cig` factory,
  the six builders, `parseInt` and the classify lookup, `Apply`, and `run`. `run` is a
  loop proved equal to `RunSpec`.
- `processinput.dfy` (`ProcessInput`): the three-way input coercion and its error
  messages.
- `tools.dfy` (`Tools`): pipelines as tool descriptors.
- `data.dfy` (`Data`): `outputToString` and `prepareData`.
- `logit.dfy` (`Logit`): the loop that builds the logit-bias record.

Behaviours of the code worth knowing:

- With no steps, `run` always makes the default model call and returns its text. It does
  not return the validated input unchanged (src/smoke.ts:405-408).
- The `uses` step gives the tool session the step configurator's instruction, not the
  parent's (src/smoke.ts:340).
- `outputSchema` is never derived from the last step. The constructor sets it to the
  input schema, and nothing reads it (src/smoke.ts:111).
- Coercing a string input calls `processInput` without options. So the resolver is asked
  with the default model, not the pipeline's model (src/smoke.ts:395,
  src/utils/processInput.ts:42).

## Model

| member | source | states |
|---|---|---|
| `Configuration.Configurator.constructor` | src/smoke.ts:15 | A new configurator has no field set. |
| `Configuration.Configurator.SetDescription` | src/smoke.ts:23-26 | Overwrites the description and nothing else; returns the configurator itself. |
| `Configuration.Configurator.SetModel` | src/smoke.ts:34-37 | Overwrites the model and nothing else; returns the configurator itself. |
| `Configuration.Configurator.SetLogLevel` | src/smoke.ts:45-48 | Overwrites the log level and nothing else; returns the configurator itself. |
| `Configuration.Configurator.AddInstruction` | src/smoke.ts:56-59 | Replaces any earlier instruction (no merging); nothing else changes. |
| `Configuration.Configurator.AddExample` | src/smoke.ts:68-74 | Appends exactly one `{input, output}` pair after the earlier pairs, creating the list when it was unset. |
| `Configuration.Configurator.GetConfig` | src/smoke.ts:76-78 | Returns the settings made so far. A field no setter touched is absent. |
| `Configuration.WithDefaults` | src/smoke.ts:112-119 | The constructor's rule, field by field: a given log level, model, description, instruction or examples is kept, and a missing one becomes 5, `gpt-4o-2024-08-06`, empty, empty or the empty list. The name is the argument. |
| `Configuration.Configurator.GetInstruction` | src/smoke.ts:80-82 | An unset instruction reads as the empty text. |
| `Configuration.Configurator.GetExamples` | src/smoke.ts:84-86 | Unset examples read as the empty list. |
| `Configuration.Configurator.Perform` | src/smoke.ts:23-74 | One setter call changes the state as `Applied` says. |
| `Configuration.Configurator.Configure` | src/smoke.ts:145-148 | Running a callback against a configurator leaves the state `Replay` gives. |
| `Configuration.ReplayMeaning` | src/smoke.ts:23-74 | Last write wins for description, model, log level and instruction. An unset field keeps its earlier value. The examples are the earlier ones followed by every added pair, in call order. |
| `Smoke.NewPipeline` | src/smoke.ts:109-121 | A new pipeline has no operations, the given input schema, and the configuration `WithDefaults` gives. Every new pipeline is model-consistent. |
| `Smoke.GetInputSchema` | src/smoke.ts:128-131 | The declared schema, or the `{input: string}` object schema when none is declared. |
| `Smoke.Cig` | src/smoke.ts:472-493 | A schema in second place becomes the input schema. A callback there is the configurator and leaves no schema; it replaces a third argument. No operations, the given name, configurator settings with constructor defaults, and a consistent model. |
| `Smoke.CigDefaults` | src/smoke.ts:109-119 | Without settings the configuration is log level 5, model `gpt-4o-2024-08-06`, and empty description, instruction and examples. |
| `Smoke.SchemaStep` | src/smoke.ts:141-182 | Same schema. Operations are the parent's plus one schema step. The step has the callback's instruction and examples and the parent's model, so a `setModel` in the step callback has no effect. Config is the parent's with instruction and examples replaced. Model consistency is kept. |
| `Smoke.Generate` | src/smoke.ts:193-233 | As `SchemaStep`, for one generate step with its item schema and count. |
| `Smoke.Classify` | src/smoke.ts:254-294 | As `SchemaStep`, for one classify step with its labels. |
| `Smoke.Uses` | src/smoke.ts:327-358 | As `SchemaStep`, for one tool step over the given sub-pipelines. |
| `Smoke.Handler` | src/smoke.ts:303-318 | Operations are the parent's plus one handler step. Same schema and the parent's config unchanged. |
| `Smoke.Log` | src/smoke.ts:366-379 | Operations are the parent's plus one log step. Same schema and the parent's config unchanged. |
| `Smoke.StepConfigMeaning` | src/smoke.ts:174-178 | A step's instruction is the callback's last `addInstruction` (or empty). Its examples are all added pairs in order. |
| `Smoke.ClassifyReply` | src/smoke.ts:280-281 | The reply, or `"0"` when it is missing or empty, is read by `parseInt` as an index. The answer is always a label or undefined, never other text. |
| `Smoke.ParseInt` | src/smoke.ts:280 | `parseInt(s, 10)`: a text with no digit at all is NaN. A negative result needs a `-` sign after the leading white space. |
| `Smoke.ParseIntOfDecimal` | src/smoke.ts:280 | `parseInt` reads back exactly the index whose decimal text it gets. |
| `Smoke.ClassifyReplyCases` | src/smoke.ts:280-281 | An in-range index token names its label. An out-of-range index gives undefined. A missing or empty reply means label 0. |
| `Smoke.Apply` | src/smoke.ts:150-370 | A failure to serialise the input or render the prompt is the step's failure. A schema step's result is the resolver's answer to the request for its target schema: named `result`, with the prompt, and asking the step's captured model. A generate step asks the same way for the `results` envelope and returns `response.results`. A classify step sends one user message with temperature 0, at most one token and the index-token bias, and yields a label or undefined. A uses step hands the data, the step's instruction and the model to the tool session, and yields its text. A handler step is its handler's result. A log step returns its input unchanged, or fails exactly when its observer throws. |
| `Smoke.StepsAskPipelineModel` | src/smoke.ts:162-344 | In a model-consistent pipeline, every request a schema, generate, classify or uses step sends carries the pipeline's model. A `setModel` in a step callback never reaches the request. |
| `Smoke.Property` | src/smoke.ts:220 | `response.results`: reading a property of null or undefined throws. An object gives the field, and a missing field or a non-object gives undefined. |
| `Smoke.ResolveInput` | src/smoke.ts:392-403 | With a schema, a string goes to the resolver as name `input` with the default model. Without one, a string is used raw. A non-string is parsed by the declared schema, or used as it is. |
| `Smoke.DefaultSystem` | src/smoke.ts:240 | The system text is the description, or `Process the following input.` when the description is empty. |
| `Smoke.DefaultOperation` | src/smoke.ts:235-245 | The default call sends the pipeline's model, the system text and then the input as the user message (`DefaultRequest`). A failing call is the failure. Its result is the answer's text, and the empty text when there is no content. |
| `Smoke.Run` | src/smoke.ts:387-418 | `run` computes `RunSpec`: resolve the input, then the default call for zero steps, else the steps left to right. It stops at the first failure. |
| `Smoke.FoldFailureSticks` | src/smoke.ts:410-415 | Once a step fails, no later step runs and the failure is the result. |
| `Smoke.RunExtended` | src/smoke.ts:405-417 | Chain composition: running a pipeline with one more step equals running the parent, then the new step on its result. For a parent without steps, the new step replaces the default call. |
| `Smoke.LogKeepsResult` | src/smoke.ts:366-370 | A log step whose observer does not throw leaves the run's result unchanged. |
| `Smoke.InputFailureStopsRun` | src/smoke.ts:392-403 | If input resolution fails, the run fails with that failure, whatever the steps. |
| `Smoke.PlainTextRun` | src/smoke.ts:405-408 | A pipeline with no schema and no steps, given text, makes exactly the default call on it. |
| `ProcessInput.ProcessInput` | src/utils/processInput.ts:36-60 | Without a schema, the input is returned and no collaborator is asked. A string goes to the resolver with the options' model (default `gpt-4o-2024-08-06`). Valid data gives the parse result. A validation failure throws exactly `Invalid input format: ` plus the field messages joined by `, `. Any other parse failure throws exactly `Invalid input format`. |
| `ProcessInput.ValidationMessageListsEveryField` | src/utils/processInput.ts:55-57 | A validation failure throws exactly `Invalid input format: ` plus the field messages joined by `, `. Every field message occurs in it, not only the first. |
| `ProcessInput.ValidInputUnchanged` | src/utils/processInput.ts:52-53 | Data the schema parses to itself comes back unchanged. |
| `Tools.Describe` | src/utils/createTools.ts:17-24 | The name is the pipeline's, or `No name provided` when that is empty. Parameters are its input schema. The description is its description, else its instruction, else `No description provided`; empty texts fall through. |
| `Tools.CreateTools` | src/utils/createTools.ts:16-26 | Exactly one descriptor per pipeline, in the same order. |
| `Tools.Invoke` | src/utils/createTools.ts:22 | The invoke callback runs the descriptor's pipeline on the arguments, with the result `RunSpec` gives. |
| `Tools.InvokeRunsPipeline` | src/utils/createTools.ts:16-22 | The i-th descriptor runs exactly the i-th pipeline, so invoking it equals running that pipeline directly. |
| `Data.OutputToString` | src/utils/data.ts:60-72 | Null and undefined give the empty text. A string is itself. Anything else gives its JSON text, or `String(x)` when serialising throws. |
| `Data.OutputToStringIdempotent` | src/utils/data.ts:64-66 | Converting an already converted value changes nothing. |
| `Data.ItemTexts` | src/utils/data.ts:27 | One text per item, in order. |
| `Data.PrepareData` | src/utils/data.ts:25-30 | A non-array gives its `outputToString` text. An empty array gives the empty text. A one-item array gives its item's text. |
| `Data.PrepareDataLines` | src/utils/data.ts:26-28 | If no item's text has a newline, splitting the result at newlines gives back the items' texts in order. |
| `Logit.Decimal` | src/utils/logit.ts:27 | `index.toString()` is a non-empty run of digits with no leading zero. |
| `Logit.KeyOf` | src/utils/logit.ts:27 | The key is the first token of the index's decimal text, or `undefined` when that text has no token. |
| `Logit.LogitBias` | src/utils/logit.ts:25-29 | No labels give the empty record. After index `n-1` writes, its key holds 100 (a later write wins). |
| `Logit.LogitBiasContents` | src/utils/logit.ts:25-30 | The keys are exactly the first tokens of the indices `0 .. n-1`, and every value is 100. |
| `Logit.LogitBiasSize` | src/utils/logit.ts:26-28 | Colliding tokens overwrite, so there are never more keys than labels. |
| `Logit.CreateLogitBias` | src/utils/logit.ts:22-31 | The loop builds the record for the number of labels. It depends only on that number, never on label text. Keys are the index tokens, values are 100, at most one key per label, and the record is empty for no labels. |

## Left out

- All I/O is left out: the OpenAI client, getStructuredResponse, the executeTools
  session, Zod parsing, JSON.stringify, String(x), the prompt templates
  (src/prompts/*.ts) and gpt-tokenizer's `encode`. They are opaque functions. Those that
  can throw may fail in the model; `encode` and `String(x)` are total. Model answers,
  label choice and the length of a generated array are not modelled.
- Smoke.Apply: each step serialises its input once. The source calls JSON.stringify
  twice in schema and generate steps, and the model assumes both calls give the same
  text.
- processToolOutput.ts is not part of this model: the pipeline never uses it.
- tslog logging in the builders and in `run`, and the logger's `minLevel`, are left
  out: they are side effects only.
- async/await is left out: every `await` is a sequential call. No concurrency is
  modelled.
- `outputSchema` is not modelled: nothing reads it.
- The `instanceof ZodType` / `typeof === 'function'` test in `cig` is a tagged
  `SecondArgument`.
- Smoke.SchemaStep, Smoke.Generate, Smoke.Classify, Smoke.Uses: the step captures the
  configurator's instruction and examples when the step is built. The source reads the
  live configurator each time the step runs. A callback that keeps its configurator and
  changes it later would change the step in the source, not in the model.
- Smoke.Cig, Smoke.SchemaStep, Smoke.Generate, Smoke.Classify, Smoke.Uses: a
  configurator callback is the list of setter calls it makes, so it cannot throw. In
  the source, a callback that throws makes the factory or the builder throw; here they
  always return a pipeline.
- Smoke.Handler, Smoke.Log, Smoke.Apply: a handler and a log observer are pure
  functions of the value. Their side effects and any state they keep across calls are
  not modelled. So "the observer is called once per run" cannot be stated. The model
  only shows that each log step applies its observer to the one value reaching it.
- Smoke.Cig: the pipeline's configuration copies the configurator's example list. In the
  source it shares the same array, so later `addExample` calls on a kept configurator
  would show through.
- Smoke.Apply: the model passes the step's captured model rather than reading the
  parent's `config` at run time. The two are equal because the library never changes a
  pipeline's configuration after construction (see `Smoke.Consistent`). Direct writes to
  the public `config` field are not modelled.
- Smoke.Apply: `JSON.stringify(undefined)` returns `undefined`, not text. The model
  treats serialisation as giving text or failing.
- Smoke.IsWhiteSpace: `parseInt` skips all Unicode space separators. The model lists
  ASCII white space, NBSP, BOM and the line and paragraph separators only.
- Numbers are integers. JavaScript floating point, and the fractional indices that
  `parseInt` never produces, are not modelled.
- `generate` with a non-positive count is passed through as the source does. The array
  length the model returns is not checked, in the source or here.
