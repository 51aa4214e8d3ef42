/** Pipelines as tools for a tool-orchestration session
    (src/utils/createTools.ts): each pipeline becomes a descriptor with a
    name, a parameter schema, a description and an invoke callback that runs
    the pipeline on the arguments. */
module Tools {
  import opened Types
  import opened Smoke

  const NoName: string := "No name provided"
  const NoDescription: string := "No description provided"

  /** A tool descriptor; `invoke` runs `pipeline` (see Invoke). */
  datatype Tool = Tool(name: string, parameters: Schema, description: string, pipeline: Pipeline)

  /** One pipeline's descriptor: its name, else a placeholder; its input
      schema, else the default one; its description, else its instruction,
      else a placeholder, where an empty text counts as absent. */
  function Describe(p: Pipeline): (t: Tool)
    ensures t.pipeline == p
    ensures t.parameters == GetInputSchema(p)
    ensures t.name != "" && (p.config.name != "" ==> t.name == p.config.name)
    ensures p.config.name == "" ==> t.name == NoName
    ensures t.description != ""
    ensures p.config.description != "" ==> t.description == p.config.description
    ensures p.config.description == "" && p.config.instruction != "" ==> t.description == p.config.instruction
    ensures p.config.description == "" && p.config.instruction == "" ==> t.description == NoDescription
  {
    var name := if p.config.name != "" then p.config.name else NoName;
    var description :=
      if p.config.description != "" then p.config.description
      else if p.config.instruction != "" then p.config.instruction
      else NoDescription;
    Tool(name, GetInputSchema(p), description, p)
  }

  /** createTools: exactly one descriptor per pipeline, in the same order. */
  function CreateTools(pipelines: seq<Pipeline>): (tools: seq<Tool>)
    ensures |tools| == |pipelines|
    ensures forall i :: 0 <= i < |pipelines| ==> tools[i].pipeline == pipelines[i]
    ensures forall i :: 0 <= i < |pipelines| ==> tools[i] == Describe(pipelines[i])
  {
    seq(|pipelines|, i requires 0 <= i < |pipelines| => Describe(pipelines[i]))
  }

  /** A descriptor's invoke callback: it runs the descriptor's pipeline on
      the arguments. */
  method Invoke(t: Tool, args: Value, env: Env) returns (r: Result<Value>)
    ensures r == RunSpec(t.pipeline, args, env)
  {
    r := Run(t.pipeline, args, env);
  }

  /** Tool bridging: the i-th descriptor runs exactly the i-th pipeline, so
      invoking it gives what running that pipeline directly on the same
      arguments gives. It holds by construction: `CreateTools` keeps each
      pipeline in its descriptor and `Invoke` runs the descriptor's pipeline. */
  lemma InvokeRunsPipeline(pipelines: seq<Pipeline>, i: nat, args: Value, env: Env)
    requires i < |pipelines|
    ensures RunSpec(CreateTools(pipelines)[i].pipeline, args, env) == RunSpec(pipelines[i], args, env)
  {
  }
}
