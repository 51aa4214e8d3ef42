/** Per-step configuration (the Configurator class of src/smoke.ts and the
    configuration records of src/types/index.ts). A configurator callback is
    modelled by the sequence of setter calls it makes. */
module Configuration {
  import opened Types

  /** A pipeline's full configuration. */
  datatype Config = Config(
    name: string,
    logLevel: int,
    model: string,
    description: string,
    instruction: string,
    examples: seq<Example>)

  /** A configuration in which any field may be missing (`Partial<...>`). */
  datatype PartialConfig = PartialConfig(
    description: Option<string>,
    model: Option<string>,
    logLevel: Option<int>,
    instruction: Option<string>,
    examples: Option<seq<Example>>)

  const NoSettings: PartialConfig := PartialConfig(None, None, None, None, None)

  /** The log level a pipeline gets when nothing sets one. */
  const DefaultLogLevel: int := 5

  /** One call a configurator callback makes. */
  datatype Setting =
    | SetDescription(description: string)
    | SetModel(model: string)
    | SetLogLevel(level: int)
    | AddInstruction(instruction: string)
    | AddExample(input: string, output: Value)

  /** The pipeline constructor's rule: every missing field takes its default. */
  function WithDefaults(name: string, pc: PartialConfig): (c: Config)
    ensures c.name == name
    ensures pc.logLevel.Some? ==> c.logLevel == pc.logLevel.value
    ensures pc.logLevel.None? ==> c.logLevel == DefaultLogLevel
    ensures pc.model.Some? ==> c.model == pc.model.value
    ensures pc.model.None? ==> c.model == DefaultModel
    ensures pc.description.Some? ==> c.description == pc.description.value
    ensures pc.description.None? ==> c.description == ""
    ensures pc.instruction.Some? ==> c.instruction == pc.instruction.value
    ensures pc.instruction.None? ==> c.instruction == ""
    ensures pc.examples.Some? ==> c.examples == pc.examples.value
    ensures pc.examples.None? ==> c.examples == []
  {
    Config(
      name,
      pc.logLevel.GetOr(DefaultLogLevel),
      pc.model.GetOr(DefaultModel),
      pc.description.GetOr(""),
      pc.instruction.GetOr(""),
      pc.examples.GetOr([]))
  }

  /** The effect of one setter call on the configurator's state. */
  function Applied(pc: PartialConfig, s: Setting): PartialConfig {
    match s
    case SetDescription(d) => pc.(description := Some(d))
    case SetModel(m) => pc.(model := Some(m))
    case SetLogLevel(l) => pc.(logLevel := Some(l))
    case AddInstruction(i) => pc.(instruction := Some(i))
    case AddExample(input, output) => pc.(examples := Some(pc.examples.GetOr([]) + [Example(input, output)]))
  }

  /** The state after a whole callback, its calls taken in order. */
  function Replay(pc: PartialConfig, script: seq<Setting>): PartialConfig
    decreases |script|
  {
    if script == [] then pc else Replay(Applied(pc, script[0]), script[1..])
  }

  /** The value of the last call in `script` that `pick` recognises. */
  function Last<T>(script: seq<Setting>, pick: Setting -> Option<T>): Option<T>
    decreases |script|
  {
    if script == [] then None
    else if pick(script[|script| - 1]).Some? then pick(script[|script| - 1])
    else Last(script[..|script| - 1], pick)
  }

  function PickDescription(s: Setting): Option<string> {
    if s.SetDescription? then Some(s.description) else None
  }

  function PickModel(s: Setting): Option<string> {
    if s.SetModel? then Some(s.model) else None
  }

  function PickLogLevel(s: Setting): Option<int> {
    if s.SetLogLevel? then Some(s.level) else None
  }

  function PickInstruction(s: Setting): Option<string> {
    if s.AddInstruction? then Some(s.instruction) else None
  }

  /** The example pairs a callback adds, in the order it adds them. */
  function AddedExamples(script: seq<Setting>): seq<Example>
    decreases |script|
  {
    if script == [] then []
    else
      var last := script[|script| - 1];
      AddedExamples(script[..|script| - 1]) + (if last.AddExample? then [Example(last.input, last.output)] else [])
  }

  /** What the overwriting setters leave behind after `script`. */
  function Overwritten<T>(script: seq<Setting>, pick: Setting -> Option<T>, before: Option<T>): Option<T> {
    var last := Last(script, pick);
    if last.Some? then last else before
  }

  /** The examples after `script`: the earlier list extended, in order, by
      every pair the script adds; still unset when none was ever added. */
  function Extended(before: Option<seq<Example>>, added: seq<Example>): Option<seq<Example>> {
    if added == [] then before else Some(before.GetOr([]) + added)
  }

  lemma LastSnoc<T>(script: seq<Setting>, s: Setting, pick: Setting -> Option<T>)
    ensures Last(script + [s], pick) == if pick(s).Some? then pick(s) else Last(script, pick)
  {
    assert (script + [s])[..|script|] == script;
  }

  lemma AddedSnoc(script: seq<Setting>, s: Setting)
    ensures AddedExamples(script + [s]) == AddedExamples(script) + (if s.AddExample? then [Example(s.input, s.output)] else [])
  {
    assert (script + [s])[..|script|] == script;
  }

  lemma {:induction false} ReplaySnoc(pc: PartialConfig, script: seq<Setting>, s: Setting)
    ensures Replay(pc, script + [s]) == Applied(Replay(pc, script), s)
    decreases |script|
  {
    if script == [] {
      assert [s][1..] == [];
    } else {
      assert (script + [s])[1..] == script[1..] + [s];
      ReplaySnoc(Applied(pc, script[0]), script[1..], s);
    }
  }

  /** Setters overwrite (last write wins, no merging of repeated calls) and
      addExample appends: after a callback each overwritten field holds the
      value of its last setter call, or its earlier value when there was none,
      and the examples are the earlier ones followed by every added pair in
      call order. */
  lemma {:induction false} ReplayMeaning(pc: PartialConfig, script: seq<Setting>)
    ensures Replay(pc, script).description == Overwritten(script, PickDescription, pc.description)
    ensures Replay(pc, script).model == Overwritten(script, PickModel, pc.model)
    ensures Replay(pc, script).logLevel == Overwritten(script, PickLogLevel, pc.logLevel)
    ensures Replay(pc, script).instruction == Overwritten(script, PickInstruction, pc.instruction)
    ensures Replay(pc, script).examples == Extended(pc.examples, AddedExamples(script))
    decreases |script|
  {
    if script != [] {
      var init, s := script[..|script| - 1], script[|script| - 1];
      assert script == init + [s];
      ReplayMeaning(pc, init);
      ReplaySnoc(pc, init, s);
      LastSnoc(init, s, PickDescription);
      LastSnoc(init, s, PickModel);
      LastSnoc(init, s, PickLogLevel);
      LastSnoc(init, s, PickInstruction);
      AddedSnoc(init, s);
      var added := AddedExamples(init);
      if s.AddExample? {
        var ex := Example(s.input, s.output);
        assert AddedExamples(script) == added + [ex];
        if added == [] {
          assert added + [ex] == [ex];
        } else {
          assert pc.examples.GetOr([]) + added + [ex] == pc.examples.GetOr([]) + (added + [ex]);
        }
      } else {
        assert AddedExamples(script) == added + [] == added;
      }
    }
  }

  /** A mutable accumulator for one step's configuration. */
  class Configurator {
    var description: Option<string>
    var model: Option<string>
    var logLevel: Option<int>
    var instruction: Option<string>
    var examples: Option<seq<Example>>

    constructor ()
      ensures GetConfig() == NoSettings
    {
      description, model, logLevel, instruction, examples := None, None, None, None, None;
    }

    /** getConfig: the fields set so far. */
    function GetConfig(): (pc: PartialConfig)
      reads this
      ensures pc.description == description && pc.model == model && pc.logLevel == logLevel
      ensures pc.instruction == instruction && pc.examples == examples
    {
      PartialConfig(description, model, logLevel, instruction, examples)
    }

    /** getInstruction: the instruction, read as the empty text while unset. */
    function GetInstruction(): (r: string)
      reads this
      ensures instruction.None? ==> r == ""
      ensures instruction.Some? ==> r == instruction.value
    {
      instruction.GetOr("")
    }

    /** getExamples: the example pairs, read as the empty list while unset. */
    function GetExamples(): (r: seq<Example>)
      reads this
      ensures examples.None? ==> r == []
      ensures examples.Some? ==> r == examples.value
    {
      examples.GetOr([])
    }

    method SetDescription(d: string) returns (self: Configurator)
      modifies this
      ensures self == this
      ensures GetConfig() == old(GetConfig()).(description := Some(d))
    {
      description := Some(d);
      self := this;
    }

    method SetModel(m: string) returns (self: Configurator)
      modifies this
      ensures self == this
      ensures GetConfig() == old(GetConfig()).(model := Some(m))
    {
      model := Some(m);
      self := this;
    }

    method SetLogLevel(level: int) returns (self: Configurator)
      modifies this
      ensures self == this
      ensures GetConfig() == old(GetConfig()).(logLevel := Some(level))
    {
      logLevel := Some(level);
      self := this;
    }

    /** addInstruction replaces any earlier instruction. */
    method AddInstruction(i: string) returns (self: Configurator)
      modifies this
      ensures self == this
      ensures GetConfig() == old(GetConfig()).(instruction := Some(i))
    {
      instruction := Some(i);
      self := this;
    }

    /** addExample appends exactly one pair after the earlier ones. */
    method AddExample(input: string, output: Value) returns (self: Configurator)
      modifies this
      ensures self == this
      ensures GetConfig() == old(GetConfig()).(examples := Some(old(GetExamples()) + [Example(input, output)]))
      ensures GetExamples() == old(GetExamples()) + [Example(input, output)]
    {
      if examples.None? {
        examples := Some([]);
      }
      examples := Some(examples.value + [Example(input, output)]);
      self := this;
    }

    /** One call of a callback. */
    method Perform(s: Setting)
      modifies this
      ensures GetConfig() == Applied(old(GetConfig()), s)
    {
      var self: Configurator;
      match s
      case SetDescription(d) => self := SetDescription(d);
      case SetModel(m) => self := SetModel(m);
      case SetLogLevel(l) => self := SetLogLevel(l);
      case AddInstruction(i) => self := AddInstruction(i);
      case AddExample(input, output) => self := AddExample(input, output);
    }

    /** Running a whole callback against this configurator. */
    method Configure(script: seq<Setting>)
      modifies this
      ensures GetConfig() == Replay(old(GetConfig()), script)
    {
      var i := 0;
      while i < |script|
        invariant 0 <= i <= |script|
        invariant Replay(GetConfig(), script[i..]) == Replay(old(GetConfig()), script)
      {
        assert script[i..][1..] == script[i + 1..];
        Perform(script[i]);
        i := i + 1;
      }
    }
  }
}
