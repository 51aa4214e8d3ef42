/** Coercing a caller's input into a schema's type (src/utils/processInput.ts).
    Two collaborators are external: `parse` is the schema's own parse method
    (its value, or the exception it throws), `resolve` is getStructuredResponse,
    which asks the model to turn free text into a value of the schema. */
module ProcessInput {
  import opened Types

  /** The fixed beginning of every message processInput throws itself. */
  const InvalidFormat: string := "Invalid input format"

  /** processInput: without a schema the input is returned as it is and no
      collaborator is asked; a string is handed to the resolver with the
      options' model (the default one when none is given); anything else is
      parsed, and a parse failure is replaced by an error naming every failing
      field's message, or by the bare format error when it was not a
      validation failure. */
  function ProcessInput(
    input: Value,
    inputSchema: Option<Schema>,
    name: Option<string>,
    model: Option<string>,
    parse: (Schema, Value) -> Result<Value>,
    resolve: StructuredRequest -> Result<Value>): (r: Result<Value>)
    ensures inputSchema.None? ==> r == Ok(input)
    ensures inputSchema.Some? && input.Str? ==>
      r == resolve(StructuredRequest(input.s, inputSchema.value, None, name, model.GetOr(DefaultModel)))
    ensures inputSchema.Some? && !input.Str? && parse(inputSchema.value, input).Ok? ==>
      r == parse(inputSchema.value, input)
    ensures inputSchema.Some? && !input.Str? && parse(inputSchema.value, input).Err? ==>
      r.Err? && r.failure.Error? && InvalidFormat <= r.failure.message
    ensures inputSchema.Some? && !input.Str? && parse(inputSchema.value, input).Err? && parse(inputSchema.value, input).failure.ZodError? ==>
      r == Err(Error(InvalidFormat + ": " + Join(parse(inputSchema.value, input).failure.messages, ", ")))
    ensures inputSchema.Some? && !input.Str? && parse(inputSchema.value, input).Err? && parse(inputSchema.value, input).failure.Error? ==>
      r == Err(Error(InvalidFormat))
  {
    if inputSchema.None? then Ok(input)
    else if input.Str? then
      resolve(StructuredRequest(input.s, inputSchema.value, None, name, model.GetOr(DefaultModel)))
    else
      match parse(inputSchema.value, input)
      case Ok(v) => Ok(v)
      case Err(ZodError(messages)) => Err(Error(InvalidFormat + ": " + Join(messages, ", ")))
      case Err(Error(_)) => Err(Error(InvalidFormat))
  }

  /** A validation failure is reported in full: the thrown message is the
      format error followed by every field message, and each field message
      can be found in it, not only the first. */
  lemma ValidationMessageListsEveryField(
    input: Value, schema: Schema, name: Option<string>, model: Option<string>,
    parse: (Schema, Value) -> Result<Value>, resolve: StructuredRequest -> Result<Value>,
    messages: seq<string>, k: nat)
    requires !input.Str?
    requires parse(schema, input) == Err(ZodError(messages))
    requires k < |messages|
    ensures ProcessInput(input, Some(schema), name, model, parse, resolve)
      == Err(Error(InvalidFormat + ": " + Join(messages, ", ")))
    ensures exists at: nat :: OccursAt(messages[k], ProcessInput(input, Some(schema), name, model, parse, resolve).failure.message, at)
  {
    var r := ProcessInput(input, Some(schema), name, model, parse, resolve);
    var joined := Join(messages, ", ");
    assert r == Err(Error(InvalidFormat + ": " + joined));
    JoinContains(messages, ", ", k);
    var at: nat :| OccursAt(messages[k], joined, at);
    OccursAfterPrefix(messages[k], InvalidFormat + ": ", joined, at);
  }

  lemma OccursAfterPrefix(t: string, prefix: string, s: string, at: nat)
    requires OccursAt(t, s, at)
    ensures OccursAt(t, prefix + s, |prefix| + at)
  {
    assert (prefix + s)[|prefix| + at..|prefix| + at + |t|] == s[at..at + |t|];
  }

  /** Data that already satisfies the schema comes back unchanged. */
  lemma ValidInputUnchanged(
    input: Value, schema: Schema, name: Option<string>, model: Option<string>,
    parse: (Schema, Value) -> Result<Value>, resolve: StructuredRequest -> Result<Value>)
    requires !input.Str?
    requires parse(schema, input) == Ok(input)
    ensures ProcessInput(input, Some(schema), name, model, parse, resolve) == Ok(input)
  {
  }
}
