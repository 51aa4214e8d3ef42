/** Values, schemas and failures shared by every part of the pipeline library
    (the declarations of src/types/index.ts plus the JavaScript values the
    library passes around). */
module Types {

  /** The conventional optional value (`undefined` / `null` in the source). */
  datatype Option<+T> = None | Some(value: T) {
    function GetOr(default: T): T {
      match this
      case Some(v) => v
      case None => default
    }
  }

  /** A JavaScript value as far as the pipeline can observe it. Numbers are
      modelled as integers; objects map their keys to values. */
  datatype Value =
    | Undefined
    | Null
    | Bool(b: bool)
    | Num(n: int)
    | Str(s: string)
    | Arr(items: seq<Value>)
    | Obj(fields: map<string, Value>)

  /** A Zod schema, as a description of its shape. Parsing against it is done
      by an external collaborator; `Declared` stands for any schema a caller
      builds that the pipeline never inspects. */
  datatype Schema =
    | StringSchema
    | ArraySchema(item: Schema)
    | ObjectSchema(fields: seq<(string, Schema)>)
    | Declared(id: nat)

  /** One few-shot demonstration: an input text and the output expected for it. */
  datatype Example = Example(input: string, output: Value)

  /** What a thrown exception carries: a Zod validation error listing one
      message per failing field, or any other error with its message. */
  datatype Failure =
    | ZodError(messages: seq<string>)
    | Error(message: string)

  /** Either a value or the exception that replaced it. */
  datatype Result<+T> = Ok(value: T) | Err(failure: Failure) {
    predicate IsFailure() {
      Err?
    }

    function PropagateFailure<U>(): Result<U>
      requires Err?
    {
      Err(failure)
    }

    function Extract(): T
      requires Ok?
    {
      value
    }
  }

  /** The model identifier used whenever a configuration does not name one. */
  const DefaultModel: string := "gpt-4o-2024-08-06"

  /** A request to getStructuredResponse: free text to turn into a value of
      `schema`, with an optional system description, an optional result name
      and the model to ask. */
  datatype StructuredRequest = StructuredRequest(
    input: string,
    schema: Schema,
    description: Option<string>,
    name: Option<string>,
    model: string)

  /** `Array.prototype.join`: the strings with `sep` between neighbours. */
  function Join(xs: seq<string>, sep: string): (r: string)
    ensures xs == [] ==> r == ""
    ensures |xs| == 1 ==> r == xs[0]
  {
    if xs == [] then ""
    else if |xs| == 1 then xs[0]
    else xs[0] + sep + Join(xs[1..], sep)
  }

  /** `t` occurs in `s` at offset `at`. */
  predicate OccursAt(t: string, s: string, at: nat) {
    at + |t| <= |s| && s[at..at + |t|] == t
  }

  /** Every joined string occurs in the joined text, at the offset of the
      pieces before it: none is lost and each keeps its place. */
  lemma {:induction false} JoinContains(xs: seq<string>, sep: string, k: nat)
    requires k < |xs|
    ensures exists at: nat :: OccursAt(xs[k], Join(xs, sep), at)
  {
    if |xs| == 1 {
      assert OccursAt(xs[0], Join(xs, sep), 0);
    } else if k == 0 {
      assert Join(xs, sep) == xs[0] + (sep + Join(xs[1..], sep));
      assert OccursAt(xs[0], Join(xs, sep), 0);
    } else {
      JoinContains(xs[1..], sep, k - 1);
      var at: nat :| OccursAt(xs[1..][k - 1], Join(xs[1..], sep), at);
      var prefix := xs[0] + sep;
      var whole := Join(xs, sep);
      assert whole == prefix + Join(xs[1..], sep);
      var off := |prefix| + at;
      assert whole[off..off + |xs[k]|] == Join(xs[1..], sep)[at..at + |xs[k]|];
      assert OccursAt(xs[k], whole, off);
    }
  }
}
