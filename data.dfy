/** Turning pipeline outputs into text (src/utils/data.ts). JSON.stringify and
    String(x) are external: `json` returns the serialisation or the exception
    it threw, `display` is the String conversion used as the fallback. */
module Data {
  import opened Types

  /** outputToString: empty for null and undefined, the string itself for a
      string, otherwise the JSON text, or String(x) when serialising throws. */
  function OutputToString(v: Value, json: Value -> Result<string>, display: Value -> string): (s: string)
    ensures v.Null? || v.Undefined? ==> s == ""
    ensures v.Str? ==> s == v.s
    ensures !(v.Null? || v.Undefined? || v.Str?) && json(v).Ok? ==> s == json(v).value
    ensures !(v.Null? || v.Undefined? || v.Str?) && json(v).Err? ==> s == display(v)
  {
    if v.Null? || v.Undefined? then ""
    else if v.Str? then v.s
    else match json(v)
      case Ok(text) => text
      case Err(_) => display(v)
  }

  /** The text of every item, in order. */
  function ItemTexts(items: seq<Value>, json: Value -> Result<string>, display: Value -> string): (r: seq<string>)
    ensures |r| == |items|
    ensures forall k :: 0 <= k < |items| ==> r[k] == OutputToString(items[k], json, display)
  {
    seq(|items|, k requires 0 <= k < |items| => OutputToString(items[k], json, display))
  }

  /** prepareData: an array becomes its items' texts, one per line; anything
      else becomes its outputToString text. So the empty array is the empty
      text and a one-item array is its item's text, with no newline added. */
  function PrepareData(v: Value, json: Value -> Result<string>, display: Value -> string): (s: string)
    ensures !v.Arr? ==> s == OutputToString(v, json, display)
    ensures v == Arr([]) ==> s == ""
    ensures v.Arr? && |v.items| == 1 ==> s == OutputToString(v.items[0], json, display)
  {
    if v.Arr? then Join(ItemTexts(v.items, json, display), "\n")
    else OutputToString(v, json, display)
  }

  /** Text is left alone: converting an already converted value again changes nothing. */
  lemma OutputToStringIdempotent(v: Value, json: Value -> Result<string>, display: Value -> string)
    ensures OutputToString(Str(OutputToString(v, json, display)), json, display) == OutputToString(v, json, display)
  {
  }

  /** Splitting text at every occurrence of a separator character. */
  function Split(s: string, sep: char): (parts: seq<string>)
    ensures |parts| >= 1
    decreases |s|
  {
    if sep !in s then [s]
    else
      var i := IndexOf(s, sep);
      [s[..i]] + Split(s[i + 1..], sep)
  }

  /** The first position of `c` in `s`. */
  function IndexOf(s: string, c: char): (i: nat)
    requires c in s
    ensures i < |s| && s[i] == c && c !in s[..i]
  {
    if s[0] == c then 0
    else
      assert c in s[1..];
      1 + IndexOf(s[1..], c)
  }

  lemma {:induction false} SplitFirst(a: string, b: string, sep: char)
    requires sep !in a
    ensures Split(a + [sep] + b, sep) == [a] + Split(b, sep)
  {
    var s := a + [sep] + b;
    assert s[|a|] == sep;
    assert sep in s;
    var i := IndexOf(s, sep);
    assert i == |a|;
    assert s[..i] == a;
    assert s[i + 1..] == b;
  }

  /** Round trip of the newline join: when no item's text holds a newline,
      splitting prepareData's result at newlines gives back exactly the
      items' texts, in order (one line per item). */
  lemma {:induction false} PrepareDataLines(items: seq<Value>, json: Value -> Result<string>, display: Value -> string)
    requires |items| > 0
    requires forall k :: 0 <= k < |items| ==> '\n' !in OutputToString(items[k], json, display)
    ensures Split(PrepareData(Arr(items), json, display), '\n') == ItemTexts(items, json, display)
  {
    SplitJoin(ItemTexts(items, json, display));
  }

  lemma {:induction false} SplitJoin(xs: seq<string>)
    requires |xs| > 0
    requires forall k :: 0 <= k < |xs| ==> '\n' !in xs[k]
    ensures Split(Join(xs, "\n"), '\n') == xs
  {
    if |xs| == 1 {
    } else {
      SplitJoin(xs[1..]);
      assert Join(xs, "\n") == xs[0] + ['\n'] + Join(xs[1..], "\n");
      SplitFirst(xs[0], Join(xs[1..], "\n"), '\n');
      assert xs == [xs[0]] + xs[1..];
    }
  }
}
