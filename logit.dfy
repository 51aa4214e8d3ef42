/** The decoding bias that steers a classification reply towards an index
    token (src/utils/logit.ts). The tokenizer is external: `encode` turns a
    text into its token ids. */
module Logit {

  /** A key of the bias record: the first token of an index's decimal text,
      or the key `undefined` when that text encodes to no token at all. */
  datatype BiasKey = TokenKey(token: nat) | NoToken

  /** The bias the library gives every index token. */
  const Boost: int := 100

  function DigitChar(d: nat): (c: char)
    requires d < 10
    ensures '0' <= c <= '9'
  {
    "0123456789"[d]
  }

  /** `n.toString()` for a non-negative integer: its decimal digits, most
      significant first, with no leading zero. */
  function Decimal(n: nat): (s: string)
    ensures |s| > 0
    ensures forall k :: 0 <= k < |s| ==> '0' <= s[k] <= '9'
    ensures n > 0 ==> s[0] != '0'
  {
    if n < 10 then [DigitChar(n)]
    else Decimal(n / 10) + [DigitChar(n % 10)]
  }

  /** The key index `i` writes into the bias record. */
  function KeyOf(encode: string -> seq<nat>, i: nat): (k: BiasKey)
    ensures |encode(Decimal(i))| > 0 ==> k == TokenKey(encode(Decimal(i))[0])
    ensures encode(Decimal(i)) == [] ==> k == NoToken
  {
    var tokens := encode(Decimal(i));
    if |tokens| > 0 then TokenKey(tokens[0]) else NoToken
  }

  /** The record after the first `n` indices have written their keys, each
      later write overwriting an equal earlier key. */
  function LogitBias(encode: string -> seq<nat>, n: nat): (bias: map<BiasKey, int>)
    ensures n == 0 ==> bias == map[]
    ensures n > 0 ==> KeyOf(encode, n - 1) in bias && bias[KeyOf(encode, n - 1)] == Boost
  {
    if n == 0 then map[]
    else LogitBias(encode, n - 1)[KeyOf(encode, n - 1) := Boost]
  }

  /** What the record is: its keys are exactly the keys of the indices
      0 .. n-1, and each of them carries the value 100. */
  lemma {:induction false} LogitBiasContents(encode: string -> seq<nat>, n: nat)
    ensures LogitBias(encode, n).Keys == set i | 0 <= i < n :: KeyOf(encode, i)
    ensures forall k :: k in LogitBias(encode, n) ==> LogitBias(encode, n)[k] == Boost
  {
    if n > 0 {
      LogitBiasContents(encode, n - 1);
      var before := set i | 0 <= i < n - 1 :: KeyOf(encode, i);
      var after := set i | 0 <= i < n :: KeyOf(encode, i);
      assert after == before + {KeyOf(encode, n - 1)} by {
        forall k | k in after ensures k in before + {KeyOf(encode, n - 1)} {
          var i :| 0 <= i < n && k == KeyOf(encode, i);
          if i < n - 1 { assert k in before; }
        }
      }
    }
  }

  /** Colliding tokens overwrite each other, so there are never more keys than labels. */
  lemma {:induction false} LogitBiasSize(encode: string -> seq<nat>, n: nat)
    ensures |LogitBias(encode, n)| <= n
  {
    if n > 0 {
      LogitBiasSize(encode, n - 1);
      var m := LogitBias(encode, n - 1);
      var k := KeyOf(encode, n - 1);
      assert m[k := Boost].Keys == m.Keys + {k};
      assert |m.Keys + {k}| <= |m.Keys| + |{k}|;
    }
  }

  /** createLogitBias: fills an initially empty record, label index by label
      index, with the index's first token mapped to 100. Only the number of
      labels matters, never their text. */
  method CreateLogitBias<L>(labels: seq<L>, encode: string -> seq<nat>) returns (bias: map<BiasKey, int>)
    ensures bias == LogitBias(encode, |labels|)
    ensures bias.Keys == set i | 0 <= i < |labels| :: KeyOf(encode, i)
    ensures forall k :: k in bias ==> bias[k] == Boost
    ensures |bias| <= |labels|
    ensures labels == [] ==> bias == map[]
  {
    bias := map[];
    var index := 0;
    while index < |labels|
      invariant 0 <= index <= |labels|
      invariant bias == LogitBias(encode, index)
    {
      bias := bias[KeyOf(encode, index) := Boost];
      index := index + 1;
    }
    LogitBiasContents(encode, |labels|);
    LogitBiasSize(encode, |labels|);
  }
}
