/**
 * The JSON writer's output, seen as the sequence of writer calls it received:
 * object open and close, the `,` separator, a key, a string value and a number
 * value (the object syntax of RFC 8259, section 4). Escaping and number
 * formatting happen inside the writer and are not modelled.
 */
module JsonTokens {
  import opened Base

  datatype Token =
    | OpenObj
    | CloseObj
    | Sep
    | Key(name: string)
    | Str(text: string)
    | Num(value: F64)

  /** Objects opened minus objects closed. */
  function Depth(t: seq<Token>): int
  {
    if |t| == 0 then 0 else Depth(t[..|t| - 1]) + Delta(t[|t| - 1])
  }

  /** How much one token changes the depth. */
  function Delta(tok: Token): int
  {
    if tok == OpenObj then 1 else if tok == CloseObj then -1 else 0
  }

  /** The tokens that can end a `key: value` member. */
  predicate EndsEntry(tok: Token)
  {
    tok.Str? || tok.Num? || tok.CloseObj?
  }

  /** A separator, written only when one is needed. */
  function SeparatorIf(needed: bool): (t: seq<Token>)
    ensures |t| <= 1 && (t == [Sep] <==> needed)
  {
    if needed then [Sep] else []
  }

  /**
   * Every separator stands between two members: right after the end of one and
   * right before the key of the next. So there is no leading, trailing or
   * doubled comma, neither at top level nor inside a group.
   */
  ghost predicate SeparatorsBetweenEntries(t: seq<Token>)
  {
    forall i :: SepAt(t, i) ==> 0 < i < |t| - 1 && EndsEntry(t[i - 1]) && t[i + 1].Key?
  }

  /** `t` holds a separator at position `i`. */
  predicate SepAt(t: seq<Token>, i: int)
  {
    0 <= i < |t| && t[i] == Sep
  }

  /** The tokens that can follow a key: a string, a number, or a nested object. */
  predicate IsValue(tok: Token)
  {
    tok.Str? || tok.Num? || tok.OpenObj?
  }

  /** `t` holds a key at position `i`. */
  predicate KeyAt(t: seq<Token>, i: int)
  {
    0 <= i < |t| && t[i].Key?
  }

  /** `t` holds a value at position `i`, other than at its very start. */
  predicate ValueAt(t: seq<Token>, i: int)
  {
    0 < i < |t| && IsValue(t[i])
  }

  /**
   * Keys and values alternate: every key is followed by its value, and every
   * value (a nested object's `{` included) follows its key. So there is no key
   * without a value, no value without a key, and no object directly inside another.
   */
  ghost predicate KeysPaired(t: seq<Token>)
  {
    && (forall i :: KeyAt(t, i) ==> i + 1 < |t| && IsValue(t[i + 1]))
    && (forall i :: ValueAt(t, i) ==> t[i - 1].Key?)
  }

  /** Every prefix of `t` has a depth between `lo` and `hi`. */
  ghost predicate DepthBetween(t: seq<Token>, lo: int, hi: int)
  {
    forall k :: 0 <= k <= |t| ==> lo <= Depth(t[..k]) <= hi
  }

  lemma SeparatorsConcat(a: seq<Token>, b: seq<Token>)
    requires SeparatorsBetweenEntries(a) && SeparatorsBetweenEntries(b)
    ensures SeparatorsBetweenEntries(a + b)
  {
    forall i | SepAt(a + b, i)
      ensures 0 < i < |a + b| - 1 && EndsEntry((a + b)[i - 1]) && (a + b)[i + 1].Key?
    {
      if i >= |a| {
        assert SepAt(b, i - |a|);
      } else {
        assert SepAt(a, i);
      }
    }
  }

  /** Two runs of members glued with a separator keep every separator between members. */
  lemma SeparatorBetween(a: seq<Token>, b: seq<Token>)
    requires SeparatorsBetweenEntries(a) && SeparatorsBetweenEntries(b)
    requires |a| > 0 && EndsEntry(a[|a| - 1])
    requires |b| > 0 && b[0].Key?
    ensures SeparatorsBetweenEntries(a + [Sep] + b)
  {
    var t := a + [Sep] + b;
    forall i | SepAt(t, i)
      ensures 0 < i < |t| - 1 && EndsEntry(t[i - 1]) && t[i + 1].Key?
    {
      if i > |a| {
        assert SepAt(b, i - |a| - 1);
      } else if i < |a| {
        assert SepAt(a, i);
      }
    }
  }

  /** Key-value pairing survives concatenation when the second part does not start with a value. */
  lemma KeysPairedConcat(a: seq<Token>, b: seq<Token>)
    requires KeysPaired(a) && KeysPaired(b)
    requires |a| > 0 && |b| > 0 ==> !IsValue(b[0])
    ensures KeysPaired(a + b)
  {
    var t := a + b;
    forall i | KeyAt(t, i) ensures i + 1 < |t| && IsValue(t[i + 1]) {
      if i >= |a| {
        assert KeyAt(b, i - |a|);
      } else {
        assert KeyAt(a, i);
      }
    }
    forall i | ValueAt(t, i) ensures t[i - 1].Key? {
      if i > |a| {
        assert ValueAt(b, i - |a|);
      } else if i < |a| {
        assert ValueAt(a, i);
      }
    }
  }

  /** Depth is additive over concatenation. */
  lemma {:induction false} DepthConcat(a: seq<Token>, b: seq<Token>)
    ensures Depth(a + b) == Depth(a) + Depth(b)
    decreases |b|
  {
    if |b| == 0 {
      assert a + b == a;
    } else {
      var front := b[..|b| - 1];
      assert (a + b)[..|a + b| - 1] == a + front;
      DepthConcat(a, front);
    }
  }

  /** The prefix depths of a concatenation: those of `a`, then those of `b` shifted by `Depth(a)`. */
  lemma DepthBetweenConcat(a: seq<Token>, b: seq<Token>, lo: int, hi: int)
    requires DepthBetween(a, lo, hi)
    requires DepthBetween(b, lo - Depth(a), hi - Depth(a))
    ensures DepthBetween(a + b, lo, hi)
  {
    forall k | 0 <= k <= |a + b|
      ensures lo <= Depth((a + b)[..k]) <= hi
    {
      if k <= |a| {
        assert (a + b)[..k] == a[..k];
      } else {
        assert (a + b)[..k] == a + b[..k - |a|];
        assert a[..|a|] == a;
        DepthConcat(a, b[..k - |a|]);
      }
    }
  }

  /** Two tokens move the depth by the sum of their `Delta`s. */
  lemma DepthPair(first: Token, second: Token)
    ensures Depth([first, second]) == Delta(first) + Delta(second)
  {
    assert [first][..0] == [];
    assert Depth([first]) == Delta(first);
    assert [first, second][..1] == [first];
  }

  /** A single token moves the depth by its `Delta`. */
  lemma OneToken(tok: Token, lo: int, hi: int)
    requires lo <= 0 <= hi && lo <= Delta(tok) <= hi
    ensures Depth([tok]) == Delta(tok)
    ensures DepthBetween([tok], lo, hi)
  {
    assert [tok][..0] == [] && [tok][..1] == [tok];
    assert [tok][..|[tok]| - 1] == [];
  }
}
