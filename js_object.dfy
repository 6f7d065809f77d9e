/**
  The own properties of a JavaScript object with string keys, as the sequence of
  (key, value) pairs that `Object.entries` yields: in insertion order, one pair per key.
  (Integer-like keys, which JavaScript enumerates first, do not occur in this model.)
 */
module JsObject {
  import opened Wrappers

  function Keys<V>(e: seq<(string, V)>): (ks: seq<string>)
    ensures |ks| == |e|
  {
    if e == [] then [] else [e[0].0] + Keys(e[1..])
  }

  lemma {:induction false} KeysAt<V>(e: seq<(string, V)>, i: nat)
    requires i < |e|
    ensures Keys(e)[i] == e[i].0
  {
    if i > 0 {
      KeysAt(e[1..], i - 1);
    }
  }

  /** The keys of a literal, read off index by index. */
  lemma KeysOf<V>(e: seq<(string, V)>, ks: seq<string>)
    requires |ks| == |e|
    requires forall i :: 0 <= i < |e| ==> e[i].0 == ks[i]
    ensures Keys(e) == ks
  {
    forall i | 0 <= i < |e| ensures Keys(e)[i] == ks[i] {
      KeysAt(e, i);
    }
  }

  /** No string occurs twice. */
  ghost predicate Distinct(ks: seq<string>) {
    forall i, j :: 0 <= i < j < |ks| ==> ks[i] != ks[j]
  }

  /** No key occurs twice, as with every real object. */
  ghost predicate DistinctKeys<V>(e: seq<(string, V)>) {
    Distinct(Keys(e))
  }

  lemma {:induction false} KeysAppend<V>(a: seq<(string, V)>, b: seq<(string, V)>)
    ensures Keys(a + b) == Keys(a) + Keys(b)
  {
    if a == [] {
      assert a + b == b;
    } else {
      assert (a + b)[0] == a[0];
      assert (a + b)[1..] == a[1..] + b;
      KeysAppend(a[1..], b);
      assert Keys(a + b) == [a[0].0] + (Keys(a[1..]) + Keys(b));
    }
  }

  /** `obj[key]`, with `None` for `undefined`. */
  function Lookup<V>(e: seq<(string, V)>, key: string): (r: Option<V>)
    ensures r.None? <==> key !in Keys(e)
  {
    if e == [] then None
    else if e[0].0 == key then Some(e[0].1)
    else
      Lookup(e[1..], key)
  }

  /**
    `obj[key] = value`: a key that is already present keeps its position and takes the
    new value; a new key is appended after all the others.
   */
  function Assign<V>(e: seq<(string, V)>, key: string, value: V): (r: seq<(string, V)>)
    ensures key in Keys(e) ==> Keys(r) == Keys(e)
    ensures key !in Keys(e) ==> r == e + [(key, value)]
  {
    if e == [] then [(key, value)]
    else if e[0].0 == key then
      var r := [(key, value)] + e[1..];
      assert r[1..] == e[1..];
      r
    else
      var tail := Assign(e[1..], key, value);
      assert ([e[0]] + tail)[1..] == tail;
      assert e == [e[0]] + e[1..];
      [e[0]] + tail
  }

  /** After `obj[key] = value`, reading `key` gives `value` and every other key reads as before. */
  lemma {:induction false} AssignLookup<V>(e: seq<(string, V)>, key: string, value: V, k: string)
    ensures Lookup(Assign(e, key, value), k) == if k == key then Some(value) else Lookup(e, k)
  {
    if e != [] && e[0].0 != key {
      AssignLookup(e[1..], key, value, k);
    }
  }

  /** Assignment never lets a key occur twice: an existing key is updated, a new one appended. */
  lemma AssignKeepsKeysDistinct<V>(e: seq<(string, V)>, key: string, value: V)
    requires DistinctKeys(e)
    ensures DistinctKeys(Assign(e, key, value))
  {
    if key !in Keys(e) {
      KeysAppend(e, [(key, value)]);
      assert Keys([(key, value)]) == [key];
    }
  }

  /** Evaluating the remaining `pairs` of an object literal into the object built so far. */
  function LiteralInto<V>(acc: seq<(string, V)>, pairs: seq<(string, V)>): seq<(string, V)>
    decreases |pairs|
  {
    if pairs == [] then acc else LiteralInto(Assign(acc, pairs[0].0, pairs[0].1), pairs[1..])
  }

  /**
    The object an object literal `{k1: v1, ..., kn: vn}` builds, left to right: a key
    written twice keeps the position of its first occurrence and the value of its last.
   */
  function Literal<V>(pairs: seq<(string, V)>): (r: seq<(string, V)>)
    ensures DistinctKeys(r)
  {
    LiteralIntoKeys([], pairs);
    LiteralInto([], pairs)
  }

  /** A literal has exactly the keys it writes. */
  lemma LiteralKeys<V>(pairs: seq<(string, V)>, k: string)
    ensures k in Keys(Literal(pairs)) <==> k in Keys(pairs)
  {
    LiteralIntoKeys([], pairs);
  }

  /** Evaluating a literal never repeats a key and keeps exactly the keys seen so far. */
  lemma {:induction false} LiteralIntoKeys<V>(acc: seq<(string, V)>, pairs: seq<(string, V)>)
    requires DistinctKeys(acc)
    ensures DistinctKeys(LiteralInto(acc, pairs))
    ensures forall k :: k in Keys(LiteralInto(acc, pairs)) <==> k in Keys(acc) || k in Keys(pairs)
    decreases |pairs|
  {
    if pairs != [] {
      var acc' := Assign(acc, pairs[0].0, pairs[0].1);
      AssignKeepsKeysDistinct(acc, pairs[0].0, pairs[0].1);
      LiteralIntoKeys(acc', pairs[1..]);
      assert Keys(pairs) == [pairs[0].0] + Keys(pairs[1..]);
      if pairs[0].0 !in Keys(acc) {
        KeysAppend(acc, [(pairs[0].0, pairs[0].1)]);
        assert Keys([(pairs[0].0, pairs[0].1)]) == [pairs[0].0];
      }
    }
  }

  lemma {:induction false} LiteralIntoAppend<V>(acc: seq<(string, V)>, a: seq<(string, V)>, b: seq<(string, V)>)
    ensures LiteralInto(acc, a + b) == LiteralInto(LiteralInto(acc, a), b)
    decreases |a|
  {
    if a == [] {
      assert a + b == b;
    } else {
      assert (a + b)[0] == a[0];
      assert (a + b)[1..] == a[1..] + b;
      LiteralIntoAppend(Assign(acc, a[0].0, a[0].1), a[1..], b);
    }
  }

  /** Keys never seen before are appended in order. */
  lemma {:induction false} LiteralIntoFresh<V>(acc: seq<(string, V)>, pairs: seq<(string, V)>)
    requires DistinctKeys(acc + pairs)
    ensures LiteralInto(acc, pairs) == acc + pairs
    decreases |pairs|
  {
    if pairs != [] {
      var k := pairs[0].0;
      KeysAppend(acc, pairs);
      var ks := Keys(acc + pairs);
      assert ks[|acc|] == k by { KeysAt(pairs, 0); }
      forall i | 0 <= i < |acc| ensures Keys(acc)[i] != k {
        assert ks[i] == Keys(acc)[i];
      }
      assert k !in Keys(acc);
      var acc' := Assign(acc, k, pairs[0].1);
      assert acc' == acc + [pairs[0]];
      assert acc' + pairs[1..] == acc + pairs;
      LiteralIntoFresh(acc', pairs[1..]);
    }
  }

  /** A literal whose keys are all different builds exactly the pairs as written. */
  lemma LiteralOfDistinct<V>(pairs: seq<(string, V)>)
    requires DistinctKeys(pairs)
    ensures Literal(pairs) == pairs
  {
    assert [] + pairs == pairs;
    LiteralIntoFresh([], pairs);
  }

  /**
    A literal `{...a, k: v, ...b}` whose only repeated key is `k`, first written in `a`:
    the later pair overwrites the value at the earlier position and adds no property.
   */
  lemma LiteralWithRepeat<V>(a: seq<(string, V)>, k: string, v: V, b: seq<(string, V)>)
    requires DistinctKeys(a + b)
    requires k in Keys(a)
    ensures Literal(a + [(k, v)] + b) == Assign(a, k, v) + b
  {
    assert a + [(k, v)] + b == a + ([(k, v)] + b);
    LiteralIntoAppend([], a, [(k, v)] + b);
    KeysAppend(a, b);
    assert DistinctKeys(a) by {
      assert Keys(a) == Keys(a + b)[..|a|];
    }
    LiteralOfDistinct(a);
    assert ([(k, v)] + b)[1..] == b;
    var a' := Assign(a, k, v);
    assert LiteralInto(a, [(k, v)] + b) == LiteralInto(a', b);
    KeysAppend(a', b);
    assert Keys(a' + b) == Keys(a + b);
    LiteralIntoFresh(a', b);
  }
}
