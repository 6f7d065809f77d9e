/**
  The component registration helper of the client: `registerStoryblokComponents` copies
  a name-to-component table into a fresh record, entry by entry.
 */
module Registration {
  import opened Wrappers
  import JsObject

  /** A `Record<string, ComponentType>`: its own properties in enumeration order. */
  class ComponentRecord<C> {
    var entries: seq<(string, C)>

    /** An object never holds a key twice. */
    ghost predicate Valid()
      reads this
    {
      JsObject.DistinctKeys(entries)
    }

    /** The empty object literal `{}`. */
    constructor()
      ensures entries == [] && Valid()
    {
      entries := [];
    }

    /** `record[key] = component`. */
    method Put(key: string, component: C)
      requires Valid()
      modifies this
      ensures entries == JsObject.Assign(old(entries), key, component)
      ensures Valid()
    {
      JsObject.AssignKeepsKeysDistinct(entries, key, component);
      entries := JsObject.Assign(entries, key, component);
    }

    /** `record[key]`, with `None` for `undefined`. */
    function Get(key: string): Option<C>
      reads this
    {
      JsObject.Lookup(entries, key)
    }
  }

  /** In a table without repeated keys, the key at position `i` is not among the earlier ones. */
  lemma NextKeyIsNew<C>(entries: seq<(string, C)>, i: nat)
    requires JsObject.DistinctKeys(entries) && i < |entries|
    ensures entries[i].0 !in JsObject.Keys(entries[..i])
    ensures JsObject.Assign(entries[..i], entries[i].0, entries[i].1) == entries[..i + 1]
  {
    var prefix := entries[..i];
    forall j | 0 <= j < i ensures JsObject.Keys(prefix)[j] != entries[i].0 {
      JsObject.KeysAt(prefix, j);
      JsObject.KeysAt(entries, j);
      JsObject.KeysAt(entries, i);
    }
    assert entries[..i + 1] == prefix + [entries[i]];
  }

  /**
    `registerStoryblokComponents`: the `reduce` writes each entry of `Object.entries` into a
    fresh accumulator, so the result has the input's keys, in order, with the same values,
    and the input is untouched.
   */
  method RegisterStoryblokComponents<C>(components: ComponentRecord<C>) returns (acc: ComponentRecord<C>)
    requires components.Valid()
    ensures fresh(acc) && acc.Valid()
    ensures acc.entries == components.entries
    ensures forall key :: acc.Get(key) == components.Get(key)
    ensures unchanged(components)
  {
    var entries := components.entries;
    acc := new ComponentRecord();
    var i := 0;
    while i < |entries|
      invariant 0 <= i <= |entries|
      invariant fresh(acc) && acc.Valid()
      invariant acc.entries == CopyPrefix(entries, i)
      invariant unchanged(components)
    {
      acc.Put(entries[i].0, entries[i].1);
      i := i + 1;
    }
    CopyIsIdentity(entries, i);
    assert entries[..i] == entries;
  }

  /** Copying the entries one by one from `{}` reproduces them exactly. */
  lemma {:induction false} CopyIsIdentity<C>(entries: seq<(string, C)>, n: nat)
    requires JsObject.DistinctKeys(entries) && n <= |entries|
    ensures CopyPrefix(entries, n) == entries[..n]
  {
    if n > 0 {
      CopyIsIdentity(entries, n - 1);
      NextKeyIsNew(entries, n - 1);
    }
  }

  /** The value the reduce builds after its first `n` steps. */
  function CopyPrefix<C>(entries: seq<(string, C)>, n: nat): seq<(string, C)>
    requires n <= |entries|
  {
    if n == 0 then [] else JsObject.Assign(CopyPrefix(entries, n - 1), entries[n - 1].0, entries[n - 1].1)
  }
}
