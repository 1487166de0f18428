/**
 * The static helpers of setting/models_provider/base_model_provider.py.
 *
 * A Python dict is an insertion-ordered list of entries with distinct keys;
 * assigning to a key that is present replaces its value in place, assigning
 * to a new key appends an entry.
 */
module ModelProvider {

  /** An insertion-ordered dictionary: its entries in order. */
  type Dict<V> = seq<(string, V)>

  function Keys<V>(d: Dict<V>): set<string>
  {
    set i | 0 <= i < |d| :: d[i].0
  }

  lemma KeysConcat<V>(a: Dict<V>, b: Dict<V>)
    ensures Keys(a + b) == Keys(a) + Keys(b)
  {
    var ab := a + b;
    forall k | k in Keys(ab)
      ensures k in Keys(a) + Keys(b)
    {
      var i :| 0 <= i < |ab| && ab[i].0 == k;
      if i < |a| {
        assert a[i] == ab[i];
      } else {
        assert b[i - |a|] == ab[i];
      }
    }
    forall k | k in Keys(a) + Keys(b)
      ensures k in Keys(ab)
    {
      if k in Keys(a) {
        var i :| 0 <= i < |a| && a[i].0 == k;
        assert ab[i] == a[i];
      } else {
        var i :| 0 <= i < |b| && b[i].0 == k;
        assert ab[|a| + i] == b[i];
      }
    }
  }

  lemma KeysSingle<V>(e: (string, V))
    ensures Keys([e]) == {e.0}
  {
    assert [e][0] == e;
  }

  /** What makes a list of entries a dict: no key occurs twice. */
  predicate DistinctKeys<V>(d: Dict<V>) {
    forall i, j :: 0 <= i < j < |d| ==> d[i].0 != d[j].0
  }

  /** `d[key] = value`. */
  function Assign<V>(d: Dict<V>, key: string, value: V): (r: Dict<V>)
    ensures key !in Keys(d) ==> r == d + [(key, value)]
    ensures key in Keys(d) ==> |r| == |d| && Keys(r) == Keys(d)
  {
    if d == [] then [(key, value)]
    else
      assert d == [d[0]] + d[1..];
      KeysConcat([d[0]], d[1..]);
      KeysSingle(d[0]);
      if d[0].0 == key then
        KeysConcat([(key, value)], d[1..]);
        KeysSingle((key, value));
        [(key, value)] + d[1..]
      else
        var rest := Assign(d[1..], key, value);
        KeysConcat([d[0]], rest);
        [d[0]] + rest
  }

  /** The keys that are not optional model parameters. */
  const Reserved: set<string> := {"model_id", "use_local", "streaming"}

  /** The reference filter: the entries whose key is not reserved, in order. */
  function Optional<V>(d: Dict<V>): Dict<V>
    decreases |d|
  {
    if d == [] then []
    else
      var init := Optional(d[..|d| - 1]);
      if d[|d| - 1].0 in Reserved then init else init + [d[|d| - 1]]
  }

  /** MCBotBaseModel.is_cache_model: every model is cached. */
  function IsCacheModel(): (r: bool)
    ensures r
  {
    true
  }

  /**
   * MCBotBaseModel.filter_optional_params: a new dict is filled by a loop
   * over the input's entries; the input is a value and is left as it is.
   */
  method FilterOptionalParams<V>(modelKwargs: Dict<V>) returns (optionalParams: Dict<V>)
    requires DistinctKeys(modelKwargs)
    ensures optionalParams == Optional(modelKwargs)
  {
    optionalParams := [];
    for i := 0 to |modelKwargs|
      invariant optionalParams == Optional(modelKwargs[..i])
      invariant Keys(optionalParams) <= Keys(modelKwargs[..i])
    {
      var (key, value) := modelKwargs[i];
      assert modelKwargs[..i + 1][..i] == modelKwargs[..i];
      assert modelKwargs[..i + 1] == modelKwargs[..i] + [(key, value)];
      KeysConcat(modelKwargs[..i], [(key, value)]);
      KeysSingle((key, value));
      if key !in ["model_id", "use_local", "streaming"] {
        assert key !in Keys(modelKwargs[..i]);
        optionalParams := Assign(optionalParams, key, value);
      }
    }
    assert modelKwargs[..|modelKwargs|] == modelKwargs;
  }

  /** Filtering a concatenation filters each part. */
  lemma {:induction false} OptionalConcat<V>(a: Dict<V>, b: Dict<V>)
    ensures Optional(a + b) == Optional(a) + Optional(b)
    decreases |b|
  {
    if b == [] {
      assert a + b == a;
    } else {
      var ab := a + b;
      assert ab[..|ab| - 1] == a + b[..|b| - 1];
      OptionalConcat(a, b[..|b| - 1]);
    }
  }

  /** The kept keys are exactly the input keys that are not reserved. */
  lemma {:induction false} OptionalKeys<V>(d: Dict<V>)
    ensures Keys(Optional(d)) == Keys(d) - Reserved
    decreases |d|
  {
    if d != [] {
      var init := d[..|d| - 1];
      OptionalKeys(init);
      assert d == init + [d[|d| - 1]];
      KeysConcat(init, [d[|d| - 1]]);
      KeysSingle(d[|d| - 1]);
      if d[|d| - 1].0 !in Reserved {
        KeysConcat(Optional(init), [d[|d| - 1]]);
      }
    }
  }

  /** Every kept entry is an entry of the input, with its value. */
  lemma {:induction false} OptionalEntries<V>(d: Dict<V>)
    ensures forall e :: e in Optional(d) ==> e in d && e.0 !in Reserved
    decreases |d|
  {
    if d != [] {
      OptionalEntries(d[..|d| - 1]);
    }
  }

  /** Filtering twice gives what filtering once gives. */
  lemma {:induction false} OptionalIdempotent<V>(d: Dict<V>)
    ensures Optional(Optional(d)) == Optional(d)
    decreases |d|
  {
    if d != [] {
      var init := d[..|d| - 1];
      OptionalIdempotent(init);
      if d[|d| - 1].0 !in Reserved {
        OptionalConcat(Optional(init), [d[|d| - 1]]);
        assert [d[|d| - 1]][..0] == [];
      }
    }
  }
}
