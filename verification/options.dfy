/**
 * A buildout option section: a dictionary from option name to string value
 * that remembers insertion order (Python 3.7+ dicts do). `Dict` is its
 * value; `OptionMap` is the one shared object that buildout hands to the
 * recipe and that the recipe changes in place.
 */
module OptionMaps {

  datatype Dict = Dict(keys: seq<string>, values: map<string, string>) {

    /** Each key once, and the keys are exactly the keys of the map. */
    ghost predicate Valid() {
      && (forall i, j | 0 <= i < j < |keys| :: keys[i] != keys[j])
      && (forall k :: k in values <==> k in keys)
    }

    /** `d.get(k, default)` */
    function Get(k: string, default: string): string {
      if k in values then values[k] else default
    }

    /** `d[k] = v`: an existing key keeps its place, a new key goes last. */
    function Store(k: string, v: string): (r: Dict)
      ensures Valid() ==> r.Valid()
      ensures k in r.values && r.values[k] == v
      ensures forall j | j != k :: (j in r.values <==> j in values)
      ensures forall j | j != k && j in values :: r.values[j] == values[j]
      ensures |keys| <= |r.keys| && r.keys[..|keys|] == keys
      ensures k in values ==> r.keys == keys
      ensures k !in values ==> r.keys == keys + [k]
    {
      Dict(if k in values then keys else keys + [k], values[k := v])
    }

    /** `d.setdefault(k, v)` (the returned value is not needed here). */
    function SetDefault(k: string, v: string): (r: Dict)
      ensures k in values ==> r == this
      ensures k !in values ==> r == Store(k, v)
    {
      if k in values then this else Store(k, v)
    }
  }

  /** Storing the value a key already has changes nothing. */
  lemma StoreUnchanged(d: Dict, k: string)
    requires k in d.values
    ensures d.Store(k, d.values[k]) == d
  {
    assert d.values[k := d.values[k]] == d.values;
  }

  /** A second store to the same key overrides the first. */
  lemma StoreTwice(d: Dict, k: string, x: string, y: string)
    ensures d.Store(k, x).Store(k, y) == d.Store(k, y)
  {
    assert d.values[k := x][k := y] == d.values[k := y];
  }

  /** The options object itself; every change is an assignment to `dict`. */
  class OptionMap {
    var dict: Dict

    constructor(d: Dict)
      ensures dict == d
    {
      dict := d;
    }

    /** `options[k] = v` */
    method Store(k: string, v: string)
      modifies this
      ensures dict == old(dict).Store(k, v)
    {
      dict := dict.Store(k, v);
    }

    /** `options.setdefault(k, v)` */
    method SetDefault(k: string, v: string)
      modifies this
      ensures dict == old(dict).SetDefault(k, v)
    {
      dict := dict.SetDefault(k, v);
    }
  }
}
