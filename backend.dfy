/**
 * An abstract stand-in for the PHP Memcached client the adapter wraps. The
 * client is a library whose code is not part of this model, so its behaviour
 * is given by contracts only:
 *  - the server's contents are a map from keys to values;
 *  - every call is recorded, with its arguments and its reply, in a ghost log,
 *    so that "no call reached the client" can be stated;
 *  - a read replies from the map, and `false` stands for a miss;
 *  - a write replies with a boolean that is not determined here (the server
 *    may refuse), and when it reports success the write has taken effect.
 */
module Backend {
  import opened Php

  /** One call made on the client, with what it replied. */
  datatype Call =
    | GetCall(key: Val, got: Val)
    | SetCall(key: Val, value: Val, ttl: Val, ok: bool)
    | DeleteCall(key: Val, ok: bool)
    | FlushCall(ok: bool)
    | GetMultiCall(keys: seq<Val>, found: map<Val, Val>)
    | SetMultiCall(values: seq<(Val, Val)>, ttl: Val, ok: bool)
    | DeleteMultiCall(keys: seq<Val>, ok: bool)

  /** The key the client actually uses. Its key parameter is declared
      `string` and the adapter's file is not in strict-types mode, so PHP
      converts a scalar argument to a string: an integer to its digits,
      `true` to "1", `false` and `null` to "". A string is used as it is. */
  function KeyOf(key: Val): (k: Val)
    ensures IsString(key) ==> k == key
    ensures !key.Other? ==> IsString(k)
  {
    match key
    case Str(_) => key
    case Int(i) => Str(IntString(i))
    case Bool(b) => if b then Str("1") else Str("")
    case Null => Str("")
    case Other => key
  }

  /** What `Memcached::get` replies for `key`: the value stored under the
      converted key, or `false` when nothing is stored under it. */
  function Lookup(store: map<Val, Val>, key: Val): Val {
    var k := KeyOf(key);
    if k in store then store[k] else Bool(false)
  }

  /** What `Memcached::getMulti` replies: the requested keys that are stored,
      with their values; unknown keys are omitted. */
  function Found(store: map<Val, Val>, keys: seq<Val>): map<Val, Val> {
    map k | k in store && k in keys :: store[k]
  }

  /** The PHP array `key => value` built from a batch of pairs; a later pair
      overrides an earlier one with the same key. */
  function PairsToMap(values: seq<(Val, Val)>): map<Val, Val> {
    if |values| == 0 then map[]
    else PairsToMap(values[..|values| - 1])[values[|values| - 1].0 := values[|values| - 1].1]
  }

  /** No key occurs twice in a batch of pairs, as in any PHP array. */
  predicate DistinctKeys(values: seq<(Val, Val)>) {
    forall i, j :: 0 <= i < j < |values| ==> values[i].0 != values[j].0
  }

  /** Every stored key and every stored value is a string. */
  predicate StringsOnly(store: map<Val, Val>) {
    forall k :: k in store ==> IsString(k) && IsString(store[k])
  }

  /** A batch's map holds exactly the keys of its pairs. */
  lemma {:induction false} PairsToMapKeys(values: seq<(Val, Val)>)
    ensures PairsToMap(values).Keys == set i | 0 <= i < |values| :: values[i].0
  {
    if |values| > 0 {
      var init := values[..|values| - 1];
      PairsToMapKeys(init);
      assert forall i :: 0 <= i < |init| ==> init[i] == values[i];
    }
  }

  /** With distinct keys, each pair of the batch is found in its map. */
  lemma {:induction false} PairsToMapAt(values: seq<(Val, Val)>, i: nat)
    requires i < |values| && DistinctKeys(values)
    ensures values[i].0 in PairsToMap(values) && PairsToMap(values)[values[i].0] == values[i].1
  {
    var last := |values| - 1;
    if i < last {
      var init := values[..last];
      assert DistinctKeys(init) by {
        forall a, b | 0 <= a < b < |init| ensures init[a].0 != init[b].0 {
          assert init[a] == values[a] && init[b] == values[b];
        }
      }
      PairsToMapAt(init, i);
      assert init[i] == values[i];
    }
  }

  /** A batch of string pairs builds a map of strings only. */
  lemma {:induction false} PairsToMapStrings(values: seq<(Val, Val)>)
    requires ArePairsOfStrings(values)
    ensures StringsOnly(PairsToMap(values))
  {
    if |values| > 0 {
      var init := values[..|values| - 1];
      assert forall i :: 0 <= i < |init| ==> init[i] == values[i];
      PairsToMapStrings(init);
    }
  }

  /** When only strings are stored, the `false` that `Lookup` replies is a
      true miss: it cannot be a stored value. */
  lemma MissIsUnambiguous(store: map<Val, Val>, key: Val)
    requires StringsOnly(store)
    ensures Lookup(store, key) == Bool(false) <==> KeyOf(key) !in store
  {
  }

  /** The client object: the server's contents and the calls made so far. */
  class Memcached {
    var store: map<Val, Val>
    ghost var log: seq<Call>

    /** A client connected to a server that already holds `initial`. */
    constructor (initial: map<Val, Val>)
      ensures store == initial && log == []
    {
      store := initial;
      log := [];
    }

    method Get(key: Val) returns (v: Val)
      modifies this
      ensures store == old(store)
      ensures v == Lookup(old(store), key)
      ensures log == old(log) + [GetCall(key, v)]
    {
      v := Lookup(store, key);
      log := log + [GetCall(key, v)];
    }

    method Set(key: Val, value: Val, ttl: Val) returns (ok: bool)
      modifies this
      ensures store == if ok then old(store)[key := value] else old(store)
      ensures log == old(log) + [SetCall(key, value, ttl, ok)]
    {
      ok :| true;
      if ok {
        store := store[key := value];
      }
      log := log + [SetCall(key, value, ttl, ok)];
    }

    method Delete(key: Val) returns (ok: bool)
      modifies this
      ensures store == if ok then old(store) - {key} else old(store)
      ensures log == old(log) + [DeleteCall(key, ok)]
    {
      ok :| true;
      if ok {
        store := store - {key};
      }
      log := log + [DeleteCall(key, ok)];
    }

    method Flush() returns (ok: bool)
      modifies this
      ensures store == if ok then map[] else old(store)
      ensures log == old(log) + [FlushCall(ok)]
    {
      ok :| true;
      if ok {
        store := map[];
      }
      log := log + [FlushCall(ok)];
    }

    method GetMulti(keys: seq<Val>) returns (found: map<Val, Val>)
      modifies this
      ensures store == old(store)
      ensures found == Found(old(store), keys)
      ensures log == old(log) + [GetMultiCall(keys, found)]
    {
      found := Found(store, keys);
      log := log + [GetMultiCall(keys, found)];
    }

    method SetMulti(values: seq<(Val, Val)>, ttl: Val) returns (ok: bool)
      modifies this
      ensures store == if ok then old(store) + PairsToMap(values) else old(store)
      ensures log == old(log) + [SetMultiCall(values, ttl, ok)]
    {
      ok :| true;
      if ok {
        store := store + PairsToMap(values);
      }
      log := log + [SetMultiCall(values, ttl, ok)];
    }

    method DeleteMulti(keys: seq<Val>) returns (ok: bool)
      modifies this
      ensures store == if ok then old(store) - KeySet(keys) else old(store)
      ensures log == old(log) + [DeleteMultiCall(keys, ok)]
    {
      ok :| true;
      if ok {
        store := store - KeySet(keys);
      }
      log := log + [DeleteMultiCall(keys, ok)];
    }
  }
}
