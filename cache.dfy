/**
 * The adapter `App\Realisation\CacheMemcached`: it checks the PHP types of
 * its arguments, hands back an `InvalidArgumentException` (here `Err`) before
 * any call reaches the client when a check fails, and otherwise forwards the
 * call and post-processes the reply.
 */
module Realisation {
  import opened Php
  import opened Backend

  /** The messages of the exceptions the adapter returns, word for word. */
  const GetKeyMessage := "Key must be string."
  const KeyValueMessage := "Key and value must be string"
  const KeyMessage := "Key must be string"
  const EachKeyMessage := "Each key in keys must be string"
  const PairsMessage := "Keys and values in array must be string"

  /** The validation loop over a batch of keys: it stops at the first key that
      is not a string, so it reports success only after seeing the whole batch. */
  method CheckKeys(keys: seq<Val>) returns (ok: bool)
    ensures ok <==> AreStrings(keys)
  {
    for i := 0 to |keys|
      invariant forall j :: 0 <= j < i ==> IsString(keys[j])
    {
      if !IsString(keys[i]) {
        return false;
      }
    }
    return true;
  }

  /** The validation loop over a batch of `key => value` pairs. */
  method CheckPairs(values: seq<(Val, Val)>) returns (ok: bool)
    ensures ok <==> ArePairsOfStrings(values)
  {
    for i := 0 to |values|
      invariant forall j :: 0 <= j < i ==> IsString(values[j].0) && IsString(values[j].1)
    {
      if !IsString(values[i].0) || !IsString(values[i].1) {
        return false;
      }
    }
    return true;
  }

  /** The completion loop of `getMultiple`: every requested key missing from
      the client's reply is added with the value `default`. */
  method FillMissing(found: map<Val, Val>, keys: seq<Val>, default: Val) returns (result: map<Val, Val>)
    ensures forall k :: k in keys ==> k in result
    ensures forall k :: k in found ==> k in result && result[k] == found[k]
    ensures forall k :: k in result && k !in found ==> result[k] == default
    ensures forall k :: k in result ==> k in found || k in keys
  {
    result := found;
    for i := 0 to |keys|
      invariant forall j :: 0 <= j < i ==> keys[j] in result
      invariant forall k :: k in found ==> k in result && result[k] == found[k]
      invariant forall k :: k in result && k !in found ==> result[k] == default
      invariant forall k :: k in result ==> k in found || k in keys[..i]
    {
      if keys[i] !in result {
        result := result[keys[i] := default];
      }
    }
    assert keys[..|keys|] == keys;
  }

  class CacheMemcached {
    /** The client handle, created once and never replaced. */
    const memcached: Memcached

    /** The connection to host and port is not modelled: the adapter starts
        on a client whose server holds `initial`. */
    constructor (initial: map<Val, Val>)
      ensures fresh(memcached)
      ensures memcached.store == initial && memcached.log == []
    {
      memcached := new Memcached(initial);
    }

    /** The lookup that ends `get`: one client read, and a `false` reply (a
        miss) is replaced by `default`. */
    method LookupOrDefault(key: Val, default: Val) returns (v: Val)
      modifies memcached
      ensures memcached.store == old(memcached.store)
      ensures memcached.log == old(memcached.log) + [GetCall(key, Lookup(old(memcached.store), key))]
      ensures Lookup(old(memcached.store), key) == Bool(false) ==> v == default
      ensures Lookup(old(memcached.store), key) != Bool(false) ==> v == Lookup(old(memcached.store), key)
    {
      v := memcached.Get(key);
      if v == Bool(false) {
        v := default;
      }
    }

    /** `get` as written: the guard tests `is_string($key)` without negation,
        so every string key is refused and only other keys reach the client. */
    method Get(key: Val, default: Val := Null) returns (r: Result<Val>)
      modifies memcached
      ensures memcached.store == old(memcached.store)
      ensures r.Err? <==> IsString(key)
      ensures IsString(key) ==> r == Err(GetKeyMessage) && memcached.log == old(memcached.log)
      ensures !IsString(key) ==>
                memcached.log == old(memcached.log) + [GetCall(key, Lookup(old(memcached.store), key))]
      ensures !IsString(key) && Lookup(old(memcached.store), key) == Bool(false) ==> r == Ok(default)
      ensures !IsString(key) && Lookup(old(memcached.store), key) != Bool(false) ==>
                r == Ok(Lookup(old(memcached.store), key))
    {
      if IsString(key) {
        return Err(GetKeyMessage);
      }
      var v := LookupOrDefault(key, default);
      return Ok(v);
    }

    /** `get` with the guard its message asks for: string keys are looked up
        and every other key is refused. */
    method GetCorrected(key: Val, default: Val := Null) returns (r: Result<Val>)
      modifies memcached
      ensures memcached.store == old(memcached.store)
      ensures r.Err? <==> !IsString(key)
      ensures !IsString(key) ==> r == Err(GetKeyMessage) && memcached.log == old(memcached.log)
      ensures IsString(key) ==>
                memcached.log == old(memcached.log) + [GetCall(key, Lookup(old(memcached.store), key))]
      ensures IsString(key) && Lookup(old(memcached.store), key) == Bool(false) ==> r == Ok(default)
      ensures IsString(key) && Lookup(old(memcached.store), key) != Bool(false) ==>
                r == Ok(Lookup(old(memcached.store), key))
      ensures IsString(key) && key !in old(memcached.store) ==> r == Ok(default)
      ensures IsString(key) && key in old(memcached.store) && old(memcached.store)[key] != Bool(false) ==>
                r == Ok(old(memcached.store)[key])
      ensures IsString(key) && StringsOnly(old(memcached.store)) ==>
                r == Ok(if key in old(memcached.store) then old(memcached.store)[key] else default)
    {
      if !IsString(key) {
        return Err(GetKeyMessage);
      }
      var v := LookupOrDefault(key, default);
      return Ok(v);
    }

    method Set(key: Val, value: Val, ttl: Val := Null) returns (r: Result<bool>)
      modifies memcached
      ensures r.Err? <==> !IsString(key) || !IsString(value)
      ensures !IsString(key) || !IsString(value) ==>
                r == Err(KeyValueMessage) &&
                memcached.store == old(memcached.store) && memcached.log == old(memcached.log)
      ensures IsString(key) && IsString(value) ==>
                r.Ok? && memcached.log == old(memcached.log) + [SetCall(key, value, ttl, r.value)]
      ensures IsString(key) && IsString(value) ==>
                memcached.store == if r.value then old(memcached.store)[key := value] else old(memcached.store)
      ensures StringsOnly(old(memcached.store)) ==> StringsOnly(memcached.store)
    {
      if !IsString(key) || !IsString(value) {
        return Err(KeyValueMessage);
      }
      var ok := memcached.Set(key, value, ttl);
      return Ok(ok);
    }

    method Delete(key: Val) returns (r: Result<bool>)
      modifies memcached
      ensures r.Err? <==> !IsString(key)
      ensures !IsString(key) ==>
                r == Err(KeyMessage) &&
                memcached.store == old(memcached.store) && memcached.log == old(memcached.log)
      ensures IsString(key) ==> r.Ok? && memcached.log == old(memcached.log) + [DeleteCall(key, r.value)]
      ensures IsString(key) ==>
                memcached.store == if r.value then old(memcached.store) - {key} else old(memcached.store)
      ensures StringsOnly(old(memcached.store)) ==> StringsOnly(memcached.store)
    {
      if !IsString(key) {
        return Err(KeyMessage);
      }
      var ok := memcached.Delete(key);
      return Ok(ok);
    }

    /** No validation: the flush is always forwarded and its reply returned. */
    method Clear() returns (ok: bool)
      modifies memcached
      ensures memcached.log == old(memcached.log) + [FlushCall(ok)]
      ensures memcached.store == if ok then map[] else old(memcached.store)
      ensures StringsOnly(old(memcached.store)) ==> StringsOnly(memcached.store)
    {
      ok := memcached.Flush();
    }

    method GetMultiple(keys: seq<Val>, default: Val := Null) returns (r: Result<map<Val, Val>>)
      modifies memcached
      ensures memcached.store == old(memcached.store)
      ensures r.Err? <==> !AreStrings(keys)
      ensures !AreStrings(keys) ==> r == Err(EachKeyMessage) && memcached.log == old(memcached.log)
      ensures AreStrings(keys) ==>
                memcached.log == old(memcached.log) + [GetMultiCall(keys, Found(old(memcached.store), keys))]
      ensures r.Ok? ==> forall k :: k in r.value <==> k in keys
      ensures r.Ok? ==> forall k :: k in r.value && k in old(memcached.store) ==> r.value[k] == old(memcached.store)[k]
      ensures r.Ok? ==> forall k :: k in r.value && k !in old(memcached.store) ==> r.value[k] == default
    {
      var ok := CheckKeys(keys);
      if !ok {
        return Err(EachKeyMessage);
      }
      var found := memcached.GetMulti(keys);
      var result := FillMissing(found, keys, default);
      return Ok(result);
    }

    method SetMultiple(values: seq<(Val, Val)>, ttl: Val := Null) returns (r: Result<bool>)
      modifies memcached
      ensures r.Err? <==> !ArePairsOfStrings(values)
      ensures !ArePairsOfStrings(values) ==>
                r == Err(PairsMessage) &&
                memcached.store == old(memcached.store) && memcached.log == old(memcached.log)
      ensures ArePairsOfStrings(values) ==>
                r.Ok? && memcached.log == old(memcached.log) + [SetMultiCall(values, ttl, r.value)]
      ensures ArePairsOfStrings(values) ==>
                memcached.store == if r.value then old(memcached.store) + PairsToMap(values) else old(memcached.store)
      ensures r == Ok(true) ==>
                memcached.store.Keys == old(memcached.store).Keys + set i | 0 <= i < |values| :: values[i].0
      ensures StringsOnly(old(memcached.store)) ==> StringsOnly(memcached.store)
    {
      var valid := CheckPairs(values);
      if !valid {
        return Err(PairsMessage);
      }
      var ok := memcached.SetMulti(values, ttl);
      PairsToMapStrings(values);
      PairsToMapKeys(values);
      return Ok(ok);
    }

    method DeleteMultiple(keys: seq<Val>) returns (r: Result<bool>)
      modifies memcached
      ensures r.Err? <==> !AreStrings(keys)
      ensures !AreStrings(keys) ==>
                r == Err(EachKeyMessage) &&
                memcached.store == old(memcached.store) && memcached.log == old(memcached.log)
      ensures AreStrings(keys) ==>
                r.Ok? && memcached.log == old(memcached.log) + [DeleteMultiCall(keys, r.value)]
      ensures AreStrings(keys) ==>
                memcached.store == if r.value then old(memcached.store) - KeySet(keys) else old(memcached.store)
      ensures StringsOnly(old(memcached.store)) ==> StringsOnly(memcached.store)
    {
      var valid := CheckKeys(keys);
      if !valid {
        return Err(EachKeyMessage);
      }
      var ok := memcached.DeleteMulti(keys);
      return Ok(ok);
    }

    /** Presence is read off a client `get`: a `false` reply means absent. */
    method Has(key: Val) returns (r: Result<bool>)
      modifies memcached
      ensures memcached.store == old(memcached.store)
      ensures r.Err? <==> !IsString(key)
      ensures !IsString(key) ==> r == Err(KeyMessage) && memcached.log == old(memcached.log)
      ensures IsString(key) ==>
                memcached.log == old(memcached.log) + [GetCall(key, Lookup(old(memcached.store), key))]
      ensures IsString(key) ==> r == Ok(Lookup(old(memcached.store), key) != Bool(false))
      ensures IsString(key) && StringsOnly(old(memcached.store)) ==> r == Ok(key in old(memcached.store))
    {
      if !IsString(key) {
        return Err(KeyMessage);
      }
      var v := memcached.Get(key);
      if v == Bool(false) {
        return Ok(false);
      }
      return Ok(true);
    }
  }
}
