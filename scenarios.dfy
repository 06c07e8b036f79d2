/**
 * Client programs that run the adapter on a freshly connected client and
 * state what a caller can rely on, from the adapter's contracts alone. They
 * follow the behaviours the cache contract advertises. Each one that reads
 * with `get` comes in two versions: one on the corrected guard
 * (`GetCorrected`) and one on the code as written (`Get`).
 */
module Scenarios {
  import opened Php
  import opened Backend
  import opened Realisation

  /** A non-string key is refused by `set`, `delete` and `has` without any
      client call, but accepted by `get` as written. */
  method NonStringKey(initial: map<Val, Val>, key: Val, value: Val, default: Val)
      returns (s: Result<bool>, d: Result<bool>, h: Result<bool>, g: Result<Val>, ghost calls: seq<Call>)
    requires !IsString(key)
    ensures s == Err(KeyValueMessage) && d == Err(KeyMessage) && h == Err(KeyMessage)
    ensures g == Ok(if Lookup(initial, key) == Bool(false) then default else Lookup(initial, key))
    ensures calls == [GetCall(key, Lookup(initial, key))]
  {
    var c := new CacheMemcached(initial);
    s := c.Set(key, value);
    d := c.Delete(key);
    h := c.Has(key);
    g := c.Get(key, default);
    calls := c.memcached.log;
  }

  /** A batch with one non-string key (or, for `setMultiple`, one non-string
      key or value) is refused whole: nothing reaches the client and nothing
      is written. */
  method InvalidBatch(initial: map<Val, Val>, keys: seq<Val>, values: seq<(Val, Val)>, default: Val)
      returns (gm: Result<map<Val, Val>>, sm: Result<bool>, dm: Result<bool>, store: map<Val, Val>, ghost calls: seq<Call>)
    requires !AreStrings(keys) && !ArePairsOfStrings(values)
    ensures gm == Err(EachKeyMessage) && sm == Err(PairsMessage) && dm == Err(EachKeyMessage)
    ensures store == initial && calls == []
  {
    var c := new CacheMemcached(initial);
    gm := c.GetMultiple(keys, default);
    sm := c.SetMultiple(values);
    dm := c.DeleteMultiple(keys);
    store := c.memcached.store;
    calls := c.memcached.log;
  }

  /** On an empty cache, the corrected `get` of any string key yields the
      default. */
  method MissYieldsDefault(key: string, default: Val) returns (r: Result<Val>)
    ensures r == Ok(default)
  {
    var c := new CacheMemcached(map[]);
    r := c.GetCorrected(Str(key), default);
  }

  /** The same lookup with `get` as written is refused. */
  method MissAsWritten(key: string, default: Val) returns (r: Result<Val>)
    ensures r == Err(GetKeyMessage)
  {
    var c := new CacheMemcached(map[]);
    r := c.Get(Str(key), default);
  }

  /** A value just stored is read back by the corrected `get`, not the
      default. */
  method SetThenGet(initial: map<Val, Val>, key: string, value: string, default: Val)
      returns (s: Result<bool>, g: Result<Val>)
    ensures s.Ok?
    ensures s == Ok(true) ==> g == Ok(Str(value))
  {
    var c := new CacheMemcached(initial);
    s := c.Set(Str(key), Str(value));
    g := c.GetCorrected(Str(key), default);
  }

  /** With `get` as written, the value just stored cannot be read back. */
  method SetThenGetAsWritten(initial: map<Val, Val>, key: string, value: string, default: Val)
      returns (s: Result<bool>, g: Result<Val>)
    ensures s.Ok? && g == Err(GetKeyMessage)
  {
    var c := new CacheMemcached(initial);
    s := c.Set(Str(key), Str(value));
    g := c.Get(Str(key), default);
  }

  /** `has` is false before a key is stored and true once the store succeeds. */
  method HasAroundSet(initial: map<Val, Val>, key: string, value: string)
      returns (before: Result<bool>, s: Result<bool>, after: Result<bool>)
    requires Str(key) !in initial
    ensures before == Ok(false) && s.Ok?
    ensures s == Ok(true) ==> after == Ok(true)
  {
    var c := new CacheMemcached(initial);
    before := c.Has(Str(key));
    s := c.Set(Str(key), Str(value));
    after := c.Has(Str(key));
  }

  /** Of three requested keys of which only "a" is stored, the result has all
      three, the missing two filled with the default. */
  method GetMultipleFills(stored: Val, default: Val) returns (r: Result<map<Val, Val>>)
    ensures r == Ok(map[Str("a") := stored, Str("b") := default, Str("c") := default])
  {
    var c := new CacheMemcached(map[Str("a") := stored]);
    r := c.GetMultiple([Str("a"), Str("b"), Str("c")], default);
    assert r.Ok?;
    var expected := map[Str("a") := stored, Str("b") := default, Str("c") := default];
    assert r.value.Keys == expected.Keys;
    assert forall k :: k in expected ==> r.value[k] == expected[k];
    assert r.value == expected;
  }

  /** After a successful `clear`, no key is present. */
  method ClearThenHas(initial: map<Val, Val>, key: string) returns (cleared: bool, h: Result<bool>)
    ensures cleared ==> h == Ok(false)
  {
    var c := new CacheMemcached(initial);
    cleared := c.Clear();
    h := c.Has(Str(key));
  }

  /** After a successful `deleteMultiple` of "a" and "b", both read as
      misses through the corrected `get`. */
  method DeleteMultipleThenGet(initial: map<Val, Val>, default: Val)
      returns (d: Result<bool>, ga: Result<Val>, gb: Result<Val>)
    ensures d.Ok?
    ensures d == Ok(true) ==> ga == Ok(default) && gb == Ok(default)
  {
    var c := new CacheMemcached(initial);
    d := c.DeleteMultiple([Str("a"), Str("b")]);
    ga := c.GetCorrected(Str("a"), default);
    gb := c.GetCorrected(Str("b"), default);
  }

  /** With `get` as written, both reads after that `deleteMultiple` are
      refused. */
  method DeleteMultipleThenGetAsWritten(initial: map<Val, Val>, default: Val)
      returns (d: Result<bool>, ga: Result<Val>, gb: Result<Val>)
    ensures d.Ok? && ga == Err(GetKeyMessage) && gb == Err(GetKeyMessage)
  {
    var c := new CacheMemcached(initial);
    d := c.DeleteMultiple([Str("a"), Str("b")]);
    ga := c.Get(Str("a"), default);
    gb := c.Get(Str("b"), default);
  }

  /** After a successful `setMultiple` of a batch of string pairs (with
      distinct keys, as in a PHP array), the corrected `get` reads back the
      value of every pair. */
  method SetMultipleThenGet(initial: map<Val, Val>, values: seq<(Val, Val)>, i: nat, default: Val)
      returns (s: Result<bool>, g: Result<Val>)
    requires ArePairsOfStrings(values) && DistinctKeys(values) && i < |values|
    ensures s.Ok?
    ensures s == Ok(true) ==> g == Ok(values[i].1)
  {
    var c := new CacheMemcached(initial);
    s := c.SetMultiple(values);
    PairsToMapAt(values, i);
    g := c.GetCorrected(values[i].0, default);
  }

  /** With `get` as written, those same reads are refused. */
  method SetMultipleThenGetAsWritten(initial: map<Val, Val>, values: seq<(Val, Val)>, i: nat, default: Val)
      returns (s: Result<bool>, g: Result<Val>)
    requires ArePairsOfStrings(values) && i < |values|
    ensures s.Ok? && g == Err(GetKeyMessage)
  {
    var c := new CacheMemcached(initial);
    s := c.SetMultiple(values);
    g := c.Get(values[i].0, default);
  }

  /** `get` as written does reach the client with an integer key, which the
      client converts to its digits: after `set("5", "v")`, `get(5)` returns
      "v". */
  method IntKeyReadsDigitKey(initial: map<Val, Val>, default: Val)
      returns (s: Result<bool>, g: Result<Val>)
    ensures s.Ok?
    ensures s == Ok(true) ==> g == Ok(Str("v"))
  {
    var c := new CacheMemcached(initial);
    s := c.Set(Str("5"), Str("v"));
    assert KeyOf(Int(5)) == Str("5");
    g := c.Get(Int(5), default);
  }

  /** A stored `false` is indistinguishable from an absent key through the
      adapter: on two stores that differ only there, `has` and the corrected
      `get` give the same replies, as for a miss. */
  method StoredFalseLooksAbsent(initial: map<Val, Val>, key: string, default: Val)
      returns (h1: Result<bool>, h2: Result<bool>, g1: Result<Val>, g2: Result<Val>)
    ensures h1 == h2 == Ok(false)
    ensures g1 == g2 == Ok(default)
  {
    var withFalse := new CacheMemcached(initial[Str(key) := Bool(false)]);
    var without := new CacheMemcached(initial - {Str(key)});
    h1 := withFalse.Has(Str(key));
    h2 := without.Has(Str(key));
    g1 := withFalse.GetCorrected(Str(key), default);
    g2 := without.GetCorrected(Str(key), default);
  }

  /** A string-only store stays string-only through any write the adapter
      performs, so a `false` reply always means a miss. */
  method WritesKeepStrings(initial: map<Val, Val>, key: Val, value: Val, values: seq<(Val, Val)>, keys: seq<Val>)
      returns (store: map<Val, Val>)
    requires StringsOnly(initial)
    ensures StringsOnly(store)
    ensures forall k: string :: Lookup(store, Str(k)) == Bool(false) <==> Str(k) !in store
  {
    var c := new CacheMemcached(initial);
    var s := c.Set(key, value);
    var sm := c.SetMultiple(values);
    var d := c.Delete(key);
    var dm := c.DeleteMultiple(keys);
    store := c.memcached.store;
    forall k: string ensures Lookup(store, Str(k)) == Bool(false) <==> Str(k) !in store {
      MissIsUnambiguous(store, Str(k));
    }
  }
}
