# CacheMemcached, modelled in Dafny

`App\Realisation\CacheMemcached` adapts a Memcached client to a generic cache
interface: `get`, `set`, `delete`, `clear`, `has`, and the batch operations
`getMultiple`, `setMultiple` and `deleteMultiple`. It adds three things of
its own on top of the client:

- It checks argument types with `is_string`. A batch is checked element by element.
- When a check fails, it returns an `InvalidArgumentException` through the normal return channel, before any client call.
- It post-processes replies. A `false` reply from `get` becomes `$default`. `getMultiple` fills missing keys with `$default`. `has` is read off a `get`.

The model has four modules:

- `Php` (php.dfy) defines the PHP values the adapter inspects, `Str | Int | Bool | Null | Other`. It also defines `is_string` and its batch forms, and the return channel `Result<T> = Ok(value) | Err(msg)`. An `Err` carries the exception's message word for word.
- `Backend` (backend.dfy) is an abstract stand-in for the Memcached client. It is a class `Memcached` with two fields:
  - `store`, a map holding the server's contents;
  - `log`, a ghost field that records every call with its arguments and reply.

  A `get` converts its key as PHP converts an argument to a `string` parameter (`KeyOf`), then replies from the map, and `false` stands for a miss. A `getMulti` reply omits unknown keys. A write replies with a boolean the model leaves open, and the write has taken effect exactly when that boolean is true. The module also has the lemmas about PHP `key => value` arrays, as `PairsToMap`, and a lemma about the miss sentinel.
- `Realisation` (cache.dfy) holds the class `CacheMemcached` with one method per operation. Each method states both of its paths:
  - on a refused argument: the error message, an unchanged store and an unchanged call log;
  - otherwise: the single call appended to the log, the result derived from the reply, and the new store.

  The three loops of the source are the methods `CheckKeys`, `CheckPairs` and `FillMissing`, each proved against its specification. Every method preserves one invariant: a store holding only strings keeps holding only strings. Under that invariant the `=== false` miss test is exact.
- `Scenarios` (scenarios.dfy) holds client programs. Each one runs the adapter on a freshly connected client and proves a behaviour the cache contract advertises. Examples: a miss yields the default; a value that was set is read back; `has` before and after `set`; `getMultiple` filling defaults; `clear` and `deleteMultiple` followed by reads.

In two places the code does not do what it promises itself. The model follows the code ("## Findings" has the first):

- The guard of `get` is inverted: line 32 refuses string keys. This contradicts the method's own docblock (`@param string $key`, line 27), its message "Key must be string.", and the `!is_string` guards of every sibling method (lines 52, 64, 85, 108, 122, 135).
- A cache promises to return the value stored under a key, but `get` and `has` cannot tell a stored `false` from a miss (`Scenarios.StoredFalseLooksAbsent`). `getMultiple` does return a stored `false`, because its miss test is `array_key_exists`. The adapter itself never stores anything but strings (`Scenarios.WritesKeepStrings`), so through the adapter alone the difference cannot arise.

## Model

| member | source | states |
|---|---|---|
| `Backend.PairsToMapKeys` | App/Realisation/CacheMemcached.php:106-113 | the array of pairs handed to `setMulti` has exactly the keys of the batch |
| `Backend.PairsToMapAt` | App/Realisation/CacheMemcached.php:107 | with distinct keys (as in any PHP array), each `key => value` of the batch is in the array handed to `setMulti` |
| `Backend.PairsToMapStrings` | App/Realisation/CacheMemcached.php:107-113 | a batch that passed validation writes only string keys and string values |
| `Backend.KeyOf` | App/Realisation/CacheMemcached.php:36 | the key the client sees: a string unchanged, and any other scalar converted to a string |
| `Backend.MissIsUnambiguous` | App/Realisation/CacheMemcached.php:36-40 | when only strings are stored, a `false` reply from the client is exactly a missing key |
| `Realisation.CheckKeys` | App/Realisation/CacheMemcached.php:84-88 | the early-return validation loop succeeds iff every key of the batch is a string (also the loop at lines 121-125) |
| `Realisation.CheckPairs` | App/Realisation/CacheMemcached.php:107-111 | the validation loop succeeds iff every key and every value of the batch is a string |
| `Realisation.FillMissing` | App/Realisation/CacheMemcached.php:92-96 | the completed result contains every requested key, keeps every entry of the client's reply unchanged, gives every added entry `$default`, and has no key outside reply plus request |
| `Realisation.CacheMemcached.constructor` | App/Realisation/CacheMemcached.php:21-24 | the adapter owns a fresh client whose server holds the given contents and which has had no calls |
| `Realisation.CacheMemcached.LookupOrDefault` | App/Realisation/CacheMemcached.php:36-42 | one client `get`; a `false` reply becomes `$default`, any other reply is returned; the store is unchanged |
| `Realisation.CacheMemcached.Get` | App/Realisation/CacheMemcached.php:31-43 | as written: errors exactly for string keys, with message "Key must be string." and no client call; a non-string key is looked up once, giving `$default` on a `false` reply and the reply otherwise; the store is unchanged |
| `Realisation.CacheMemcached.GetCorrected` | App/Realisation/CacheMemcached.php:31-43 | with the guard negated: errors exactly for non-string keys, with no client call; a string key is looked up once and yields its stored value, or `$default` when absent or stored as `false` |
| `Realisation.CacheMemcached.Set` | App/Realisation/CacheMemcached.php:51-57 | errors, with no call and no change, iff key or value is not a string; otherwise forwards once with the same key, value and ttl and returns the client's boolean |
| `Realisation.CacheMemcached.Delete` | App/Realisation/CacheMemcached.php:63-69 | errors, with no call and no change, iff the key is not a string; otherwise forwards the key once and returns the client's boolean |
| `Realisation.CacheMemcached.Clear` | App/Realisation/CacheMemcached.php:74-76 | always forwards one flush and returns its boolean |
| `Realisation.CacheMemcached.GetMultiple` | App/Realisation/CacheMemcached.php:83-99 | errors, with no `getMulti` call, iff some key is not a string; otherwise one `getMulti` call, and the result has exactly the requested keys, each with its stored value or `$default`; the store is unchanged |
| `Realisation.CacheMemcached.SetMultiple` | App/Realisation/CacheMemcached.php:106-114 | errors, with no call and no change, iff some key or value is not a string; otherwise forwards the same batch and ttl once and returns the client's boolean; on success the store holds exactly its old keys plus the batch's keys |
| `Realisation.CacheMemcached.DeleteMultiple` | App/Realisation/CacheMemcached.php:120-128 | errors, with no call and no change, iff some key is not a string; otherwise forwards the same batch once and returns the client's boolean |
| `Realisation.CacheMemcached.Has` | App/Realisation/CacheMemcached.php:134-144 | errors, with no call, iff the key is not a string; otherwise one client `get`, returning `false` exactly when the reply is `false`; the store is unchanged; with only strings stored, the result is whether the key is stored |
| `Scenarios.NonStringKey` | App/Realisation/CacheMemcached.php:31-69 | a non-string key is refused by `set`, `delete` and `has` without a client call, while `get` as written forwards it as the only call |
| `Scenarios.InvalidBatch` | App/Realisation/CacheMemcached.php:83-128 | a batch with a non-string element is refused by all three batch operations, with no client call and no write |
| `Scenarios.MissYieldsDefault` | App/Realisation/CacheMemcached.php:36-40 | on an empty cache, the corrected `get` of any string key yields the default |
| `Scenarios.MissAsWritten` | App/Realisation/CacheMemcached.php:32-34 | as written, that lookup is refused instead |
| `Scenarios.SetThenGet` | App/Realisation/CacheMemcached.php:51-57 | after a successful `set`, the corrected `get` returns the stored value, not the default |
| `Scenarios.SetThenGetAsWritten` | App/Realisation/CacheMemcached.php:31-34 | as written, `get` refuses the key that `set` has just stored |
| `Scenarios.HasAroundSet` | App/Realisation/CacheMemcached.php:134-144 | `has` is false for an absent key and true after a successful `set` of it |
| `Scenarios.GetMultipleFills` | App/Realisation/CacheMemcached.php:90-98 | with only "a" stored, `getMultiple(["a","b","c"], D)` is `{a: stored, b: D, c: D}` |
| `Scenarios.ClearThenHas` | App/Realisation/CacheMemcached.php:74-76 | after a successful `clear`, `has` is false for every key |
| `Scenarios.DeleteMultipleThenGet` | App/Realisation/CacheMemcached.php:120-128 | after a successful `deleteMultiple(["a","b"])`, both keys read as the default through the corrected `get` |
| `Scenarios.DeleteMultipleThenGetAsWritten` | App/Realisation/CacheMemcached.php:31-34 | as written, both reads after that `deleteMultiple` are refused |
| `Scenarios.SetMultipleThenGet` | App/Realisation/CacheMemcached.php:106-114 | after a successful `setMultiple` of string pairs with distinct keys, the corrected `get` reads back every pair's value |
| `Scenarios.SetMultipleThenGetAsWritten` | App/Realisation/CacheMemcached.php:31-34 | as written, those reads are refused |
| `Scenarios.IntKeyReadsDigitKey` | App/Realisation/CacheMemcached.php:31-42 | as written, `get(5)` passes the guard and, after a successful `set("5", "v")`, returns "v", because the client converts the key to a string |
| `Scenarios.StoredFalseLooksAbsent` | App/Realisation/CacheMemcached.php:38-40 | on two stores that differ only by a stored `false`, `has` and the corrected `get` give the same miss replies |
| `Scenarios.WritesKeepStrings` | App/Realisation/CacheMemcached.php:51-128 | writes through the adapter keep a string-only store string-only, so every `false` reply afterwards is a miss |

## Findings

| source | as written | input that shows it | evidently intended | confidence | as-written member | corrected member |
|---|---|---|---|---|---|---|
| App/Realisation/CacheMemcached.php:32 | `if (is_string($key))` returns "Key must be string." for every string key, and only non-string keys reach the client | `set("k", "v")` then `get("k")`: the `get` returns the exception, not "v" | `if (!is_string($key))`, as in `delete` and `has` and as the message says | high, by reading; not executed | `Scenarios.SetThenGetAsWritten` (on `Realisation.CacheMemcached.Get`) | `Realisation.CacheMemcached.GetCorrected` (proved in `Scenarios.SetThenGet` and `Scenarios.MissYieldsDefault`) |

## Left out

- Constructor: the host parameter, `new Memcached()`, `addServer` and the port constant 11211 are connection set-up. The model's constructor takes the server's contents at connection time instead.
- The Memcached client: its code is not part of this model. The model keeps only the abstract contract described under `Backend`, and which boolean a write replies is left open. Server-side failures, the wire protocol and connection errors are not modelled.
- Backend.Memcached.Get: only `Int`, `Bool` and `Null` keys are converted. PHP also converts a float, and an object with `__toString`, to a string for the client's `string $key`, and throws a `TypeError` for an array or any other object. The model keeps all of these as `Other` and looks them up unconverted, so they always miss in a store written through the adapter.
- Key validity: Memcached refuses empty keys, keys over 250 bytes and keys with control characters. The stand-in accepts any key.
- TTL: `$ttl` is forwarded unchanged, and the model checks that. Expiry is not modelled, because there is no clock, so a stored entry stays until it is deleted or flushed.
- `getMulti` returning `false` on failure is not modelled. Its reply is always the map of found keys.
- `deleteMulti` replies with an array of per-key results in the PHP client. The model treats its reply as one aggregate boolean, as the adapter's documented return type says.
- PHP array semantics: numeric-string keys are coerced to integers, and arrays keep insertion order. Keys are taken as already-typed values, and the result of `getMultiple` is a map without order.
- Iterables: `$keys` and `$values` are sequences. A PHP generator, which could only be iterated once, is not modelled. Neither is a batch argument that cannot be iterated: PHP's `foreach` warns and skips the validation loop (lines 84, 107, 121), and the call to `getMulti`, `setMulti` or `deleteMulti` then fails on the non-array. The sequence types cannot express that input.
- Concurrency and other clients sharing the server, for example a `flush` that removes their keys: the model is sequential and knows of one client only.
