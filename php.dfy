/**
 * PHP values as the cache adapter sees them, and the one return channel it uses
 * for both results and argument errors.
 */
module Php {

  /** A dynamically typed PHP value, with just enough cases to tell strings
      from everything else and to recognise the literal `false`. Arrays,
      floats and objects fall under `Other`. */
  datatype Val = Str(s: string) | Int(i: int) | Bool(b: bool) | Null | Other

  /** PHP's `is_string`. */
  predicate IsString(v: Val) {
    v.Str?
  }

  /** PHP's `(string)` of an integer: its decimal digits, with a leading `-`
      when negative. */
  function IntString(i: int): string {
    if i < 0 then "-" + NatString(-i) else NatString(i)
  }

  function NatString(n: nat): string
    decreases n
  {
    if n < 10 then ["0123456789"[n]] else NatString(n / 10) + ["0123456789"[n % 10]]
  }

  /** Every element of a batch of keys is a string. */
  predicate AreStrings(keys: seq<Val>) {
    forall i :: 0 <= i < |keys| ==> IsString(keys[i])
  }

  /** Every key and every value of a batch of key => value pairs is a string. */
  predicate ArePairsOfStrings(values: seq<(Val, Val)>) {
    forall i :: 0 <= i < |values| ==> IsString(values[i].0) && IsString(values[i].1)
  }

  /** The set of keys named by a batch. */
  function KeySet(keys: seq<Val>): set<Val> {
    set k | k in keys
  }

  /** Either the operation's own result, or the `InvalidArgumentException` the
      adapter hands back (through the same return channel) with its message. */
  datatype Result<T> = Ok(value: T) | Err(msg: string)
}
