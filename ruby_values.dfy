/**
 The Ruby values an Ansible inventory is made of (nil, booleans, integers,
 strings, arrays and string-keyed hashes), the Hash operations the
 inventory builder relies on (`Hash#[]`, `Hash#merge` and the in-place
 writes of `update`/`[]=`) and, to say where each part of a nested document
 sits, `Hash#dig`.
 */
module RubyValues {

  datatype Option<T> = None | Some(value: T)

  datatype Value =
    | Nil
    | Bool(b: bool)
    | Int(i: int)
    | Str(s: string)
    | List(items: seq<Value>)
    | Hash(entries: map<string, Value>)

  /** Ruby truthiness: only `nil` and `false` are falsy. */
  predicate Truthy(v: Value) {
    v != Nil && v != Bool(false)
  }

  /** `hash[key]`: the stored value, or `nil` when the key is missing. */
  function Get(h: map<string, Value>, key: string): Value
  {
    if key in h then h[key] else Nil
  }

  /** `a.merge(b)`: every key of either hash; on a clash the value of `b` wins. */
  function Merge(a: map<string, Value>, b: map<string, Value>): (r: map<string, Value>)
    ensures r.Keys == a.Keys + b.Keys
    ensures forall k :: k in b ==> r[k] == b[k]
    ensures forall k :: k in a && k !in b ==> r[k] == a[k]
  {
    a + b
  }

  /** An array of Ruby strings. */
  function StrList(ss: seq<string>): (v: Value)
    ensures v.List? && |v.items| == |ss|
    ensures forall i :: 0 <= i < |ss| ==> v.items[i] == Str(ss[i])
  {
    List(seq(|ss|, i requires 0 <= i < |ss| => Str(ss[i])))
  }

  /** No element of `xs` after `xs[j]` has the key of `xs[j]`. */
  predicate LastWithKey<T(!new)>(xs: seq<T>, key: T -> string, j: int)
    requires 0 <= j < |xs|
  {
    forall k :: j < k < |xs| ==> key(xs[k]) != key(xs[j])
  }

  /**
   The hash obtained by writing `key(x) => value(x)` for each `x` of `xs` in
   turn into `{}`, as `reduce({}) { |h, x| h.update(key(x) => value(x)) }` and
   `each_with_object({}) { |x, h| h[key(x)] = value(x) }` do. It has one
   entry per distinct key (duplicates collapse); `LastWriteWins` gives the values.
   */
  function UpdateFold<T(!new)>(xs: seq<T>, key: T -> string, value: T -> Value): (h: map<string, Value>)
    ensures h.Keys == set x | x in xs :: key(x)
  {
    if xs == [] then map[]
    else
      var prefix, last := xs[..|xs| - 1], xs[|xs| - 1];
      assert forall x :: x in xs <==> x in prefix || x == last;
      UpdateFold(prefix, key, value)[key(last) := value(last)]
  }

  /** The value `UpdateFold` keeps for a key is the one written by the last element with that key. */
  lemma {:induction false} LastWriteWins<T(!new)>(xs: seq<T>, key: T -> string, value: T -> Value, j: int)
    requires 0 <= j < |xs| && LastWithKey(xs, key, j)
    ensures key(xs[j]) in UpdateFold(xs, key, value)
    ensures UpdateFold(xs, key, value)[key(xs[j])] == value(xs[j])
  {
    if j < |xs| - 1 {
      var prefix := xs[..|xs| - 1];
      assert LastWithKey(prefix, key, j);
      LastWriteWins(prefix, key, value, j);
    }
  }

  /** `value.dig(*path)`: follows `path` through nested hashes, `nil` (None) as soon as a key is missing. */
  function Dig(v: Value, path: seq<string>): Option<Value>
    decreases |path|
  {
    if path == [] then Some(v)
    else if v.Hash? && path[0] in v.entries then Dig(v.entries[path[0]], path[1..])
    else None
  }

  /** `v` is present and is a hash whose key set is exactly `keys`. */
  predicate HashWithKeys(v: Option<Value>, keys: set<string>) {
    v.Some? && v.value.Hash? && v.value.entries.Keys == keys
  }
}
