/** JavaScript value conventions the app relies on: optional values, the
    `x || fallback` default (which also replaces a falsy 0 or ""), and plain
    objects read through `Object.keys` / `Object.values` in key order. */
module Js {

  /** A value that may be `undefined` / `null`. */
  datatype Option<T> = None | Some(value: T) {
    function GetOr(fallback: T): T {
      match this
      case Some(v) => v
      case None => fallback
    }
  }

  /** `n || fallback` for a number that may be missing: 0 is falsy too. */
  function OrInt(n: Option<int>, fallback: int): int {
    if n.Some? && n.value != 0 then n.value else fallback
  }

  /** `b || false` for a flag that may be missing. */
  predicate OrFalse(b: Option<bool>) {
    b.Some? && b.value
  }

  /** Truthiness of a string that may be missing: `null`, `undefined` and "" are falsy. */
  predicate Truthy(s: Option<string>) {
    s.Some? && |s.value| > 0
  }

  /** One property of a plain object. */
  datatype Entry<V> = Entry(key: string, value: V)

  /** A plain object, as its properties in `Object.keys` order (integer-like
      keys first in ascending order, then the others in insertion order). */
  type Obj<V> = seq<Entry<V>>

  /** `Object.keys(o)` */
  function Keys<V>(o: Obj<V>): (ks: seq<string>)
    ensures |ks| == |o|
    ensures forall i :: 0 <= i < |o| ==> ks[i] == o[i].key
  {
    seq(|o|, i requires 0 <= i < |o| => o[i].key)
  }

  /** `Object.values(o)` */
  function Values<V>(o: Obj<V>): (vs: seq<V>)
    ensures |vs| == |o|
    ensures forall i :: 0 <= i < |o| ==> vs[i] == o[i].value
  {
    seq(|o|, i requires 0 <= i < |o| => o[i].value)
  }

  /** A parsed object never repeats a key. */
  predicate DistinctKeys<V>(o: Obj<V>) {
    forall i, j :: 0 <= i < j < |o| ==> o[i].key != o[j].key
  }
}
