/**
 The slice of JavaScript value semantics the client relies on: truthiness (`!x`),
 and plain objects as ordered string-keyed property lists with property
 assignment and object spread (`{ ...a, ...b }`).
 */
module Js {
  import opened Wrappers

  /** A JavaScript value. Numbers are integers here: NaN and -0 are not represented. */
  datatype Value =
    | Undefined
    | Null
    | Bool(b: bool)
    | Num(n: int)
    | Str(s: string)
    | Obj(fields: seq<(string, Value)>)

  /** JavaScript's truthiness, the test behind `!x`: every object is truthy. */
  predicate Truthy(v: Value)
    // the falsy values are exactly the five listed by the language
    ensures Truthy(v) <==> v !in {Undefined, Null, Bool(false), Num(0), Str("")}
  {
    match v
    case Undefined => false
    case Null => false
    case Bool(b) => b
    case Num(n) => n != 0
    case Str(s) => s != ""
    case Obj(_) => true
  }

  /** `h[k]`: the value of the first property with key `k`, if there is one. */
  function Lookup(h: seq<(string, string)>, k: string): Option<string>
  {
    if |h| == 0 then None
    else if h[0].0 == k then Some(h[0].1)
    else Lookup(h[1..], k)
  }

  /** `k in h`: some property of `h` has key `k`. */
  predicate HasKey(h: seq<(string, string)>, k: string) {
    Lookup(h, k).Some?
  }

  /** A plain object never has two own properties with the same key. */
  predicate DistinctKeys(h: seq<(string, string)>) {
    |h| == 0 || (!HasKey(h[1..], h[0].0) && DistinctKeys(h[1..]))
  }

  /**
   The own string-valued properties of a plain object, in the order they were
   created. Enumeration lists array-index keys (such as "0") first, in numeric
   order; that reordering is not modelled, so positions here are creation order.
   */
  type Props = h: seq<(string, string)> | DistinctKeys(h) witness []

  /** Property assignment on a plain object: an existing key keeps its place, a new key is created last. */
  function Put(h: Props, k: string, v: string): (r: Props)
    ensures Lookup(r, k) == Some(v)
    ensures forall k' :: k' != k ==> Lookup(r, k') == Lookup(h, k')
    ensures HasKey(h, k) ==> |r| == |h| && forall i :: 0 <= i < |h| ==> r[i].0 == h[i].0
    ensures !HasKey(h, k) ==> r == h + [(k, v)]
  {
    if |h| == 0 then
      assert [(k, v)][1..] == [];
      [(k, v)]
    else if h[0].0 == k then [(k, v)] + h[1..]
    else
      var t := Put(h[1..], k, v);
      assert Lookup(t, h[0].0) == Lookup(h[1..], h[0].0);
      [h[0]] + t
  }

  /**
   `{ ...h, ...extra }` with `h` written first: every property of `extra` is
   assigned onto `h` in order, so `extra` wins on a clash while `h`'s keys keep
   their places in creation order.
   */
  function Spread(h: Props, extra: Props): (r: Props)
    ensures forall k :: Lookup(r, k) == if HasKey(extra, k) then Lookup(extra, k) else Lookup(h, k)
    ensures |h| <= |r| && forall i :: 0 <= i < |h| ==> r[i].0 == h[i].0
    decreases |extra|
  {
    if |extra| == 0 then h
    else Spread(Put(h, extra[0].0, extra[0].1), extra[1..])
  }
}
