/** The slice of JavaScript's value world that the reactive cores touch. */
module JsValues {

  /** Identity of a heap object (a plain object or an array). */
  type ObjId = nat

  /** A property name. Symbol keys are not modelled. */
  type Key = string

  /** Identity of a watcher (closure variants) or of an effect function (Proxy variant). */
  type WatcherId = nat

  /** A JavaScript value. `null` is left out: every core treats it as an object and then
      fails in `Object.keys(null)`. Numbers are integers, so NaN and -0 do not arise and
      datatype equality is exactly `===`. */
  datatype Value = Undefined | Str(s: string) | Num(n: int) | Bool(b: bool) | Ref(id: ObjId)

  /** `typeof v === 'object'` for the values above. */
  predicate IsObject(v: Value)
  {
    v.Ref?
  }

  datatype Option<T> = None | Some(value: T)

  /** No element occurs twice: the shape of a JS `Set` kept in insertion order. */
  ghost predicate NoDup<T>(s: seq<T>)
  {
    forall i, j :: 0 <= i < j < |s| ==> s[i] != s[j]
  }

  /** Number of occurrences of `x` in `s`. */
  function Count<T(==)>(x: T, s: seq<T>): nat
  {
    if s == [] then 0 else (if s[0] == x then 1 else 0) + Count(x, s[1..])
  }

  lemma {:induction false} CountAppend<T>(x: T, a: seq<T>, b: seq<T>)
    ensures Count(x, a + b) == Count(x, a) + Count(x, b)
  {
    if a != [] {
      assert (a + b)[1..] == a[1..] + b;
      CountAppend(x, a[1..], b);
    } else {
      assert a + b == b;
    }
  }

  lemma {:induction false} CountPositive<T>(x: T, s: seq<T>)
    ensures Count(x, s) > 0 <==> x in s
  {
    if s != [] {
      CountPositive(x, s[1..]);
      assert x in s <==> s[0] == x || x in s[1..];
    }
  }
}
