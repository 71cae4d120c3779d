/** kvue/01-reactive.js: `defineReactive` replaces a property with a getter/setter pair closing
    over a value of its own; there is no dependency tracking. */
module Reactive01 {
  import opened JsValues

  /** A property of the object: a data property, or an accessor pair and its closure value. */
  datatype Prop = Data(v: Value) | Accessor(val: Value)

  /** The value a read of `obj[key]` returns. */
  function ValueOf(props: map<Key, Prop>, k: Key): Value
  {
    if k !in props then Undefined
    else match props[k]
      case Data(v) => v
      case Accessor(val) => val
  }

  /** The closure value after the setter (01-reactive.js:14-24) runs: `newVal` is stored only when
      it differs, which leaves the same value in every case. */
  function Setter(val: Value, newVal: Value): (r: Value)
    ensures r == newVal
    ensures newVal == val ==> r == val
  {
    if newVal != val then newVal else val
  }

  /** The object of the script (`const obj = {}`). */
  class Obj {
    var props: map<Key, Prop>

    constructor ()
      ensures props == map[]
    {
      props := map[];
    }

    /** `defineReactive(obj, key, val)` (01-reactive.js:3-27): a new accessor pair with its own
        closure value; no other property is touched. */
    method DefineReactive(k: Key, val: Value)
      modifies this
      ensures props == old(props)[k := Accessor(val)]
      ensures ValueOf(props, k) == val
    {
      props := props[k := Accessor(val)];
    }

    /** Reading `obj[key]`; for an accessor, the getter (01-reactive.js:10-13) returns the closure
        value. */
    method Get(k: Key) returns (v: Value)
      ensures v == ValueOf(props, k)
    {
      if k in props {
        match props[k]
        case Data(x) => v := x;
        case Accessor(val) => v := val;
      } else {
        v := Undefined;
      }
    }

    /** `obj[key] = newVal`: through the setter for an accessor, otherwise a plain data write. */
    method Set(k: Key, newVal: Value)
      modifies this
      ensures props == old(props)[k := if k in old(props) && old(props)[k].Accessor? then Accessor(newVal) else Data(newVal)]
      ensures ValueOf(props, k) == newVal
    {
      if k in props && props[k].Accessor? {
        props := props[k := Accessor(Setter(props[k].val, newVal))];
      } else {
        props := props[k := Data(newVal)];
      }
    }
  }

  /** The script (01-reactive.js:29-33), returning what `obj.foo` and `obj.bar` hold at its end:
      the write to `foo` is kept, and `bar` keeps the value it was defined with. */
  method Script() returns (foo: Value, bar: Value)
    ensures foo == Str("foooooooooo") && bar == Str("barr")
  {
    var obj := new Obj();
    obj.DefineReactive("foo", Str("fooo"));
    obj.DefineReactive("bar", Str("barr"));
    var _ := obj.Get("foo");
    obj.Set("foo", Str("foooooooooo"));
    foo := obj.Get("foo");
    bar := obj.Get("bar");
  }
}
