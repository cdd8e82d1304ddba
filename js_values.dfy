/**
 * JavaScript values as far as the dialog helpers inspect them: the strict
 * equality tests (`=== true`, `=== 'bottom'`), truthiness, the `isObject`
 * predicate of the utility module and property reads through `obj.key` and
 * `obj?.key`.
 */
module JsValues {

  datatype Option<+T> = None | Some(value: T)

  datatype Result<+T, +E> = Success(value: T) | Failure(error: E)

  /** The kinds of value a property can hold. Objects carry their own
      enumerable properties; numbers are integers. */
  datatype Value =
    | Undefined
    | Null
    | Bool(b: bool)
    | Num(n: int)
    | Str(s: string)
    | Arr(items: seq<Value>)
    | Obj(fields: map<string, Value>)

  /** JavaScript truthiness: `undefined`, `null`, `false`, `0` and `''` are falsy. */
  predicate Truthy(v: Value)
  {
    match v
    case Undefined => false
    case Null => false
    case Bool(b) => b
    case Num(n) => n != 0
    case Str(s) => s != ""
    case Arr(_) => true
    case Obj(_) => true
  }

  /** `isObject(item)`: truthy, `typeof item === 'object'` and not an array.
      That holds exactly for plain objects, which are all truthy. */
  predicate IsObject(v: Value)
    ensures IsObject(v) <==> v.Obj?
    ensures IsObject(v) ==> Truthy(v)
  {
    Truthy(v) && (v.Obj? || v.Arr? || v.Null?) && !v.Arr?
  }

  /** `key in obj` followed by `obj[key]` on an object's own properties. */
  function Lookup(props: map<string, Value>, key: string): (r: Option<Value>)
    ensures r.Some? <==> key in props
    ensures r.Some? ==> r.value == props[key]
  {
    if key in props then Some(props[key]) else None
  }

  /** Own properties of a value, as a shallow merge copies them. */
  function OwnFields(v: Value): (fs: map<string, Value>)
    ensures v.Obj? ==> fs == v.fields
    ensures !v.Obj? ==> fs == map[]
  {
    if v.Obj? then v.fields else map[]
  }

  /** Optional-chaining read `v?.key`: `undefined` for a nullish `v` and for
      a property that is not there. */
  function OptionalGet(v: Value, key: string): (r: Value)
    ensures v.Obj? && key in v.fields ==> r == v.fields[key]
    ensures !(v.Obj? && key in v.fields) ==> r == Undefined
  {
    if v.Obj? && key in v.fields then v.fields[key] else Undefined
  }

  /** Plain read `v.key`: a `TypeError` for `null` and `undefined`,
      otherwise as the optional read. */
  function Get(v: Value, key: string): (r: Option<Value>)
    ensures r.None? <==> v.Undefined? || v.Null?
    ensures r.Some? ==> r.value == OptionalGet(v, key)
  {
    if v.Undefined? || v.Null? then None else Some(OptionalGet(v, key))
  }
}
