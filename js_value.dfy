/** JavaScript values as the request coordinator sees them: it stores and
    forwards fetch results and thrown errors without looking inside, and the
    only question it ever asks of a value is whether it is falsy (the
    `cache.get(key) || null` on a cache hit). */
module JsValue {

  /** A JavaScript value. A number or BigInt is represented by an integer
      that is 0 exactly when the value is +0, -0 or 0n (NaN has its own
      case), which is all that its falsiness depends on; objects (arrays,
      records, functions) are kept by an opaque identity. */
  datatype Value =
    | Null
    | Undefined
    | Bool(b: bool)
    | Num(n: int)
    | NaN
    | Str(s: string)
    | Obj(id: nat)

  /** JavaScript's ToBoolean yields false for exactly these values. */
  predicate Falsy(v: Value) {
    v == Null || v == Undefined || v == Bool(false) || v == Num(0) || v == NaN || v == Str("")
  }

  /** The expression `v || null`: a truthy value passes through, every falsy
      value collapses to null. */
  function OrNull(v: Value): (r: Value)
    ensures !Falsy(v) ==> r == v
    ensures Falsy(r) ==> r == Null
    ensures r != v ==> Falsy(v) && r == Null
  {
    if Falsy(v) then Null else v
  }
}
