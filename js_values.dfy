/** Values of a parsed JSON request body, as the route handlers see them
    after destructuring `req.body`. A key the body does not carry reads as
    JavaScript's `undefined`, written `Absent` here. A number is kept as the
    exact real its JSON text denotes, so an overflow to `Infinity` or an
    underflow to 0 during parsing is not represented. */
module JsValues {

  datatype JsValue =
    | Absent
    | Null
    | Bool(b: bool)
    | Num(x: real)
    | Str(s: string)
    | Arr(elems: seq<JsValue>)
    | Obj(entries: seq<(string, JsValue)>)

  /** JavaScript truthiness: what `!!v` yields. The falsy JSON values are
      exactly `undefined`, `null`, `false`, zero and the empty string. */
  predicate Truthy(v: JsValue)
    ensures !Truthy(v) <==> v in {Absent, Null, Bool(false), Num(0.0), Str("")}
  {
    match v
    case Absent => false
    case Null => false
    case Bool(b) => b
    case Num(x) => x != 0.0
    case Str(s) => s != ""
    case Arr(_) => true
    case Obj(_) => true
  }

  /** `v || fallback`: the value itself when truthy, the fallback otherwise. */
  function OrElse(v: JsValue, fallback: JsValue): (r: JsValue)
    ensures Truthy(v) ==> r == v
    ensures !Truthy(v) ==> r == fallback
    ensures Truthy(fallback) ==> Truthy(r)
  {
    if Truthy(v) then v else fallback
  }
}
