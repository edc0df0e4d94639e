/** The JavaScript values a parsed JSON document can hold, and the few
    language operations the dashboard applies to them. */
module JsValues {
  import opened Wrappers

  /** A value produced by `JSON.parse`, plus `Undefined`, the result of
      reading a property that is not there. */
  datatype JsValue =
    | Undefined
    | Null
    | Bool(b: bool)
    | Num(n: real)
    | Str(s: string)
    | Arr(items: seq<JsValue>)
    | Obj(props: map<string, JsValue>)

  /** ToBoolean (section 7.1.2 of ECMA-262): the values `||` treats as true.
      Numbers are exact reals here, so -0 and +0 are the same falsy zero;
      NaN cannot come out of JSON. */
  predicate Truthy(v: JsValue)
    ensures !Truthy(v) <==> v in {Undefined, Null, Bool(false), Num(0.0), Str("")}
  {
    match v
    case Undefined => false
    case Null => false
    case Bool(b) => b
    case Num(n) => n != 0.0
    case Str(s) => s != ""
    case Arr(_) => true
    case Obj(_) => true
  }

  /** The expression `v || null`. */
  function OrNull(v: JsValue): (r: JsValue)
    ensures Truthy(v) ==> r == v
    ensures !Truthy(v) ==> r == Null
    ensures Truthy(r) <==> Truthy(v)
    ensures r != Undefined
  {
    if Truthy(v) then v else Null
  }

  /** The loose comparison `v != null`, which is false for both null and undefined. */
  predicate NotNullish(v: JsValue) {
    !v.Null? && !v.Undefined?
  }

  /** The TypeError thrown when a property is read from null or undefined. */
  datatype JsError = CannotReadProperty(name: string)

  /** The property read `datum.name`. Reading from null or undefined throws;
      reading from any other non-object gives undefined, which holds for the
      field names the dashboard reads (none of them is an own or inherited
      property of a primitive or an array). */
  function GetProperty(datum: JsValue, name: string): (r: Result<JsValue, JsError>)
    ensures r.Failure? <==> datum.Null? || datum.Undefined?
    ensures r.Failure? ==> r.error == CannotReadProperty(name)
    ensures r.Success? && datum.Obj? && name in datum.props ==> r.value == datum.props[name]
    ensures r.Success? && !(datum.Obj? && name in datum.props) ==> r.value == Undefined
  {
    match datum
    case Undefined => Failure(CannotReadProperty(name))
    case Null => Failure(CannotReadProperty(name))
    case Obj(props) => Success(if name in props then props[name] else Undefined)
    case _ => Success(Undefined)
  }
}
