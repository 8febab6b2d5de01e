/**
 * JavaScript values as far as a thrown error is inspected, the
 * `GeneralException` class and the `isGeneralException` type guard.
 */
module Exceptions {
  import opened Wrappers

  /**
   * A JavaScript value. An object is given by the properties that a lookup
   * on it finds (its own and those of its prototype chain); a property that
   * is absent reads as `undefined`.
   */
  datatype JsValue =
    | Undefined
    | Null
    | Bool(b: bool)
    | Num(n: int)
    | Str(s: string)
    | Object(properties: map<string, JsValue>)

  /** The `typeof` operator; note that `typeof null` is "object". */
  function TypeOf(v: JsValue): string {
    match v
    case Undefined => "undefined"
    case Null => "object"
    case Bool(_) => "boolean"
    case Num(_) => "number"
    case Str(_) => "string"
    case Object(_) => "object"
  }

  /** Property lookup `v[key]` on an object. */
  function Property(v: JsValue, key: string): JsValue
    requires v.Object?
  {
    if key in v.properties then v.properties[key] else Undefined
  }

  /**
   * `isGeneralException(obj)`. `None` when the check itself throws: reading
   * `obj.message` on `null` is a TypeError, because `typeof null` passes the
   * first test. Otherwise the result is the value of the four-way
   * conjunction, which holds exactly for an object whose `message` is a
   * string and whose `statusCode` is a number.
   */
  function IsGeneralException(obj: JsValue): (r: Option<bool>)
    ensures r == None <==> obj == Null
    ensures r == Some(true) <==>
              obj.Object? && Property(obj, "message").Str? && Property(obj, "statusCode").Num?
    ensures !obj.Object? && !obj.Null? ==> r == Some(false)
  {
    if TypeOf(obj) != "object" then Some(false)
    else if obj.Null? then None
    else
      var message := Property(obj, "message");
      var statusCode := Property(obj, "statusCode");
      Some(message != Undefined && TypeOf(message) == "string" &&
           statusCode != Undefined && TypeOf(statusCode) == "number")
  }

  /** `Error.prototype.message`: an Error built without a message has this one. */
  const DefaultErrorMessage := ""

  /**
   * `new GeneralException(err, statusCode)`. The Error constructor gives the
   * object an own `message` when `err` is given; otherwise lookup finds the
   * prototype's empty message. The parameter property always assigns
   * `statusCode`, `undefined` when it is omitted.
   */
  function NewGeneralException(err: Option<string>, statusCode: Option<int>): (e: JsValue)
    ensures e.Object?
    ensures Property(e, "message") == Str(err.GetOr(DefaultErrorMessage))
    ensures Property(e, "statusCode") == if statusCode.Some? then Num(statusCode.value) else Undefined
  {
    Object(map[
      "name" := Str("Error"),
      "message" := Str(err.GetOr(DefaultErrorMessage)),
      "statusCode" := if statusCode.Some? then Num(statusCode.value) else Undefined])
  }

  /**
   * A `GeneralException` is recognised exactly when it was built with a
   * status code; the message plays no part, since an omitted one is still
   * the prototype's string.
   */
  lemma GeneralExceptionRecognised(err: Option<string>, statusCode: Option<int>)
    ensures IsGeneralException(NewGeneralException(err, statusCode)) == Some(statusCode.Some?)
  {
  }
}
