/** The JavaScript values the chat layer passes around: tool arguments,
    tool results and the `{error: ...}` / `{result: ...}` wrappers. */
module Js {
  import opened Wrappers

  /** A JavaScript value, as far as the chat layer inspects one. Numbers
      are integers here; objects map property names to values. */
  datatype JsValue =
    | Undefined
    | Null
    | Bool(b: bool)
    | Num(n: int)
    | Str(s: string)
    | Arr(items: seq<JsValue>)
    | Obj(fields: map<string, JsValue>)

  /** V8's message for reading property `key` of `undefined` or `null`. */
  function CannotReadMessage(target: string, key: string): string
  {
    "Cannot read properties of " + target + " (reading '" + key + "')"
  }

  /** `target[key]`: a missing property reads as `undefined`; reading any
      property of `undefined` or `null` throws a `TypeError`. */
  function ReadProperty(target: JsValue, key: string): (r: Result<JsValue, string>)
    ensures r.Err? <==> target == Undefined || target == Null
    ensures target.Obj? && key in target.fields ==> r == Ok(target.fields[key])
    ensures target.Obj? && key !in target.fields ==> r == Ok(Undefined)
    ensures target != Undefined && target != Null && !target.Obj? ==> r == Ok(Undefined)
  {
    match target
    case Undefined => Err(CannotReadMessage("undefined", key))
    case Null => Err(CannotReadMessage("null", key))
    case Obj(fields) => Ok(if key in fields then fields[key] else Undefined)
    case _ => Ok(Undefined)
  }

  /** `{ error: message }` */
  function ErrorObject(message: string): JsValue
  {
    Obj(map["error" := Str(message)])
  }

  /** `{ result: value }` */
  function ResultObject(value: JsValue): JsValue
  {
    Obj(map["result" := value])
  }

  /** The truthiness test `if (!s)` applies to an optional string: absent
      and empty strings are falsy. */
  predicate Truthy(s: Option<string>)
  {
    s.Some? && s.value != ""
  }

  /** `${s}` for a string that may be `undefined`. */
  function ShowOrUndefined(s: Option<string>): string
  {
    if s.Some? then s.value else "undefined"
  }

  /** `${s}` for a string that may be `null`. */
  function ShowOrNull(s: Option<string>): string
  {
    if s.Some? then s.value else "null"
  }
}
