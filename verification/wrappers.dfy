/** Optional values, standing in for null or undefined values. */
module Wrappers {

  datatype Option<+T> = None | Some(value: T) {

    /** The carried value, or `default` when there is none. */
    function GetOr(default: T): (r: T)
      ensures Some? ==> r == value
      ensures None? ==> r == default
    {
      match this
      case Some(v) => v
      case None => default
    }
  }
}

/** The JavaScript truthiness rules the source relies on, for optional strings. */
module Js {
  import opened Wrappers

  /** An optional string counts as true when it is present and not the empty string. */
  predicate Truthy(s: Option<string>)
  {
    s.Some? && s.value != ""
  }

  /** The value itself when it counts as true, else the fallback. */
  function Or(s: Option<string>, fallback: string): (r: string)
    ensures Truthy(s) ==> Some(r) == s
    ensures !Truthy(s) ==> r == fallback
    ensures r == "" ==> fallback == ""
  {
    if Truthy(s) then s.value else fallback
  }
}

/** What an HTTP route handler sends back, and how thrown values become messages. */
module Http {
  import opened Wrappers

  /** A value caught by a catch clause. */
  datatype Thrown =
    | ErrorInstance(message: string)   // an Error object, which carries a message
    | OtherValue                       // anything else that was thrown

  /** The message of a caught Error object, or the fallback for any other thrown value. */
  function MessageOf(t: Thrown, fallback: string): (m: string)
    ensures t.ErrorInstance? ==> m == t.message
    ensures t.OtherValue? ==> m == fallback
  {
    match t
    case ErrorInstance(msg) => msg
    case OtherValue => fallback
  }

  /** A JSON response: status 200 with a payload, or a non-2xx status with an error message. */
  datatype Reply<+T> =
    | Ok(payload: T)
    | Fail(code: nat, error: string)
  {
    function Code(): nat
    {
      if Ok? then 200 else code
    }
  }

  /** The outcome of reading the request body as JSON: the parsed fields, or what it threw. */
  datatype Body<+T> = Parsed(fields: T) | Unreadable(thrown: Thrown)
}
