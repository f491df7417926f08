/** The response envelope both client modules unwrap after
    `supabase.functions.invoke(name, {body})`: the invocation yields `{data, error}`;
    an `error` is thrown first, then a `data` without a truthy `success` is thrown as
    its `error` field, and otherwise `data` is used. How the Supabase client turns an
    HTTP response into `{data, error}` is not part of this model: the invocation
    result is a parameter. */
module Envelope {
  import opened Js

  /** The result of `supabase.functions.invoke`: the message of the invocation
      error, if there is one, and the parsed body (`undefined` or `null` when absent). */
  datatype Invocation = Invocation(error: Option<string>, data: Option<Value>)

  /** Unwraps the envelope; a failure carries the value `new Error(...)` is built from.
      `defaultMessage` stands in for an empty error message and for a missing `data.error`. */
  function Unwrap(inv: Invocation, defaultMessage: string): (r: Result<Value, Value>)
    ensures inv.error.Some? ==>
      r == Failure(Str(if inv.error.value != "" then inv.error.value else defaultMessage))
    ensures inv.error.None? && !Truthy(Get(inv.data, "success")) ==>
      r == Failure(if Truthy(Get(inv.data, "error")) then Get(inv.data, "error").value else Str(defaultMessage))
    ensures r.Success? <==> inv.error.None? && Truthy(Get(inv.data, "success"))
    ensures r.Success? ==> inv.data == Some(r.value)
    ensures r.Failure? ==> Truthy(Some(r.error)) || r.error == Str(defaultMessage)
  {
    if inv.error.Some? then
      Failure(Or(Some(Str(inv.error.value)), Some(Str(defaultMessage))).value)
    else if !Truthy(Get(inv.data, "success")) then
      Failure(Or(Get(inv.data, "error"), Some(Str(defaultMessage))).value)
    else
      Success(inv.data.value)
  }

  /** The invocation error decides alone: whatever `data` holds, it is never looked at
      when there is an error. */
  lemma ErrorCheckedFirst(message: string, data1: Option<Value>, data2: Option<Value>, defaultMessage: string)
    ensures Unwrap(Invocation(Some(message), data1), defaultMessage)
         == Unwrap(Invocation(Some(message), data2), defaultMessage)
    ensures Unwrap(Invocation(Some(message), data1), defaultMessage).Failure?
  {
  }
}
