/**
 * The callbacks an IPC request carries and the result codes they are
 * answered with, shared by the meeting and the auth request handlers.
 */
module Callbacks {
  import opened Wrappers

  /**
   * A `std::function` callback received with a request. Only its identity
   * matters here: a handler either stores it in a slot or invokes it.
   */
  datatype Callback = Callback(id: nat)

  /** One invocation of a callback: the result code and message it was given. */
  datatype Reply = Reply(to: Callback, code: int, message: string)

  /**
   * `NEErrorCode` values. Their numbers are fixed by an SDK header that is
   * not part of this model, so they are left unspecified here.
   */
  const Success: int         // ERROR_CODE_SUCCESS
  const Failed: int          // ERROR_CODE_FAILED
  const ParamError: int      // MEETING_ERROR_FAILED_PARAM_ERROR
  const AlreadyInMeeting: int        // MEETING_ERROR_ALREADY_INMEETING
  const FailedAlreadyInMeeting: int  // MEETING_ERROR_FAILED_ALREADY_IN_MEETING

  /** Invoking a callback behind an `if (cb)` guard: a null callback records nothing. */
  function Notify(cb: Option<Callback>, code: int, message: string): (r: seq<Reply>)
    ensures |r| == if cb.Some? then 1 else 0
    ensures cb.Some? ==> r[0] == Reply(cb.value, code, message)
  {
    if cb.Some? then [Reply(cb.value, code, message)] else []
  }
}
