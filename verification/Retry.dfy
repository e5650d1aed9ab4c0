/**
 The HTTP client that the rate provider calls: one request is repeated while its replies are worth
 another try and the back-off policy allows one.
 */
module Retry {
  import opened Prelude

  /** What one request comes back with; `decoded` is the JSON body, if it is one. */
  datatype Reply<T> =
    | NoReply(msg: string)
    | Answer(status: int, decoded: Option<T>)

  datatype Error =
    | Transport(msg: string)
    | ServerError(status: int)
    | BadStatus(status: int)
    | BadBody
    | Cancelled

  datatype Outcome<T> =
    | Done(value: T)
    | Retryable(error: Error)
    | Permanent(error: Error)

  function Try<T>(r: Reply<T>): Outcome<T> {
    match r
    case NoReply(msg) => Retryable(Transport(msg))
    case Answer(status, decoded) =>
      if status >= 500 then Retryable(ServerError(status))
      else if status != 200 then Permanent(BadStatus(status))
      else if decoded.None? then Permanent(BadBody)
      else Done(decoded.value)
  }

  /** No reply, or the server's own error. */
  predicate WorthAnother<T>(r: Reply<T>) {
    match r
    case NoReply(_) => true
    case Answer(status, _) => status >= 500
  }

  /**
   The i-th request gets replies[i], and |replies| of them are sent before the policy gives up or, if
   `cancelled`, the caller does.  Only a missing reply or a server error is tried again, so requests
   stop at the first reply that settles the call or when there may be no more.  A 200 whose body
   decodes is the only success, and every other last reply has its own error.
   */
  method DoJSON<T>(replies: seq<Reply<T>>, cancelled: bool) returns (result: Outcome<T>, sent: nat)
    requires replies != []
    ensures 1 <= sent <= |replies|
    ensures forall i :: 0 <= i < sent - 1 ==> WorthAnother(replies[i])
    ensures sent < |replies| ==> !WorthAnother(replies[sent - 1])
    ensures WorthAnother(replies[sent - 1]) ==>
      result == Permanent(
        if cancelled then Cancelled
        else match replies[sent - 1]
             case NoReply(msg) => Transport(msg)
             case Answer(status, _) => ServerError(status))
    ensures !WorthAnother(replies[sent - 1]) ==>
      result == if replies[sent - 1].status != 200 then Permanent(BadStatus(replies[sent - 1].status))
                else if replies[sent - 1].decoded.None? then Permanent(BadBody)
                else Done(replies[sent - 1].decoded.value)
  {
    sent := 0;
    while true
      invariant sent < |replies| && forall i :: 0 <= i < sent ==> WorthAnother(replies[i])
      decreases |replies| - sent
    {
      result := Try(replies[sent]);
      sent := sent + 1;
      if !result.Retryable? { return; }
      if sent == |replies| { return Permanent(if cancelled then Cancelled else result.error), sent; }
    }
  }
}
