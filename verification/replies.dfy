/**
 * The HTTP answers of the earlier create handlers: a status code, the error
 * text written by http.Error (kept here as its cause), and the JSON body
 * encoded afterwards, if any (a nil response encodes as `null`).
 */
module Replies {
  import opened Common
  import opened Cluster

  const StatusOK: int := 200
  const StatusNotModified: int := 304
  const StatusConflict: int := 409
  const StatusInternalServerError: int := 500

  /** Why a handler wrote an error. */
  datatype Cause =
    | ClaimsRejected(message: string)   // token verification failed
    | BodyUnreadable(message: string)   // the request body did not decode
    | ClusterFailed(cause: ApiError)    // fetching or updating the pod failed
    | NotReady(err: Error)              // the readiness poll ended with an error
    | StreamSetupFailed(message: string)

  /**
   * A handler's answer. `encoded` is the JSON body written after any error
   * text: None when nothing is encoded, Some(None) for `null` and
   * Some(Some(c)) for the create response c. `Dropped` is a handler that
   * panicked: net/http recovers the panic and closes the connection without
   * an answer.
   */
  datatype Reply =
    | Reply(status: int, cause: Option<Cause>, encoded: Option<Option<CreateResponse>>)
    | Dropped

  /**
   * The status mapping after create: 200 with the response; 409 for an
   * AlreadyExists error, after which the handler does not return and still
   * encodes the nil response; 500 for any other error, and nothing encoded.
   */
  function CreateReply(created: Result<CreateResponse, ApiError>): (r: Reply)
    ensures r.Reply?
    ensures r.status == StatusOK <==> created.Success?
    ensures r.status == StatusConflict <==> created.Failure? && created.error.AlreadyExists?
    ensures r.status == StatusInternalServerError <==> created.Failure? && !created.error.AlreadyExists?
    ensures created.Success? ==> r.cause == None && r.encoded == Some(Some(created.value))
    ensures created.Failure? ==> r.cause == Some(ClusterFailed(created.error))
    // a body is encoded unless the handler returned early
    ensures r.encoded.Some? <==> r.status != StatusInternalServerError
    ensures r.status == StatusConflict ==> r.encoded == Some(None)
  {
    match created
    case Success(c) => Reply(StatusOK, None, Some(Some(c)))
    case Failure(e) =>
      if e.AlreadyExists? then Reply(StatusConflict, Some(ClusterFailed(e)), Some(None))
      else Reply(StatusInternalServerError, Some(ClusterFailed(e)), None)
  }
}
