/** Result wrappers and the error values the bridge reports. */
module Common {

  datatype Option<+T> = None | Some(value: T)

  datatype Result<+T, +E> = Success(value: T) | Failure(error: E)

  /** The error reasons the cluster API reports that the bridge tells apart. */
  datatype ApiError =
    | AlreadyExists(message: string)
    | ApiNotFound(message: string)
    | OtherApiError(message: string)

  /** Errors returned by the bridge's handlers and backend operations. */
  datatype Error =
    | InvalidName(name: string)              // a scoped name with the wrong number of dot segments
    | PodNameMissing                         // the request context carries an empty pod name
    | NamespaceMissing                       // the request context carries an empty namespace
    | ExecNotFound(id: string)               // no exec session under this id
    | Api(cause: ApiError)                   // a cluster API call failed
    | ContextDone(reason: string)            // the request context was cancelled
    | ExecutorFailed(reason: string)         // the remote-exec executor could not be built
    | ContainerNotRunning(container: string) // the watch never showed the container running
    | StreamFailed(reason: string)           // the remote-exec stream ended in an error
    | IoFailed(reason: string)               // a local stream (hijack, copy) failed
    | ContainerNotFound(name: string)        // inspect of a container the bridge does not know
    | IndexOutOfRange(index: nat)            // a Go slice index past the end (a panic in the code)
    | NotImplemented                         // a deliberately unsupported engine-API operation
}
