/**
 * The backend's readiness poll and attach: attach parses a three-segment
 * scoped name, polls until the container is Running or Terminated, opens the
 * container's log stream and copies it to the caller's output, wrapped in the
 * engine's stream-multiplexing writer when the caller asked for multiplexed
 * streams. The log stream, the caller's streams and the copy are oracles.
 */
module BackendAttach {
  import opened Common
  import opened Names
  import opened Cluster
  import opened Readiness

  /**
   * waitForReady: the first status, in the first fetched pod that has one,
   * that names the container and is Running or Terminated; an empty
   * namespace means "default"; a cancelled context or a failed fetch ends the
   * loop with that error and is not retried.
   */
  method WaitForReady(src: PodSource, namespace: string, pod: string, container: string, fuel: nat)
    returns (r: Polled<ContainerStatus>)
    ensures r == Poll(src, EffectiveNamespace(namespace), pod, container, RunningOrTerminated, 0, fuel)
    ensures r.Done? ==> r.value.name == container && (r.value.state.Running? || r.value.state.Terminated?)
  {
    var ns := namespace;
    if ns == "" {
      ns := "default";
    }
    r := PollLoop(src, ns, pod, container, RunningOrTerminated, fuel);
  }

  /** The part of the engine's attach configuration the bridge reads. */
  datatype AttachConfig = AttachConfig(muxStreams: bool)

  /** How an attach ends. */
  datatype AttachOutcome =
    | AttachFailed(err: Error)
    | AttachPending               // the readiness poll had not decided within the bound
    | Copied(namespace: string, pod: string, container: string,
             stdoutFramed: bool, stderrFramed: bool, copyErr: Option<string>)

  /**
   * ContainerAttach. `fetch` answers the readiness poll (its context is
   * never cancelled), `logsErr` is the failure, if any, of opening the log
   * stream, `streamsErr` that of obtaining the caller's streams, and
   * `copyErr` the result of copying the logs out.
   */
  method ContainerAttach(
    name: string, config: AttachConfig,
    fetch: (string, string, nat) -> Result<Pod, ApiError>, fuel: nat,
    logsErr: Option<ApiError>, streamsErr: Option<string>, copyErr: Option<string>)
    returns (r: AttachOutcome)
    ensures |Segments(name)| != 3 ==> r == AttachFailed(InvalidName(name))
    ensures |Segments(name)| == 3 ==>
      var seg := Segments(name);
      var ready := Poll(PodSource(NeverCancelled, fetch), EffectiveNamespace(seg[0]), seg[1], seg[2],
                        RunningOrTerminated, 0, fuel);
      && (ready.Failed? ==> r == AttachFailed(ready.err))
      && (ready.StillPolling? ==> r == AttachPending)
      && (ready.Done? && logsErr.Some? ==> r == AttachFailed(Api(logsErr.value)))
      && (ready.Done? && logsErr.None? && streamsErr.Some? ==> r == AttachFailed(IoFailed(streamsErr.value)))
      && (ready.Done? && logsErr.None? && streamsErr.None? ==> r.Copied?)
    // logs are streamed from the named container of the named pod, in the namespace as given
    ensures r.Copied? ==>
      [r.namespace, r.pod, r.container] == Segments(name) && r.copyErr == copyErr
    // both outputs are framed exactly when the caller asked for multiplexed streams
    ensures r.Copied? ==> (r.stdoutFramed <==> config.muxStreams) && (r.stderrFramed <==> config.muxStreams)
  {
    var s := Segments(name);
    if |s| != 3 {
      return AttachFailed(InvalidName(name));
    }
    var ns, pod, container := s[0], s[1], s[2];
    var ready := WaitForReady(PodSource(NeverCancelled, fetch), ns, pod, container, fuel);
    if ready.Failed? {
      return AttachFailed(ready.err);
    }
    if ready.StillPolling? {
      return AttachPending;
    }
    if logsErr.Some? {
      return AttachFailed(Api(logsErr.value));
    }
    if streamsErr.Some? {
      return AttachFailed(IoFailed(streamsErr.value));
    }
    var stdoutFramed, stderrFramed := false, false;
    if config.muxStreams {
      stderrFramed := true;
      stdoutFramed := true;
    }
    return Copied(ns, pod, container, stdoutFramed, stderrFramed, copyErr);
  }
}
