/**
 * The earlier HTTP handlers served by the Server type: they take the caller's
 * namespace and pod from the verified claims, create ephemeral containers
 * under a bare generated name, wait for Running only, and answer exec-start
 * by hijacking the connection and streaming the container's logs.
 */
module LegacyServer {
  import opened Common
  import opened Names
  import opened Cluster
  import opened Auth
  import opened Readiness
  import opened Replies

  /**
   * How createContainer ends: with its result, or in a nil-pointer panic.
   * A request that decoded without a container config (`{}` or `null`)
   * panics when the config's image is read, which happens only after the
   * pod was fetched.
   */
  datatype CreateRun = Returned(result: Result<CreateResponse, ApiError>) | NilConfigPanic

  /**
   * What server.createContainer does with `request`, the container config
   * the request carried, if any: the fetch error, the panic, the update
   * error, or the bare generated name of the appended container.
   */
  function CreateOutcome(ns: string, podName: string, request: Option<ContainerConfig>, suffix: string,
                         get: PodGetter, update: PodUpdater): (r: CreateRun)
    ensures get(ns, podName).Failure? ==> r == Returned(Failure(get(ns, podName).error))
    ensures r == NilConfigPanic <==> get(ns, podName).Success? && request.None?
    ensures get(ns, podName).Success? && request.Some? ==>
      var sent := WithEphemeral(get(ns, podName).value, NewEphemeral(suffix, request.value));
      && (update(ns, podName, sent).Failure? ==> r == Returned(Failure(update(ns, podName, sent).error)))
      && (update(ns, podName, sent).Success? ==> r == Returned(Success(CreateResponse(GeneratedName(suffix)))))
  {
    match get(ns, podName)
    case Failure(e) => Returned(Failure(e))
    case Success(p) =>
      if request.None? then NilConfigPanic
      else
        match update(ns, podName, WithEphemeral(p, NewEphemeral(suffix, request.value)))
        case Failure(e) => Returned(Failure(e))
        case Success(_) => Returned(Success(CreateResponse(GeneratedName(suffix))))
  }

  /**
   * createContainer: fetch the pod, append one ephemeral container built from
   * the config, submit it, and answer with the container's bare name.
   * `submitted` is the pod handed to the update call, if it was made.
   */
  method CreateContainer(ns: string, podName: string, request: Option<ContainerConfig>, suffix: string,
                         get: PodGetter, update: PodUpdater)
    returns (r: CreateRun, submitted: Option<Pod>)
    ensures r == CreateOutcome(ns, podName, request, suffix, get, update)
    ensures submitted.Some? <==> get(ns, podName).Success? && request.Some?
    ensures submitted.Some? ==>
      submitted.value == WithEphemeral(get(ns, podName).value, NewEphemeral(suffix, request.value))
  {
    var fetched := get(ns, podName);
    if fetched.Failure? {
      return Returned(Failure(fetched.error)), None;
    }
    if request.None? {
      return NilConfigPanic, None;
    }
    var pod := fetched.value;
    var ec := NewEphemeral(suffix, request.value);
    pod := pod.(ephemeralContainers := pod.ephemeralContainers + [ec]);
    submitted := Some(pod);
    var out := update(ns, podName, pod);
    if out.Failure? {
      return Returned(Failure(out.error)), submitted;
    }
    r := Returned(Success(CreateResponse(ec.name)));
  }

  /** The reply after a create run: the status mapping, or no answer after the panic. */
  function RunReply(run: CreateRun): (r: Reply)
    ensures r.Dropped? <==> run.NilConfigPanic?
    ensures run.Returned? ==> r == CreateReply(run.result)
  {
    match run
    case NilConfigPanic => Dropped
    case Returned(created) => CreateReply(created)
  }

  /**
   * The bare id these handlers return is a single dot segment, so the
   * backend's wait and attach, which demand `namespace.pod.container`,
   * reject it.
   */
  lemma BareIdIsOneSegment(suffix: string)
    requires IsRandSuffix(suffix)
    ensures Segments(CreateResponse(GeneratedName(suffix)).id) == [GeneratedName(suffix)]
  {
    GeneratedNameShape(suffix);
    SplitJoin([GeneratedName(suffix)], Dot);
  }

  /**
   * waitForReady: poll the pod in the given namespace, "default" when it is
   * empty, until a status naming the container is Running; a Terminated
   * status does not end the wait.
   */
  method WaitForReady(src: PodSource, namespace: string, pod: string, container: string, fuel: nat)
    returns (r: Polled<ContainerStatus>)
    ensures r == Poll(src, EffectiveNamespace(namespace), pod, container, RunningOnly, 0, fuel)
    ensures r.Done? ==> r.value.name == container && r.value.state.Running?
  {
    var ns := namespace;
    if ns == "" {
      ns := "default";
    }
    r := PollLoop(src, ns, pod, container, RunningOnly, fuel);
  }

  /**
   * A container that is reported Terminated at every poll ends the backend's
   * wait at the first poll but keeps this wait polling to its bound.
   */
  lemma TerminatedKeepsPolling(src: PodSource, ns: string, pod: string, container: string, fuel: nat,
                               p: Pod, s: ContainerStatus)
    requires fuel > 0
    requires p.ephemeralStatuses == [s] && s.name == container && s.state.Terminated?
    requires forall k :: 0 <= k < fuel ==> src.ctxErr(k).None? && src.fetch(ns, pod, k) == Success(p)
    ensures Poll(src, ns, pod, container, RunningOnly, 0, fuel) == StillPolling
    ensures Poll(src, ns, pod, container, RunningOrTerminated, 0, fuel) == Done(s)
  {
    TerminatedEndsOnlyTheBackendWait(s, container);
    assert forall k :: 0 <= k < fuel ==> StepOutcome(src, ns, pod, container, RunningOnly, k).StillPolling? by {
      forall k | 0 <= k < fuel
        ensures StepOutcome(src, ns, pod, container, RunningOnly, k).StillPolling?
      {
        assert src.fetch(ns, pod, k) == Success(p);
      }
    }
    PollUndecided(src, ns, pod, container, RunningOnly, 0, fuel);
    assert src.fetch(ns, pod, 0) == Success(p);
    PollFirstDecisive(src, ns, pod, container, RunningOrTerminated, 0, fuel, 0);
  }

  /** The image the exec handler runs, whatever the request asked for. */
  const BuildkitImage: string := "moby/buildkit"

  /**
   * handleContainersCreate: 401 when the claims cannot be verified, before
   * the pod is touched; a dropped connection when they lack the pod binding;
   * 500 when the body does not decode; otherwise the container is created in
   * the caller's pod and the outcome mapped to a reply. `body` is the decoded
   * request: the decoding error, or the container config it carries, None
   * when it decoded without one.
   */
  method HandleContainersCreate(claims: Result<Claims, string>, body: Result<Option<ContainerConfig>, string>,
                                suffix: string, get: PodGetter, update: PodUpdater)
    returns (reply: Reply, submitted: Option<Pod>)
    ensures claims.Failure? ==>
      reply == Reply(StatusUnauthorized, Some(ClaimsRejected(claims.error)), None) && submitted == None
    // the missing claim is dereferenced before the body is read
    ensures claims.Success? && !PodBound(claims.value) ==> reply == Dropped && submitted == None
    ensures claims.Success? && PodBound(claims.value) && body.Failure? ==>
      reply == Reply(StatusInternalServerError, Some(BodyUnreadable(body.error)), None) && submitted == None
    ensures claims.Success? && PodBound(claims.value) && body.Success? ==>
      reply == RunReply(CreateOutcome(ClaimedNamespace(claims.value), ClaimedPod(claims.value), body.value,
                                      suffix, get, update))
    // a config-less body is answered only when fetching the caller's pod fails
    ensures reply.Dropped? <==>
      && claims.Success?
      && (!PodBound(claims.value) ||
          (body.Success? && body.value.None? && get(ClaimedNamespace(claims.value), ClaimedPod(claims.value)).Success?))
    ensures submitted.Some? ==>
      && claims.Success? && PodBound(claims.value) && body.Success? && body.value.Some?
      && get(ClaimedNamespace(claims.value), ClaimedPod(claims.value)).Success?
      && submitted.value == WithEphemeral(get(ClaimedNamespace(claims.value), ClaimedPod(claims.value)).value,
                                          NewEphemeral(suffix, body.value.value))
  {
    if claims.Failure? {
      return Reply(StatusUnauthorized, Some(ClaimsRejected(claims.error)), None), None;
    }
    if !PodBound(claims.value) {
      return Dropped, None;
    }
    var ns, pod := ClaimedNamespace(claims.value), ClaimedPod(claims.value);
    if body.Failure? {
      return Reply(StatusInternalServerError, Some(BodyUnreadable(body.error)), None), None;
    }
    var created;
    created, submitted := CreateContainer(ns, pod, body.value, suffix, get, update);
    reply := RunReply(created);
  }

  /**
   * handleContainersExec: the create handler with the requested image
   * replaced by the buildkit image, so any container it adds runs buildkit.
   * Setting the image of a body without a config panics before the pod is
   * fetched.
   */
  method HandleContainersExec(claims: Result<Claims, string>, body: Result<Option<ContainerConfig>, string>,
                              suffix: string, get: PodGetter, update: PodUpdater)
    returns (reply: Reply, submitted: Option<Pod>)
    ensures claims.Failure? ==>
      reply == Reply(StatusUnauthorized, Some(ClaimsRejected(claims.error)), None) && submitted == None
    ensures claims.Success? && !PodBound(claims.value) ==> reply == Dropped && submitted == None
    ensures claims.Success? && PodBound(claims.value) && body.Failure? ==>
      reply == Reply(StatusInternalServerError, Some(BodyUnreadable(body.error)), None) && submitted == None
    ensures claims.Success? && body.Success? && body.value.None? ==> reply == Dropped && submitted == None
    ensures claims.Success? && PodBound(claims.value) && body.Success? && body.value.Some? ==>
      reply == RunReply(CreateOutcome(ClaimedNamespace(claims.value), ClaimedPod(claims.value),
                                      Some(body.value.value.(image := BuildkitImage)), suffix, get, update))
    // the fetched caller's pod is submitted with the request's container appended, running buildkit
    ensures submitted.Some? ==>
      && claims.Success? && PodBound(claims.value) && body.Success? && body.value.Some?
      && get(ClaimedNamespace(claims.value), ClaimedPod(claims.value)).Success?
      && submitted.value == WithEphemeral(get(ClaimedNamespace(claims.value), ClaimedPod(claims.value)).value,
                                          NewEphemeral(suffix, body.value.value.(image := BuildkitImage)))
      && var added := submitted.value.ephemeralContainers[|submitted.value.ephemeralContainers| - 1];
      && added.image == BuildkitImage
      && added.command == body.value.value.entrypoint && added.args == body.value.value.cmd
  {
    if claims.Success? && body.Success? && body.value.None? {
      return Dropped, None;
    }
    var data := body;
    if data.Success? && data.value.Some? {
      data := Success(Some(data.value.value.(image := BuildkitImage)));
    }
    reply, submitted := HandleContainersCreate(claims, data, suffix, get, update);
  }

  /** handleContainersStart: every start request is answered 304, not modified. */
  function HandleContainersStart(): (status: int)
    ensures status == StatusNotModified
  {
    StatusNotModified
  }

  /** The media type of a raw (hijacked) Docker stream. */
  const RawStreamType: string := "application/vnd.docker.raw-stream"

  const UpgradedLine: string := "HTTP/1.1 101 UPGRADED\r\n"
  const OkLine: string := "HTTP/1.1 200 OK\r\n"

  /** The fixed part written after a 101 status line: content type and upgrade headers. */
  const UpgradedHead: string := UpgradedLine + "Content-Type: " + RawStreamType + "\r\nConnection: Upgrade\r\nUpgrade: tcp\r\n"
  /** The fixed part written after a 200 status line: the content type. */
  const OkHead: string := OkLine + "Content-Type: " + RawStreamType + "\r\n"

  /**
   * What exec-start writes on the hijacked connection before the stream: a
   * 101 status line with the upgrade headers when the request carried an
   * Upgrade header, a 200 status line otherwise, then the content type, the
   * response's own headers and a blank line.
   */
  function ExecStartPreamble(upgrade: bool, headers: string): (r: string)
    ensures HasPrefix(r, UpgradedLine) <==> upgrade
    ensures HasPrefix(r, OkLine) <==> !upgrade
    // the response's headers follow the fixed head at once, and end the preamble with a blank line
    ensures upgrade ==> HasPrefix(r, UpgradedHead) && r[|UpgradedHead|..] == headers + "\r\n"
    ensures !upgrade ==> HasPrefix(r, OkHead) && r[|OkHead|..] == headers + "\r\n"
    ensures HasSuffix(r, headers + "\r\n")
  {
    var head := if upgrade then UpgradedHead else OkHead;
    assert UpgradedLine[9] != OkLine[9];
    assert head[..|UpgradedLine|] == UpgradedLine || head[..|OkLine|] == OkLine;
    var r := head + headers + "\r\n";
    assert r[..|head|] == head;
    assert r[|head|..] == headers + "\r\n";
    assert r[|r| - |headers + "\r\n"|..] == headers + "\r\n";
    r
  }

  /** The stream ids of the engine's multiplexed framing. */
  datatype StreamId = Stdin | Stdout | Stderr

  /** How exec-start ends. */
  datatype ExecStartReply =
    | Refused(status: int, cause: Cause)
    | StillWaiting                             // the readiness poll had not decided within the bound
    | ConnectionDropped                        // a missing claim was dereferenced: the handler panicked
    | Streaming(preamble: string, namespace: string, pod: string, container: string, framedAs: StreamId)

  /**
   * handleExecContainersStart. `container` is the path variable; `src`
   * answers the readiness poll, `logsErr` is the failure, if any, of opening
   * the log stream, `hijackErr` that of hijacking the connection, `upgrade`
   * whether the request has an Upgrade header and `headers` the response
   * headers as written.
   */
  method HandleExecContainersStart(
    claims: Result<Claims, string>, container: string, src: PodSource, fuel: nat,
    logsErr: Option<ApiError>, hijackErr: Option<string>, upgrade: bool, headers: string)
    returns (reply: ExecStartReply)
    ensures claims.Failure? ==> reply == Refused(StatusUnauthorized, ClaimsRejected(claims.error))
    ensures reply == ConnectionDropped <==> claims.Success? && !PodBound(claims.value)
    ensures claims.Success? && PodBound(claims.value) ==>
      var ready := Poll(src, EffectiveNamespace(ClaimedNamespace(claims.value)), ClaimedPod(claims.value),
                        container, RunningOnly, 0, fuel);
      && (ready.Failed? ==> reply == Refused(StatusInternalServerError, NotReady(ready.err)))
      && (ready.StillPolling? ==> reply == StillWaiting)
      && (ready.Done? && logsErr.Some? ==> reply == Refused(StatusInternalServerError, ClusterFailed(logsErr.value)))
      && (ready.Done? && logsErr.None? && hijackErr.Some? ==>
            reply == Refused(StatusInternalServerError, StreamSetupFailed(hijackErr.value)))
      && (ready.Done? && logsErr.None? && hijackErr.None? ==> reply.Streaming?)
    // logs come from the caller's pod, in the namespace as claimed, and are always framed as stderr
    ensures reply.Streaming? ==>
      && claims.Success? && PodBound(claims.value)
      && reply.namespace == ClaimedNamespace(claims.value) && reply.pod == ClaimedPod(claims.value)
      && reply.container == container
      && reply.preamble == ExecStartPreamble(upgrade, headers)
      && reply.framedAs == Stderr
  {
    if claims.Failure? {
      return Refused(StatusUnauthorized, ClaimsRejected(claims.error));
    }
    if !PodBound(claims.value) {
      return ConnectionDropped;
    }
    var ns, pod := ClaimedNamespace(claims.value), ClaimedPod(claims.value);
    var ready := WaitForReady(src, ns, pod, container, fuel);
    if ready.Failed? {
      return Refused(StatusInternalServerError, NotReady(ready.err));
    }
    if ready.StillPolling? {
      return StillWaiting;
    }
    if logsErr.Some? {
      return Refused(StatusInternalServerError, ClusterFailed(logsErr.value));
    }
    if hijackErr.Some? {
      return Refused(StatusInternalServerError, StreamSetupFailed(hijackErr.value));
    }
    return Streaming(ExecStartPreamble(upgrade, headers), ns, pod, container, Stderr);
  }
}
