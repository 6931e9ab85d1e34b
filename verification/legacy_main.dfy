/**
 * The first standalone server: every container lives in the fixed pod
 * `forever` of namespace `default`, readiness means Running, and names are
 * made Kubernetes-safe by a character-wise sanitiser.
 */
module LegacyMain {
  import opened Common
  import opened Cluster
  import opened Readiness
  import opened Replies
  import LegacyServer

  const DefaultNamespace: string := "default"
  const FixedPod: string := "forever"

  const KelvinSign: char := '\U{212A}'
  const CapitalIWithDot: char := '\U{0130}'

  /** The characters a sanitised name is made of. */
  predicate IsNameChar(c: char)
  {
    ('a' <= c <= 'z') || ('0' <= c <= '9') || c == '-'
  }

  /**
   * One character of k8sName: lowercased by the simple Unicode case mapping,
   * then kept when it is an ASCII letter or digit and replaced by '-'
   * otherwise. The only characters outside ASCII whose lowercase is an ASCII
   * letter are the Kelvin sign and the dotted capital I.
   */
  function SanitizeChar(c: char): (d: char)
    ensures IsNameChar(d)
    ensures 'A' <= c <= 'Z' ==> d as int == c as int + 32
    ensures ('a' <= c <= 'z' || '0' <= c <= '9') ==> d == c
    ensures c == KelvinSign ==> d == 'k'
    ensures c == CapitalIWithDot ==> d == 'i'
    ensures d == '-' <==> !('A' <= c <= 'Z' || 'a' <= c <= 'z' || '0' <= c <= '9' || c == KelvinSign || c == CapitalIWithDot)
  {
    if 'A' <= c <= 'Z' then (c as int + 32) as char
    else if 'a' <= c <= 'z' || '0' <= c <= '9' then c
    else if c == KelvinSign then 'k'
    else if c == CapitalIWithDot then 'i'
    else '-'
  }

  /** k8sName: the name sanitised character by character. */
  function K8sName(name: string): (r: string)
    ensures |r| == |name|
    ensures forall i :: 0 <= i < |r| ==> r[i] == SanitizeChar(name[i])
    ensures forall i :: 0 <= i < |r| ==> IsNameChar(r[i])
  {
    if |name| == 0 then ""
    else [SanitizeChar(name[0])] + K8sName(name[1..])
  }

  /** A name already made of sanitised characters is left as it is. */
  lemma {:induction false} K8sNameFixes(name: string)
    requires forall i :: 0 <= i < |name| ==> IsNameChar(name[i])
    ensures K8sName(name) == name
  {
    if |name| > 0 {
      K8sNameFixes(name[1..]);
      assert name == [name[0]] + name[1..];
    }
  }

  /** k8sName is idempotent. */
  lemma K8sNameIdempotent(name: string)
    ensures K8sName(K8sName(name)) == K8sName(name)
  {
    K8sNameFixes(K8sName(name));
  }

  /**
   * createContainer: the server's create, always on pod `forever` in
   * namespace `default`, answering with the bare generated name; a request
   * without a container config panics once the pod is fetched.
   */
  method CreateContainer(request: Option<ContainerConfig>, suffix: string, get: PodGetter, update: PodUpdater)
    returns (r: LegacyServer.CreateRun, submitted: Option<Pod>)
    ensures r == LegacyServer.CreateOutcome(DefaultNamespace, FixedPod, request, suffix, get, update)
    ensures submitted.Some? <==> get(DefaultNamespace, FixedPod).Success? && request.Some?
    ensures submitted.Some? ==>
      submitted.value == WithEphemeral(get(DefaultNamespace, FixedPod).value, NewEphemeral(suffix, request.value))
    ensures r.Returned? && r.result.Success? ==> r.result.value.id == GeneratedName(suffix)
  {
    var fetched := get(DefaultNamespace, FixedPod);
    if fetched.Failure? {
      return LegacyServer.Returned(Failure(fetched.error)), None;
    }
    if request.None? {
      return LegacyServer.NilConfigPanic, None;
    }
    var pod := fetched.value;
    var ec := NewEphemeral(suffix, request.value);
    pod := pod.(ephemeralContainers := pod.ephemeralContainers + [ec]);
    submitted := Some(pod);
    var out := update(DefaultNamespace, FixedPod, pod);
    if out.Failure? {
      return LegacyServer.Returned(Failure(out.error)), submitted;
    }
    r := LegacyServer.Returned(Success(CreateResponse(ec.name)));
  }

  /**
   * waitForReady: poll pod `pod` in namespace `default` until a status
   * naming the container is Running; a Terminated status keeps it polling.
   */
  method WaitForReady(src: PodSource, pod: string, container: string, fuel: nat)
    returns (r: Polled<ContainerStatus>)
    ensures r == Poll(src, DefaultNamespace, pod, container, RunningOnly, 0, fuel)
    ensures r.Done? ==> r.value.name == container && r.value.state.Running?
  {
    r := PollLoop(src, DefaultNamespace, pod, container, RunningOnly, fuel);
  }

  /**
   * containerCreate: 500 when the body does not decode; otherwise the
   * container is created in the fixed pod and the outcome mapped to a reply.
   * `body` is the decoding error, or the container config the request
   * carries, None when it decoded without one.
   */
  method HandleContainerCreate(body: Result<Option<ContainerConfig>, string>, suffix: string,
                               get: PodGetter, update: PodUpdater)
    returns (reply: Reply, submitted: Option<Pod>)
    ensures body.Failure? ==>
      reply == Reply(StatusInternalServerError, Some(BodyUnreadable(body.error)), None) && submitted == None
    ensures body.Success? ==>
      reply == LegacyServer.RunReply(LegacyServer.CreateOutcome(DefaultNamespace, FixedPod, body.value, suffix, get, update))
    // a config-less body is answered only when fetching the fixed pod fails
    ensures reply.Dropped? <==> body.Success? && body.value.None? && get(DefaultNamespace, FixedPod).Success?
    ensures submitted.Some? ==>
      && body.Success? && body.value.Some? && get(DefaultNamespace, FixedPod).Success?
      && submitted.value == WithEphemeral(get(DefaultNamespace, FixedPod).value, NewEphemeral(suffix, body.value.value))
  {
    if body.Failure? {
      return Reply(StatusInternalServerError, Some(BodyUnreadable(body.error)), None), None;
    }
    var created;
    created, submitted := CreateContainer(body.value, suffix, get, update);
    reply := LegacyServer.RunReply(created);
  }

  /**
   * The buildkit exec handler of `main`: the create handler with the image
   * forced to the buildkit image; a body without a config panics when its
   * image is set, before the pod is fetched.
   */
  method HandleBuildkitExec(body: Result<Option<ContainerConfig>, string>, suffix: string,
                            get: PodGetter, update: PodUpdater)
    returns (reply: Reply, submitted: Option<Pod>)
    ensures body.Failure? ==>
      reply == Reply(StatusInternalServerError, Some(BodyUnreadable(body.error)), None) && submitted == None
    ensures body.Success? && body.value.None? ==> reply == Dropped && submitted == None
    ensures body.Success? && body.value.Some? ==>
      reply == LegacyServer.RunReply(LegacyServer.CreateOutcome(
        DefaultNamespace, FixedPod, Some(body.value.value.(image := LegacyServer.BuildkitImage)), suffix, get, update))
    // the fixed pod is submitted with the request's container appended, running buildkit
    ensures submitted.Some? ==>
      && body.Success? && body.value.Some? && get(DefaultNamespace, FixedPod).Success?
      && submitted.value == WithEphemeral(get(DefaultNamespace, FixedPod).value,
                                          NewEphemeral(suffix, body.value.value.(image := LegacyServer.BuildkitImage)))
      && var added := submitted.value.ephemeralContainers[|submitted.value.ephemeralContainers| - 1];
      && added.image == LegacyServer.BuildkitImage
      && added.command == body.value.value.entrypoint && added.args == body.value.value.cmd
  {
    if body.Success? && body.value.None? {
      return Dropped, None;
    }
    var data := body;
    if data.Success? && data.value.Some? {
      data := Success(Some(data.value.value.(image := LegacyServer.BuildkitImage)));
    }
    reply, submitted := HandleContainerCreate(data, suffix, get, update);
  }

  /**
   * The exec-start handler of `main`: no claims are checked; it waits for
   * the container in pod `forever` of namespace `default`, opens its logs
   * there, hijacks the connection and streams the logs framed as stderr.
   * The parameters are those of the server's exec-start handler.
   */
  method HandleExecStart(container: string, src: PodSource, fuel: nat,
                         logsErr: Option<ApiError>, hijackErr: Option<string>, upgrade: bool, headers: string)
    returns (reply: LegacyServer.ExecStartReply)
    ensures
      var ready := Poll(src, DefaultNamespace, FixedPod, container, RunningOnly, 0, fuel);
      && (ready.Failed? ==> reply == LegacyServer.Refused(StatusInternalServerError, NotReady(ready.err)))
      && (ready.StillPolling? ==> reply == LegacyServer.StillWaiting)
      && (ready.Done? && logsErr.Some? ==>
            reply == LegacyServer.Refused(StatusInternalServerError, ClusterFailed(logsErr.value)))
      && (ready.Done? && logsErr.None? && hijackErr.Some? ==>
            reply == LegacyServer.Refused(StatusInternalServerError, StreamSetupFailed(hijackErr.value)))
      && (ready.Done? && logsErr.None? && hijackErr.None? ==> reply.Streaming?)
    // every refusal is a 500: there is no authentication here
    ensures reply.Refused? ==> reply.status == StatusInternalServerError
    ensures reply.Streaming? ==>
      && reply.namespace == DefaultNamespace && reply.pod == FixedPod && reply.container == container
      && reply.preamble == LegacyServer.ExecStartPreamble(upgrade, headers)
      && reply.framedAs == LegacyServer.Stderr
  {
    var ready := WaitForReady(src, FixedPod, container, fuel);
    if ready.Failed? {
      return LegacyServer.Refused(StatusInternalServerError, NotReady(ready.err));
    }
    if ready.StillPolling? {
      return LegacyServer.StillWaiting;
    }
    if logsErr.Some? {
      return LegacyServer.Refused(StatusInternalServerError, ClusterFailed(logsErr.value));
    }
    if hijackErr.Some? {
      return LegacyServer.Refused(StatusInternalServerError, StreamSetupFailed(hijackErr.value));
    }
    return LegacyServer.Streaming(LegacyServer.ExecStartPreamble(upgrade, headers), DefaultNamespace, FixedPod,
                                  container, LegacyServer.Stderr);
  }
}
