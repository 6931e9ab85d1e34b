/**
 * Container lifecycle in the backend: resolving the caller's pod from the
 * request context, create (append one ephemeral container to that pod and
 * return its scoped id), wait (a background readiness poll turned into a
 * single state transition) and the operations that are no-ops or
 * unimplemented.
 */
module BackendState {
  import opened Common
  import opened Names
  import opened Cluster
  import opened Auth
  import opened Readiness
  import opened BackendAttach

  /**
   * What getPod demands of the context: a pod value, and a namespace value
   * whenever the pod name is non-empty (reading an absent value panics).
   */
  predicate HasScope(ctx: Context)
  {
    PodKey in ctx && (GetPod(ctx) != "" ==> NamespaceKey in ctx)
  }

  /**
   * getPod: the caller's (namespace, pod). An empty pod name is reported
   * first, then an empty namespace.
   */
  function GetPodScope(ctx: Context): (r: Result<(string, string), Error>)
    requires HasScope(ctx)
    ensures GetPod(ctx) == "" ==> r == Failure(PodNameMissing)
    ensures GetPod(ctx) != "" && GetNamespace(ctx) == "" ==> r == Failure(NamespaceMissing)
    ensures r.Success? <==> GetPod(ctx) != "" && GetNamespace(ctx) != ""
    ensures r.Success? ==> r.value == (GetNamespace(ctx), GetPod(ctx))
  {
    var podName := GetPod(ctx);
    if podName == "" then Failure(PodNameMissing)
    else
      var ns := GetNamespace(ctx);
      if ns == "" then Failure(NamespaceMissing)
      else Success((ns, podName))
  }

  /**
   * The caller's scope and pod, as create and the listing obtain them:
   * getPod's error, the cluster's error for fetching that pod, or the
   * namespace, the pod name and the fetched pod.
   */
  function ScopedPod(ctx: Context, get: PodGetter): (r: Result<(string, string, Pod), Error>)
    requires HasScope(ctx)
    ensures GetPodScope(ctx).Failure? ==> r == Failure(GetPodScope(ctx).error)
    ensures GetPodScope(ctx).Success? && get(GetNamespace(ctx), GetPod(ctx)).Failure? ==>
      r == Failure(Api(get(GetNamespace(ctx), GetPod(ctx)).error))
    ensures r.Success? ==>
      && GetPodScope(ctx).Success?
      && r.value.0 == GetNamespace(ctx) && r.value.1 == GetPod(ctx)
      && get(GetNamespace(ctx), GetPod(ctx)) == Success(r.value.2)
  {
    match GetPodScope(ctx)
    case Failure(e) => Failure(e)
    case Success((ns, podName)) =>
      match get(ns, podName)
      case Failure(e) => Failure(Api(e))
      case Success(p) => Success((ns, podName, p))
  }

  /**
   * ContainerCreate. `get` and `update` are the cluster's answers and
   * `suffix` the random string; `submitted` is the pod handed to the update
   * call, if it was made. Any failure returns an empty response and the
   * error, and takes no further step.
   */
  method ContainerCreate(ctx: Context, config: ContainerConfig, suffix: string, get: PodGetter, update: PodUpdater)
    returns (resp: CreateResponse, err: Option<Error>, submitted: Option<Pod>)
    requires HasScope(ctx)
    ensures GetPodScope(ctx).Failure? ==>
      resp == CreateResponse("") && err == Some(GetPodScope(ctx).error) && submitted == None
    ensures GetPodScope(ctx).Success? && get(GetPodScope(ctx).value.0, GetPodScope(ctx).value.1).Failure? ==>
      && resp == CreateResponse("") && submitted == None
      && err == Some(Api(get(GetPodScope(ctx).value.0, GetPodScope(ctx).value.1).error))
    // the submitted pod is the fetched one with exactly one entry appended, built from the config
    ensures GetPodScope(ctx).Success? && get(GetPodScope(ctx).value.0, GetPodScope(ctx).value.1).Success? ==>
      submitted == Some(WithEphemeral(get(GetPodScope(ctx).value.0, GetPodScope(ctx).value.1).value,
                                      NewEphemeral(suffix, config)))
    ensures submitted.Some? ==>
      var out := update(GetPodScope(ctx).value.0, GetPodScope(ctx).value.1, submitted.value);
      && (out.Failure? ==> resp == CreateResponse("") && err == Some(Api(out.error)))
      && (out.Success? ==>
            err == None && resp.id == Scoped([out.value.namespace, out.value.name, GeneratedName(suffix)]))
  {
    submitted := None;
    var scope := GetPodScope(ctx);
    if scope.Failure? {
      return CreateResponse(""), Some(scope.error), None;
    }
    var (ns, podName) := scope.value;
    var fetched := get(ns, podName);
    if fetched.Failure? {
      return CreateResponse(""), Some(Api(fetched.error)), None;
    }
    var pod := fetched.value;
    var ec := NewEphemeral(suffix, config);
    pod := pod.(ephemeralContainers := pod.ephemeralContainers + [ec]);
    submitted := Some(pod);
    var out := update(ns, podName, pod);
    if out.Failure? {
      return CreateResponse(""), Some(Api(out.error)), submitted;
    }
    resp := CreateResponse(Join([out.value.namespace, out.value.name, ec.name], Dot));
    err := None;
  }

  /**
   * The id returned by create splits back into namespace, pod and the
   * generated container name, when the pod's namespace and name hold no dot.
   */
  lemma CreatedIdRoundTrip(ns: string, pod: string, suffix: string)
    requires Dot !in ns && Dot !in pod && IsRandSuffix(suffix)
    ensures Segments(Scoped([ns, pod, GeneratedName(suffix)])) == [ns, pod, GeneratedName(suffix)]
  {
    GeneratedNameShape(suffix);
    ScopedRoundTrip(ns, pod, GeneratedName(suffix));
  }

  /** How a container exited. */
  datatype ExitStatus = ExitStatus(exitCode: int, exitedAt: int)

  /**
   * The engine's container state object that wait subscribers read,
   * reduced to what the bridge sets: whether it runs and how it exited.
   */
  class EngineState {
    var running: bool
    var exit: Option<ExitStatus>

    constructor ()
      ensures !running && exit == None
    {
      running := false;
      exit := None;
    }

    method SetStopped(e: ExitStatus)
      modifies this
      ensures !running && exit == Some(e)
    {
      running := false;
      exit := Some(e);
    }

    method SetRunning()
      modifies this
      ensures running && exit == old(exit)
    {
      running := true;
    }
  }

  /**
   * The (running, exit) state the wait task leaves for what the readiness
   * poll returned: stopped with the exit code and finish time for a
   * Terminated status, running for a Running status, and untouched for an
   * error or an undecided poll.
   */
  function WaitView(ready: Polled<ContainerStatus>): (r: (bool, Option<ExitStatus>))
    ensures r.1.Some? <==> ready.Done? && ready.value.state.Terminated?
    ensures r.1.Some? ==> !r.0 && r.1.value == ExitStatus(ready.value.state.exitCode, ready.value.state.finishedAt)
    ensures r.0 <==> ready.Done? && ready.value.state.Running?
  {
    if ready.Done? && ready.value.state.Terminated? then
      (false, Some(ExitStatus(ready.value.state.exitCode, ready.value.state.finishedAt)))
    else if ready.Done? && ready.value.state.Running? then (true, None)
    else (false, None)
  }

  /**
   * ContainerWait: a name without exactly three dot segments is rejected and
   * no state object or poll is started; otherwise the background poll runs
   * (here to its end, within `fuel` polls) and its result is applied to a
   * fresh state object.
   */
  method ContainerWait(name: string, src: PodSource, fuel: nat) returns (st: EngineState?, err: Option<Error>)
    ensures |Segments(name)| != 3 ==> st == null && err == Some(InvalidName(name))
    ensures |Segments(name)| == 3 ==>
      && err == None && st != null && fresh(st)
      && (st.running, st.exit) == WaitView(Poll(src, EffectiveNamespace(Segments(name)[0]), Segments(name)[1],
                                               Segments(name)[2], RunningOrTerminated, 0, fuel))
  {
    var s := Segments(name);
    if |s| != 3 {
      return null, Some(InvalidName(name));
    }
    var ns, pod, container := s[0], s[1], s[2];
    st := new EngineState();
    err := None;
    // the code runs the rest in a goroutine; here it runs to its end
    var ready := WaitForReady(src, ns, pod, container, fuel);
    if ready.Failed? || ready.StillPolling? {
      return;
    }
    var status := ready.value;
    if status.state.Terminated? {
      st.SetStopped(ExitStatus(status.state.exitCode, status.state.finishedAt));
    }
    if status.state.Running? {
      st.SetRunning();
    }
  }

  /**
   * Termination does not need a prior Running: when every poll before poll d
   * found the container absent or Waiting and poll d finds it Terminated,
   * the wait resolves stopped with that exit code and finish time.
   */
  lemma TerminatedWithoutRunning(src: PodSource, ns: string, pod: string, container: string, fuel: nat, d: nat, s: ContainerStatus)
    requires d < fuel
    requires forall j :: 0 <= j < d ==> StepOutcome(src, ns, pod, container, RunningOrTerminated, j).StillPolling?
    requires StepOutcome(src, ns, pod, container, RunningOrTerminated, d) == Done(s)
    requires s.state.Terminated?
    ensures WaitView(Poll(src, ns, pod, container, RunningOrTerminated, 0, fuel))
         == (false, Some(ExitStatus(s.state.exitCode, s.state.finishedAt)))
  {
    PollFirstDecisive(src, ns, pod, container, RunningOrTerminated, 0, fuel, d);
  }

  /** The container operations the backend accepts but does not carry out. */
  datatype ContainerOp = Kill | Pause | Rename | Resize | Restart | Rm | Start | Stop | Unpause | Update

  /** Start and remove succeed and do nothing; every other operation is unimplemented. */
  function ContainerOpResult(op: ContainerOp): (r: Option<Error>)
    ensures r.None? <==> op == Start || op == Rm
    ensures r.Some? ==> r.value == NotImplemented
  {
    match op
    case Start => None
    case Rm => None
    case _ => Some(NotImplemented)
  }
}
