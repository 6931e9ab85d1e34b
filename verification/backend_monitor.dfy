/**
 * Container monitoring in the backend: inspect answers only for the buildx
 * builder container, which is reported as running without asking the
 * cluster; the listing turns the caller's pod's ephemeral containers into
 * listing records; changes, logs, stats and top are unimplemented.
 */
module BackendMonitor {
  import opened Common
  import opened Names
  import opened Cluster
  import opened Auth
  import opened BackendState

  /** The part of the engine's inspect record the bridge fills in. */
  datatype ContainerJSON = ContainerJSON(name: string, running: bool)

  /** The name suffix of the builder container that buildx asks for. */
  const BuildkitSuffix: string := ".buildx_buildkit_default"

  /**
   * ContainerInspect: a synthetic running record for a name ending in the
   * buildx builder suffix, and not-found for every other name.
   */
  function ContainerInspect(name: string): (r: Result<ContainerJSON, Error>)
    ensures r.Success? <==> HasSuffix(name, BuildkitSuffix)
    ensures r.Success? ==> r.value.name == name && r.value.running
    ensures r.Failure? ==> r.error == ContainerNotFound(name)
  {
    if HasSuffix(name, BuildkitSuffix) then Success(ContainerJSON(name, true))
    else Failure(ContainerNotFound(name))
  }

  /** The builder's scoped name, in any namespace and pod, is answered by inspect. */
  lemma InspectAnswersBuilder(ns: string, pod: string)
    ensures ContainerInspect(Scoped([ns, pod, "buildx_buildkit_default"])).Success?
  {
    var c := "buildx_buildkit_default";
    assert Scoped([ns, pod, c]) == (ns + [Dot] + pod) + BuildkitSuffix by {
      assert Join([pod, c], Dot) == pod + [Dot] + c;
    }
  }

  /** The fields of one listing record that the bridge fills in. */
  datatype ContainerSummary = ContainerSummary(
    id: string,
    names: seq<string>,
    image: string,
    state: string,
    imageID: string,
    command: string)

  /**
   * The record for spec entry `ec` and the status taken for it, if any; the
   * state is rendered by the Kubernetes type's String method, `render` here.
   * Without a status the state and image id stay empty.
   */
  function Summary(ns: string, pod: string, ec: EphemeralContainer, status: Option<ContainerStatus>,
                   render: ContainerState -> string): (r: ContainerSummary)
    ensures r.names == [ec.name] && r.image == ec.image
    ensures status.Some? ==> r.state == render(status.value.state) && r.imageID == status.value.imageID
    ensures status.None? ==> r.state == "" && r.imageID == ""
    // the id is the scoped name, which splits back into namespace, pod and container
    ensures Dot !in ns && Dot !in pod && Dot !in ec.name ==> Segments(r.id) == [ns, pod, ec.name]
  {
    var r := ContainerSummary(
      Scoped([ns, pod, ec.name]), [ec.name], ec.image,
      if status.Some? then render(status.value.state) else "",
      if status.Some? then status.value.imageID else "",
      Join(ec.command, ' '));
    if Dot !in ns && Dot !in pod && Dot !in ec.name then
      ScopedRoundTrip(ns, pod, ec.name);
      r
    else r
  }

  /** The first status that names the container, if any. */
  function StatusFor(statuses: seq<ContainerStatus>, name: string): (r: Option<ContainerStatus>)
    ensures r.None? <==> forall j :: 0 <= j < |statuses| ==> statuses[j].name != name
    ensures r.Some? ==> exists j :: (0 <= j < |statuses| && statuses[j] == r.value &&
                                     forall i :: 0 <= i < j ==> statuses[i].name != name)
  {
    if |statuses| == 0 then None
    else if statuses[0].name == name then Some(statuses[0])
    else
      var r := StatusFor(statuses[1..], name);
      assert forall j :: 1 <= j < |statuses| ==> statuses[j] == statuses[1..][j - 1];
      r
  }

  /**
   * The listing as the code builds it: entry i pairs spec entry i with
   * status i, so a status list shorter than the spec list indexes out of
   * range at its length.
   */
  function ListingAsWritten(ns: string, pod: string, p: Pod, render: ContainerState -> string)
    : (r: Result<seq<ContainerSummary>, Error>)
    ensures r.Failure? <==> |p.ephemeralStatuses| < |p.ephemeralContainers|
    ensures r.Failure? ==> r.error == IndexOutOfRange(|p.ephemeralStatuses|)
    ensures r.Success? ==> |r.value| == |p.ephemeralContainers|
    ensures r.Success? ==> forall i :: 0 <= i < |r.value| ==>
      r.value[i] == Summary(ns, pod, p.ephemeralContainers[i], Some(p.ephemeralStatuses[i]), render)
  {
    var spec, statuses := p.ephemeralContainers, p.ephemeralStatuses;
    if |statuses| < |spec| then Failure(IndexOutOfRange(|statuses|))
    else Success(seq(|spec|, i requires 0 <= i < |spec| => Summary(ns, pod, spec[i], Some(statuses[i]), render)))
  }

  /**
   * The listing as intended: one record per spec entry, in spec order, each
   * with the status that names that entry, and none while it has no status.
   */
  function Listing(ns: string, pod: string, p: Pod, render: ContainerState -> string): (r: seq<ContainerSummary>)
    ensures |r| == |p.ephemeralContainers|
    ensures forall i :: 0 <= i < |r| ==>
      r[i] == Summary(ns, pod, p.ephemeralContainers[i], StatusFor(p.ephemeralStatuses, p.ephemeralContainers[i].name), render)
  {
    var spec := p.ephemeralContainers;
    seq(|spec|, i requires 0 <= i < |spec| => Summary(ns, pod, spec[i], StatusFor(p.ephemeralStatuses, spec[i].name), render))
  }

  /**
   * Every record of the listing names its container: the names list holds
   * just that name, and the id splits back into the caller's namespace and
   * pod and the container name when none of them holds a dot.
   */
  lemma ListingIds(ns: string, pod: string, p: Pod, render: ContainerState -> string, i: nat)
    requires i < |p.ephemeralContainers|
    requires Dot !in ns && Dot !in pod && Dot !in p.ephemeralContainers[i].name
    ensures Listing(ns, pod, p, render)[i].names == [p.ephemeralContainers[i].name]
    ensures Segments(Listing(ns, pod, p, render)[i].id) == [ns, pod, p.ephemeralContainers[i].name]
  {
    ScopedRoundTrip(ns, pod, p.ephemeralContainers[i].name);
  }

  /**
   * A command whose words hold no space is recovered from the record by
   * splitting on spaces.
   */
  lemma ListingCommand(ns: string, pod: string, p: Pod, render: ContainerState -> string, i: nat)
    requires i < |p.ephemeralContainers|
    requires |p.ephemeralContainers[i].command| >= 1
    requires forall w :: w in p.ephemeralContainers[i].command ==> ' ' !in w
    ensures Split(Listing(ns, pod, p, render)[i].command, ' ') == p.ephemeralContainers[i].command
  {
    var cmd := p.ephemeralContainers[i].command;
    assert forall k :: 0 <= k < |cmd| ==> cmd[k] in cmd;
    SplitJoin(cmd, ' ');
  }

  /**
   * When status i is the first status naming spec entry i, for every i, the
   * code's positional pairing gives the intended listing.
   */
  lemma ListingAgreesWhenAligned(ns: string, pod: string, p: Pod, render: ContainerState -> string)
    requires |p.ephemeralContainers| <= |p.ephemeralStatuses|
    requires forall i :: 0 <= i < |p.ephemeralContainers| ==>
      StatusFor(p.ephemeralStatuses, p.ephemeralContainers[i].name) == Some(p.ephemeralStatuses[i])
    ensures ListingAsWritten(ns, pod, p, render) == Success(Listing(ns, pod, p, render))
  {
    var r := ListingAsWritten(ns, pod, p, render);
    assert r.Success?;
    assert r.value == Listing(ns, pod, p, render);
  }

  /**
   * Right after create appends a container to a pod whose containers all
   * have statuses, the kubelet has not yet reported one for the new entry:
   * the code's listing indexes out of range, while the intended listing
   * shows the new entry with no state.
   */
  lemma FreshContainerBreaksListing(ns: string, pod: string, p: Pod, ec: EphemeralContainer, render: ContainerState -> string)
    requires |p.ephemeralStatuses| == |p.ephemeralContainers|
    requires forall j :: 0 <= j < |p.ephemeralStatuses| ==> p.ephemeralStatuses[j].name != ec.name
    ensures ListingAsWritten(ns, pod, WithEphemeral(p, ec), render) == Failure(IndexOutOfRange(|p.ephemeralContainers|))
    ensures Listing(ns, pod, WithEphemeral(p, ec), render)[|p.ephemeralContainers|] == Summary(ns, pod, ec, None, render)
    ensures Listing(ns, pod, WithEphemeral(p, ec), render)[|p.ephemeralContainers|].state == ""
  {
    var q := WithEphemeral(p, ec);
    assert q.ephemeralStatuses == p.ephemeralStatuses;
    assert StatusFor(q.ephemeralStatuses, ec.name) == None;
  }

  /**
   * The listing as the code builds it, by appending one record per spec
   * entry; it fails where the code's index into the status list would panic.
   */
  method ContainersAsWritten(ctx: Context, get: PodGetter, render: ContainerState -> string)
    returns (r: Result<seq<ContainerSummary>, Error>)
    requires HasScope(ctx)
    ensures ScopedPod(ctx, get).Failure? ==> r == Failure(ScopedPod(ctx, get).error)
    ensures ScopedPod(ctx, get).Success? ==>
      var (ns, podName, p) := ScopedPod(ctx, get).value;
      r == ListingAsWritten(ns, podName, p, render)
  {
    var fetched := ScopedPod(ctx, get);
    if fetched.Failure? {
      return Failure(fetched.error);
    }
    var (ns, podName, p) := fetched.value;
    var spec, statuses := p.ephemeralContainers, p.ephemeralStatuses;
    var out: seq<ContainerSummary> := [];
    var i := 0;
    while i < |spec|
      invariant 0 <= i <= |spec|
      invariant i <= |statuses|
      invariant |out| == i
      invariant forall k :: 0 <= k < i ==> out[k] == Summary(ns, podName, spec[k], Some(statuses[k]), render)
    {
      if i >= |statuses| {
        return Failure(IndexOutOfRange(i));
      }
      out := out + [Summary(ns, podName, spec[i], Some(statuses[i]), render)];
      i := i + 1;
    }
    assert out == ListingAsWritten(ns, podName, p, render).value;
    r := Success(out);
  }

  /**
   * Containers, corrected: each spec entry is paired with the status that
   * names it, so the listing never fails once the pod is fetched.
   */
  method Containers(ctx: Context, get: PodGetter, render: ContainerState -> string)
    returns (r: Result<seq<ContainerSummary>, Error>)
    requires HasScope(ctx)
    ensures ScopedPod(ctx, get).Failure? ==> r == Failure(ScopedPod(ctx, get).error)
    ensures ScopedPod(ctx, get).Success? ==>
      var (ns, podName, p) := ScopedPod(ctx, get).value;
      r == Success(Listing(ns, podName, p, render))
  {
    var fetched := ScopedPod(ctx, get);
    if fetched.Failure? {
      return Failure(fetched.error);
    }
    var (ns, podName, p) := fetched.value;
    var spec := p.ephemeralContainers;
    var out: seq<ContainerSummary> := [];
    for i := 0 to |spec|
      invariant out == Listing(ns, podName, p, render)[..i]
    {
      var status := StatusFor(p.ephemeralStatuses, spec[i].name);
      out := out + [Summary(ns, podName, spec[i], status, render)];
    }
    assert out == Listing(ns, podName, p, render);
    return Success(out);
  }

  /** The monitoring operations the backend does not implement. */
  datatype MonitorOp = Changes | Logs | Stats | Top

  /** Changes, logs, stats and top always fail as unimplemented. */
  function MonitorOpResult(op: MonitorOp): (r: Error)
    ensures r == NotImplemented
  {
    NotImplemented
  }
}
