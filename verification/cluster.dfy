/**
 * The cluster-side values the bridge reads and writes: a pod with its
 * ephemeral-container specs and statuses, and the engine's container
 * configuration that a create request carries. The cluster API itself is an
 * oracle: its answers to Get and UpdateEphemeralContainers are parameters.
 */
module Cluster {
  import opened Common
  import opened Names

  /** The observed state of one container: exactly one of the three variants. */
  datatype ContainerState =
    | Waiting(reason: string)
    | Running(startedAt: int)
    | Terminated(exitCode: int, finishedAt: int)

  datatype ContainerStatus = ContainerStatus(name: string, state: ContainerState, imageID: string)

  datatype EphemeralContainer = EphemeralContainer(
    name: string,
    image: string,
    command: seq<string>,
    args: seq<string>)

  datatype Pod = Pod(
    namespace: string,
    name: string,
    ephemeralContainers: seq<EphemeralContainer>,   // the spec list
    ephemeralStatuses: seq<ContainerStatus>)        // the status list

  /** The fields of the engine's container configuration that the bridge reads. */
  datatype ContainerConfig = ContainerConfig(image: string, entrypoint: seq<string>, cmd: seq<string>)

  /** The engine's answer to a create request: the new container's id. */
  datatype CreateResponse = CreateResponse(id: string)

  /** The cluster's answer to fetching pod `name` in namespace `ns`. */
  type PodGetter = (string, string) -> Result<Pod, ApiError>

  /** The cluster's answer to submitting `pod` as the new state of pod `name` in namespace `ns`. */
  type PodUpdater = (string, string, Pod) -> Result<Pod, ApiError>

  const NamePrefix: string := "levias-"

  /** The characters the random-string generator of k8s.io/apimachinery draws from. */
  const RandAlphabet: string := "bcdfghjklmnpqrstvwxz2456789"

  /** What an 8-character random string from that generator looks like. */
  predicate IsRandSuffix(s: string)
  {
    |s| == 8 && forall i :: 0 <= i < |s| ==> s[i] in RandAlphabet
  }

  /** The name given to a new ephemeral container. */
  function GeneratedName(suffix: string): string
  {
    NamePrefix + suffix
  }

  /** The ephemeral container a create request adds: image, entrypoint and cmd copied over. */
  function NewEphemeral(suffix: string, config: ContainerConfig): EphemeralContainer
  {
    EphemeralContainer(GeneratedName(suffix), config.image, config.entrypoint, config.cmd)
  }

  /** A generated name is 15 characters and holds no dot, so it is one segment of a scoped name. */
  lemma GeneratedNameShape(suffix: string)
    requires IsRandSuffix(suffix)
    ensures |GeneratedName(suffix)| == 15
    ensures Dot !in GeneratedName(suffix)
  {
    assert Dot !in NamePrefix;
    assert Dot !in RandAlphabet;
    forall i | 0 <= i < |GeneratedName(suffix)|
      ensures GeneratedName(suffix)[i] != Dot
    {
      if i >= |NamePrefix| {
        assert GeneratedName(suffix)[i] == suffix[i - |NamePrefix|];
      }
    }
  }

  /**
   * The pod with one ephemeral container appended to its spec list: one
   * entry more, the earlier entries kept in place, the new one last and
   * every other field unchanged.
   */
  function WithEphemeral(pod: Pod, ec: EphemeralContainer): (r: Pod)
    ensures |r.ephemeralContainers| == |pod.ephemeralContainers| + 1
    ensures r.ephemeralContainers[..|pod.ephemeralContainers|] == pod.ephemeralContainers
    ensures r.ephemeralContainers[|pod.ephemeralContainers|] == ec
    ensures r.(ephemeralContainers := pod.ephemeralContainers) == pod
  {
    pod.(ephemeralContainers := pod.ephemeralContainers + [ec])
  }
}
