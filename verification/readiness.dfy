/**
 * The readiness poll shared by the three `waitForReady` loops of the bridge:
 * check the request context, fetch the pod, scan its ephemeral-container
 * statuses for the named container, and poll again (after a pause) while it
 * is absent or not yet in an accepted state. The Go loops never give up; the
 * model bounds the number of polls by `fuel` and reports `StillPolling` when
 * the bound is reached without a decision.
 */
module Readiness {
  import opened Common
  import opened Cluster

  /** Which observed states end a readiness wait. */
  datatype Mode =
    | RunningOrTerminated   // the backend's attach/wait poll
    | RunningOnly           // the earlier handlers' poll

  predicate Accepts(mode: Mode, st: ContainerState)
  {
    match mode
    case RunningOrTerminated => st.Running? || st.Terminated?
    case RunningOnly => st.Running?
  }

  /** A status that names the container and is in an accepted state. */
  predicate Matches(s: ContainerStatus, container: string, mode: Mode)
  {
    s.name == container && Accepts(mode, s.state)
  }

  /** The first status, in list order, that matches; none when no status matches. */
  function FirstAccepted(statuses: seq<ContainerStatus>, container: string, mode: Mode): (r: Option<ContainerStatus>)
    ensures r.None? <==> forall j :: 0 <= j < |statuses| ==> !Matches(statuses[j], container, mode)
    ensures r.Some? ==> Matches(r.value, container, mode)
    ensures r.Some? ==> exists j :: 0 <= j < |statuses| && statuses[j] == r.value &&
                                   forall i :: 0 <= i < j ==> !Matches(statuses[i], container, mode)
  {
    if |statuses| == 0 then None
    else if Matches(statuses[0], container, mode) then Some(statuses[0])
    else
      var r := FirstAccepted(statuses[1..], container, mode);
      assert forall j :: 1 <= j < |statuses| ==> statuses[j] == statuses[1..][j - 1];
      r
  }

  datatype Polled<+T> =
    | Done(value: T)        // the loop returned a result
    | Failed(err: Error)    // the loop returned an error
    | StillPolling          // the loop was still polling when the bound was reached

  /**
   * What the environment answers at poll number k: whether the request
   * context is already cancelled (its error), and what fetching pod `pod` in
   * namespace `ns` returns.
   */
  datatype PodSource = PodSource(
    ctxErr: nat -> Option<string>,
    fetch: (string, string, nat) -> Result<Pod, ApiError>)

  /** A context that is never cancelled (the one `context.TODO()` gives). */
  function NeverCancelled(k: nat): Option<string>
  {
    None
  }

  /** The namespace a poll queries: the given one, or "default" when it is empty. */
  function EffectiveNamespace(ns: string): (r: string)
    ensures r != ""
    ensures ns != "" ==> r == ns
    ensures ns == "" ==> r == "default"
  {
    if ns == "" then "default" else ns
  }

  /**
   * The outcome of poll number k on its own: the context error, the fetch
   * error, the first matching status, or StillPolling when the loop goes on.
   */
  function StepOutcome(src: PodSource, ns: string, pod: string, container: string, mode: Mode, k: nat): (r: Polled<ContainerStatus>)
    ensures r.Done? ==> Matches(r.value, container, mode)
    ensures r.StillPolling? <==>
      src.ctxErr(k).None? && src.fetch(ns, pod, k).Success? &&
      forall j :: 0 <= j < |src.fetch(ns, pod, k).value.ephemeralStatuses| ==>
        !Matches(src.fetch(ns, pod, k).value.ephemeralStatuses[j], container, mode)
  {
    match src.ctxErr(k)
    case Some(e) => Failed(ContextDone(e))
    case None =>
      match src.fetch(ns, pod, k)
      case Failure(e) => Failed(Api(e))
      case Success(p) =>
        match FirstAccepted(p.ephemeralStatuses, container, mode)
        case Some(s) => Done(s)
        case None => StillPolling
  }

  /** Polls number k, k + 1, ... for at most `remaining` polls. */
  function Poll(src: PodSource, ns: string, pod: string, container: string, mode: Mode, k: nat, remaining: nat): (r: Polled<ContainerStatus>)
    ensures r.Done? ==> Matches(r.value, container, mode)
    ensures r.Failed? ==> r.err.ContextDone? || r.err.Api?
    decreases remaining
  {
    if remaining == 0 then StillPolling
    else
      var o := StepOutcome(src, ns, pod, container, mode, k);
      if o.StillPolling? then Poll(src, ns, pod, container, mode, k + 1, remaining - 1) else o
  }

  /**
   * First observation wins: when polls k .. d-1 all go on and poll d decides,
   * the loop's result is poll d's outcome, whatever later polls would show.
   */
  lemma {:induction false} PollFirstDecisive(src: PodSource, ns: string, pod: string, container: string, mode: Mode, k: nat, remaining: nat, d: nat)
    requires k <= d < k + remaining
    requires forall j :: k <= j < d ==> StepOutcome(src, ns, pod, container, mode, j).StillPolling?
    requires !StepOutcome(src, ns, pod, container, mode, d).StillPolling?
    ensures Poll(src, ns, pod, container, mode, k, remaining) == StepOutcome(src, ns, pod, container, mode, d)
    decreases remaining
  {
    if k < d {
      PollFirstDecisive(src, ns, pod, container, mode, k + 1, remaining - 1, d);
    }
  }

  /** When every poll within the bound goes on, the loop is still polling. */
  lemma {:induction false} PollUndecided(src: PodSource, ns: string, pod: string, container: string, mode: Mode, k: nat, remaining: nat)
    requires forall j :: k <= j < k + remaining ==> StepOutcome(src, ns, pod, container, mode, j).StillPolling?
    ensures Poll(src, ns, pod, container, mode, k, remaining) == StillPolling
    decreases remaining
  {
    if remaining > 0 {
      PollUndecided(src, ns, pod, container, mode, k + 1, remaining - 1);
    }
  }

  /**
   * A decided result is the outcome of some poll d within the bound, every
   * earlier poll having gone on.
   */
  lemma {:induction false} PollDecidedAt(src: PodSource, ns: string, pod: string, container: string, mode: Mode, k: nat, remaining: nat)
    requires !Poll(src, ns, pod, container, mode, k, remaining).StillPolling?
    ensures exists d :: (k <= d < k + remaining &&
      Poll(src, ns, pod, container, mode, k, remaining) == StepOutcome(src, ns, pod, container, mode, d) &&
      forall j :: k <= j < d ==> StepOutcome(src, ns, pod, container, mode, j).StillPolling?)
    decreases remaining
  {
    var o := StepOutcome(src, ns, pod, container, mode, k);
    if o.StillPolling? {
      PollDecidedAt(src, ns, pod, container, mode, k + 1, remaining - 1);
      var d :| k + 1 <= d < k + remaining &&
        Poll(src, ns, pod, container, mode, k + 1, remaining - 1) == StepOutcome(src, ns, pod, container, mode, d) &&
        forall j :: k + 1 <= j < d ==> StepOutcome(src, ns, pod, container, mode, j).StillPolling?;
      assert forall j :: k <= j < d ==> StepOutcome(src, ns, pod, container, mode, j).StillPolling?;
    } else {
      assert Poll(src, ns, pod, container, mode, k, remaining) == StepOutcome(src, ns, pod, container, mode, k);
    }
  }

  /** More polls never change a result that was already decided: the bound only cuts waiting short. */
  lemma {:induction false} PollMorePatience(src: PodSource, ns: string, pod: string, container: string, mode: Mode, k: nat, remaining: nat, more: nat)
    requires remaining <= more
    requires !Poll(src, ns, pod, container, mode, k, remaining).StillPolling?
    ensures Poll(src, ns, pod, container, mode, k, more) == Poll(src, ns, pod, container, mode, k, remaining)
    decreases remaining
  {
    var o := StepOutcome(src, ns, pod, container, mode, k);
    if o.StillPolling? {
      PollMorePatience(src, ns, pod, container, mode, k + 1, remaining - 1, more - 1);
    }
  }

  /**
   * Under RunningOnly a status that is Terminated does not end the wait,
   * while under RunningOrTerminated it does.
   */
  lemma TerminatedEndsOnlyTheBackendWait(s: ContainerStatus, container: string)
    requires s.name == container && s.state.Terminated?
    ensures FirstAccepted([s], container, RunningOnly) == None
    ensures FirstAccepted([s], container, RunningOrTerminated) == Some(s)
  {
  }

  /** The scan of one fetched status list inside a poll loop: the first matching status, if any. */
  method ScanStatuses(statuses: seq<ContainerStatus>, container: string, mode: Mode) returns (r: Option<ContainerStatus>)
    ensures r == FirstAccepted(statuses, container, mode)
  {
    var j := 0;
    while j < |statuses|
      invariant 0 <= j <= |statuses|
      invariant FirstAccepted(statuses, container, mode) == FirstAccepted(statuses[j..], container, mode)
    {
      assert statuses[j..][1..] == statuses[j + 1..];
      if statuses[j].name == container && Accepts(mode, statuses[j].state) {
        return Some(statuses[j]);
      }
      j := j + 1;
    }
    return None;
  }

  /**
   * The poll loop itself: check the context, fetch the pod, scan its
   * statuses, and go round again (after a pause) while nothing matched.
   */
  method PollLoop(src: PodSource, ns: string, pod: string, container: string, mode: Mode, fuel: nat)
    returns (r: Polled<ContainerStatus>)
    ensures r == Poll(src, ns, pod, container, mode, 0, fuel)
  {
    var attempt := 0;
    while attempt < fuel
      invariant 0 <= attempt <= fuel
      invariant Poll(src, ns, pod, container, mode, 0, fuel) == Poll(src, ns, pod, container, mode, attempt, fuel - attempt)
    {
      var cancelled := src.ctxErr(attempt);
      if cancelled.Some? {
        return Failed(ContextDone(cancelled.value));
      }
      var fetched := src.fetch(ns, pod, attempt);
      if fetched.Failure? {
        return Failed(Api(fetched.error));
      }
      var found := ScanStatuses(fetched.value.ephemeralStatuses, container, mode);
      if found.Some? {
        return Done(found.value);
      }
      // the code sleeps one second here
      attempt := attempt + 1;
    }
    return StillPolling;
  }
}
