/**
 * The exec session table and exec lifecycle of the backend: exec-create
 * records a session under `name.suffix`, exec-inspect reads it back, and
 * exec-start parses the four-segment id, waits on a pod watch for the target
 * container to run, streams the stored command, and records exit code 1 when
 * the stream fails. The watch and the stream are oracles: a finite sequence
 * of watch events and the stream's error, if any.
 */
module BackendExec {
  import opened Common
  import opened Names
  import opened Cluster

  /** The parts of the engine's exec configuration the bridge keeps. */
  datatype ExecConfig = ExecConfig(cmd: seq<string>)

  /** One session record; `running` is never set by the code. */
  datatype ExecState = ExecState(cfg: ExecConfig, running: bool, exitCode: Option<int>)

  /** The answer of exec-inspect. */
  datatype ExecInspect = ExecInspect(id: string, exitCode: Option<int>, running: bool)

  /** Which of the caller's streams are attached. */
  datatype ExecStartOptions = ExecStartOptions(hasStdin: bool, hasStdout: bool, hasStderr: bool)

  /** The remote-exec request the bridge streams. */
  datatype ExecRequest = ExecRequest(
    namespace: string, pod: string, container: string,
    stdin: bool, stdout: bool, stderr: bool,
    command: seq<string>)

  /** One event of a pod watch. */
  datatype WatchEvent =
    | Added(pod: Pod)
    | Modified(pod: Pod)
    | Deleted(pod: Pod)
    | WatchError(message: string)

  /**
   * The running flag after scanning `statuses` in order, starting from
   * `prev`: every status named `container` overwrites it with whether that
   * status is Running, so the last such status decides, and none leaves `prev`.
   */
  function LastRunning(statuses: seq<ContainerStatus>, container: string, prev: bool): (r: bool)
    ensures (forall i :: 0 <= i < |statuses| ==> statuses[i].name != container) ==> r == prev
    ensures forall i :: 0 <= i < |statuses| && statuses[i].name == container &&
                        (forall j :: i < j < |statuses| ==> statuses[j].name != container)
                        ==> r == statuses[i].state.Running?
  {
    if |statuses| == 0 then prev
    else
      var last := statuses[|statuses| - 1];
      if last.name == container then last.state.Running?
      else
        var init := statuses[..|statuses| - 1];
        assert forall i :: 0 <= i < |init| ==> init[i] == statuses[i];
        LastRunning(init, container, prev)
  }

  /** An Added or Modified event whose last status for `container` is Running. */
  predicate ShowsRunning(ev: WatchEvent, container: string)
  {
    (ev.Added? || ev.Modified?) && LastRunning(ev.pod.ephemeralStatuses, container, false)
  }

  /** The verdict of the watch loop on a finite event sequence. */
  function WatchVerdict(events: seq<WatchEvent>, container: string): bool
  {
    if |events| == 0 then false
    else if events[0].Deleted? then false
    else ShowsRunning(events[0], container) || WatchVerdict(events[1..], container)
  }

  /**
   * Event k is the first that decides the watch, and decides it true: it
   * shows the container running, and no earlier event is a deletion or
   * already showed it running.
   */
  predicate FirstRunningAt(events: seq<WatchEvent>, container: string, k: int)
  {
    && 0 <= k < |events| && ShowsRunning(events[k], container)
    && forall j :: 0 <= j < k ==> !events[j].Deleted? && !ShowsRunning(events[j], container)
  }

  /** Past an undecisive first event, positions shift by one. */
  lemma FirstRunningAtShift(events: seq<WatchEvent>, container: string, k: nat)
    requires |events| > 0 && !events[0].Deleted? && !ShowsRunning(events[0], container)
    ensures FirstRunningAt(events, container, k + 1) <==> FirstRunningAt(events[1..], container, k)
  {
    assert forall j :: 0 <= j < |events| - 1 ==> events[1..][j] == events[j + 1];
    if FirstRunningAt(events[1..], container, k) {
      forall j | 0 <= j < k + 1
        ensures !events[j].Deleted? && !ShowsRunning(events[j], container)
      {
        if j > 0 {
          assert events[j] == events[1..][j - 1];
        }
      }
    }
  }

  /** A first decisive running event makes the verdict true. */
  lemma {:induction false} WatchVerdictComplete(events: seq<WatchEvent>, container: string, k: nat)
    requires FirstRunningAt(events, container, k)
    ensures WatchVerdict(events, container)
    decreases k
  {
    if k > 0 {
      var rest := events[1..];
      assert FirstRunningAt(rest, container, k - 1) by {
        forall j | 0 <= j < k - 1
          ensures !rest[j].Deleted? && !ShowsRunning(rest[j], container)
        {
          assert rest[j] == events[j + 1];
        }
        assert rest[k - 1] == events[k];
      }
      WatchVerdictComplete(rest, container, k - 1);
      assert !events[0].Deleted?;
    }
  }

  /** A true verdict comes from a first decisive running event. */
  lemma {:induction false} WatchVerdictSound(events: seq<WatchEvent>, container: string)
    requires WatchVerdict(events, container)
    ensures exists k :: FirstRunningAt(events, container, k)
  {
    if ShowsRunning(events[0], container) {
      assert FirstRunningAt(events, container, 0);
    } else {
      WatchVerdictSound(events[1..], container);
      var k: nat :| FirstRunningAt(events[1..], container, k);
      FirstRunningAtShift(events, container, k);
      assert FirstRunningAt(events, container, k + 1);
    }
  }

  /**
   * The watch says the container runs exactly when some event shows it
   * running and no earlier event is a deletion or already showed it running:
   * the first Added/Modified event showing it running yields true, the first
   * deletion yields false, error events are skipped, and running out of
   * events yields false.
   */
  lemma WatchVerdictFirstDecisive(events: seq<WatchEvent>, container: string)
    ensures WatchVerdict(events, container) <==> exists k :: FirstRunningAt(events, container, k)
  {
    if WatchVerdict(events, container) {
      WatchVerdictSound(events, container);
    } else if exists k :: FirstRunningAt(events, container, k) {
      var k: nat :| FirstRunningAt(events, container, k);
      WatchVerdictComplete(events, container, k);
    }
  }

  /** The scan of one pod's statuses inside the watch loop. */
  method ScanRunning(statuses: seq<ContainerStatus>, container: string, prev: bool) returns (running: bool)
    ensures running == LastRunning(statuses, container, prev)
  {
    running := prev;
    var j := 0;
    while j < |statuses|
      invariant 0 <= j <= |statuses|
      invariant running == LastRunning(statuses[..j], container, prev)
    {
      ghost var seen := statuses[..j + 1];
      assert seen[..j] == statuses[..j] && seen[j] == statuses[j];
      if statuses[j].name == container {
        running := statuses[j].state.Running?;
      }
      assert running == LastRunning(seen, container, prev);
      j := j + 1;
    }
    assert statuses[..j] == statuses;
  }

  /**
   * waitForEphemeralContainer: consume watch events until one decides. The
   * code also returns an error, which is always nil, so it is left out.
   */
  method WaitForEphemeralContainer(events: seq<WatchEvent>, container: string) returns (ok: bool)
    ensures ok == WatchVerdict(events, container)
  {
    var running := false;
    var k := 0;
    while k < |events|
      invariant 0 <= k <= |events|
      invariant !running
      invariant WatchVerdict(events, container) == WatchVerdict(events[k..], container)
    {
      var ev := events[k];
      assert events[k..][1..] == events[k + 1..];
      if ev.Added? || ev.Modified? {
        running := ScanRunning(ev.pod.ephemeralStatuses, container, running);
      } else if ev.Deleted? {
        return false;
      } else {
        // a watch error is formatted and dropped; the loop goes on
      }
      if running {
        return true;
      }
      k := k + 1;
    }
    return running;
  }

  /** The process-wide exec session table. */
  class ExecTable {
    var sessions: map<string, ExecState>

    constructor ()
      ensures sessions == map[]
    {
      sessions := map[];
    }

    /**
     * exec-create: the id is the container name, a dot and the random
     * suffix; the table maps it to a fresh record with the given config, not
     * running and no exit code; every other entry is unchanged. The name's
     * shape is not checked.
     */
    method ContainerExecCreate(name: string, config: ExecConfig, suffix: string) returns (id: string)
      modifies this
      ensures id == name + [Dot] + suffix
      ensures id in sessions && sessions[id] == ExecState(config, false, None)
      ensures forall other :: other != id ==> (other in sessions <==> other in old(sessions))
      ensures forall other :: other != id && other in old(sessions) ==> sessions[other] == old(sessions)[other]
    {
      id := name + [Dot] + suffix;
      sessions := sessions[id := ExecState(config, false, None)];
    }

    /**
     * exec-inspect: an unknown id is an error; a known one reports the
     * stored exit code and, whatever the record says, not running.
     */
    method ContainerExecInspect(id: string) returns (r: Result<ExecInspect, Error>)
      ensures id !in sessions ==> r == Failure(ExecNotFound(id))
      ensures id in sessions ==> r.Success? && r.value.id == id &&
                                 r.value.exitCode == sessions[id].exitCode && !r.value.running
    {
      if id !in sessions {
        return Failure(ExecNotFound(id));
      }
      var s := sessions[id];
      return Success(ExecInspect(id, s.exitCode, false));
    }

    /**
     * exec-start. `executorErr` is the failure, if any, of building the
     * remote-exec executor, `events` what the pod watch delivers, and
     * `streamErr` the failure, if any, of the remote-exec stream.
     */
    method ContainerExecStart(
      name: string, options: ExecStartOptions,
      executorErr: Option<string>, events: seq<WatchEvent>, streamErr: Option<string>)
      returns (err: Option<Error>, launched: Option<ExecRequest>)
      modifies this
      // a name without exactly four dot segments is rejected before the table is read
      ensures |Segments(name)| != 4 ==>
        err == Some(InvalidName(name)) && launched == None && sessions == old(sessions)
      // an unknown id is not found, and nothing changes
      ensures |Segments(name)| == 4 && name !in old(sessions) ==>
        err == Some(ExecNotFound(name)) && launched == None && sessions == old(sessions)
      // only a failed stream changes the table, and only that record's exit code, to 1
      ensures sessions == old(sessions) || (
        && streamErr.Some? && launched.Some? && name in old(sessions)
        && sessions == old(sessions)[name := old(sessions)[name].(exitCode := Some(1))])
      // the stream is attempted only for a known session whose container the watch saw running
      ensures launched.Some? ==>
        && |Segments(name)| == 4 && name in old(sessions)
        && executorErr.None? && WatchVerdict(events, Segments(name)[2])
        && launched.value == ExecRequest(
             Segments(name)[0], Segments(name)[1], Segments(name)[2],
             options.hasStdin, options.hasStdout, options.hasStderr,
             old(sessions)[name].cfg.cmd)
      ensures |Segments(name)| == 4 && name in old(sessions) && executorErr.Some? ==>
        err == Some(ExecutorFailed(executorErr.value)) && launched == None
      ensures (|Segments(name)| == 4 && name in old(sessions) && executorErr.None? &&
               !WatchVerdict(events, Segments(name)[2])) ==>
        err == Some(ContainerNotRunning(Segments(name)[2])) && launched == None && sessions == old(sessions)
      ensures (|Segments(name)| == 4 && name in old(sessions) && executorErr.None? &&
               WatchVerdict(events, Segments(name)[2])) ==> launched.Some?
      ensures launched.Some? ==>
        (err == None <==> streamErr.None?) &&
        (streamErr.Some? ==> err == Some(StreamFailed(streamErr.value)) &&
                             name in sessions && sessions[name].exitCode == Some(1))
    {
      launched := None;
      var s := Segments(name);
      if |s| != 4 {
        return Some(InvalidName(name)), None;
      }
      var ns, pod, container := s[0], s[1], s[2];
      if name !in sessions {
        return Some(ExecNotFound(name)), None;
      }
      var state := sessions[name];
      var req := ExecRequest(ns, pod, container,
                             options.hasStdin, options.hasStdout, options.hasStderr,
                             state.cfg.cmd);
      if executorErr.Some? {
        return Some(ExecutorFailed(executorErr.value)), None;
      }
      var ok := WaitForEphemeralContainer(events, container);
      if !ok {
        return Some(ContainerNotRunning(container)), None;
      }
      launched := Some(req);
      if streamErr.Some? {
        sessions := sessions[name := state.(exitCode := Some(1))];
        return Some(StreamFailed(streamErr.value)), launched;
      }
      err := None;
    }
  }

  /** exec-resize is not supported; every exec id is reported to exist. */
  function ContainerExecResize(name: string, height: int, width: int): (r: Option<Error>)
    ensures r == Some(NotImplemented)
  {
    Some(NotImplemented)
  }

  function ExecExists(name: string): (r: bool)
    ensures r
  {
    true
  }

  /**
   * The exec lifecycle on a fresh table: inspecting the id before it is
   * created fails; after exec-create it reports no exit code and not
   * running; exec-start on the created id, with the container shown running
   * and a failing stream, fails; inspecting afterwards reports exit code 1,
   * still not running.
   */
  method ExecLifecycle(
    ns: string, pod: string, container: string, suffix: string, config: ExecConfig,
    options: ExecStartOptions, events: seq<WatchEvent>, failure: string)
    returns (id: string, before: Result<ExecInspect, Error>, created: Result<ExecInspect, Error>,
             started: Option<Error>, after: Result<ExecInspect, Error>)
    requires Dot !in ns && Dot !in pod && Dot !in container && Dot !in suffix
    requires WatchVerdict(events, container)
    ensures id == Scoped([ns, pod, container]) + [Dot] + suffix
    ensures before == Failure(ExecNotFound(id))
    ensures created == Success(ExecInspect(id, None, false))
    ensures started == Some(StreamFailed(failure))
    ensures after == Success(ExecInspect(id, Some(1), false))
  {
    var table := new ExecTable();
    var probe := Scoped([ns, pod, container]) + [Dot] + suffix;
    before := table.ContainerExecInspect(probe);
    id := table.ContainerExecCreate(Scoped([ns, pod, container]), config, suffix);
    created := table.ContainerExecInspect(id);
    ExecIdSegments(ns, pod, container, suffix);
    var launched;
    started, launched := table.ContainerExecStart(id, options, None, events, Some(failure));
    after := table.ContainerExecInspect(id);
  }
}
