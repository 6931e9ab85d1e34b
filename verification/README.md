# levias bridge — a verified model

levias serves the Docker engine API on top of Kubernetes. Docker clients
(mainly `docker buildx`) create, wait for, attach to and exec into
"containers". Each of those is an ephemeral container appended to the
caller's pod. This project models the bridge's decision logic in Dafny and
proves what it promises:

- scoped names: `namespace.pod.container` for containers and
  `namespace.pod.container.suffix` for exec sessions, built with Go's
  strings.Join and taken apart with strings.Split;
- the auth middleware, which scopes each request to the caller's namespace
  and pod;
- container create: exactly one ephemeral container appended;
- wait: a readiness poll mapped onto the engine's container state;
- attach;
- the process-wide exec session table and exec-start's watch;
- inspect and the container listing;
- two earlier revisions of the HTTP handlers (`server/server.go`,
  `server/main.go`), including the `k8sName` sanitiser.

The Kubernetes API is an oracle, passed in as function-typed parameters:

- `get(ns, pod)` and `update(ns, pod, newPod)` answer fetch and update;
- a `PodSource` answers, at poll k, whether the request context is
  cancelled and what the fetch returns;
- the pod watch is a finite sequence of events.

The random name suffix, the executor and stream failures, the log stream and
the connection hijack are parameters as well. Go's unbounded poll loops run
for at most `fuel` polls. They report `StillPolling` when the bound is reached
undecided, and `PollMorePatience` shows that a decided result never depends
on the bound.

Modules:
- `Common`: Option, Result, errors;
- `Names`: split, join, scoped names;
- `Cluster`: pods, ephemeral containers, generated names;
- `Readiness`: the poll shared by the three `waitForReady` loops;
- `Auth`;
- `BackendExec`, `BackendState`, `BackendAttach`, `BackendMonitor`;
- `Replies`: HTTP status mapping;
- `LegacyServer`, `LegacyMain`.

## Model

| member | source | states |
|---|---|---|
| Names.Split | server/backend_exec.go:140 | strings.Split on one character: one more piece than separators, and no piece holds the separator |
| Names.JoinSplit | server/backend_state.go:108 | joining the pieces of any split gives back the original string |
| Names.SplitJoin | server/backend_state.go:62 | splitting a join of one or more separator-free parts gives back exactly those parts |
| Names.ScopedRoundTrip | server/backend_state.go:61-63 | a scoped `ns.pod.container` of dot-free parts splits into exactly those three segments |
| Names.ExecIdSegments | server/backend_exec.go:77 | an exec id (scoped name, dot, dot-free suffix) splits into four segments, with the suffix last |
| Cluster.GeneratedNameShape | server/backend_state.go:48 | `levias-` plus an 8-character random suffix is 15 characters and holds no dot |
| Cluster.WithEphemeral | server/backend_state.go:54 | appending an ephemeral container: the list grows by one, earlier entries are kept in place, the new entry is last, and nothing else in the pod changes |
| Readiness.FirstAccepted | server/backend_attach.go:86-91 | the first status in list order that names the container and is in an accepted state; none exactly when no status matches |
| Readiness.EffectiveNamespace | server/backend_attach.go:75-77 | an empty namespace means "default"; any other namespace is kept |
| Readiness.StepOutcome | server/backend_attach.go:79-93 | one poll: a cancelled context or a fetch error decides it; it goes on exactly when nothing matched |
| Readiness.Poll | server/backend_attach.go:78-94 | a decided poll result is a matching status, or else a context or cluster error |
| Readiness.PollFirstDecisive | server/backend_attach.go:78-94 | first observation wins: when polls before d go on and poll d decides, the result is poll d's outcome |
| Readiness.PollUndecided | server/backend_attach.go:86-93 | snapshots where the container is absent or only Waiting never decide the loop |
| Readiness.PollDecidedAt | server/backend_attach.go:78-94 | every decided result is the outcome of some poll within the bound, and every earlier poll went on |
| Readiness.PollMorePatience | server/backend_attach.go:78-94 | allowing more polls never changes a decided result |
| Readiness.TerminatedEndsOnlyTheBackendWait | server/backend_attach.go:88 | a Terminated status ends the backend wait but not a Running-only wait |
| Readiness.ScanStatuses | server/backend_attach.go:86-92 | the status-scanning loop returns FirstAccepted |
| Readiness.PollLoop | server/backend_attach.go:78-94 | the poll loop (context check, fetch, scan, retry) returns Poll's result |
| Auth.GetNamespace | server/auth.go:41-43 | the value stored under the namespace key; the `requires` stands for the type assertion, which panics when no value is stored |
| Auth.GetPod | server/auth.go:45-47 | the value stored under the pod key; the `requires` stands for the type assertion, which panics when no value is stored |
| Auth.KeysIndependent | server/auth.go:38-47 | each accessor returns the value stored under its own key; storing under one key leaves the other key's value unchanged |
| Auth.ScopeContext | server/auth.go:24-25 | the derived context carries the given namespace and pod, and every other value of the request context is handed on unchanged |
| Auth.WrapHandler | server/auth.go:13-26 | without claims: 401 with the verification error, and the handler is not called; claims without the `kubernetes.io` claim or its `pod` sub-claim: a nil-pointer panic, exactly then, and the handler is not called; with pod-bound claims: one handler call with the same writer, request and variables and the scoped context, which keeps the request context's other values, and its result is returned |
| BackendExec.LastRunning | server/backend_exec.go:199-204 | the last status naming the container decides the running flag; with no such status the flag keeps its value |
| BackendExec.WatchVerdictFirstDecisive | server/backend_exec.go:192-216 | the watch answers true exactly when some Added/Modified event shows the container running and no earlier event was Deleted or showed it running |
| BackendExec.ScanRunning | server/backend_exec.go:199-204 | the inner status loop computes LastRunning |
| BackendExec.WaitForEphemeralContainer | server/backend_exec.go:192-216 | the watch loop returns WatchVerdict: true at the first event showing the container running, false at the first Deleted event, Error events skipped, false when the events run out |
| BackendExec.ExecTable.constructor | server/backend_exec.go:23-25 | the session table starts empty |
| BackendExec.ExecTable.ContainerExecCreate | server/backend_exec.go:77-82 | the id is name, dot, suffix; it maps to the config, not running, no exit code; every other entry is unchanged |
| BackendExec.ExecTable.ContainerExecInspect | server/backend_exec.go:85-99 | an unknown id fails; a known one reports its id, the stored exit code and running = false |
| BackendExec.ExecTable.ContainerExecStart | server/backend_exec.go:135-190 | a name that is not 4 segments is rejected before the table is read; an unknown id is not found; executor failure, and a watch that never shows the container running, end it with the table unchanged; the stream runs the stored command in the named container; only a failed stream changes the table, setting that session's exit code to 1 |
| BackendExec.ContainerExecResize | server/backend_exec.go:133 | always unimplemented |
| BackendExec.ExecExists | server/backend_exec.go:218 | every exec id is reported to exist |
| BackendExec.ExecLifecycle | server/backend_exec.go:77-189 | on a fresh table: inspect before create fails; after create it reports no exit code; start with a failing stream fails; inspect afterwards reports exit code 1 and not running |
| BackendAttach.WaitForReady | server/backend_attach.go:74-95 | the backend poll: Running or Terminated ends it, in the defaulted namespace |
| BackendAttach.ContainerAttach | server/backend_attach.go:18-72 | a name that is not 3 segments is rejected; poll and log-stream errors are returned; logs come from the named container in the namespace as given; both outputs are framed exactly when multiplexed streams were asked for |
| BackendState.GetPodScope | server/backend_state.go:18-28 | an empty pod name fails first, then an empty namespace; otherwise exactly (namespace, pod) |
| BackendState.ScopedPod | server/backend_state.go:36-44 | getPod's error, the fetch error for the caller's pod, or the namespace, pod name and fetched pod |
| BackendState.ContainerCreate | server/backend_state.go:30-64 | any failure returns an empty response and the error and takes no further step; the submitted pod is the fetched one with one container appended, built from image, entrypoint and cmd; the id is `ns.pod.name` taken from the updated pod |
| BackendState.CreatedIdRoundTrip | server/backend_state.go:61-63 | create's id splits back into namespace, pod and the generated name |
| BackendState.EngineState.constructor | server/backend_state.go:114 | a new state is not running and has no exit status |
| BackendState.EngineState.SetStopped | server/backend_state.go:122-125 | stopped, with the given exit status |
| BackendState.EngineState.SetRunning | server/backend_state.go:127-129 | running; the exit status is untouched |
| BackendState.WaitView | server/backend_state.go:116-130 | Terminated gives stopped with its exit code and finish time; Running gives running; an error or an undecided poll gives no transition |
| BackendState.ContainerWait | server/backend_state.go:107-133 | a name that is not 3 segments is rejected and no state or poll is created; otherwise a fresh state receives the transition for the backend poll's result |
| BackendState.TerminatedWithoutRunning | server/backend_state.go:116-130 | a container first seen Terminated, never Running, still resolves the wait as stopped with that exit code |
| BackendState.ContainerOpResult | server/backend_state.go:66-105 | start and remove succeed with no effect; kill, pause, rename, resize, restart, stop, unpause and update are unimplemented |
| BackendMonitor.ContainerInspect | server/backend_monitor.go:19-32 | a running record named after the name exactly when it ends in `.buildx_buildkit_default`; not-found otherwise |
| BackendMonitor.InspectAnswersBuilder | server/backend_monitor.go:21 | the scoped name of the buildx builder is answered in every namespace and pod |
| BackendMonitor.StatusFor | server/backend_monitor.go:56 | the first status naming a container; none exactly when no status names it |
| BackendMonitor.Summary | server/backend_monitor.go:57-64 | one listing record: the container's name and image, the status's rendered state and image id (both empty without a status), and an id that splits back into namespace, pod and container |
| BackendMonitor.ListingAsWritten | server/backend_monitor.go:54-66 | the code's positional pairing: it fails exactly when there are fewer statuses than spec entries; otherwise entry i pairs spec i with status i |
| BackendMonitor.Listing | server/backend_monitor.go:54-66 | one record per spec entry, in order, each paired with the status that names it |
| BackendMonitor.ListingIds | server/backend_monitor.go:58-59 | a record's names are just the container name, and its id splits into namespace, pod and container |
| BackendMonitor.ListingCommand | server/backend_monitor.go:63 | the command is the spec command joined with single spaces, so splitting recovers it when no word holds a space |
| BackendMonitor.ListingAgreesWhenAligned | server/backend_monitor.go:55-62 | when status i is the one naming spec entry i, the positional listing is the intended one |
| BackendMonitor.FreshContainerBreaksListing | server/backend_monitor.go:56 | after create appends a container that has no status yet, the positional listing fails while the intended one shows it with no state |
| BackendMonitor.ContainersAsWritten | server/backend_monitor.go:42-67 | the code's listing loop: getPod and fetch errors are propagated, otherwise ListingAsWritten |
| BackendMonitor.Containers | server/backend_monitor.go:42-67 | the corrected listing loop: getPod and fetch errors are propagated, otherwise Listing |
| BackendMonitor.MonitorOpResult | server/backend_monitor.go:16-41 | changes, logs, stats and top are unimplemented |
| Replies.CreateReply | server/server.go:281-292 | 200 with the response; AlreadyExists gives 409 and the nil response is still encoded; any other error gives 500 and nothing is encoded (main.go:292-303 maps the same way) |
| LegacyServer.CreateOutcome | server/server.go:295-319 | the fetch error; a nil-config panic exactly when the pod was fetched and the request carried no container config; the update error; or the bare generated name |
| LegacyServer.RunReply | server/server.go:281-292 | the connection is dropped exactly after the nil-config panic; a returned result gets CreateReply's 200/409/500 mapping |
| LegacyServer.CreateContainer | server/server.go:295-319 | submits a pod exactly when the fetch succeeded and a config was given: the fetched pod with one container built from the config appended; answers CreateOutcome |
| LegacyServer.BareIdIsOneSegment | server/server.go:316-318 | the bare id is a single dot segment, not a scoped name |
| LegacyServer.WaitForReady | server/server.go:321-342 | polls the defaulted namespace until the container is Running |
| LegacyServer.TerminatedKeepsPolling | server/server.go:333-338 | a container reported Terminated at every poll keeps this wait polling but ends the backend wait at once |
| LegacyServer.HandleContainersCreate | server/server.go:248-293 | 401 on failed claims, before the pod is touched; claims without the pod binding drop the connection before the body is read; 500 on an undecodable body; otherwise the created outcome mapped by CreateReply; the connection is dropped without an answer exactly when a body without a container config meets a successful fetch of the caller's pod |
| LegacyServer.HandleContainersExec | server/server.go:107-151 | as create: 401, a dropped connection for claims without the pod binding, 500 on an undecodable body; a body without a container config drops the connection before the pod is fetched; otherwise the caller's fetched pod is submitted with exactly the request's container appended, its image replaced by `moby/buildkit` |
| LegacyServer.HandleContainersStart | server/server.go:243-246 | every start request is answered 304 |
| LegacyServer.ExecStartPreamble | server/server.go:198-210 | the status line is `101 UPGRADED` exactly with an Upgrade header and `200 OK` exactly without; the fixed head (content type, and the upgrade headers for 101) is followed at once by the response headers and a closing blank line |
| LegacyServer.HandleExecContainersStart | server/server.go:153-241 | 401 on failed claims; a dropped connection exactly when the claims lack the pod binding; 500 on a poll, log-stream or hijack failure; otherwise it streams the caller's pod's container logs behind the preamble, always framed as stderr |
| LegacyMain.SanitizeChar | server/main.go:338-339 | lowercases ASCII letters, keeps lowercase letters and digits, maps the Kelvin sign to 'k' and U+0130 to 'i', and every other character to '-' |
| LegacyMain.K8sName | server/main.go:337-340 | same length, only `a-z0-9-`, sanitised position by position |
| LegacyMain.K8sNameFixes | server/main.go:334-340 | a name already in `a-z0-9-` is unchanged |
| LegacyMain.K8sNameIdempotent | server/main.go:337-340 | k8sName(k8sName(s)) == k8sName(s) |
| LegacyMain.CreateContainer | server/main.go:306-331 | always pod `forever` in namespace `default`; one container appended when the fetch succeeded and a config was given; a nil-config panic after a successful fetch otherwise; answers with the bare name |
| LegacyMain.WaitForReady | server/main.go:249-267 | always namespace `default`; only Running ends the wait |
| LegacyMain.HandleBuildkitExec | server/main.go:110-146 | 500 on an undecodable body; a body without a container config drops the connection before the pod is fetched; otherwise create in `default/forever`, submitting the fetched pod with exactly the request's container appended, its image replaced by `moby/buildkit`, and the outcome mapped by CreateReply |
| LegacyMain.HandleExecStart | server/main.go:147-228 | no claims checked: waits for the container in `default/forever` (Running only); 500 on a poll, log-stream or hijack failure; otherwise streams that container's logs behind the preamble, framed as stderr |
| LegacyMain.HandleContainerCreate | server/main.go:269-304 | 500 on an undecodable body; otherwise the created outcome mapped by CreateReply; the connection is dropped without an answer exactly when a body without a container config meets a successful fetch of `default/forever` |

## Left out

- The Kubernetes client is an oracle rather than a model, covering Get, UpdateEphemeralContainers, Watch, GetLogs().Stream and the SPDY executor. Token verification is an oracle too (the OIDC verifier and key set). The model sees only their answers.
- Readiness.PollLoop: the Go loops poll without bound, sleeping one second between polls. The model stops after `fuel` polls with `StillPolling`. PollMorePatience shows that a decided result does not depend on the bound.
- BackendState.ContainerWait: the background goroutine runs to its end before the method returns. The engine's wait channel, its wait conditions and its broadcast-once delivery are not modelled. The state object is reduced to its running flag and exit status.
- BackendAttach.ContainerAttach: the bytes copied from the log stream are not modelled, nor the stdcopy frame format. The outcome records only which outputs are framed and the copy's error. The readiness poll's context is `context.TODO()`, which is never cancelled.
- BackendExec.ExecTable.ContainerExecStart:
  - The error from setting up the pod watch is dropped by the code and has no meaning here.
  - The watch's 60-second lifetime appears only as the event sequence ending.
  - The stream's stdin/stdout/stderr contents are not modelled.
- BackendExec.WaitForEphemeralContainer: the code's error result is always nil, so only the boolean is modelled.
- Watch errors are skipped, not surfaced, because the code drops the formatted error. The model follows the code.
- BackendMonitor.ContainersAsWritten: the code panics on an index out of range. The model returns `IndexOutOfRange`. The net/http server recovers the panic and the request fails.
- BackendMonitor.Summary: the listing's State field is the Kubernetes type's String rendering. It is a parameter (`render`), not a format.
- LegacyMain.SanitizeChar: models the simple Unicode case mapping only where its result can be an ASCII letter (A–Z, the Kelvin sign, the dotted capital I). Every other non-ASCII character maps to '-', as in the code.
- LegacyServer.HandleExecContainersStart:
  - A failure to write the response headers after the hijack is not modelled.
  - Neither are the goroutine that echoes stdin and the copied log bytes.
- Request dumping (`httputil.DumpRequest`) and its failure path are not modelled, nor the JSON echo of requests to stdout and its failure path, nor logging. Error texts are kept as their causes, not as formatted strings.
- The backend mutex `b.mu` and the concurrent use of the exec table are not modelled: every operation is one sequential step.
- The routers are not part of this model: `addRoutes` (server/server.go:34-43) and the route table of `main` (server/main.go:56-246) only bind paths to handlers.
- The handlers that answer fixed replies are not part of this model: ping, image JSON, container JSON (always running) and the not-found handler (404).
- The events handlers (server/server.go:49-84, server/main.go:60-96) are not part of this model. They answer 400 when the `filters` query parameter does not parse as Docker filters JSON, and otherwise encode one container `destroy` event with exit code "0" and the current time. Filter parsing is the Docker library's and the time is a clock.
- LegacyMain.HandleExecStart: reading and discarding the request body is not modelled, nor the failure to write the headers after the hijack, the stdin echo goroutine and the copied log bytes.
- Reply `Dropped`, `ConnectionDropped` and `Panicked`: a handler that panics is recovered by net/http, which closes the connection. The panics are a nil container config, and claims without the `kubernetes.io` claim or its `pod` sub-claim. The panic value and the logged stack are not modelled.
- Also not part of this model:
  - `client/main.go` (reverse proxy, process launch);
  - `pkg/token/token.go` (file read);
  - `server/oidc.go`;
  - the stub files `server/backend.go`, `server/backend_images.go`, `server/backend_copy.go`, `server/backend_system.go` and `server/backend_commit.go`.

## Findings

| source | as written | input that shows it | evidently intended | confidence | as-written member | corrected member |
|---|---|---|---|---|---|---|
| server/backend_monitor.go:56 | Spec entry i is paired with `EphemeralContainerStatuses[i]`, by position. | A pod whose last ephemeral container was just appended by create and has no status yet: there are fewer statuses than spec entries, so the index is out of range. | Pair each spec entry with the status that names it, and leave the state empty while there is none. | medium; not executed | BackendMonitor.FreshContainerBreaksListing | BackendMonitor.Containers |
