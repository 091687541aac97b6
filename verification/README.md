# Agent platform: the lifecycle control loop, verified

A Kubernetes operator reconciles every `Agent` object into a claim (PVC), a pod, a
network policy and a service, and publishes a status. An HTTP API creates, starts,
stops, restarts and deletes agents and streams events while it polls that status.
The two run concurrently, work from stale snapshots, fail at any request, and names
are reused. This project models both programs, the store they share and the
controllers around it as one transition system, and proves what the platform
promises over every run of it.

## How it is built

| file | content |
|---|---|
| `Wrappers.dfy`, `Quantities.dfy`, `Json.dfy` | integer widths, CPU and memory strings, JSON merge patch (section 2 of RFC 7396) |
| `Crd.dfy` | agents and their status, what serialising writes and what deserialising reads back |
| `Resources.dfy`, `Isolation.dfy` | the builders, as functions and as the imperative code that fills maps and lists; who can reach whom under the policies built |
| `ApiServer.dfy` | the store, requests and answers, lost answers, graceful pod deletion, garbage collection, kubelet and scheduler |
| `Reconciler.dfy` | `reconcile` as a state machine with a program counter, one request a step |
| `Client.dfy`, `Controller.dfy`, `Handlers.dfy` | a cluster object on which `reconcile_*`, `update_status` and the five handlers run as methods with loops and a clock, under arbitrary interference; each is proved to follow the state machine |
| `Sse.dfy` | the handlers as state machines, polling against a deadline, the events emitted |
| `Builds.dfy`, `Drift.dfy`, `Publishing.dfy`, `Calls.dfy` | what objects, drift check, published status and API calls amount to, in stored fields and literals |
| `System.dfy`, `Effects.dfy` | the whole platform: any number of reconciles and requests in flight, interleaved with the environment |
| `Safety.dfy`, `Ownership.dfy` | the inductive invariant, and what it says about drift, owners and orphans |
| `Data.dfy`, `Provisioning.dfy`, `Readiness.dfy`, `Creation.dfy`, `NodePorts.dfy` | data survival, what a published phase implies, what a clean `ready` implies, concurrent creators, node ports |
| `Convergence.dfy`, `Recovery.dfy`, `Interleaving.dfy` | convergence by a measure, recovery from interruption, independence of reconciles |
| `Reuse.dfy`, `Honesty.dfy` | how a reused name can make a clean `ready` mislead, and exactly when it cannot |

A `System.State` is the store, the programs in flight and some memory of the past; a
`System.Move` is one atomic step of anybody. `Run(cfg, INIT, ms)` is the state after
the moves `ms`, and "reachable" means of that form. A move that is not enabled changes
nothing, so statements over all move sequences are statements over all runs. Every
request is served, refused, or served with its answer lost. A reconcile may start on
any value an agent ever had. `Safe` is the inductive invariant; every reachable state is
safe (`ReachableIsSafe`), so what is proved of safe states holds in every reachable one,
and a run may start in any safe state. `Config` holds the storage class, the request derived
from a limit and `canon`, the way the API server rewrites quantity strings.

Assumed of Kubernetes: single requests are atomic, creating an existing name fails,
deleting a pod only marks it until the kubelet is done with it, garbage collection
takes exactly the objects none of whose owners lives (by name and uid), and kubelets
report the documented pod phases.

## Where the code does less than its documentation says

- *Agents apart.* `README.md:133` and `docs/ARCHITECTURE.md:54` promise that agents cannot
  reach each other. TCP 53, 80 and 443 are open on the way out and an agent's declared
  ports on the way in. `IsolatedIff` says for every agent when the promise holds: for a
  non-empty port list without 53, 80 and 443. The ports assigned by default include 80
  (`DefaultAgentsAreReachable`).
- *Infrastructure only.* `docs/ARCHITECTURE.md:215` promises that only the ingress
  controller and the ssh proxy can reach agents. `ReceivesFromAnyone` says what an agent
  receives from pods with any labels, and `OpenToEveryone` that the promise never holds:
  every agent receives on some port from every pod, and a pod without labels reaches it.
- *Stopped status.* Writing `None` for node and address reads as if it cleared them; the
  fields are omitted from the patch and so kept. `StoppedClearsIffNeverSet` is exact.
- *Drift.* The pod's limits are compared as strings. `DriftCheckIsSound` and
  `LeftAloneConverges` say exactly when that settles: iff the API server stores the
  agent's two limit strings as they are, or the agent is to be stopped. Otherwise every
  served read of the agent's own pod goes on to delete it (`RewrittenLimitsAreAttacked`);
  half a CPU written "0.5" and stored as "500m" is such a limit (`HalfACpuIsAttacked`).
- *Waiting for a deletion.* The operator waits 2 s for a pod that may take 30 s to go.
  `ServedRunCompletesIff` says exactly which served runs give up because of it. Runs that complete are not affected (`RecoversIff`), with one exception: a pod
  on its way out that looks up to date is taken for the agent's pod.
- *Ready.* A `ready` event closes a stream whether or not polling succeeded; only a
  stream without `error` says anything. What it says under a name that is free, used
  before or not: `HonestIff` shows that it goes back to a read, since then, of a running
  pod of that name, exactly if no reconcile under way still carries "Running" for a
  former holder; `OwnHonestIff` that this pod is the new agent's own exactly if the name
  is new. `ReuseMisleads` is a run from the empty platform in which it misleads.
- *Streaming.* `README.md` lists streams on lifecycle endpoints as not yet included; the
  code has them, and they are modelled as the code has them.
- *Gibibytes.* Large limits wrap; `GibibytesExactIffInRange` is the exact range.

## Model

| member | source | states |
|---|---|---|
| Convergence.LeftAloneConverges | operator/src/controller.rs:21-53 | from any safe state, an agent that is left alone has its own claim, policy, service and up-to-date pod (none if stopped) after ten fair rounds and ever after iff the API server keeps its limit strings or it is stopped; converged then means that every object is the agent's full build |
| Convergence.Converges | operator/src/controller.rs:21-204 | if the limits are kept or it is stopped, an agent left alone in any store, reachable or not, in which only its own objects and those of former holders of its name lie under its names, missing, drifted or terminating, has converged after ten fair rounds and stays so; all other agents, the environment and failures are unrestricted |
| Drift.ConvergedPodCarries | operator/src/controller.rs:95-146 | under the hypotheses of `Convergence.Converges`, with limits kept: whatever pod it began with, a running agent ends with its own pod, not on its way out, whose container has the spec's image and both limits |
| Drift.ReadDecides | operator/src/controller.rs:116-146 | a served read of the pod goes on to the deletion iff the pod has a container without the spec's image, or without either limit as the spec has it; otherwise the pod is left alone |
| Drift.ReplacesWhatDoesNotCarry | operator/src/controller.rs:97-104 | if such a pod goes in time, the run completes with the agent's newly admitted pod in its place |
| Drift.DeletionWaits | operator/src/controller.rs:100-102 | the served deletion marks the pod and lets two seconds pass |
| Convergence.RewrittenLimitsAreAttacked | operator/src/controller.rs:95-100 | if a limit of a running agent is rewritten, every served read of its own pod, however new, goes on to the deletion, and that to the termination, of the pod |
| Convergence.HalfACpuIsAttacked | operator/src/controller.rs:125-136 | with "0.5" stored as "500m" the pod just made for the agent counts as drifted |
| Convergence.RoundHelps | operator/src/controller.rs:21-204 | a round in which garbage collection and termination are attempted and one reconcile is served strictly lowers the measure until it is zero |
| Convergence.NeverWorse | operator/src/controller.rs:69-204 | while the agent is left alone and its limits are kept or it is stopped, no single move by anyone raises the rank of any of its four objects |
| Convergence.StillOneWorker | operator/src/controller.rs:95-114 | the agent's worker is never about to delete a running agent's pod that is as it should be, whatever happens between its read and its delete |
| Convergence.ConvergedIffZero | operator/src/controller.rs:21-53 | the measure is zero exactly at convergence and never above ten, which bounds the rounds needed |
| Convergence.ConvergedIsFullyBuilt | operator/src/controller.rs:116-146 | in a safe state, agreement in the few things the operator looks at is agreement with the full builds, and requires limit strings the API server keeps |
| Convergence.SafeIsDated | operator/src/controller.rs:69-204 | under an agent's object names a safe state holds only its own objects and those of former holders of its name |
| Convergence.FairRoundExists | operator/src/controller.rs:50-65 | whenever the worker is free a fair round can follow, so the convergence theorems are not empty |
| Convergence.ConvergedIsAFixpoint | operator/src/controller.rs:69-204 | reconciling a converged agent again, starting it while running or stopping it while stopped, under any failures, never leads its worker to a create or a delete, and keeps it converged |
| Recovery.RecoversIff | operator/src/controller.rs:21-114 | for every store: any number of attempts, each stopped anywhere, with requests refused or answers lost and deleted pods going at any time within or between attempts, followed by any run that completes, leaves all child stores as the first store determines, iff no pod that looks up to date was on its way out at the start; whatever happens to the limits |
| Recovery.InterruptionsDoNotMatter | operator/src/controller.rs:97-104 | the sufficient direction, for agents stored or not, stops between pod deletion and creation included |
| Recovery.BeatsStayOnCourse | operator/src/controller.rs:21-53 | no prefix of a reconcile, under any replies and any timing of terminations, changes where a completed run leads, and what the program has passed is done |
| Recovery.ServedRunCompletesIff | operator/src/controller.rs:21-162 | for a stored agent, any store and any timing: one served run completes unless a pod it has to delete is found but goes before the deletion, or a drifted one is found and does not go right after it; a run that completes is at its target if no up-to-date pod was on its way out, one that gives up leaves the claim in place and policy and service untouched |
| Recovery.ServedRunIsBlockedIff | operator/src/controller.rs:90-114 | if the pod is not on its way out at the start, a served run of a stored agent gives up iff it finds the pod drifted and the pod is still there two requests later |
| Recovery.StoppingRun | operator/src/controller.rs:148-162 | stopping an agent whose pod is on its way out fails iff the pod goes between the read and the deletion |
| Recovery.DoomedPodIsMissed | operator/src/controller.rs:95-110 | a running agent's up-to-date pod that is on its way out does not stop a served run, and is missing in the end unless it goes before it is read |
| Recovery.RerunAfterDeletion | operator/src/controller.rs:97-104 | a rerun on a drifted pod already being deleted completes iff that goes before the pod is read, or between the second deletion and the creation |
| Recovery.Interrupted | operator/src/controller.rs:97-104 | with a rewritten limit, after a crash right behind pod creation the rerun attacks the new pod and, unless that goes in time, gives up before the policy, which an uninterrupted run creates |
| Interleaving.InterleavingsAreSerial | operator/src/controller.rs:21-53 | any interleaving of reconciles of different agents, failures included, ends in the same programs and store as running them one after the other in any order |
| Interleaving.StepsCommute | operator/src/controller.rs:69-204 | two requests of reconciles of different agents commute, answers included |
| Interleaving.StepReadsItsOwn | operator/src/controller.rs:21-53 | what a step decides and writes depends only on what the store holds under its agent's names |
| Interleaving.ThirdPartiesUntouched | operator/src/controller.rs:21-53 | the objects and status of an agent no reconcile works on stay as they are |
| Resources.NamesInjective | operator/src/resources.rs:102-104 | within each kind an object name determines the agent |
| Ownership.ReachableIsSafe | operator/src/controller.rs:21-53 | in every reachable state every child has exactly one owner, once an agent, and equals the build of that agent, under stale snapshots, failures and name reuse |
| Safety.SafeStep | operator/src/controller.rs:69-204 | the invariant is kept by every move of the platform |
| Ownership.OwnChildrenAreCurrent | operator/src/resources.rs:102-415 | in a safe state, whatever exists and is owned by a live agent equals the full build of the agent as stored now, in every field |
| Ownership.DriftCheckIsSound | operator/src/controller.rs:116-146 | in a safe state a live agent's own pod counts as drifted iff the API server rewrote a limit, and is otherwise current in every field, though the check compares few (`Drift.ReadDecides`) |
| Ownership.DriftIff | operator/src/controller.rs:116-146 | the admitted build of an agent needs no update iff both limit strings are stored as given |
| Ownership.PodsMountTheirClaim | operator/src/resources.rs:266-282 | every pod stored in a safe state mounts exactly the claim of its own agent |
| Ownership.CollectableIffOwnerGone | operator/src/resources.rs:89-99 | an object is garbage iff the agent now stored under its owner's name has another uid or none is stored |
| Ownership.QuiescentMeansCurrent | operator/src/controller.rs:69-204 | when garbage collection has caught up, every object belongs to the current holder of its name, though creation checks names only |
| Resources.BuildersIgnoreState | operator/src/resources.rs:102-415 | agents that differ in the desired state only have the same four builds |
| Builds.OwnObjectsAreAsAsked | operator/src/resources.rs:102-415 | in a safe state every object a live agent owns is, field by field, what its stored spec asks for |
| Builds.BuiltPodIsAsAsked | operator/src/resources.rs:133-287 | the pod built has the spec's image, command, ports, mount path, environment with the key last, probes of the first port unless there is a command or no port, limits, requests, claim, grace period; it is trusted iff its profile is "trusted" and under sysbox in a user namespace iff it runs Docker; it is named, labelled and owned for the agent |
| Builds.BuiltPvcIsAsAsked | operator/src/resources.rs:102-130 | the claim built is for the disk asked for, for one node at a time, in the configured class |
| Builds.BuiltServiceIsAsAsked | operator/src/resources.rs:384-415 | the service built is a node port service that sends each declared port to itself |
| Builds.BuiltPolicyIsAsAsked | operator/src/resources.rs:290-381 | the policy built restricts both directions and opens exactly TCP 53, 80 and 443 and UDP 53 on the way out |
| Data.DataSurvives | operator/src/controller.rs:69-84 | while an agent's uid is live, its claim is never removed or replaced, over all runs |
| Data.ClaimCreatedOnce | operator/src/controller.rs:69-84 | the claim of a live agent has been created exactly once if it exists and never if not |
| Data.NoResurrection | api/src/handlers.rs:263 | a uid that is live after a move and was handed out before was live before it |
| Provisioning.PublishedImpliesProvisioned | operator/src/controller.rs:30-49 | for a never deleted agent under a never reused name, a published phase implies claim, policy and service, at every interleaving |
| Provisioning.ProgressIsBacked | operator/src/controller.rs:27-49 | what a reconcile's program counter has passed is in the store, whatever else went on |
| Readiness.CleanReadyIsTruthful | api/src/handlers.rs:263-284 | if a creation under a name no agent had before a run ends it with `ready` and no `error`, then within the run the operator read a pod of that name, owned by an agent created in the run, in phase Running with no container in a crash loop |
| Readiness.CleanReadyIsAboutThisAgent | api/src/handlers.rs:263-284 | if moreover the name is handed out only once, that read was of the pod owned by the very agent the creation made: its uid, its spec |
| Honesty.HonestIff | api/src/handlers.rs:263-284 | for a free name in a safe, truthful state: behind every later clean `ready` of a creation there is a read since then of a running pod of that name, whatever happens, iff no reconcile of the name carries "Running" |
| Honesty.OwnHonestIff | api/src/handlers.rs:263-284 | for a free name whose former holders, if any, were ever to run, and as long as it is handed out once: the read is always of the new agent's own pod iff the name is new |
| Honesty.ApiCreatesToRun | api/src/handlers.rs:211-261 | former holders were ever to run in every state reached by creations as the API makes them |
| Reuse.ReuseMisleads | operator/src/controller.rs:255-262 | for any name and any spec a whole run from the empty platform in which a reconcile of the deleted former holder publishes onto the new agent: `ready` without `error`, and no read of a running pod of that name since the creation request |
| Reuse.LeftoverMisleads | api/src/sse.rs:61-64 | from every state with such a leftover five moves suffice |
| Reuse.StaleVersionLeaves | operator/src/controller.rs:21-53 | in any safe state any version of a deleted agent that was to run can be led to such a leftover |
| Reuse.PodBeforePolicy | operator/src/controller.rs:30-43 | for any name and spec, a reachable state in which the agent has a pod and no policy |
| Readiness.ReachableIsTruthful | operator/src/controller.rs:293-303 | every status stored, carried by a reconcile or seen by a stream that says Running goes back to such a read |
| Readiness.RunningMeansRunning | api/src/sse.rs:31-42 | users see "running" for no other published phase than Running |
| Creation.OneCreationWins | api/src/handlers.rs:165-170 | of any number of interleaved creations of a name, between deletions at most one wins; the stored agent has its uid and its spec but for the desired state; every other one is still undecided or was rejected without a stream |
| Creation.ExactlyOneTakesEffect | api/src/handlers.rs:165-170 | once any creation of a free name has been answered, and until a deletion, exactly one has taken effect, also if answers are lost |
| Creation.ExactlyOneWins | api/src/handlers.rs:263-268 | if no answer to a successful creation is lost, exactly one caller has won, and the stored agent is what it asked for |
| Creation.ReachableWinners | api/src/handlers.rs:263-268 | a creation streams iff it won, the agent it won is its own, and no two win the same uid |
| NodePorts.PublishedPortsAreAllocated | operator/src/controller.rs:236-252 | after any allocation to a live agent's own service, the derived status lists exactly the declared ports that have a node port, each with its own, in order |
| NodePorts.UnnamedPort | operator/src/controller.rs:243-248 | a port without a name is published with an empty one |
| Crd.StatusHistory | operator/src/crd.rs:71-88 | after any sequence of status patches the API reads the phase and restart count of the last, and for every other field the last value present in any |
| Crd.StatusPatch | api/src/crd.rs:99-124 | a status patched into any readable status document reads back as the old status overlaid by the fields present |
| Publishing.RunningStatus | operator/src/controller.rs:210-319 | after publishing, whatever the store was at each request: the API reads the pod's own address and node, or the last ones if it has none, its restarts modulo 2^32 as 32 bits hold them, its phase, and the service's node ports if they could be read; "Creating" and no count without a pod |
| Publishing.StoppedPublishes | operator/src/controller.rs:218-262 | for a stopped agent it reads "Stopped", no restarts, and everything else as it was, node ports apart |
| Publishing.EveryPhase | operator/src/controller.rs:277-302 | the phase published for each phase of a pod and for a crash loop |
| Crd.EncodedMembers | operator/src/crd.rs:71-88 | which members an encoded status has under which names, and which are skipped |
| Crd.StatePatchWrites | api/src/handlers.rs:333-373 | the two state patches leave "running" and "stopped" in any document |
| Crd.StoppedClearsIffNeverSet | operator/src/controller.rs:218-225 | the stopped status leaves node and address empty iff no earlier patch ever filled them |
| Crd.StatePatchIsFocused | api/src/handlers.rs:333-339 | a start or stop patch rewrites `spec.state` of an agent's document and leaves every other member alone |
| Crd.LastStatePatchWins | api/src/handlers.rs:373-379 | of two state patches the last one wins on any document, so repeating one changes nothing |
| Json.MergePatchIdempotent | operator/src/controller.rs:255-262 | applying a merge patch twice is applying it once, over all JSON values |
| Json.MergedMembers | operator/src/controller.rs:255-262 | merging member by member: null removes, anything else is merged, the rest stays |
| Json.LaterPatchWins | api/src/handlers.rs:333-379 | a patch that overrides an earlier one member by member erases every trace of it |
| Sse.StreamProtocol | api/src/sse.rs:46-86 | a stream is a bounded number of statuses (201, 41 for a stop, 31 for a deletion), at most one error, and its closing event; the error is there iff the last answer was a failed read or the deadline passed with no answer at the target |
| Sse.PollEndsHonestly | api/src/sse.rs:56-82 | polling stops at the first answer that shows the target, which the store then still shows, at the first failed read, or past the deadline with neither among its answers |
| Sse.EndingsByAnswers | api/src/sse.rs:56-82 | each of the three endings is equivalent to what the answers contain |
| Sse.CreateStreamProtocol | api/src/handlers.rs:146-285 | a creation is rejected without events or emits `created`, at most 201 statuses, at most one error and `ready`, and its ending is what the answers to its polls and the clock say |
| Sse.CreateErrsIff | api/src/handlers.rs:268-282 | a creation that streams reports an error iff no answer showed the agent running; always when a read failed, and otherwise only after ten minutes |
| Sse.DeleteStreamProtocol | api/src/handlers.rs:441-492 | a deletion emits only statuses, at most 31, before its last event, which is an error, or `deleted` with the agent gone from the store |
| Calls.StartAndStop | api/src/handlers.rs:322-379 | for every world: an agent found and still there is left with exactly its desired state set to running, or to stopped, and the call streams; a missing one is answered NotFound, a failed request KubeError, with no events and nothing else changed |
| Calls.Restart | api/src/handlers.rs:402-420 | an agent found has its pod, if any, on its way out and the call streams, whether or not the deletion succeeded; a missing one is answered NotFound |
| Calls.Creation | api/src/handlers.rs:165-268 | a name taken at the check is a Conflict, one taken since or a failed request KubeError; otherwise the agent is stored with a new uid, that spec and no status |
| Calls.AcceptedCreationStores | api/src/handlers.rs:263-268 | a creation that is not rejected has stored exactly that |
| Calls.Deletion | api/src/handlers.rs:448-487 | each failure is a stream of one error, its own; otherwise the agent is gone and the call streams |
| Calls.StreamEvents | api/src/sse.rs:54-82 | the events of a stream are exactly: what users are told for each answer that shows the agent short of its target, the error if it ended in one, and `ready`, `stopped`, or for a deletion nothing but `deleted` |
| Calls.Deadlines | api/src/handlers.rs:274-425 | 600 s for creation and start, three seconds later for restart, 120 s for stop, 60 s for deletion, waiting for "running" or "stopped" |
| Calls.PollsEvery | api/src/sse.rs:82 | three seconds between polls, two for a deletion |
| Calls.UserSees | api/src/sse.rs:31-42 | what users are told for every state and phase |
| Isolation.StoredReachability | operator/src/resources.rs:290-381 | in a safe state with every agent converged and nothing to collect, the stored policies let the stored pods of two running agents exchange exactly the traffic that goes to an open egress port and that the receiver admits |
| Isolation.AgentReachability | operator/src/resources.rs:290-381 | one agent reaches another on a port exactly when the port is open on the way out and the other admits it, under the union of the policies built for any set of agents |
| Isolation.IsolatedIff | operator/src/resources.rs:290-381 | no other agent reaches an agent iff it declares ports and none is 53, 80 or 443 |
| Isolation.ReceivesFromAnyone | operator/src/resources.rs:297-345 | under all agents' policies an agent receives from a pod with any labels exactly if that is the ingress controller or the ssh proxy, or the agent admits the port |
| Isolation.OutsiderReachability | operator/src/resources.rs:290-381 | the same for reaching it, from pods that carry no agent's name |
| Isolation.OpenToEveryone | operator/src/resources.rs:318-345 | every agent has a port on which it receives from every pod, and which a pod without labels reaches |
| Isolation.DefaultAgentsAreReachable | api/src/handlers.rs:240-259 | with the default ports two agents reach each other on TCP 80, not on 22 |
| Isolation.SelectsOwnPodOnly | operator/src/resources.rs:384-415 | the policy and service of an agent select the pods of that agent alone |
| Isolation.GovernedByOwn | operator/src/resources.rs:290-300 | of all agents' policies an agent's pod is governed by its own alone |
| Quantities.CpuRequestIsAQuarter | operator/src/resources.rs:137-148 | for every limit string, 4 * request <= limit < 4 * (request + 1), both read by the operator's own parser |
| Quantities.MemoryRequestIsAQuarter | operator/src/resources.rs:137-148 | the same for memory |
| Quantities.GibibytesExactIffInRange | operator/src/resources.rs:31-43 | n gibibytes are read as 1024 n iff n is at most (2^64 - 1) / 1024 |
| Quantities.ReadMillis | operator/src/resources.rs:20-28 | a printed number of millis reads back, or as 1000 when it does not fit 64 bits |
| Quantities.ReadMebibytes | operator/src/resources.rs:31-43 | a printed number of mebibytes reads back, or as 512 when it does not fit 64 bits |
| Quantities.ReadMemory | operator/src/resources.rs:31-43 | binary and decimal suffixes of any numeral, malformed ones included, read alike |
| Quantities.ParsePrint | operator/src/resources.rs:20-43 | parsing undoes printing exactly up to 64 bits |
| Quantities.ReadCpu | operator/src/resources.rs:20-28 | millis end in m, all else is the floating-point reading, and one CPU if there is none |
| Quantities.MemoryFallbacks | operator/src/resources.rs:31-43 | unreadable numerals are two gibibytes or 512 mebibytes by suffix |
| Quantities.MemoryWithoutUnit | operator/src/resources.rs:40-42 | limits without a suffix are 512 mebibytes |
| Quantities.Numerals | operator/src/resources.rs:20-43 | numerals are digits below 2^64 behind at most one plus sign |
| Quantities.NormalizeKeepsMeaning | api/src/handlers.rs:132-140 | the operator reads every string alike before and after normalisation |
| Quantities.NormalizeSettles | api/src/handlers.rs:132-140 | normalising is idempotent and leaves no decimal suffix |
| Resources.BuiltRequestsAreAQuarter | operator/src/resources.rs:133-148 | in every built pod the limits are the spec's strings and the requests a quarter of them |
| Handlers.RequestsAreWellFormed | api/src/handlers.rs:172-261 | every created agent is to run and declares a port, and its memory limit means what the client wrote |
| Handlers.RequestIsMet | api/src/handlers.rs:172-261 | every field of the spec made for a request in terms of the request: new field, old field or default, decimal suffixes of the new ones made binary, variables in order with key and address behind, ports as given or the defaults |
| Handlers.RunningResponse | api/src/handlers.rs:89-125 | after any history of status writes a running agent is reported with image and last count, last address, node and node ports, and its own node id or else the node |
| Handlers.Reported | api/src/handlers.rs:89-125 | every field of a report, for any readable status |
| Handlers.StoppedResponse | api/src/handlers.rs:89-125 | after any history a stopped agent is reported stopped with no restarts, and with the last address and node it ever had |
| Controller.Reconcile | operator/src/controller.rs:21-53 | a whole reconcile on a cluster, under any interference, failures and timing, is a complete run of the state machine: same requests, same store, same outcome |
| Reconciler.FailureAborts | operator/src/controller.rs:21-53 | a failed request ends the reconcile, except the read of the service for its node ports, and nothing else does |
| Controller.StepInAWorld | operator/src/controller.rs:73 | a request of these methods does to the store, as everyone else left it, what one step of the interleaved state machine does |
| Controller.ReconcilePvc | operator/src/controller.rs:69-84 | from any world, the state machine started at the claim gets where this method ends: past an existing or newly created claim, or aborted by the first failure |
| Controller.ReconcilePod | operator/src/controller.rs:90-114 | likewise for the pod: kept, created, or deleted and after 2 s created again, aborting when that creation finds the old pod still there; `Drift.ReadDecides` says which |
| Controller.DeletePodIfExists | operator/src/controller.rs:148-162 | likewise for the branch of a stopped agent |
| Controller.ReconcileNetworkPolicy | operator/src/controller.rs:168-183 | likewise for the policy, checked by name only |
| Controller.ReconcileService | operator/src/controller.rs:189-204 | likewise for the service, checked by name only |
| Controller.UpdateStatus | operator/src/controller.rs:210-266 | likewise for the status, where failing to read the service does not abort; `Publishing.RunningStatus` and `StoppedPublishes` say what is read back |
| Handlers.PollStatusStream | api/src/sse.rs:46-86 | the polling loop emits the events and leaves the world of the polling run it is specified by |
| Handlers.CreateInstance | api/src/handlers.rs:146-285 | a request without name and service type touches nothing; else answer, events and world are those of the creation of an agent with a spec that meets the request field by field, under the given or generated name |
| Handlers.StartInstance | api/src/handlers.rs:322-356 | answer, events and world are those of the request's state machine; `Calls.StartAndStop` says which |
| Handlers.StopInstance | api/src/handlers.rs:362-396 | answer, events and world are those of the request's state machine; `Calls.StartAndStop` says which |
| Handlers.RestartInstance | api/src/handlers.rs:402-435 | answer, events and world are those of the request's state machine; whether the pod deletion succeeds does not matter; `Calls.Restart` says which |
| Handlers.DeleteInstance | api/src/handlers.rs:441-492 | answer, events and world are those of the request's state machine; failed reads are retried until the deadline |
| Handlers.SpecFromRequest | api/src/handlers.rs:172-261 | filling the spec step by step yields one that meets the request field by field |
| Resources.MakePod | operator/src/resources.rs:133-287 | filling the maps step by step yields the build that `Builds.BuiltPodIsAsAsked` spells out and every invariant speaks about |
| Resources.MakeNetworkPolicy | operator/src/resources.rs:290-381 | yields the policy `AgentReachability` speaks about |
| Resources.MakePvc | operator/src/resources.rs:102-130 | yields the claim `DataSurvives` speaks about |
| Resources.MakeService | operator/src/resources.rs:384-415 | yields the service `SelectsOwnPodOnly` and `PublishedPortsAreAllocated` speak about |

## Left out

- Convergence.LeftAloneConverges: assumes the agent's current value is not changed any more and that one worker at a time reconciles it, as the controller runtime guarantees; the safety results assume neither.
- Readiness.CleanReadyIsTruthful: does not tie the pod read to this creation; Readiness.CleanReadyIsAboutThisAgent does, for a name handed out once, and Honesty.OwnHonestIff shows why not for others.
- Provisioning.PublishedImpliesProvisioned: does not cover the pod, which may be gone or, before a status is published, there without a policy (Reuse.PodBeforePolicy); once one is published, the policy is there whether or not a pod is.
- Interleaving.InterleavingsAreSerial: is about reconciles alone; the other theorems put everything else in between.
- Recovery.RecoversIff: nobody but the reconcile and the kubelet ending terminations touches the agent's objects meanwhile; convergence covers the rest.
- Floating-point CPU limits: the parser's `f64` branch is a parameter, so what is proved holds for any rounding.
- Lower-casing of unknown phases (api/src/sse.rs:40) is modelled for ASCII letters.
- Generated instance names, clocks and the outcome of each request are parameters; texts of error messages are reduced to their kinds.
- Deleting an agent is one step: no finalizers, and garbage collection of its objects follows later, each in one step.
- Restart counts wrap around, as in the release build of Dockerfile.operator:8; a debug build would stop instead.
- The two security contexts (operator/src/resources.rs:46-78) are two constants.
- The namespace is fixed; the order of members in JSON documents is not modelled.
- Edits of a stored agent other than its desired state are not moves of the system; convergence covers their aftermath by starting from any drifted pod.
- Listing, logs, statistics, SSH details, node listing, the command line, authentication, routing, registration of the resource type and deployment files: projections and plumbing.
