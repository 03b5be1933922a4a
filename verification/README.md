# Verification of the control plane

A Dafny model of four parts of the repository, with proofs of what each promises over every input, every
interleaving and every run. `dafny verify dfyconfig.toml` checks all of it.

**The operator** (`Operator`, `StepFacts`, `Convergence`, `WriteBound`, `Safety`, `Incarnations`, `History`,
`Balance`, `Recreation`, `Outcomes`, `Settling`; `Image`, `Objects`, `Children`, `Conditions`, `MergePatch` below them;
`Workload`, `Addresses` and `Reasons` for what a child runs, where an endpoint leads and what conditions tell). The
cluster and the operator are one state machine, `Operator.World`. An event is a change by someone else
(creating, editing and deleting ManagedServices; storing, changing and deleting children; readiness; a resync)
or the next API call of one key's reconciliation, which may meet a fault. A run is any sequence of events. A world
that is `Convergence.Started` has no reconciliation in flight and every live ManagedService queued, as after a
start of the manager. `StepForms` and `Reconciler` hold the same operator as objects with fields: the methods of
`Reconcile`, with its early returns and its deferred metric, between which a schedule lets others act. They are
proved to take exactly the steps of the state machine, so what is proved of runs holds of them.

**ServeUntilShutdown** (`Lifecycle`, `Supervisor`). The calling goroutine, one serving goroutine for each server,
the buffered channel and the context, as a protocol whose steps interleave in any order; and the function's own
loops over the same state.

**HTTP telemetry** (`Recorder`, `Requests`, `Middleware`). Concurrent requests whose metric updates are separate
steps, handlers that panic, and the response recorder over the writer it wraps.

**The control-plane API** (`Routing`, `Ordering`, `ControlPlane`, `ApiLaws`, `ApiAnswers`). The gate, the mux, the
handlers over a store they change in place, their refinement of a map from names to replicas and messages, and every
answer by the request that gets it.

## Assumptions about libraries

- Reads of a ManagedService and of its children are fresh, and one reconciliation runs per key at a time.
- A stale resource version is refused; a failed patch was not applied; a failed Create or Update of a child may
  have been. Versions and UIDs are drawn from one clock that never repeats.
- The server fills unset fields with defaults, keeps a Deployment's selector immutable, and refuses two controller
  references. Deployment status is not changed by Create or Update.
- `SetControllerReference` compares group, kind and name, not the UID, as controller-runtime does: a child left by
  an earlier incarnation of the same name is taken over.
- Only the operator writes the status of a ManagedService. There are no finalizers. Times are whole seconds.
- A watch enqueues the key of a changed ManagedService, and of the controller a child names before or after a change.
- `Server.Serve` closes its listener on every way out, and returns ErrServerClosed at once on a server that is
  shutting down. `Shutdown` closes the listeners that Serve has registered and returns by the deadline of its context,
  or at once if that has passed. `Close`, Go statements and channel operations take no time. A result that is taken
  while the context ends counts as taken before or after the end, whichever the test of the context saw.
- The first final status of a response is the one sent, an unwritten response as 200, when the handler returns. Until
  then header and body wait in a buffer of the server, which may overflow and send them; on a panic the connection is
  closed on whatever is still in the buffer.
- Two credentials are equal if and only if their SHA-256 hashes are. The mux redirects a path that path cleaning
  changes, CONNECT requests apart, and otherwise runs the handler of the longest pattern that matches. The API server
  refuses objects that their schema does not admit.

## What the proofs found

- The status patch names the object only, with neither UID nor resource version. If a ManagedService is deleted and
  created again between the Get and the Patch, the patch lands on the new incarnation. Then the observed generation
  can exceed the generation, the conditions can disagree with it, and the transition counters can fall behind the
  persisted history. `Recreation` gives such runs from an empty cluster; `Incarnations` and `History` say exactly
  which patches do it, and that nothing else does.
- A stray status can also make the observed generation of the new incarnation go back when the operator writes it the
  next time. `Incarnations.ObservedGenerationGrows` says exactly when; `Recreation.ObservedGenerationCanRetreat` is a run.
- A handler that panics while its response is still in the server's buffer is counted under the status it had set, or as
  `2xx` if it had set none, although its client gets no response (`Requests.SilentPanic`, `Requests.BufferedPanic`). In
  every other case the recorded status is the client's (`Requests.RecordedIsSent`).
- A store write whose answer is lost is answered 500 and has changed the store. Apart from that the store changes
  exactly on 201 and 204 (`ApiLaws.ChangesExactly`).

## Model

| member | source | states |
|---|---|---|
| Convergence.QuiescentConverged | internal/controller/managedservice_controller.go:66-135 | in every reachable state a live ManagedService whose key is neither queued nor in flight has both children and its status as the operator would make them |
| Convergence.DegradedRetries | internal/controller/managedservice_status.go:101-144 | a Degraded status is never final: the key is queued or being reconciled |
| Safety.QuiescentServed | internal/controller/managedservice_controller.go:66-123 | in every reachable state, a live key that is neither queued nor in flight has a Deployment that runs what its spec asks for, a Service that leads to the pods' named ports, and an endpoint that names that Service |
| WriteBound.WritesBounded | internal/controller/managedservice_controller.go:82-122 | in any run, retries included, the operator stores at most 6 writes per disturbance of a key and 6 more, 3 more if nothing was in flight at the start: it does not chase its own writes |
| WriteBound.ReconcileTwice | internal/controller/managedservice_resources.go:112-329 | an undisturbed reconciliation writes exactly the out-of-date objects, and a second one writes nothing, after success and after a lasting error alike |
| WriteBound.ReconcileConverges | internal/controller/managedservice_controller.go:92-122 | from any drift, one undisturbed reconciliation converges the key if and only if it meets no lasting error |
| WriteBound.ConvergedIffRested | internal/controller/managedservice_controller.go:66-123 | a key is converged if and only if nothing is pending for it and the verdict is success |
| Settling.LeftAloneSettles | internal/controller/managedservice_controller.go:66-135 | from any reachable world, a key that is left alone while the operator takes twelve steps for it is never written again while it is left alone, and its objects stay as they are |
| Settling.LeftAloneIdles | internal/controller/managedservice_controller.go:66-135 | after thirteen more steps, with nobody waking it, a key is idle and unqueued if and only if its ManagedService is gone or its conclusion is success; a lasting error is retried for ever, a deleted key is not |
| Settling.RunOwed | internal/controller/managedservice_controller.go:77-122 | whatever else happens, every fault-free step for the key brings it closer to rest |
| WriteBound.FinishRetires | internal/controller/managedservice_controller.go:77-122 | from any stage in step with the store, finishing writes exactly the pending objects and leaves none |
| Safety.EveryStepSafe | internal/controller/managedservice_resources.go:112-329 | every operator step of every run touches its own key's objects only and wakes no other key; a written child was not controlled by another object, names the incarnation that was read as its only controller, keeps annotations, strategy, cluster IP, readiness and other owners, and runs digest-pinned images; a written Deployment is one container of the configured image with the spec's message, replicas, labels, probes, ports and pull secret, and a written Service leads its two ports to the pods' ports of those names |
| Safety.OneControllerAlways | internal/controller/managedservice_resources.go:128-137 | in every reachable state every child has at most one controller |
| Safety.ServiceReachesPods | internal/controller/managedservice_resources.go:72-110 | the Service's selector and the Deployment's match the pod labels, and its ports name ports of the container |
| Workload.SettledRuns | internal/controller/managedservice_resources.go:127-247 | a Deployment the closure leaves alone is one container of the configured image, told the spec's message in MESSAGE and the number of its port called metrics in METRICS_PORT, probed at /healthz and /readyz on its port called http at a fixed pace, with exactly the configured pull secret, the spec's replicas or one, and the literal labels |
| Workload.SettledLeads | internal/controller/managedservice_resources.go:289-324 | a Service the closure leaves alone sends port 80 to the pods' port called http and port 9090 to the one called metrics, whatever their numbers, and selects the key's pods |
| Workload.PairServes | internal/controller/managedservice_resources.go:72-110 | such a Service's port 80 ends at the port both probes ask, and its port 9090 at the number the container was told; every selected label is on the pods |
| Workload.SpecShows | internal/controller/managedservice_resources.go:139-194 | one Deployment settled for two specs has the same message, desired replicas and template in both: no edit of them goes unnoticed |
| Incarnations.PatchRoundTrip | internal/controller/managedservice_status.go:165-187 | the stored status equals the computed one, whatever edits of the spec came between, if and only if the patch reaches the incarnation it was computed from or carries every field that is not zero |
| Incarnations.ClaimThroughout | internal/controller/managedservice_status.go:43-187 | each claim about statuses (observed generation at most the generation; equal on all three conditions; conditions present; no replicas or endpoint while Degraded; an endpoint that names the key's own Service; the full consistency of SoundStatus) holds throughout a run if and only if no patch of the run meets that claim's guard |
| Incarnations.ClaimStep | internal/controller/managedservice_status.go:165-187 | the same for one step |
| Incarnations.DegradedShowsNothing | internal/controller/managedservice_status.go:101-144 | in every run a Degraded status shows zero replicas and no endpoint |
| Incarnations.EndpointsAddressed | internal/controller/managedservice_status.go:52-56 | in every run, stray patches included, a stored endpoint is empty or an HTTP address whose host, cut at its dots, is name, namespace, svc, cluster, local of its own key |
| Addresses.EndpointNamesService | internal/controller/managedservice_status.go:52-56 | for a key of DNS labels the endpoint is "http://" and a host that splits into exactly those five labels |
| Addresses.SoundNamesService | internal/controller/managedservice_status.go:43-144 | a consistent status that is not Degraded has such an endpoint, a Degraded one has none |
| Incarnations.HomeHolds | internal/controller/managedservice_status.go:43-187 | in a run whose patches reach the incarnations they were computed from all the claims hold throughout |
| Incarnations.ObservedGenerationGrows | internal/controller/managedservice_status.go:49-57 | within an incarnation the generation never decreases, and the observed generation decreases in a step if and only if the step is a patch of that incarnation whose read status is ahead of the generation that was read |
| Incarnations.GrowsIffNeverRetreats | internal/controller/managedservice_status.go:165-187 | over a whole run no incarnation's observed generation ever decreases if and only if no step is such a patch |
| Incarnations.IncarnationsKept | internal/controller/managedservice_status.go:109-163 | in every run a written conditions list is the three types, exactly one of them True, and a copy of a live incarnation carries its current status |
| Recreation.GenerationCanBeOvertaken | internal/controller/managedservice_status.go:170-172 | a run in which the observed generation exceeds the generation |
| Recreation.GenerationsCanDisagree | internal/controller/managedservice_status.go:170-172 | a run in which conditions carry another generation than the status |
| Recreation.ObservedGenerationCanRetreat | internal/controller/managedservice_status.go:49-57 | a run in which the observed generation of one incarnation goes from 2 back to 1 |
| Recreation.CountersCanFallBehind | internal/controller/managedservice_status.go:165-187 | a run in which the counters miss a persisted change |
| History.CountersAndHistory | internal/controller/managedservice_metrics.go:132-153 | the transition counters never exceed the persisted changes, first appearances included, and equal them if and only if no patch of the run miscounts |
| History.CountedStep | internal/controller/managedservice_status.go:165-187 | a step counts exactly the changes it persists unless it miscounts, and then fewer |
| Balance.HistoryAlternates | internal/controller/managedservice_metrics.go:132-153 | the persisted changes of one condition of one incarnation alternate between True and False |
| Balance.CountersAreCounted | internal/controller/managedservice_metrics.go:132-153 | the transition counters are the history of what was counted, booked on the incarnations that were stored |
| Balance.CountedAlternates | internal/controller/managedservice_metrics.go:132-153 | in every run, stray patches included, the counted changes of one condition of one incarnation alternate between True and False |
| Balance.CountersBalanced | internal/controller/managedservice_metrics.go:132-153 | in every run the True and False changes of a condition type, persisted and counted alike, differ by at most one per incarnation, and the counters by at most the number of incarnations overall |
| Outcomes.OutcomesConserved | internal/controller/managedservice_controller.go:70-73 | every reconciliation begun is in flight or has counted exactly one outcome |
| Image.ImmutableIffPinned | internal/controller/managedservice_resources.go:54-70 | an image is accepted if and only if it is a non-empty repository, the marker and 64 hex digits of either case |
| Image.PinnedSplitUnique | internal/controller/managedservice_resources.go:55-60 | such a reference splits in one way |
| Image.IndexOfFirst | internal/controller/managedservice_resources.go:55-55 | the cut is at the first marker, and is found whenever there is one |
| Children.DesiredPodSpecClosed | internal/controller/managedservice_resources.go:166-244 | server defaulting leaves the desired pod spec as it is |
| Children.DesiredPortsClosed | internal/controller/managedservice_resources.go:309-320 | server defaulting leaves the desired ports as they are |
| Children.StoredDeploymentSettled | internal/controller/managedservice_resources.go:127-247 | once the server has stored a mutated Deployment the closure finds nothing to change, and the Deployment's one controller is the incarnation that was read |
| Children.StoredServiceSettled | internal/controller/managedservice_resources.go:289-324 | the same of the Service |
| Children.SetControllerStable | internal/controller/managedservice_resources.go:130-136 | setting the controller reference again changes nothing |
| Objects.UpsertOwnerFrame | internal/controller/managedservice_resources.go:130-136 | every other owner reference survives in place |
| Conditions.UpsertAllFixed | internal/controller/managedservice_status.go:146-163 | the conditions list is a fixed point if and only if every wanted condition already reads so, at any time |
| Conditions.StatusIdempotent | internal/controller/managedservice_status.go:43-99 | computing a status again from its own result changes nothing |
| Conditions.SettledAtAnyTime | internal/controller/managedservice_status.go:170-172 | whether a patch is needed does not depend on the clock |
| Conditions.UpsertWanted | internal/controller/managedservice_status.go:58-96 | from a well-formed list, the result is the three conditions in order, exactly one True, all at the observed generation |
| Conditions.StatusForSound | internal/controller/managedservice_status.go:43-144 | a computed status is consistent: Available if and only if ready replicas reach the desired count, Degraded with nothing ready and no endpoint |
| Reasons.ConditionsTell | internal/controller/managedservice_status.go:33-138 | in every run the stored conditions are one of three literal tables (serving, waiting for replicas, failed); TemplateConfigurationInvalid is the reason if and only if the configured image is not pinned, with the message that fits, and any other failure names the child and starts with its text |
| Reasons.OwnedElsewhereTold | internal/controller/managedservice_resources.go:128-137 | a Deployment controlled by another object is not touched, and the reconciliation goes on to a Degraded status that says so |
| Reasons.ServiceOwnedElsewhereTold | internal/controller/managedservice_resources.go:289-300 | the same of the Service |
| MergePatch.RoundTrip | internal/controller/managedservice_status.go:174-178 | section 2 of RFC 7396: the difference of two null-free objects, applied to the first, gives the second |
| MergePatch.MergeExact | internal/controller/managedservice_status.go:174-178 | a merged status is the computed one if and only if the stored object agrees on the fields the patch leaves out |
| MergePatch.PatchDocument | internal/controller/managedservice_status.go:165-187 | patching the stored document merges the status and changes nothing else, edits of the spec since the read included |
| Reconciler.RecordedRun | internal/controller/managedservice_controller.go:66-123 | the worlds that the reconciler's methods go through are a run of the state machine |
| Reconciler.ManagedServiceReconciler.Reconcile | internal/controller/managedservice_controller.go:66-123 | one reconciliation, whatever others do meanwhile, is recorded as steps of the state machine, leaves the key idle, counts its one outcome and queues the key again after an error |
| Reconciler.ManagedServiceReconciler.Attempt | internal/controller/managedservice_controller.go:77-122 | the body of Reconcile with its early returns takes the operator's steps in order and leaves only the deferred part |
| Reconciler.ManagedServiceReconciler.StoreDeployment | internal/controller/managedservice_resources.go:127-252 | mutate, compare and store is the state machine's Deployment step, and a returned Deployment is one the closure leaves alone |
| Reconciler.ManagedServiceReconciler.StoreService | internal/controller/managedservice_resources.go:289-329 | the same of the Service |
| Reconciler.ManagedServiceReconciler.ReconcileDeployment | internal/controller/managedservice_resources.go:112-252 | a Deployment that reconciling returns runs what the spec asks for |
| Reconciler.ManagedServiceReconciler.ReconcileService | internal/controller/managedservice_resources.go:274-329 | a Service that reconciling returns leads to the pods' named ports |
| Reconciler.LocalCopy.Succeed | internal/controller/managedservice_status.go:49-96 | the computed status names the key's own Service in its endpoint |
| Reconciler.ManagedServiceReconciler.PatchManagedServiceStatus | internal/controller/managedservice_status.go:165-187 | the patch is sent only if the status differs, and its transitions are counted only if it was applied |
| Reconciler.ManagedServiceReconciler.UpdateManagedServiceStatus | internal/controller/managedservice_status.go:43-99 | the successful status step, up to the return |
| Reconciler.ManagedServiceReconciler.RecordDegradedStatus | internal/controller/managedservice_status.go:101-144 | the failed status step, up to the return, which is always an error |
| Reconciler.LocalCopy.SetCondition | internal/controller/managedservice_status.go:146-163 | the loop updates the first condition of the type in place or appends, moving the transition time only with the status |
| Reconciler.ManagedServiceMetrics.ObserveConditionTransitions | internal/controller/managedservice_metrics.go:132-153 | the loop increments exactly the series of the conditions that are new or changed |
| Reconciler.ManagedServiceMetrics.ObserveReconciliation | internal/controller/managedservice_metrics.go:107-130 | one outcome, an error before a requeue before success, in counter and histogram alike |
| Lifecycle.LeaksNothing | internal/telemetry/server.go:106-186 | at every return no listener is open, no serving goroutine is left, no result is unread; if servers were started each result was received exactly once; otherwise the error is the one setup problem met first: no servers, an entry without name or server, or a failed listen |
| Lifecycle.FailedListenReported | internal/telemetry/server.go:119-127 | read off the events of any run: goroutines are started only after every attempted listen opened; once one failed the function has returned with every listener closed; and the error is the failed listen of server k with that text if and only if attempt k, the last, failed with that text and all before it opened |
| Lifecycle.AttemptsAreListens | internal/telemetry/server.go:119-119 | the attempts that the invariants speak of are the listens of the run, in order, whatever branch follows |
| Lifecycle.SendNeverBlocks | internal/telemetry/server.go:130-141 | no goroutine ever waits at its send |
| Lifecycle.ShutDownOnce | internal/telemetry/server.go:159-172 | each server is shut down exactly once, and then closed if and only if that failed |
| Lifecycle.ErrorExact | internal/telemetry/server.go:143-185 | the returned error holds each failed Serve, Shutdown and Close once, an unexpected clean stop once, and nothing else |
| Lifecycle.NilIffNothingOccurred | internal/telemetry/server.go:143-185 | nil is returned if and only if none of these occurred |
| Lifecycle.BranchIndependent | internal/telemetry/server.go:145-155 | with the same results and calls, two returns report the same problems if and only if they agree on an unexpected stop, whichever branches their selects took |
| Lifecycle.OneBudget | internal/telemetry/server.go:157-172 | the whole shutdown loop takes at most the timeout, for any number of servers |
| Lifecycle.StepsBounded | internal/telemetry/server.go:110-186 | no run takes more than ten steps a server and two |
| Lifecycle.NeverStuck | internal/telemetry/server.go:145-182 | a step is always enabled but at the return and in a select with nothing to select |
| Lifecycle.CancelledReturns | internal/telemetry/server.go:153-186 | once the context is cancelled the protocol returns by its own steps |
| Supervisor.Servers.ServeUntilShutdown | internal/telemetry/server.go:97-186 | the function's own loops return for every schedule, with all of the above at the return, and a failed listen is what is returned |
| Supervisor.Servers.SelectFirst | internal/telemetry/server.go:143-155 | either branch of the select leaves the protocol at the start of the shutdown loop, whose deadline is counted from now |
| Supervisor.Servers.ListenAll | internal/telemetry/server.go:110-128 | every listener is opened, or those opened are closed and the first failure, with its text, is reported |
| Supervisor.Servers.ShutDownAll | internal/telemetry/server.go:157-172 | the shutdown loop keeps the protocol's invariant under one deadline |
| Supervisor.Servers.DrainAll | internal/telemetry/server.go:173-185 | the drain loop terminates with every result received |
| Requests.GaugeIsLive | internal/telemetry/metrics.go:81-92 | in every interleaving the in-flight gauge of a method and route is the number of its live requests |
| Requests.HistogramFollows | internal/telemetry/metrics.go:91-95 | for every label triple the counter is the histogram's count plus the requests between the two updates |
| Requests.Conserved | internal/telemetry/http.go:114-148 | every admitted request is live, or counted exactly once, or between the two; one refused for want of an identifier moves no metric |
| Requests.AtRest | internal/telemetry/metrics.go:81-96 | with no request on its way every gauge is zero and histogram and counter agree |
| Requests.LabelsBounded | internal/telemetry/metrics.go:28-33 | whatever the requests, labels come from 10 methods, 6 routes and 8 classes |
| Requests.RecordedIsSent | internal/telemetry/http.go:119-122 | the recorded status is the client's if and only if the handler did not panic with its response still in the server's buffer; otherwise the client gets nothing |
| Requests.SilentPanic | internal/telemetry/http.go:119-148 | after any run, a handler that panics at once adds a 2xx to the counter while its client gets nothing |
| Requests.BufferedPanic | internal/telemetry/http.go:119-148 | after any run, a handler that sets any final status, writes a body that stays in the buffer and panics adds that status's class while its client gets nothing |
| Requests.ClassInjective | internal/telemetry/metrics.go:91-91 | different hundreds have different class labels |
| Requests.ClassIff | internal/telemetry/metrics.go:91-91 | a code has the label of a digit if and only if it is in that digit's hundred |
| Requests.ClassCounts | internal/telemetry/metrics.go:85-96 | in every interleaving, by method and route, the counter and the histogram of "4xx" are the finished requests recorded from 400 to 499, and so for every class |
| Requests.MethodLabels | internal/telemetry/http.go:204-219 | each of the nine methods keeps its own label and every other verb gets OTHER |
| Recorder.FirstCallWins | internal/telemetry/http.go:227-244 | the first call of a handler decides the status, and all accepted bytes are counted |
| Recorder.ResponseRecorder.Play | internal/telemetry/http.go:221-252 | after any calls the wire is as without the recorder, and the recorder holds its status and its bytes |
| Recorder.ResponseRecorder.WriteHeader | internal/telemetry/http.go:227-233 | the recorder and the wire agree after the call |
| Recorder.ResponseRecorder.Write | internal/telemetry/http.go:235-244 | the recorder and the wire agree after the call |
| Middleware.HTTPMetrics.ServeHTTP | internal/telemetry/http.go:86-149 | one request, whether its handler returns or panics, leaves the gauge as it was and is counted and timed once under its first status, with the label of its hundred, and a panic goes on; without an identifier it is answered 500 and no metric moves |
| Middleware.CheckRequestId | internal/telemetry/http.go:172-188 | the loop accepts exactly 1 to 64 characters of the allowed set |
| Middleware.IdentifierSafe | internal/telemetry/http.go:159-170 | whatever the headers hold, the identifier sent back is valid, and a single valid one is kept |
| Middleware.IdentifierLanguage | internal/telemetry/http.go:172-188 | a valid identifier is 1 to 64 letters of either case, digits and -_.:, and any such word is valid |
| Middleware.HexAt | internal/telemetry/http.go:165-169 | a generated identifier spells each random byte by its two lower-case digits to base 16, the high one first |
| Middleware.HexInjective | internal/telemetry/http.go:165-169 | different random bytes give different identifiers |
| Routing.AuthenticatedIff | internal/controlplaneapi/handler.go:482-500 | exactly one header passes: the six letters of bearer, each in either case, one space and the token, which must be non-empty and free of spaces, tabs and line breaks |
| Routing.BearerCasings | internal/controlplaneapi/handler.go:489-489 | the folded comparison accepts every casing of the scheme and nothing else |
| Routing.NameLanguage | internal/controlplaneapi/handler.go:390-392 | names are one to 63 lower-case letters, digits and dashes, with no dash at either end |
| Routing.CutSpaceJoins | internal/controlplaneapi/handler.go:488-488 | the cut is at the first space and loses nothing |
| Routing.RouteLabels | internal/controlplaneapi/handler.go:149-162 | every path gets one of six labels, and safeRoute leaves it alone |
| Routing.ExactLabels | internal/controlplaneapi/handler.go:149-154 | each of the four exact paths keeps its own label, and no other path gets one of theirs |
| Routing.ItemLabelIff | internal/controlplaneapi/handler.go:155-159 | the item label is given to exactly the paths of one non-empty segment below the collection |
| Routing.MatchLongest | internal/controlplaneapi/handler.go:117-143 | the handler that runs has the longest of the registered patterns that match |
| Routing.PlainClean | internal/controlplaneapi/handler.go:133-140 | cleaning keeps every rooted path of segments that are not empty, "." or "..", so the mux does not redirect it |
| Routing.ItemClean | internal/controlplaneapi/handler.go:137-140 | the item prefix followed by a DNS label is never redirected |
| Routing.RedirectedIff | internal/controlplaneapi/handler.go:111-143 | the mux redirects exactly the paths, CONNECT requests apart, that are not a rooted join of segments other than ".", ".." and the empty one |
| Routing.ServedIsProtected | internal/controlplaneapi/handler.go:449-449 | every path the versioned API serves is behind the gate |
| ApiLaws.ItemReached | internal/controlplaneapi/handler.go:259-291 | the store is asked to get or delete a name if and only if the request is authenticated, without a query, for the item prefix and that name, a DNS label; such a path is protected and has the item label |
| ApiLaws.CollectionReached | internal/controlplaneapi/handler.go:164-235 | exactly which requests list, and which create what |
| ApiLaws.ServeRefines | internal/controlplaneapi/handler.go:164-350 | every request is one operation on a map from names to replicas and messages, answered from that map, or leaves the store alone and unasked |
| ApiLaws.RunRefines | internal/controlplaneapi/handler.go:164-350 | so is any sequence of requests and faults, with the operator writing statuses and other clients creating, editing and deleting objects in between |
| ApiLaws.CreateThenGet | internal/controlplaneapi/handler.go:187-235 | a created service reads back as it was asked for, whatever happens meanwhile but its deletion or another client's write of it |
| ApiLaws.DeleteThenGet | internal/controlplaneapi/store.go:122-133 | a deleted service was there and is not found afterwards, until it is created again or another client writes it |
| ApiLaws.ChangesExactly | internal/controlplaneapi/handler.go:164-350 | the store changes if and only if the answer is 201 or 204 or the answer to an applied write was lost |
| ApiLaws.OneNamespace | internal/controlplaneapi/store.go:60-133 | no request touches an object of another namespace |
| ApiLaws.RunSchematic | internal/controlplaneapi/handler.go:198-218 | the handler lets nothing through that the resource's schema would refuse |
| ControlPlane.ListingIndependent | internal/controlplaneapi/handler.go:248-254 | the listing is the same for every order in which the store lists and for every sort |
| ControlPlane.ConditionOrder | internal/controlplaneapi/handler.go:402-414 | the conditions of a view are the same for every order of the stored ones |
| ControlPlane.ApiHandler.ServeHTTP | internal/controlplaneapi/handler.go:445-461 | the handler's answer, store call and store change are those of the specification, and it answers 401 exactly to the requests that the gate must stop |
| ControlPlane.UnauthorizedIff | internal/controlplaneapi/handler.go:445-461 | the answer is 401 "unauthorized" if and only if the path is /api/v1 or below it and the credential does not pass |
| ApiAnswers.FixedAnswers | internal/controlplaneapi/handler.go:117-143 | once admitted and not redirected: /healthz is healthy, /readyz is as the readiness check says, /api/v1 is the identity, each refuses every verb but GET, and every other path outside the collection is not found |
| ApiAnswers.CollectionRefused | internal/controlplaneapi/handler.go:164-235 | a request to the collection is refused exactly for a query, another verb, an oversized body, or a payload outside the limits, in that order, each with its own answer |
| ApiAnswers.ItemRefused | internal/controlplaneapi/handler.go:259-291 | a request below the collection is refused exactly for a query, a name that is no DNS label, or another verb |
| ApiAnswers.StoreAnswers | internal/controlplaneapi/handler.go:187-350 | every other request is answered by the map: 201 or 409, 200 or 404, 204 or 404, 200 for a listing, and 500 exactly when the store fails |
| ApiAnswers.CreatedIff | internal/controlplaneapi/handler.go:187-235 | exactly which requests are answered 201: every admitted payload within the limits whose name is free |
| ApiAnswers.CreatedStored | internal/controlplaneapi/store.go:60-84 | a 201 stores the demo-http template with the message and the replicas asked for, or one, and an empty status, under that name in the API's namespace, and shows it |
| ApiAnswers.GetShows | internal/controlplaneapi/handler.go:394-430 | a get shows every field of the stored object: name, namespace, template, replicas or one, message, observed generation, ready replicas, endpoint and each condition |
| ApiAnswers.ListShows | internal/controlplaneapi/handler.go:237-257 | every entry of a listing shows its stored object so |
| ControlPlane.ApiHandler.CreateManagedService | internal/controlplaneapi/handler.go:187-235 | the same of a create, with every error answer |
| ControlPlane.ApiHandler.ListManagedServices | internal/controlplaneapi/handler.go:237-257 | the loop and the sort answer the one listing |
| Ordering.SortedUnique | internal/controlplaneapi/handler.go:252-254 | elements with distinct keys have one sorted arrangement |
| Ordering.SortSorts | internal/controlplaneapi/handler.go:412-414 | the sort orders its input and loses nothing |
| Ordering.Lexicographic | internal/controlplaneapi/handler.go:412-414 | the order is the lexicographic one: a prefix first, otherwise the first difference decides |

## Left out

- OneBudget: rests on Shutdown honouring its context's deadline.
- Reconcile: a reconciliation's panics and the manager's own restarts are not modelled.
- ServeHTTP: of the middleware, tracing and the access log; of the API, the code of a redirect and the headers.
- MutateDeploymentInPlace: the Deployment that the mutate closure changes by reference is a value here, changed field by
  field; aliasing of the object is not captured.
- MutateServiceInPlace: the same of the Service.
- Sort: slices.SortFunc rearranges its slice in place by an algorithm of its own; here it is a function on sequences,
  and SortedUnique says that no other correct sort could answer differently.
- The JSON form of requests and responses, the body-size reader and the SHA-256 comparison: a decoded, malformed or
  oversized request is an input.
- Stale informer caches, deletion timestamps and finalizers.
- Flush through Unwrap and informational responses: no handler of the repository uses either.
- Percent-encoded paths, hosts and the asterisk form in the mux: a path is what its URL spells.
- Two entries for the same server in one ServeUntilShutdown call: servers are taken to be distinct.
- Resource quantities and the fields of security contexts: constants that defaulting leaves alone.
- METRICS_PORT and token parsing, the demo HTTP service, the mains, and the deployment configuration: only easy members.
