# Open5GS operator: a verified model of its reconcilers

The operator drives two external systems towards declared specs. The Open5GS reconciler creates, updates
and deletes Kubernetes objects for thirteen network components of every `Open5GS` resource. The
`Open5GSUser` reconciler keeps subscriber documents in MongoDB, guarded by a finalizer. This project
models both and proves what they guarantee over whole runs: after failures and retries, with several
instances side by side, with users editing and deleting resources between any two calls, and over any
history of spec edits.

`dafny verify dfyconfig.toml` checks everything.

## How the model is built

| File | Content |
|---|---|
| `Text.dfy` | strings: the last dash of a name, lines, `Itoa` and `Atoi` |
| `Model.dfy` | components, object keys, objects, the custom resource and its defaults |
| `Names.dfy` | generated names and the decoder that inverts them |
| `Config.dfy` | the rendered configuration texts and the parser that inverts the slice blocks |
| `Resources.dfy` | the generators: the `Bundle` of objects that a component wants |
| `Compare.dfy` | the drift checks and what reconciling one found object makes of it |
| `Plan.dfy` | a pass as a list of actions, and the effect of each action on the object under each key |
| `Coherence.dfy` | well-formed clusters; the actions of coherent plans commute on them |
| `PlanFacts.dfy` | the generated plans are coherent |
| `Interleave.dfy` | any number of workers, one API call at a time, with failures and restarts |
| `Convergence.dfy` | crash and retry, idempotence, isolation, commutation |
| `Probes.dfy` | tests for the ServiceMonitor CRD: what a pass does when some of them fail |
| `Outcomes.dfy` | closed forms of the plans; service sets, teardown, round trip, ownership |
| `Drift.dfy` | the cheap drift checks, the hash in the pod template, rollouts, UPF annotations |
| `Runs.dfy` | histories of passes, complete or not, for any planner; ownership over all runs |
| `History.dfy` | histories of spec edits: what an earlier spec generated is replaced |
| `Lagging.dfy` | the stored objects that lag behind the spec, and exactly how far |
| `Editing.dfy` | any number of workers, one API call at a time, while users edit the specs |
| `Wiring.dfy` | how the generated and the stored objects refer to each other |
| `Reading.dfy`, `Files.dfy` | what can be read off the rendered files by their keys, without the templates |
| `Repairs.dfy` | what passes do to single objects, field by field, and to components that are switched on or off |
| `Intent.dfy` | what pods and services, generated and stored, say in terms of the fields of the spec |
| `Api.dfy` | the API server: a mutable store whose calls may fail |
| `Reconciler.dfy`, `Passes.dfy`, `Reconcile.dfy` | the reconciler call by call, proved against the plan |
| `Subscribers.dfy` | subscriber documents and one user's pass over the collection |
| `UserProtocol.dfy` | the finalizer protocol as a state machine with all its interleavings |
| `UserPass.dfy` | the calls that a user's pass makes, and what it achieves undisturbed |
| `UserReconciler.dfy` | the user reconciler call by call, proved to make the calls of the protocol, all of them and no other |

The key idea: an action (get then create or update; get then delete if owned; list then delete) acts on
every key of the cluster separately. So a pass is a list of actions, `Completed` says that all of them took
effect, and `Partial` says that at every key some of them did and others did not, which is what failed calls
and interrupted passes leave behind. Two facts then carry the theorems about runs: every action is
idempotent, and any two actions of coherent plans commute at every key of a well-formed cluster.

A cluster is well-formed when a Service, ServiceMonitor or ServiceAccount that carries the labels of an
instance and component is not named like a generated object of another one (`LabelledWell`). Without it one
component can delete, by label, what another has just kept by name. The theorems about a single resource need
no more. Those about several (`WFStore`) also need that a Service which one of them owns is not owned by,
named for or labelled for another of them. Every action preserves both.

A history (`Runs.Log`) is any list of passes of one resource, each with its own spec; any of them may be cut
short, and any of its calls and tests may fail. `Builders(w)` is what the builders make of a spec.

The data of the ConfigMaps are a field of the `World`. Theorems that look into the texts assume that they are
the rendered ones (`Renders`); where equal hashes must mean equal data, they also assume an injective hash
(`Faithful`). All others hold for any data.

## Assumptions

- Reads are fresh, and one worker handles each resource.
- Deleting a child object takes effect at once.
- Names of resources contain no newline (`Reading`, `Files`).
- The hash of a ConfigMap's data is an uninterpreted function, injective where a theorem says so.
- Whether the ServiceMonitor CRD is installed does not change during a run. A test for it may fail.
- The API server keeps a resource while it has finalizers, rejects an update of a version that is no longer
  current, and stores under each key an object of that key's kind.
- A user edits every field of an `Open5GSUser` at will, but not its finalizers. No other resource manages a
  subscriber (an IMSI in the MongoDB of an instance) that this one ever names, none of them exists before its
  first pass, and a stored subscriber has a slice with a session.

## What turned out not to hold

- A failed test for the ServiceMonitor CRD counts as "not installed" when the desired objects are collected;
  if the next test succeeds, the wanted ServiceMonitor is deleted. `LoseMonitor` is a run in which only the
  very first call fails; `MonitorLostIff` says that a pass loses the monitor exactly if the first test at its
  component's turn failed and the second one did not. Crash and retry covers passes with any failures but
  these.
- The stored WebUI Deployment misses a change of the MongoDB image, and the stored UPF Deployment misses
  every change but annotations. `WebuiFollowsIff` and `UpfFollowsIff` give their contents after any history,
  and exactly when they are the generated ones. Teardown forgets two ConfigMaps (`ForgottenAfter`).
- A newline in a slice field lets one slice render like two (`NewlineMakesSlicesCollide`). The slices are
  read back exactly if there is none. Quotes do no harm.
- A difference in the SST alone is corrected exactly when the driver hands the stored number back as a Go
  `int` (`SstRepairedIff`), although the documentation promises that any discrepancy is corrected. In general
  a pass corrects a document exactly if some difference shows in a form that the drift check reads
  (`RepairedIff`). A missing SD does not, so an SD given late is never written (`LateSdNeverWritten`).
- A user without an APN gets the default "internet" and loses it on the next pass (`DefaultApnLost`).
- A user that is moved to another instance, or given another IMSI, leaves its first document behind
  (`MovedUserOrphans`). Nothing is left behind exactly if a document was deleted wherever one had been
  inserted (`NoOrphanedSubscriber`). Before the releasing pass this can be read off what is stored: the present
  target must hold the only document (`DeletedUserLeavesNothingIff`).
- One failed lookup of the instance or its MongoDB service while a user is being deleted orphans the
  subscriber (`FailedLookupOrphans`). A deletion whose document is already gone never completes while the
  service is found (`DeletionStuck`), for example after the update that removes the finalizer was rejected
  once (`FailedReleaseNeverCompletes`).
- The documented default of `serviceMonitor` is false; the code sets it to true for AMF, SMF, PCF and UPF. The
  field `open5gs.namespace` of a user is ignored; the code looks in the user's own namespace
  (`NamespaceIgnored`). The model follows the code.

## Model

| member | source | states |
|---|---|---|
| Names.DecodeGenerated | internal/controller/open5gs_resources.go:46 | for every instance name, a generated name of a kind decodes to its instance, component and protocol or extra part |
| Names.NamesAreInjective | internal/controller/open5gs_resources.go:677 | two equal generated names of a kind, the extra ConfigMaps and the MongoDB service included, have the same instance, component and part |
| Names.DecodeSound | internal/controller/open5gs_resources.go:1088 | only generated names decode: the decoder is the inverse of naming on its whole domain |
| Names.PrefixMeansComponent | internal/controller/open5gs_controller.go:868 | the teardown prefix of a component matches a generated name of the instance exactly when the name is that component's |
| Config.AccumulateSlices | internal/controller/open5gs_resources.go:169-173 | the accumulating loop computes the concatenation of the slice blocks |
| Config.AmfSlicesRecovered | internal/controller/open5gs_resources.go:165-243 | whatever the other fields hold, the parser recovers the slice list from the AMF text if and only if no slice field contains a newline |
| Config.NssfSlicesRecovered | internal/controller/open5gs_resources.go:331-367 | the same for the NSSF text |
| Reading.AmfFileShowsSlices | internal/controller/open5gs_resources.go:170-173 | read line by line by its keys, the AMF file has the SD of each slice under `sd` and its SST under `sst`, if and only if no slice field contains a newline |
| Reading.NssfFileShowsSlices | internal/controller/open5gs_resources.go:333-338 | the same for the NSSF file |
| Config.SlicesDetermined | internal/controller/open5gs_resources.go:331-367 | different slice lists give different AMF texts and different NSSF texts |
| Config.NewlineMakesSlicesCollide | internal/controller/open5gs_resources.go:170-173 | for any two slices and either text, one slice with a newline in its second field renders like the two |
| Config.AmfTextShowsMetrics | internal/controller/open5gs_resources.go:175-182 | AMF texts of one instance with and without metrics differ, for any two configurations |
| Config.SmfTextShowsMetrics | internal/controller/open5gs_resources.go:369-410 | the SMF text determines the metrics flag |
| Config.PcfTextShowsMetrics | internal/controller/open5gs_resources.go:436-470 | the PCF text determines the metrics flag |
| Files.FilesReachScp | internal/controller/open5gs_resources.go:165-573 | the files of AMF, AUSF, BSF, NSSF, SMF, PCF, UDM and UDR give the SBI port, and the name and port of the service of SCP as its address |
| Files.FilesReachNrfAndUpf | internal/controller/open5gs_resources.go:369-498 | the file of SCP gives the address of the service of NRF, that of SMF the service of UPF |
| Files.AmfFileShowsSpec | internal/controller/open5gs_resources.go:175-243 | the AMF file gives region, set, TAC and, in its three places, the PLMN of the spec |
| Files.NrfFileShowsSpec | internal/controller/open5gs_resources.go:301-329 | the NRF file gives the PLMN of the spec |
| Files.UpfFileShowsSpec | internal/controller/open5gs_resources.go:575-619 | the UPF file gives the GTP-U device of the spec, or the default |
| Files.MountedFilesExist | internal/controller/open5gs_resources.go:69-163 | every mount of every pod finds its volume, and every mounted file is in the mounted ConfigMap |
| Model.DefaultsFillOnlyMissing | internal/controller/open5gs_controller.go:1198-1375 | every flag, image, configuration field and device is what was given, or the default where nothing was; none is left nil or empty |
| Model.DefaultsAreIdempotent | internal/controller/open5gs_controller.go:1198-1375 | defaulting twice is defaulting once |
| Reconciler.Open5GS.SetDefaultValues | internal/controller/open5gs_controller.go:1198-1375 | the stored spec becomes the defaulted spec |
| Resources.FindFirst | internal/controller/open5gs_controller.go:363-370 | the override loop of AMF and SMF computes the first override with the name, which `Intent.FirstNamedIs` describes |
| Resources.FindLast | internal/controller/open5gs_controller.go:765-774 | the override loop of UPF computes the last one (`Intent.LastNamedIs`) |
| Intent.FirstNamedIs | internal/controller/open5gs_controller.go:363-370 | without an override of the name the result is the empty one, and otherwise the override at the index before which there is no other |
| Intent.LastNamedIs | internal/controller/open5gs_controller.go:765-774 | the same with no other after it |
| Intent.ServiceTypes | internal/controller/open5gs_controller.go:362-372 | the ngap, SMF pfcp and UPF pfcp and gtpu services have the type that the text of the chosen override asks for; all other services are ClusterIP |
| Intent.ContainerListens | internal/controller/open5gs_controller.go:336-825 | which ports the container of each component has |
| Intent.EveryPortIsServed | internal/controller/open5gs_controller.go:336-825 | a component has a service for a port, under its name and the port's, exactly if it has the port |
| Intent.PodRuns | internal/controller/open5gs_resources.go:69-163 | what the container of each component runs: image, command, arguments, database address and service account in terms of the spec |
| Intent.UpfPrivileges | internal/controller/open5gs_resources.go:621-820 | the UPF pod is privileged, without the tunnel device, exactly if the spec does not say unprivileged, and gets the script for the case |
| Intent.MonitorScrapes | internal/controller/open5gs_resources.go:1295-1325 | every endpoint of a monitor is a port of a service that it watches |
| Intent.MongoKeepsData | internal/controller/open5gs_resources.go:1152-1175 | the MongoDB pod mounts the claim that is reconciled with it |
| PlanFacts.BundleIsGood | internal/controller/open5gs_resources.go:22-163 | every generated object is named, labelled and owned for its instance and component, and no two of a component share a key |
| Compare.EnsureIdempotent | internal/controller/open5gs_controller.go:926-1196 | reconciling an object a second time changes nothing, for every kind |
| Compare.ReconciledKeeps | internal/controller/open5gs_controller.go:1085-1196 | updates never change owners, repair labels only on ServiceAccounts, and leave unowned objects alone |
| Repairs.OwnedIsRepaired | internal/controller/open5gs_controller.go:926-1196 | an owned object, with other owners or without, agrees afterwards with the wanted one in the repaired fields of its kind (data; selector and type; selector; storage and access mode; labels and annotations; images, service account and hash), and stays as it is if it did before |
| Repairs.RepairIsWhole | internal/controller/open5gs_controller.go:926-1160 | a difference in these fields, or in labels and annotations where they are compared, brings back the whole wanted body; without one the stored body stays |
| Repairs.UpfIsAnnotated | internal/controller/open5gs_controller.go:995-1039 | of the UPF Deployment the template annotations become the wanted ones and nothing else changes |
| Repairs.UnownedIsLeft | internal/controller/open5gs_controller.go:940-944 | an object without the owner reference is left alone, and a missing one is created |
| Repairs.PassRepairs | internal/controller/open5gs_controller.go:182-334 | after any pass that goes through, over any cluster whose labels agree with its names, whatever is wanted is there, and agrees if it is owned |
| Repairs.AccountRestored | internal/controller/open5gs_controller.go:1182-1194 | after such a pass an owned ServiceAccount that the spec asks for carries exactly the instance and name labels and no annotations |
| Repairs.FlagsDecide | internal/controller/open5gs_controller.go:374-384 | which optional objects a component wants, in terms of the flags of the spec |
| Repairs.SwitchedOnIsDeployed | internal/controller/open5gs_controller.go:49-180 | a component that the spec switches on has its Deployment after every pass that goes through |
| Repairs.SwitchedOffIsGone | internal/controller/open5gs_controller.go:828-924 | of a component that the spec switches off nothing owned is left after a complete pass but the two forgotten ConfigMaps |
| Coherence.KeepsWF | internal/controller/open5gs_controller.go:229-334 | every action of the operator preserves well-formedness of the cluster |
| Coherence.Foreign | internal/controller/open5gs_controller.go:249-257 | no action touches an object named for another component, or for another of the resources, in a well-formed cluster |
| Coherence.Commute | internal/controller/open5gs_controller.go:182-334 | any two actions of coherent plans, of one or of different resources, commute at every key of a well-formed cluster |
| Coherence.AbsorbReachable | internal/controller/open5gs_controller.go:182-334 | a full pass absorbs any part of itself done beforehand, and that part keeps well-formedness |
| PlanFacts.PassCoherent | internal/controller/open5gs_controller.go:49-180 | the plan of a pass is coherent, for every spec |
| Interleave.Converges | internal/controller/open5gs_controller.go:49-334 | for any interleaving of API calls of any number of workers with fixed specs, with any failed calls, failed CRD tests that hide a monitor stage, and restarts: when all have finished, the cluster is that of uninterrupted sequential passes |
| Interleave.AlwaysFinishable | internal/controller/open5gs_controller.go:49-180 | from any state the workers can all still finish |
| Convergence.InterleavedPassesConverge | internal/controller/open5gs_controller.go:49-180 | the convergence theorem for the generated plans of any number of instances with fixed specs |
| Convergence.ScheduleIrrelevant | internal/controller/open5gs_controller.go:49-180 | two schedules from the same cluster end in the same cluster |
| Convergence.CrashAndRetry | internal/controller/open5gs_controller.go:49-180 | from any cluster whose labels agree with its names, a complete pass after an interrupted or partly failed one gives the cluster of one uninterrupted pass |
| Convergence.PassIsIdempotent | internal/controller/open5gs_controller.go:49-180 | from any such cluster a second pass over the outcome of a pass changes nothing |
| Convergence.PassIsARun | internal/controller/open5gs_controller.go:49-180 | what a pass without failures and interference leaves is what the interleaved machine with one worker leaves |
| Convergence.OthersUntouched | internal/controller/open5gs_controller.go:828-924 | a pass of one resource leaves everything named for another instance as it was, but for services that it owns and that no resource claims by name |
| Convergence.InstancesCommute | internal/controller/open5gs_controller.go:49-180 | reconciling instance A then B gives the same cluster as B then A |
| Convergence.Localise | internal/controller/open5gs_controller.go:49-180 | at a component's names a whole pass does what that component's part does |
| Outcomes.EnablePlanAt | internal/controller/open5gs_controller.go:182-334 | the closed form of an enabled component's plan at every key |
| Outcomes.DisablePlanAt | internal/controller/open5gs_controller.go:828-924 | the closed form of teardown at every key |
| Outcomes.ServicePlanAt | internal/controller/open5gs_controller.go:229-265 | listing first and deleting later never takes a wanted service, and the second reconcile loop changes nothing |
| Outcomes.ServiceSetExact | internal/controller/open5gs_controller.go:229-265 | after a component was reconciled the services labelled for it are wanted, all wanted ones exist, and owned ones have the wanted selector and type |
| Outcomes.TeardownPrecise | internal/controller/open5gs_controller.go:859-875 | teardown deletes exactly the component's services among the owned generated ones, and no unowned service |
| Outcomes.EnableDisableRoundTrip | internal/controller/open5gs_controller.go:828-924 | enabling a component the cluster has no trace of and disabling it again restores the cluster, except for the one ConfigMap of UPF and of MongoDB |
| Outcomes.ProtectedFromPlan | internal/controller/open5gs_controller.go:828-1196 | no part of a plan changes an object without the owner UID and, for the kinds deleted by listing, without both labels |
| Runs.ProtectedForever | internal/controller/open5gs_controller.go:182-334 | ownership safety over any run of passes of any instances, with any calls and CRD tests failing |
| Repairs.OthersObjectsSurvive | internal/controller/controller_resources.go:37-44 | a ConfigMap, Deployment or claim whose owner references do not include the CR survives every pass unchanged |
| Drift.DriftCheckComplete | internal/controller/controller_resources.go:52-76 | for every component but UPF and WebUI, if the drift check passes and the hashes agree the whole generated Deployments are equal, for any two specs |
| Lagging.WebuiFollowsIff | internal/controller/controller_resources.go:65-73 | after any history of passes, complete or not, and one complete pass: the stored WebUI Deployment is the one of the last pass that wrote it, and it is the generated one if and only if the MongoDB image is still that of then |
| Lagging.UpfFollowsIff | internal/controller/open5gs_controller.go:995-1039 | after any such history: the stored UPF Deployment is the one of the spec at its creation with the present annotations, and it is the generated one if and only if image, metrics, service account and privileges are still those of then |
| Lagging.ForgottenAfter | internal/controller/open5gs_controller.go:828-924 | after any history the UPF entrypoint and the MongoDB scripts are those of the last spec that enabled the component |
| Drift.UpfAnnotationsExact | internal/controller/open5gs_controller.go:972-1039 | after every pass that goes through, with any CRD tests failing, the annotations of an owned UPF Deployment are the user's with the hash entry set to the real hash |
| Drift.HashAgreesWithConfig | internal/controller/open5gs_controller.go:211-227 | after every such pass over whatever earlier passes left, the template hash of an owned Deployment is the hash of the stored data |
| Drift.RolloutsAreExact | internal/controller/open5gs_controller.go:1041-1049 | over two such passes an edit of nothing but the slices changes the stored pod templates of AMF and NSSF and of no other owned component |
| History.HistoryIndependent | internal/controller/open5gs_controller.go:926-1196 | after any history of spec edits with any passes cut short and anything failing, one complete pass makes every tracked object the one generated from the present spec, and leaves none where it wants none |
| Reconcile.LoseMonitor | internal/controller/open5gs_controller.go:193-196 | a run of a builder in which only the first call fails reports success and has deleted the wanted monitor |
| Probes.MonitorLostIff | internal/controller/open5gs_controller.go:266-295 | a pass in which nothing but tests failed deletes a stored wanted monitor if and only if the first test at its turn failed and the second did not |
| Probes.OnlySlipsDelete | internal/controller/open5gs_controller.go:266-295 | with any calls failing and the pass cut short anywhere, still only such a pair of tests deletes it |
| Probes.SeenPassIsPart | internal/controller/open5gs_controller.go:193-196 | a pass with any other failed tests does a part of its plan |
| Editing.EditsConverge | internal/controller/open5gs_controller.go:49-334 | for any interleaving of API calls of any number of instances, with specs edited at any time, calls and CRD tests failing (slips that delete a wanted monitor included) and restarts: once a worker has completed a pass with the stored spec, every tracked object of its instance is the one generated from it |
| Editing.SettledHasNothingToDo | internal/controller/open5gs_controller.go:49-334 | after any such interleaving, one more pass of a worker that has settled would change nothing under any key |
| Editing.FixedSpecsConverge | internal/controller/open5gs_controller.go:49-334 | for any such interleaving in which no spec is edited: when all workers have settled, every object but a monitor is what uninterrupted sequential passes make of the first cluster, and so is every monitor if no test slipped |
| Editing.CanSettle | internal/controller/open5gs_controller.go:49-334 | from any state of that machine some calls settle any worker on the stored spec |
| Editing.IgnoredGoesOn | internal/controller/open5gs_controller.go:182-334 | an ignored error changes nothing in the cluster and passes over one object, or over listing and deleting monitors |
| Wiring.ServicesAreWired | internal/controller/open5gs_controller.go:336-825 | every generated service selects the component's pods and leads to a port of their container, for every component |
| Wiring.PodMountsItsConfig | internal/controller/open5gs_resources.go:146-157 | a pod mounts the ConfigMap reconciled with it, and no other but UPF's entrypoint |
| Wiring.MonitorSelectsOwnMetrics | internal/controller/open5gs_resources.go:1295-1325 | a monitor watches exactly the metrics service of its own instance and component among all generated services of all namespaces |
| Wiring.WiringHolds | internal/controller/open5gs_controller.go:336-825 | after any history with any failures and one complete pass the stored Deployment, services, ConfigMap, ServiceAccount and monitor of a component fit together, for all components but UPF |
| Intent.StoredRunsAsAsked | internal/controller/open5gs_controller.go:336-825 | after any history with any failures and one complete pass the stored pod of every component but UPF runs what the present spec asks for |
| Intent.StoredTypesAsAsked | internal/controller/open5gs_controller.go:336-825 | and the stored services of every component have the types that the present spec asks for |
| Intent.NewImageRollsOut | internal/controller/open5gs_controller.go:1041-1049 | after such a pass, an edit of the Open5GS image and another pass change the stored image of every network function but UPF, and of nothing else |
| Reconciler.NeedUpdate | internal/controller/open5gs_controller.go:1012-1029 | the length test and the two loops say "update" exactly when the maps differ, although a missing key reads as the empty string |
| Reconciler.WantedAnnotations | internal/controller/open5gs_controller.go:1004-1010 | the new annotations are the hash entry overwritten and extended by the map of the resource |
| Reconciler.CompareDeployment | internal/controller/open5gs_controller.go:995-1049 | both branches of the comparison compute the specified Deployment, and skip the write only when nothing changes |
| Reconciler.ReconcileDeployment | internal/controller/open5gs_controller.go:967-1052 | the stored Deployment is the specified one and the hash is written into the map shared with the resource |
| Reconciler.ReconcileConfigMap | internal/controller/open5gs_controller.go:926-965 | create, keep or update a ConfigMap as specified; an error leaves the store unchanged |
| Reconciler.ReconcileClaim | internal/controller/open5gs_controller.go:1054-1083 | the same for the PersistentVolumeClaim |
| Reconciler.ReconcileService | internal/controller/open5gs_controller.go:1085-1118 | the same for a Service |
| Reconciler.ReconcileServiceMonitor | internal/controller/open5gs_controller.go:1120-1160 | the same for a ServiceMonitor, after another test for the CRD |
| Reconciler.ReconcileServiceAccount | internal/controller/open5gs_controller.go:1162-1196 | the same for a ServiceAccount, whose labels are repaired |
| Passes.SnapshotStillValid | internal/controller/open5gs_controller.go:229-257 | what was listed before the reconcile loop and is not wanted is exactly what carries the labels and is not wanted after it |
| Passes.ReconcileServices | internal/controller/open5gs_controller.go:229-265 | list, reconcile, delete, reconcile again carries out the service plan, or part of it after an error |
| Passes.ReconcileMonitorOrPurge | internal/controller/open5gs_controller.go:266-295 | the monitor stage: nothing unless its test finds the CRD, otherwise reconcile or purge |
| Passes.ReconcileComponent | internal/controller/open5gs_controller.go:182-334 | success carries out the plan that the tests let the component see, a failure part of it; with only the next call failing the tests slip |
| Reconcile.DeleteComponentResources | internal/controller/open5gs_controller.go:828-924 | success carries out the teardown plan that the test lets it see; any failure leaves part of it |
| Reconcile.ReconcileEnabled | internal/controller/open5gs_controller.go:336-825 | a builder's turn carries out the plan of its bundle as its tests let it see it; an ignored error of the UPF entrypoint is accounted for |
| Reconcile.ReconcilePass | internal/controller/open5gs_controller.go:49-180 | a pass carries out its plan as its tests let it see it, in full if it succeeds and nothing else failed; it stays within the wanted plan unless a test slipped; without failures it carries out the wanted plan; a resource that is gone is no error |
| Text.AtoiItoa | internal/controller/open5gsuser_resources.go:42 | reading back a printed 64-bit integer gives the integer |
| Text.ItoaAtoi | internal/controller/open5gsuser_resources.go:328 | printing a parsed integer gives the text back exactly for canonical decimals |
| Reading.DigitsByPlace | internal/controller/open5gsuser_resources.go:328 | a digit of a decimal text counts by its rank among "0123456789" and its place |
| Reading.AtoiReads | internal/controller/open5gsuser_resources.go:42 | a digit string, with or without a sign, reads as its value if that fits 64 bits and as an error otherwise |
| Reading.AtoiRejects | internal/controller/open5gsuser_resources.go:42 | nothing else is read |
| Subscribers.PassConverges | internal/controller/open5gsuser_resources.go:351-387 | for a complete user one successful pass leaves exactly one document without drift, and a second pass writes nothing |
| Subscribers.PassIsLocal | internal/controller/open5gsuser_resources.go:361-363 | a pass depends on and changes only the documents of its IMSI |
| Subscribers.InsertionStableIff | internal/controller/open5gsuser_resources.go:90-318 | exactly when a freshly inserted document is free of drift |
| Subscribers.DefaultApnLost | internal/controller/open5gsuser_resources.go:336-338 | the default APN is replaced by the empty name on the second pass |
| Subscribers.SstRepairedIff | internal/controller/open5gsuser_resources.go:328-330 | a difference in the SST alone is corrected exactly when the stored number is read as a Go int |
| Subscribers.RepairedIff | internal/controller/open5gsuser_resources.go:320-341 | for every user and every stored document: one pass makes the document agree with the spec if and only if the SST can be written and no field differs in a form that the drift check skips, or another difference gives it away |
| Subscribers.UpdateStableIff | internal/controller/open5gsuser_resources.go:36-52 | exactly when an updated document is free of drift |
| Subscribers.LateSdNeverWritten | internal/controller/open5gsuser_resources.go:332-334 | an SD given only after the insertion is never written as long as nothing else changes |
| Subscribers.UpdatePreservesTheRest | internal/controller/open5gsuser_resources.go:36-61 | an update changes only k, opc, and the first slice's sst, sd and session name |
| Subscribers.DeleteKeepsUnique | internal/controller/open5gsuser_resources.go:66-88 | a deletion removes the only document of its IMSI and keeps IMSIs unique |
| Subscribers.UnmanagedUntouched | internal/controller/open5gsuser_resources.go:351-387 | over any run of any user resources of any instances, documents of an instance's other IMSIs never change and IMSIs stay unique |
| UserProtocol.ContainsString | internal/controller/open5gsuser_controller.go:138-145 | membership |
| UserProtocol.RemoveString | internal/controller/open5gsuser_controller.go:147-154 | the list without every occurrence of the string |
| UserProtocol.HappenKeepsInv | internal/controller/open5gsuser_controller.go:55-79 | the invariant of the finalizer protocol is kept by every event of the worker and of the user |
| UserProtocol.NoOrphanedSubscriber | internal/controller/open5gsuser_controller.go:40-127 | over all interleavings, with any edits: documents are written only while the stored resource carries the finalizer, and nothing is left behind if and only if a document was deleted wherever one had been inserted |
| UserProtocol.FixedTargetLeavesNothing | internal/controller/open5gsuser_controller.go:55-127 | a resource that keeps its instance and IMSI leaves a document behind if and only if it inserted one and never deleted one, and then the releasing pass found no service |
| UserProtocol.DeletedUserLeavesNothingIff | internal/controller/open5gsuser_controller.go:67-76 | at any point of any run: the next undisturbed pass over a resource being deleted releases it and leaves nothing behind if and only if the service is found and there is a document at its present target and at no other, or it is not found and there is none |
| UserProtocol.DeletionLeavesNothingIff | internal/controller/open5gsuser_controller.go:67-76 | the same from any state whose documents are accounted for |
| UserProtocol.MovedUserOrphans | internal/controller/open5gsuser_controller.go:46-48 | a user moved to another instance or IMSI leaves its first document behind although every call succeeds |
| UserProtocol.FailedLookupOrphans | internal/controller/open5gsuser_controller.go:108-114 | one failed lookup during deletion orphans the document |
| UserProtocol.DeletionStuck | internal/controller/open5gsuser_resources.go:83-85 | with the documents gone and the service found the deletion never completes |
| UserProtocol.FailedReleaseNeverCompletes | internal/controller/open5gsuser_controller.go:72-76 | one rejected removal of the finalizer leads there |
| UserProtocol.DeletionCompletesIff | internal/controller/open5gsuser_controller.go:67-76 | an undisturbed deletion pass completes exactly if the document of the present target is there or the lookup fails |
| UserProtocol.NamespaceIgnored | internal/controller/open5gsuser_controller.go:46-51 | over all runs, `open5gs.namespace` decides nothing: with other namespaces the same documents are written and deleted |
| UserPass.UndisturbedServes | internal/controller/open5gsuser_controller.go:55-87 | after an undisturbed pass over a resource that is not being deleted it carries the finalizer besides those it had, and the documents of its target are those of one pass over them |
| UserPass.UndisturbedSubscribes | internal/controller/open5gsuser_controller.go:81 | if the user has SST, SD and APN, exactly one document then lies at the target, and it holds key, OPC, SST, SD and APN of the spec if and only if there was none before whose differences the drift check skips |
| UserPass.UndisturbedLetsGo | internal/controller/open5gsuser_controller.go:67-78 | after such a pass over a resource being deleted whose document is there, the document and the finalizer are gone, other finalizers stay, and the resource is gone if that was its last |
| UserReconciler.AddOrUpdateSubscriber | internal/controller/open5gsuser_resources.go:351-387 | success leaves the documents of one pass over those of the target, an error leaves all as they were, and every call is one that the protocol allows |
| UserReconciler.DeleteSubscriber | internal/controller/open5gsuser_controller.go:108-127 | success means deleted or not looked up, and the worker may release the resource |
| UserReconciler.ReconcileUser | internal/controller/open5gsuser_controller.go:40-87 | every pass, with the user interfering before every call, makes exactly the calls that are due, in order, and does not end while one is; it keeps the invariant of the protocol; without failures and interference it is `UserPass.Undisturbed` and achieves what the `UserPass` rows say |
| UserReconciler.ReconcileForever | internal/controller/open5gsuser_controller.go:40-87 | after any number of passes over a fresh resource, with any edits: nothing is left behind exactly if a document was deleted wherever one had been inserted |

## Left out

- Manager start-up, leader election, watches, event filters, logging, and requeue intervals.
- The Kubernetes and MongoDB clients, connections and timeouts: abstract stores whose calls may fail.
- SHA-256 and JSON: an abstract hash of the data.
- Quantity comparison, immutable fields and protection of PersistentVolumeClaims: the claim is a payload with three compared fields.
- Probes, security contexts and the shell scripts: constants, carried as tags inside the pod and the data.
- Labels are keyed by an enumeration of the label keys that the operator writes, plus any other key.
- Subscribers without a slice or a session: reading their drift panics in the Go code.
- Fields of a service that the API server fills in, such as the cluster IP.
- The interleaved machine has its own steps; the reconcile methods are proved against the same plans between their start and end, and `Convergence.PassIsARun` ties the two for passes without interference and failures.
- Interleave.Converges: the specs are fixed, because the stored UPF and WebUI Deployments depend on the order of edits, and no CRD test slips, because a slip deletes a monitor that the plan may have kept as it was. With both, Editing.EditsConverge covers the tracked objects and Editing.FixedSpecsConverge all objects but monitors.
- Convergence.InterleavedPassesConverge: the same.
- History.HistoryIndependent: does not cover the UPF and WebUI Deployments and the two ConfigMaps that teardown forgets, for which it is false; Lagging.UpfFollowsIff, Lagging.WebuiFollowsIff and Lagging.ForgottenAfter say exactly what is stored there.
- Wiring.WiringHolds: does not cover UPF, whose stored pod may be the one of an earlier spec; its generated objects are covered by Wiring.ServicesAreWired.
- The thirteen builder functions are one generator with a case per component, and the thirteen branches of a pass are one loop over the same order.
