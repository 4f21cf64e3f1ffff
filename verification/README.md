# Monitoring operator: a verified model

A set of Kubernetes reconcilers keeps monitoring in order: client organisations with their own
dashboards and backend registrations, ServiceMonitors bound to or federated over Prometheuses,
dashboards synchronised with Grafana and Perses, dashboard links, and a Rancher token that must not
run out. This project models what those reconcilers keep true over whole runs, with failing calls,
lost responses, lagging caches, crashes and user edits in between, and the data transformations
they rest on. `dafny verify dfyconfig.toml` checks all of it.

Code that works step by step is imperative here too: classes whose methods issue the calls of a
reconcile in order, loops that update arrays, maps and lists. Each such method is tied to a
specification function or to a step machine, and the results are proved about those.

## Modules

| module | models |
|---|---|
| `Kube` | an object's stored versions and the cache position that lags behind them |
| `ClientOrgMachine` | client-org and Prometheus reconciles as one transition system, call by call |
| `ClientOrgSafety`, `Registration`, `MarkerEpochs`, `AuthSecrets` | what every run of it keeps |
| `ClientOrgOutcomes`, `PrometheusPasses` | what whole reconciles without a failing call achieve |
| `ClientOrgPaths`, `ClientOrgWitnesses`, `FinalizerLeaks` | runs on which stronger claims fail |
| `ClientOrgReconciler`, `PrometheusReconciler` | the imperative reconciles that drive it |
| `DashboardCopies`, `DashboardContents` | copying dashboards into client monitoring namespaces, and what is in the copies |
| `Lists`, `Ordering` | collecting and sorting |
| `LabelSelectors`, `AutoBinding` | label selectors and the automatic binding |
| `RelabelFilter`, `PortUpserts`, `Federation`, `FederationContents` | the federated copies, and what is in them |
| `GrafanaSync`, `GrafanaOutcomes`, `GrafanaReconciler` | dashboard synchronisation: the step machine, what it keeps, what a reconcile achieves, the imperative reconcile |
| `GrafanaFinalizers`, `GrafanaLeaks` | what the finalizer of a dashboard promises, and the runs on which it does not |
| `GrafanaUids`, `GrafanaForks` | when an object has one remote dashboard, and the runs on which it gets two or leaks one |
| `StateMemo` | the state table |
| `JsonRewrite`, `JsonContents`, `PersesRewrite`, `PersesContents` | datasource rewriting |
| `DashboardLinks`, `PanelSelection` | links and panel selection |
| `TokenRenewal`, `LazyDetector` | token renewal and lazy detection |

## Assumptions

- The API server applies one request at a time. A patch is the difference between the object the
  caller holds and the object it wants; a create-or-patch acts on the stored object.
- The server refuses a new finalizer on an object that is being deleted, and keeps such an object
  while it has finalizers.
- A cache serves an earlier version of each object and never goes back.
- Reconciles of one object are serial; those of different objects interleave at every call. A
  crash is a run that stops between two steps.
- Users may delete namespaces, flip labels, drop AppBindings, delete and edit dashboards and change
  the cluster state. They do not take the operator's finalizers off by hand.
- Cluster states are hashes in base64: never empty and never the legacy marker `"true"`.
- Hash functions, JSON decoding, Rancher's answers, clocks and the relabelling rules of users are
  parameters.

## What does not hold

The model follows the code where a stronger claim is tempting or its documentation says more:

- `pkg/controllers/README.md` says that teardown deletes the monitoring namespace; the code leaves
  it to its owner (`pkg/controllers/namespace/helpers.go:76-77`), and so does the model.
- A registered marker tells the past, not the present: teardown leaves it, and a reverting cluster
  state matches an old one.
- The cleaned-up annotation is never cleared and ensuring the finalizer can be an empty patch, so
  the coverage of copies needs runs without reactivation; the empty patch is the only way out.
- The error of an auth Secret is dropped: an AppBinding keeps its Secret exactly as long as no
  write of it fails and nobody deletes it, and a missing one is not repaired while marker and
  AppBinding stay.
- A marked RoleBinding hides every further Prometheus of its namespace.
- Federation does not isolate errors: a failed copy leaves a nil target. A copy may overwrite
  another source of the same name, and a source Service may be its own target.
- One remote Grafana dashboard per object holds exactly as long as no step is careless: a creating
  request left unrecorded, or a stale read that goes unrefreshed into the sync, leads to a second.
- The finalizer of a dashboard also goes when the auth Secret of its AppBinding is missing, and
  then the recorded dashboard stays on the remote.
- When an object comes back under its name, a lagging cache can let a sync start without the
  finalizer, and a deletion go past the recorded dashboard, which then stays on the remote; exactly
  two kinds of outdated reads lead there, and no run without a recreation has them.
- A Perses state does not tell all configurations apart, because its parts are joined with commas that
  they may contain.
- The state table confuses the two backends when they are asked about one AppBinding.
- A renewal stalls when the second clock reading passes the margin, and stops for good once the
  base token cannot be decoded: a renewed token prolongs what is found but never replaces the base
  token, so a token is found exactly as long as that one lives.

## Model

| member | source | states |
|---|---|---|
| ClientOrgSafety.CopiesAreCovered | pkg/controllers/namespace/namespace_controller.go:100-132 | At every point of every run without reactivation, with faults at any call, a monotone lagging cache and any interleaving of organisations, a live copied dashboard means that the client namespace is still stored and carries the finalizer |
| ClientOrgSafety.TeardownIsFinal | pkg/controllers/namespace/helpers.go:79-91 | Once a teardown has removed the finalizer, no later call of any reconcile writes a copy for that organisation, however stale its cached read, and no copy is left |
| ClientOrgSafety.OnlyStaleFinalizersUncover | pkg/controllers/namespace/helpers.go:114-128 | On any run at all, reactivation included, an uncovered copy implies that the run sent an empty finalizer patch computed from a stale namespace |
| ClientOrgSafety.StaleFinalizerUncovers | pkg/controllers/namespace/helpers.go:114-128 | Such an empty patch succeeds and leaves the live path running without the finalizer |
| FinalizerLeaks.StaleFinalizerLeaks | pkg/controllers/namespace/helpers.go:114-128 | Every such empty patch, on any run, extends to a live copy in a namespace without the finalizer, as soon as the RoleBinding marker is seen and the monitoring namespace accepts objects |
| ClientOrgSafety.NoReactivationNoStale | pkg/controllers/namespace/helpers.go:114-128 | Runs without reactivation never send one |
| ClientOrgOutcomes.DueIsTornDown | pkg/controllers/namespace/namespace_controller.go:86-116 | From every organisation at rest whose namespace is being deleted, or labelled for teardown and not marked cleaned, one reconcile without a failing call, with others interleaved, ends with both backends out of the hub, no copy left, the finalizer off the stored namespace and, by label, the cleaned mark stored |
| ClientOrgOutcomes.ReadyIsServed | pkg/controllers/namespace/namespace_controller.go:117-180 | From every active organisation at rest with nothing in the way, one reconcile without a failing call ends with the finalizer stored, both AppBindings stored, the marker equal to the cluster state and a copy of every source of both backends |
| ClientOrgOutcomes.ReconcileEnds | pkg/controllers/namespace/namespace_controller.go:77-180 | From every organisation at rest there is such a reconcile |
| ClientOrgWitnesses.ReactivationUncovers | pkg/controllers/namespace/helpers.go:101-112 | With reactivation there is a run that reaches a live copy whose namespace has lost the finalizer |
| Registration.StampFollowsBothBackends | pkg/controllers/namespace/backend.go:112-142 | On every run, legacy RoleBinding or not, every marker stamped on a monitoring namespace follows, in the same reconcile, an accepted hub registration of each backend under that state and then the AppBinding written from its response |
| Registration.RoleStampFollowsBothBackends | pkg/controllers/prometheus/prometheus_controller.go:417-503 | Without a legacy marker, every stamped pair of state and token id follows the Grafana and then the Perses registration that carried this token in the same reconcile |
| Registration.ClientOrgsComeAfterPrometheus | pkg/controllers/namespace/backend.go:67-74 | Across both controllers, the hub sees a client-org registration only after a Prometheus was registered with both backends and that reconcile stamped the RoleBinding |
| MarkerEpochs.MarkerNeverRunsAhead | pkg/controllers/namespace/backend.go:112-142 | With cluster states that do not repeat and no unregistration, each backend's last registration is under the marker's state or a later one, across partial failures, retries and AppBinding loss; the run may start with a marker of an earlier state |
| ClientOrgWitnesses.TeardownLeavesMarker | pkg/controllers/namespace/helpers.go:47-99 | Teardown unregisters both backends and leaves the marker of the current state |
| ClientOrgWitnesses.RevertedStateMatchesOldMarker | pkg/controllers/namespace/backend.go:112-142 | A state that reverts after a half-failed registration matches the old marker while Grafana is registered under another state |
| ClientOrgWitnesses.SettledPassIsSilent | pkg/controllers/namespace/backend.go:117-132 | With a matching marker and cached AppBindings a fault-free pass asks the hub for nothing and repairs no auth Secret |
| AuthSecrets.LacksIff | pkg/controllers/namespace/backend.go:231-252 | On every run a stored AppBinding is without its auth Secret, unless the reconcile is just about to write it, if and only if it was so at first, after a failing write or after a deletion of the Secret, and since then no write succeeded and the AppBinding was not lost |
| AuthSecrets.SecretFollowsBinding | pkg/controllers/namespace/backend.go:231-252 | Without failing writes and deletions of the Secret every stored AppBinding has its Secret or is about to get it |
| AuthSecrets.MissingSecretStaysMissing | pkg/controllers/namespace/backend.go:117-132 | A missing Secret is repaired by no pass before the cluster state changes, the AppBinding is lost or a lookup of it fails |
| ClientOrgWitnesses.SecretErrorIsDropped | pkg/controllers/namespace/backend.go:231-252 | A run from a new organisation whose one failing Secret write ends with the marker stamped and the organisation settled without the Secret |
| PrometheusPasses.RegistersIff | pkg/controllers/prometheus/prometheus_controller.go:417-503 | A live reconcile without a failing call registers with Grafana and then Perses and stamps if and only if there is a hub, the marker is not the legacy one, and the stamped state or token id differs; it only stamps exactly over the legacy marker, and else does nothing |
| PrometheusPasses.DeletionUnregisters | pkg/controllers/prometheus/prometheus_controller.go:140-184 | A reconcile of a deleted Prometheus without a failing call takes it out of both backends and leaves the RoleBinding |
| PrometheusPasses.MarkedRoleSkipsRegistration | pkg/controllers/prometheus/prometheus_controller.go:430-443 | After such a reconcile that of any other Prometheus of the namespace under the same state and token registers nothing |
| ClientOrgReconciler.Reconciler.Reconcile | pkg/controllers/namespace/namespace_controller.go:77-180 | The imperative reconcile drives the machine from idle back to idle, call by call, with any steps of others in between |
| ClientOrgReconciler.Reconciler.HandleDeletion | pkg/controllers/namespace/helpers.go:47-99 | Best-effort unregistration, both deletions, then the finalizer patch; only a complete teardown goes on to the cleaned-up mark |
| ClientOrgReconciler.Reconciler.EnsureMonitoringNamespace | pkg/controllers/namespace/helpers.go:130-150 | Yields a monitoring namespace that is not terminating, or ends the reconcile |
| ClientOrgReconciler.Reconciler.RegisterBackends | pkg/controllers/namespace/backend.go:112-142 | A failed backend does not keep the other from being tried and keeps the marker from being stamped |
| ClientOrgReconciler.Reconciler.RegisterIfNeeded | pkg/controllers/namespace/backend.go:117-132 | A backend is registered when the marker differs from the state or its AppBinding is not found |
| ClientOrgReconciler.Reconciler.CreateBinding | pkg/controllers/namespace/backend.go:176-253 | AppBinding, then auth Secret, whose failure is not reported |
| ClientOrgReconciler.Reconciler.CopyDashboards | pkg/controllers/namespace/dashboard.go:65-139 | Single failures do not stop the loop, an unusable source does |
| ClientOrgReconciler.Reconciler.FindPrometheusConfig | pkg/controllers/namespace/namespace_controller.go:146-166 | The live path does not reach registration or copying while the RoleBinding carries no marker |
| ClientOrgReconciler.Reconciler.Execute | pkg/controllers/namespace/namespace_controller.go:77-180 | A whole imperative reconcile is a run of the machine, so every result about runs holds for the code |
| PrometheusReconciler.Reconciler.Reconcile | pkg/controllers/prometheus/prometheus_controller.go:116-184 | The imperative reconcile of a Prometheus drives the machine from idle back to idle |
| PrometheusReconciler.Reconciler.Unregister | pkg/controllers/prometheus/prometheus_controller.go:140-184 | A failed unregistration ends the reconcile before the next one |
| PrometheusReconciler.Reconciler.EnsureRole | pkg/controllers/prometheus/prometheus_controller.go:430-443 | A legacy marker is overwritten without registration, a matching pair of state and token id skips registration |
| PrometheusReconciler.Reconciler.Register | pkg/controllers/prometheus/prometheus_controller.go:443-503 | Grafana, Perses, and only then the marker |
| PrometheusReconciler.Reconciler.Execute | pkg/controllers/prometheus/prometheus_controller.go:116-184 | A whole imperative reconcile is a run of the machine |
| DashboardCopies.NoCopyIsCopied | pkg/controllers/namespace/dashboard.go:74-77 | On every run with any number of organisations no version written by the copier, or derived from one, is ever copied; the suffix alone is enough whatever users do, the annotation alone as long as they leave it |
| DashboardCopies.TitledOnce | pkg/controllers/namespace/dashboard.go:92-107 | Every copy carries the title of a source that is no copy, shortened once, and names that source |
| DashboardContents.EveryCopyIsPinned | pkg/controllers/namespace/dashboard.go:74-131 | On every run every version the copier writes has, for a Grafana source, each namespace variable as the constant of the organisation and every other variable as in the source, for a Perses source all variables as in the source, the shortened title, body and rest of the source, and the AppBinding of the monitoring namespace as backend |
| DashboardContents.PassCopiesAll | pkg/controllers/namespace/dashboard.go:65-139 | After a fault-free pass over uniquely named usable sources every dashboard that is no copy and lies in no monitoring namespace has such a copy stored |
| DashboardContents.CopyMeans | pkg/controllers/namespace/dashboard.go:101-131 | One copy changes the target only and keeps the labels and other annotations stored there, or takes those of the source |
| DashboardCopies.CopiesAreBounded | pkg/controllers/namespace/dashboard.go:74-136 | The copier writes at most sources times organisations different objects, none of which is a source |
| DashboardCopies.SecondPassChangesNothing | pkg/controllers/namespace/dashboard.go:101-136 | With source names unique across namespaces, after a fault-free pass and any further passes of other organisations, of the other backend or of its own, faulty or not, a fault-free pass over any complete listing changes no object |
| DashboardCopies.UniqueIffSettles | pkg/controllers/namespace/dashboard.go:101-136 | A fault-free pass leaves every copy in place if and only if no two sources of the kind share a name |
| DashboardCopies.SharedNameNeverSettles | pkg/controllers/namespace/dashboard.go:101-120 | Two sources of one name overwrite each other for ever |
| DashboardCopies.PassPlaces | pkg/controllers/namespace/dashboard.go:107-136 | After a fault-free pass over unique names the copy of every source is in place |
| DashboardCopies.PassKeepsSources | pkg/controllers/namespace/dashboard.go:74-136 | No pass changes an object outside the monitoring namespaces |
| DashboardCopies.InPlaceIffSilent | pkg/controllers/namespace/dashboard.go:107-136 | A copy step changes nothing exactly when its copy is in place |
| DashboardCopies.RetitlingIsStable | vendor/kmodules.xyz/client-go/cluster/ocm.go:130-133 | Shortening a title twice is shortening it once exactly when the short title does not start with the prefix again |
| DashboardCopies.TrimSpaceMeans | vendor/kmodules.xyz/client-go/cluster/ocm.go:130-133 | Trimming leaves no space at either end, never lengthens, and keeps what is trimmed already |
| DashboardCopies.PinNamespace | pkg/controllers/namespace/dashboard.go:86-94 | The in-place loop turns exactly the namespace variables into constants of the organisation |
| DashboardCopies.Copier.CopyDashboards | pkg/controllers/namespace/dashboard.go:65-139 | The loop computes the pass: skipped sources, abort on an unusable model, soft errors counted |
| DashboardCopies.Copier.CopyDashboard | pkg/controllers/namespace/dashboard.go:74-136 | One iteration writes exactly when the source is neither skipped nor unusable and the server accepts |
| DashboardCopies.Copier.CreateOrPatch | pkg/controllers/namespace/dashboard.go:101-131 | Labels and annotations are cloned only when the copy is created |
| RelabelFilter.KeepRegexLanguage | pkg/controllers/servicemonitor/federation_controller.go:280-284 | The fully anchored language of the joined expression is exactly the set of names it was joined from |
| RelabelFilter.FilterIsExact | pkg/controllers/servicemonitor/federation_controller.go:249-300 | The filtered pipeline passes a series, with the same labels, exactly when the source pipeline does and its namespace is empty or a selected one other than the project's own |
| RelabelFilter.FilterOnce | pkg/controllers/servicemonitor/federation_controller.go:285-296 | The rule is never doubled |
| RelabelFilter.FilterIgnoresOrder | pkg/controllers/servicemonitor/federation_controller.go:249-257 | The text of the rule is the same for every order of the listed namespaces |
| RelabelFilter.NamespaceFilter | pkg/controllers/servicemonitor/federation_controller.go:249-284 | The loop, the sort and the join produce the expression of the selected names |
| RelabelFilter.FilterEndpoints | pkg/controllers/servicemonitor/federation_controller.go:285-296 | The in-place endpoint loop filters every endpoint |
| RelabelFilter.SelectedNames | pkg/controllers/servicemonitor/federation_controller.go:249-257 | The names are "" and those of the listed namespaces but the project's own |
| RelabelFilter.ParseNames | pkg/controllers/servicemonitor/federation_controller.go:280-284 | The joined text parses to the alternatives of its names |
| LabelSelectors.PatchedMatchesIff | pkg/controllers/servicemonitor/auto_controller.go:210-224 | An object patched with the labels derived from a valid selector with distinct keys matches it exactly when no key that must be missing is present and no made-up NotIn value is itself excluded |
| LabelSelectors.LabelsForLabelSelector | vendor/kmodules.xyz/client-go/meta/labels.go:25-57 | The loop over the expressions computes the derived labels |
| LabelSelectors.OwnKey | vendor/kmodules.xyz/client-go/meta/labels.go:33-55 | What the derived labels hold under the key of each expression |
| LabelSelectors.MadeUpValue | vendor/kmodules.xyz/client-go/meta/labels.go:38-50 | The value made up for NotIn is excluded itself only by a list of several values that contains its first one with not- in front |
| LabelSelectors.OverwriteTwice | vendor/kmodules.xyz/client-go/meta/lib.go:122-138 | Overwriting twice with the same labels is overwriting once |
| AutoBinding.BindingIgnoresOrder | pkg/controllers/servicemonitor/auto_controller.go:101-180 | Every permutation of the listed Prometheuses leads to the same Prometheus and the same labels |
| AutoBinding.ChoiceIsLeast | pkg/controllers/servicemonitor/auto_controller.go:106-180 | The chosen Prometheus has the least pair of namespace and name among all, on OpenShift among the default ones; under Rancher a namespace of the system project or of none gets the least one of the system namespace if there is one, and every other case the least one that serves the Helm project, both directions |
| AutoBinding.BindingIsExact | pkg/controllers/servicemonitor/auto_controller.go:70-208 | Exactly when and for which Prometheus a reconcile writes: detector ready, label asking for it, namespace read, no invalid selector that matters, none that selects it already |
| AutoBinding.OrderedOnce | pkg/controllers/servicemonitor/federation_controller.go:106-111 | Sorting on the unique pair of namespace and name has one result |
| AutoBinding.MatchLabelsSettle | pkg/controllers/servicemonitor/auto_controller.go:183-224 | With a match-labels-only selector and an accepted namespace, after one patch no later reconcile writes |
| AutoBinding.BindsIff | pkg/controllers/servicemonitor/auto_controller.go:183-224 | In general the chosen Prometheus selects the patched object exactly when it watches the namespace and its selector exists and is satisfiable |
| AutoBinding.RepeatedPatchIsIdempotent | pkg/controllers/servicemonitor/auto_controller.go:210-224 | A further reconcile of the same cluster changes no label, whatever the selectors |
| AutoBinding.MissingSelectorNeverBinds | pkg/controllers/servicemonitor/auto_controller.go:210-224 | A Prometheus without a selector is chosen again and again and nothing changes |
| AutoBinding.ChoiceIgnoresLabels | pkg/controllers/servicemonitor/auto_controller.go:101-180 | The labels of the ServiceMonitor decide only whether anything is written, not which Prometheus is chosen |
| AutoBinding.AutoReconciler.Reconcile | pkg/controllers/servicemonitor/auto_controller.go:70-181 | The imperative reconcile leaves the stored labels as the choice says |
| AutoBinding.AutoReconciler.FindSelecting | pkg/controllers/servicemonitor/auto_controller.go:183-208 | The search stops at the first Prometheus that selects the object or has an invalid selector that matters |
| AutoBinding.AutoReconciler.ChooseForProject | pkg/controllers/servicemonitor/auto_controller.go:123-180 | System Prometheus for system and unassigned namespaces, with fall-through to the project search |
| AutoBinding.AutoReconciler.SearchProject | pkg/controllers/servicemonitor/auto_controller.go:150-180 | The project Prometheus is the first one outside the system namespace that accepts the Helm project label; an invalid selector before it ends the search |
| AutoBinding.AutoReconciler.DefaultPrometheus | pkg/detector/prometheus.go:321-335 | First in the list, or on OpenShift the first default one |
| PortUpserts.FoldOverrides | pkg/controllers/servicemonitor/federation_controller.go:365-367 | Folding the upsert is override by name: unmentioned ports keep value and place, the last source port of a name wins, new names are appended once |
| PortUpserts.NamesStayUnique | pkg/controllers/servicemonitor/federation_controller.go:377-391 | Unique port names stay unique |
| PortUpserts.FoldTwice | pkg/controllers/servicemonitor/federation_controller.go:365-367 | Folding the same source ports twice is folding them once |
| PortUpserts.UpsertPort | pkg/controllers/servicemonitor/federation_controller.go:377-391 | The search loop updates the first port of the name or appends one |
| PortUpserts.UpsertPorts | pkg/controllers/servicemonitor/federation_controller.go:365-367 | The loop over the source ports computes the fold |
| PortUpserts.ServicePortForName | pkg/controllers/servicemonitor/federation_controller.go:440-447 | Finds a port exactly when the Service has one of that name, and panics otherwise |
| PortUpserts.CopyPorts | pkg/controllers/servicemonitor/federation_controller.go:423-428 | Panics exactly when a port name is missing on the Service |
| PortUpserts.CopySubsets | pkg/controllers/servicemonitor/federation_controller.go:412-429 | Panics exactly when some source port name is missing; otherwise every source subset points at the ClusterIP with the Service's port numbers and surplus old subsets stay |
| PortUpserts.CopiesAgree | pkg/controllers/servicemonitor/federation_controller.go:343-429 | Copied Service and copied Endpoints carry the same number under every source port name, whatever earlier copies held |
| Federation.PanicsIff | pkg/controllers/servicemonitor/federation_controller.go:188-211 | The fan-out panics over a port if and only if a reached turn copies and finds a port name missing, and over a nil target if and only if no turn does so and a copy of the ServiceMonitor fails while there are Services or Secrets to copy, before an early return |
| Federation.FanOutEnds | pkg/controllers/servicemonitor/federation_controller.go:169-216 | With no source Service in the namespace of a project Prometheus the fan-out ends as the first turn that, over the Endpoints of the start, refuses or panics |
| Federation.WellServedPanicsIff | pkg/controllers/servicemonitor/federation_controller.go:188-211 | With all Services well served the fan-out panics in any way if and only if such a copy fails |
| Federation.WellServedIsSafe | pkg/controllers/servicemonitor/federation_controller.go:423-447 | No port name is found missing when all named Endpoints ports exist on their Services and no source Service lies in the namespace of a project Prometheus |
| Federation.ProjectTurnEnds | pkg/controllers/servicemonitor/federation_controller.go:187-214 | A turn panics on a nil target exactly when its copy fails with Services or Secrets to copy, and changes Endpoints only in the namespace of its Prometheus |
| Federation.CopiesNeverCascade | pkg/controllers/servicemonitor/federation_controller.go:275-277 | Over any run, with any Prometheuses, stale caches and copies left by an earlier process, neither ServiceMonitor controller acts on a version that a copy step wrote or that came from one |
| Federation.SourceIsNotOverwritten | pkg/controllers/servicemonitor/federation_controller.go:173-189 | No copy step of a fan-out writes the ServiceMonitor it copies |
| Federation.CopyOverwritesAnotherSource | pkg/controllers/servicemonitor/federation_controller.go:259-277 | Another labelled ServiceMonitor stops being a source in a fan-out if and only if it has the name of the source and lies in the namespace of a Prometheus whose turn is reached and copies |
| Federation.SourceIsLostBy | pkg/controllers/servicemonitor/federation_controller.go:259-277 | On any run a source that ends up unlabelled or missing was lost at a step where a user took the label or the object away, or a copy was written onto its key |
| Federation.ServiceOverwritesItself | pkg/controllers/servicemonitor/federation_controller.go:343-367 | The turn of a project Prometheus leaves a source Service in its namespace as it is if and only if its write is not reached or fails; otherwise the Service has become a ClusterIP copy of itself whose ports target their own numbers |
| Federation.CopyIsDetermined | pkg/controllers/servicemonitor/federation_controller.go:264-300 | The spec of a copy does not depend on what the target held, the selector label is gone, and copying again changes nothing |
| FederationContents.CopyIsFiltered | pkg/controllers/servicemonitor/federation_controller.go:281-296 | After a reached project turn the stored ServiceMonitor has the endpoints of the source in number and order, each with honorLabels and passing exactly the series that the source endpoint passes and whose namespace is empty or a listed one other than the project's own |
| FederationContents.CopyIsSelected | pkg/controllers/servicemonitor/federation_controller.go:275-277 | Its labels match a valid selector with distinct keys, that does not mention the removed label, exactly when each expression can be satisfied over the labels stored before; labels the selector does not mention stay |
| FederationContents.TurnCopiesAll | pkg/controllers/servicemonitor/federation_controller.go:187-214 | After a turn without a failing call every source Service, its Endpoints and every Secret have their copies: ClusterIP type, kept cluster IP, every source port leading to its own number, subsets leading to the cluster IP |
| FederationContents.DefaultTurnSelects | pkg/controllers/servicemonitor/federation_controller.go:219-233 | The turn of the default Prometheus changes nothing but the labels of the source, which then match its selector exactly when they can |
| Federation.FederationReconciler.FanOut | pkg/controllers/servicemonitor/federation_controller.go:169-216 | The loop, with its early return and its panics, computes the fold of the turns over the whole store |
| Federation.FederationReconciler.TakeTurn | pkg/controllers/servicemonitor/federation_controller.go:181-214 | One Prometheus: labels for the default one, copies for a project one |
| Federation.FederationReconciler.Federate | pkg/controllers/servicemonitor/federation_controller.go:187-214 | ServiceMonitor, Services with their Endpoints, then Secrets; a failed ServiceMonitor copy leaves a nil target that the first Service or Secret uses |
| Federation.FederationReconciler.UpdateLabels | pkg/controllers/servicemonitor/federation_controller.go:219-233 | The derived labels overwrite those of the source |
| Federation.FederationReconciler.CopyServiceMonitor | pkg/controllers/servicemonitor/federation_controller.go:235-306 | The target has the name of the source in the namespace of the Prometheus, or is nil |
| Federation.FederationReconciler.CopyService | pkg/controllers/servicemonitor/federation_controller.go:343-375 | The copied Service has the source ports folded in and keeps its cluster IP |
| Federation.FederationReconciler.CopyEndpoints | pkg/controllers/servicemonitor/federation_controller.go:198-206 | Reads the source Endpoints, then the target, and only then looks the ports up; panics exactly when both reads succeed and a port name is missing, and then writes nothing |
| Federation.FederationReconciler.CopySecrets | pkg/controllers/servicemonitor/federation_controller.go:209-213 | Every Secret is copied to the target namespace, with errors collected |
| Federation.FederationReconciler.CopyServices | pkg/controllers/servicemonitor/federation_controller.go:193-207 | Each Service and its Endpoints in turn, with errors collected, up to a missing port name |
| GrafanaSync.RunKeeps | pkg/controllers/openviz/grafanadashboard_controller.go:74-140 | On every run without recreation the versions after a deleted one are deleted or gone, the finalizer stays until a deletion is known to the cache, and syncs run under it |
| GrafanaUids.SyncsKeepOneUid | pkg/controllers/openviz/grafanadashboard_controller.go:285-371 | While the Grafana state stays the same and no careless step is taken, every request that reaches the remote sets one UID; careless is leaving a creating request unrecorded, or going unrefreshed into the sync from a read that misses the recorded UID |
| GrafanaOutcomes.EveryRequest | pkg/controllers/openviz/grafanadashboard_controller.go:285-340 | Every request in the log of every run updates the recorded dashboard if and only if the version held has a model and its record was made under the state read from the AppBinding or under none, and otherwise creates one |
| GrafanaOutcomes.LiveIsSynced | pkg/controllers/openviz/grafanadashboard_controller.go:115-371 | One reconcile without a failing call leaves a live object with a dashboard on the server of the AppBinding recorded under its state; a record under another state is replaced |
| GrafanaOutcomes.DeletedIsCleared | pkg/controllers/openviz/grafanadashboard_controller.go:86-113 | One reconcile without a failing call of a deleted object takes the recorded dashboard from its server, if a client can be had, and no other one, and then the finalizer |
| GrafanaForks.CarelessForks | pkg/controllers/openviz/grafanadashboard_controller.go:285-371 | The converse: from every careless step some run of calls and cache updates leads to a request that sets another UID, as long as the object stays, Grafana can be reached and the model does not carry that very UID |
| GrafanaFinalizers.RemoteOnlyUnderFinalizer | pkg/controllers/openviz/grafanadashboard_controller.go:115-139 | On every run, recreations included, a request that creates or updates a remote dashboard, answered or not, is only sent under the stored finalizer, unless a sync starts from a cached version with the finalizer while the stored object has none |
| GrafanaLeaks.UnguardedSends | pkg/controllers/openviz/grafanadashboard_controller.go:115-139 | The converse: from every such read calls alone lead to a request without the finalizer, if Grafana can be reached and accepts it |
| GrafanaFinalizers.FinalizerOutlivesRemote | pkg/controllers/openviz/grafanadashboard_controller.go:86-113 | On every run the finalizer goes only after the dashboard that the stored status records was deleted or reported missing, or its AppBinding or auth Secret was not found, in the same reconcile, unless a deletion starts from a cached version that is marked already and records another dashboard or none |
| GrafanaLeaks.MisjudgedForgets | pkg/controllers/openviz/grafanadashboard_controller.go:86-113 | The converse: from every such read some run removes the finalizer with nothing learned about the recorded dashboard, which stays; calls alone do when Grafana can be reached |
| GrafanaLeaks.StaleDeletionLeaksDashboard | pkg/controllers/openviz/grafanadashboard_controller.go:86-113 | A whole run from a new object, with AppBinding, auth Secret and remote present throughout, on which a recreation brings such a read about and the recorded dashboard stays |
| GrafanaFinalizers.NoRecreationNoStaleReads | pkg/controllers/openviz/grafanadashboard_controller.go:86-139 | A run without recreation has neither of the two reads |
| GrafanaFinalizers.SurvivesIff | pkg/controllers/openviz/grafanadashboard_controller.go:263-283 | The dashboard that the stored status records at the removal of the finalizer survives it if and only if the deletion call was not for it: the reconcile held another record or none, or found no client for its server |
| GrafanaForks.MissingSecretLeaksDashboard | pkg/grafana/client.go:47-55 | A whole run on which AppBinding and remote are there, the auth Secret is missing, the finalizer goes and the dashboard stays |
| GrafanaForks.FailedOrgReadForks | pkg/controllers/openviz/grafanadashboard_controller.go:342-345 | A whole run from a new object: the read of the organisation fails after the dashboard was created, and the next reconcile creates a second one |
| GrafanaForks.StaleReadForks | pkg/controllers/openviz/grafanadashboard_controller.go:297-304 | A whole run from a new object: the sync is recorded, the next reconcile reads the object as it was before, and creates a second dashboard |
| GrafanaLeaks.RecreationSyncsWithoutFinalizer | pkg/controllers/openviz/grafanadashboard_controller.go:115-139 | A whole run from a new object with two recreations that ends in such a request for a stored object that is not being deleted |
| GrafanaReconciler.Reconciler.Reconcile | pkg/controllers/openviz/grafanadashboard_controller.go:74-140 | The imperative reconcile drives the machine from idle back to idle |
| GrafanaReconciler.Reconciler.Finalize | pkg/controllers/openviz/grafanadashboard_controller.go:86-113 | Mark, delete the remote dashboard, drop the finalizer, in this order |
| GrafanaReconciler.Reconciler.DeleteExternalDashboard | pkg/controllers/openviz/grafanadashboard_controller.go:263-283 | A missing dashboard, AppBinding or auth Secret counts as deleted |
| GrafanaReconciler.Reconciler.SetDashboard | pkg/controllers/openviz/grafanadashboard_controller.go:285-371 | The remote request comes after the state was read, and every failure is recorded |
| GrafanaReconciler.Reconciler.Execute | pkg/controllers/openviz/grafanadashboard_controller.go:74-140 | A whole imperative reconcile is a run of the machine |
| StateMemo.RightIff | pkg/controllers/openviz/grafanadashboard_controller.go:226-261 | Over any interleaving, every answer of the shared table is the directly computed one if and only if no two calls with one UID and generation have different direct values |
| StateMemo.WellUsedIsRight | pkg/controllers/openviz/persesdashboard_controller.go:214-244 | It is so when UID and generation determine the spec and no UID is asked for by both functions |
| StateMemo.SharedUidIsWrong | pkg/controllers/openviz/persesdashboard_controller.go:214-244 | Two calls for one AppBinding show that the second condition is needed |
| StateMemo.AnswerIsFirst | pkg/controllers/openviz/grafanadashboard_controller.go:235-239 | Every answer is the direct value of the first call with its key |
| StateMemo.GrafanaStateIff | pkg/controllers/openviz/grafanadashboard_controller.go:241-258 | A Grafana state is an error exactly without a decodable configuration or a URL, and for one URL it changes exactly when datasource or folder do |
| StateMemo.PersesStatesCollide | pkg/controllers/openviz/persesdashboard_controller.go:214-244 | A comma in the datasource or the project name makes two Perses configurations share a state |
| StateMemo.Memo.GrafanaState | pkg/controllers/openviz/grafanadashboard_controller.go:231-261 | Looks up before it computes, and stores errors too |
| StateMemo.Memo.PersesState | pkg/controllers/openviz/persesdashboard_controller.go:214-244 | The same table under the same key |
| StateMemo.Memo.Serve | pkg/controllers/openviz/grafanadashboard_controller.go:226-261 | Any sequence of calls under the mutex gets the answers of the specification |
| JsonRewrite.LastWriterWins | pkg/controllers/openviz/grafanadashboard_controller.go:388-450 | R(d2, R(d1, m)) = R(d2, m) for every JSON value, hence idempotence |
| JsonRewrite.RewriteReaches | pkg/controllers/openviz/grafanadashboard_controller.go:388-450 | Every panel reachable through collapsed rows gets the datasource, order and other keys are kept, and no datasource-typed variable remains; a model without panels comes back unchanged |
| JsonContents.RewriteIsExact | pkg/controllers/openviz/grafanadashboard_controller.go:388-450 | The rewritten model related to the one before key by key: panels down the collapsed rows, exactly the variables with a type other than datasource in their order, null when none stays, everything else kept |
| JsonContents.IdIsSet | pkg/controllers/openviz/grafanadashboard_controller.go:376-386 | Id and uid go into every object next to all other keys, and null panics |
| JsonRewrite.RewriteCommutesWithId | pkg/controllers/openviz/grafanadashboard_controller.go:376-386 | The rewrite commutes with setting id and uid |
| JsonRewrite.EmptiedListIsNull | pkg/controllers/openviz/grafanadashboard_controller.go:431-448 | A list that held only datasource variables becomes null |
| JsonRewrite.GetUpdatedPanels | pkg/controllers/openviz/grafanadashboard_controller.go:388-408 | The recursive loop computes the updated panels |
| JsonRewrite.UpdateVariables | pkg/controllers/openviz/grafanadashboard_controller.go:431-446 | The loop keeps the typed variables that are no datasource |
| JsonRewrite.ReplaceDatasource | pkg/controllers/openviz/grafanadashboard_controller.go:411-450 | All early returns of the rewrite |
| JsonRewrite.PanelsKept | pkg/controllers/openviz/grafanadashboard_controller.go:388-408 | Order and other keys of all panels, down through the rows |
| JsonRewrite.PanelsAllSet | pkg/controllers/openviz/grafanadashboard_controller.go:388-408 | The datasource of all panels, down through the rows |
| PersesRewrite.SecondRewrite | pkg/controllers/openviz/persesdashboard_controller.go:348-421 | Rewriting for d1 and then d2 leaves the datasource variable at d2, the injected plugin datasources at d1 and the panels as they were |
| PersesRewrite.RewriteTwice | pkg/controllers/openviz/persesdashboard_controller.go:348-421 | The rewrite is idempotent |
| PersesRewrite.LastWriterWinsIff | pkg/controllers/openviz/persesdashboard_controller.go:348-421 | The last rewrite wins if and only if the datasources are the same or nothing needed injection |
| PersesRewrite.InjectionIsMinimal | pkg/controllers/openviz/persesdashboard_controller.go:368-392 | A present datasource and the spec of any other plugin are never changed |
| PersesContents.RewriteIsExact | pkg/controllers/openviz/persesdashboard_controller.go:348-421 | Fails exactly on a mistyped list variable; otherwise the datasource variable has the datasource, every Prometheus time series query without one has the variable, and nothing else changes |
| PersesRewrite.Dashboard.UpdateDatasourceVariable | pkg/controllers/openviz/persesdashboard_controller.go:348-421 | Fails exactly on a mistyped list variable, otherwise leaves the rewritten dashboard |
| PersesRewrite.Dashboard.UpdateVariables | pkg/controllers/openviz/persesdashboard_controller.go:349-393 | The in-place loop, and the partly rewritten list it leaves on an error |
| PersesRewrite.Dashboard.UpdatePanels | pkg/controllers/openviz/persesdashboard_controller.go:395-418 | The result does not depend on the order in which the panel map is iterated |
| PersesRewrite.Dashboard.UpdateQueries | pkg/controllers/openviz/persesdashboard_controller.go:396-416 | Prometheus time series queries without a datasource get the variable |
| PersesRewrite.Syncer.SetDashboard | pkg/controllers/openviz/persesdashboard_controller.go:302-309 | On a type error no partly rewritten dashboard reaches the remote |
| DashboardLinks.QuerySplits | pkg/registry/ui/dashboardgroup/storage.go:613-647 | The query of every upserted request splits at & into the sorted encoded base and source pairs and then the target pairs in order, so the ? separator is never used |
| DashboardLinks.QueryCarries | pkg/registry/ui/dashboardgroup/storage.go:613-647 | Each variable that is no target is in the query under its name with var- in front unless it has that, the datasource one with the datasource, and each target follows raw, in order |
| DashboardLinks.EncoderOrder | pkg/registry/ui/dashboardgroup/storage.go:613-624 | In the encoded query keys ascend, and the pairs under one key come in the order they were added |
| DashboardLinks.UpsertSets | pkg/registry/ui/dashboardgroup/storage.go:171-190 | A source datasource variable exists, all of them have the value, and other variables stay |
| DashboardLinks.UpsertTwice | pkg/registry/ui/dashboardgroup/storage.go:171-190 | A second upsert decides alone |
| DashboardLinks.PairRoundTrip | pkg/registry/ui/dashboardgroup/storage.go:613-623 | An encoded pair splits at = and unescapes to the pair |
| DashboardLinks.EscapeRoundTrip | pkg/registry/ui/dashboardgroup/storage.go:634-638 | Escaping loses nothing |
| DashboardLinks.EscapeIsSafe | pkg/registry/ui/dashboardgroup/storage.go:634-638 | Escaped text contains neither & nor = |
| DashboardLinks.MissingSourceBreaksQuery | pkg/registry/ui/dashboardgroup/storage.go:640-644 | Without a source variable base and target pair would run into one |
| DashboardLinks.UpsertDatasourceVar | pkg/registry/ui/dashboardgroup/storage.go:171-190 | The in-place loop rewrites the variables of the request and appends one if none was found |
| DashboardLinks.AddVars | pkg/registry/ui/dashboardgroup/storage.go:613-647 | The counting loop, the encoding and the builder produce the specified query |
| DashboardLinks.TargetQuery | pkg/registry/ui/dashboardgroup/storage.go:627-639 | Target values are appended unescaped, in order |
| DashboardLinks.Link | pkg/registry/ui/dashboardgroup/storage.go:119-121 | The body of the loop over the requests: the datasource goes in before the link is made |
| PanelSelection.SelectionFollowsRequest | pkg/registry/ui/dashboardgroup/storage.go:556-580 | For every iteration order, references come in request order, one for every requested title that exists, each naming a panel with that title |
| PanelSelection.EmptyRequestTakesEachTitleOnce | pkg/registry/ui/dashboardgroup/storage.go:567-572 | An empty request gets exactly one reference per distinct title |
| PanelSelection.SelectionIsUnique | pkg/registry/ui/dashboardgroup/storage.go:556-580 | The iteration order shows only where panels share a title |
| PanelSelection.SelectPanels | pkg/registry/ui/dashboardgroup/storage.go:543-580 | Both branches of the selection, over an arbitrary iteration order |
| PanelSelection.RefByTitle | pkg/registry/ui/dashboardgroup/storage.go:543-563 | The table holds a panel for every wanted title that exists |
| TokenRenewal.AlwaysAToken | pkg/controllers/ranchertoken/token_controller.go:82-102 | With bounds on late hand-outs, on the length of a pass and on clock drift, at every instant between the first and the last write the token found in the secret as it is stored then still lasts for more than the offset less a late hand-out, two passes and the drift |
| TokenRenewal.FoundIffBaseLives | pkg/rancherutil/rancher.go:50-89 | At every instant of any run a token is found exactly when the base token is alive |
| TokenRenewal.TokenOutlastsNextPass | pkg/controllers/ranchertoken/token_controller.go:82-102 | The token in use after a pass outlasts the end of the next one by the offset less a late hand-out and two passes |
| TokenRenewal.WakeIsOneOffsetEarly | pkg/controllers/ranchertoken/token_controller.go:94-102 | The next wake-up is due exactly 24h before expiry, whatever the second clock reading |
| TokenRenewal.StallsIff | pkg/controllers/ranchertoken/token_controller.go:94-102 | A pass is never queued again exactly when it stalls: a renewed token lasts no longer than the margin, or the second clock reading has reached the margin that the first had not |
| TokenRenewal.RenewsIff | pkg/controllers/ranchertoken/token_controller.go:94-102 | A pass stores a new token exactly when the one it finds has less than 24 hours left and Rancher issues one that can be stored |
| TokenRenewal.StallHappens | pkg/controllers/ranchertoken/token_controller.go:94-102 | Such readings exist |
| TokenRenewal.LostBaseIsFinal | pkg/rancherutil/rancher.go:66-86 | The base token is never replaced, and once it cannot be decoded no pass renews anything |
| TokenRenewal.ConversionExactIff | pkg/controllers/ranchertoken/token_controller.go:99-99 | The millisecond conversion is exact in 64 bits exactly up to some 292 years, so for the requested year |
| TokenRenewal.NextPassSeesToken | pkg/rancherutil/rancher.go:69-80 | As long as the token of a pass lasts, whoever looks finds that token or one that lasts longer |
| TokenRenewal.LaterIsLatest | pkg/rancherutil/rancher.go:69-80 | The token in use is the latest-expiring usable one |
| TokenRenewal.FoundMeans | pkg/rancherutil/rancher.go:69-80 | The base token, or the next one if it was issued under the current state, still decodes and lasts longer |
| TokenRenewal.FindToken | pkg/rancherutil/rancher.go:50-89 | Returns a token if and only if the keys are present and the base token decodes; panics exactly when only the next token decodes |
| TokenRenewal.TokenRefresher.ProcessToken | pkg/controllers/ranchertoken/token_controller.go:82-102 | One pass over the secret and the clock |
| TokenRenewal.TokenRefresher.RenewToken | pkg/rancherutil/rancher.go:125-154 | The next token and its state are stored only after Rancher issued it |
| LazyDetector.AnswersAreFrozen | pkg/detector/prometheus.go:116-181 | Over any interleaving a getter panics exactly until some call of Ready has detected the set-up, and from then on every answer is the one of that first detection |
| LazyDetector.FrozenMeans | pkg/detector/prometheus.go:74-319 | What every getter answers after the first detection, for Rancher, OpenShift and standalone set-ups, by the cluster as it was then |
| LazyDetector.SingletonIsFrozen | pkg/detector/prometheus.go:297-299 | A set-up detected with one Prometheus calls every later one the default too |
| LazyDetector.Detector.Detect | pkg/detector/prometheus.go:74-114 | Which delegate a listing leads to |
| LazyDetector.Detector.Ask | pkg/detector/prometheus.go:116-181 | Ready and all guarded getters, those of the Service included, under the mutex |

## Left out

- HTTP and TLS clients, URL parsing and the controller queues: calls succeed, fail or lose their response.
- The JSON byte codec: models are value trees with opaque numbers, and the loss of unknown fields when a board is decoded into a struct is not modelled.
- RBAC subject lists, presets, AppBinding contents, Alertmanager configuration: field assignments that one reading settles.
- `pkg/grafana/builder.go` and the GrafanaDatasource reconciler: the first is not wired up, the second is a smaller copy of the dashboard machine.
- The Perses dashboard reconcile around `setDashboard`: its finalizer protocol is that of Grafana.
- Ready, error and requeue results of the reconciles: only whether the next call is made; every reconcile may be started again at any time.
- Finalizers of other controllers, owner references as a cause of deletion, and field-wise merging of lists in patches.
- Distinguished keys: annotation keys, label keys, JSON keys and the names of the Rancher and OpenShift Prometheuses that the code tests are constructors of a datatype next to all other names.
- `GrafanaSync`, remote requests: the remote accepts an update only for a dashboard it has, and the rewriting of the model before the request is in `JsonRewrite`.
- `PanelSelection`, encoding: the JSON text of the selected references and the path of the link.
- `DashboardLinks`, strings: sequences of bytes; the choice of the datasource name and the lookup of the dashboard are not modelled, nor is the failure of a link, which ends the loop.
- `Federation`, listing: the map of source Services is given per Prometheus as the list in which it happens to be iterated; reading the sources before the loop is not modelled.
- `TokenRenewal`, retries: passes that fail are retried by the queue and do not occur in a timely run.
- Liveness of teardown: a detector that is not ready returns before the deletion branch.
- AlwaysAToken: assumes that each result is queued and that the base token lives, because the code fails otherwise, as StallsIff and FoundIffBaseLives say; one pass decodes both tokens at one instant.
- ReadyIsServed: assumes that all sources are usable and that no cached AppBinding is gone, because an unusable source ends the copying and a cached AppBinding is taken for a stored one; a source keeps no copy of its own while one of its name is still being deleted.
- DueIsTornDown: assumes that a stored finalizer is also cached, because the patch computed from an older version leaves it.
- RemoteOnlyUnderFinalizer: assumes no sync from an outdated read, because UnguardedSends shows that each one leads to a request without the finalizer.
- FinalizerOutlivesRemote: assumes no deletion from an outdated read, because MisjudgedForgets shows that each one leads to a forgotten dashboard.
- RoleBindings: there is one, that of the Service namespace of the default Prometheus, which is the one client organisations wait for.
- SyncsKeepOneUid: assumes that no step is careless, because CarelessForks shows that each one leads to a second UID; that converse is for objects that stay and a Grafana that can be reached.
- StaleFinalizerLeaks: assumes that the RoleBinding marker is seen and that the monitoring namespace accepts objects, because nothing is copied before.
- MarkedRoleSkipsRegistration: about reconciles without a failing call, because a failing one ends the reconcile before the stamp.
- CopiesAreCovered: assumes runs without reactivation, because ReactivationUncovers shows that reactivation breaks it.
- MarkerNeverRunsAhead: assumes states that do not repeat and no unregistration, because RevertedStateMatchesOldMarker and TeardownLeavesMarker show both are needed.
- CopiesNeverCascade: assumes that nobody else puts the selector label on a copy.
