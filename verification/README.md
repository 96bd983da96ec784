# Verification of the DataPrepper operator

This project models the operator's two controllers and its admission webhooks as one protocol over
a shared API-server store, and proves properties of that model with Dafny 4.11:

    dafny verify dfyconfig.toml

A `DataPrepperCluster` owns a Deployment, Services, an optional autoscaler and two ConfigMaps. Each
`DataPrepperPipeline` names a cluster; the pipeline controller merges all pipelines of a cluster into
the `<cluster>-pipelines` ConfigMap and stamps the content hash on the Deployment's pod template, so
that the pods restart exactly when the content changes. The merged ConfigMap is a cache of the set of
pipelines, and the annotation is a cache of the ConfigMap. Two controllers read, modify and write the
same Deployment, a finalizer must keep deleted pipelines out of the ConfigMap, and the controller's own
ConfigMap writes come back to it as events.

## How the model is laid out

| file | what it holds |
|---|---|
| `Objects`, `Names`, `ApiStore` | the API objects, names derived from a cluster name, what a write does to versions and to the work queue |
| `Watch`, `Rendering`, `Merge`, `Admission`, `PodHealth`, `Conditions` | the loops and pure functions of the controllers and webhooks, each against an order-free specification |
| `Rebuild`, `Reconcile` | `rebuildClusterConfig` and the pipeline `Reconcile` as functions of the store and of the calls that fail, each without effect or after taking effect |
| `Protocol` | the state machine: one pipeline worker advancing one API call at a time, interleaved with users, the cluster controller, the autoscaler and outside edits; every call may fail before or after taking effect, Deployments may be read stale, and the operator may restart between any two calls |
| `Agreement`, `FinalizerSafety`, `Termination` | theorems over all runs of the state machine |
| `Draining`, `Necessity`, `LostDeployment` | where serving the queue leads from any idle store; exactly when breaking a hypothesis does harm |
| `BothControllers` | both controllers' queues together: mixed sequences of pipeline visits and cluster reconciles |
| `Witnesses`, `StaleWitness` | runs from a bare API server on which breaking a hypothesis does harm |
| `TwoWriters` | the Deployment alone, with arbitrarily stale reads and optimistic concurrency |
| `Overlaying`, `ClusterObjects`, `ClusterReconcile`, `ClusterProperties`, `ClusterRefinement`, `Fixpoint` | the cluster controller |
| `PipelineOutcome`, `ClusterOutcome` | what a reconcile leaves on the stored objects, value by value and in the fields of spec, class, pods and rollout alone |
| `Server`, `PipelineController`, `ClusterController` | the API server and the two reconcilers as classes whose methods follow the Go methods statement by statement |

Three views of the pipeline reconcile are tied together. The class method `PipelineReconciler.Reconcile`
is proved equal to the function `ReconcilePipeline`; and `UninterruptedIsAtomic` and `AttendIsRun` prove
that function, for every choice of failing calls, equal to the state machine's worker when nobody
interrupts it. `ReconcileIsRun` shows that a whole cluster reconcile is a run of the state machine, so
the theorems over runs cover it.

Representation choices: the rendered YAML is the sequence of entries in key order (the library's own
key order may differ for runs of digits; nothing proved depends on which total order it is); the content
hash is an arbitrary function into strings of sixteen characters, and freedom from collisions is assumed
only where a restart for every content change is claimed; ConfigMap and annotation keys, condition types
and messages built around numbers are datatypes with a catch-all constructor; the empty exclude name is
`None`. Versions come from one global clock. A write that changes nothing is a no-op of the API server,
which matters for the cluster controller because it always issues the Deployment update.

## Hypotheses

- Runs start where an operator process starts: on any store whatever, with every existing pipeline in the
  queue. A restart or change of leader is a step like any other, possible between any two API calls. The
  admission results add that the pipelines found at the start were admitted.
- Reads of pipelines and ConfigMaps are current, and there is one pipeline worker (the manager runs with
  leader election and no concurrency option). For these watched kinds a late cache means a late event, so the
  store can be read as what the cache has been told. Deployments are not watched, no event makes up for a
  late cache, and their reads may be arbitrarily stale.
- Admissions are serialised. `ConcurrentAdmissionsBreakMerge` states exactly when two concurrent ones break
  merging: when they name the same cluster and key.
- `Disciplined` runs, which quiescent agreement and convergence are about, have four more rules. Each comes
  with the exact condition under which breaking it does harm, for every order of serving the queue:
  - no retargeting: after an edit at rest the old cluster agrees again if and only if the edit left the
    pipeline in it (or the pipeline was being deleted) — `RetargetOrphans`;
  - no deletion before the finalizer is attached: after a deletion the cluster agrees if and only if it did
    without the pipeline, or is provisioned and the finalizer was attached or another of its pipelines was
    queued — `EarlyDeleteOrphans`;
  - no external deletion of a Deployment: the cluster controller recreates it without the hash, but the status
    the same reconcile writes is an event for all pipelines of the cluster. After any number of whole
    reconciles the cluster agrees if and only if one of them found a status to write, or the class happens to
    carry the hash — `LostDeploymentHeals`. A cluster whose rollout was complete therefore always heals
    (`SettledClusterHeals`); what remains is a Deployment lost before its rollout was observed;
  - no misleading Deployment read: a read on which the worker takes its rebuild to be complete is right about
    that. After any such read the cluster agrees if and only if the Deployment really carries the hash —
    `StaleReadMisleads`. Every other stale read is harmless: its update is rejected.

  `Witnesses` and `StaleWitness` reach all four from a bare API server by disciplined runs and end each in a
  cluster left in disagreement with nothing queued (`CastExists` and `DigestExists` give the specs and the hash
  these runs ask for). Where the cluster has a pipeline left, its next visit
  repairs that, whatever causes it; where the orphan was the last one, nothing the operator does ever takes it
  out of the ConfigMap (`AbandonedForever`). So the documentation's claim that finalizers prevent orphaned
  configuration holds under the first two rules and not without them; and a comment in the controller
  (`internal/controller/dataprepperpipeline_controller.go:206-209`) says that it watches Deployments,
  which it does not.
- The admission invariant and finalizer safety hold over all runs, disciplined or not; finalizer safety
  assumes only that nobody writes the key of a deletion in flight into its cluster's ConfigMap.

## Model

| member | source | states |
|---|---|---|
| Agreement.QuiescentAgreement | internal/controller/dataprepperpipeline_controller.go:66-115 | from any store the operator comes up on, in every state with an empty queue and nothing in flight, reached by any disciplined interleaving with any failures, restarts and stale Deployment reads, every cluster with a pipeline is provisioned, its ConfigMap is the rendering of its active pipelines and the annotation is that content's hash |
| Agreement.AgreementInEntries | internal/controller/dataprepperpipeline_controller.go:218-287 | agreement entry by entry: the placeholder exactly without live pipelines, and otherwise, in strict key order, exactly one entry with key and definition for each; the annotation is the hash of what is there |
| Agreement.StepKeepsInv | internal/controller/dataprepperpipeline_controller.go:210-290 | every step keeps the inductive invariant: a cluster has a pipeline queued, or the reconcile in flight still holds the current document, or it agrees and nothing is about to be written; while an object is missing all its pipelines keep being retried |
| Agreement.RunKeepsInv | internal/controller/dataprepperpipeline_controller.go:341-348 | the invariant holds over whole runs |
| Agreement.MissingStep | internal/controller/dataprepperpipeline_controller.go:82-84 | forgiving a missing ConfigMap or Deployment during a deletion loses no cluster: all remaining pipelines are still queued |
| Agreement.DeploymentStep | internal/controller/datapreppercluster_controller.go:383-406 | Deployment writes by the cluster controller and the autoscaler keep the invariant |
| Agreement.EnvironmentStep | internal/controller/dataprepperpipeline_controller.go:294-339 | creation, edit and deletion of clusters and outside edits of ConfigMaps keep the invariant, because their events reach all affected pipelines |
| Termination.NoReconcileLoops | internal/controller/dataprepperpipeline_controller.go:206-209 | with specs, clusters and pods left alone and clusters of live pipelines provisioned or absent, every chain of reconciles and of requeues caused by their own writes, in any order, has at most `Fuel` visits |
| Termination.ProcessPays | internal/controller/dataprepperpipeline_controller.go:263-287 | each reconcile lowers the number of unattached finalizers, pending deletions, stale ConfigMaps, stale hashes and stale statuses, or writes nothing and shortens the queue, unless the pipeline's cluster lacks an object, when it may leave everything as it is |
| Termination.Convergence | internal/controller/dataprepperpipeline_controller.go:66-115 | from any idle state that satisfies the invariant, chains of reconciles are bounded if and only if every cluster a live pipeline refers to is absent or provisioned; every chain that empties the queue, bounded or not, ends in agreement |
| Termination.RunsConverge | internal/controller/dataprepperpipeline_controller.go:66-115 | the same after any disciplined run from any admitted store, with no condition of its own on provisioning |
| Termination.UnprovisionedRetriesForever | internal/controller/dataprepperpipeline_controller.go:257-259 | a visit to an applied pipeline leads back to the identical store if and only if the ConfigMap is missing, or holds the document and the Deployment is missing |
| Termination.BoundedIffProvisioned | internal/controller/dataprepperpipeline_controller.go:206-209 | the exact condition for reconciles to come to an end: live pipelines only refer to clusters that are absent or provisioned |
| Termination.ChainExists | internal/controller/dataprepperpipeline_controller.go:66-115 | then some order of visits does empty the queue |
| Termination.ChainIsRun | internal/controller/dataprepperpipeline_controller.go:66-115 | and every order of visits is a disciplined run of the state machine |
| Draining.DrainDecides | internal/controller/dataprepperpipeline_controller.go:66-115 | from any idle store of admitted pipelines, every order of serving the queue until it is empty ends with a cluster in agreement if and only if it agreed at the start, or is provisioned and one of its pipelines was queued |
| FinalizerSafety.AdmissionInvariant | internal/webhook/v1alpha1/dataprepperpipeline_webhook.go:58-79 | over every run keys are distinct per cluster and shapes good, no listing order or exclusion makes a merge fail, and the controller's own finalizer updates are re-admitted |
| FinalizerSafety.FinalizerIsSafe | internal/controller/dataprepperpipeline_controller.go:79-89 | when a pipeline with a finalizer disappears it was being deleted and its cluster's ConfigMap is missing or omits its key, and stays so until the key is used again or written from outside; the one exception, named in `OmitsKey`, is a pipeline whose key is the placeholder's own |
| FinalizerSafety.OnlyDetachRemoves | internal/controller/dataprepperpipeline_controller.go:85-86 | such a pipeline disappears only through the worker's finalizer update on the very object it read |
| FinalizerSafety.StepKeepsForgotten | internal/controller/dataprepperpipeline_controller.go:218-228 | no rebuild brings back a key no pipeline has, whatever else is written into the ConfigMap |
| Necessity.RetargetOrphans | internal/webhook/v1alpha1/dataprepperpipeline_webhook.go:50-52 | for every admissible edit at rest and every order of serving the queue, the cluster agrees at the end if and only if the edit left the pipeline in it or the pipeline was being deleted |
| Necessity.EarlyDeleteOrphans | internal/controller/dataprepperpipeline_controller.go:91-97 | for every deletion and every order of serving the queue, the cluster agrees at the end if and only if it agreed without the pipeline, or is provisioned and the finalizer was attached or another of its pipelines was queued |
| LostDeployment.LostDeploymentHeals | internal/controller/datapreppercluster_controller.go:97-112 | at rest with a Deployment lost, after any number of whole cluster reconciles and any order of serving the queue, the cluster agrees if and only if one of the reconciles found a status to write or the class carries the hash |
| LostDeployment.SettledClusterHeals | internal/controller/datapreppercluster_controller.go:140-160 | a cluster whose rollout was reported complete heals by itself, because a Deployment that has just been created is not observed yet |
| Necessity.AbandonedForever | internal/controller/dataprepperpipeline_controller.go:294-339 | a cluster without pipelines whose ConfigMap still lists one keeps it, to the letter, over every run until a pipeline selects the cluster again or somebody edits or removes the ConfigMap |
| Necessity.StaleReadMisleads | internal/controller/dataprepperpipeline_controller.go:274-283 | after a Deployment read on which the worker takes its work to be done, the cluster agrees if and only if the Deployment really carries the hash; and exactly when all is then at rest |
| Witnesses.RetargetWitness | internal/controller/dataprepperpipeline_controller.go:66-115 | a disciplined run from a bare API server to rest, after which retargeting to any other name orphans a definition |
| Witnesses.EarlyDeleteWitness | internal/controller/dataprepperpipeline_controller.go:91-97 | a disciplined run from a bare API server after which deleting a merged pipeline that still waits for its finalizer orphans its definition |
| Witnesses.LostDeploymentWitness | internal/controller/datapreppercluster_controller.go:375-381 | a disciplined run from a bare API server to rest, after which a Deployment lost before its rollout was observed, and recreated by a whole reconcile that finds no status to write, stays without its hash |
| Witnesses.LastingOrphanWitness | internal/controller/dataprepperpipeline_controller.go:79-97 | a disciplined run from a bare API server after which deleting the last pipeline of a cluster, merged but still without finalizer, leaves its definition in the ConfigMap over every continuation that leaves the cluster alone |
| StaleWitness.StaleReadWitness | internal/controller/dataprepperpipeline_controller.go:274-283 | a disciplined run from a bare API server after which two visits that read the Deployment as it really once was leave the cluster in disagreement with nothing queued |
| BothControllers.NoJointLoops | internal/controller/datapreppercluster_controller.go:715-724 | with specs, pods and rollout figures left alone, in every mixed sequence of pipeline visits and cluster reconciles and of the events they cause each other, in any order, at most `JointFuel` jobs change anything |
| BothControllers.BothConverge | internal/controller/datapreppercluster_controller.go:715-724 | after any disciplined run: a job that changes nothing is a visit to a pipeline whose cluster waits for the cluster controller; rest means every cluster has its objects and status and every cluster with pipelines is settled for both; and sequences are bounded if and only if live pipelines' clusters are absent or provisioned |
| BothControllers.JobsToRest | internal/controller/datapreppercluster_controller.go:715-724 | some sequence of jobs reaches rest, whatever is provisioned at the start |
| TwoWriters.TwoWriterSafety | internal/controller/dataprepperpipeline_controller.go:274-287 | in every interleaving of stale reads and guarded updates, each accepted write is applied to the version just before it, the hash is the last one the pipeline controller wrote, and only that controller changes a non-empty hash |
| TwoWriters.RunKeepsOrder | internal/controller/datapreppercluster_controller.go:375-406 | histories are linear: every version is its predecessor as rewritten by its writer |
| TwoWriters.StaleDraftNeverLands | internal/controller/datapreppercluster_controller.go:406 | once a controller's draft is outdated, nothing it has in hand lands over any interleaving until it reads the Deployment again |
| TwoWriters.GetThenUpdate | internal/controller/dataprepperpipeline_controller.go:274-287 | after one Get and its Update the hash is in place if and only if the Get was current or the hash was there; a draft that does not land was stale |
| TwoWriters.StaleGetMisleads | internal/controller/dataprepperpipeline_controller.go:281-283 | a run in which a stale Get shows the wanted hash: no update is sent and the annotation stays wrong |
| Overlaying.OverlayKeepsHash | internal/controller/datapreppercluster_controller.go:387-394 | a cluster reconcile keeps a non-empty pipelines hash |
| Reconcile.UninterruptedIsAtomic | internal/controller/dataprepperpipeline_controller.go:66-115 | the reconcile issued call by call with nobody in between ends where the one-shot reconcile ends, whichever calls fail and however they fail |
| Reconcile.AttendIsRun | internal/controller/dataprepperpipeline_controller.go:66-115 | for every choice of failing calls the one-shot reconcile is a disciplined run: the name is taken, then calls all answered except perhaps the last; nothing if the pipeline cannot be read |
| Rebuild.CrashConsistent | internal/controller/dataprepperpipeline_controller.go:257-289 | whichever calls fail, without effect or after taking effect, ConfigMap and annotation are old/old, new/old or new/new; success is new/new; a merge error changes nothing; nothing else is touched |
| Rebuild.RerunCompletes | internal/controller/dataprepperpipeline_controller.go:263-287 | a rerun after any failure completes to new/new |
| Rebuild.InSyncIsFixpoint | internal/controller/dataprepperpipeline_controller.go:263-283 | a store in sync is left alone |
| Rebuild.RestartsAreHashChanges | internal/controller/dataprepperpipeline_controller.go:271-287 | over any sequence of edits and rebuilds the Deployment is written exactly where the hash changes |
| Rebuild.RestartsAreContentChanges | internal/controller/dataprepperpipeline_controller.go:271-287 | without hash collisions, exactly where the content changes |
| Merge.MergeDefinitions | internal/controller/dataprepperpipeline_controller.go:218-244 | the loop succeeds exactly when the selected items are well formed with distinct keys, yields exactly their definitions, and otherwise blames the first bad item for the first reason in the code's order |
| Merge.MergeableInFields | internal/controller/dataprepperpipeline_controller.go:229-243 | the listing merges if and only if every item that counts has a key that is not blank and an object with a field, and keys differ |
| Merge.BlameInFields | internal/controller/dataprepperpipeline_controller.go:229-243 | the reason for a refusal, in terms of the blamed item and those before it |
| Merge.CollectContent | internal/controller/dataprepperpipeline_controller.go:218-253 | the content does not depend on the listing order |
| Merge.ListOrderIrrelevant | internal/controller/dataprepperpipeline_controller.go:218-244 | success of the loop is a property of the set of pipelines |
| Merge.RenderedTextUnique | internal/controller/dataprepperpipeline_controller.go:246-253 | two listings and any two correct sorts give the same map and the same text |
| Merge.ExcludingDeletedIsIdle | internal/controller/dataprepperpipeline_controller.go:219-228 | excluding a pipeline that is being deleted changes nothing |
| Merge.CountPipelines | internal/controller/datapreppercluster_controller.go:129-134 | the counting loop returns the number of active pipelines |
| Merge.CountMatchesContent | internal/controller/datapreppercluster_controller.go:129-134 | the reported count is zero exactly when the placeholder is written, and otherwise the number of top-level keys, which are the keys of the active pipelines |
| Rendering.SortedUnique | internal/controller/dataprepperpipeline_controller.go:248-252 | only one sequence is sorted and holds the given entries |
| Rendering.RenderInjective | internal/controller/dataprepperpipeline_controller.go:246-253 | equal contents come from equal definitions |
| Watch.FindPipelinesForConfigMap | internal/controller/dataprepperpipeline_controller.go:294-317 | in listing order, exactly the pipelines selecting the cluster named by the ConfigMap, or nothing for another name |
| Watch.FindPipelinesForCluster | internal/controller/dataprepperpipeline_controller.go:321-339 | in listing order, exactly the pipelines selecting the cluster |
| Watch.WatchMappingExact | internal/controller/dataprepperpipeline_controller.go:294-339 | both mappings give the same pipelines, once each, for any listing; peer ConfigMaps map to nothing |
| Names.SuffixRoundTrip | internal/controller/dataprepperpipeline_controller.go:299-302 | suffixing and trimming are inverse |
| Names.ConfigMapNamesInjective | internal/controller/dataprepperpipeline_controller.go:255 | pipelines ConfigMap names are injective |
| Names.PeerNamesDisjoint | internal/controller/datapreppercluster_controller.go:478-480 | and never peer ConfigMap names |
| Admission.FirstClash | internal/webhook/v1alpha1/dataprepperpipeline_webhook.go:70-77 | the first listed pipeline that holds the key, if any |
| Admission.ValidateExact | internal/webhook/v1alpha1/dataprepperpipeline_webhook.go:58-100 | for every listing order the webhook admits exactly the admissible objects, and a denial for a taken key names a holder |
| Admission.ShapeReasons | internal/webhook/v1alpha1/dataprepperpipeline_webhook.go:81-100 | each denial for the shape of the object, exactly, in the order of the tests |
| Admission.ListingReasons | internal/webhook/v1alpha1/dataprepperpipeline_webhook.go:62-79 | beyond the shape: denied exactly if the listing fails or a pipeline of the same cluster is listed with the key, the first of which is named |
| Admission.AdmitKeeps | internal/webhook/v1alpha1/dataprepperpipeline_webhook.go:46-52 | a serialised create or update keeps all pipelines admitted |
| Admission.AdmittedMerges | internal/controller/dataprepperpipeline_controller.go:218-244 | admitted pipelines always merge |
| Admission.OwnUpdatesReadmitted | internal/controller/dataprepperpipeline_controller.go:85-96 | updates that keep the spec are admitted again |
| Admission.ConcurrentAdmissionsBreakMerge | internal/webhook/v1alpha1/dataprepperpipeline_webhook.go:66-77 | of two creates judged against the same listing both are let in, and the store stays admitted and mergeable if and only if they differ in cluster or key |
| ClusterRefinement.ClusterAdmissionInvariant | internal/webhook/v1alpha1/datapreppercluster_webhook.go:61-79 | over every run a stored cluster fails to reconcile if and only if it names a class that is gone, and a Deployment it creates under autoscaling starts within the autoscaler's bound |
| PodHealth.InspectClusterHealth | internal/controller/dataprepperpipeline_controller.go:124-160 | the method's answer is the one of `Reports` |
| PodHealth.HealthInFields | internal/controller/dataprepperpipeline_controller.go:130-160 | in terms of the pods alone: healthy if and only if no staying pod has a data-prepper container that waits or has terminated for a reason; otherwise reason and message of the first such container, waiting before terminated, naming its pod |
| PodHealth.SelectionKeepsOrder | internal/controller/dataprepperpipeline_controller.go:126-129 | the pods carrying the cluster's label are scanned in listing order: each comes right after the selected pods listed before it |
| PodHealth.ReportsUnique | internal/controller/dataprepperpipeline_controller.go:124-160 | the answer is determined; healthy exactly when pods are listed and none staying is in trouble; a known answer has a reason |
| Conditions.ConditionRuns | internal/controller/datapreppercluster_controller.go:149-195 | over all runs of both controllers types stay distinct, other types are untouched, written conditions have a reason, the status is the one last asked for, and the transition time is that of the last flip, or the old one if there was none |
| Conditions.SetAllEffect | internal/controller/datapreppercluster_controller.go:183-195 | each signalled type says what was asked, with the old transition time unless the status flipped |
| Conditions.PipelineStatusSettles | internal/controller/dataprepperpipeline_controller.go:162-204 | recomputing on the same observation gives the same status at any later time; an unknown health answer leaves the Healthy condition alone; the phase is the one asked for, and Applied exactly when the Ready condition is true |
| PipelineOutcome.StoredPhase | internal/controller/dataprepperpipeline_controller.go:99-114 | after every reconcile of a live pipeline that ends well, the stored phase is Applied if the cluster is there and Pending if not, for the current generation, with Ready true exactly for Applied, its reason and its words |
| PipelineOutcome.StoredHealth | internal/controller/dataprepperpipeline_controller.go:113-114 | and the stored Healthy condition is true if and only if pods of the cluster are listed and none staying is in trouble; without cluster or listing it is what it was |
| PipelineOutcome.StoredFinalizer | internal/controller/dataprepperpipeline_controller.go:79-97 | the other ways through: left alone, given the finalizer and nothing else, or gone |
| PipelineOutcome.EndsWell | internal/controller/dataprepperpipeline_controller.go:99-114 | a fault-free reconcile ends well if and only if the cluster is absent, or provisioned with documents that merge |
| Conditions.PhaseMatchesConditions | internal/controller/datapreppercluster_controller.go:136-167 | the phase is Ready exactly when the Ready condition is true, which is when a positive number of replicas is asked for and ready, and Degraded exactly when only the Degraded condition is |
| ClusterOutcome.StoredClusterStatus | internal/controller/datapreppercluster_controller.go:129-180 | after every whole reconcile, in raw figures: Ready, Progressing, Degraded and the phase exactly as the rollout says, the ready replicas, the number of live pipelines and the generation |
| ClusterOutcome.StatusInFigures | internal/controller/datapreppercluster_controller.go:149-173 | with the reason and the message of each condition |
| Conditions.ClusterStatusSettles | internal/controller/datapreppercluster_controller.go:119-181 | the same for the cluster status |
| ClusterProperties.ServerConfigMode | internal/controller/datapreppercluster_controller.go:504-541 | after every successful reconcile, from any store: peer mode exactly when no user map is given, user mode exactly when one is given and the class carries no peer hash; the headless Service is kept, without address exactly when it was absent or without address before; the user's own map is deleted exactly when it is named like the peer ConfigMap |
| ClusterOutcome.PeerTextChanges | internal/controller/datapreppercluster_controller.go:490-499 | the peer text changes exactly between one replica and several, and then between local_node and dns |
| ClusterOutcome.StoredPeerConfig | internal/controller/datapreppercluster_controller.go:490-541 | after every successful reconcile without a map of the user's, read line by line: local_node and no domain for at most one replica; dns and the domain of the kept headless Service for more; no TLS |
| ClusterProperties.ReplicaOwnership | internal/controller/datapreppercluster_controller.go:383-385 | under autoscaling replicas stay within the maximum over every interleaving, and no reconcile or rebuild alters them |
| ClusterProperties.BoundIsInherited | internal/controller/datapreppercluster_controller.go:383-385 | a reconcile under autoscaling ends within the maximum exactly when the Deployment was within it before |
| ClusterProperties.ClearingRestores | internal/controller/datapreppercluster_controller.go:588-596 | the first reconcile after autoscaling is cleared restores the replicas and removes the autoscaler |
| ClusterProperties.TrafficReachesPods | internal/controller/datapreppercluster_controller.go:433-474 | both Services select the pods whatever labels the class carries, and every Service port reaches a container port |
| ClusterObjects.AdmittedResolves | internal/controller/datapreppercluster_controller.go:198-227 | admitted specs resolve; resolution fails exactly for want of an image or of the class; what the cluster sets wins over the class |
| ClusterObjects.ServerVolume | internal/controller/datapreppercluster_controller.go:308-319 | the server-config volume is the chosen map whatever the other volumes |
| ClusterObjects.MountsHaveVolumes | internal/controller/datapreppercluster_controller.go:277-327 | every mount of the container has its volume |
| ClusterRefinement.ReconcileIsRun | internal/controller/datapreppercluster_controller.go:72-117 | a whole cluster reconcile is a disciplined run of the controller's own actions, from any store and wherever the pipeline worker is |
| Fixpoint.JointFixpoint | internal/controller/datapreppercluster_controller.go:72-117 | once settled, any sequence of cluster reconciles and rebuilds leaves the store identical |
| Fixpoint.ReconcileThenRebuild | internal/controller/datapreppercluster_controller.go:383-406 | one reconcile and one rebuild settle a cluster, even if the class carries the operator's annotation keys |
| Fixpoint.RebuildThenReconcile | internal/controller/datapreppercluster_controller.go:383-406 | so do they in the other order |
| Fixpoint.ServicesDisjoint | internal/controller/datapreppercluster_controller.go:482-484 | two clusters write different Services exactly when neither is called like the other's headless Service |
| Fixpoint.CollidingClustersNeverSettle | internal/controller/datapreppercluster_controller.go:547-579 | a store that contents two clusters exists if and only if their Service names do not collide, and then reconciling one after the other reaches it |
| PipelineController.PipelineReconciler.RebuildClusterConfig | internal/controller/dataprepperpipeline_controller.go:210-290 | the method does to the store what `RebuildCluster` says, for every choice of failing calls |
| PipelineController.PipelineReconciler.SetStatus | internal/controller/dataprepperpipeline_controller.go:162-204 | the method writes the status `WriteStatus` says, and only when it differs; when it ends well the stored pipeline has the phase asked for, for its generation, with Ready true exactly for Applied |
| PipelineController.PipelineReconciler.Reconcile | internal/controller/dataprepperpipeline_controller.go:66-115 | the method does what `ReconcilePipeline` says, for every choice of failing calls |
| ClusterController.MergeStringMap | internal/controller/datapreppercluster_controller.go:411-420 | the two loops, in any key order, give the overlay of the maps |
| ClusterController.ClusterReconciler.ResolveConfig | internal/controller/datapreppercluster_controller.go:198-227 | the method computes `Resolve` |
| ClusterController.ClusterReconciler.ReconcileConfigMap | internal/controller/datapreppercluster_controller.go:243-268 | afterwards the ConfigMap is there, no ConfigMap that was there is touched, and one that had to be created holds the placeholder with all pipelines of the cluster queued |
| ClusterController.ClusterReconciler.ReconcilePeerConfig | internal/controller/datapreppercluster_controller.go:504-541 | afterwards the peer ConfigMap is there, with the text whose hash is returned and the discovery mode for the number of replicas, exactly when the user supplies no map; no other ConfigMap is touched and no pipeline queued |
| ClusterController.ClusterReconciler.ReconcileDeployment | internal/controller/datapreppercluster_controller.go:270-407 | creates the Deployment or overlays the desired one; the container finds the cluster's pipelines ConfigMap at the pipelines path and runs the resolved image |
| ClusterOutcome.StoredMounts | internal/controller/datapreppercluster_controller.go:277-327 | after every successful reconcile the container finds the pipelines ConfigMap of its cluster, the assets map and the server configuration at their paths and sub-path, and all extra volumes and mounts |
| ClusterOutcome.StoredPods | internal/controller/datapreppercluster_controller.go:198-227 | image, resources, environment, node selector, tolerations, probes and ports, from the spec or else the class |
| ClusterOutcome.StoredLabels | internal/controller/datapreppercluster_controller.go:329-330 | the labels are the class's with the app label over them |
| ClusterOutcome.StoredAnnotations | internal/controller/datapreppercluster_controller.go:330-333 | the annotations are the class's but for the operator's two, of which the peer hash is that of the stored configuration |
| ClusterController.ClusterReconciler.ReconcileService | internal/controller/datapreppercluster_controller.go:433-474 | keeps ports and selector of the Service |
| ClusterOutcome.StoredService | internal/controller/datapreppercluster_controller.go:433-474 | after every successful reconcile the Service exposes the http port and every extra port under its own name, number and protocol, and nothing else; address and readiness are only chosen on creation |
| ClusterController.ClusterReconciler.ReconcileHeadlessService | internal/controller/datapreppercluster_controller.go:547-579 | afterwards the Service selects the cluster's pods, ready or not; address and ports are only chosen on creation; no other Service is touched |
| ClusterController.ClusterReconciler.ReconcileHPA | internal/controller/datapreppercluster_controller.go:583-640 | afterwards the autoscaler is there exactly when asked for, with the target and bounds of the spec; no other autoscaler is touched |
| ClusterController.ClusterReconciler.ReconcileStatus | internal/controller/datapreppercluster_controller.go:119-181 | writes the status of `KeepStatus` when it differs; afterwards it counts ready replicas and live pipelines, and the phase is Ready exactly when a positive number of replicas is asked for and ready |
| ClusterController.ClusterReconciler.Reconcile | internal/controller/datapreppercluster_controller.go:72-117 | all of these in order; nothing when the cluster is gone, or when the configuration does not resolve, which alone is an error |

## Left out

- Namespaces other than one: no request of either controller leaves the namespace of the object it reconciles.
- Manager start-up, TLS, flags, logging, RBAC, generated code and manifests: plumbing without logic to prove. The role has no delete verb for ConfigMaps, so the removal of the peer ConfigMap assumes a permission the shipped role does not give.
- YAML, JSON and SHA-256 themselves: library code, modelled as described above; the hash is an arbitrary function.
- reconcileServiceMonitor: optional-CRD error handling over unstructured objects would only add easy members.
- API-server defaulting of Service and autoscaler fields: assumed not to happen.
- Failing API calls inside a cluster reconcile: a failure leaves a prefix of the writes, and the state machine covers every prefix because each write is a step of its own.
- Stale reads of pipelines and ConfigMaps: they are read as they are. Stale reads of Deployments are in the state machine and in `TwoWriters`.
- Rendering.RenderInjective: a definition stands for a JSON value, so two spellings of one value, which YAML prints alike, are not told apart.
- Text that spells out a rendered document byte by byte: the model tells it from the rendering, and a text with one key set from the same text with another, so an outside edit that writes the exact text counts as drift, which the next rebuild overwrites with itself.
- Events in `BothControllers` come from objects that changed; periodic resyncs and repeated events, which only repeat jobs, are left out there. The restart of the state machine covers them for the pipeline controller.
- Texts other than the placeholder and the peer configuration carry their top-level YAML keys as given; nothing parses them.
- Asynchronous garbage collection: deleting a cluster removes its objects in one step.
- Finalizers of other controllers, and users editing finalizers by hand.
- More than one container in the pod template, the handler of the probes, Deployment selectors and owner references.
- Wrap-around of the 32-bit pipeline count: the number of listed objects is assumed to fit.
