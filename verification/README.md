# Verification of the DNS service's Cluster reconciler

This project models the controller that deploys external-dns for `Cluster` resources, together with the purpose selectors of its
configuration, and proves what the controller keeps over all its runs. `dafny verify dfyconfig.toml` checks it.

## What is modelled

The controller lives in `internal/controllers/cluster/controller.go`. One reconcile is a sequence of API calls over a world
shared with users, Flux and an access library: finalizer, access, copies of secrets, one Flux source, a namespace, more copies,
a HelmRelease; a teardown runs the other way round. The model follows that structure.

| file | content |
|---|---|
| `Kubernetes.dfy` | clusters, managed objects, labels and configuration as values; the world |
| `Protocol.dfy` | what everybody else may do between two calls (`Env`), what one call may do and under which guard (`Legal`), runs, crash safety |
| `Safety.dfy` | further properties of all runs: teardown order, ownership, non-interference, no dangling references |
| `ApiServer.dfy` | a class with the API calls: each may fail before or after taking effect, the process may die at any of them, the environment moves after each; calls are recorded in a ghost log that always is a legal run; and the access library |
| `Controller.dfy` | the class `ClusterReconciler`, method by method as in the source; its contracts tie every method to the protocol and to the functions and relations below |
| `Reconciling.dfy` | what those contracts speak of: the result passed from phase to phase, the rendered HelmRelease, settled worlds, what a reconcile reads and what that decides, how far a teardown has come |
| `Meaning.dfy` | what settled, clean and deployable worlds, decisions and written objects come to, key by key and case by case, independent of the functions that methods and contracts share |
| `CopyPlan.dfy`, `Mirroring.dfy`, `Deploying.dfy`, `Settling.dfy` | what the phases do to the world: the copy plan, the copy loop in any order, pruning, sources, and the worlds that a further reconcile does not change |
| `Witnesses.dfy` | runs in which something goes wrong, each produced by the reconciler's own methods |
| `WatchQueue.dfy` | Clusters with their purposes, event handlers, work queue, known Clusters and worker, interleaved step by step |
| `Templating.dfy`, `Immunity.dfy`, `JsonText.dfy` | keyword replacement in helm values, the exact condition under which it is the documented one, and what it does to JSON text |
| `Selectors.dfy`, `SelectorGraph.dfy`, `SelectorCopy.dfy` | purpose selectors as trees; the evaluator and the generated deep copy on the heap |
| `Selecting.dfy` | configurations with their selectors laid out on the heap, as the API client decodes them, and evaluated there: this is what the reconciler calls |

### The environment

Runs come in three modes. In mode `Free` anybody acts at any time: users create, edit and delete Clusters, configuration and
secrets change, Flux finishes deletions, access is granted and revoked, others delete objects or take labels off. What others do
not do is assumed: they neither set nor remove this controller's finalizer, and they neither create, relabel nor revive managed
objects (objects with this controller's managed-by label, AccessRequests, and HelmReleases and sources under derived names). A
Cluster that carries the finalizer does not vanish. In mode `Orderly` they moreover create no objects, delete no managed ones
and do not revoke access. In mode `Quiet` nothing moves; functional results are stated there, since otherwise the world changes
underneath. `reliable` servers do not fail. `Params.fixedKind` says that only one kind of source is ever configured, where a
property needs that.

The access library is used through its contract only: `ReconcileAccess` creates the AccessRequest when there is none, and is
ready at once when access is usable, but may also be ready when the request is being deleted or not granted;
`ReconcileAccessDelete` deletes it and is ready once it is gone. Three further facts may be known of it (datatype `Promise`):
`patient`, it is ready only when access is usable; `steady`, the teardown of a Cluster that is being deleted is not restarted,
that is, once ReconcileDelete was called for the Cluster, nothing is requested as long as the Cluster is being deleted; `held`,
whether a finalizer always, or never, holds deleted AccessRequests. The library sees the request and the world only: the calls
in lines 248 and 328 are the same, so for a Cluster that is torn down because no configuration applies to it `steady` promises
nothing, and `held` alone decides. Derived names are modelled as the Cluster's name with a suffix, which is injective; that
stands for the promise that derived names are unique.

Calls are recorded with the worlds before and after them, among them the two reads of the configuration with which every
reconcile begins, so that contracts can speak of what was read. Copies and deletions record what the controller looked at
before: the world in which the place of a copy was checked, and the world in which the object was listed or read with the
Cluster's labels. Every run proves that these worlds lie on its way.

### Main results

- Crash safety (`Protocol.CrashSafety`, `Controller.Operate`): at every call of every run, with any failures, crashes and
  restarts, a Cluster without the finalizer has no HelmRelease, no AccessRequest and no live labelled source or secret.
- An undisturbed reconcile deploys the first configuration that applies, unless the Cluster is being deleted: if it succeeds,
  the world is settled; in a settled world it changes nothing; and it does succeed when access is granted and nothing hinders
  the copies. If the configuration or the service is missing it fails with the error for that and does nothing
  (`Controller.ClusterReconciler.Reconcile`, `ReconcileTwice`, and phase by phase the methods below it). What a settled world
  holds is spelt out object by object (`Meaning.SettledMeans`), and so are the conditions (`PlansFitMeans`, `DeployableMeans`).
- Every reconcile that is not to deploy finishes the teardown, brings the HelmRelease or access closer to its end, or waits for
  others, if and only if it is not blocked: by a missing configuration or service, or by the ignore annotation (`Reconcile`). So
  a teardown takes at most seven rounds more than there are rounds that were blocked or had to wait, if the access library does
  not restart it or nobody holds AccessRequests; where access is held and waited for, the finalizer comes off a Cluster only if
  the library is steady and the Cluster is being deleted (`TearDown`). A teardown removes nothing before the HelmRelease is gone
  (`Safety.TeardownOrdering`).
- Ownership and non-interference over all runs, whatever others do: a foreign secret is touched only if others put it there or
  took its labels off after the controller had looked (`Safety.OwnershipSafety`), one that nobody hands over is never touched
  (`ForeignSecretsSurvive`), and no call for a Cluster touches another one's objects (`NonInterference`).
- No HelmRelease ever dangles if and only if every one was written while its source and access were alive
  (`Safety.NoDanglingIffLive`); the controller does so in every round that begins when neither is being deleted (`Operate`).
- No change of a secret, and none of a Cluster, is ever lost between watch and worker: in every run from a start of the process
  in which the configuration stays (`WatchQueue.SecretsAreNeverLost`). A change of the configuration loses a Cluster only if it
  comes while the configuration for that Cluster is being decided upon, or if it newly applies to a Cluster that is not known
  (`OnlyConfigChangesLose`). The exact condition, Cluster by Cluster, is that registrations, forgettings and configuration
  changes are timely for it; an untimely one loses it for good (`NoLostUpdateFor`, `TimelyIsExact`, `LostForever`).
- The replacement passes are one simultaneous substitution, for all values without backslashes, if and only if the template is
  immune: no text of it can be completed to a placeholder by the values of earlier passes (`Immunity`). Hazard-free templates
  are immune (`Templating`). The passes keep JSON intact if and only if every placeholder head is an escape of its own
  (`JsonText`).
- The selector evaluator is plain recursion wherever that ends, and panics exactly where it does not; the deep copy is a fresh
  tree with the same meaning (`SelectorGraph`, `SelectorCopy`). The reconciler chooses with that evaluator, and it chooses the
  first configuration that applies (`Controller.ClusterReconciler.FindConfig`, `Selecting.EvaluatorDecides`).

### Where the code does not do what one might expect

- The configuration is read (line 190) before the Cluster is registered (line 244). On a Cluster's first reconcile after a
  start, a configuration change in between is lost: the handler lists the known Clusters without it, and the reconcile ends
  successfully with the old configuration (`WatchQueue.LostUpdate`). Changed secrets are not affected (`SecretsAreNeverLost`).
  Registering first would prevent it (`KnownBeforeConfigured`).
- A Cluster to which no configuration applies is not known (lines 312-316), and a changed configuration reaches known Clusters
  only (lines 955-957). So a configuration that newly applies to a Cluster does not reach it until the Cluster itself changes or
  the process restarts (`WatchQueue.LostMatch`); the same happens when a Cluster is being forgotten (`LostReturn`).
  `WatchQueue.TimelyIsExact` gives the exact condition for all three.
- A source that is still being deleted from an earlier teardown is updated and referred to all the same; when its deletion
  completes, the HelmRelease dangles. `Witnesses.DanglingReference` gives the run, `Safety.WrittenToLast` the exact condition.
- A teardown needs the configuration: every reconcile, also one of a Cluster that is being deleted, first loads the
  DNSServiceConfig and the PlatformService and fails without them (lines 189-206). If one of them is deleted while a Cluster is
  torn down, the Cluster's finalizer never comes off (`Witnesses.StrandedTeardown`). `Reconcile` gives the exact condition under
  which a round makes no progress (`Reconciling.Blocked`).
- Access is requested in every teardown round (line 328) before it is released (line 369). If requests are waited for and a
  finalizer holds AccessRequests, then a Cluster to which no configuration applies any more never loses its finalizer, nor does
  a Cluster that is being deleted if the library requests access again (`Witnesses.EndlessTeardown`, `TearDown`).
- Neither the check before a copy nor the listing before a deletion protects a secret that others put there, or whose labels
  they take off, right afterwards (`Witnesses.OwnershipRace`, `DeletionRace`).
- When the Cluster lives in the provider namespace, pruning can delete a labelled secret that the configuration now uses as a
  source. `Settling.PruningSafeIffSpared` gives the exact condition.
- With two sources for one target, the map's order decides which one is copied; the copies are right in every order if and only
  if those sources agree (`Mirroring.ExactIffSourcesAgree`).
- Text that a value completes to a placeholder of a later pass is replaced, too (`Templating.HazardousTextIsCompleted`);
  `Reconciling.SubstitutedIffImmune` gives the exact condition for the five keywords in their order.
- A placeholder behind an odd backslash (an escaped backslash followed by the letters of the opening sequence) is replaced too,
  which breaks the JSON for some values (`JsonText.StructureKeptIffHeadsAreEscapes`).
- The documentation says that image pull secrets are always copied (`docs/config/dns-service-config.md`, line 54); the code does
  so only when `secretsToCopy` is set, and the model follows the code.
- On the create path an error of `AccessRequest` (lines 259-261) does not stop the reconcile at once; the model copies platform
  secrets before it stops, as the code does.
- Copies on a target cluster stay behind when access is not available during the teardown: `HandleDelete` says that they are
  removed if and only if access is usable.

## Model

| member | source | states |
|---|---|---|
| Protocol.LegalKeepsCrashSafe | internal/controllers/cluster/controller.go:231-393 | no single call leaves a Cluster without the finalizer but with a HelmRelease, AccessRequest or live labelled source or secret |
| Protocol.CrashSafety | internal/controllers/cluster/controller.go:231-393 | that invariant before and after every call of every run and after every move of the environment |
| Protocol.EnvKeepsCrashSafe | internal/controllers/cluster/controller.go:235-244 | users, Flux and grants cannot break the invariant |
| Safety.TeardownOrdering | internal/controllers/cluster/controller.go:320-378 | a teardown removes sources, copies and access only once the HelmRelease is gone, and none reappears until the controller writes one |
| Safety.FinalizerBrackets | internal/controllers/cluster/controller.go:235-244 | after the finalizer came off, no call is made for the Cluster before it is on again, over whole runs, apart from the removal of an operation annotation and the reads of the configuration |
| Safety.OwnershipSafety | internal/controllers/cluster/controller.go:440-862 | in every run, whatever others do, a secret that is not the Cluster's own is overwritten or deleted (and any other object deleted) only if others put it there or took it away after the controller had looked; where others do neither, never |
| Safety.ForeignSecretsSurvive | internal/controllers/cluster/controller.go:440-862 | in every run a secret that was there before and that nobody hands over to the controller is never changed or deleted, on either cluster and in any namespace |
| Safety.OthersObjectsAreSpared | internal/controllers/cluster/controller.go:838-862 | in every run an object of another Cluster is neither overwritten by a copy nor deleted |
| Safety.OverwritesOnlyWhenRaced | internal/controllers/cluster/controller.go:459-488 | in every run, with others acting at any time, a copy overwrites a foreign secret only if it was put there after the check |
| Safety.NonInterference | internal/controllers/cluster/controller.go:184-187 | in every run, whatever others do, no call for one Cluster touches release, source, copies, access, target namespace or resource of another one, also in a shared namespace (the known set changes by the reconciled Cluster only, see ReconcileCluster) |
| Safety.NoDangling | internal/controllers/cluster/controller.go:280-303 | with a fixed source kind and releases written while source and access live, every HelmRelease in every reachable world refers to a live source and access |
| Safety.WrittenToLast | internal/controllers/cluster/controller.go:588-704 | the HelmRelease a call writes never dangles, whatever others do next, if and only if at that call its source and access are there and neither is being deleted |
| Safety.NoDanglingIffLive | internal/controllers/cluster/controller.go:280-303 | over whole orderly runs: no HelmRelease ever dangles, at any call and whatever others do next, if and only if every one was written while source and access were alive |
| Witnesses.OwnershipRace | internal/controllers/cluster/controller.go:459-488 | the check and the write of the copy loop, which succeeds, with a secret created in between that is overwritten |
| Witnesses.DeletionRace | internal/controllers/cluster/controller.go:838-862 | the listing and the deletion of secrets, which succeeds, with labels taken off in between: the secret is deleted |
| Witnesses.DanglingReference | internal/controllers/cluster/controller.go:588-704 | from a world without dangling references: an undisturbed reconcile that succeeds with a settled world while its source is being deleted, and the HelmRelease dangles when that deletion completes |
| Witnesses.EndlessTeardown | internal/controllers/cluster/controller.go:325-378 | any number of reconciles that tear down: even ones end with the deletion of the AccessRequest, which is held and then removed by others, odd ones with a request for a new one, which others grant; for every library if the Cluster is unmatched |
| Witnesses.StrandedTeardown | internal/controllers/cluster/controller.go:189-206 | any number of reconciles of a Cluster that is being deleted, without a configuration or a service: all fail with the error for that, nothing changes, and the finalizer stays on |
| ApiServers.ApiServer.CreateOrUpdate | internal/controllers/cluster/controller.go:478-488 | the mutation is applied to the object found, or the call failed without effect; nothing else comes to life |
| ApiServers.ApiServer.DeleteObject | internal/controllers/cluster/controller.go:601-606 | after a successful delete the object is gone or marked, and not found counts as success |
| ApiServers.ApiServer.CreateNamespace | internal/controllers/cluster/controller.go:885-893 | the namespace exists afterwards; that it already existed counts as success |
| ApiServers.ApiServer.PatchFinalizerOn | internal/controllers/cluster/controller.go:235-243 | on success the Cluster carries the finalizer; no object changes |
| ApiServers.ApiServer.PatchFinalizerAway | internal/controllers/cluster/controller.go:380-388 | called only for a clean Cluster; on success the finalizer is off, and nothing comes to life; if it is off, this was the call |
| ApiServers.ApiServer.PatchAnnotationAway | internal/controllers/cluster/controller.go:174-178 | exactly the generic operation annotation is removed |
| ApiServers.ApiServer.ReconcileAccess | internal/controllers/cluster/controller.go:246-257 | the contract of the access library's Reconcile as both callers rely on it; access does not get further from its end, and waiting means that it came closer or that a grant or a removal is awaited |
| ApiServers.ApiServer.ReconcileAccessDelete | internal/controllers/cluster/controller.go:369-378 | ready only when no AccessRequest remains; the same about waiting |
| ApiServers.RequestRecedes | internal/controllers/cluster/controller.go:331-341 | a request for access, and the moves of others after it, bring access closer to its end, or it waits for others |
| ApiServers.ReleaseRecedes | internal/controllers/cluster/controller.go:369-378 | a release that has to wait brought access closer to its end, or waits for others, provided that access does not come back or goes at once |
| ApiServers.ApiServer.GetSource | internal/controllers/cluster/controller.go:441-448 | a source secret is read only on behalf of a registered Cluster with finalizer |
| ApiServers.ApiServer.ReadConfigFor | internal/controllers/cluster/controller.go:189-200 | what is returned is the configuration at the recorded read; nothing changes |
| Controller.ClusterReconciler.AddKnownCluster | internal/controllers/cluster/controller.go:907-912 | the known set grows by exactly this Cluster |
| Controller.ClusterReconciler.RemoveKnownCluster | internal/controllers/cluster/controller.go:914-923 | the known set loses exactly this Cluster |
| Controller.ClusterReconciler.ListKnownClusters | internal/controllers/cluster/controller.go:925-933 | all known Clusters, each once |
| Controller.ClusterReconciler.MapSecretToRequests | internal/controllers/cluster/controller.go:974-1004 | if both reads succeed, all known Clusters if and only if the secret is in the provider namespace and referenced by what was read; nobody when a read fails or finds nothing |
| Controller.ClusterReconciler.CheckCopy | internal/controllers/cluster/controller.go:440-476 | a copy is allowed only to a place that was free or the Cluster's own, and exactly then when undisturbed; identical source and target are skipped |
| Controller.ClusterReconciler.WriteCopy | internal/controllers/cluster/controller.go:478-488 | the copy is written over what is there now, or nothing is; undisturbed it has the source's data, type, labels and annotations and the Cluster's labels; the error names the cluster that failed |
| Controller.ClusterReconciler.CopySecret | internal/controllers/cluster/controller.go:440-490 | one copy, or none for identical source and target; the exact conditions of success and of the configuration error |
| Controller.ClusterReconciler.CopySecrets | internal/controllers/cluster/controller.go:402-495 | the plan's entries copied in some order and nothing else, all of them on success, and then no place was foreign before; whatever the configuration asks for on this cluster, s as t, then is a secret t with the body of the provider's secret s; succeeds whenever nothing hinders a copy |
| Controller.ClusterReconciler.DeleteItems | internal/controllers/cluster/controller.go:847-862 | only objects that were listed with the Cluster's labels, outside the kept names, are deleted; all of them on success |
| Controller.ClusterReconciler.RemoveSecrets | internal/controllers/cluster/controller.go:817-866 | on success every live labelled secret left has a kept name; nothing but prunable secrets changes |
| Controller.ClusterReconciler.ListSources | internal/controllers/cluster/controller.go:506-521 | the three listings cover everything alive and contain only the Cluster's own sources |
| Controller.ClusterReconciler.ChooseSource | internal/controllers/cluster/controller.go:522-584 | a HelmRepository, GitRepository or OCIRepository, with its spec, by precedence helm, git, oci; exactly the other listed sources are obsolete |
| Controller.ClusterReconciler.ReplaceSource | internal/controllers/cluster/controller.go:585-607 | the chosen source is deployed and the listed ones are deleted: on success it holds the configured spec and no other source is alive |
| Controller.ClusterReconciler.DeployHelmChartSource | internal/controllers/cluster/controller.go:497-611 | source convergence, from any set of labelled sources: helm gives a HelmRepository, otherwise git a GitRepository, otherwise oci an OCIRepository, with the configured spec under the derived name, and no other live labelled source; an error exactly when no source is configured |
| Controller.ClusterReconciler.EnsureTargetClusterNamespace | internal/controllers/cluster/controller.go:868-897 | the namespace exists afterwards and nothing else changed |
| Controller.ClusterReconciler.RenderValues | internal/controllers/cluster/controller.go:663-670 | the five passes in their order; each placeholder alone becomes the name that is documented for it |
| Controller.ClusterReconciler.DeployHelmRelease | internal/controllers/cluster/controller.go:613-712 | the release is written, or not at all: with the source's kind, the Cluster's namespace and the derived name, the rendered values, and the kubeconfig secret of the AccessRequest |
| Controller.ClusterReconciler.PreparePlatform | internal/controllers/cluster/controller.go:270-283 | mirror, prune and source on the platform cluster: a ready world on success, no change in a ready world, success when deployable |
| Controller.ClusterReconciler.PrepareTarget | internal/controllers/cluster/controller.go:285-298 | namespace, mirror and prune on the target cluster: the same three statements |
| Controller.ClusterReconciler.PrepareBoth | internal/controllers/cluster/controller.go:270-298 | both phases together: ready on both clusters, source and access stay alive, no change in a ready world |
| Controller.ClusterReconciler.FetchAccess | internal/controllers/cluster/controller.go:258-268 | the AccessRequest as it is and access if it is usable; an error of the former does not hinder the latter |
| Controller.ClusterReconciler.ObtainAccess | internal/controllers/cluster/controller.go:235-268 | with access comes the finalizer and the registration; when access is obtainable it is obtained |
| Controller.ClusterReconciler.DeployEverything | internal/controllers/cluster/controller.go:270-307 | a settled world on success; releases are written only while source and access live |
| Controller.ClusterReconciler.HandleCreateOrUpdate | internal/controllers/cluster/controller.go:231-307 | undisturbed: success leads to a settled world, a settled world does not change, a deployable world leads to success; disturbed: legal calls for this Cluster only |
| Controller.ClusterReconciler.CreateOrUpdateTwice | internal/controllers/cluster/controller.go:231-307 | idempotence: a reconcile after a successful one changes nothing on either cluster |
| Meaning.SettledMeans | internal/controllers/cluster/controller.go:231-307 | a settled world object by object: the namespace external-dns on the target cluster; in it and in the Cluster's namespace what either list asks for, copied from the provider's secrets, and no leftovers; the configured source; and a HelmRelease with the Cluster's labels that refers to that source and to the kubeconfig secret of the AccessRequest that is there |
| Meaning.DeployableMeans | internal/controllers/cluster/controller.go:231-307 | the exact condition under which nothing stands in the way: helm, git or oci is set, every source asked for is there, its place is free, labelled or itself, and no source of the target cluster is a leftover on the platform |
| Meaning.SettledIsDeployable | internal/controllers/cluster/controller.go:231-307 | a settled world meets it, so one deployment never hinders the next |
| Meaning.PlansFitMeans | internal/controllers/cluster/controller.go:423-435 | the exact condition under which the order of copies cannot matter: no two entries share a target, and no target is another entry's source |
| Meaning.SourcesSparedMeans | internal/controllers/cluster/controller.go:847-862 | pruning endangers no copy on the platform if and only if no source of one is a labelled secret in the Cluster's namespace that nothing is to be copied to |
| Meaning.ObtainableMeans | internal/controllers/cluster/controller.go:235-268 | access is obtainable if and only if the AccessRequest is granted and not being deleted, and the finalizer is on or the Cluster is not being deleted |
| Meaning.NewCopy | internal/controllers/cluster/controller.go:478-485 | a copy in a free place has the source's data, type and annotations, and its labels under the Cluster's own |
| Meaning.RenewedCopy | internal/controllers/cluster/controller.go:478-485 | a copy over another object keeps its other labels and annotations, under those of the source and, for labels, the Cluster's own |
| Meaning.DeployedCarries | internal/controllers/cluster/controller.go:588-595 | a source or release that is written over another one keeps its annotations and other labels and gets all of its body |
| Reconciling.BecomesSettled | internal/controllers/cluster/controller.go:300-303 | writing the HelmRelease completes a settled world |
| Reconciling.ReleaseStandsStill | internal/controllers/cluster/controller.go:624-704 | writing a settled HelmRelease again changes nothing |
| Controller.ClusterReconciler.UndeployHelmRelease | internal/controllers/cluster/controller.go:714-760 | continues only when the HelmRelease is gone; after a requeue it is gone or being deleted |
| Controller.ClusterReconciler.RemoveTargetSecrets | internal/controllers/cluster/controller.go:325-357 | with access all copies on the target cluster go; access is had if and only if it is usable; a requeue follows a request for access that is not usable |
| Controller.ClusterReconciler.UndeployHelmChartSource | internal/controllers/cluster/controller.go:762-815 | on success no labelled source is alive |
| Controller.ClusterReconciler.RemoveFromPlatform | internal/controllers/cluster/controller.go:359-378 | on success the Cluster is clean |
| Controller.ClusterReconciler.RemoveRemains | internal/controllers/cluster/controller.go:325-378 | clean on success; usable access that is held ends with a release, absent access with a new request, and both are waited for |
| Controller.ClusterReconciler.HandleDelete | internal/controllers/cluster/controller.go:309-393 | finishes with the finalizer off and the Cluster forgotten; a requeue brings the HelmRelease or access closer to its end or waits for others to do so, unless access is requested again; with held access, when it does not finish |
| Controller.ClusterReconciler.TearDown | internal/controllers/cluster/controller.go:128-393 | teardown progress over whole reconciles: in a Cluster that stays deleted or unmatched, with access that does not come back or is not held, the finalizer is off after at most seven rounds more than there are rounds that were blocked or in which neither HelmRelease nor access came closer to its end, by a measure over both; a deleted Cluster is never deployed again; with held access that is waited for, the finalizer comes off only under a steady library from a Cluster that is being deleted |
| Meaning.CleanMeans | internal/controllers/cluster/controller.go:309-393 | what a finished teardown leaves, object by object: no HelmRelease, no AccessRequest, and in the Cluster's namespace no live source or secret with its labels |
| Controller.ClusterReconciler.FindConfig | internal/controllers/cluster/controller.go:208-218 | each selector is laid out in memory and evaluated there; the result is the configuration with the least index that has no selector or one that matches the purposes, and none if and only if there is none |
| Selecting.Selected | api/dns/v1alpha1/config_types.go:161-204 | the evaluator, run on a selector in memory, never panics and returns true if and only if the configuration has no selector or one that matches |
| Selecting.EvaluatorDecides | api/dns/v1alpha1/config_types.go:161-204 | however a selector is laid out, with shared requirements, but without a reachable cycle: the evaluator returns true if and only if the configuration applies, and never panics |
| Reconciling.ChoiceIsFirstMatch | internal/controllers/cluster/controller.go:208-218 | the choice that other contracts speak of is that configuration, and none if and only if there is none |
| Reconciling.MatchedIffChosen | internal/controllers/cluster/controller.go:208-218 | what the queue takes for a matching configuration is what the reconciler finds |
| Controller.ClusterReconciler.LoadConfiguration | internal/controllers/cluster/controller.go:189-218 | both configuration objects as they were at the recorded reads, and of the first one the first entry that applies to the purposes; the error says which one was missing; nothing changes |
| Controller.ClusterReconciler.Begin | internal/controllers/cluster/controller.go:159-218 | an annotation is removed and the configuration loaded, with positions of the recorded reads, and nothing else is done |
| Controller.ClusterReconciler.Dispatch | internal/controllers/cluster/controller.go:220-226 | deploys exactly when the Cluster is not being deleted and a configuration matches: then finalizer and registration are on, otherwise it is torn down, or further on the way to it; the results of both, undisturbed |
| Controller.ClusterReconciler.ReconcileCluster | internal/controllers/cluster/controller.go:159-229 | blocked, by the ignore annotation or a missing configuration or service, nothing is done; otherwise deployed or torn down as deletion and what was read demand, with progress; undisturbed with the first matching configuration: a settled world, no change in a settled one, success when deployable; "ignore" and "reconcile" count in the DNS-specific annotation, and in the generic one only if the former is missing; a reconcile request removes the generic annotation first; the known set changes by this Cluster only |
| Meaning.OperationsByCases | internal/controllers/cluster/controller.go:161-179 | the operation that counts is that of the DNS-specific annotation, and that of the generic one only if the former is missing |
| Meaning.DecisionMeans | internal/controllers/cluster/controller.go:161-226 | a reconcile deploys or tears down if and only if the Cluster is there and not ignored and both configuration objects exist; it deploys if and only if, moreover, the Cluster is not being deleted and an entry applies, and then with the first such entry |
| Meaning.CalmMeans | internal/controllers/cluster/controller.go:588-607 | a round begins calmly if and only if no object under one of the three derived source keys and no AccessRequest is being deleted |
| Controller.ClusterReconciler.Reconcile | internal/controllers/cluster/controller.go:128-157 | the same for whole reconciles; a vanished Cluster is forgotten without any call |
| Controller.ClusterReconciler.ReconcileTwice | internal/controllers/cluster/controller.go:128-229 | idempotence of whole reconciles: after a successful deployment the world is settled, and another reconcile changes no object on either cluster and succeeds as well, if access still is usable and calls do not fail |
| Controller.Operate | internal/controllers/cluster/controller.go:128-229 | crash safety of the controller at work, with crashes and restarts; reference safety if every round that wrote a HelmRelease began while no source or access was on its way out; and the exact condition for it |
| Reconciling.ReleaseValuesAreSubstituted | api/dns/v1alpha1/config_types.go:94-100 | the release's values are the configured ones with all keywords replaced at once, each by what is documented for it, and no keyword is left |
| Reconciling.SubstitutedIffImmune | internal/controllers/cluster/controller.go:663-670 | the five passes are the documented substitution, each keyword by what it stands for, for all names without backslashes, if and only if no text of the template can be completed to a placeholder by the values of earlier passes |
| Reconciling.KeywordInText | internal/controllers/cluster/controller.go:663-670 | in text without backslashes each of the five placeholders becomes exactly what is documented for it |
| Reconciling.OnlyUsedNamesCount | api/dns/v1alpha1/config_types.go:94-100 | the values do not depend on a name whose placeholder the template does not contain, for each of the five |
| Reconciling.PassesInOrder | internal/controllers/cluster/controller.go:665-669 | the order of the five passes, where it can be seen: a name that is the next keyword's placeholder is rewritten in its turn |
| Reconciling.ReleaseValuesKeepStructure | internal/controllers/cluster/controller.go:663-670 | well-formed JSON values stay well formed with the same structure outside of strings |
| CopyPlan.BuildPlan | internal/controllers/cluster/controller.go:423-435 | the plan maps s to t if and only if that is asked for: the last entry for s gives the name t, or none and t is s; or s is a pull secret without an entry and t is s |
| CopyPlan.PlanMeaning | internal/controllers/cluster/controller.go:423-435 | the last entry for a source decides: its target name if it gives one that is not empty, otherwise the source's own name; other pull secrets keep their name; nothing else is planned |
| CopyPlan.PlansAreAsked | internal/controllers/cluster/controller.go:412-435 | each cluster's plan is what its own list asks for |
| CopyPlan.ReferencedMeans | internal/controllers/cluster/controller.go:1006-1023 | watched are the sources of both lists and the pull secrets, and nothing else |
| CopyPlan.ExtractReferencedSecretNames | internal/controllers/cluster/controller.go:1006-1023 | the set of watched names |
| CopyPlan.WatchIndexAgrees | internal/controllers/cluster/controller.go:1007-1023 | every source a copy run reads is watched; with secretsToCopy set, exactly those are |
| Mirroring.OrderMirrors | internal/controllers/cluster/controller.go:440-490 | whatever the order, the copy loop mirrors exactly the entries done |
| Mirroring.OrderIndependence | internal/controllers/cluster/controller.go:440-490 | two complete orders lead to the same world |
| Mirroring.RecoveryInOrder | internal/controllers/cluster/controller.go:440-490 | a run that failed midway followed by a complete one ends where a complete one alone ends |
| Mirroring.MirroredTwice | internal/controllers/cluster/controller.go:478-485 | mirroring a mirrored world is no change |
| Mirroring.SharedTargets | internal/controllers/cluster/controller.go:440-490 | with shared targets each target holds what one of its sources holds |
| Mirroring.ExactIffSourcesAgree | internal/controllers/cluster/controller.go:440-490 | with shared targets the copies are exact, in every order, if and only if those sources agree |
| Mirroring.CopyThenPrune | internal/controllers/cluster/controller.go:270-278 | mirror exactness: every planned name holds its source's data and type, identical pairs are untouched, no other live labelled secret is left, and foreign secrets are untouched, those under planned names included since a successful copy run found all places free |
| Mirroring.OwnBeforeCopies | internal/controllers/cluster/controller.go:459-476 | a copy run does not make foreign secrets its own: what it finds to be its own, or free, was so before it |
| Deploying.ConvergesIffNotTerminating | internal/controllers/cluster/controller.go:505-607 | exactly the chosen source is alive, with the configured spec, if and only if its predecessor was not being deleted |
| Deploying.DeployedIsConfigured | internal/controllers/cluster/controller.go:522-607 | after a successful deployment the object under the derived name is of the kind and with the spec that is configured, the first of helm, git, oci, and no other labelled source is alive |
| Deploying.OneSourceLeft | internal/controllers/cluster/controller.go:598-607 | after the deletions only the deployed source is alive |
| Settling.PruningSafeIffSpared | internal/controllers/cluster/controller.go:847-862 | the copies survive every outcome of pruning if and only if no source is taken for a leftover |
| Settling.PlatformBecomesReady | internal/controllers/cluster/controller.go:270-283 | copy, prune and deploy leave a world in which each of them would change nothing |
| Settling.CopiedMirrors | internal/controllers/cluster/controller.go:440-490 | a complete copy run mirrors the plan; in a mirrored world even a partial one changes nothing |
| Settling.MirroredArrived | internal/controllers/cluster/controller.go:440-490 | once the plan is mirrored, all that the configuration asks for has been copied to the Cluster's namespace or to external-dns, with data, type, labels and annotations of the provider's secrets |
| Settling.TargetStaysCopyable | internal/controllers/cluster/controller.go:270-298 | the platform phase leaves what the target phase needs |
| WatchQueue.StepKeepsInv | internal/controllers/cluster/controller.go:907-1004 | every timely step keeps every existing Cluster that is not ignored attended to, or as configuration and sources make it |
| WatchQueue.StepKeepsInvFor | internal/controllers/cluster/controller.go:907-1004 | the same for one Cluster, if the step is timely for it |
| WatchQueue.StartIsSafe | internal/controllers/cluster/controller.go:936-953 | a start of the process, which queues all existing Clusters, establishes that |
| WatchQueue.NoLostUpdateFor | internal/controllers/cluster/controller.go:907-1004 | Cluster by Cluster: at every point of every run whose steps are timely for it, a Cluster that exists and is not ignored is queued, about to be queued, in progress, awaiting a retry, or registered with the current copies and no others if a configuration applies to it and forgotten if none does; what happens to others does not matter |
| WatchQueue.NoLostUpdate | internal/controllers/cluster/controller.go:907-1004 | the same for all Clusters at once |
| WatchQueue.OnlyConfigChangesLose | internal/controllers/cluster/controller.go:189-244 | over whole runs: as long as no change of the configuration comes while the one for this Cluster is being decided upon, or finds it unknown although it newly applies, nothing is lost for it, whatever else happens |
| WatchQueue.SecretsAreNeverLost | internal/controllers/cluster/controller.go:907-1004 | every run from a start of the process in which the configuration stays keeps the invariant for all Clusters, with no further condition: no changed secret and no changed Cluster is lost |
| WatchQueue.NothingLost | internal/controllers/cluster/controller.go:955-1004 | at rest exactly the Clusters to which an entry of the configuration applies are known, with exactly the current copies of the current plan: what either list asks for, as its source is now, and no others |
| WatchQueue.TimelyIsExact | internal/controllers/cluster/controller.go:189-244 | any step keeps the invariant for a Cluster if and only if it is timely for it, and one that is not loses that Cluster |
| WatchQueue.LostForever | internal/controllers/cluster/controller.go:925-957 | a lost Cluster stays lost, whatever handlers, queue and worker do by themselves |
| WatchQueue.KnownBeforeConfigured | internal/controllers/cluster/controller.go:189-244 | over whole runs: if Clusters were known when their configuration is read, every registration would be timely |
| WatchQueue.LostUpdate | internal/controllers/cluster/controller.go:189-244 | a run from the start of the process in which a configuration change during a first reconcile is lost |
| WatchQueue.LostMatch | internal/controllers/cluster/controller.go:955-957 | a run from the start of the process in which a configuration that newly applies to a Cluster does not reach it |
| WatchQueue.LostReturn | internal/controllers/cluster/controller.go:312-316 | a run in which a configuration that applies again is lost while the Cluster is being forgotten |
| Templating.OnePass | internal/controllers/cluster/controller.go:663-669 | one textual pass over a safe template replaces exactly the placeholders of its name |
| Templating.PutKeepsSafe | internal/controllers/cluster/controller.go:663-669 | a pass with a value without backslashes keeps the template safe for the next pass |
| Templating.PassesFill | internal/controllers/cluster/controller.go:663-669 | all passes together fill every hole once |
| Templating.SequentialIsSimultaneous | internal/controllers/cluster/controller.go:663-670 | the passes equal one simultaneous substitution |
| Templating.PassOrder | internal/controllers/cluster/controller.go:663-670 | the order of the passes does not matter |
| Templating.NoPlaceholderLeft | internal/controllers/cluster/controller.go:663-670 | no placeholder is left, neither an original nor a new one |
| Templating.OnlyHeadsIsHazardFree | internal/controllers/cluster/controller.go:664-665 | a simpler condition on templates suffices |
| Immunity.SequentialIffImmune | internal/controllers/cluster/controller.go:663-670 | the same exact condition for any keywords and any order of the passes, on all templates |
| Immunity.HazardFreeIsImmune | internal/controllers/cluster/controller.go:664-665 | hazard-freedom is a special case of it |
| Templating.BackslashValueIsRewritten | internal/controllers/cluster/controller.go:665-669 | a value that is a placeholder itself is rewritten by a later pass |
| Templating.RewrittenIffLater | internal/controllers/cluster/controller.go:665-669 | a value that is another keyword's placeholder is rewritten if and only if that keyword's pass comes later, for any number of passes |
| Templating.HazardousTextIsCompleted | internal/controllers/cluster/controller.go:665-669 | text ending in the beginning of a placeholder is completed by a value |
| JsonText.StructureKeptIffHeadsAreEscapes | internal/controllers/cluster/controller.go:664-670 | substitution keeps JSON strings and structure for all harmless values if and only if every placeholder head is an escape of its own |
| JsonText.PassesKeepStructure | internal/controllers/cluster/controller.go:663-670 | the passes keep well-formedness and structure |
| JsonText.PassesKeepStructureIffHeadsAreEscapes | internal/controllers/cluster/controller.go:663-670 | on hazard-free templates the passes keep JSON strings and structure for all harmless values if and only if every placeholder head is an escape of its own |
| Selectors.NormalMeansTheSame | api/dns/v1alpha1/config_types.go:112-118 | clearing what the precedence ignores, at every depth, leaves one field each and keeps the meaning |
| Selectors.Monotone | api/dns/v1alpha1/config_types.go:181-203 | names under an even number of nots only: more purposes never lose a match |
| Selectors.OnlyNamesCount | api/dns/v1alpha1/config_types.go:181-203 | purposes that no evaluated name mentions do not matter |
| Selectors.OnlyTheSetCounts | api/dns/v1alpha1/config_types.go:181-182 | order and duplicates of purposes do not matter |
| SelectorGraph.EvaluateElements | api/dns/v1alpha1/config_types.go:187-202 | the first deciding element ends the loop |
| SelectorGraph.RequirementMatches | api/dns/v1alpha1/config_types.go:171-204 | ends on every finite graph, restores the seen set, and returns the evaluation's outcome |
| SelectorGraph.EvaluatorIsCorrect | api/dns/v1alpha1/config_types.go:171-204 | a value exactly when plain recursion ends with it, a panic exactly when plain recursion never ends |
| SelectorGraph.PanicMeansCycle | api/dns/v1alpha1/config_types.go:175-177 | a panic means a cycle that is reachable |
| SelectorGraph.AcyclicIffUnfolds | api/dns/v1alpha1/config_types.go:112-134 | a selector unfolds into a finite tree if and only if no walk from it comes back to where it has been |
| SelectorGraph.AcyclicMeaning | api/dns/v1alpha1/config_types.go:171-204 | no panic where no cycle can be reached, shared nodes included, and the documented meaning |
| SelectorGraph.Matches | api/dns/v1alpha1/config_types.go:161-167 | a nil selector matches; otherwise the outcome of plain recursion, on acyclic selectors the documented meaning |
| SelectorCopy.CopyElements | api/dns/v1alpha1/zz_generated.deepcopy.go:187-190 | the copied elements are separate trees of new nodes |
| SelectorCopy.CopySlice | api/dns/v1alpha1/zz_generated.deepcopy.go:185-191 | a nil slice stays nil, an empty one stays empty, others are copied |
| SelectorCopy.CopyNot | api/dns/v1alpha1/zz_generated.deepcopy.go:199-203 | the negated requirement is copied into a new node |
| SelectorCopy.DeepCopyInto | api/dns/v1alpha1/zz_generated.deepcopy.go:182-204 | ends where no cycle can be reached, writes the target and new nodes only, and builds the tree into which the source unfolds, in which no node is used twice |
| SelectorCopy.DeepCopy | api/dns/v1alpha1/zz_generated.deepcopy.go:206-214 | nil for nil; otherwise, for acyclic selectors, a copy that shares nothing with the original |
| SelectorCopy.CopyMatchesAlike | api/dns/v1alpha1/config_types.go:171-204 | copy and original match the same purposes, without panic |

## Left out

- Controller.ClusterReconciler.TearDown: promises no bound for an access library that restarts teardowns sometimes, or whose AccessRequests are held sometimes; it speaks of runs in which others delete no managed objects, and counts no rounds after one that deploys.
- Controller.ClusterReconciler.Reconcile: promises the success of a deployment only where nobody else moves, since others can take sources of copies away at any time; teardown progress is promised also where others move.
- WatchQueue.NoLostUpdateFor: assumes that the handlers' reads succeed (a failing read drops the event, lines 983-993), that configuration and PlatformService exist and the latter does not change (it is not watched), that copies of different Clusters go to different places, and that plans have distinct targets; a teardown is one step there that leaves copies alone, pruning is part of the last step of a reconcile, and a requeue counts as a retry.
- SelectorCopy.DeepCopyInto: the wrapper PurposeSelector is identified with the requirement it embeds, so its own DeepCopyInto is not a separate member.
- Shortening of long Cluster names with a hash in derived names; derived names are taken to be unique.
- Several HelmRelease fields that are copied without a decision: chart name and version, install and upgrade settings, intervals, owner references.
- A configuration without helm values, which the resource definition excludes.
- Clusters that share a namespace and are configured with the same copy targets: the second one gets a configuration error, which the model shows only as an unsuccessful copy.
- Events, messages, logging and related objects.
- The predicates of the watches, except for the ignore annotation; they appear only as the source of requests.
- Stale caches and concurrent patches of a finalizer list: reads are linearizable, and one worker serves the requests.
- Command line, installation, resource definitions and the remaining generated copy functions, which would only add easy members.
