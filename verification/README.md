# Verification of the diki extension

A Dafny model of gardener-extension-diki: the lifecycle of its Extension resource, the rendering of the
objects it deploys, and the way of its configuration from the chart to the operator. All statements are
proved by the Dafny verifier for all inputs and all runs; nothing is executed.

`dafny verify dfyconfig.toml` checks the project.

## What is modelled

**Lifecycle.** `Cluster.dfy` holds what one shoot namespace contains and what each API call does to it.
`Protocol.dfy` is the protocol: Reconcile, Restore, Delete, ForceDelete and Migrate as sequences of
calls, one step each, any of which may fail or be the last before a crash (`Abort`), after which the
operation starts again from the top. Between any two calls the surroundings act: the resource manager
applies and finalises ManagedResources object by object, CAs are rotated, the server certificate is
renewed, the shoot is hibernated, users create and delete custom resources, and after a successful
Migrate the control plane continues on another seed (`Handover`). A run is any legal sequence of steps,
from a state without the extension or from a restored seed with an old shoot MR of unknown state.
`Invariant.dfy` proves what every step keeps; `Safety.dfy`, `Migration.dfy` and `Convergence.dfy` prove
statements about all runs; `Witness.dfy` and `Progress.dfy` construct runs that exist. `Deletion.dfy`,
`ForceDeletion.dfy` and `LiveTrust.dfy` use both for three promises that do not always hold: each has the
condition, on the state before, under which it does, as an equivalence.

**Many shoots.** `Store.dfy` is the API server of a seed: one map from kind, namespace and name to objects,
for all shoots, on which each call puts its keys together from a namespace and constants or lists by
namespace and label. Each call is proved to read and write within its namespace, and `SharedSeed.dfy` proves
that on the part of one shoot it does what the protocol says. `Workers.dfy` has the controller's workers and
their queue, and derives from this that any interleaving is, for each shoot, a run of its own.

**The controller's code.** `Controller.dfy` has the actuator, the component, the secrets manager and the
API client as classes whose methods change the cluster step by step, with early error returns, polling
loops and deadlines. The environment acts nondeterministically inside every call, and a call may fail
before or after it has taken effect. Each method is proved to extend the history by legal protocol steps
only, so all theorems about runs hold of the code; and to return an error only if something went wrong (a
ghost count of faults has grown) or a wait ran into its deadline with its condition not met.

**Configuration.** `BlockScalar.dfy` prints the chart's two nested literal blocks and reads them back by
section 8.1 of YAML 1.2.2: the reader takes style and chomping from the header it finds, and looks for keys,
group version and kind of its own. `Options.dfy` follows the value through `Complete`, `Apply` and `newComponent`.

**Rendering.** `Rendering.dfy` has the objects of both ManagedResources as functions of the component's
values, and proves that they fit together. `Deployed.dfy` says what they have to be, in the names that the
repository's tests and documentation use; `Availability.dfy` says what users can create once it is there.

## Results that correct a first expectation

- The documentation says that the extension cleans up all deployed resources
  (docs/usage/configuration.md:31). Short of a migration or a forced deletion, Delete does so, however its
  attempts go, if and only if at the call the shoot MR, unmarked, is not to keep its objects and lists all
  that it wants in the shoot; or, marked, lists all that are there or keeps none; or there is none, nor an
  object in the shoot, nor an installation in flight (`DeleteLeavesNothing`). Installations may come in
  between where a shoot MR is stored; one that begins without can break it (`FailedReconcileLeaves`). The
  condition holds whenever the last success was an installation (`InstalledLeavesNothing`). Otherwise what
  is left is exactly what the shoot MR did not list, or was to keep, when it was marked
  (`DeleteLeavesOrphans`); after a migration, that can be all of it (`DeleteCanLeaveObjects`).
- During a CA rotation the bundle stored in the shoot MR trusts, at every step, the certificate stored in
  the seed MR and the one that is live (`CaRotationSafety`), but not every live bundle does: the new
  certificate may reach the operator before the new bundle reaches the webhooks. Between operations, and as
  long as no rotation starts, the live webhooks are sure to trust the live operator if and only if every
  bundle, stored or live, holds the current CA and the signers of the certificates in use
  (`LiveTrustExact`). A successful Reconcile or Restore establishes this if and only if no rotation started
  after it read the Cluster resource (`InstallMakesSafe`), and a rotation that starts later ends it
  (`RotationOpensGap`). While the shoot MR is healthy, trust holds in any case
  (`HealthyShootMeansLiveTrust`).
- A configured text comes back from the chart if and only if its first non-empty line does not start with a
  space, the lines before it are empty, and it ends in at most one line feed (`ChartRoundTrip`).
- `NoDanglingSecret` is about runs without a ForceDelete. From the call of one on, a live Deployment is sure
  to keep its secrets if and only if none is live and no seed MR is stored that is not already marked
  (`ForceDeleteDangles`). When it returns success, the secrets are missing exactly as long as the Deployment
  is there (`DanglesUntilRemoved`).

## Assumptions about code that is not in the repository

- A ManagedResource is healthy if its current generation is applied and listed and it is not being deleted.
  The resource manager applies objects one by one and lists each in the status at any time after, neither
  once the deletion is requested. On deletion it removes the objects listed in the status, unless keepObjects
  is set, drops each from the status as it goes, and then lets the ManagedResource go; in a forced deletion
  the gardenlet may let it go at any time. Setting keepObjects on a missing ManagedResource, or deleting one,
  is no error.
- The secrets manager names secrets by a hash of their content, without collisions, and puts its label on
  them; nobody else puts that label on a secret of a shoot's namespace. It signs with the current CA, keeps
  the newest older CA unless the rotation is completing, and on clean-up deletes the secrets it lists by
  namespace and label that the run did not use.
- The Cluster resource of a shoot is cluster-scoped and named after the namespace. A shoot's API server is
  its own. After a migration the map goes on with the namespace's objects on the destination seed, as if
  all seeds had one API server.
- A controller has as many workers as MaxConcurrentReconciles says, and its queue does not hand out a
  namespace that is being processed.
- The gardenlet completes a rotation (drops the old CA) only after a Reconcile or Restore succeeded with the
  new one, or while the extension is not installed. It serialises operations on one Extension, retries a
  started Delete or Migrate or escalates it to ForceDelete, and starts on the destination seed only after
  Migrate succeeded, with the persisted CA keys.
- The DNS names of a Service are the four names in `Rendering.DNSNames`; the name prefix of the
  ServiceMonitor, the lock of the leader election, the network policy labels, the kubeconfig volume and the prefix `shoot-access-` of access
  secrets, which the name of the service account lacks, are those of the gardener and diki-operator libraries.

## Model

| member | source | states |
|---|---|---|
| Safety.CaRotationSafety | pkg/component/dikioperator/dikioperator.go:50-70 | after every step of every run, the certificate named by the stored seed MR, and the one that the live Deployment mounts, are signed by CAs in the bundle of the stored shoot MR |
| Invariant.BundleHoldsSigner | pkg/controller/lifecycle/actuator.go:75-89 | when a run computes its bundle, the signers of the certificates in use, stored or live, are in it, although the rotation may have moved on meanwhile |
| Safety.ReachableInv | pkg/controller/lifecycle/actuator.go:49-173 | the invariant of the protocol, which the statements about segments of runs start from, holds in every reachable state |
| Safety.HealthyShootMeansLiveTrust | pkg/component/dikioperator/dikioperator.go:114 | while the shoot MR is healthy, whatever the state of the seed MR, every object in the shoot trusts the certificate of the live Deployment |
| Safety.HealthyMeansLiveTrust | pkg/component/dikioperator/dikioperator.go:105-114 | when both ManagedResources are healthy, the Deployment and all shoot objects are there, and these trust the certificate that it mounts |
| Safety.NoDanglingSecret | pkg/controller/lifecycle/actuator.go:65-104 | without ForceDelete, the operator access secret and the TLS secret that the live Deployment mounts, and the runner's access secret that its configuration names, exist after every step |
| ForceDeletion.ForceDeleteDangles | pkg/component/dikioperator/dikioperator.go:77-102 | the condition at the call of a ForceDelete under which no step from there on leaves a live Deployment without these secrets, and without which some run does |
| ForceDeletion.DanglesUntilRemoved | pkg/controller/lifecycle/actuator.go:151-167 | when a ForceDelete can return success, these secrets are missing exactly as long as the Deployment is there |
| Safety.TeardownOrder | pkg/component/dikioperator/dikioperator.go:72-103 | without ForceDelete, the operator is withdrawn only when the shoot MR is gone, and in the deletion of an installed extension only when nothing of it is left in the shoot |
| Migration.MigrationContinuity | pkg/controller/lifecycle/actuator.go:141-149 | over any number of reconciliations and migrations, failed and retried, no object leaves the shoot and custom resources change only by their users |
| Migration.MigrateKeepsManagedSecrets | pkg/controller/lifecycle/actuator.go:158-160 | from the start of Migrate to the handover every step leaves the secrets manager's secrets as they are |
| Migration.MigrateRetriesKeep | pkg/controller/lifecycle/actuator.go:141-149 | once keepObjects is set, retries of Migrate give the shoot MR neither a new generation nor new content until it is let go |
| Migration.ForeignSecretsStay | pkg/controller/lifecycle/actuator.go:151-167 | no run adds or removes a secret of others |
| Migration.HandoverCarriesCa | pkg/secrets/config.go:32 | however often Migrate failed, the destination seed starts with exactly the CA keys that the source had when Migrate began, and nothing else of the extension's |
| Convergence.CrashConvergence | pkg/controller/lifecycle/actuator.go:50-105 | whatever attempts failed before at whatever call, a completing Reconcile or Restore ends in one state, a function of the inputs and of the CA keys at the start |
| Convergence.ConvergedTrust | pkg/controller/lifecycle/actuator.go:75-104 | in that state the stored and all live bundles hold the current CA and, only if the rotation is not completing, the newest older CA whose key was stored at the start; exactly the keys of these CAs are kept |
| Convergence.FinishedTrust | pkg/controller/lifecycle/actuator.go:86-104 | when any installation can return success, a CA that it read as to be dropped is in no bundle and its key is gone; besides the current one at most one older CA is trusted |
| Convergence.ReconcileIsIdempotent | pkg/component/dikioperator/dikioperator.go:56-65 | after a completed installation, further attempts with the same inputs leave both ManagedResources with their generations, the shoot objects and the Deployment as they are, at every step |
| Convergence.FinishedInstalls | pkg/controller/lifecycle/actuator.go:96-104 | an installation that can return success is applied and trusted, and owns exactly the secrets in use |
| Convergence.RemovalOutcome | pkg/controller/lifecycle/actuator.go:125-168 | what a successful Delete, ForceDelete or Migrate leaves after any history: ManagedResources gone (forced: at most marked), no access secret, and no other secret of the extension except after Migrate |
| Convergence.DeleteLeavesOrphans | pkg/component/dikioperator/dikioperator.go:77-87 | from the mark on, a successful Delete leaves in the shoot exactly the objects that the shoot MR did not list, or was to keep, when it was marked; nothing if and only if there were none of these |
| Deletion.CleanDelete | pkg/controller/lifecycle/actuator.go:108-168 | whatever attempts failed and whatever stored shoot MR was reconciled in between, from a call under the condition a completing Delete ends in one state, with nothing on the seed and in the shoot |
| Deletion.DeleteLeavesNothing | docs/usage/configuration.md:31 | the condition at the call under which no course of a Delete leaves an object, and without which some course does |
| Deletion.InstalledLeavesNothing | pkg/component/dikioperator/dikioperator.go:56 | the condition holds whenever the last success was an installation |
| Deletion.FailedReconcileLeaves | pkg/component/dikioperator/dikioperator.go:56-66 | a Reconcile that begins without a shoot MR and fails, and then Deletes alone, can leave any object of the shoot MR |
| Convergence.DeleteCompleteness | pkg/controller/lifecycle/actuator.go:108-110 | if the last success was an installation, a successful Delete leaves nothing: no ManagedResource, object, custom resource or secret |
| Witness.ForceDeleteNeedsNobody | pkg/component/dikioperator/dikioperator.go:77-102 | from every state but after a migration, also amid an operation, a ForceDelete completes by its own calls, their number fixed by the number of managed secrets, and changes only the marks and the secrets |
| Progress.CanComplete | pkg/component/dikioperator/dikioperator.go:77-114 | from every state of any operation in flight, its own calls and steps of the resource manager alone can end it with success, with the inputs it read |
| Progress.InstallCompletes | pkg/controller/lifecycle/actuator.go:50-105 | from every state in which a Reconcile may begin, one can succeed and leave all installed |
| Witness.DeleteCanLeaveObjects | pkg/controller/lifecycle/actuator.go:107-173 | from every state without an extension there is a run to a successful Delete with an object left in the shoot |
| LiveTrust.LiveTrustExact | pkg/component/dikioperator/dikioperator.go:56-65 | the condition between operations under which, while no rotation starts, no step of any operation makes the live webhooks distrust the live operator, and without which some run does |
| LiveTrust.RenderedLiveTrustExact | pkg/component/dikioperator/dikioperator.go:163-188 | the same for the rendered shoot objects, whatever the values |
| LiveTrust.InstallMakesSafe | pkg/controller/lifecycle/actuator.go:56-104 | an installation that can return success leaves this condition true if and only if no rotation started since it read the Cluster resource |
| LiveTrust.HealthySafe | pkg/component/dikioperator/dikioperator.go:105-114 | with a healthy shoot MR, the condition holds if and only if the stored bundle holds the current CA |
| LiveTrust.RotationOpensGap | pkg/secrets/config.go:42 | from every state in which a Reconcile may begin, an installation and a rotation can lead to a live certificate that no live webhook trusts |
| Store.CallStaysWithin | pkg/controller/lifecycle/actuator.go:56-167 | on the map of all shoots, a call writes only keys of its namespace, and what it writes and reads there depends only on these |
| SharedSeed.CallRefines | pkg/controller/lifecycle/actuator.go:65-167 | a call on the shared map does to the shoot of its namespace what the protocol says, the bundle being made of the secrets listed by label |
| Workers.NonInterference | pkg/controller/lifecycle/actuator.go:50-200 | in any interleaving on the shared map, the steps of one shoot are possible by the protocol and lead where they lead alone |
| Workers.AnyInterleaving | cmd/gardener-extension-diki/app/options.go:47-49 | an interleaving is possible on the shared map and with five workers if and only if each shoot's own run is, and every operation begins with fewer than five in flight |
| Workers.BoundKept | cmd/gardener-extension-diki/app/options.go:48 | never more than five operations are in flight, and never two on one namespace, because there are five workers and a queue |
| Workers.SharedCaRotationSafety | pkg/component/dikioperator/dikioperator.go:50-70 | for every shoot in the shared map, whatever is interleaved, its certificates are signed by CAs of the bundle stored in the same namespace |
| Workers.SharedFromStart | pkg/controller/lifecycle/actuator.go:36-42 | from the start of the controller on, this, the invariant of every shoot and the bound hold, if each namespace has its Cluster resource and well-labelled secrets |
| Controller.Actuator.Reconcile | pkg/controller/lifecycle/actuator.go:50-105 | takes only legal steps; on success everything is installed, applied and in use; an error means a fault, or two minutes or the parent's deadline passed with a ManagedResource not healthy; waits at most 120 s and never past the parent's deadline |
| Controller.Actuator.ProvideSecrets | pkg/controller/lifecycle/actuator.go:56-89 | access secrets, CA, bundle and certificate in this order, from the cluster read at the start; succeeds if and only if no call fails |
| Controller.Actuator.Delete | pkg/controller/lifecycle/actuator.go:125-168 | takes only legal steps for all three removals; on success what each promises; an error means a fault or, unless forced, a deadline with a ManagedResource still there; waits at most 240 s, forced 0 s; with the clean-up skipped the managed secrets stay even on error |
| Controller.Component.Deploy | pkg/component/dikioperator/dikioperator.go:50-70 | stores the shoot MR, then the seed MR, with the payloads of this run; succeeds if and only if nothing fails |
| Controller.Component.Wait | pkg/component/dikioperator/dikioperator.go:106-114 | seed, then shoot health, both within one deadline of 120 s; gives up no earlier |
| Controller.Component.Destroy | pkg/component/dikioperator/dikioperator.go:77-103 | shoot MR gone, then seed MR deleted and gone, at most 240 s of waiting, giving up no earlier than a deadline; forced, no waiting, and success if and only if no call fails |
| Controller.Client.WaitUntilReady | pkg/component/dikioperator/dikioperator.go:82-89 | polling ends at the deadline at the latest, succeeds only when the condition holds, and without a fault gives up only at the deadline and when it does not |
| Controller.SecretsManager.GenerateAllSecrets | pkg/controller/lifecycle/actuator.go:81-89 | the manager's store is what the run uses; succeeds if and only if no call fails |
| Controller.SecretsManager.Cleanup | pkg/controller/lifecycle/actuator.go:104 | succeeds if and only if no call fails, and then no managed secret outside the store remains |
| BlockScalar.IndentLines | charts/gardener-extension-diki/templates/_helpers.tpl:26 | `indent` indents every line, the empty ones and the one after the last line feed too |
| BlockScalar.OuterRoundTrip | charts/gardener-extension-diki/templates/config.yaml:11-12 | the outer stripped block gives back the printed configuration for every value |
| BlockScalar.ChartRoundTrip | charts/gardener-extension-diki/templates/_helpers.tpl:21-28 | both blocks, read as their headers say, give the value with all but one final line feed removed if it is flush left, and the value itself if and only if it is flush left and ends in at most one line feed |
| Options.DikiOptions.Complete | pkg/cmd/options.go:48-70 | stores the decoded configuration if and only if it can be read, decoded and is valid; an error leaves the stored one |
| Options.Deliver | pkg/cmd/options.go:48-85 | Complete, Apply, newComponent and seedResources in this order: the text of whatever Complete accepts is byte for byte the data of the one base options ConfigMap in the rendered seed objects, which the operator configuration references; without a text neither is there; what is not accepted changes and renders nothing |
| Options.OptionsDelivered | pkg/component/dikioperator/seed_resources.go:121-128 | the text of an accepted configuration is the data of the one base options ConfigMap, which the operator configuration references; without a text there is neither |
| Options.ChartToConfigMap | pkg/controller/lifecycle/actuator.go:181-197 | a flush-left chart value is decoded, accepted and delivered with all but one final line feed removed |
| Options.EmptyChart | charts/gardener-extension-diki/templates/_helpers.tpl:24-27 | without a value the chart decodes to a configuration without base options |
| Options.DeliverChart | charts/gardener-extension-diki/templates/config.yaml:10-12 | from the chart's value, over the file that the controller is told to read, to the rendered objects: a flush-left value is delivered with all but one final line feed removed, and a value is delivered as it is if and only if it is flush left with at most one, or empty |
| Rendering.SeedResources | pkg/component/dikioperator/dikioperator.go:117-161 | the built list is the specified one; the base options ConfigMap is in it if and only if there are base options |
| Rendering.SeedKeysDistinct | pkg/component/dikioperator/dikioperator.go:144-160 | the seed objects have pairwise distinct keys |
| Rendering.ShootKeysDistinct | pkg/component/dikioperator/dikioperator.go:163-188 | the shoot objects have pairwise distinct keys |
| Rendering.CatalogFixed | pkg/component/dikioperator/dikioperator.go:163-188 | the set of objects kept in the shoot does not depend on the values |
| Deployed.ShootInventory | pkg/component/dikioperator/dikioperator_test.go:230-246 | for all values the shoot objects are exactly the roles, bindings, webhook configurations and definitions that the tests expect |
| Deployed.SeedInventory | pkg/component/dikioperator/dikioperator_test.go:169-180 | for all values the seed objects are exactly those that the tests expect, the base options ConfigMap just when there are base options |
| Deployed.WebhookTargets | pkg/component/dikioperator/shoot_resources.go:272-368 | which resources each webhook configuration intercepts and to which URL of this shoot's operator it sends them |
| Deployed.WebhooksDefined | pkg/component/dikioperator/dikioperator.go:184-186 | every resource that a webhook intercepts has its definition among the shoot objects, and the webhook its name |
| Deployed.SeedLabelled | pkg/component/dikioperator/dikioperator.go:191-201 | the seed objects carry the application's label, the monitor the one that the Prometheus of shoots selects, the Deployment the one of a server |
| Deployed.OperatorMayConnect | pkg/component/dikioperator/seed_resources.go:201-204 | the operator's pods carry the labels with which network policies let them reach DNS and both API servers |
| Deployed.OperatorPorts | pkg/component/dikioperator/seed_resources.go:226-242 | the operator serves health, metrics and webhooks on three different ports, all of which its container opens |
| Availability.DefinitionsServed | docs/usage/configuration.md:27 | once the rendered objects are installed, compliance scans, scheduled ones and report outputs can be created |
| Availability.DefinitionsCanBeServed | docs/usage/configuration.md:27 | from every state in which a Reconcile may begin there is a run to such a state |
| Rendering.CatalogHooks | pkg/component/dikioperator/dikioperator.go:177-178 | the webhook configurations, of which the statements about live trust speak, are in this set |
| Rendering.SeedSetsDisjoint | pkg/component/dikioperator/dikioperator.go:117-161 | the seed objects of two components share no key if and only if their namespaces differ |
| Rendering.SeedClosed | pkg/component/dikioperator/seed_resources.go:190-405 | service accounts, ConfigMaps, roles, subjects and scaling targets named by seed objects are rendered with them |
| Rendering.SeedMounts | pkg/component/dikioperator/dikioperator.go:120-123 | the operator's pods mount its ConfigMap and exactly the TLS, the generic kubeconfig and the operator access secret |
| Rendering.SeedWired | pkg/component/dikioperator/seed_resources.go:109-118 | selectors match labels; ports of monitor, Service, container, probes and operator configuration agree |
| Rendering.ShootClosed | pkg/component/dikioperator/shoot_resources.go:49-270 | every bound role is rendered in the scope of its binding; the runner's service account holds the scanner and exporter roles, the operator's the others |
| Rendering.RunnerHasOwnToken | pkg/controller/lifecycle/actuator.go:31-34 | with the names that newComponent passes, the operator mounts the kubeconfig that the runner is told to use, and does not mount the runner's token unless the kubeconfig is in the same secret |
| Deployed.OperatorTokenGrants | pkg/controller/lifecycle/actuator.go:191-192 | the account behind each access secret that the operator mounts holds exactly the operator's cluster role and the role for its lock |
| Deployed.RunnerTokenGrants | pkg/controller/lifecycle/actuator.go:193-194 | the account behind the token that the runner is told to use holds exactly the scanner's and the exporter's roles |
| Deployed.ComponentInSeed | pkg/controller/lifecycle/actuator.go:186-198 | where the arguments of newComponent end up in the seed objects: replicas, certificate, kubeconfig, tokens, namespace, base options |
| Deployed.ComponentInShoot | pkg/controller/lifecycle/actuator.go:196 | the bundle passed to newComponent is in every webhook of the shoot objects |
| Deployed.OperatorFindsFiles | pkg/component/dikioperator/seed_resources.go:222-225 | the files that the operator is started with are in the ConfigMap and secrets that it mounts |
| Deployed.OperatorLocks | pkg/component/dikioperator/seed_resources.go:85-90 | the operator holds the role for leader election in the namespace and under the name of its lock |
| Rendering.WebhooksNameService | pkg/component/dikioperator/shoot_resources.go:272-368 | the host of each webhook URL is among the DNS names of the certificate, and each webhook has the bundle of the values |
| Rendering.ServiceReachesOperator | pkg/component/dikioperator/seed_resources.go:150-176 | the Service takes port 443 to the port that the container opens and the operator configuration serves |
| Rendering.WebhooksReachOperator | pkg/component/dikioperator/shoot_resources.go:272-368 | each webhook URL, at the default port of https, leads through a rendered Service that has its host as a DNS name to a port that the rendered operator opens and is configured to serve |

## Left out

- Controller.Actuator.Reconcile: the payloads of the ManagedResources are reduced to the CA bundle, the certificate and the replicas; their objects are in `Rendering.dfy`.
- Controller.Client.WaitUntilReady: the poll interval of the library is arbitrary, at least one millisecond.
- BlockScalar.ChartRoundTrip: of block scalar headers only those without indentation indicator, keeping and comment are read, and folded scalars are not.
- BlockScalar.ChartRoundTrip: carriage returns and characters that YAML does not print are ordinary characters here; only the line feed breaks lines.
- BlockScalar.ChartRoundTrip: a first line that starts with a tab is flush left by section 8.1; parsers that reject it are stricter.
- Options.ChartToConfigMap: the codec is modelled on the texts that the chart prints; the rest of YAML is not part of this model.
- Rendering.WebhooksNameService: the namespace is assumed to hold neither `/` nor `:`, as every DNS label does.
- The secrets that carry the data of ManagedResources: they are immutable and change together with the reference to them.
- Certificates beyond their signing CA and DNS names, and the bytes of secrets.
- Options.Deliver: the lookup of the image, which can fail before the component is made, is in `Controller.Actuator` only.
- Images, probes' paths, resource quantities, security settings and rule lists of roles: constants without logic.
- Serialisation of objects and of the operator configuration to YAML.
- Command wiring, flags, heartbeat, image vector, generated code and CRD contents.
- That the resource manager, the gardenlet and the diki-operator make progress: only what holds when they act, that their acting can complete an operation, and completion of ForceDelete without them, is stated.
