# Verification of the 3scale operator's reconcile algorithms

The operator drives a mutable outside world, the 3scale remote API and the Kubernetes store, towards what custom
resources ask for. Every pass starts from scratch, every call may fail, and a write that fails may still have taken
effect. This project models the algorithms that carry the operator's promises and proves those promises for all inputs,
all runs and all interleavings.

| files | component |
|---|---|
| `Slices.dfy`, `Decimals.dfy` | optional values, the fate of calls, set operations on string slices, decimal text |
| `MappingRuleKeys.dfy`, `MappingRules.dfy`, `MappingRuleSync.dfy` | the remote list of mapping rules and its synchronisation |
| `Kube.dfy`, `FairRuns.dfy` | the Kubernetes store with an adversarial environment; fair runs with a measure |
| `BackupHistory.dfy`, `BackupProgress.dfy`, `Backup.dfy` | the backup workflow: whole-run safety, termination, the program |
| `RestoreHistory.dfy`, `RestoreProgress.dfy`, `Restore.dfy` | the restore workflow, in the same three parts |
| `Preflights.dfy`, `UpgradeGate.dfy`, `UpgradeStore.dfy`, `Subscription.dfy`, `Instances.dfy` | the upgrade gate between the subscription and the APIManager controllers |
| `NamedItems.dfy`, `NamedSync.dfy` | methods, metrics, backend usages and plans, synchronised by system name |
| `PlanSync.dfy` | limits and pricing rules of a plan |
| `ProductRefs.dfy`, `BackendMetrics.dfy` | references from products to backend metrics |
| `NamedEntries.dfy`, `Deployments.dfy`, `DeploymentMutators.dfy` | named entries in containers, deployment mutators |
| `Tasks.dfy`, `Status.dfy` | the task runner and the APIManager status |

## How the models are built

* **Remote API.** A class holds the remote state. Each call decides its fate: it is answered or it fails, and a failed
  write may or may not have been applied. A constant `reliable` says that no call fails for an outside reason; results
  about success use it, results about safety and restart do not.
* **Backup and restore.** `Kube.Cluster` lets the environment change any object between any two calls and keeps a ghost
  record of every call with its outcome. `Justified` says what must have been seen earlier in the same pass for a call to
  be made; the programs are proved to make only justified calls, and the lemmas of `BackupHistory` and `RestoreHistory`
  are proved of every run of such passes. `Operate` shows that the programs produce such runs.
* **Upgrade gate.** The shared state is an append-only history of events, and the position of a write is the resource
  version it gives. Cached reads may be answered from any earlier state. Between any two calls of a pass every other
  party may append events; the events of other passes satisfy the contracts that each program is proved to keep, so the
  theorems hold of every interleaving, with any number of concurrent passes for APIManagers and one at a time for
  the subscription. The running release is a parameter of each pass, so a history may span operator upgrades. A constant
  `smooth` says that during a pass nobody else acts, reads are current and no call fails; exact outcomes use it, the
  theorems about all histories do not.
* **Termination.** `BackupCompletes` and `RestoreCompletes` speak of infinite runs in which passes alternate with
  environment steps, from a world with one APIManager or from a healthy one; `Pass` proves that an undisturbed pass is
  such a step, which includes that it leaves the world so.

## Findings

Where a promise does not hold of the code as it stands, the code is modelled as it is and the exact condition is proved.

* The comment at `controllers/capabilities/mapping_rules.go:58-76` says that the list is not fetched again during the
  walk; the code fetches it after every step (lines 100-103). The model follows the code. The result is consistent, and
  no update is ever unneeded.
* The mapping rule keys are unambiguous because HTTP methods contain no colon
  (`apis/capabilities/v1beta1/product_types.go:193-201`); `KeyCollision` shows that this is needed.
* `PreflightChecks` confirms requirements that do not hold exactly when the published release and the installed one both
  are, or both are not, the operator's own (`UnverifiedConfirmed`). An instance that is one patch behind its operator is
  always in this situation when the next release is announced (`PatchBehindConfirms`).
* A pass of the subscription controller faults exactly if the service version has no deployment or if it is shown no
  operator condition (`Reconcile`, `Rule`). Requirements that a service version does not mention keep the
  value of an earlier one (`NoLeftovers`).
* A reference of a limit or pricing rule that does not resolve always fails the run, but it does not keep the run from
  writing: when no call fails, nothing is written exactly if a backend is missing (`PlanReconciler.Sync`). A missing
  metric is noticed only when its entry is created, after the undesired entries were deleted. `NothingLeft` and
  `DeletedForNothing` give an input: the remote limit goes, and the one that should replace it is refused.
* The clean-up of references to dropped backend metrics cannot be restarted. A reference to a name that is neither
  desired nor remote survives any number of later runs, however they end, and an error-free run leaves all references
  resolved exactly if none was such when it began (`ReconcileRepeatedly`). An outage of the cluster between the remote
  deletions and the update of the products leaves such references for ever (`OutageKeepsReference`, and `OrphanedLimit`
  for an input). A name that moves between methods and metrics loses references that would still resolve
  (`MovedNamesDropped`).
* The status reconciler compares what it computes with a snapshot from a cache. If the snapshot is not the stored status,
  it can go quiet while the stored status is unavailable, exactly if the snapshot is available, equals what is computed,
  and the stored status is not available (`StatusReconciler.Reconcile`; `QuietOnStaleSnapshot` gives an input).
* Which lists of deployment mutators read a missing container is decided by `BrokenRuns`; the backend list never does.
* Reconciling a named entry achieves the wanted value exactly if there is one or the name occurs at most once
  (`EntryList.Reconcile`).

## Model

| member | source | states |
|---|---|---|
| `StringSlices.ArrayStringDifference` | pkg/helper/slice_string_utils.go:3-17 | the elements of the first slice that the second lacks, in order, without new duplicates |
| `StringSlices.ArrayStringIntersection` | pkg/helper/slice_string_utils.go:19-33 | the elements of the first slice that the second has, in order, without new duplicates |
| `StringSlices.KeysPartition` | controllers/capabilities/methods.go:38-75 | matched, new and undesired keys are disjoint and cover existing and desired keys |
| `Decimals.DecimalRoundTrip` | controllers/capabilities/mapping_rules.go:16-24 | the decimal text of a position determines the position |
| `Decimals.AtoiReadsDecimal` | pkg/apispkg/common/version_compare.go:27-40 | reading decimal text gives the number back exactly when it fits 64 bits |
| `MappingRuleKeys.KeyFixesPosition` | controllers/capabilities/mapping_rules.go:16-24 | equal keys mean equal positions, whatever methods and patterns contain |
| `MappingRuleKeys.KeyInjective` | controllers/capabilities/mapping_rules.go:16-33 | for methods without a colon, keys are equal exactly if method, pattern and position are |
| `MappingRuleKeys.KeyCollision` | apis/capabilities/v1beta1/product_types.go:193-201 | with a colon in the method two different rules share a key |
| `RemoteRules.RuleServer.Delete` | controllers/capabilities/mapping_rules.go:110-118 | remote semantics: deleting closes the gap, a failed call may have been applied |
| `RemoteRules.RuleServer.Create` | controllers/capabilities/mapping_rules.go:189-219 | remote semantics: creating at a position shifts the tail, an omitted last means false |
| `RemoteRules.RuleServer.Update` | controllers/capabilities/mapping_rules.go:134-187 | remote semantics: patches the given attributes, moves the rule only if a position is given |
| `MappingRuleSync.EmbedsSound` | controllers/capabilities/mapping_rules.go:58-76 | the greedy test implies that the rules occur in order among the desired ones |
| `MappingRuleSync.EmbedsComplete` | controllers/capabilities/mapping_rules.go:58-76 | any order-preserving occurrence passes the greedy test |
| `MappingRuleSync.KeptEmbeds` | controllers/capabilities/mapping_rules.go:35-56 | what the deletion phase keeps embeds in the desired list |
| `MappingRuleSync.LookupFixesPosition` | controllers/capabilities/mapping_rules.go:85-92 | a desired key is found exactly if the rule of that route stands at that position, and then that rule is found |
| `MappingRuleSync.DesiredIffInPlace` | controllers/capabilities/mapping_rules.go:35-42 | a remote rule has a desired key exactly if it stands in place |
| `MappingRuleSync.NotDesired` | controllers/capabilities/mapping_rules.go:35-42 | in any map order, exactly the rules out of place are collected, each once |
| `MappingRuleSync.WalkedUpdate` | controllers/capabilities/mapping_rules.go:85-92 | updating in place keeps the walk's invariant |
| `MappingRuleSync.WalkedCreate` | controllers/capabilities/mapping_rules.go:92-99 | creating at the next position keeps the walk's invariant while the tail shifts |
| `MappingRuleSync.WalkedAll` | controllers/capabilities/mapping_rules.go:78-105 | after the last step nothing is left over: the remote list is the desired one |
| `MappingRuleSync.RuleReconciler.GetExistingMappingRules` | controllers/capabilities/mapping_rules.go:120-132 | the index by key describes the remote list completely |
| `MappingRuleSync.RuleReconciler.ProcessNotDesired` | controllers/capabilities/mapping_rules.go:110-118 | exactly the given rules are gone afterwards, in any order of deletion |
| `MappingRuleSync.RuleReconciler.ReconcileMappingRuleWithPosition` | controllers/capabilities/mapping_rules.go:134-187 | the rule matches the spec, no other rule changes, nothing moves, a matching rule is not written |
| `MappingRuleSync.RuleReconciler.CreateNewMappingRuleWithPosition` | controllers/capabilities/mapping_rules.go:189-219 | a matching rule stands at the position; an unknown metric fails without a write |
| `MappingRuleSync.RuleReconciler.DeleteNotDesired` | controllers/capabilities/mapping_rules.go:35-56 | leaves the rules in place, which embed in the desired list, and takes none of them away even if it fails |
| `MappingRuleSync.RuleReconciler.WalkStep` | controllers/capabilities/mapping_rules.go:79-99 | one step extends the matching prefix by one |
| `MappingRuleSync.RuleReconciler.SyncMappingRules` | controllers/capabilities/mapping_rules.go:14-108 | from any remote list an error-free run ends with the desired list; positions never leave a hole; updates never move a rule; a converged list is not written; a reliable run succeeds exactly if all metrics resolve; however the run ends, rules that were in place are still there under their identifiers |
| `MappingRuleSync.RuleReconciler.Walk` | controllers/capabilities/backend_threescale_reconciler.go:459-552 | the same walk, used for backends as well |
| `MappingRuleSync.SyncRepeatedly` | controllers/capabilities/mapping_rules.go:14-108 | however earlier runs failed, the first one without error converges, and no run writes after it |
| `Kube.Cluster.ReconcileResource` | pkg/reconcilers/base_reconciler.go:114-150 | at most one write; an object tagged for deletion is never created; nothing is deleted that was not found; with the create-only mutator a found object is left alone |
| `Kube.ChainExtends` | controllers/apps/apimanagerbackup_logic_reconciler.go:67-90 | a pass that begins with the status left by a run extends it |
| `Kube.FirstTime` | controllers/apps/apimanagerbackup_logic_reconciler.go:129-140 | what holds of the status at the end but not at first began to hold in some pass |
| `FairRuns.EventuallyLower` | controllers/apps/apimanagerbackup_logic_reconciler.go:67-177 | a fair run that is not done reaches a lower measure |
| `FairRuns.EventuallyDone` | controllers/apps/apimanagerbackup_logic_reconciler.go:67-177 | a fair run whose obstacles all go away is done at some time |
| `BackupHistory.JobsDistinct` | pkg/backup/apimanager_backup.go:110 | the three backup steps have different job names |
| `BackupHistory.JobsInOrder` | controllers/apps/apimanagerbackup_logic_reconciler.go:142-177 | in every run, a job is created only after all earlier jobs were seen succeeded in that pass |
| `BackupHistory.JobsEquipped` | controllers/apps/apimanagerbackup_logic_reconciler.go:142-177 | in every run, a job is created only after the claim, the service account, the role and its binding were found, or created, in that pass |
| `BackupHistory.CompletionExplained` | controllers/apps/apimanagerbackup_logic_reconciler.go:91-140 | a completed run has a pass that saw all jobs succeeded and recorded the main steps, with source, start time and claim recorded by then, and a later one that saw all jobs absent |
| `BackupHistory.CompletionAbsorbs` | controllers/apps/apimanagerbackup_logic_reconciler.go:67-90 | after completion the status never changes and no call but reads is made |
| `BackupHistory.MainStepsPersist` | controllers/apps/apimanagerbackup_logic_reconciler.go:129-140 | recorded main steps stay recorded |
| `BackupHistory.NothingCreatedAfterMainSteps` | controllers/apps/apimanagerbackup_logic_reconciler.go:328-358 | once the main steps are recorded nothing is created again, whatever vanishes |
| `BackupProgress.CreationAdvances` | controllers/apps/apimanagerbackup_logic_reconciler.go:203-232 | creating a missing object lowers the measure |
| `BackupProgress.DeletionAdvances` | controllers/apps/apimanagerbackup_logic_reconciler.go:328-358 | requesting a deletion lowers the measure unless it was already requested |
| `BackupProgress.StaysSoleSource` | controllers/apps/apimanagerbackup_logic_reconciler.go:67-177 | in an alternating run the source stays the only APIManager |
| `BackupProgress.BackupCompletes` | controllers/apps/apimanagerbackup_logic_reconciler.go:67-177 | from a world with one APIManager: if jobs eventually succeed and deletions finish, the backup completes |
| `Backup.BackupReconciler.Init` | controllers/apps/apimanagerbackup_logic_reconciler.go:32-61 | the options are present unless the backup has completed, and then nothing is asked for and nothing fails |
| `Backup.BackupReconciler.Reconcile` | controllers/apps/apimanagerbackup_logic_reconciler.go:67-90 | makes only justified calls, never dereferences absent options, does nothing once completed, and undisturbed it makes progress or waits |
| `Backup.BackupReconciler.ReconcileJob` | controllers/apps/apimanagerbackup_logic_reconciler.go:203-232 | creates a job only with the claim and the permissions in place, and goes on only after it was seen succeeded |
| `Backup.BackupReconciler.ReconcileSetMainStepsCompleted` | controllers/apps/apimanagerbackup_logic_reconciler.go:129-140 | records the main steps only with all jobs seen succeeded, and asks to come back |
| `Backup.BackupReconciler.ReconcileJobsCleanup` | controllers/apps/apimanagerbackup_logic_reconciler.go:328-358 | goes on only if all jobs were seen absent |
| `Backup.BackupReconciler.ReconcileBackupCompletion` | controllers/apps/apimanagerbackup_logic_reconciler.go:261-275 | completion is written only with the main steps persisted and all jobs seen absent |
| `Backup.Pass` | controllers/apps/apimanagerbackup_logic_reconciler.go:32-90 | every pass is legal; undisturbed and with one APIManager it keeps it the only one, and lowers the measure, waits, or is done |
| `Backup.Operate` | controllers/apps/apimanagerbackup_logic_reconciler.go:32-90 | successive passes form a run, so the lemmas about runs hold of the program |
| `RestoreHistory.JobsDistinct` | pkg/restore/apimanager_restore.go:95 | the four restore steps have different job names |
| `RestoreHistory.CreationOrder` | controllers/apps/apimanagerrestore_logic_reconciler.go:127-172 | what was seen, earlier in the pass, when each job, the storage claim or the APIManager is created: for the domains job an APIManager with system-sidekiq ready, for claim and APIManager the shared secret with what is created |
| `RestoreHistory.RecordPersists` | controllers/apps/apimanagerrestore_logic_reconciler.go:104-115 | recorded main steps, completion, start time and reference stay recorded |
| `RestoreHistory.CompletionAbsorbs` | controllers/apps/apimanagerrestore_logic_reconciler.go:46-69 | after completion only reads are made |
| `RestoreHistory.NothingCreatedAfterMainSteps` | controllers/apps/apimanagerrestore_logic_reconciler.go:504-535 | once the main steps are recorded nothing is created again |
| `RestoreHistory.SecretNoLongerNeeded` | controllers/apps/apimanagerrestore_logic_reconciler.go:302-336 | the secret is deleted only after the reference is recorded and claim and APIManager were seen; while those survive no later pass fails for lack of it |
| `RestoreHistory.SecretDeletedWhenAvailable` | controllers/apps/apimanagerrestore_logic_reconciler.go:416-459 | in every run the secret is deleted only after the restored APIManager was read in that pass without being unavailable |
| `RestoreHistory.ReferenceOrigin` | controllers/apps/apimanagerrestore_logic_reconciler.go:302-336 | a reference recorded in a run was read from the shared secret in the pass that recorded it |
| `RestoreHistory.CompletionExplained` | controllers/apps/apimanagerrestore_logic_reconciler.go:71-115 | a completed run has a pass that saw all four jobs succeeded, the APIManager with system-sidekiq ready and not unavailable, and the secret absent, and a later one that saw all jobs absent |
| `RestoreProgress.APIManagerCreationAdvances` | controllers/apps/apimanagerrestore_logic_reconciler.go:390-414 | recreating the APIManager lowers the measure |
| `RestoreProgress.SecretDeletionAdvances` | controllers/apps/apimanagerrestore_logic_reconciler.go:416-440 | deleting the secret keeps the world healthy and lowers the measure |
| `RestoreProgress.EnvironmentKeepsCosts` | controllers/apps/apimanagerrestore_logic_reconciler.go:127-172 | what happens between passes never raises the measure, and an obstacle that goes lowers it |
| `RestoreProgress.RestoreCompletes` | controllers/apps/apimanagerrestore_logic_reconciler.go:46-172 | if no obstacle stays for ever, a restore that starts healthy completes |
| `Restore.RestoreReconciler.Reconcile` | controllers/apps/apimanagerrestore_logic_reconciler.go:46-69 | makes only justified calls, does nothing once completed, and undisturbed it makes progress or waits |
| `Restore.RestoreReconciler.ReconcileRestoreFromPVCSource` | controllers/apps/apimanagerrestore_logic_reconciler.go:127-172 | goes on only with everything restored, the APIManager seen ready and not unavailable, and the secret seen absent |
| `Restore.RestoreReconciler.ReconcileJob` | controllers/apps/apimanagerrestore_logic_reconciler.go:186-215 | creates a job only in its turn and with the permissions in place, and goes on only after it was seen succeeded |
| `Restore.RestoreReconciler.ReconcileSystemStoragePVC` | controllers/apps/apimanagerrestore_logic_reconciler.go:226-246 | goes on only with the claim seen present; needs the secret only if it is missing |
| `Restore.RestoreReconciler.ReconcileRestoreAPIManagerInSharedSecret` | controllers/apps/apimanagerrestore_logic_reconciler.go:302-336 | goes on only with the reference recorded |
| `Restore.RestoreReconciler.ReconcileRestoreAPIManager` | controllers/apps/apimanagerrestore_logic_reconciler.go:390-414 | creates the APIManager only if it was seen absent with all data restored, and as the shared secret has it |
| `Restore.RestoreReconciler.ReconcileAPIManagerBackupSharedInSecretCleanup` | controllers/apps/apimanagerrestore_logic_reconciler.go:416-440 | deletes the secret only after everything is restored and the APIManager is not unavailable, and goes on only if it was seen absent |
| `Restore.RestoreReconciler.ReconcileWaitForAPIManagerReady` | controllers/apps/apimanagerrestore_logic_reconciler.go:442-459 | goes on only with the APIManager read and not unavailable; the reference is never absent here |
| `Restore.RestoreReconciler.WaitForSystemSidekiq` | controllers/apps/apimanagerrestore_logic_reconciler.go:476-498 | goes on only with the APIManager read with system-sidekiq among its ready deployments; the reference is never absent here |
| `Restore.RestoreReconciler.ReconcileJobsCleanup` | controllers/apps/apimanagerrestore_logic_reconciler.go:504-535 | goes on only if all jobs were seen absent |
| `Restore.Pass` | controllers/apps/apimanagerrestore_logic_reconciler.go:46-69 | every pass is legal; without a source it is rejected before any call; undisturbed it is a step of a completing run |
| `Restore.Operate` | controllers/apps/apimanagerrestore_logic_reconciler.go:46-69 | successive passes form a run, so the lemmas about runs hold of the program |
| `Preflights.SplitVersion` | pkg/apispkg/common/version_compare.go:27-40 | the parts of a version with three components |
| `Preflights.HopExactly` | pkg/apispkg/common/version_compare.go:9-25 | for versions with minor numbers within 64 bits a multi-minor hop is seen exactly if they are more than one apart; larger numbers cannot be compared |
| `Preflights.DatabasesExternalExactly` | apis/apps/v1alpha1/apimanager_types.go:1212-1250 | the three databases count as external exactly if each is declared so or, without such a declaration, high availability is enabled |
| `Preflights.UpdateKeepsExternal` | apis/apps/v1alpha1/apimanager_types.go:1212-1250 | moving the deprecated field changes no answer about external databases and happens once |
| `Preflights.UnverifiedConfirmed` | controllers/apps/apimanager_controller.go:248-269 | requirements that do not hold are confirmed exactly for these version combinations, and those that hold exactly for external databases |
| `Preflights.PatchBehindConfirms` | controllers/apps/apimanager_controller.go:248-269 | one patch behind, any requirements of another release are confirmed and no minor hop is seen |
| `UpgradeGate.SeenConfigMapOrigin` | controllers/subscription/subscription_controller.go:412-430 | a config map that was read was written at the position that is its version |
| `UpgradeGate.SameVersionSameConfigMap` | apis/apps/v1alpha1/apimanager_types.go:955-961 | two passes that read the same version read the same requirements |
| `UpgradeGate.SameVersionSameInstance` | controllers/apps/apimanager_controller.go:389-403 | an APIManager that kept its version has not changed, so an accepted write hits the judged object |
| `UpgradeGate.ConfirmationOrigin` | controllers/apps/apimanager_controller.go:591-605 | in every interleaving, a confirmation on an APIManager was put there by a preflight pass |
| `UpgradeGate.ConfirmationCovers` | controllers/apps/apimanager_controller.go:190-269 | it confirms exactly the requirements that any pass reads under that version, each of which was checked against the databases of that APIManager before |
| `UpgradeGate.OverrideAuthorised` | controllers/subscription/subscription_controller.go:232-335 | an Upgradeable=True override stems from a pass that saw more than one condition, a blocking one, and at least one APIManager, all confirmed for the requirements it read |
| `UpgradeGate.RulingStored` | controllers/subscription/subscription_controller.go:265-334 | a ruling overrides exactly with a choice of conditions and all APIManagers confirmed; after any other ruling the stored condition is Upgradeable=False without an override; no other condition changes |
| `UpgradeGate.NothingPublishedMeanwhile` | controllers/subscription/subscription_controller.go:164-200 | between a pass's read of the config map and its ruling no config map is written |
| `UpgradeGate.RuledOnCurrentConfigMap` | controllers/subscription/subscription_controller.go:232-283 | if the config map read was the stored one, it still is at the ruling, or it was collected |
| `UpgradeGate.GateHolds` | controllers/apps/apimanager_controller.go:99-163 | defaults and components are reached only with minor versions at most one apart, external databases, and confirmed or at this release |
| `UpgradeGate.ReleaseMovesAfterConfirmation` | controllers/apps/apimanager_controller.go:389-403 | no operator step moves the version annotation before the requirements were confirmed for that very object |
| `UpgradeGate.GateOpens` | controllers/subscription/subscription_controller.go:267-283 | there are histories in which an upgrade is let through |
| `UpgradeStore.Store.Interfere` | controllers/subscription/subscription_controller.go:217-230 | around every call of a pass the other parties may do anything legal |
| `UpgradeStore.StillStored` | controllers/apps/apimanager_status_reconciler.go:66-76 | optimistic concurrency: the object known under the stored version is the stored object |
| `Subscription.NoLeftovers` | controllers/subscription/subscription_controller.go:137-155 | what is published depends on earlier service versions unless all five values are mentioned |
| `Subscription.SubscriptionReconciler.Reconcile` | controllers/subscription/subscription_controller.go:72-200 | a pass publishes the requirements, appends only justified events, faults exactly on a service version without deployments or an empty list of conditions, and finishes only with a ruling on confirmed APIManagers; when all goes well the outcome is determined, and an update of the config map or an empty list of APIManagers ends the pass without a ruling |
| `Subscription.SubscriptionReconciler.ReadAnnotations` | controllers/subscription/subscription_controller.go:137-151 | values that are not mentioned keep their last value |
| `Subscription.SubscriptionReconciler.Publish` | controllers/subscription/subscription_controller.go:157-188 | goes on only if these requirements are published; only an update, not a creation, is reported; when all goes well it writes exactly what differs and keeps the owner unless one is given |
| `Subscription.SubscriptionReconciler.ReconcileOperatorConditions` | controllers/subscription/subscription_controller.go:232-266 | asks to come back at once only for an empty list of APIManagers; otherwise ends with a ruling, an error or a fault |
| `Subscription.SubscriptionReconciler.Rule` | controllers/subscription/subscription_controller.go:265-334 | faults exactly without conditions; finishes exactly on confirmed APIManagers, comes back later on unconfirmed ones; when all goes well it fails exactly if none of several conditions blocks |
| `Subscription.SubscriptionReconciler.AreConfirmed` | controllers/subscription/subscription_controller.go:251-257 | true exactly if every listed APIManager carries that version |
| `Subscription.SubscriptionReconciler.FindBlocking` | controllers/subscription/subscription_controller.go:349-366 | a condition returned has the name of one that was listed as holding the upgrade back, and when all goes well one is returned exactly if there is one |
| `Instances.APIManagerReconciler.Reconcile` | controllers/apps/apimanager_controller.go:76-188 | a pass that confirms requirements ends with that; it completes only by reconciling components to the end past the gate, with the requirements it read confirmed or, for those of the next release, unmet; when all goes well it is stated case by case, from what was stored and what the databases answered, how it ends and what is stored then |
| `Instances.APIManagerReconciler.InstanceRequiresPreflights` | controllers/apps/apimanager_controller.go:552-589 | preflights are skipped only if bypassed or confirmed for the config map read; a pass that can decide finds them impossible exactly for minor versions more than one apart or internal databases; when all goes well all four answers are exact |
| `Instances.APIManagerReconciler.PreflightChecks` | controllers/apps/apimanager_controller.go:190-269 | the verdict is the one on requirements read, and checked against the databases, in this pass; a confirmation is of exactly that version |
| `Instances.APIManagerReconciler.VerifyRequirements` | controllers/apps/apimanager_controller.go:211-240 | every stated requirement is checked against its database and counts as answered, the others hold unasked |
| `Instances.APIManagerReconciler.ReconcileComponents` | controllers/apps/apimanager_controller.go:151-187 | components are reconciled only when no default is left to set; completed only if they finished and the instance is available, as unmet exactly after unmet requirements of the next release |
| `Instances.APIManagerReconciler.SetDefaults` | controllers/apps/apimanager_controller.go:389-403 | writes exactly if a default is missing, and then asks to come back |
| `NamedItems.ItemServer.Create` | controllers/capabilities/methods.go:89-104 | remote semantics: a new identifier, omitted attributes take their defaults, a taken name is refused |
| `NamedItems.ItemServer.Delete` | controllers/capabilities/methods.go:106-114 | remote semantics: what the latest gateway configuration uses is refused for the time being |
| `NamedSync.ChangesMeet` | controllers/capabilities/metrics.go:102-126 | sending the differing attributes makes the item meet the spec, and nothing is sent exactly if it does |
| `NamedSync.CreationMeets` | controllers/capabilities/metrics.go:128-144 | leaving out an empty description still creates an item that meets the spec |
| `NamedSync.ProgressWithin` | controllers/capabilities/methods.go:17-87 | at every moment, remote names were there before or are desired |
| `NamedSync.ProgressDone` | controllers/capabilities/methods.go:17-87 | when all names are handled the remote keys and attributes are the desired ones, and matched items keep their identity |
| `NamedSync.NamedReconciler.UpdateOne` | controllers/capabilities/methods.go:116-136 | handles a matched name, writing exactly if it differs |
| `NamedSync.NamedReconciler.SyncUpdatingFirst` | controllers/capabilities/methods.go:17-87 | for every map order: remote keys equal the spec's, attributes meet it, matched items keep their identity, and nothing is written exactly if that held before; a reliable run succeeds exactly if nothing to delete is in use; if an item in use stops it, all desired items are there and as desired; however it ends only desired names are added |
| `NamedSync.NamedReconciler.ReconcileMatched` | controllers/capabilities/metrics.go:102-126 | handles all matched names and no other |
| `NamedSync.NamedReconciler.SyncBackendUsage` | controllers/capabilities/backend_usages.go:24-105 | the same for usages, deleting first; an unknown existing backend stops the run before any write, and success means that all backends were known |
| `NamedSync.NamedReconciler.SyncApplicationPlans` | controllers/capabilities/application_plans.go:12-92 | the same for plans, which are created under their name and then updated |
| `NamedSync.NamedReconciler.CreatePlan` | controllers/capabilities/application_plans.go:65-90 | creation followed by an update leaves the plan as desired |
| `PlanSync.DeletingLeaves` | controllers/capabilities/application_plan_reconciler.go:147-157 | deleting the undesired entries by identifier leaves exactly the desired ones |
| `PlanSync.ResultHasDesiredKeys` | controllers/capabilities/application_plan_reconciler.go:134-182 | kept entries plus creations computed from the first snapshot have exactly the desired keys |
| `PlanSync.NothingToDo` | controllers/capabilities/application_plan_reconciler.go:134-182 | there is nothing to delete or create exactly if the key sets agree |
| `PlanSync.NewKeysMatter` | controllers/capabilities/application_plan_reconciler.go:306-327 | creations can succeed exactly if every desired key names an existing metric |
| `PlanSync.PlanReconciler.FindMetricID` | controllers/capabilities/application_plan_reconciler.go:306-327 | the identifier of the metric among those of the product or of the backend the reference names, -1 for a missing metric; a failed lookup or, when no call fails, exactly a missing backend is an error |
| `PlanSync.PlanReconciler.ComputeUndesired` | controllers/capabilities/application_plan_reconciler.go:235-269 | the existing entries without a desired key; without failing lookups it fails exactly if a backend is missing |
| `PlanSync.PlanReconciler.ComputeDesired` | controllers/capabilities/application_plan_reconciler.go:271-304 | the desired entries whose key no entry has; without failing lookups it fails exactly if a backend is missing |
| `PlanSync.PlanReconciler.CreateAll` | controllers/capabilities/application_plan_reconciler.go:165-179 | creates up to the first entry whose metric does not exist |
| `PlanSync.PlanReconciler.Sync` | controllers/capabilities/application_plan_reconciler.go:184-233 | after an error-free run an entry is remote exactly if a desired one has its terms and refers to its metric, and it writes exactly if that did not hold before; no run deletes what is wanted or creates what is not; an unresolved reference fails the run; when no call fails such a run writes nothing exactly if a backend is missing, and a run succeeds exactly if all references resolve; what it leaves otherwise |
| `PlanSync.SameKeysWanted` | controllers/capabilities/application_plan_reconciler.go:306-327 | the computed keys are those of the remote entries exactly if all references resolve and just what is wanted is there |
| `PlanSync.KeysMatter` | controllers/capabilities/application_plan_reconciler.go:306-327 | all creations can succeed exactly if every reference is to a metric and all those metrics exist |
| `PlanSync.NothingLeft` | controllers/capabilities/application_plan_reconciler.go:134-182 | an input with a missing metric for which a run leaves none of the remote limits |
| `PlanSync.DeletedForNothing` | controllers/capabilities/application_plan_reconciler.go:134-182 | the run on that input fails and has deleted the limit |
| `ProductRefs.RetainedInOrder` | controllers/capabilities/backend_threescale_reconciler.go:257-268 | the retained entries are picked from increasing positions |
| `ProductRefs.RetainedMembers` | controllers/capabilities/backend_threescale_reconciler.go:257-268 | exactly the entries that do not refer to a dropped metric stay; comparing lengths detects any change |
| `ProductRefs.RemoveReferences` | controllers/capabilities/backend_threescale_reconciler.go:250-304 | all plans are cleaned, and an update is reported exactly if the product changed |
| `ProductRefs.FindBackendBySystemName` | controllers/capabilities/product_controller.go:359-366 | the first position of the name, or none |
| `ProductRefs.CheckAppLimitsExternalRefs` | controllers/capabilities/product_controller.go:287-321 | exactly the faulty limits are reported, with the kind of fault |
| `ProductRefs.CheckAppPricingRulesExternalRefs` | controllers/capabilities/product_controller.go:323-357 | exactly the faulty pricing rules are reported |
| `ProductRefs.ComputeBackendUsageList` | controllers/capabilities/product_controller.go:368-382 | the backends the product uses, in the order of the list |
| `ProductRefs.UsedMembers` | controllers/capabilities/product_controller.go:368-382 | that list has exactly the backends the product uses |
| `BackendMetrics.CleanupResolves` | controllers/capabilities/backend_threescale_reconciler.go:223-304 | after both clean-ups all references resolve exactly if each was to a desired or still present name |
| `BackendMetrics.MovedNamesDropped` | controllers/capabilities/backend_threescale_reconciler.go:175-190 | a reference that still resolves is removed exactly if its name moved between methods and metrics |
| `BackendMetrics.ResolvedReferencesPass` | controllers/capabilities/product_controller.go:287-357 | resolved references pass the checks of the product |
| `BackendMetrics.BackendReconciler.DeleteExternalMetricReferences` | controllers/capabilities/backend_threescale_reconciler.go:223-248 | the products using the backend are cleaned, and exactly those that change are written, each once |
| `BackendMetrics.BackendReconciler.SyncMethods` | controllers/capabilities/backend_threescale_reconciler.go:121-193 | on success methods converge and products are cleaned of exactly the dropped ones; it succeeds when no call fails and nothing to be deleted is in use; however it ends, only desired names are added and only references to dropped ones go; in an outage the deletions are done and the products are not cleaned |
| `BackendMetrics.BackendReconciler.SyncMetrics` | controllers/capabilities/backend_threescale_reconciler.go:328-403 | the same for metrics |
| `BackendMetrics.BackendReconciler.Reconcile` | controllers/capabilities/backend_threescale_reconciler.go:42-59 | all tasks through the task runner, going on after a method in use; after success references resolve exactly under the stated condition; the tasks for methods and metrics succeed when no call fails and nothing to be deleted is in use; after any end only desired names were added and only references to dropped names removed |
| `BackendMetrics.BothRun` | controllers/capabilities/backend_threescale_reconciler.go:121-193 | what the tasks for methods and metrics do together, whether or not each succeeds |
| `BackendMetrics.PartlyCleanedDrops` | controllers/capabilities/backend_threescale_reconciler.go:223-248 | a clean-up cut short removes only references to dropped names |
| `BackendMetrics.DanglingStays` | controllers/capabilities/backend_threescale_reconciler.go:182-190 | a reference to a name neither desired nor remote survives a run and stays so |
| `BackendMetrics.ReconcileRepeatedly` | controllers/capabilities/backend_threescale_reconciler.go:42-59 | it survives any number of runs; after a successful last run references resolve exactly if none dangled at its start |
| `BackendMetrics.OutageKeepsReference` | controllers/capabilities/backend_threescale_reconciler.go:182-190 | after an outage between deletion and clean-up, a reference to a dropped method never goes away |
| `BackendMetrics.OrphanedLimit` | controllers/capabilities/backend_threescale_reconciler.go:182-190 | a backend and a limit for which this happens |
| `NamedEntries.EntryList.Reconcile` | pkg/helper/envvarutils.go:131-164 | other entries keep values and order; the name looks up as desired exactly if wanted or not duplicated; the result is true exactly if the list changed |
| `NamedEntries.EntryList.Ensure` | pkg/helper/envvarutils.go:92-114 | the entry looks up as given, the others keep values and order, true exactly if the list changed |
| `NamedEntries.EntryList.ReconcileNames` | pkg/reconcilers/deployment.go:460-492 | for distinct names: each managed name looks up as desired, the others keep values and order, names stay distinct, true exactly if the list changed |
| `NamedEntries.Find` | pkg/helper/envvarutils.go:83-90 | the first position of the name, or none |
| `NamedEntries.SpliceReconciles` | pkg/reconcilers/deployment.go:540-568 | adding, replacing or removing the first entry reconciles the name |
| `NamedEntries.DeduplicatedDistinct` | pkg/helper/envvarutils.go:116-129 | no name is left twice, every name keeps its first value, and nothing changes exactly for distinct names |
| `NamedEntries.RemoveDuplicateEnvVars` | pkg/helper/envvarutils.go:116-129 | establishes distinct names |
| `Deployments.Establishes` | pkg/reconcilers/deployment.go:73-158 | a mutator that has run needs to change nothing more |
| `Deployments.Preserves` | pkg/reconcilers/deployment.go:73-158 | no mutator undoes another |
| `Deployments.SecondRunStays` | pkg/reconcilers/deployment.go:47-71 | for every list and order of mutators, a run after one without error changes nothing |
| `Deployments.BrokenRuns` | pkg/reconcilers/deployment.go:275-323 | a run reads a missing container exactly if there are too few and a per-container mutator comes before the resources mutator |
| `Deployments.StoppedRuns` | pkg/reconcilers/deployment.go:137-159 | a run that is not broken fails exactly if the resources mutator is listed and not one container is desired |
| `Deployments.GenericBackendSafe` | pkg/reconcilers/deployment.go:73-89 | the backend list never reads a missing container, fails exactly unless one container is desired, and settles every field: one container with the desired args, probes, image, CPU and memory, the desired affinity, tolerations, priority class, topology spread, annotations and labels, the images of init containers; what is not mentioned stays |
| `Deployments.AppliedKeeps` | pkg/reconcilers/deployment.go:137-346 | no mutator of the list touches other keys, other fields of a container that was alone, or surplus init containers |
| `DeploymentMutators.MergeMap` | pkg/helper/object_meta_merger.go:31-42 | desired entries win, others stay, modified exactly if the map changed |
| `DeploymentMutators.Deployment.MutateContainerResources` | pkg/reconcilers/deployment.go:137-159 | forces one container and the desired CPU and memory |
| `DeploymentMutators.Deployment.MutateInitContainerImage` | pkg/reconcilers/deployment.go:325-346 | images agree, missing init containers are appended, surplus ones stay |
| `DeploymentMutators.Deployment.MutateInitContainers` | pkg/reconcilers/deployment.go:348-373 | the init containers are exactly the desired ones |
| `DeploymentMutators.Deployment.Run` | pkg/reconcilers/deployment.go:47-71 | any list of mutators has the stated effect, and reports an update exactly if the deployment changed |
| `DeploymentMutators.Deployment.RunGenericBackend` | pkg/reconcilers/deployment.go:73-89 | total for every deployment; after success all these fields are settled, an update is reported exactly if the deployment changed, and a second run changes nothing |
| `Tasks.TaskRunner.Record` | pkg/helper/task_runner.go:41-52 | an outcome is recorded for the task whose turn it is |
| `Tasks.TaskRunner.Result` | pkg/helper/task_runner.go:53-56 | each result means exactly one kind of run |
| `Tasks.TaskRunner.Run` | pkg/helper/task_runner.go:39-57 | each result means exactly one kind of run: all succeeded, all ran with only deferrable failures, or stopped at the first hard one |
| `Tasks.TaskRunner.AddTask` | pkg/helper/task_runner.go:59-61 | tasks run in the order added |
| `Status.IsRouteReady` | pkg/helper/route.go:43-66 | ready exactly if there are ingresses and all of them admitted the route |
| `Status.CheckRoutesReady` | pkg/helper/route.go:26-41 | exactly the hosts whose first route is missing or not ready are reported |
| `Status.StatusReconciler.DeploymentsAvailable` | controllers/apps/apimanager_status_reconciler.go:154-180 | exactly the expected deployments seen missing, not owned or not available are reported, and available means that there are none |
| `Status.StatusReconciler.WatchedSecretsExist` | controllers/apps/apimanager_status_reconciler.go:424-451 | exactly the watched secrets that could not be read are reported |
| `Status.StatusReconciler.CalculateStatus` | controllers/apps/apimanager_status_reconciler.go:84-143 | while everything may change between the reads: each condition is false exactly if something of its kind was seen down, Available exactly if anything was, and it is true only if everything was seen up |
| `Status.StatusReconciler.ComputedIsActual` | controllers/apps/apimanager_status_reconciler.go:84-143 | what is computed from true answers is what the cluster calls for |
| `Status.StatusReconciler.Reconcile` | controllers/apps/apimanager_status_reconciler.go:45-82 | a written status is the one computed from what was seen; a pass that comes back without a write had an old snapshot; a quiet pass has seen everything up, and goes quiet on an unavailable status only with a snapshot that is available and not the stored one; when nothing interferes and the snapshot is the stored status, the conditions the cluster calls for are stored and the pass comes back exactly if they are not all true |
| `Status.QuietOnStaleSnapshot` | controllers/apps/apimanager_status_reconciler.go:55-62 | a stale snapshot with which a pass goes quiet on an unavailable status though no call fails |

## Left out

Assumptions about the outside world:

- Only the mapping rule, item and plan synchronisers write their remote collections while they run, and the remote API
  stores names, attributes and prices as they are sent.
- In the backup and restore models reads are current and the status is written by its own controller, one pass at a
  time; the upgrade gate allows stale reads.
- `UpgradeGate.RuledOnCurrentConfigMap`: assumes that the read was current, because a stale cache can show an older
  config map.
- In the upgrade gate the confirmation annotation is written by the operator only; users may change everything else.

Parts of the repository:

- `Kube.Cluster.ReconcileResource`: leaves a found object alone, because the workflows pass a mutator that never asks for
  an update; the update branch is not modelled.
- `Backup.Pass`: makes progress only with exactly one APIManager in the namespace, because the program rejects any other
  number.
- `Restore.Pass`: progress is stated for a healthy world, one that still holds what is needed to recreate what is
  missing, because without it the program rightly reports an error for ever.
- Job, claim and role specifications, owner references, times and the job scripts are constant data; only names, presence
  and outcomes are modelled. The branches for absent jobs are omitted because options without a source or destination
  are rejected (`pkg/restore/apimanager_restore_options_provider.go:37-40`,
  `pkg/backup/apimanager_backup_options_provider.go:50-53`).
- What a database answers to the check of a requirement is arbitrary and recorded in the history; how versions of
  databases are compared is not modelled. How the components behind the gate are reconciled, the validation of an
  APIManager and, in `Instances`, the computation of its status are arbitrary outcomes.
- A system name that is taken in another collection, as when a metric becomes a method, is refused remotely; here it is
  one of the calls that fail.
- The config map has one owner instead of a list of owner references.
- `SetDefaults` of the APIManager is one flag apart from the annotations and external components.
- `NamedSync.NamedReconciler.SyncApplicationPlans`: synchronises attributes, with fees as numbers and the publication
  state as a flag; limits and pricing rules are separate collections in `PlanSync`, one pair for each plan.
- `BackendMetrics.BackendReconciler.Reconcile`: the tasks for the backend itself and for its mapping rules have any
  outcome; the latter is the subject of `MappingRuleSync`.
- `Tasks.TaskRunner.Run`: the tasks have any outcome; owners of tasks run the same loop themselves, as
  `BackendReconciler.Reconcile` does.
- `NamedSync.NamedReconciler.SyncBackendUsage`: an item stands under the system name of its backend, so the translation
  between backend identifiers and names is not modelled.
- Existing and desired deployments share slices in the program after an assignment; the model copies values. The mutators
  read here never change a shared slice.
- `DeploymentReplicasMutator` compares pointers, and resource lists ignore pods and ephemeral storage; no claim is made
  about them. `WeakDeploymentContainerVolumeMountsMutator` checks the number of init containers instead of containers.
- The warning, tracing and preflight conditions of the status are an uninterpreted rest.
- OpenAPI translation, proxy, policy and OIDC settings, promotion, web console, accounts, users, tenants and
  applications: wide but shallow, or without a guarantee to state.
