# A verified model of the schema operator

The operator keeps Apache Avro, JSON and Protobuf schemas in an external schema registry in step with
`Schema` custom resources, and reports the health of `SchemaRegistry` resources. Each of its functions is
short. What is hard is how they interleave: cached and therefore stale reads, writes rejected as out of date,
lost answers, users who edit and delete at any moment, a workqueue, crashes, and a registry that other
clients write to as well. This project models the operator as a protocol and proves what holds in every
reachable state of every interleaving.

## How the model is built

| file | what it holds |
|---|---|
| `Kube.dfy` | version histories with a trailing cache, call outcomes, status conditions |
| `Api.dfy` | specifications and the registration request |
| `Admission.dfy` | the two validating webhooks |
| `Registry.dfy` | the external registry as its HTTP clients see it |
| `Auth.dfy`, `WatchIndex.dfy` | reading credentials, and the functions that map events to requests |
| `SchemaKey.dfy`, `SchemaKeyProofs.dfy` | one Schema key: API object, cache, workqueue entry, reconcile in flight |
| `Cluster.dfy`, `ClusterProofs.dfy`, `CallProofs.dfy` | the whole system, its runs and its invariant |
| `Theorems.dfy` | what follows for every reachable state and every run |
| `Versions.dfy` | what can follow what in the version history of a Schema |
| `Abandonment.dfy`, `Ledger.dfy` | what it means that a registration is abandoned; the ledger as the history of a run, and the URLs in it |
| `Acks.dfy` | what the answers to registrations are worth |
| `Deletion.dfy` | exactly when a registration is made for an object that is being deleted |
| `Witnesses.dfy` | concrete runs that show why the theorems are not stronger |
| `Cleanup.dfy`, `CleanupRaces.dfy` | cleanups under crashes, lost answers and stale reads, alone and among other writers |
| `Fixpoint.dfy` | an undisturbed reconcile, and a second one after it |
| `Reconciler.dfy`, `ReconcilerProofs.dfy` | the Schema controller and its client as a class, tied to the protocol call by call |
| `Health.dfy`, `HealthProofs.dfy`, `HealthHistory.dfy`, `HealthReconciler.dfy` | the same for the SchemaRegistry controller |
| `DeepCopy.dfy` | the generated deep copies over a heap with aliasing |

A run is a sequence of actions: a user creates, edits or deletes an object; an event is delivered to the cache
(any number of versions at once); a timer fires; a key is taken from the queue; another client changes a
registry; a second passes; the manager restarts; or a reconcile makes one call. Every `Get`, `Update`, status
update and HTTP request is an action of its own, so everything else can happen between any two of them. A write
or a request ends as `Done`, `Lost` (it took effect, the caller sees an error) or `Refused`.

The class `SchemaReconciler` is the controller's code in its own shape, with local variables edited between
calls. Before each call it lets an arbitrary list of foreign actions happen. Each method is proved to extend the
recorded run by calls of this reconcile and by foreign actions alone, to leave the system where that run leads, and to
store what it promises. So the step function `SchemaKey.Advance`, about which the
theorems are proved, is not a second opinion on the code: the code follows it. `SchemaRegistryReconciler` does
the same for the other controller.

The record of registrations (`ledger`) holds every registration that took effect and whose subject still exists,
tagged with the URL and with the object (name and incarnation) it was made for. `abandoned` is the part of it
that no custom resource answers for any more, and `acks` the registrations whose answers arrived.

## Assumptions

- One manager is active, and one reconcile is in flight per key. A crash is a restart: it forgets the queue, the
  timers and the reconciles, and lists every object again.
- The API server rejects writes with an old resource version; an update without a change makes no new version;
  the generation grows with the specification and with the deletion mark.
- Only the controller writes status and removes its own finalizer. Nobody adds finalizers during deletion.
- The webhooks are on.
- The cache never goes back, also not across restarts, and cached reads fail only with "not found".
- A call does not take effect after it has returned.
- The cache moves on and the event handler marks the affected keys in one action. (In the program the cache moves a
  moment earlier.)
- A registry answers registrations of known content with the existing id, keeps content once per subject, and
  never reuses a version number of a subject.

## What the code does not do

These are results about the code as it is; each has a run or an exact condition.

- After adding the finalizer the controller reads the object again (line 87 of `schema_controller.go`) but does not
  look at the deletion mark again, so it can register a Schema it has just read as being deleted
  (`DeletedSchemaIsRegistered`). `DeletedCopyExactly` and `RegistersDeletedExactly` say exactly when, for one step
  and over every run: only a reconcile that has just added the finalizer can do it. Its key is then queued again.
- `observedGeneration` is read after the registration. A Schema can be Ready for a generation whose text was never
  registered (`ObservedGenerationRunsAhead`). The report is true exactly when the object read again still asks for
  what was posted (`ReportsItsOwnTextExactly`), and always once nothing is pending (`QuietIsSynchronised`).
- The URL of a registry and the registry reference of a Schema may change. A cleanup whose DELETE was answered can
  therefore leave the subject at the old URL (`UrlChangeOrphans`). `CleanRemoval` and `CleanRemovalOverRuns` say
  exactly when nothing is left; a single URL throughout and a cleanup that was not skipped are enough
  (`OneUrlLeavesNothing`).
- `findSchemasForRegistry` ignores the reference's namespace. `Exactness` and `ListExactness` say exactly for which
  references it errs, `CrossNamespaceChangeIsMissed` that such a change is missed, and `QuietlyOutOfDate` that a
  Schema can then stay out of date with nothing pending.
- The version in the status is the subject's newest or 0, not always the one that holds the id (`VersionBound`,
  `OlderContentReportsNewerVersion`).
- The second hop from a Secret to a Schema is the event raised by the registry's status update. `SilentWrites` says
  exactly when that update changes nothing and raises no event: replacing working credentials by other
  working ones within the clock second of the last check is such a case.
- The branches for an object that has vanished when it is read again after the finalizer was seen are never taken
  (`RefetchNeverMisses`).
- The client's comment promises idempotent registration. For the id that holds without exception; for the content it
  holds exactly if a registration took effect after the last deletion of the subject, or the content was there
  and nothing was deleted (`ExactlyOnce`; `DeletionUndoesRegistration` is an input on which it fails).

## Model

| member | source | states |
|---|---|---|
| Theorems.Conservation | internal/controller/schema_controller.go:62-112 | in every reachable state, whatever the operator registered and still exists belongs to a live object that carries the finalizer and names the subject, or is recorded as abandoned |
| Ledger.LedgerIsHistory | internal/controller/schema_controller.go:62-112 | over every run from the beginning the ledger holds exactly the registrations that took effect, answered or not, and whose subject nobody has deleted at that URL since |
| Theorems.AbandonedExactly | internal/controller/schema_controller.go:62-78 | a registration becomes abandoned exactly when the finalizer of its object is removed while it is recorded, and then the cleanup was skipped or went to another URL |
| Abandonment.AbandonedMeansUnattended | internal/controller/schema_controller.go:62-78 | in every reachable state a registration that still exists is abandoned if and only if its object is not there any more with finalizer and subject |
| Ledger.CleanRemoval | internal/controller/schema_controller.go:62-78 | removing a finalizer abandons nothing if and only if every registration of the object that still exists is at the URL the cleanup went to |
| Ledger.CleanRemovalOverRuns | internal/controller/schema_controller.go:62-112 | over every run: it abandons nothing if and only if every registration ever made for the object was followed by a deletion of its subject at its URL |
| Ledger.OneUrlLeavesNothing | internal/controller/schema_controller.go:151-194 | if only one URL has ever been shown for what the object references, a cleanup that was not skipped leaves nothing behind |
| Ledger.RegisteredWhereShown | internal/controller/schema_controller.go:151-182 | every registration is at a URL that a SchemaRegistry referenced by a shown version of the object has been seen with |
| Ledger.CleanedWhereShown | internal/controller/schema_controller.go:184-194 | so is every cleanup that was not skipped |
| Abandonment.AdvanceKeepsUnattended | internal/controller/schema_controller.go:62-90 | no call of a reconcile gives an object back the finalizer it lost while being deleted |
| Theorems.FinalizerBeforeEffect | internal/controller/schema_controller.go:80-108 | at every registration the live API object of the same incarnation carries the finalizer and names the same subject, however stale the copy in hand is |
| Deletion.DeletedCopyExactly | internal/controller/schema_controller.go:80-93 | a reconcile goes on to register a copy marked for deletion if and only if it is at the re-fetch after adding the finalizer and the cache shows the mark there |
| Deletion.RegistersDeletedExactly | internal/controller/schema_controller.go:57-108 | once the cache has shown the deletion of an object, some run still registers for it if and only if a reconcile for it is between adding the finalizer and the registration, and a registry can still be found |
| Theorems.RegisteringDeletedIsRequeued | internal/controller/schema_controller.go:80-90 | whoever registers a copy marked for deletion has its key queued again (the other half is `DeletedCopyExactly`) |
| Deletion.NoRegistrationAfterCleanupBegan | internal/controller/schema_controller.go:62-78 | over every run, once a reconcile has taken the deletion branch for an object, no later step registers for that object |
| Theorems.CleanupSparesLaterObjects | internal/controller/schema_controller.go:184-194 | a cleanup in flight never meets registrations of a later object of the same name |
| Theorems.QuietIsSynchronised | internal/controller/schema_controller.go:92-148 | a live Schema with nothing pending is Ready, observed at its generation, and its id was answered to a request with exactly its current text, type and references, at the URL its registry has now if that is in its own namespace |
| Theorems.CleanupIsPending | internal/controller/schema_controller.go:62-78 | a Schema marked for deletion that still carries the finalizer always has work pending |
| Theorems.RefetchNeverMisses | internal/controller/schema_controller.go:86-126 | a re-fetch always finds the object of the same incarnation |
| Theorems.GenerationChain | internal/controller/schema_controller.go:122-145 | for any two stored versions of one object: observed generations never pass the generation and never go back, Ready=True makes them equal with id, version and time set, and known ids are never erased |
| Versions.EveryVersionIsExplained | internal/controller/schema_controller.go:122-145 | each version ever stored is explained by the one before: a creation with an empty status, an edit that leaves the status alone and counts in the generation, a failure that changes nothing but the Ready condition, or a success reported in full |
| Versions.FailuresKeepTheReport | internal/controller/schema_controller.go:203-211 | from one version to the next, id, version, time, observed generation and every other condition change only in a version whose Ready is True |
| Versions.FailureIsReport | internal/controller/schema_controller.go:203-209 | the failure status differs from the one before in the Ready condition alone |
| Versions.SuccessIsReport | internal/controller/schema_controller.go:128-140 | the success status carries id, version, time and generation, and a Ready condition that names them, and leaves other conditions alone |
| Theorems.IntentIsKept | internal/controller/schema_controller.go:72-83 | the stored specification is the last admitted user write and is valid, and no call of a reconcile changes it |
| Theorems.WebhookNeverBlocks | internal/webhook/v1alpha1/schema_webhook.go:57-87 | the operator's finalizer updates are rejected if and only if they are out of date, never by the webhook |
| Deletion.BarredForEver | internal/controller/schema_controller.go:57-90 | over every run, an object whose deletion was seen and for which nothing that can still register is under way stays so |
| CallProofs.ReachableInv | internal/controller/schema_controller.go:54-149 | the system invariant holds in every reachable state |
| CallProofs.SuccessIsSynchronised | internal/controller/schema_controller.go:122-148 | a final status update after which nothing is pending changed nothing, and the status was right already |
| CallProofs.RemovalAccounts | internal/controller/schema_controller.go:72-76 | the update that removes the finalizer keeps every registration of the object accounted for |
| SchemaKeyProofs.AdvanceKeeps | internal/controller/schema_controller.go:54-149 | every call of a reconcile keeps the key's invariant, whatever the rest of the system answers |
| SchemaKeyProofs.RefetchFindsTheObject | internal/controller/schema_controller.go:124-126 | while a reconcile is in the registration branch, cache and API server both show the object it works on |
| Acks.AnswersStayTrue | internal/client/client.go:126-173 | in every reachable state every answer the operator ever got is what the registry at that URL has on file, and there an id belongs to one request for ever |
| Acks.ReportsItsOwnTextExactly | internal/controller/schema_controller.go:122-140 | a reconcile about to report success has an answer for the text, type and references its status will stand beside if and only if those are what it posted |
| Acks.ReadyIsTrueExactly | internal/controller/schema_controller.go:122-145 | so the stored status says Ready at its generation about a registered text in exactly that case |
| Witnesses.ObservedGenerationRunsAhead | internal/controller/schema_controller.go:122-142 | a run after which a Schema is Ready for its generation although its current text was never registered |
| Witnesses.UrlChangeOrphans | internal/controller/schema_controller.go:184-194 | a run in which the DELETE is answered at the new URL, and after the next call the object is gone and its subject still registered at the old one |
| Witnesses.BecomesQuiet | internal/controller/schema_controller.go:92-148 | from every reachable queued Schema whose registry is known some run leads to quiet, with the specification unchanged |
| Witnesses.QuietlyOutOfDate | internal/controller/schema_controller.go:227-245 | a run after which a Schema that references another namespace is quiet although its registry has moved to a URL at which nothing was ever registered |
| Witnesses.DeletedSchemaIsRegistered | internal/controller/schema_controller.go:80-108 | a run in which the registration is about to be made for a copy marked for deletion |
| CleanupRaces.CleanupConverges | internal/controller/schema_controller.go:63-78 | with users and other controllers editing the object, other keys and other clients at work, crashes, lost answers and stale reads: either the finalizer is still there and the subject is untouched or deleted, or the finalizer is gone and the subject is deleted |
| CleanupRaces.EditDefeatsRemoval | internal/controller/schema_controller.go:72-76 | an edit between the DELETE and the removal of the finalizer defeats the removal, the finalizer stays, and a retry is pending |
| CleanupRaces.CleanupCanFinish | internal/controller/schema_controller.go:63-78 | from every reachable state of a deletion some run removes the finalizer |
| Cleanup.CleanupAlone | internal/controller/schema_controller.go:63-78 | with nobody else writing, object history and registry end in exactly the state one clean run leads to |
| Cleanup.CleanRun | internal/controller/schema_controller.go:63-78 | from every pending deletion the operator's own steps lead to that result |
| Cleanup.ReleaseEffect | internal/controller/schema_controller.go:72-76 | removing the finalizer succeeds once and is rejected as out of date ever after |
| Fixpoint.ReconcileReconciles | internal/controller/schema_controller.go:92-148 | every undisturbed reconcile of a queued Schema (dequeued, then answered calls to the end) has exactly one effect on object, registry and queue |
| Fixpoint.CleanReconcile | internal/controller/schema_controller.go:92-148 | there is such a reconcile for every queued Schema |
| Fixpoint.FixpointExactly | internal/controller/schema_controller.go:99-148 | a reconcile leaves the object unchanged if and only if the status already carries the registry's answers at this clock second, and the registry unchanged if and only if it holds content and level |
| Fixpoint.ReconcileSettles | internal/controller/schema_controller.go:142-148 | after an undisturbed reconcile the key is quiet unless a timer was pending, or the event of its own status update is under way and will queue it again |
| Fixpoint.SecondReconcileIsSilent | internal/controller/schema_controller.go:99-148 | when that event has been delivered, every second undisturbed reconcile in the same clock second changes neither registry nor object, and leaves the key quiet unless a timer was pending |
| Fixpoint.RemoteStaysCurrent | internal/client/client.go:126-173 | registering again what a reconcile left behind changes nothing and answers the same id and version |
| Reconciler.SchemaReconciler.Reconcile | internal/controller/schema_controller.go:54-149 | the run grows by calls of this reconcile and moves of others and by nothing else, to the end of the reconcile; without a requeue the object it found is gone, released from its finalizer, or registered with the live object reporting the answer; with `RequeueAfter` the live object reports the failure; a retry is pending exactly when one is asked for |
| Reconciler.SchemaReconciler.ReconcileDeletion | internal/controller/schema_controller.go:62-78 | success means that the object is stored without the finalizer, or gone; without the finalizer nothing is called at all |
| Reconciler.SchemaReconciler.ReconcileRegistration | internal/controller/schema_controller.go:92-148 | without a requeue a registry seen for this reference answered a request with exactly this object's text, type and references, and the live object reports that answer; with one the failure is reported |
| Reconciler.SchemaReconciler.ReportRegistered | internal/controller/schema_controller.go:122-148 | success means that the live object carries this id and version, a time, its generation and a Ready condition that says so, and is otherwise the object the write replaced; a failed write is retried |
| Reconciler.SchemaReconciler.BuildClient | internal/controller/schema_controller.go:151-182 | the URL is one that the registry referenced by this object has been seen with, and the next call goes there; otherwise the failure report or the skipped cleanup follows; the finalizer stays |
| Reconciler.SchemaReconciler.DeleteFromRegistry | internal/controller/schema_controller.go:184-194 | success means that the subject is gone at the URL of the referenced registry, or that no client could be built; the finalizer stays in any case, and a failure is retried |
| Reconciler.SchemaReconciler.SetConditionFailed | internal/controller/schema_controller.go:196-212 | success means that the live object's Ready condition reports this failure for its generation, and that nothing else of the object changed; a retry is pending in every case |
| Reconciler.SchemaReconciler.Get | internal/controller/schema_controller.go:57-60 | returns what the cache shows and leads to the branch that belongs to it; a re-fetch gets the same object |
| Reconciler.SchemaReconciler.GetSchemaRegistry | internal/controller/schema_controller.go:153-164 | looks up the cached registry under the resolved reference |
| Reconciler.SchemaReconciler.LoadAuthConfig | internal/controller/schema_controller.go:166-169 | the client is built if and only if the credentials could be loaded; otherwise the failure report or the skipped cleanup follows |
| Reconciler.SchemaReconciler.Update | internal/controller/schema_controller.go:72-83 | only the finalizer change that the branch calls for may be sent; it succeeds if and only if it is current and answered, and is then stored as sent; failure ends the reconcile with a retry |
| Reconciler.SchemaReconciler.UpdateStatus | internal/controller/schema_controller.go:142-145 | only the status that the branch calls for may be sent; it succeeds if and only if it is current and answered, and is then stored as sent; the reconcile ends, with a retry exactly after a failure |
| Reconciler.SchemaReconciler.RegisterSchema | internal/client/client.go:126-173 | the id is an answer to this request that the registry has on file, the version is 0 or the newest; a failed registration leads to the failure report, a failed lookup is not fatal |
| Reconciler.SchemaReconciler.PostVersion | internal/client/client.go:144-163 | the registration takes effect unless refused, answered or not; an answer is the id of the content, which the registry then holds |
| Reconciler.SchemaReconciler.GetLatestVersion | internal/client/client.go:165-172 | the version is the newest of the subject if the lookup was answered and there is one, and 0 otherwise |
| Reconciler.SchemaReconciler.SetCompatibility | internal/controller/schema_controller.go:114-120 | succeeds if and only if the request was answered, and then the level is set; failure changes nothing about the way ahead |
| Reconciler.SchemaReconciler.DeleteSubject | internal/client/client.go:204-233 | the deletion takes effect unless refused; success means that the subject is not there, whether or not it was; failure keeps the finalizer and is retried |
| SchemaKeyProofs.FinalizersStored | internal/controller/schema_controller.go:72-83 | what a finalizer update of the operator stores when it is accepted |
| Registry.ExactlyOnce | internal/client/client.go:126-173 | after any attempts with any answers lost and anything other writers do, every answer is one id, the one the content is filed under; the subject holds the content exactly once if a registration took effect after the last deletion or it was there and nothing was deleted, and otherwise not at all |
| Registry.DeletionUndoesRegistration | internal/client/client.go:126-173 | an input on which an answered registration is not held afterwards |
| Registry.RegisterIsIdempotent | internal/client/client.go:126-128 | registering again is a no-op that answers the same id |
| Registry.RunIsMonotone | internal/client/client.go:126-128 | over any run of writers ids are never reassigned, and without deletions a subject's list only grows |
| Registry.VersionBound | internal/client/client.go:156-173 | the version reported is 0 exactly when the lookup failed, otherwise at least the one that holds the content, and equal exactly when the content is the newest |
| Registry.CreatedVersionIsReported | internal/client/client.go:165-172 | when the registration created the version and nobody else used the subject, that version is reported |
| Registry.OlderContentReportsNewerVersion | internal/client/client.go:165-172 | registering older content again reports the newest version, not the one that holds it |
| Registry.DeleteIsIdempotent | internal/client/client.go:204-233 | deleting twice is deleting once, and other subjects are untouched |
| Api.ConvertReferences | internal/controller/schema_controller.go:214-225 | a fresh slice with the converted references in order |
| Api.RequestAsks | internal/controller/schema_controller.go:99-104 | the request is the one, and the only one, with the specification's text, type, and references of equal name, subject and version at each index |
| Api.RequestIdentifies | internal/controller/schema_controller.go:99-104 | two specifications send the same request if and only if text, type and references agree |
| Admission.ValidateSchemaSpec | internal/webhook/v1alpha1/schema_webhook.go:95-150 | accepts exactly the valid specifications and reports every violated clause exactly once, reference by reference |
| Admission.ValidateUpdate | internal/webhook/v1alpha1/schema_webhook.go:57-87 | accepts exactly the valid specifications with unchanged subject and type, and names what it objects to |
| Admission.AdmissionInvariant | internal/webhook/v1alpha1/schema_webhook.go:52-87 | through any chain of accepted writes subject and type stay those of creation and every specification is valid |
| Admission.ValidateRegistrySpec | internal/webhook/v1alpha1/schemaregistry_webhook.go:67-135 | accepts exactly the valid registry specifications and reports every violated clause exactly once |
| Auth.LoadAuthConfig | internal/controller/helpers.go:34-113 | no error if and only if the blocks and Secrets named are there and the certificate parses; then every field is what specification and Secrets say and the others are empty; otherwise the error is the first thing that stands in the way |
| Auth.LoadMeaning | internal/controller/helpers.go:34-113 | the same for the specification function that the index and the controllers are measured against |
| Auth.NonInterference | internal/controller/schemaregistry_controller.go:165-182 | Secret stores that agree on every referenced Secret give the same configuration or the same error |
| Auth.IndexIsTight | internal/controller/schemaregistry_controller.go:165-182 | removing a referenced Secret makes a load that succeeded fail |
| Auth.WebhookRulesOutMissingConfig | internal/webhook/v1alpha1/schemaregistry_webhook.go:86-129 | a load fails for want of a configuration block if and only if the webhook would have reported that block |
| Auth.MakeClient | internal/controller/schema_controller.go:151-182 | the registry under the reference's name, in its namespace or else the Schema's own, lends URL, flag, timeout or else 30, and credentials; failure exactly when it is missing or its credentials cannot be loaded, with that error |
| Auth.BuildClientMeaning | internal/controller/schema_controller.go:151-182 | the same for the specification function that the watch functions are measured against |
| WatchIndex.FindSchemasForRegistry | internal/controller/schema_controller.go:227-245 | returns exactly the keys of the Schemas in the registry's namespace that name it, in list order |
| ClusterProofs.RegistryWakesExactly | internal/controller/schema_controller.go:227-245 | in the protocol a registry's event queues exactly these, as the cache shows them, and changes nothing else |
| WatchIndex.Exactness | internal/controller/schema_controller.go:153-164 | an event selects a Schema exactly when the reference resolves to that registry, except across namespaces, where both kinds of error are characterised |
| WatchIndex.ListExactness | internal/controller/schema_controller.go:227-245 | over a list, selection and resolution agree if and only if no reference crosses namespaces to or past that registry |
| WatchIndex.FindSchemaRegistriesForSecret | internal/controller/schemaregistry_controller.go:145-163 | returns one key for each registry in the Secret's namespace that references it, in list order |
| HealthProofs.SecretWakesExactly | internal/controller/schemaregistry_controller.go:145-163 | in the protocol a Secret's event queues exactly these, as the cache shows them, and changes nothing else |
| WatchIndex.SecretChangeIsCovered | internal/controller/schemaregistry_controller.go:145-182 | a change of a Secret that alters a Schema's client selects its registry, whose event selects the Schema |
| WatchIndex.RegistryChangeIsCovered | internal/controller/schema_controller.go:151-182 | a change of a registry that alters a Schema's client selects the Schema |
| WatchIndex.CrossNamespaceChangeIsMissed | internal/controller/schema_controller.go:227-245 | for a reference across namespaces such a change is missed |
| HealthProofs.NoLostWakeup | internal/controller/schemaregistry_controller.go:60-65 | a SchemaRegistry with nothing pending, itself or among its Secrets, is one whose credentials still cannot be loaded, and its status reports the very thing that stands in the way, for its generation |
| HealthProofs.StatusCoherence | internal/controller/schemaregistry_controller.go:91-143 | in every stored version "Connected" means Ready=True, "Unreachable" means Ready=False, and both directions; never two Ready conditions, and exactly one once there is a connection status |
| HealthHistory.ChecksAreCarried | internal/controller/schemaregistry_controller.go:83-95 | in every run a reconcile about to report a check reports success if and only if its own check was answered |
| HealthHistory.ReportsAreSubstantiated | internal/controller/schemaregistry_controller.go:83-115 | in every run, whatever version says "Connected" was written after a check that was answered, and whatever version says "ConnectionFailed" after one that was not |
| HealthHistory.EveryVersionIsExplained | internal/controller/schemaregistry_controller.go:91-143 | each version ever stored is explained by the one before: a creation with an empty status, an edit that leaves the status alone, a check reported in full, or a failure to load credentials that keeps time and generation of the last check |
| HealthProofs.ErrorTextTells | internal/controller/helpers.go:46-104 | the texts of different errors differ, name the missing block, and end with the name of the missing Secret |
| HealthProofs.OtherConditionsUntouched | internal/controller/schemaregistry_controller.go:91-143 | both write paths leave every other condition alone |
| HealthProofs.SilentWrites | internal/controller/schemaregistry_controller.go:91-143 | exactly when a status update changes nothing and raises no event |
| HealthProofs.ReachableInv | internal/controller/schemaregistry_controller.go:52-143 | the SchemaRegistry system's invariant holds in every reachable state |
| HealthProofs.DeliverSecretKeeps | internal/controller/schemaregistry_controller.go:145-163 | an event of a Secret wakes every registry whose stored knowledge it could falsify |
| HealthReconciler.SchemaRegistryReconciler.Reconcile | internal/controller/schemaregistry_controller.go:52-124 | the run grows by calls of this reconcile and moves of others and by nothing else, to its end; nothing is asked for only if the object has vanished or the live object reports a failure to load credentials, and the periodic check exactly when a check was made and the live object reports it |
| HealthReconciler.SchemaRegistryReconciler.SetConditionFailed | internal/controller/schemaregistry_controller.go:126-143 | success means that the live object reports this failure for its generation, and that nothing but connection status and Ready changed; it is retried only if it could not be written |
| HealthReconciler.SchemaRegistryReconciler.ReportHealth | internal/controller/schemaregistry_controller.go:86-123 | success means that connection status, time, generation and Ready of the live object report this result, and that the rest is as it was; another check is pending whenever the object exists |
| HealthReconciler.SchemaRegistryReconciler.LoadAuthConfig | internal/controller/helpers.go:34-113 | reading two Secrets at two moments yields the outcome of loading from the Secrets as they are now, error or not, unless the key has been queued again |
| HealthReconciler.SchemaRegistryReconciler.HealthCheck | internal/client/client.go:102-124 | no error if and only if the last action of the run is this request and it was answered; leads to the re-fetch with that error |
| HealthReconciler.SchemaRegistryReconciler.Get | internal/controller/schemaregistry_controller.go:86-89 | returns what the cache shows and leads to the branch that belongs to it; a vanished object ends the reconcile without a retry |
| HealthReconciler.SchemaRegistryReconciler.UpdateStatus | internal/controller/schemaregistry_controller.go:117-123 | only the status that the branch calls for may be sent; it succeeds if and only if the object in hand is still the live one and the write is answered, and is then stored as sent; a retry follows a failed write, and a health report in any case |
| DeepCopy.SchemaDeepCopyInto | api/v1alpha1/zz_generated.deepcopy.go:103-110 | equal value with nil and empty kept apart, every part fresh, nothing but the target changed |
| DeepCopy.SchemaDeepCopy | api/v1alpha1/zz_generated.deepcopy.go:112-120 | nil for nil, otherwise a fresh object of equal value with fresh parts, nothing changed |
| DeepCopy.CopySpec | api/v1alpha1/zz_generated.deepcopy.go:297-306 | equal value with a fresh reference array, nil only for nil |
| DeepCopy.CopyStatus | api/v1alpha1/zz_generated.deepcopy.go:318-342 | equal value with fresh pointers and conditions; id and version never share a cell |
| DeepCopy.CopyItems | api/v1alpha1/zz_generated.deepcopy.go:134-141 | equal items in order in a fresh array; copied items share nothing with each other, whatever the originals share |
| DeepCopy.ListDeepCopy | api/v1alpha1/zz_generated.deepcopy.go:130-152 | the same for a whole list, with a nil item slice kept nil |
| DeepCopy.CopyAuth | api/v1alpha1/zz_generated.deepcopy.go:28-46 | equal value with fresh configuration blocks |
| DeepCopy.CopyRegistrySpec | api/v1alpha1/zz_generated.deepcopy.go:251-259 | equal value with a fresh credentials block and fresh blocks inside it |
| DeepCopy.CopyRegistryStatus | api/v1alpha1/zz_generated.deepcopy.go:271-285 | equal value with fresh time and conditions |
| DeepCopy.RegistryDeepCopy | api/v1alpha1/zz_generated.deepcopy.go:177-194 | nil for nil, otherwise fresh down to the blocks the credentials point to |
| DeepCopy.SchemaViewTells | api/v1alpha1/zz_generated.deepcopy.go:103-110 | equal views mean agreement field by field |
| DeepCopy.MetaViewTells | api/v1alpha1/zz_generated.deepcopy.go:103-110 | for the metadata: every field, pointer by pointer and element by element, nil only with nil |
| DeepCopy.SpecViewTells | api/v1alpha1/zz_generated.deepcopy.go:297-306 | for the specification: every field, references element by element |
| DeepCopy.StatusViewTells | api/v1alpha1/zz_generated.deepcopy.go:318-342 | for the status: every pointer and every condition |
| DeepCopy.ListViewTells | api/v1alpha1/zz_generated.deepcopy.go:130-142 | for a list: item by item |
| DeepCopy.AuthViewTells | api/v1alpha1/zz_generated.deepcopy.go:28-46 | for the credentials: block by block |
| DeepCopy.RegistryViewTells | api/v1alpha1/zz_generated.deepcopy.go:177-194 | for a SchemaRegistry: every field, down to the credentials |
| DeepCopy.SetRegistered | internal/controller/schema_controller.go:124-140 | editing the status of a copy through its pointers leaves the cached object as it was and gives the copy exactly the new status |
| DeepCopy.ShallowCopyLeaks | internal/controller/schema_controller.go:134-140 | on a shallow copy the same edit shows through the original |
| DeepCopy.SetConditionInPlace | internal/controller/schema_controller.go:134-140 | the array is overwritten in place exactly when the kind is found, and the result is the list the rest of the model works with |
| Kube.SetStatusConditionMeaning | internal/controller/schema_controller.go:134-140 | the condition set is the one found, it keeps its transition time exactly while the status stays, its kind occurs once, and other kinds are untouched |
| Kube.SetStatusConditionIdempotent | internal/controller/schema_controller.go:134-140 | setting a condition changes nothing if and only if it is there already up to its transition time |

## Left out

- HTTP transport, status codes other than 404 on deletion, JSON encoding and TLS setup: each endpoint is an operation on an abstract registry with an outcome.
- `json.Valid` and `tls.X509KeyPair`: parameters of the model. Pools of CA certificates, which ignore what they cannot parse, are kept as text.
- `NewClient` and its failure path (`ClientCreateFailed`): the constructor never returns an error. Request headers and TLS fields are not modelled.
- The outcome of loading credentials in the Schema system: left open as any outcome at any time, which includes what Secrets can cause. It is modelled exactly in `Auth.dfy` and in the SchemaRegistry system.
- Soft and permanent deletion of subjects, and the meaning of compatibility levels: decided by the external registry. A registration that it rejects is a refused call.
- Whether acknowledged content is still in the registry: other clients may delete it, and so does the cleanup of another Schema that names the same subject at the same URL. The ledger then drops the entries of both.
- Finalizers in the protocol are a set; their order and duplicates are only kept in `DeepCopy.dfy`.
- Integer widths of ids, versions and generations: unbounded.
- Interior pointers: `DeepCopyInto` of a nested struct returns the struct instead of writing into the outer one. `SchemaRegistryList`, which repeats `SchemaList`, and the one-field blocks' own copy functions are not repeated.
- Finalizers and deletion marks of SchemaRegistry objects: the controller does not look at them; a SchemaRegistry disappears at once.
- Error texts that come from libraries, and the text of a failed health check, which is one fixed string.
- Retry intervals and back-off: only whether a retry is pending.
- Liveness beyond pending work: no fairness of the queue or the network is assumed, so that a retry is pending is shown, not that it happens.
- `cmd/main.go`, the setup functions, RBAC, logging and configuration files.
- Auth.IndexIsTight: says nothing of a reference with an empty name, which the webhook rejects except for the CA Secret, where it means that none is read.
- Witnesses.UrlChangeOrphans: one run; the exact condition is `Ledger.CleanRemoval`.
- CleanupRaces.CleanupConverges: for runs in which the reference and the URL behind it stay, nobody else touches the subject at that URL, the name is not reused and credentials can be loaded. Without that a cleanup can be skipped or miss, and `Ledger.CleanRemoval` says what is left.
- Cleanup.CleanupAlone: for runs without other writers, since it names the exact final state; with them `CleanupRaces.CleanupConverges` applies.
