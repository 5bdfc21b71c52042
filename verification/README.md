# Naiserator, modelled in Dafny

Naiserator is a Kubernetes operator. It takes Application and Naisjob resources ("workloads"), generates the objects
each of them needs, applies these to the cluster one after the other, removes what is no longer wanted, and watches
the rollout until it is complete. This project models the parts of it in which something can go subtly wrong, and
proves what they promise.

| module | what it models |
|---|---|
| Cluster, Updater | An API server as a map of objects with versions, owners and immutable fields; the five operations as client calls, any of which can fail |
| Sync, SyncLaws | Planning (garbage collection by label and owner uid) and running a rollout, stopping at the first error; frame, garbage collection, write-once data |
| Convergence | Applying the same rollout twice |
| ReconcileMachine, ReconcileSafety, HashGating, Reconciler | The reconcile loop as a state machine in which reconcilers of different workloads, users and monitors interleave between commits and other single steps; its invariants over all runs; the loop itself as a class that is proved to take only steps of the machine, and to end as it says |
| Monitoring | Rollout monitors: the lock-protected map and the goroutines as atomic steps |
| Events, Completion | Kubernetes events with counters, and how a monitor announces that a rollout is complete |
| Deepcomp | The comparator behind the golden tests, on JSON trees |
| IngressPath, IngressPathLaws | HAProxy paths for literal and regular-expression paths, with a semantics of both |
| IngressClasses, Ingress, Annotations | Domains to ingress classes, rules to ingresses, nginx annotations to HAProxy annotations |
| NetworkPolicy | Access policies and ingress classes to network policies, with Kubernetes' reading of these |
| Otel | The OpenTelemetry environment |
| Strings, Wrappers | Splitting, joining and trimming; optional values |

Code that updates state is a class or a method, proved against a function or predicate; the laws are lemmas about
these. Faults, the moves of others, and values such as generated operations, hashes, parsed URLs and fitted names are
arbitrary parameters.

Where the code falls short of what its documentation or its tests suggest, the exact condition is proved:

- Exact comparison finds a difference whenever there is one, but does not report all of them: `Deepcomp.ExtraKeyReportedIff`.
- A second Sync may fail, or change annotations: `Convergence.SecondSyncSucceedsIff`, `Convergence.SyncConvergesIff`, `Convergence.AnnotateThenCreate`.
- A monitor is recognised by the first 32 bits of its id: `Monitoring.EndingCancelsIff`, `Monitoring.CollisionCancelsSuccessor`.
- The gauge of monitored rollouts is written by the synchronizers of both kinds, each with the size of its own map:
  `Monitoring.GaugeIsTotalIff`, `Monitoring.GaugeMissesAnother`.
- Completion can be announced more than once, because the completion state is passed by value: `Completion.AnnouncedOnceIff`,
  `Completion.AnnouncedTwice`.
- An event can be duplicated if a list call answers "not found": `Events.StaysUniqueIff`.
- HAProxy does not admit every request that the regular expression of an ingress matches: the literal start may have a
  dot or be cut by a quantifier (`IngressPath.StrippedAdmitsIff`, `IngressPath.CutAdmitsIff`,
  `IngressPathLaws.OptionalRestAgreesIff`, `IngressPathLaws.ExactPairAgreesIff`, `IngressPathLaws.LiteralPathAgreesIff`),
  and with capture groups in the rewrite target the expression is handed on as a literal path, which no ordinary request
  is below (`IngressPath.CapturesRefuse`, `IngressPathLaws.CapturesLose`).
- Wildcards are understood in inbound rules but not in outbound ones: `NetworkPolicy.EgressRulesFromAccessPolicy`.

## Model

| member | source | states |
|---|---|---|
| ReconcileSafety.IamNeverOrphaned | pkg/synchronizer/synchronizer.go:200-225 | With CNRM on, in every state of every run in which reconcilers of all workloads, users and monitors interleave commit by commit, each IAMServiceAccount or IAMPolicy in the serviceaccounts namespace belongs (by its app and team labels) to an Application or Naisjob that is still there and carries the finalizer |
| ReconcileSafety.RunKeeps | pkg/synchronizer/synchronizer.go:132-371 | The inductive invariant behind it holds over every run: IAM resources are held by a guarded workload whose clean-up, if under way, will still delete them; every reconciler past its start works on a guarded workload; what it is still going to commit labels IAM resources as the workload's own |
| ReconcileSafety.StepKeeps | pkg/synchronizer/synchronizer.go:132-371 | Every step of a reconciler, of a user and of a monitor keeps that invariant |
| ReconcileSafety.DeleteStepKeeps | pkg/synchronizer/synchronizer.go:347-368 | Deleting one listed IAM resource, or moving on when none is left, loses track of no IAM resource |
| ReconcileSafety.ReleaseStepKeeps | pkg/synchronizer/synchronizer.go:310-314 | The finalizer goes only when no IAM resource of the workload is left, or it stays |
| ReconcileSafety.CommitStepKeeps | pkg/synchronizer/synchronizer.go:441-458 | One commit of a rollout creates IAM resources only under a workload that its finalizer keeps in the cluster |
| ReconcileSafety.ClaimStepKeeps | pkg/synchronizer/synchronizer.go:214-223 | Setting the finalizer on the version that was read guards the workload |
| ReconcileSafety.SafePlan | pkg/synchronizer/synchronizer.go:523-580 | Every commit list drawn up from a generated rollout deletes IAM resources or labels them as the workload's own |
| HashGating.StoredHashIsEarned | pkg/synchronizer/synchronizer.go:243-283 | Over every run the stored hash of a workload, told by its uid from earlier ones of its name, is one it started out with or one for which a Sync of this very workload succeeded or failed other than by a conflict: conflicts, failed lookups, failed preparation and failed generation never store it |
| HashGating.UnfinishedIsNeverSkipped | pkg/synchronizer/synchronizer.go:498-500 | In every run a workload is not skipped, once its image is known, while no Sync of its own for its current spec has come to an end and it did not start out with that hash; also after being deleted and created anew |
| HashGating.SkippedIff | pkg/synchronizer/externalimage.go:38-57 | A look ends a reconcile as skipped exactly when the stored hash is that of the spec and the wanted image is the effective one, or none is in effect and the spec names one; the wanted image is the spec's, or that of the Image of the same namespace and name |
| HashGating.StepCarries | pkg/synchronizer/synchronizer.go:227-283 | In one step copies stay tied to the workload they were read from, and a hash moves only from the stored status of the same uid, from the copy, or from a Sync of that uid that has just ended other than by a conflict |
| HashGating.CreatedAnew | pkg/synchronizer/synchronizer.go:498-500 | A workload created anew has no hash, no Sync in the history and no copy in anyone's hands |
| HashGating.StepKeepsPast | pkg/synchronizer/synchronizer.go:132-294 | Uids are handed out by a clock that every step keeps ahead of them |
| ReconcileMachine.RunExtends | pkg/synchronizer/synchronizer.go:132-294 | Runs are closed under taking one more enabled step, and their worlds are what the step makes of the last one |
| Reconciler.Operator.Reconcile | pkg/synchronizer/synchronizer.go:132-294 | With others interfering between any two steps, each ending says what was done, and a workload is skipped exactly when its stored hash is its spec's and the wanted image is the one in effect, or none is in effect while the spec names one. With sound calls the status left says how it ended: its state, its hash (a conflict keeps the old one) and the wanted image. When others hold still as well, the state it began in decides everything: a deleting workload loses exactly its IAM resources, its image and the finalizer; one without the finalizer gets just that; a skip changes nothing; and a rollout leaves what running its planned commits makes of the server, and no other workload touched |
| Reconciler.Operator.RollOut | pkg/synchronizer/synchronizer.go:227-294 | What is done with a live workload that carries the finalizer: exactly when it is skipped, by hash, image in effect and image wanted; which ending it comes to otherwise and which status that stores; when a monitor is started; and, undisturbed, that the server is what the planned commits make of it |
| Reconciler.Operator.AlwaysSafe | pkg/synchronizer/synchronizer.go:296-371 | In every state the imperative operator can get into, no IAM resource is orphaned |
| Reconciler.Operator.CleanUpAfterDeletion | pkg/synchronizer/synchronizer.go:296-316 | Ends clean only after exactly these steps: accounts listed and deleted one by one, policies likewise, the image removed, the finalizer taken off; then no IAM resource of the workload is left unless its twin of the other kind holds it. Undisturbed it always ends clean: of the server's objects exactly the workload's service accounts and policies are gone, of the images its own, and of the workload the finalizer |
| Reconciler.Operator.DeleteListed | pkg/synchronizer/synchronizer.go:323-371 | One list and one delete for each object listed; undisturbed exactly the labelled objects of that kind are gone and all others as they were |
| Reconciler.Operator.ListLabelled | pkg/synchronizer/synchronizer.go:323-366 | Lists exactly the service accounts, or the policies, in the namespace serviceaccounts with the workload's name as app and its namespace as team label |
| Reconciler.Operator.DeleteImageResource | pkg/synchronizer/synchronizer.go:374-398 | When it returns ok the image beside the workload is gone; it fails only if a call does |
| Reconciler.Operator.RemoveFinalizer | pkg/synchronizer/synchronizer.go:310-314 | When it returns ok the workload is gone or without the finalizer; on the version that was read, with sound calls, it returns ok |
| Reconciler.Operator.AddFinalizer | pkg/synchronizer/synchronizer.go:213-223 | When it says so the workload carries the finalizer, besides those it had and with nothing else changed when undisturbed; on the version that was read, with sound calls, it does |
| Reconciler.Operator.Prepare | pkg/synchronizer/synchronizer.go:468-521 | Skips exactly when the stored hash is that of the spec and the wanted image is the one in effect, or none is in effect yet and the spec names one; otherwise fails or goes on with the generated operations, with the wanted image noted in the copy as soon as it is known and nothing else changed. The wanted image is the spec's, or the one stored beside the workload |
| Reconciler.Operator.GetWantedImage | pkg/synchronizer/externalimage.go:22-57 | The image of the spec, or the one stored beside the workload; none exactly when the spec names none and the stored one is missing or cannot be read |
| Reconciler.Operator.DrawUpCommits | pkg/synchronizer/synchronizer.go:523-580 | The commits are a plan for the rollout on the server as it is then, a complete one when no list call fails |
| Reconciler.Operator.Sync | pkg/synchronizer/synchronizer.go:441-463 | Runs the planned commits with others acting between them; an entry of the history says how it ended; the copy's status gets the state and the hash that go with it, the old hash on a conflict; undisturbed, server and outcome are those of running the plan under the faults it met, which are none when all calls are sound |
| Reconciler.Operator.UpdateResource | pkg/synchronizer/synchronizer.go:155-188 | With sound calls the newest version of the workload gets the status of the copy, and the team label, and keeps all else; otherwise the one step taken says how much was written: nothing, or the label alone |
| Reconciler.Operator.Interfere | pkg/synchronizer/synchronizer.go:132-294 | Whatever users, monitors and the reconcilers of other workloads do meanwhile, the reconciler's own activity is left alone |
| Updater.AssertValidOwnerReference | updater/updater.go:228-262 | Accepts exactly an owner of the same kind and name on both sides, or no owners at all in a postgres namespace |
| Updater.Merge | updater/updater.go:285-369 | The manifest stored over an existing object keeps every field that is immutable for its kind; what else it holds is in Updater.MergeStores |
| Updater.MergeStores | updater/updater.go:204-369 | Labels and data are the new ones; so are annotations but for state-into-spec on CNRM kinds, which stays if it was set; cluster IP and resource id are the stored ones exactly for services and the five kinds with a resource id; owners stay once there are any |
| Updater.UpdateStores | updater/updater.go:61-107 | An update that succeeds stores the labels and data it carries, its annotations apart from how a CNRM object is merged into its spec, and the fields that are not immutable for the kind; the object keeps its uid, its owners if any, and what is immutable |
| Updater.OthersStore | updater/updater.go:26-59 | What the other operations leave when they succeed: the carried object under a new uid; the old object, or else the carried one; none; the old object with the given annotations over its own |
| Updater.CommitSucceedsIff | updater/updater.go:61-107 | When no call fails, CreateOrUpdate succeeds exactly when its namespace exists and the object is missing, or shares an owner of the same kind and name with the update, or the update has no owners in a postgres namespace; the other operations always succeed, an unknown one never |
| Updater.FailureLeaves | updater/updater.go:109-142 | A commit that fails changes nothing, but that CreateOrRecreate may have deleted the old object |
| Updater.CopyImmutable | updater/updater.go:310-369 | Keeps the cluster IP of services and the resource id and merge annotation of CNRM kinds; labels and data are the new ones |
| SyncLaws.IdentitySurvives | updater/updater.go:204-369 | Through any commits that neither recreate nor delete an object, wherever they fail, it keeps its uid, its owner references once it has any, the fields that are immutable for its kind, and, unless annotated otherwise, how a CNRM object is merged into its spec |
| Updater.RunCreateOrUpdate | updater/updater.go:61-107 | The client calls do what the commit function says, whichever call fails; on success the stored labels and data are the ones given |
| Updater.RunCreateOrRecreate | updater/updater.go:109-142 | Same, also when it fails between the delete and the create; an error of the read in between loses its kind |
| Updater.RunCreateIfNotExists | updater/updater.go:144-153 | Same; an existing object is no error |
| Updater.RunDeleteIfExists | updater/updater.go:155-164 | Same; a missing object is no error |
| Updater.RunAnnotateIfExists | updater/updater.go:26-59 | Same; a missing object is no error |
| Updater.Run | pkg/synchronizer/synchronizer.go:540-556 | Each of the five operations, and an unknown one, as one commit |
| Updater.CommitFrame | updater/updater.go:26-164 | A commit that succeeds, or fails at any call, touches only the object it names |
| Updater.ForeignObjectKept | updater/updater.go:26-107 | CreateOrUpdate keeps an object without a matching owner, CreateIfNotExists keeps every object, AnnotateIfExists alters annotations only |
| Sync.FindAll | updater/updater.go:167-198 | Finds exactly the objects of listed kinds with the app label and an owner reference to the source's uid |
| Sync.WithOwnerReference | updater/updater.go:371-395 | Keeps exactly the objects with an owner reference to the uid |
| Sync.FindUnreferenced | pkg/synchronizer/synchronizer.go:400-439 | Exactly the objects of listed kinds that carry the source's name as app label, have an owner with its uid, and have the kind and name of no operation |
| Sync.ClusterOperations | pkg/synchronizer/synchronizer.go:523-580 | Deletes of exactly those objects, each of them, and then the operations in order; or a list that fails before anything is touched |
| Sync.RolloutWithRetry | pkg/synchronizer/synchronizer.go:441-458 | Runs commits in order up to the first error; a retry exactly on a conflict |
| Sync.FailureStops | pkg/synchronizer/synchronizer.go:441-458 | Commits after the first error have no effect, whatever they are |
| Sync.Sync | pkg/synchronizer/synchronizer.go:460-463 | A plan for the server it starts on, run to its outcome; when the list calls answer, the plan deletes every obsolete object and no other |
| SyncLaws.SyncFrame | pkg/synchronizer/synchronizer.go:441-580 | A Sync, wherever it stops, leaves alone every object it does not name, unless that is listed, labelled, owned by uid and has no operation of the same kind and name |
| SyncLaws.SyncKeepsForeign | updater/updater.go:228-262 | An object that no operation may take over keeps identity, owners, labels and data through every Sync, and a rollout that tries to overwrite it fails |
| SyncLaws.GarbageCollected | pkg/synchronizer/synchronizer.go:400-439 | After a successful Sync the objects whose kind and name no operation has are those from before, unchanged, less exactly those of a listed kind with the source's name as app label and an owner with its uid |
| SyncLaws.WrittenHolds | updater/updater.go:61-142 | After a successful Sync an object holds the labels and data of the last operation that updated or recreated it, whatever was stored before, and its annotations but for those set later and state-into-spec on CNRM kinds; cluster IP and resource id as well where the kind does not fix them |
| SyncLaws.DeletedIsGone | updater/updater.go:155-164 | After a successful Sync an object is gone that an operation deleted and no later one wrote |
| SyncLaws.SuccessfulPlan | pkg/synchronizer/synchronizer.go:441-580 | A successful Sync ran all its deletes, and its operations from the server that the deletes left |
| SyncLaws.WriteOnce | updater/updater.go:144-153 | Over any run of Syncs that name an object only through CreateIfNotExists and AnnotateIfExists, with whatever fresh values and wherever they fail, its identity and data stay |
| SyncLaws.FirstCreationStays | updater/updater.go:144-153 | Over any run of Syncs from a server without the object, as long as rollouts name it only through CreateIfNotExists and AnnotateIfExists: it is there exactly when some creation ran, and then is what the first such creation stored, annotations apart |
| SyncLaws.CreationDecides | updater/updater.go:144-153 | The same for one run of commits |
| SyncLaws.RunSplit | pkg/synchronizer/synchronizer.go:441-458 | Running two lists one after the other is running their concatenation |
| SyncLaws.StepAt | pkg/synchronizer/synchronizer.go:441-458 | In a successful run every commit succeeded on what the ones before it left |
| Convergence.SyncConvergesIff | updater/updater.go:61-107 | For rollouts with one writer for each object and repeatable updates, a second Sync changes no manifest exactly when, for each object that was missing and created by CreateIfNotExists, every annotation set before the creation is set again after it or created so |
| Convergence.IdentitiesConverge | updater/updater.go:109-142 | The second Sync gives no object a new identity but those that are recreated |
| Convergence.FoldTwiceIff | updater/updater.go:26-164 | The same for one object and its operations alone |
| Convergence.SecondSyncSucceedsIff | updater/updater.go:228-262 | The second Sync of a rollout with one writer for each object succeeds exactly when each CreateOrUpdate carries an owner or lives in a postgres namespace |
| Convergence.RepeatableRuns | updater/updater.go:61-107 | Repeatable updates are accepted again |
| Convergence.RunFolds | updater/updater.go:26-164 | After a successful run each object is what its own operations, in order, make of it |
| Convergence.UpdatedTwice | updater/updater.go:310-369 | An update between annotations, applied again, changes nothing |
| Convergence.AnnotateThenCreate | updater/updater.go:26-59 | Annotating just before creating settles in one Sync, on a server without the object, exactly when the creation sets the annotations anyway |
| Convergence.SecondPlan | pkg/synchronizer/synchronizer.go:523-580 | The second Sync finds nothing to collect |
| Convergence.UnrepeatableFails | updater/updater.go:228-262 | An ownerless update outside postgres namespaces makes the second run fail |
| Monitoring.MonitorSafety | pkg/synchronizer/monitoring.go:47-90 | Over all interleavings of starts and ends: one live monitor at most for each workload, a live one is the registered one from its registration on, and the gauge is the number of registered workloads of the kind, each kind having a map of its own, whose map changed last |
| Monitoring.GaugeIsTotalIff | pkg/synchronizer/synchronizer.go:64-83 | The gauge shows all registered monitors exactly when none is of another kind than the one whose map changed last |
| Monitoring.GaugeMissesAnother | pkg/synchronizer/monitoring.go:59-64 | With one Application and one Naisjob monitored the gauge shows fewer than there are |
| Monitoring.EndingCancelsIff | pkg/synchronizer/monitoring.go:66-90 | In any run, a goroutine that comes to its end cancels and removes the monitor registered in its place exactly when both ids share their first 32 bits |
| Monitoring.RemovesAnotherIff | pkg/synchronizer/monitoring.go:82-89 | A finishing monitor removes another one's entry exactly when both ids share their first 32 bits |
| Monitoring.CancelledOnlyByOwn | pkg/synchronizer/monitoring.go:73-90 | With distinct prefixes a live monitor is cancelled only by its own end or by a newer start for its workload |
| Monitoring.CollisionCancelsSuccessor | pkg/synchronizer/monitoring.go:82-89 | A run in which two ids share a prefix and the older monitor cancels the newer one |
| Monitoring.StepKeeps | pkg/synchronizer/monitoring.go:47-90 | Every critical section and every end of a goroutine keeps the invariant |
| Monitoring.Monitors.CancelMonitor | pkg/synchronizer/monitoring.go:73-90 | The critical section: cancels and removes what is registered, unless a different monitor was expected |
| Monitoring.Monitors.MonitorRollout | pkg/synchronizer/monitoring.go:47-64 | Whatever else happens meanwhile, a start ends with its own fresh monitor registered and watching |
| Monitoring.Monitors.MonitorRoutine | pkg/synchronizer/monitoring.go:66-71 | Whatever else happens meanwhile, a goroutine ends cancelled and with no entry of its own left |
| Events.Recorder.ReportEvent | pkg/synchronizer/synchronizer.go:92-119 | Creates an event, or raises the count of the stored one with the same object and message; failed calls change nothing |
| Events.ReportMeans | pkg/synchronizer/synchronizer.go:92-119 | A successful report raises the count of the first stored event with the same object and message and gives it the new time and annotations; without one, or when the list answers "not found", it stores the event as it is; a failed call stores nothing |
| Events.StaysUniqueIff | pkg/synchronizer/synchronizer.go:92-119 | One event for each object and message is kept by a report exactly unless the list call answered "not found" although one was stored |
| Events.CountsOnce | pkg/synchronizer/synchronizer.go:92-119 | A successful report raises the total count of its subject by one and no other, a failed one changes nothing |
| Events.LogTellsTheRun | pkg/synchronizer/synchronizer.go:92-119 | After any run of reports each subject reported with success has one event; it counts those reports and carries the time and annotations of the last |
| Completion.Monitor.CompleteRollout | pkg/synchronizer/monitoring.go:179-210 | One attempt: the event first, the status only after it was saved; nothing is remembered for the next attempt |
| Completion.Monitor.MonitorRolloutRoutine | pkg/synchronizer/monitoring.go:93-177 | The routine over any ticks: its actions, the event log and the status it leaves |
| Completion.CompletesOnce | pkg/synchronizer/monitoring.go:179-210 | RolloutComplete is written at most once, as the last action, and right after an event saved in the same attempt |
| Completion.SavedEvents | pkg/synchronizer/monitoring.go:179-210 | There are as many saved events as status writes, failed ones included |
| Completion.AnnouncedOnceIff | pkg/synchronizer/monitoring.go:106-112 | At most one event is saved exactly when at most one tick in the life of the monitor finds the workload ready and the event calls sound; once completed, exactly when no earlier such tick failed to write the status |
| Completion.SavedOn | pkg/synchronizer/monitoring.go:93-125 | One saved event for each such tick, and completion when the status write succeeds too |
| Completion.AnnouncedTwice | pkg/synchronizer/monitoring.go:179-210 | One failed status write makes two announcements |
| Completion.CountersAgree | pkg/synchronizer/monitoring.go:179-187 | The count in the cluster grows by the events the routine saved |
| Deepcomp.SubsetIsEmbedding | pkg/test/deepcomp/deepcomp.go:85-121 | For trees of any size the differences without extra fields are none exactly when the expected tree embeds in the actual one |
| Deepcomp.GreedyIsComplete | pkg/test/deepcomp/deepcomp.go:85-121 | The one-pass search finds a place for the remaining elements exactly when some increasing placement exists |
| Deepcomp.TakeFirstMatch | pkg/test/deepcomp/deepcomp.go:95-103 | Exchange argument: taking the first match, or passing over what does not match, loses no placement |
| Deepcomp.ExactIsEquality | pkg/test/deepcomp/deepcomp.go:38-81 | No exact differences exactly when the trees are equal, although extra keys are only looked for when the sizes differ |
| Deepcomp.ExactReportsIff | pkg/test/deepcomp/deepcomp.go:57-213 | A difference is reported at a place exactly when both trees have that place and the subtrees there are of other kinds (types differ), are unequal scalars of one kind (values differ) or are arrays of other lengths (missing or extra field); or when the place is a key that only one of two objects has, which as an extra field takes objects of other sizes |
| Deepcomp.SubsetReportsIff | pkg/test/deepcomp/deepcomp.go:26-213 | Extra fields aside, a subset comparison reports a difference at a place exactly when that is reached through keys alone and holds subtrees of other kinds, unequal scalars or an array that does not embed, or is a key that the actual object lacks |
| Deepcomp.ExtraKeyReportedIff | pkg/test/deepcomp/deepcomp.go:190-204 | An unexpected key is reported exactly when the two objects differ in size |
| Deepcomp.PathsExtend | pkg/test/deepcomp/deepcomp.go:125-213 | Every difference is located at or below the place compared |
| Deepcomp.EmbedsReflexive | pkg/test/deepcomp/deepcomp.go:83-85 | Subset matching is reflexive |
| Deepcomp.EmbedsTransitive | pkg/test/deepcomp/deepcomp.go:83-85 | Subset matching is transitive |
| Deepcomp.EmbedsAntisymmetric | pkg/test/deepcomp/deepcomp.go:83-85 | Trees that embed in each other are equal |
| Deepcomp.ExactImpliesSubset | pkg/test/deepcomp/deepcomp.go:12-29 | What passes as exact passes as a subset |
| Deepcomp.Filter | pkg/test/deepcomp/diffset.go:55-63 | Keeps every difference of the other types, in order |
| Deepcomp.DeepValueEqual | pkg/test/deepcomp/deepcomp.go:125-213 | The recursive comparator reports exactly the differences of its specification, each once; of exact comparison, those of Deepcomp.ExactReportsIff |
| Deepcomp.MapEqual | pkg/test/deepcomp/deepcomp.go:167-204 | Same for objects |
| Deepcomp.CompareExpectedKeys | pkg/test/deepcomp/deepcomp.go:174-189 | Same for the expected keys, in any order of the map |
| Deepcomp.FindExtraKeys | pkg/test/deepcomp/deepcomp.go:193-204 | Same for keys that were not expected |
| Deepcomp.SubsliceEqual | pkg/test/deepcomp/deepcomp.go:57-81 | Arrays compared element by element: a difference is reported exactly where the elements at an index of both differ, and one at the array itself exactly when the lengths do, a missing field if the expected one is longer |
| Deepcomp.SubsliceSubset | pkg/test/deepcomp/deepcomp.go:85-121 | Same for the ordered search in arrays |
| Deepcomp.Exact | pkg/test/deepcomp/deepcomp.go:38-45 | Reports exactly the differences of Deepcomp.ExactReportsIff, each once; none exactly for equal trees |
| Deepcomp.Subset | pkg/test/deepcomp/deepcomp.go:26-29 | Reports exactly the differences of Deepcomp.SubsetReportsIff, each once; none exactly for an expected tree that embeds |
| Deepcomp.Compare | pkg/test/deepcomp/deepcomp.go:12-23 | The two modes |
| IngressPath.StrippedAdmitsIff | pkg/resourcecreator/ingress/path.go:29-79 | For every expression without top-level alternation whose literal start is not cut by a quantifier, and every rewrite target: its matches start with that text. Without capture groups in the target HAProxy admits a match exactly when the text ends in a slash, is the whole request, or is followed by a slash; with them, exactly when the request is at or below the expression taken literally |
| IngressPath.CutAdmitsIff | pkg/resourcecreator/ingress/path.go:29-38 | When a quantifier may drop the last character of the literal start: all but that character starts the match, and HAProxy asks for all of it, a slash apart |
| IngressPath.CapturesRefuse | pkg/resourcecreator/ingress/path.go:66-69 | With capture groups in the rewrite target an expression admits no request free of metacharacters |
| IngressPath.CapturedMeans | pkg/resourcecreator/ingress/path.go:66-69 | With capture groups the path admits what is at or below its own text |
| IngressPath.LiteralStartIsMatched | pkg/resourcecreator/ingress/path.go:26-38 | Whatever an expression matches starts with the literal text before its first metacharacter |
| IngressPathLaws.GroupBelowIsCovered | pkg/resourcecreator/ingress/path.go:26-79 | An expression that goes on from literal/ with a group loses no request without capture groups in the rewrite target, and with them every request free of metacharacters |
| IngressPathLaws.CapturesLose | pkg/resourcecreator/ingress/path.go:54-69 | For literal/(.*) with capture groups every request below the literal and free of metacharacters is matched, and refused |
| IngressPathLaws.CapturesLoseFoo | pkg/resourcecreator/ingress/path.go:54-69 | The same at /foo/(.*) and /$1 |
| IngressPathLaws.NginxStrippedAdmitsIff | pkg/resourcecreator/ingress/ingress.go:225-229 | What the nginx ingress of an expression matches, with the suffix it gets, HAProxy admits on the same terms |
| IngressPathLaws.NginxPairAgreesIff | pkg/resourcecreator/ingress/ingress.go:225-229 | Behind an exact pair the nginx suffix adds nothing, so the two Exact paths agree with nginx under the same conditions |
| IngressPathLaws.NginxOptionalRestAgreesIff | pkg/resourcecreator/ingress/ingress.go:225-229 | The same behind the optional rest |
| IngressPathLaws.LiteralPathAgreesIff | pkg/resourcecreator/ingress/ingress.go:225-233 | The nginx and the HAProxy ingress of a literal path admit the same requests exactly when the path has no dot |
| IngressPathLaws.OptionalRestAgreesIff | pkg/resourcecreator/ingress/path.go:66-79 | literal(/.*)? keeps its meaning exactly when the literal has no dot and the rewrite target no capture groups |
| IngressPathLaws.EndOrDeeperAgreesIff | pkg/resourcecreator/ingress/path.go:66-79 | A literal followed by the group of end-of-line, or a slash and more, means together with literal/ what HAProxy gets, exactly under the same conditions |
| IngressPathLaws.ExactPairAgreesIff | pkg/resourcecreator/ingress/path.go:42-79 | A literal followed by the group of end-of-line or one slash, in either spelling, means the two Exact paths exactly when the literal has no dot and no slash at its end and the rewrite target no capture groups |
| IngressPathLaws.OptionalCharacterIsLost | pkg/resourcecreator/ingress/path.go:26-38 | A character made optional by ? loses the requests without it, whatever the rewrite target |
| IngressPath.PrefixMeans | pkg/resourcecreator/ingress/path.go:63-79 | Matching a Prefix path element by element is: the path itself, or the path, a slash and anything |
| IngressPath.StrippedMeans | pkg/resourcecreator/ingress/path.go:66-79 | A stripped path admits what is at or below the text before the first metacharacter |
| IngressPath.MetacharactersAre | pkg/resourcecreator/ingress/path.go:11-38 | A path is an expression for any of thirteen characters; stripping stops at the first of them or at a dot |
| IngressPath.ExactPairIff | pkg/resourcecreator/ingress/path.go:42-53 | An exact pair is told by its ending in either spelling, behind a literal that is not empty without its last slashes and has no metacharacter |
| IngressPathLaws.PairPaths | pkg/resourcecreator/ingress/path.go:71-76 | The two Exact paths of an exact pair, for either spelling |
| IngressPathLaws.Plain | pkg/resourcecreator/ingress/path.go:13-19 | A literal as an expression is spelled as the literal |
| Otel.OtelAttributes | pkg/resourcecreator/observability/observability.go:58-85 | Puts the destinations in order, in place, and the platform's attributes before the user's |
| Otel.SortedInOrder | pkg/resourcecreator/observability/observability.go:67-70 | Sorting puts the destinations in order |
| Otel.OtelFilterEnvVars | pkg/resourcecreator/observability/observability.go:87-99 | Drops the five OTEL variables and keeps the rest in order |
| Otel.OtelEnvVars | pkg/resourcecreator/observability/observability.go:101-124 | The whole treatment, the caller's destinations sorted on the way |
| Otel.IdempotentIff | pkg/resourcecreator/observability/observability.go:101-124 | A second treatment changes nothing exactly when neither the name nor the namespace nor the joined destinations have a well-formed attribute behind a comma |
| Otel.AttributesSurvive | pkg/resourcecreator/observability/observability.go:58-85 | Without commas in name, namespace and destinations the value splits into service.name, service.namespace, nais.backend if there are destinations, and then the user's attributes in order, each with one '=' and a key that is none of these; and a second treatment changes nothing |
| Otel.KeepsIff | pkg/resourcecreator/observability/observability.go:73-82 | A user's attribute is kept exactly when it has one '=' and its key is none of the three reserved ones |
| Otel.KeptInOrder | pkg/resourcecreator/observability/observability.go:75-80 | Of a value exactly those parts are kept, in order |
| Otel.UserAttributesInOrder | pkg/resourcecreator/observability/observability.go:73-82 | The user's attributes come from the resource attribute variables alone, in the order of the environment |
| Otel.FilteredInOrder | pkg/resourcecreator/observability/observability.go:87-99 | All other variables are kept, in order |
| Otel.AtMostIff | pkg/resourcecreator/observability/observability.go:67-70 | The order of destinations is that of their characters |
| Otel.DecimalMeans | pkg/resourcecreator/observability/observability.go:50-56 | A port is written in decimal digits without leading zeros, which read back as the port |
| Otel.AttributesSplit | pkg/resourcecreator/observability/observability.go:73-82 | Splitting the value always ends in the user's attributes, in order |
| Otel.PlatformWins | pkg/resourcecreator/observability/observability.go:87-124 | Each of the five OTEL variables occurs once: the workload's name, its attributes, the collector's endpoint by scheme, service, namespace and port, its protocol, and insecure exactly without TLS; all other variables occur and read as before |
| Otel.OrderDoesNotMatter | pkg/resourcecreator/observability/observability.go:67-70 | The result does not depend on the order of the destinations |
| Otel.SortedMembers | pkg/resourcecreator/observability/observability.go:67-70 | Sorting keeps every destination, with multiplicity |
| IngressClasses.GetIngressClasses | pkg/generators/config.go:66-93 | The two passes compute the specification |
| IngressClasses.UnusableIff | pkg/generators/config.go:85-90 | An error exactly when no configured suffix matches, the empty suffix included |
| IngressClasses.LongestSuffixWins | pkg/generators/config.go:66-93 | In the order of the configuration, exactly the classes of the longest matching suffix |
| IngressClasses.SelectedIff | pkg/generators/config.go:66-93 | A class is returned exactly when it is configured for the longest suffix that matches |
| IngressClasses.ClassesInOrder | pkg/generators/config.go:77-83 | The classes of a suffix come in the order of the configuration |
| IngressClasses.LongestIsUnique | pkg/generators/config.go:69-75 | There is one longest matching suffix |
| IngressClasses.OrderIndependent | pkg/generators/config.go:66-93 | As a multiset, and in whether it fails, the result does not depend on the order of the configuration |
| Ingress.CreateIngresses | pkg/resourcecreator/ingress/ingress.go:193-238 | Fails exactly when some URL is not a secure one with a proper host and a configured suffix, or selects a class that is served and whose ingress cannot be named. Otherwise there is an ingress for a class exactly when some URL selects it and, for HAProxy classes, HAProxy is enabled; it is named after workload and class, annotated in the manner of its class, and holds its rules |
| Ingress.AddRules | pkg/resourcecreator/ingress/ingress.go:196-235 | The loop body for one URL adds that URL's rules and fails when it must |
| Ingress.CreateIngress | pkg/resourcecreator/ingress/ingress.go:185-191 | A new ingress of a class: its name, its annotations, no rules |
| Ingress.ParseMeans | pkg/resourcecreator/ingress/ingress.go:75-92 | A URL is accepted exactly when it is readable, https, and has a host that is valid; it keeps everything but the slashes at the end of its path |
| Ingress.RuleMeans | pkg/resourcecreator/ingress/ingress.go:55-73 | The rule is for the URL's host; HAProxy classes, known by their ending, get HAProxy's paths for the user's rewrite target, others one path, with what is below it unless it is the root |
| Ingress.DistributionIsExact | pkg/resourcecreator/ingress/ingress.go:193-238 | The rules of a class are, URL by URL in the order of the spec, those of the URLs whose host selects it, as often as it does; HAProxy classes only when enabled |
| Ingress.SelectedIffRules | pkg/resourcecreator/ingress/ingress.go:207-222 | A class has rules exactly when some URL selects it |
| Ingress.RulesAgreeIff | pkg/resourcecreator/ingress/ingress.go:55-73 | The nginx and the HAProxy rule of one URL are for its host, and for a literal path they admit the same requests exactly when it has no dot |
| NetworkPolicy.NetpolSpec | pkg/resourcecreator/networkpolicy/networkpolicy.go:53-83 | For every pod: who may call the workload and whom it may call, exactly, on all ports. For every address and ports: egress reaches exactly the Aiven range, if set, and the API server, if there is leader election, on all ports, and each external with an address and no host, as a /32 on its own ports. No rule is without peers, and ingress names pods only |
| NetworkPolicy.IngressRulesFromAccessPolicy | pkg/resourcecreator/networkpolicy/networkpolicy.go:227-264 | Admits a pod exactly when some rule for this cluster names it; never an empty peer list |
| NetworkPolicy.EgressRulesFromAccessPolicy | pkg/resourcecreator/networkpolicy/networkpolicy.go:85-140 | Admits a pod exactly when some rule for this cluster, neither wildcard nor empty, names it; reaches an address on given ports exactly when an external has that address, no host and those ports |
| NetworkPolicy.IngressRulesFromIngress | pkg/resourcecreator/networkpolicy/networkpolicy.go:177-208 | One rule for each class each readable URL selects |
| NetworkPolicy.UrlsMean | pkg/resourcecreator/networkpolicy/networkpolicy.go:177-208 | Lets in the controllers of exactly the classes that are configured for the longest suffix matching the host of some readable URL |
| NetworkPolicy.IngressClassesAreLetIn | pkg/resourcecreator/networkpolicy/networkpolicy.go:177-208 | Every class that got an ingress has its controllers let in |
| NetworkPolicy.InboundMeans | pkg/resourcecreator/networkpolicy/networkpolicy.go:240-253 | A peer admits the pods its rule names, with * and no namespace as read there |
| NetworkPolicy.OutboundMeans | pkg/resourcecreator/networkpolicy/networkpolicy.go:98-104 | A peer admits the pods its rule names |
| NetworkPolicy.DefaultsMean | pkg/resourcecreator/networkpolicy/networkpolicy.go:210-225 | The default rules admit Prometheus, Alloy and, outbound, DNS |
| Annotations.AnnotationMap.MigrateNginxAnnotationsToHAProxyAnnotations | pkg/resourcecreator/ingress/annotations.go:41-70 | The map afterwards is a function of the map before and the source, in whatever order keys come |
| Annotations.AnnotationMap.CopyHAProxyAnnotations | pkg/resourcecreator/ingress/annotations.go:17-31 | Same; the user's snippet goes before the one already there |
| Annotations.AnnotationMap.CopyNginxAnnotations | pkg/resourcecreator/ingress/annotations.go:33-39 | Same |
| Annotations.MigrationMeans | pkg/resourcecreator/ingress/annotations.go:41-116 | After migration each of the five counterparts is there exactly when the user set its nginx annotation, with that value, timeouts in seconds; the three rate-limit annotations exactly for a limit; a path rewrite exactly for a relative rewrite target; and the two redirect annotations exactly for an absolute one that names a host alone |
| Annotations.BlocksAsked | pkg/resourcecreator/ingress/annotations.go:84-147 | There is a rewrite block exactly for an absolute target that says more than a host, and a whitelist block exactly when some range is left |
| Annotations.BlocksRead | pkg/resourcecreator/ingress/annotations.go:130-165 | The text of the two blocks |
| Annotations.TrimMeans | pkg/resourcecreator/ingress/annotations.go:124-129 | What is trimmed off a range is white space on both sides, and all of it |
| Annotations.RangesInOrder | pkg/resourcecreator/ingress/annotations.go:118-132 | The ranges come in the order of the list, each trimmed, the empty ones left out |
| Annotations.PlainStays | pkg/resourcecreator/ingress/annotations.go:155-157 | Text in which no query argument starts stays as it is |
| Annotations.ArgumentRewritten | pkg/resourcecreator/ingress/annotations.go:155-157 | A query argument, its name as long as can be, becomes a url_param with that name, and what follows is rewritten likewise |
| Annotations.AnnotationMap.MigrateRewriteTarget | pkg/resourcecreator/ingress/annotations.go:84-116 | A path rewrite, a host redirect or a snippet, in the cases of the source |
| Annotations.AnnotationMap.MigrateWhitelistSourceRange | pkg/resourcecreator/ingress/annotations.go:118-147 | The whitelist block behind what is there, unless no range is left |
| Annotations.RowsStep | pkg/resourcecreator/ingress/annotations.go:54-65 | One nginx annotation more changes at most its own counterpart |
| Annotations.HaproxyResult | pkg/resourcecreator/ingress/ingress.go:123-133 | Explicit haproxy.org annotations win; nothing outside the prefix is touched; the snippet is exactly the user's text, the rewrite block and the whitelist block, in that order |
| Annotations.CapturesRewritten | pkg/resourcecreator/ingress/annotations.go:150-152 | Only the dollar signs of capture groups change, and no capture group is left |
| Annotations.CreateHaproxyAnnotations | pkg/resourcecreator/ingress/ingress.go:123-133 | Migrated annotations first, then the user's own |
| Annotations.NginxResult | pkg/resourcecreator/ingress/ingress.go:135-157 | The user's nginx annotations survive, except that regular expressions are always on and the protocol is the service's; nothing else is touched |

## Left out

- Convergence.SyncConvergesIff: is about rollouts with at most one writer for each object, none beside a delete, and without AnnotateIfExists of the CNRM merge annotation on CNRM objects; for others only the effect on each object is given, by `Convergence.RunFolds`.
- HashGating.StoredHashIsEarned: at the start no reconciler is under way, and a workload with a stored hash carries the finalizer or is being deleted.
- ReconcileSafety.IamNeverOrphaned: users do not strip the finalizer by hand, and neither create nor relabel IAM resources in the serviceaccounts namespace, though they may delete them; generated IAM resources carry the app and team labels of `resource.CreateObjectMeta`.
- Updater.RunCreateOrRecreate: deletes take effect at once, so the poll for the old object and its timeout are one read.
- Updater.AssertValidOwnerReference: a nil list of owners and an empty one are the same here; the source tells them apart, but its generators never build the latter.
- IngressPathLaws.LiteralPathAgreesIff: expressions match whole paths; nginx's unanchored, case-insensitive matching is not modelled, so neither is the root path, which nginx takes as a prefix of everything.
- IngressPath.StrippedAdmitsIff: counted repetition, character ranges and escape classes such as \d are not among the expressions; requests have no line breaks.
- Monitoring.MonitorSafety: starts for one workload do not overlap, which the work queue guarantees.
- Completion.CountersAgree: no one else reports the same event while the monitor runs.
- Events.LogTellsTheRun: reports come one after the other, and counters are unbounded where the source has 32 bits.
- NetworkPolicy.NetpolSpec: address blocks are taken to be outside the pod network; ports are not narrowed to 32 bits.
- Reconciler.Operator.Reconcile: reading the workload, the lists behind a plan, a commit, getting and deleting the image, and the two writes of a status are one step each; correlation ids, conditions, problems and error texts are not part of the status; that a monitor is started is returned as a flag, and events are modelled apart.
- Retrying after an image-only change: the effective image is stored before the Sync, so a later failure can be skipped; nothing is claimed about it.
- Objects kept under the uid of an earlier owner: ownership is checked by kind and name but collected by uid; nothing is claimed about them.
- Objects of the rollout are values, so an operation does not write server fields back into them; server-side defaults, cluster IP allocation and Kubernetes' own garbage collection are left out.
- Null, regular-expression and absent modes, pointer identities and error texts of the comparator.
- Redirect ingresses, `url.Parse`, host name validation, name shortening, spec hashes, default values and cluster matching: the last six are arbitrary functions.
- The resource builders (deployments, SQL, buckets, Aiven, Azure, Vault and so on), which construct records; metrics, logging, caches, timeouts, configuration files, webhooks and charts.
