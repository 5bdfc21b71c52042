/** Reconciling as a state machine: reconcilers of different workloads, users and rollout monitors
  * take steps on one cluster in any order. One step is one client call on a workload, or one commit
  * of a rollout. Each workload has at most one reconciler at a time.
  */
module ReconcileMachine {
  import opened Cluster
  import opened Updater
  import opened Sync
  import opened Wrappers

  const FINALIZER := "naiserator.nais.io/finalizer"

  const IAM_NAMESPACE := "serviceaccounts"

  datatype Spec = Spec(image: string, body: string)

  datatype SyncState =
    | Unsynchronized
    | FailedPrepare
    | FailedGenerate
    | FailedSynchronization
    | Retrying
    | Synchronized
    | RolloutComplete

  datatype Status = Status(state: SyncState, hash: string, effectiveImage: string)

  const NO_STATUS := Status(Unsynchronized, "", "")

  /** An Application or Naisjob; `deleting` tells that its deletion timestamp is set. */
  datatype Workload = Workload(
    uid: nat,
    version: nat,
    spec: Spec,
    labels: map<string, string>,
    finalizers: set<string>,
    deleting: bool,
    status: Status)

  /** How far a clean-up has come; `todo` are the listed objects not deleted yet. */
  datatype Stage =
    | ListAccounts
    | DeleteAccounts(todo: seq<Key>)
    | ListPolicies
    | DeletePolicies(todo: seq<Key>)
    | DropImage
    | Release

  /** What the reconciler of a workload is about to do. */
  datatype Phase =
    | Claiming
    | Preparing
    | Planning(ops: seq<Operation>)
    | Syncing(commits: seq<Operation>)
    | Recording
    | Cleaning(stage: Stage)

  /** `app` is the copy read at the start; its status is changed in memory until it is recorded. */
  datatype Activity = Activity(app: Workload, phase: Phase)

  /** A Sync that came to an end for a workload, which its uid tells from others of the same name: the
    * hash it was for, and how it ended. */
  datatype Concluded = Concluded(k: Key, uid: nat, hash: string, outcome: Outcome)

  datatype World = World(
    server: Server,
    workloads: map<Key, Workload>,
    images: map<Key, string>,
    active: map<Key, Activity>,
    history: seq<Concluded>)

  /** Configuration: the CNRM feature, the listed kinds and the hash of a spec. */
  datatype Config = Config(cnrm: bool, listers: seq<string>, hash: Spec -> string)

  // ---------------------------------------------------------------------------------------------
  // Steps
  // ---------------------------------------------------------------------------------------------

  /** What became of looking a workload over before its Sync. */
  datatype Look =
    | LookupFailed
    | Unprepared(wanted: string)
    | Ungenerated(wanted: string)
    | Generated(wanted: string, ops: seq<Operation>)

  datatype Write = NotWritten | OnlyLabelled | Written

  datatype Step =
    // users, and controllers outside the operator
    | PutWorkload(k: Key, spec: Spec, labels: map<string, string>, finalizers: set<string>)
    | DeleteWorkload(k: Key)
    | PutImage(k: Key, image: Option<string>)
    | PutObject(k: Key, m: Manifest)
    | RemoveObject(k: Key)
    | SetNamespaces(namespaces: map<string, map<string, string>>)
    // a rollout monitor reporting that a rollout is complete
    | CompleteRollout(k: Key)
    // the reconciler of workload `k`
    | Begin(k: Key)
    | Claim(k: Key, fails: bool)
    | LookOver(k: Key, look: Look)
    | Plan(k: Key, commits: seq<Operation>)
    | CommitNext(k: Key, fault: Fault)
    | Conclude(k: Key)
    | Record(k: Key, write: Write)
    | ListIam(k: Key, found: Option<seq<Key>>)
    | DeleteIam(k: Key, fault: Fault)
    | RemoveImage(k: Key, fails: bool)
    | Unclaim(k: Key, fails: bool)

  predicate IsCleanUpStep(s: Step) {
    s.ListIam? || s.DeleteIam? || s.RemoveImage? || s.Unclaim?
  }

  predicate IsReconcilerStep(s: Step) {
    || s.Begin? || s.Claim? || s.LookOver? || s.Plan? || s.CommitNext? || s.Conclude? || s.Record?
    || IsCleanUpStep(s)
  }

  predicate IsWorkloadKey(k: Key) {
    k.kind == "Application" || k.kind == "Naisjob"
  }

  predicate IsIam(k: Key) {
    k.namespace == IAM_NAMESPACE && (k.kind == "IAMServiceAccount" || k.kind == "IAMPolicy")
  }

  /** Labelled with a workload's name and, as team, its namespace. */
  predicate BelongsTo(m: Manifest, k: Key) {
    Labelled(m, k.name) && "team" in m.labels && m.labels["team"] == k.namespace
  }

  /** Every IAM resource a workload's rollout carries is labelled as the workload's own. */
  predicate GeneratedBy(k: Key, ops: seq<Operation>) {
    forall i :: 0 <= i < |ops| && IsIam(ops[i].key) ==> BelongsTo(ops[i].m, k)
  }

  function ImageKey(k: Key): Key {
    Key("Image", k.namespace, k.name)
  }

  function SourceOf(k: Key, app: Workload): Source {
    Source(k.kind, k.namespace, k.name, app.uid)
  }

  /** The image a spec asks for, or the one stored beside the workload when it names none. */
  predicate Wants(w: World, k: Key, app: Workload, wanted: string) {
    if app.spec.image != "" then wanted == app.spec.image
    else ImageKey(k) in w.images && wanted == w.images[ImageKey(k)]
  }

  predicate ImageHasChanged(wanted: string, app: Workload) {
    if app.status.effectiveImage == "" && app.spec.image != "" then false
    else wanted != app.status.effectiveImage
  }

  predicate Skips(cfg: Config, app: Workload, wanted: string) {
    !ImageHasChanged(wanted, app) && app.status.hash == cfg.hash(app.spec)
  }

  predicate InPhase(w: World, k: Key, phase: Phase) {
    k in w.active && w.active[k].phase == phase
  }

  predicate InPlanning(w: World, k: Key) {
    k in w.active && w.active[k].phase.Planning?
  }

  predicate InSync(w: World, k: Key) {
    k in w.active && w.active[k].phase.Syncing?
  }

  predicate InDeletes(w: World, k: Key) {
    k in w.active && w.active[k].phase.Cleaning? && (w.active[k].phase.stage.DeleteAccounts? || w.active[k].phase.stage.DeletePolicies?)
  }

  predicate InLists(w: World, k: Key) {
    InPhase(w, k, Cleaning(ListAccounts)) || InPhase(w, k, Cleaning(ListPolicies))
  }

  function RolloutOf(w: World, k: Key): Rollout
    requires InPlanning(w, k)
  {
    Rollout(SourceOf(k, w.active[k].app), w.active[k].phase.ops)
  }

  predicate Enabled(cfg: Config, w: World, s: Step) {
    if IsCleanUpStep(s) then CleanUpEnabled(w, s)
    else if IsReconcilerStep(s) then RolloutEnabled(cfg, w, s)
    else OutsideEnabled(w, s)
  }

  /** Users never strip the finalizer, and leave IAM resources alone but for removing them. */
  predicate OutsideEnabled(w: World, s: Step)
    requires !IsReconcilerStep(s)
  {
    match s
    case PutWorkload(k, _, _, finalizers) =>
      IsWorkloadKey(k) && (k in w.workloads && FINALIZER in w.workloads[k].finalizers ==> FINALIZER in finalizers)
    case DeleteWorkload(k) => k in w.workloads
    case PutImage(_, _) => true
    case PutObject(k, _) => !IsIam(k)
    case RemoveObject(_) => true
    case SetNamespaces(_) => true
    case CompleteRollout(k) => k in w.workloads
  }

  predicate RolloutEnabled(cfg: Config, w: World, s: Step)
    requires IsReconcilerStep(s) && !IsCleanUpStep(s)
  {
    match s
    case Begin(k) => IsWorkloadKey(k) && k !in w.active
    case Claim(k, _) => InPhase(w, k, Claiming)
    case LookOver(k, look) => InPhase(w, k, Preparing) && Sees(w, k, look)
    case Plan(k, commits) => InPlanning(w, k) && PlannedOn(w.server, cfg.listers, RolloutOf(w, k), commits)
    case CommitNext(k, f) => External(f) && InSync(w, k) && w.active[k].phase.commits != []
    case Conclude(k) => InSync(w, k) && w.active[k].phase.commits == []
    case Record(k, _) => InPhase(w, k, Recording)
  }

  predicate Sees(w: World, k: Key, look: Look)
    requires InPhase(w, k, Preparing)
  {
    && (!look.LookupFailed? ==> Wants(w, k, w.active[k].app, look.wanted))
    && (look.Generated? ==> GeneratedBy(k, look.ops))
  }

  predicate CleanUpEnabled(w: World, s: Step)
    requires IsCleanUpStep(s)
  {
    match s
    case ListIam(k, found) => InLists(w, k) && (found.Some? ==> ListsExactly(w, k, found.value))
    case DeleteIam(k, f) => External(f) && InDeletes(w, k)
    case RemoveImage(k, _) => InPhase(w, k, Cleaning(DropImage))
    case Unclaim(k, _) => InPhase(w, k, Cleaning(Release))
  }

  predicate ListsExactly(w: World, k: Key, found: seq<Key>)
    requires InLists(w, k)
  {
    && (forall o :: o in w.server.objects ==> (o in found <==> ListedFor(w, k, w.active[k].phase.stage, o)))
    && (forall i :: 0 <= i < |found| ==> found[i] in w.server.objects)
  }

  /** What a clean-up lists: one kind of IAM resource with the workload's labels. */
  predicate ListedFor(w: World, k: Key, stage: Stage, o: Key)
    requires o in w.server.objects
  {
    && IsIam(o) && BelongsTo(w.server.objects[o].m, k)
    && o.kind == (if stage.ListAccounts? then "IAMServiceAccount" else "IAMPolicy")
  }

  // ---------------------------------------------------------------------------------------------
  // Effects
  // ---------------------------------------------------------------------------------------------

  function Ticked(s: Server): Server {
    s.(clock := s.clock + 1)
  }

  function Turn(w: World, k: Key, app: Workload, phase: Phase): World {
    w.(active := w.active[k := Activity(app, phase)])
  }

  /** The last thing a reconciler does, unless it has nothing to tell: record its copy's status. */
  function ToRecord(w: World, k: Key, app: Workload, status: Status): World {
    Turn(w, k, app.(status := status), Recording)
  }

  function Rest(w: World, k: Key): World {
    w.(active := w.active - {k})
  }

  /** A write to a stored workload: a fresh version, and gone once deleted and free of finalizers. */
  function Store(w: World, k: Key, app: Workload): World {
    if app.deleting && app.finalizers == {} then w.(workloads := w.workloads - {k}, server := Ticked(w.server))
    else w.(workloads := w.workloads[k := app.(version := w.server.clock)], server := Ticked(w.server))
  }

  /** Optimistic concurrency: a write succeeds only on the version that was read. */
  predicate Current(w: World, k: Key, app: Workload) {
    k in w.workloads && w.workloads[k].version == app.version
  }

  function After(cfg: Config, w: World, s: Step): World
    requires Enabled(cfg, w, s)
  {
    if IsCleanUpStep(s) then AfterCleanUp(w, s)
    else if IsReconcilerStep(s) then AfterRollout(cfg, w, s)
    else AfterOutside(w, s)
  }

  function AfterOutside(w: World, s: Step): World
    requires !IsReconcilerStep(s) && OutsideEnabled(w, s)
  {
    match s
    case PutWorkload(k, spec, labels, finalizers) =>
      if k in w.workloads then Store(w, k, w.workloads[k].(spec := spec, labels := labels, finalizers := finalizers))
      else Store(w, k, Workload(w.server.clock, 0, spec, labels, finalizers, false, NO_STATUS))
    case DeleteWorkload(k) => Store(w, k, w.workloads[k].(deleting := true))
    case PutImage(k, image) =>
      w.(images := if image.Some? then w.images[k := image.value] else w.images - {k})
    case PutObject(k, m) =>
      w.(server := if k in w.server.objects then Updated(w.server, k, m) else Created(w.server, k, m))
    case RemoveObject(k) => w.(server := Deleted(w.server, k))
    case SetNamespaces(namespaces) => w.(server := w.server.(namespaces := namespaces))
    case CompleteRollout(k) => Store(w, k, w.workloads[k].(status := w.workloads[k].status.(state := RolloutComplete)))
  }

  function AfterRollout(cfg: Config, w: World, s: Step): World
    requires IsReconcilerStep(s) && !IsCleanUpStep(s) && RolloutEnabled(cfg, w, s)
  {
    match s
    case Begin(k) => Begun(cfg, w, k)
    case Claim(k, fails) => Claimed(w, k, fails)
    case LookOver(k, look) => LookedOver(cfg, w, k, look)
    case Plan(k, commits) => DrawnUp(w, k, commits)
    case CommitNext(k, f) => Committed(cfg, w, k, f)
    case Conclude(k) => Succeeded(cfg, w, k)
    case Record(k, write) => Rest(Recorded(w, k, write), k)
  }

  function AfterCleanUp(w: World, s: Step): World
    requires IsCleanUpStep(s) && CleanUpEnabled(w, s)
  {
    match s
    case ListIam(k, found) => IamListed(w, k, found)
    case DeleteIam(k, f) => IamDeleted(w, k, f)
    case RemoveImage(k, fails) => ImageRemoved(w, k, fails)
    case Unclaim(k, fails) => Released(w, k, fails)
  }

  function Begun(cfg: Config, w: World, k: Key): World {
    if k !in w.workloads then w
    else
      var app := w.workloads[k];
      if app.deleting then
        if FINALIZER !in app.finalizers then w
        else Turn(w, k, app, Cleaning(if cfg.cnrm then ListAccounts else DropImage))
      else if FINALIZER !in app.finalizers then Turn(w, k, app, Claiming)
      else Turn(w, k, app, Preparing)
  }

  function Claimed(w: World, k: Key, fails: bool): World
    requires InPhase(w, k, Claiming)
  {
    var app := w.active[k].app;
    if fails || !Current(w, k, app) then Turn(w, k, app, Recording)
    else Rest(Store(w, k, w.workloads[k].(finalizers := app.finalizers + {FINALIZER})), k)
  }

  /** An unchanged workload is skipped; otherwise its effective image is noted before anything else
    * can fail. */
  function LookedOver(cfg: Config, w: World, k: Key, look: Look): World
    requires InPhase(w, k, Preparing)
  {
    var app := w.active[k].app;
    if look.LookupFailed? then ToRecord(w, k, app, app.status.(state := FailedPrepare))
    else if Skips(cfg, app, look.wanted) then Rest(w, k)
    else
      var status := app.status.(effectiveImage := look.wanted);
      match look
      case Unprepared(_) => ToRecord(w, k, app, status.(state := FailedPrepare))
      case Ungenerated(_) => ToRecord(w, k, app, status.(state := FailedGenerate))
      case Generated(_, ops) => Turn(w, k, app.(status := status), Planning(ops))
  }

  function DrawnUp(w: World, k: Key, commits: seq<Operation>): World
    requires InPlanning(w, k)
  {
    Turn(w, k, w.active[k].app, Syncing(commits))
  }

  /** A commit that fails ends the Sync: with a conflict it will be tried again, with any other
    * error it will not. */
  function Committed(cfg: Config, w: World, k: Key, f: Fault): World
    requires InSync(w, k) && w.active[k].phase.commits != []
  {
    var app, commits := w.active[k].app, w.active[k].phase.commits;
    var (server, o) := Commit(w.server, commits[0], f);
    var w' := w.(server := server);
    if o.Done? then Turn(w', k, app, Syncing(commits[1..]))
    else
      var h := cfg.hash(app.spec);
      var status := if o.error == Conflict then app.status.(state := Retrying)
                    else app.status.(state := FailedSynchronization, hash := h);
      ToRecord(w', k, app, status).(history := w.history + [Concluded(k, app.uid, h, o)])
  }

  function Succeeded(cfg: Config, w: World, k: Key): World
    requires InSync(w, k)
  {
    var app := w.active[k].app;
    var h := cfg.hash(app.spec);
    ToRecord(w, k, app, app.status.(state := Synchronized, hash := h)).(history := w.history + [Concluded(k, app.uid, h, Done)])
  }

  function Recorded(w: World, k: Key, write: Write): World
    requires InPhase(w, k, Recording)
  {
    if k !in w.workloads || write.NotWritten? then w
    else
      var app := w.workloads[k];
      var labelled := app.(labels := app.labels["team" := k.namespace]);
      if write.OnlyLabelled? then Store(w, k, labelled)
      else Store(w, k, labelled.(status := w.active[k].app.status))
  }

  function IamListed(w: World, k: Key, found: Option<seq<Key>>): World
    requires InLists(w, k)
  {
    var app := w.active[k].app;
    if found.None? then Turn(w, k, app, Recording)
    else Turn(w, k, app, Cleaning(if w.active[k].phase.stage.ListAccounts? then DeleteAccounts(found.value) else DeletePolicies(found.value)))
  }

  function IamDeleted(w: World, k: Key, f: Fault): World
    requires InDeletes(w, k)
  {
    var app, stage := w.active[k].app, w.active[k].phase.stage;
    if stage.todo == [] then Turn(w, k, app, Cleaning(if stage.DeleteAccounts? then ListPolicies else DropImage))
    else if Hits(f, 0) || stage.todo[0] !in w.server.objects then Turn(w, k, app, Recording)
    else Turn(w.(server := Deleted(w.server, stage.todo[0])), k, app, Cleaning(stage.(todo := stage.todo[1..])))
  }

  function ImageRemoved(w: World, k: Key, fails: bool): World
    requires InPhase(w, k, Cleaning(DropImage))
  {
    var app := w.active[k].app;
    if fails then Turn(w, k, app, Recording)
    else Turn(w.(images := w.images - {ImageKey(k)}), k, app, Cleaning(Release))
  }

  function Released(w: World, k: Key, fails: bool): World
    requires InPhase(w, k, Cleaning(Release))
  {
    var app := w.active[k].app;
    if fails || !Current(w, k, app) then Turn(w, k, app, Recording)
    else Rest(Store(w, k, w.workloads[k].(finalizers := app.finalizers - {FINALIZER})), k)
  }

  // ---------------------------------------------------------------------------------------------
  // Runs
  // ---------------------------------------------------------------------------------------------

  /** The world after a run, or the last one in which its next step was enabled. */
  ghost function AfterAll(cfg: Config, w: World, run: seq<Step>): World
  {
    if run == [] then w
    else
      var last := |run| - 1;
      var v := AfterAll(cfg, w, run[..last]);
      if Enabled(cfg, v, run[last]) then After(cfg, v, run[last]) else v
  }

  ghost predicate IsRun(cfg: Config, w: World, run: seq<Step>) {
    forall i :: 0 <= i < |run| ==> Enabled(cfg, AfterAll(cfg, w, run[..i]), run[i])
  }

  lemma RunExtends(cfg: Config, w: World, run: seq<Step>, s: Step)
    requires IsRun(cfg, w, run) && Enabled(cfg, AfterAll(cfg, w, run), s)
    ensures IsRun(cfg, w, run + [s])
    ensures AfterAll(cfg, w, run + [s]) == After(cfg, AfterAll(cfg, w, run), s)
  {
    assert (run + [s])[..|run|] == run;
    forall i | 0 <= i < |run + [s]|
      ensures Enabled(cfg, AfterAll(cfg, w, (run + [s])[..i]), (run + [s])[i])
    {
      if i < |run| {
        assert (run + [s])[..i] == run[..i];
      }
    }
  }

  /** A world in which no reconciler is under way. */
  predicate Quiet(w: World) {
    w.active == map[] && w.history == []
  }
}
