/** What holds in every reachable state of the reconcile machine, over all interleavings. */
module ReconcileSafety {
  import opened Cluster
  import opened Updater
  import opened Sync
  import opened ReconcileMachine
  import opened Wrappers

  // ---------------------------------------------------------------------------------------------
  // IAM resources are never orphaned
  // ---------------------------------------------------------------------------------------------

  ghost predicate Guarded(w: World, k: Key) {
    k in w.workloads && FINALIZER in w.workloads[k].finalizers
  }

  /** A clean-up at this stage will still delete `o`. */
  ghost predicate WillDelete(stage: Stage, o: Key) {
    match stage
    case ListAccounts => true
    case DeleteAccounts(todo) => o.kind == "IAMServiceAccount" ==> o in todo
    case ListPolicies => o.kind != "IAMServiceAccount"
    case DeletePolicies(todo) => o.kind != "IAMServiceAccount" && o in todo
    case DropImage => false
    case Release => false
  }

  /** The workload is there, guarded by its finalizer, and will not let go of `o`. */
  ghost predicate Holds(w: World, k: Key, o: Key) {
    && IsWorkloadKey(k)
    && Guarded(w, k)
    && (k in w.active && w.active[k].phase.Cleaning? ==> WillDelete(w.active[k].phase.stage, o))
  }

  /** Some workload of that namespace and name, of either kind, holds `o`. */
  ghost predicate HeldFor(w: World, namespace: string, name: string, o: Key) {
    Holds(w, Key("Application", namespace, name), o) || Holds(w, Key("Naisjob", namespace, name), o)
  }

  /** `o` is labelled with this name and team. */
  predicate LabelledFor(m: Manifest, namespace: string, name: string) {
    BelongsTo(m, Key("", namespace, name))
  }

  ghost predicate IamHeld(w: World) {
    forall o, namespace, name ::
      o in w.server.objects && IsIam(o) && LabelledFor(w.server.objects[o].m, namespace, name) ==>
        HeldFor(w, namespace, name, o)
  }

  /** A reconciler past its start works on a workload that its finalizer keeps in the cluster. */
  ghost predicate WorkersGuarded(w: World) {
    forall k :: k in w.active ==> Sound(w, k, w.active[k].phase)
  }

  ghost predicate Sound(w: World, k: Key, phase: Phase) {
    && IsWorkloadKey(k)
    && (phase.Preparing? || phase.Planning? || phase.Syncing? || phase.Cleaning? ==> Guarded(w, k))
    && (phase.Planning? ==> GeneratedBy(k, phase.ops))
    && (phase.Syncing? ==> SafeCommits(k, phase.commits))
  }

  /** Deletes aside, what is left to commit labels IAM resources as the workload's own. */
  ghost predicate SafeCommits(k: Key, commits: seq<Operation>) {
    forall i :: 0 <= i < |commits| && IsIam(commits[i].key) ==>
      commits[i].ty.DeleteIfExists? || BelongsTo(commits[i].m, k)
  }

  ghost predicate Inv(w: World) {
    IamHeld(w) && WorkersGuarded(w)
  }

  // ---------------------------------------------------------------------------------------------
  // Every step keeps the invariant
  // ---------------------------------------------------------------------------------------------

  /** No IAM resource appears or changes its labels. */
  ghost predicate NoNewIam(w: World, v: World) {
    forall o :: o in v.server.objects && IsIam(o) ==>
      o in w.server.objects && v.server.objects[o].m.labels == w.server.objects[o].m.labels
  }

  /** Guarded workloads stay guarded, and reconcilers other than `k`'s stay where they are. */
  ghost predicate GuardsKept(w: World, v: World, k: Key) {
    && (forall j :: j != k && Guarded(w, j) ==> Guarded(v, j))
    && (forall j :: j != k ==> (j in v.active <==> j in w.active))
    && (forall j :: j != k && j in w.active ==> v.active[j] == w.active[j])
  }

  /** A step of the reconciler of `k`, or of a user, that adds no IAM resource: what `k` held it
    * still holds. */
  lemma HeldAfter(w: World, v: World, k: Key)
    requires Inv(w) && NoNewIam(w, v) && GuardsKept(w, v, k)
    requires forall o :: o in v.server.objects && IsIam(o) && BelongsTo(v.server.objects[o].m, k) && Holds(w, k, o) ==> Holds(v, k, o)
    ensures IamHeld(v)
  {
    forall o, namespace, name | o in v.server.objects && IsIam(o) && LabelledFor(v.server.objects[o].m, namespace, name)
      ensures HeldFor(v, namespace, name, o)
    {
      assert LabelledFor(w.server.objects[o].m, namespace, name);
      assert HeldFor(w, namespace, name, o);
      var application, naisjob := Key("Application", namespace, name), Key("Naisjob", namespace, name);
      assert Holds(w, application, o) ==> Holds(v, application, o);
      assert Holds(w, naisjob, o) ==> Holds(v, naisjob, o);
    }
  }

  lemma UserStepKeeps(cfg: Config, w: World, s: Step)
    requires Inv(w) && Enabled(cfg, w, s) && !IsReconcilerStep(s)
    ensures Inv(After(cfg, w, s))
  {
    var v := After(cfg, w, s);
    assert v.active == w.active && forall j :: Guarded(w, j) ==> Guarded(v, j);
    HeldAfter(w, v, Key("", "", ""));
  }

  /** A step that only moves the reconciler of `k` on, to where it lets go of nothing. */
  lemma MovingOnKeeps(w: World, v: World, k: Key)
    requires Inv(w) && GuardsKept(w, v, k) && v.server == w.server && v.workloads == w.workloads
    requires k in v.active ==> Sound(w, k, v.active[k].phase)
    requires k in v.active && v.active[k].phase.Cleaning? ==> v.active[k].phase.stage.ListAccounts?
    ensures Inv(v)
  {
    HeldAfter(w, v, k);
  }

  lemma BeginStepKeeps(cfg: Config, w: World, k: Key)
    requires Inv(w) && IsWorkloadKey(k) && k !in w.active && cfg.cnrm
    ensures Inv(Begun(cfg, w, k))
  {
    MovingOnKeeps(w, Begun(cfg, w, k), k);
  }

  lemma LookStepKeeps(cfg: Config, w: World, k: Key, look: Look)
    requires Inv(w) && Enabled(cfg, w, LookOver(k, look))
    ensures Inv(LookedOver(cfg, w, k, look))
  {
    MovingOnKeeps(w, LookedOver(cfg, w, k, look), k);
  }

  lemma ConcludeStepKeeps(cfg: Config, w: World, k: Key)
    requires Inv(w) && InSync(w, k)
    ensures Inv(Succeeded(cfg, w, k))
  {
    MovingOnKeeps(w, Succeeded(cfg, w, k), k);
  }

  lemma SafePlan(s: Server, listers: seq<string>, k: Key, r: Rollout, commits: seq<Operation>)
    requires PlannedOn(s, listers, r, commits) && GeneratedBy(k, r.ops)
    ensures SafeCommits(k, commits)
  {
    var n := |commits| - |r.ops|;
    forall i | 0 <= i < |commits| && IsIam(commits[i].key)
      ensures commits[i].ty.DeleteIfExists? || BelongsTo(commits[i].m, k)
    {
      if StopsAtOnce(r, commits) {
        assert commits[i] == commits[1..][i - 1];
      } else if i < n {
        assert commits[i] == commits[..n][i];
      } else {
        assert commits[i] == commits[n..][i - n];
      }
    }
  }

  lemma PlanStepKeeps(cfg: Config, w: World, k: Key, commits: seq<Operation>)
    requires Inv(w) && InPlanning(w, k) && PlannedOn(w.server, cfg.listers, RolloutOf(w, k), commits)
    ensures Inv(DrawnUp(w, k, commits))
  {
    SafePlan(w.server, cfg.listers, k, RolloutOf(w, k), commits);
    MovingOnKeeps(w, DrawnUp(w, k, commits), k);
  }

  lemma ClaimStepKeeps(w: World, k: Key, fails: bool)
    requires Inv(w) && InPhase(w, k, Claiming)
    ensures Inv(Claimed(w, k, fails))
  {
    var v := Claimed(w, k, fails);
    assert forall j :: Guarded(w, j) ==> Guarded(v, j);
    HeldAfter(w, v, k);
  }

  lemma RecordStepKeeps(w: World, k: Key, write: Write)
    requires Inv(w) && InPhase(w, k, Recording)
    ensures Inv(Rest(Recorded(w, k, write), k))
  {
    var v := Rest(Recorded(w, k, write), k);
    assert forall j :: Guarded(w, j) ==> Guarded(v, j);
    HeldAfter(w, v, k);
  }

  lemma ListStepKeeps(cfg: Config, w: World, k: Key, found: Option<seq<Key>>)
    requires Inv(w) && Enabled(cfg, w, ListIam(k, found))
    ensures Inv(IamListed(w, k, found))
  {
    HeldAfter(w, IamListed(w, k, found), k);
  }

  lemma DeleteStepKeeps(cfg: Config, w: World, k: Key, f: Fault)
    requires Inv(w) && Enabled(cfg, w, DeleteIam(k, f))
    ensures Inv(IamDeleted(w, k, f))
  {
    var v := IamDeleted(w, k, f);
    assert v.workloads == w.workloads && NoNewIam(w, v);
    HeldAfter(w, v, k);
  }

  lemma RemoveImageStepKeeps(w: World, k: Key, fails: bool)
    requires Inv(w) && InPhase(w, k, Cleaning(DropImage))
    ensures Inv(ImageRemoved(w, k, fails))
  {
    HeldAfter(w, ImageRemoved(w, k, fails), k);
  }

  /** Letting go of a workload orphans nothing: by then its clean-up holds no IAM resource. */
  lemma ReleaseStepKeeps(w: World, k: Key, fails: bool)
    requires Inv(w) && InPhase(w, k, Cleaning(Release))
    ensures Inv(Released(w, k, fails))
  {
    assert forall o :: !Holds(w, k, o);
    HeldAfter(w, Released(w, k, fails), k);
  }

  /** A commit either leaves an object's labels alone or stores those of its own manifest. */
  lemma CommitLabels(w: Server, op: Operation, f: Fault, o: Key)
    requires o in Commit(w, op, f).0.objects
    ensures var m := Commit(w, op, f).0.objects[o].m;
            || (o in w.objects && m.labels == w.objects[o].m.labels)
            || (o == op.key && !op.ty.DeleteIfExists? && m.labels == op.m.labels)
  {
    if o != op.key { CommitFrame(w, op, f, o); }
  }

  lemma CommitStepKeeps(cfg: Config, w: World, s: Step)
    requires Inv(w) && Enabled(cfg, w, s) && s.CommitNext?
    ensures Inv(After(cfg, w, s))
  {
    var v := After(cfg, w, s);
    var commits := w.active[s.k].phase.commits;
    var op := commits[0];
    assert v.server == Commit(w.server, op, s.fault).0 && v.workloads == w.workloads && GuardsKept(w, v, s.k);
    assert v.active[s.k].phase.Syncing? ==> v.active[s.k].phase.commits == commits[1..];
    assert forall j, o :: Holds(w, j, o) ==> Holds(v, j, o);
    forall o, namespace, name | o in v.server.objects && IsIam(o) && LabelledFor(v.server.objects[o].m, namespace, name)
      ensures HeldFor(v, namespace, name, o)
    {
      CommitLabels(w.server, op, s.fault, o);
      if o in w.server.objects && v.server.objects[o].m.labels == w.server.objects[o].m.labels {
        assert LabelledFor(w.server.objects[o].m, namespace, name);
        assert HeldFor(w, namespace, name, o);
      } else {
        assert BelongsTo(op.m, s.k);
        assert Holds(v, s.k, o);
      }
    }
  }

  lemma StepKeeps(cfg: Config, w: World, s: Step)
    requires Inv(w) && Enabled(cfg, w, s) && cfg.cnrm
    ensures Inv(After(cfg, w, s))
  {
    match s
    case CommitNext(_, _) => CommitStepKeeps(cfg, w, s);
    case ListIam(k, found) => ListStepKeeps(cfg, w, k, found);
    case DeleteIam(k, f) => DeleteStepKeeps(cfg, w, k, f);
    case RemoveImage(k, fails) => RemoveImageStepKeeps(w, k, fails);
    case Unclaim(k, fails) => ReleaseStepKeeps(w, k, fails);
    case Plan(k, commits) => PlanStepKeeps(cfg, w, k, commits);
    case Claim(k, fails) => ClaimStepKeeps(w, k, fails);
    case Record(k, write) => RecordStepKeeps(w, k, write);
    case Begin(k) => BeginStepKeeps(cfg, w, k);
    case LookOver(k, look) => LookStepKeeps(cfg, w, k, look);
    case Conclude(k) => ConcludeStepKeeps(cfg, w, k);
    case _ => UserStepKeeps(cfg, w, s);
  }

  lemma {:induction false} RunKeeps(cfg: Config, w: World, run: seq<Step>)
    requires Inv(w) && IsRun(cfg, w, run) && cfg.cnrm
    ensures Inv(AfterAll(cfg, w, run))
    decreases |run|
  {
    if run != [] {
      var last := |run| - 1;
      PrefixIsRun(cfg, w, run, last);
      RunKeeps(cfg, w, run[..last]);
      StepKeeps(cfg, AfterAll(cfg, w, run[..last]), run[last]);
    }
  }

  lemma PrefixIsRun(cfg: Config, w: World, run: seq<Step>, n: nat)
    requires IsRun(cfg, w, run) && n <= |run|
    ensures IsRun(cfg, w, run[..n])
  {
    forall i | 0 <= i < n ensures Enabled(cfg, AfterAll(cfg, w, run[..n][..i]), run[..n][i]) {
      assert run[..n][..i] == run[..i];
    }
  }

  /** Every IAM resource labelled with a name and team belongs to a workload that is still in the
    * cluster and carries the finalizer. */
  ghost predicate NoOrphans(w: World) {
    forall o, namespace, name ::
      o in w.server.objects && IsIam(o) && LabelledFor(w.server.objects[o].m, namespace, name) ==>
        Guarded(w, Key("Application", namespace, name)) || Guarded(w, Key("Naisjob", namespace, name))
  }

  /** With CNRM on, whatever reconcilers and users do and in whatever order, no IAM resource
    * outlives the workloads it is labelled for. */
  lemma IamNeverOrphaned(cfg: Config, w: World, run: seq<Step>, n: nat)
    requires cfg.cnrm && Quiet(w) && NoOrphans(w) && IsRun(cfg, w, run) && n <= |run|
    ensures NoOrphans(AfterAll(cfg, w, run[..n]))
    ensures var v := AfterAll(cfg, w, run[..n]);
            forall o :: o in v.server.objects && o.namespace == "serviceaccounts"
                        && (o.kind == "IAMServiceAccount" || o.kind == "IAMPolicy") ==>
              var labels := v.server.objects[o].m.labels;
              "app" in labels && "team" in labels ==>
                exists k :: k in v.workloads && (k.kind == "Application" || k.kind == "Naisjob")
                            && k.namespace == labels["team"] && k.name == labels["app"]
                            && "naiserator.nais.io/finalizer" in v.workloads[k].finalizers
  {
    assert IamHeld(w);
    PrefixIsRun(cfg, w, run, n);
    RunKeeps(cfg, w, run[..n]);
    var v := AfterAll(cfg, w, run[..n]);
    forall o, namespace, name | o in v.server.objects && IsIam(o) && LabelledFor(v.server.objects[o].m, namespace, name)
      ensures Guarded(v, Key("Application", namespace, name)) || Guarded(v, Key("Naisjob", namespace, name))
    {
      assert HeldFor(v, namespace, name, o);
    }
    hide AfterAll, IsRun, Inv, IamHeld;
    forall o | o in v.server.objects && IsIam(o) && "app" in v.server.objects[o].m.labels && "team" in v.server.objects[o].m.labels
      ensures var namespace, name := v.server.objects[o].m.labels["team"], v.server.objects[o].m.labels["app"];
              Guarded(v, Key("Application", namespace, name)) || Guarded(v, Key("Naisjob", namespace, name))
    {
      assert LabelledFor(v.server.objects[o].m, v.server.objects[o].m.labels["team"], v.server.objects[o].m.labels["app"]);
    }
  }
}
