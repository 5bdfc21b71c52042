/** The stored synchronization hash of a workload tells which Syncs of it have come to an end. */
module HashGating {
  import opened Cluster
  import opened Updater
  import opened Sync
  import opened ReconcileMachine
  import opened ReconcileSafety
  import opened Wrappers

  /** Some Sync of this very workload for this hash succeeded, or failed for good. */
  ghost predicate EndedFor(w: World, k: Key, uid: nat, hash: string) {
    exists i :: 0 <= i < |w.history| &&
      w.history[i].k == k && w.history[i].uid == uid && w.history[i].hash == hash && w.history[i].outcome != Failed(Conflict)
  }

  /** The workload was there at the start, with this hash. */
  predicate IsInitial(start: World, k: Key, uid: nat, hash: string) {
    k in start.workloads && start.workloads[k].uid == uid && start.workloads[k].status.hash == hash
  }

  ghost predicate Earned(start: World, w: World, k: Key, uid: nat, hash: string) {
    hash == "" || IsInitial(start, k, uid, hash) || EndedFor(w, k, uid, hash)
  }

  ghost predicate HashesEarned(start: World, w: World) {
    && (forall k :: k in w.workloads ==> Earned(start, w, k, w.workloads[k].uid, w.workloads[k].status.hash))
    && (forall k :: k in w.active ==> Earned(start, w, k, w.active[k].app.uid, w.active[k].app.status.hash))
  }

  /** Only a workload that was guarded, or is being deleted, can have been synchronized. */
  ghost predicate HashesGuarded(w: World) {
    forall k :: k in w.workloads ==> HashGuarded(w.workloads[k])
  }

  predicate HashGuarded(app: Workload) {
    FINALIZER in app.finalizers || app.deleting || app.status.hash == ""
  }

  /** A reconciler's copy is of the workload that is stored, kept there by its finalizer; or it was
    * never synchronized. */
  ghost predicate CopiesBound(w: World) {
    forall k :: k in w.active ==> Bound(w, k, w.active[k])
  }

  ghost predicate Bound(w: World, k: Key, a: Activity) {
    if FINALIZER in a.app.finalizers then
      && Guarded(w, k) && w.workloads[k].uid == a.app.uid
      && (a.phase.Cleaning? ==> w.workloads[k].deleting)
      && !a.phase.Claiming?
    else a.app.status.hash == "" && (a.phase.Claiming? || a.phase.Recording?)
  }

  ghost predicate Tied(w: World) {
    HashesGuarded(w) && CopiesBound(w)
  }

  /** What a step may do to the workload and the copy of `k`: keep the workload, unless it is free of
    * finalizers, and move hashes only from what is stored, from what the reconciler holds, or from a
    * Sync of this very workload that has just ended other than by a conflict. */
  ghost predicate CarriesAt(w: World, v: World, k: Key) {
    && (k in v.workloads ==>
          || v.workloads[k].status.hash == ""
          || (k in w.workloads && v.workloads[k].uid == w.workloads[k].uid && v.workloads[k].status.hash == w.workloads[k].status.hash)
          || (k in w.active && v.workloads[k].uid == w.active[k].app.uid && v.workloads[k].status.hash == w.active[k].app.status.hash))
    && (k in v.active ==>
          var app := v.active[k].app;
          || (k in w.workloads && app.uid == w.workloads[k].uid && app.status.hash == w.workloads[k].status.hash)
          || (k in w.active && app.uid == w.active[k].app.uid && app.status.hash == w.active[k].app.status.hash)
          || (|v.history| == |w.history| + 1 && v.history[|w.history|].outcome != Failed(Conflict)
              && v.history[|w.history|].k == k && v.history[|w.history|].uid == app.uid && v.history[|w.history|].hash == app.status.hash))
  }

  ghost predicate HistoryGrows(w: World, v: World) {
    w.history <= v.history && |v.history| <= |w.history| + 1
  }

  /** Nothing but `k` moves. */
  ghost predicate OnlyAt(w: World, v: World, k: Key) {
    && (forall j :: j != k ==> (j in v.workloads <==> j in w.workloads) && (j in v.active <==> j in w.active))
    && (forall j :: j != k && j in w.workloads ==> v.workloads[j] == w.workloads[j])
    && (forall j :: j != k && j in w.active ==> v.active[j] == w.active[j])
  }

  /** A step of `k` that is right at `k`. */
  ghost predicate Proper(w: World, v: World, k: Key) {
    && OnlyAt(w, v, k) && HistoryGrows(w, v)
    && (k in v.workloads ==> HashGuarded(v.workloads[k]))
    && (k in v.active ==> Bound(v, k, v.active[k]))
    && CarriesAt(w, v, k)
  }

  lemma ProperKeeps(w: World, v: World, k: Key)
    requires Tied(w) && Proper(w, v, k)
    ensures Tied(v) && forall j :: CarriesAt(w, v, j)
  {
    hide HashGuarded;
    forall j | j in v.active ensures Bound(v, j, v.active[j]) {
      assert j != k ==> Bound(w, j, w.active[j]);
    }
  }

  lemma PutIsProper(w: World, k: Key, spec: Spec, labels: map<string, string>, finalizers: set<string>)
    requires Tied(w) && OutsideEnabled(w, PutWorkload(k, spec, labels, finalizers))
    ensures Proper(w, AfterOutside(w, PutWorkload(k, spec, labels, finalizers)), k)
  {
    assert k in w.active ==> Bound(w, k, w.active[k]);
    assert k in w.workloads ==> HashGuarded(w.workloads[k]);
  }

  lemma OutsideIsProper(w: World, s: Step)
    requires Tied(w) && (s.DeleteWorkload? || s.CompleteRollout?) && OutsideEnabled(w, s)
    ensures Proper(w, AfterOutside(w, s), s.k)
  {
    assert s.k in w.active ==> Bound(w, s.k, w.active[s.k]);
    assert HashGuarded(w.workloads[s.k]);
  }

  lemma BeginIsProper(cfg: Config, w: World, k: Key)
    requires Tied(w) && k !in w.active
    ensures Proper(w, Begun(cfg, w, k), k)
  {
    assert k in w.workloads ==> HashGuarded(w.workloads[k]);
  }

  lemma ClaimIsProper(w: World, k: Key, fails: bool)
    requires Tied(w) && InPhase(w, k, Claiming)
    ensures Proper(w, Claimed(w, k, fails), k)
  {
    assert Bound(w, k, w.active[k]);
    assert k in w.workloads ==> HashGuarded(w.workloads[k]);
  }

  lemma CopyIsGuarded(w: World, k: Key)
    requires Tied(w) && k in w.active && !w.active[k].phase.Claiming? && !w.active[k].phase.Recording?
    ensures FINALIZER in w.active[k].app.finalizers
  {
    assert Bound(w, k, w.active[k]);
  }

  /** A step that only moves the reconciler of `k` on: same workload, same hash, a phase that fits. */
  lemma MoveIsProper(w: World, v: World, k: Key)
    requires Tied(w) && k in w.active && FINALIZER in w.active[k].app.finalizers
    requires v.workloads == w.workloads && v.history == w.history && OnlyAt(w, v, k)
    requires k in v.active ==>
               var a, b := w.active[k], v.active[k];
               && b.app == a.app.(status := b.app.status) && b.app.status.hash == a.app.status.hash
               && !b.phase.Claiming? && (b.phase.Cleaning? ==> a.phase.Cleaning?)
    ensures Proper(w, v, k)
  {
    assert Bound(w, k, w.active[k]);
    assert HashGuarded(w.workloads[k]);
  }

  lemma LookIsProper(cfg: Config, w: World, k: Key, look: Look)
    requires Tied(w) && InPhase(w, k, Preparing)
    ensures Proper(w, LookedOver(cfg, w, k, look), k)
  {
    CopyIsGuarded(w, k);
    hide Proper, Tied, Skips;
    MoveIsProper(w, LookedOver(cfg, w, k, look), k);
  }

  lemma CommitIsProper(cfg: Config, w: World, k: Key, f: Fault)
    requires Tied(w) && InSync(w, k)
    ensures w.active[k].phase.commits == [] ==> Proper(w, Succeeded(cfg, w, k), k)
    ensures w.active[k].phase.commits != [] ==> Proper(w, Committed(cfg, w, k, f), k)
  {
    assert Bound(w, k, w.active[k]);
    assert k in w.workloads ==> HashGuarded(w.workloads[k]);
  }

  lemma RecordIsProper(w: World, k: Key, write: Write)
    requires Tied(w) && InPhase(w, k, Recording)
    ensures Proper(w, Rest(Recorded(w, k, write), k), k)
  {
    assert Bound(w, k, w.active[k]);
    assert k in w.workloads ==> HashGuarded(w.workloads[k]);
  }

  lemma ListIsProper(w: World, k: Key, found: Option<seq<Key>>)
    requires Tied(w) && InLists(w, k)
    ensures Proper(w, IamListed(w, k, found), k)
  {
    CopyIsGuarded(w, k);
    hide Proper, Tied, Skips;
    MoveIsProper(w, IamListed(w, k, found), k);
  }

  lemma DeleteIsProper(w: World, k: Key, f: Fault)
    requires Tied(w) && InDeletes(w, k)
    ensures Proper(w, IamDeleted(w, k, f), k)
  {
    CopyIsGuarded(w, k);
    hide Proper, Tied, Skips;
    MoveIsProper(w, IamDeleted(w, k, f), k);
  }

  lemma RemoveIsProper(w: World, k: Key, fails: bool)
    requires Tied(w) && InPhase(w, k, Cleaning(DropImage))
    ensures Proper(w, ImageRemoved(w, k, fails), k)
  {
    CopyIsGuarded(w, k);
    hide Proper, Tied, Skips;
    MoveIsProper(w, ImageRemoved(w, k, fails), k);
  }

  lemma ReleaseIsProper(w: World, k: Key, fails: bool)
    requires Tied(w) && InPhase(w, k, Cleaning(Release))
    ensures Proper(w, Released(w, k, fails), k)
  {
    assert Bound(w, k, w.active[k]);
    assert k in w.workloads ==> HashGuarded(w.workloads[k]);
  }

  /** Every step keeps copies tied to their workloads, and carries hashes from nowhere else. */
  lemma StepCarries(cfg: Config, w: World, s: Step)
    requires Tied(w) && Enabled(cfg, w, s)
    ensures var v := After(cfg, w, s);
            Tied(v) && HistoryGrows(w, v) && forall k :: CarriesAt(w, v, k)
  {
    hide Tied, Proper, HashGuarded, PlannedOn, Wants, GeneratedBy, Begun, Claimed, LookedOver, DrawnUp, Committed, Succeeded;
    hide Recorded, IamListed, IamDeleted, ImageRemoved, Released;
    var v := After(cfg, w, s);
    match s
    case PutWorkload(k, spec, labels, finalizers) => PutIsProper(w, k, spec, labels, finalizers); Keeps(w, v, k);
    case DeleteWorkload(k) => OutsideIsProper(w, s); Keeps(w, v, k);
    case CompleteRollout(k) => OutsideIsProper(w, s); Keeps(w, v, k);
    case Begin(k) => BeginIsProper(cfg, w, k); Keeps(w, v, k);
    case Claim(k, fails) => ClaimIsProper(w, k, fails); Keeps(w, v, k);
    case LookOver(k, look) => LookIsProper(cfg, w, k, look); Keeps(w, v, k);
    case Plan(k, commits) => PlanIsProper(w, k, commits); Keeps(w, v, k);
    case CommitNext(k, f) => CommitIsProper(cfg, w, k, f); Keeps(w, v, k);
    case Conclude(k) => CommitIsProper(cfg, w, k, NoFault); Keeps(w, v, k);
    case Record(k, write) => RecordIsProper(w, k, write); Keeps(w, v, k);
    case ListIam(k, found) => ListIsProper(w, k, found); Keeps(w, v, k);
    case DeleteIam(k, f) => DeleteIsProper(w, k, f); Keeps(w, v, k);
    case RemoveImage(k, fails) => RemoveIsProper(w, k, fails); Keeps(w, v, k);
    case Unclaim(k, fails) => ReleaseIsProper(w, k, fails); Keeps(w, v, k);
    case _ => SameWorkloads(w, v);
  }

  lemma PlanIsProper(w: World, k: Key, commits: seq<Operation>)
    requires Tied(w) && InPlanning(w, k)
    ensures Proper(w, DrawnUp(w, k, commits), k)
  {
    assert Bound(w, k, w.active[k]);
    assert k in w.workloads ==> HashGuarded(w.workloads[k]);
  }

  lemma Keeps(w: World, v: World, k: Key)
    requires Tied(w) && Proper(w, v, k)
    ensures Tied(v) && HistoryGrows(w, v) && forall j :: CarriesAt(w, v, j)
  {
    ProperKeeps(w, v, k);
  }

  lemma SameWorkloads(w: World, v: World)
    requires Tied(w) && v.workloads == w.workloads && v.active == w.active && v.history == w.history
    ensures Tied(v) && HistoryGrows(w, v) && forall j :: CarriesAt(w, v, j)
  {
    forall j | j in v.active ensures Bound(v, j, v.active[j]) {
      assert Bound(w, j, w.active[j]);
    }
  }

  lemma EarnedStays(start: World, w: World, v: World, k: Key, uid: nat, h: string)
    requires HistoryGrows(w, v) && Earned(start, w, k, uid, h)
    ensures Earned(start, v, k, uid, h)
  {
    if EndedFor(w, k, uid, h) {
      var i :| 0 <= i < |w.history| && w.history[i].k == k && w.history[i].uid == uid && w.history[i].hash == h
               && w.history[i].outcome != Failed(Conflict);
      assert v.history[i] == w.history[i];
    }
  }

  lemma CarryingKeepsEarned(start: World, w: World, v: World)
    requires HashesEarned(start, w) && HistoryGrows(w, v) && forall k :: CarriesAt(w, v, k)
    ensures HashesEarned(start, v)
  {
    hide IsInitial;
    forall k | k in v.workloads ensures Earned(start, v, k, v.workloads[k].uid, v.workloads[k].status.hash) {
      assert CarriesAt(w, v, k);
      if k in w.workloads { EarnedStays(start, w, v, k, w.workloads[k].uid, w.workloads[k].status.hash); }
      if k in w.active { EarnedStays(start, w, v, k, w.active[k].app.uid, w.active[k].app.status.hash); }
    }
    forall k | k in v.active ensures Earned(start, v, k, v.active[k].app.uid, v.active[k].app.status.hash) {
      assert CarriesAt(w, v, k);
      if k in w.workloads { EarnedStays(start, w, v, k, w.workloads[k].uid, w.workloads[k].status.hash); }
      if k in w.active { EarnedStays(start, w, v, k, w.active[k].app.uid, w.active[k].app.status.hash); }
    }
  }

  /** A stored hash is one that this very workload started out with, or one for which a Sync of this
    * very workload, not of an earlier one of its name, succeeded or failed other than by a conflict;
    * conflicts and failures to prepare or generate never store one. */
  lemma {:induction false} StoredHashIsEarned(cfg: Config, start: World, run: seq<Step>)
    requires Quiet(start) && HashesGuarded(start) && IsRun(cfg, start, run)
    ensures HashesEarned(start, AfterAll(cfg, start, run)) && Tied(AfterAll(cfg, start, run))
    decreases |run|
  {
    if run != [] {
      var last := |run| - 1;
      PrefixIsRun(cfg, start, run, last);
      StoredHashIsEarned(cfg, start, run[..last]);
      var v := AfterAll(cfg, start, run[..last]);
      StepCarries(cfg, v, run[last]);
      CarryingKeepsEarned(start, v, AfterAll(cfg, start, run));
    }
  }

  /** A workload is skipped exactly when its stored hash is that of its spec and either the wanted image is
    * the one in effect, or none is in effect yet and the spec names one. The wanted image is the spec's
    * own or, without one, that of the Image of the same namespace and name. */
  lemma SkippedIff(cfg: Config, w: World, k: Key, look: Look)
    requires Enabled(cfg, w, LookOver(k, look)) && !look.LookupFailed?
    ensures var app := w.active[k].app;
            k !in After(cfg, w, LookOver(k, look)).active
            <==> app.status.hash == cfg.hash(app.spec)
                 && (look.wanted == app.status.effectiveImage || (app.status.effectiveImage == "" && app.spec.image != ""))
    ensures var spec, key := w.active[k].app.spec, Key("Image", k.namespace, k.name);
            if spec.image != "" then look.wanted == spec.image else key in w.images && look.wanted == w.images[key]
  {
  }

  /** A workload for whose spec no Sync of its own has come to an end, and which did not start out with
    * its hash, is never skipped, whatever became of earlier workloads of its name. */
  lemma UnfinishedIsNeverSkipped(cfg: Config, start: World, run: seq<Step>, k: Key, look: Look)
    requires Quiet(start) && HashesGuarded(start) && IsRun(cfg, start, run)
    requires Enabled(cfg, AfterAll(cfg, start, run), LookOver(k, look)) && !look.LookupFailed?
    requires var v := AfterAll(cfg, start, run);
             var app := v.active[k].app;
             var h := cfg.hash(app.spec);
             h != "" && !IsInitial(start, k, app.uid, h) && !EndedFor(v, k, app.uid, h)
    ensures k in After(cfg, AfterAll(cfg, start, run), LookOver(k, look)).active
  {
    hide AfterAll, IsRun;
    StoredHashIsEarned(cfg, start, run);
    var v := AfterAll(cfg, start, run);
    assert Earned(start, v, k, v.active[k].app.uid, v.active[k].app.status.hash);
  }

  /** The history only grows, by at most one Sync a step. */
  lemma StepGrowsHistory(cfg: Config, w: World, s: Step)
    requires Enabled(cfg, w, s)
    ensures HistoryGrows(w, After(cfg, w, s))
  {
  }

  /** Uids are handed out by a clock that every use moves on. */
  ghost predicate UidsPast(w: World) {
    && (forall k :: k in w.workloads ==> w.workloads[k].uid < w.server.clock)
    && (forall k :: k in w.active ==> w.active[k].app.uid < w.server.clock)
    && (forall i :: 0 <= i < |w.history| ==> w.history[i].uid < w.server.clock)
  }

  lemma CommitMovesClock(s: Server, op: Operation, f: Fault)
    ensures s.clock <= Commit(s, op, f).0.clock
  {
  }

  lemma OutsideKeepsPast(w: World, s: Step)
    requires UidsPast(w) && !IsReconcilerStep(s) && OutsideEnabled(w, s)
    ensures UidsPast(AfterOutside(w, s))
  {
  }

  lemma CommitKeepsPast(cfg: Config, w: World, k: Key, f: Fault)
    requires UidsPast(w) && InSync(w, k) && w.active[k].phase.commits != []
    ensures UidsPast(Committed(cfg, w, k, f))
  {
    CommitMovesClock(w.server, w.active[k].phase.commits[0], f);
    hide Commit;
  }

  lemma WriteKeepsPast(w: World, k: Key, write: Write, fails: bool)
    requires UidsPast(w)
    ensures InPhase(w, k, Recording) ==> UidsPast(Rest(Recorded(w, k, write), k))
    ensures InPhase(w, k, Claiming) ==> UidsPast(Claimed(w, k, fails))
  {
  }

  lemma RolloutKeepsPast(cfg: Config, w: World, s: Step)
    requires UidsPast(w) && IsReconcilerStep(s) && !IsCleanUpStep(s) && RolloutEnabled(cfg, w, s)
    ensures UidsPast(AfterRollout(cfg, w, s))
  {
    hide UidsPast, Committed, Recorded, Claimed, Begun, LookedOver, DrawnUp, Succeeded, PlannedOn, Wants, GeneratedBy;
    match s
    case CommitNext(k, f) => CommitKeepsPast(cfg, w, k, f);
    case Record(k, write) => WriteKeepsPast(w, k, write, false);
    case Claim(k, fails) => WriteKeepsPast(w, k, NotWritten, fails);
    case Begin(k) => BeginKeepsPast(cfg, w, k);
    case LookOver(k, look) => LookKeepsPast(cfg, w, k, look);
    case Plan(k, commits) => PlanKeepsPast(w, k, commits);
    case Conclude(k) => ConcludeKeepsPast(cfg, w, k);
  }

  lemma BeginKeepsPast(cfg: Config, w: World, k: Key)
    requires UidsPast(w)
    ensures UidsPast(Begun(cfg, w, k))
  {
  }

  lemma LookKeepsPast(cfg: Config, w: World, k: Key, look: Look)
    requires UidsPast(w) && InPhase(w, k, Preparing)
    ensures UidsPast(LookedOver(cfg, w, k, look))
  {
  }

  lemma PlanKeepsPast(w: World, k: Key, commits: seq<Operation>)
    requires UidsPast(w) && InPlanning(w, k)
    ensures UidsPast(DrawnUp(w, k, commits))
  {
  }

  lemma ConcludeKeepsPast(cfg: Config, w: World, k: Key)
    requires UidsPast(w) && InSync(w, k)
    ensures UidsPast(Succeeded(cfg, w, k))
  {
  }

  lemma CleanUpKeepsPast(w: World, s: Step)
    requires UidsPast(w) && IsCleanUpStep(s) && CleanUpEnabled(w, s)
    ensures UidsPast(AfterCleanUp(w, s))
  {
  }

  lemma StepKeepsPast(cfg: Config, w: World, s: Step)
    requires UidsPast(w) && Enabled(cfg, w, s)
    ensures UidsPast(After(cfg, w, s))
  {
    hide UidsPast;
    if IsCleanUpStep(s) {
      CleanUpKeepsPast(w, s);
    } else if IsReconcilerStep(s) {
      RolloutKeepsPast(cfg, w, s);
    } else {
      OutsideKeepsPast(w, s);
    }
  }

  /** A workload created anew has no Sync in the history and no copy in anyone's hands, so what its
    * predecessors of the same name earned does not count for it. */
  lemma CreatedAnew(cfg: Config, w: World, k: Key, spec: Spec, labels: map<string, string>, finalizers: set<string>)
    requires UidsPast(w) && k !in w.workloads && Enabled(cfg, w, PutWorkload(k, spec, labels, finalizers))
    ensures var v := After(cfg, w, PutWorkload(k, spec, labels, finalizers));
            && k in v.workloads && v.workloads[k].status.hash == ""
            && (forall i :: 0 <= i < |v.history| ==> v.history[i].uid != v.workloads[k].uid)
            && (forall j :: j in v.active ==> v.active[j].app.uid != v.workloads[k].uid)
            && (forall h :: !EndedFor(v, k, v.workloads[k].uid, h))
  {
  }
}
