/** The reconcile loop. Between any two of its steps others may take any number of theirs; whatever it
  * then does is a step of the reconcile machine, so that every execution is a run of it. Reading the
  * workload, the lists behind a plan, a commit and the two writes of a status are one step each.
  */
module Reconciler {
  import opened Cluster
  import opened Updater
  import opened Sync
  import opened ReconcileMachine
  import opened ReconcileSafety
  import opened HashGating
  import opened Wrappers

  datatype Ending =
    | Gone
    | Errored
    | CleanedUp
    | FinalizerSet
    | PrepareFailed
    | GenerateFailed
    | Skipped
    | Retry
    | FailedForGood
    | Synchronized

  /** What the generator yields for a workload: a failure to prepare or generate, or operations. */
  datatype Generation = PrepareError | GenerateError | Operations(ops: seq<Operation>)

  /** A step that is not the reconciler of `k`'s leaves it alone. */
  predicate IsOthers(s: Step, k: Key) {
    IsReconcilerStep(s) ==> s.k != k
  }

  ghost predicate LeftAlone(w: World, v: World, k: Key) {
    (k in v.active <==> k in w.active) && (k in w.active ==> v.active[k] == w.active[k])
  }

  lemma CleanUpsLeaveAlone(w: World, s: Step, k: Key)
    requires IsCleanUpStep(s) && CleanUpEnabled(w, s) && s.k != k
    ensures LeftAlone(w, AfterCleanUp(w, s), k)
  {
  }

  lemma RolloutsLeaveAlone(cfg: Config, w: World, s: Step, k: Key)
    requires IsReconcilerStep(s) && !IsCleanUpStep(s) && RolloutEnabled(cfg, w, s) && s.k != k
    ensures LeftAlone(w, AfterRollout(cfg, w, s), k)
  {
  }

  lemma OthersLeaveAlone(cfg: Config, w: World, s: Step, k: Key)
    requires Enabled(cfg, w, s) && IsOthers(s, k)
    ensures LeftAlone(w, After(cfg, w, s), k)
  {
    if IsCleanUpStep(s) {
      CleanUpsLeaveAlone(w, s, k);
    } else if IsReconcilerStep(s) {
      RolloutsLeaveAlone(cfg, w, s, k);
    }
  }

  function Deleting(list: Stage, todo: seq<Key>): Stage {
    if list.ListAccounts? then DeleteAccounts(todo) else DeletePolicies(todo)
  }

  // ---------------------------------------------------------------------------------------------
  // What the reconciler of one workload did in a run
  // ---------------------------------------------------------------------------------------------

  ghost function Own(run: seq<Step>, k: Key): seq<Step> {
    if run == [] then []
    else
      var last := run[|run| - 1];
      Own(run[..|run| - 1], k) + if IsOthers(last, k) then [] else [last]
  }

  lemma OwnSnoc(run: seq<Step>, s: Step, k: Key)
    ensures Own(run + [s], k) == Own(run, k) + if IsOthers(s, k) then [] else [s]
  {
    assert (run + [s])[..|run|] == run;
  }

  function Repeated(s: Step, n: nat): (steps: seq<Step>)
    ensures |steps| == n
  {
    if n == 0 then [] else [s] + Repeated(s, n - 1)
  }

  /** One kind of IAM resource: listed, deleted one by one, none left. */
  function Deletion(k: Key, listed: seq<Key>): seq<Step> {
    [ListIam(k, Some(listed))] + Repeated(DeleteIam(k, NoFault), |listed| + 1)
  }

  /** A whole clean-up, in its order. */
  function CleanUp(cnrm: bool, k: Key, accounts: seq<Key>, policies: seq<Key>): seq<Step> {
    (if cnrm then Deletion(k, accounts) + Deletion(k, policies) else []) + [RemoveImage(k, false), Unclaim(k, false)]
  }

  lemma RepeatedSnoc(s: Step, n: nat)
    ensures Repeated(s, n) + [s] == Repeated(s, n + 1)
  {
    if n > 0 {
      RepeatedSnoc(s, n - 1);
    }
  }

  /** The faults met so far, and one at commit number `n`. */
  ghost function Met(faults: Faults, n: nat, fault: Fault): (met: Faults)
    ensures forall i :: met(i) == if i == n then fault else faults(i)
    ensures faults == NO_FAULTS && fault.NoFault? ==> met == NO_FAULTS
  {
    if faults(n) == fault then faults else (i: nat) => if i == n then fault else faults(i)
  }

  lemma OneMoreRun(s: Server, commits: seq<Operation>, faults: Faults, n: nat, fault: Fault)
    requires n < |commits| && RunCommits(s, commits[..n], faults).1.Done?
    ensures RunCommits(s, commits[..n + 1], Met(faults, n, fault)) == Commit(RunCommits(s, commits[..n], faults).0, commits[n], fault)
  {
    hide Commit, Met;
    assert commits[..n + 1][..n] == commits[..n];
    SameFaults(s, commits[..n], faults, Met(faults, n, fault));
  }

  /** The workload of the other kind with the same namespace and name. */
  function Twin(k: Key): Key {
    k.(kind := if k.kind == "Application" then "Naisjob" else "Application")
  }

  /** A service account or policy of a workload: in the shared namespace, labelled with the workload's
    * name and, as team, its namespace. */
  ghost predicate IamOf(o: Key, m: Manifest, k: Key) {
    && o.namespace == "serviceaccounts" && (o.kind == "IAMServiceAccount" || o.kind == "IAMPolicy")
    && "app" in m.labels && m.labels["app"] == k.name
    && "team" in m.labels && m.labels["team"] == k.namespace
  }

  ghost predicate NoIamOf(w: World, k: Key) {
    forall o :: o in w.server.objects ==> !IamOf(o, w.server.objects[o].m, k)
  }

  /** The objects of `w`, as they were, less the IAM resources of `k`. */
  ghost predicate LessIamOf(w: World, v: World, k: Key, cnrm: bool) {
    && (forall o :: o in v.server.objects <==> o in w.server.objects && !(cnrm && IamOf(o, w.server.objects[o].m, k)))
    && (forall o :: o in v.server.objects ==> v.server.objects[o] == w.server.objects[o])
  }

  /** The image stored beside a workload. */
  ghost function StoredImage(w: World, k: Key): Option<string> {
    if Key("Image", k.namespace, k.name) in w.images then Some(w.images[Key("Image", k.namespace, k.name)]) else None
  }

  type Workloads = map<Key, Workload>

  ghost predicate OthersKept(w: Workloads, v: Workloads, k: Key) {
    forall j :: j != k ==> (j in v <==> j in w) && (j in w ==> v[j] == w[j])
  }

  /** No workload changed but `k`, which has the finalizer besides those it had. */
  ghost predicate OnlyClaimed(w: Workloads, v: Workloads, k: Key) {
    && OthersKept(w, v, k) && k in w && k in v
    && v[k] == w[k].(finalizers := w[k].finalizers + {"naiserator.nais.io/finalizer"}, version := v[k].version)
  }

  /** No workload changed but `k`, which lost the finalizer alone, or is gone having lost the last one. */
  ghost predicate OnlyReleased(w: Workloads, v: Workloads, k: Key) {
    && OthersKept(w, v, k) && k in w
    && var left := w[k].finalizers - {"naiserator.nais.io/finalizer"};
       if k in v then v[k] == w[k].(finalizers := left, version := v[k].version) else w[k].deleting && left == {}
  }

  /** No workload changed but `k`, which carries its team label and another status. */
  ghost predicate OnlyRecorded(w: Workloads, v: Workloads, k: Key) {
    && OthersKept(w, v, k) && k in w
    && if k in v then v[k] == w[k].(labels := w[k].labels["team" := k.namespace], status := v[k].status, version := v[k].version)
       else w[k].deleting && w[k].finalizers == {}
  }

  ghost predicate Distinct(keys: seq<Key>) {
    forall i, j :: 0 <= i < j < |keys| ==> keys[i] != keys[j]
  }

  /** Nothing changed but the server and what reconcilers are at. */
  ghost predicate SameApart(w: World, v: World) {
    v.workloads == w.workloads && v.images == w.images
  }

  class Operator {
    const cfg: Config
    /** Others hold still. */
    const quiet: bool
    /** No call fails. */
    const sound: bool
    ghost const start: World
    var world: World
    ghost var run: seq<Step>

    ghost predicate Valid()
      reads this
    {
      IsRun(cfg, start, run) && world == AfterAll(cfg, start, run)
    }

    constructor (cfg: Config, world: World, quiet: bool, sound: bool)
      ensures Valid() && this.cfg == cfg && start == this.world == world && run == []
      ensures this.quiet == quiet && this.sound == sound
    {
      this.cfg, this.quiet, this.sound := cfg, quiet, sound;
      start := world;
      this.world := world;
      run := [];
    }

    /** In every state the operator can get into, no IAM resource is orphaned. */
    lemma AlwaysSafe(n: nat)
      requires Valid() && cfg.cnrm && Quiet(start) && NoOrphans(start) && n <= |run|
      ensures NoOrphans(world) && NoOrphans(AfterAll(cfg, start, run[..n]))
    {
      IamNeverOrphaned(cfg, start, run, n);
      IamNeverOrphaned(cfg, start, run, |run|);
      assert run[..|run|] == run;
    }

    method Take(s: Step)
      requires Valid() && Enabled(cfg, world, s)
      modifies this
      ensures Valid() && world == After(cfg, old(world), s) && run == old(run) + [s]
      ensures old(world).history <= world.history
    {
      StepGrowsHistory(cfg, world, s);
      RunExtends(cfg, start, run, s);
      world := After(cfg, world, s);
      run := run + [s];
    }

    method TakeOwn(k: Key, s: Step)
      requires Valid() && Enabled(cfg, world, s) && IsReconcilerStep(s) && s.k == k
      modifies this
      ensures Valid() && world == After(cfg, old(world), s) && old(run) <= run
      ensures old(world).history <= world.history
      ensures Own(run, k) == Own(old(run), k) + [s]
    {
      hide AfterAll, IsRun, After, Enabled;
      OwnSnoc(run, s, k);
      Take(s);
    }

    /** Any call may fail, unless all are sound. */
    method Fails() returns (b: bool)
      ensures sound ==> !b
    {
      b := *;
      b := b && !sound;
    }

    method AnyFault() returns (f: Fault)
      ensures External(f) && (sound ==> f.NoFault?)
    {
      f := *;
      if sound || !External(f) {
        f := NoFault;
      }
    }

    /** Users, monitors and the reconcilers of other workloads do as they like. */
    method Interfere(k: Key)
      requires Valid()
      modifies this
      ensures Valid() && old(run) <= run && old(world).history <= world.history
      ensures LeftAlone(old(world), world, k) && Own(run, k) == Own(old(run), k)
      ensures quiet ==> world == old(world) && run == old(run)
    {
      if quiet {
        return;
      }
      var steps: seq<Step> := *;
      for i := 0 to |steps|
        invariant Valid() && old(run) <= run && old(world).history <= world.history
        invariant LeftAlone(old(world), world, k) && Own(run, k) == Own(old(run), k)
      {
        if IsOthers(steps[i], k) && Enabled(cfg, world, steps[i]) {
          OthersLeaveAlone(cfg, world, steps[i], k);
          OwnSnoc(run, steps[i], k);
          Take(steps[i]);
        }
      }
    }

    /** The deferred write of the copy's status to the newest version of the workload. */
    method UpdateResource(k: Key) returns (ghost write: Write)
      requires Valid() && InPhase(world, k, Recording)
      modifies this
      ensures Valid() && old(run) <= run && old(world).history <= world.history && k !in world.active
      ensures Own(run, k) == Own(old(run), k) + [Record(k, write)]
      ensures sound ==> write.Written?
      ensures write.Written? && k in world.workloads ==>
                world.workloads[k].status == old(world).active[k].app.status
                && "team" in world.workloads[k].labels && world.workloads[k].labels["team"] == k.namespace
      ensures quiet ==> world == Rest(Recorded(old(world), k, write), k)
      ensures quiet && write.NotWritten? ==> world.workloads == old(world).workloads
      ensures quiet && !write.NotWritten? && k in old(world).workloads ==> OnlyRecorded(old(world).workloads, world.workloads, k)
      ensures quiet && write.OnlyLabelled? && k in old(world).workloads && k in world.workloads ==>
                world.workloads[k].status == old(world).workloads[k].status
    {
      hide AfterAll, IsRun, Own;
      Interfere(k);
      var labelsFail := Fails();
      var statusFails := Fails();
      var w := Written;
      if k in world.workloads {
        var existing := world.workloads[k];
        var needsLabelUpdate := "team" !in existing.labels || existing.labels["team"] != k.namespace;
        if needsLabelUpdate && labelsFail {
          w := NotWritten;
        } else if statusFails {
          w := if needsLabelUpdate then OnlyLabelled else NotWritten;
        }
      }
      write := w;
      TakeOwn(k, Record(k, w));
    }

    /** A workload that nothing happened to since it was read gets the finalizer. */
    method AddFinalizer(k: Key) returns (ending: Ending)
      requires Valid() && InPhase(world, k, Claiming)
      modifies this
      ensures Valid() && old(run) <= run && old(world).history <= world.history && k !in world.active
      ensures ending.FinalizerSet? || ending.Errored?
      ensures ending.FinalizerSet? ==> Guarded(world, k) && Own(run, k) == Own(old(run), k) + [Claim(k, false)]
      ensures ending.FinalizerSet? && quiet && k in old(world).workloads && old(world).workloads[k] == old(world).active[k].app ==>
                OnlyClaimed(old(world).workloads, world.workloads, k) && world.server.objects == old(world).server.objects
      ensures quiet && sound && Current(old(world), k, old(world).active[k].app) ==> ending.FinalizerSet?
    {
      hide AfterAll, IsRun, Own;
      Interfere(k);
      var fails := Fails();
      var app := world.active[k].app;
      ending := if fails || !Current(world, k, app) then Errored else FinalizerSet;
      TakeOwn(k, Claim(k, fails));
      if ending.Errored? {
        var _ := UpdateResource(k);
      }
    }

    // -------------------------------------------------------------------------------------------
    // Clean-up after deletion
    // -------------------------------------------------------------------------------------------

    method ListLabelled(k: Key) returns (found: seq<Key>)
      requires InLists(world, k)
      ensures ListsExactly(world, k, found) && Distinct(found)
      ensures forall o :: o in found <==>
                && o in world.server.objects && IamOf(o, world.server.objects[o].m, k)
                && o.kind == if world.active[k].phase.stage.ListAccounts? then "IAMServiceAccount" else "IAMPolicy"
    {
      found := [];
      var left := world.server.objects.Keys;
      while left != {}
        invariant left <= world.server.objects.Keys && Distinct(found)
        invariant forall o :: o in found <==> o in world.server.objects.Keys - left && ListedFor(world, k, world.active[k].phase.stage, o)
        decreases left
      {
        var o :| o in left;
        if ListedFor(world, k, world.active[k].phase.stage, o) {
          found := found + [o];
        }
        left := left - {o};
      }
      assert forall o :: o in world.server.objects ==> o in world.server.objects.Keys - {};
      forall i | 0 <= i < |found| ensures found[i] in world.server.objects {
        assert found[i] in found;
      }
    }

    method ListOneKind(k: Key, app: Workload, list: Stage) returns (ok: bool, todo: seq<Key>)
      requires Valid() && (list.ListAccounts? || list.ListPolicies?)
      requires k in world.active && world.active[k] == Activity(app, Cleaning(list))
      modifies this
      ensures Valid() && old(run) <= run && old(world).history <= world.history
      ensures ok ==> k in world.active && world.active[k] == Activity(app, Cleaning(Deleting(list, todo)))
      ensures ok ==> Own(run, k) == Own(old(run), k) + [ListIam(k, Some(todo))] && Distinct(todo)
      ensures !ok ==> InPhase(world, k, Recording)
      ensures sound ==> ok
      ensures quiet ==> SameApart(old(world), world) && world.server == old(world).server
      ensures quiet && ok ==> ListsExactly(old(world), k, todo)
    {
      hide AfterAll, IsRun, Own;
      Interfere(k);
      var fails := Fails();
      todo := [];
      if !fails {
        todo := ListLabelled(k);
      }
      TakeOwn(k, ListIam(k, if fails then None else Some(todo)));
      ok := !fails;
    }

    method DeleteOne(k: Key, app: Workload, list: Stage, todo: seq<Key>) returns (ok: bool)
      requires Valid() && todo != []
      requires k in world.active && world.active[k] == Activity(app, Cleaning(Deleting(list, todo)))
      modifies this
      ensures Valid() && old(run) <= run && old(world).history <= world.history
      ensures ok ==> k in world.active && world.active[k] == Activity(app, Cleaning(Deleting(list, todo[1..])))
      ensures ok ==> Own(run, k) == Own(old(run), k) + [DeleteIam(k, NoFault)] && todo[0] !in world.server.objects
      ensures !ok ==> InPhase(world, k, Recording)
      ensures quiet && sound && todo[0] in old(world).server.objects ==> ok
      ensures quiet ==> SameApart(old(world), world)
      ensures quiet && ok ==> world.server == Deleted(old(world).server, todo[0])
    {
      hide AfterAll, IsRun, Own;
      Interfere(k);
      var f := AnyFault();
      if !Hits(f, 0) {
        f := NoFault;
      }
      var cli := new Client(world.server);
      cli.fault := f;
      var o := cli.Delete(todo[0]);
      TakeOwn(k, DeleteIam(k, f));
      assert world.server == cli.server;
      ok := o.Done?;
    }

    method NoneLeft(k: Key, app: Workload, list: Stage)
      requires Valid() && k in world.active && world.active[k] == Activity(app, Cleaning(Deleting(list, [])))
      modifies this
      ensures Valid() && old(run) <= run && old(world).history <= world.history
      ensures k in world.active && world.active[k] == Activity(app, Cleaning(if list.ListAccounts? then ListPolicies else DropImage))
      ensures Own(run, k) == Own(old(run), k) + [DeleteIam(k, NoFault)]
      ensures SameApart(old(world), world) && world.server == old(world).server
    {
      hide AfterAll, IsRun, Own;
      TakeOwn(k, DeleteIam(k, NoFault));
    }

    /** Lists one kind of IAM resource and deletes what it found, one by one. */
    method DeleteListed(k: Key, app: Workload, list: Stage) returns (ok: bool, ghost listed: seq<Key>)
      requires Valid() && (list.ListAccounts? || list.ListPolicies?)
      requires k in world.active && world.active[k] == Activity(app, Cleaning(list))
      modifies this
      ensures Valid() && old(run) <= run && old(world).history <= world.history
      ensures ok ==> k in world.active && world.active[k] == Activity(app, Cleaning(if list.ListAccounts? then ListPolicies else DropImage))
      ensures ok ==> Own(run, k) == Own(old(run), k) + Deletion(k, listed)
      ensures !ok ==> InPhase(world, k, Recording)
      ensures quiet && sound ==> ok
      ensures quiet ==> SameApart(old(world), world)
      ensures quiet && ok ==> ListsExactly(old(world), k, listed)
      ensures quiet && ok ==> forall o :: o in world.server.objects <==> o in old(world).server.objects && o !in listed
      ensures quiet && ok ==> forall o :: o in world.server.objects ==> world.server.objects[o] == old(world).server.objects[o]
    {
      hide AfterAll, IsRun, Own, ListsExactly, Repeated;
      var todo;
      ok, todo := ListOneKind(k, app, list);
      listed := todo;
      ghost var n := 0;
      ghost var before := Own(run, k);
      assert before + Repeated(DeleteIam(k, NoFault), 0) == before by { NoneRepeated(DeleteIam(k, NoFault)); }
      ghost var listing := world;
      while ok && todo != []
        invariant Valid() && old(run) <= run && old(world).history <= world.history
        invariant n <= |listed| && (ok ==> todo == listed[n..])
        invariant ok ==> k in world.active && world.active[k] == Activity(app, Cleaning(Deleting(list, todo)))
        invariant ok ==> Own(run, k) == before + Repeated(DeleteIam(k, NoFault), n)
        invariant !ok ==> InPhase(world, k, Recording)
        invariant quiet ==> SameApart(old(world), world) && (sound ==> ok)
        invariant quiet && ok ==> forall o :: o in world.server.objects <==> o in listing.server.objects && o !in listed[..n]
        invariant quiet && ok ==> forall o :: o in world.server.objects ==> world.server.objects[o] == listing.server.objects[o]
        decreases ok, |todo|
      {
        StillThere(old(world), k, listed, n);
        ok := DeleteOne(k, app, list, todo);
        todo := todo[1..];
        RepeatedSnoc(DeleteIam(k, NoFault), n);
        assert listed[..n + 1] == listed[..n] + [listed[n]];
        n := n + 1;
      }
      if ok {
        assert listed[..n] == listed;
        RepeatedSnoc(DeleteIam(k, NoFault), n);
        NoneLeft(k, app, list);
      }
    }

    method DeleteImageResource(k: Key, app: Workload) returns (ok: bool)
      requires Valid() && k in world.active && world.active[k] == Activity(app, Cleaning(DropImage))
      modifies this
      ensures Valid() && old(run) <= run && old(world).history <= world.history
      ensures ok ==> k in world.active && world.active[k] == Activity(app, Cleaning(Release))
      ensures ok ==> Own(run, k) == Own(old(run), k) + [RemoveImage(k, false)] && Key("Image", k.namespace, k.name) !in world.images
      ensures quiet && ok ==> world.images == old(world).images - {Key("Image", k.namespace, k.name)}
      ensures !ok ==> InPhase(world, k, Recording)
      ensures sound ==> ok
      ensures quiet ==> world.workloads == old(world).workloads && world.server == old(world).server
    {
      hide AfterAll, IsRun, Own;
      Interfere(k);
      var fails := Fails();
      TakeOwn(k, RemoveImage(k, fails));
      ok := !fails;
    }

    method RemoveFinalizer(k: Key, app: Workload) returns (ok: bool)
      requires Valid() && k in world.active && world.active[k] == Activity(app, Cleaning(Release))
      modifies this
      ensures Valid() && old(run) <= run && old(world).history <= world.history
      ensures ok ==> k !in world.active && !Guarded(world, k) && Own(run, k) == Own(old(run), k) + [Unclaim(k, false)]
      ensures !ok ==> InPhase(world, k, Recording)
      ensures quiet && sound && Current(old(world), k, app) ==> ok
      ensures quiet && ok ==> world == Released(old(world), k, false)
    {
      hide AfterAll, IsRun, Own;
      Interfere(k);
      var fails := Fails();
      ok := !fails && Current(world, k, app);
      TakeOwn(k, Unclaim(k, fails));
    }

    /** Service accounts, policies, the image, and only then the finalizer. */
    method CleanUpAfterDeletion(k: Key, app: Workload) returns (ending: Ending, ghost accounts: seq<Key>, ghost policies: seq<Key>)
      requires Valid() && k in world.active && IsWorkloadKey(k)
      requires world.active[k] == Activity(app, Cleaning(if cfg.cnrm then ListAccounts else DropImage))
      modifies this
      ensures Valid() && old(run) <= run && old(world).history <= world.history && k !in world.active
      ensures ending.CleanedUp? || ending.Errored?
      ensures ending.CleanedUp? ==> Own(run, k) == Own(old(run), k) + CleanUp(cfg.cnrm, k, accounts, policies)
      ensures ending.CleanedUp? ==> !Guarded(world, k)
      ensures ending.CleanedUp? && cfg.cnrm && Quiet(start) && NoOrphans(start) ==> NoIamOf(world, k) || Guarded(world, Twin(k))
      ensures quiet && sound && Current(old(world), k, app) ==> ending.CleanedUp?
      ensures quiet && ending.CleanedUp? ==>
                && LessIamOf(old(world), world, k, cfg.cnrm)
                && world.images == old(world).images - {Key("Image", k.namespace, k.name)}
                && (k in old(world).workloads && old(world).workloads[k] == app ==> OnlyReleased(old(world).workloads, world.workloads, k))
    {
      hide AfterAll, After, Enabled, IsRun, Own, Deletion, Inv, ListsExactly, Released, Current, LessIamOf, OnlyReleased, IamOf;
      accounts, policies := [], [];
      var ok := true;
      if cfg.cnrm {
        ok, accounts := DeleteListed(k, app, ListAccounts);
        if ok {
          ghost var between := world;
          ok, policies := DeleteListed(k, app, ListPolicies);
          if quiet && ok {
            LeftByBoth(old(world), between, world, k, app, accounts, policies);
          }
        }
      }
      if ok {
        ok := DeleteImageResource(k, app);
      }
      if ok {
        StillCurrent(old(world), world, k, app);
        ghost var last := world;
        ok := RemoveFinalizer(k, app);
        if ok {
          if quiet {
            CleanedUpAs(old(world), last, world, k, app, cfg.cnrm);
          }
          if cfg.cnrm && Quiet(start) && NoOrphans(start) {
            AlwaysSafe(|run|);
            TwinOrNone(world, k);
          }
          return CleanedUp, accounts, policies;
        }
      }
      var _ := UpdateResource(k);
      ending := Errored;
    }

    // -------------------------------------------------------------------------------------------
    // Rollout
    // -------------------------------------------------------------------------------------------

    method GetWantedImage(k: Key, app: Workload, fails: bool) returns (wanted: Option<string>)
      ensures wanted == if app.spec.image != "" then Some(app.spec.image)
                        else if !fails && Key("Image", k.namespace, k.name) in world.images then
                          Some(world.images[Key("Image", k.namespace, k.name)])
                        else None
    {
      if app.spec.image != "" {
        return Some(app.spec.image);
      }
      if fails || ImageKey(k) !in world.images {
        return None;
      }
      return Some(world.images[ImageKey(k)]);
    }

    method DrawUpCommits(k: Key, app: Workload, ops: seq<Operation>) returns (commits: seq<Operation>)
      requires Valid() && k in world.active && world.active[k] == Activity(app, Planning(ops))
      modifies this
      ensures Valid() && old(run) <= run && old(world).history <= world.history
      ensures k in world.active && world.active[k] == Activity(app, Syncing(commits))
      ensures PlannedOn(world.server, cfg.listers, Rollout(Source(k.kind, k.namespace, k.name, app.uid), ops), commits)
      ensures sound && AllKnown(ops) ==>
                DeletesThenOperations(world.server, cfg.listers, Rollout(Source(k.kind, k.namespace, k.name, app.uid), ops), commits)
      ensures quiet ==> SameApart(old(world), world) && world.server == old(world).server
    {
      hide AfterAll, IsRun, Own, PlannedOn, DeletesThenOperations;
      Interfere(k);
      var f := AnyFault();
      var cli := new Client(world.server);
      cli.fault := f;
      commits := ClusterOperations(cli, cfg.listers, RolloutOf(world, k));
      TakeOwn(k, Plan(k, commits));
    }

    method RunNext(k: Key, app: Workload, commits: seq<Operation>) returns (o: Outcome, ghost fault: Fault)
      requires Valid() && commits != []
      requires k in world.active && world.active[k] == Activity(app, Syncing(commits))
      modifies this
      ensures Valid() && old(run) <= run && old(world).history <= world.history
      ensures o.Done? ==> k in world.active && world.active[k] == Activity(app, Syncing(commits[1..]))
      ensures o.Failed? ==> InPhase(world, k, Recording) && Concluded(k, app.uid, cfg.hash(app.spec), o) in world.history
      ensures o.Failed? ==> world.active[k].app == app.(status := Concluding(app, o))
      ensures quiet ==> SameApart(old(world), world)
      ensures External(fault) && (sound ==> fault.NoFault?)
      ensures quiet ==> (world.server, o) == Commit(old(world).server, commits[0], fault)
    {
      hide AfterAll, IsRun, Own, Commit;
      Interfere(k);
      var f := AnyFault();
      var cli := new Client(world.server);
      cli.fault := f;
      fault := f;
      o := Run(cli, commits[0]);
      TakeOwn(k, CommitNext(k, f));
      assert world.server == cli.server;
      assert o.Failed? ==> world.history[|world.history| - 1] == Concluded(k, app.uid, cfg.hash(app.spec), o);
    }

    method Finish(k: Key, app: Workload)
      requires Valid() && k in world.active && world.active[k] == Activity(app, Syncing([]))
      modifies this
      ensures Valid() && old(run) <= run && old(world).history <= world.history
      ensures InPhase(world, k, Recording) && Concluded(k, app.uid, cfg.hash(app.spec), Done) in world.history
      ensures world.active[k].app == app.(status := Concluding(app, Done))
      ensures SameApart(old(world), world) && world.server == old(world).server
    {
      hide AfterAll, IsRun, Own;
      TakeOwn(k, Conclude(k));
      assert world.history[|world.history| - 1] == Concluded(k, app.uid, cfg.hash(app.spec), Done);
    }

    /** The status to record after a Sync: a conflict leaves the hash as it was. */
    ghost function Concluding(app: Workload, o: Outcome): Status {
      match o
      case Done => Status(SyncState.Synchronized, cfg.hash(app.spec), app.status.effectiveImage)
      case Failed(Conflict) => Status(Retrying, app.status.hash, app.status.effectiveImage)
      case Failed(_) => Status(FailedSynchronization, cfg.hash(app.spec), app.status.effectiveImage)
    }

    /** Plans the rollout and runs its commits, others acting between any two of them. */
    method Sync(k: Key, app: Workload, ops: seq<Operation>)
      returns (retry: bool, o: Outcome, ghost planned: seq<Operation>, ghost faults: Faults)
      requires Valid() && k in world.active && world.active[k] == Activity(app, Planning(ops))
      modifies this
      ensures Valid() && old(run) <= run && old(world).history <= world.history
      ensures InPhase(world, k, Recording)
      ensures retry <==> o == Failed(Conflict)
      ensures Concluded(k, app.uid, cfg.hash(app.spec), o) in world.history
      ensures world.active[k].app == app.(status := Concluding(app, o))
      ensures quiet ==> SameApart(old(world), world)
      ensures quiet ==> PlannedOn(old(world).server, cfg.listers, Rollout(Source(k.kind, k.namespace, k.name, app.uid), ops), planned)
      ensures quiet && sound && AllKnown(ops) ==>
                DeletesThenOperations(old(world).server, cfg.listers, Rollout(Source(k.kind, k.namespace, k.name, app.uid), ops), planned)
      ensures AllExternal(faults) && (sound ==> faults == NO_FAULTS)
      ensures quiet ==> (world.server, o) == RunCommits(old(world).server, planned, faults)
    {
      hide AfterAll, IsRun, Own, PlannedOn, DeletesThenOperations, Commit, AllKnown;
      var commits := DrawUpCommits(k, app, ops);
      planned, faults := commits, NO_FAULTS;
      ghost var n := 0;
      while commits != []
        invariant Valid() && old(run) <= run && old(world).history <= world.history
        invariant k in world.active && world.active[k] == Activity(app, Syncing(commits))
        invariant n <= |planned| && commits == planned[n..]
        invariant quiet ==> SameApart(old(world), world)
        invariant AllExternal(faults) && (sound ==> faults == NO_FAULTS)
        invariant quiet ==> (world.server, Done) == RunCommits(old(world).server, planned[..n], faults)
        decreases |commits|
      {
        ghost var fault;
        o, fault := RunNext(k, app, commits);
        ghost var met := Met(faults, n, fault);
        if quiet {
          OneMoreRun(old(world).server, planned, faults, n, fault);
        }
        faults := met;
        if o.Failed? {
          if quiet {
            FailureStops(old(world).server, planned, faults, n + 1);
          }
          return o.error == Conflict, o, planned, faults;
        }
        commits := commits[1..];
        n := n + 1;
      }
      assert planned[..n] == planned;
      Finish(k, app);
      return false, Done, planned, faults;
    }

    /** Reads the workload and decides what is to be done about it. */
    method Start(k: Key) returns (ok: bool, read: Option<Workload>)
      requires Valid() && IsWorkloadKey(k) && k !in world.active
      modifies this
      ensures Valid() && old(run) <= run && old(world).history <= world.history
      ensures sound ==> ok
      ensures ok ==> Own(run, k) == Own(old(run), k) + [Begin(k)]
      ensures !ok || read.None? ==> k !in world.active
      ensures ok && read.Some? ==>
                var app := read.value;
                if app.deleting && FINALIZER !in app.finalizers then k !in world.active
                else k in world.active &&
                     world.active[k] == Activity(app, if app.deleting then Cleaning(if cfg.cnrm then ListAccounts else DropImage)
                                                      else if FINALIZER !in app.finalizers then Claiming
                                                      else Preparing)
      ensures ok ==> read == if k in world.workloads then Some(world.workloads[k]) else None
      ensures quiet ==> SameApart(old(world), world) && world.server == old(world).server
    {
      hide AfterAll, IsRun, Own;
      Interfere(k);
      var fails := Fails();
      if fails {
        return false, None;
      }
      read := if k in world.workloads then Some(world.workloads[k]) else None;
      TakeOwn(k, Begin(k));
      return true, read;
    }

    method Look(k: Key, look: Look)
      requires Valid() && InPhase(world, k, Preparing) && Sees(world, k, look)
      modifies this
      ensures Valid() && old(run) <= run && old(world).history <= world.history
      ensures world == LookedOver(cfg, old(world), k, look)
    {
      hide AfterAll, IsRun, Own, Sees;
      TakeOwn(k, LookOver(k, look));
    }

    /** Skips the workload, fails, or goes on with what was generated; in the latter two cases the
      * wanted image, once known, is noted in the copy. */
    method Prepare(k: Key, app: Workload, generation: Generation)
      returns (ending: Option<Ending>, prepared: Workload, ops: seq<Operation>, ghost wanted: Option<string>)
      requires Valid() && k in world.active && world.active[k] == Activity(app, Preparing)
      requires generation.Operations? ==> GeneratedBy(k, generation.ops)
      modifies this
      ensures Valid() && old(run) <= run && old(world).history <= world.history
      ensures app.spec.image != "" ==> wanted == Some(app.spec.image)
      ensures app.spec.image == "" && wanted.Some? ==> StoredImage(world, k) == wanted
      ensures app.spec.image == "" && wanted.None? && sound ==> StoredImage(world, k).None?
      ensures ending == Some(Skipped) <==>
                && wanted.Some? && app.status.hash == cfg.hash(app.spec)
                && (wanted.value == app.status.effectiveImage || (app.status.effectiveImage == "" && app.spec.image != ""))
      ensures ending == Some(Skipped) ==> k !in world.active
      ensures ending.Some? && ending.value != Skipped ==>
                && InPhase(world, k, Recording)
                && ending.value == (if wanted.Some? && generation.GenerateError? then GenerateFailed else Ending.PrepareFailed)
                && (wanted.Some? ==> !generation.Operations?)
                && world.active[k].app == app.(status := app.status.(
                     state := if ending.value.GenerateFailed? then FailedGenerate else SyncState.FailedPrepare,
                     effectiveImage := if wanted.Some? then wanted.value else app.status.effectiveImage))
      ensures ending.None? ==>
                && wanted.Some? && generation == Operations(ops)
                && k in world.active && world.active[k] == Activity(prepared, Planning(ops))
                && prepared == app.(status := app.status.(effectiveImage := wanted.value))
      ensures quiet ==> SameApart(old(world), world) && world.server == old(world).server
    {
      hide AfterAll, Inv, After, Enabled, IsRun, GeneratedBy, Own;
      prepared, ops := app, [];
      Interfere(k);
      var imageFails := Fails();
      var image := GetWantedImage(k, app, imageFails);
      wanted := image;
      if image.None? {
        Look(k, LookupFailed);
        return Some(Ending.PrepareFailed), app, [], wanted;
      }
      var look := match generation
        case PrepareError => Unprepared(image.value)
        case GenerateError => Ungenerated(image.value)
        case Operations(ops) => Generated(image.value, ops);
      Look(k, look);
      if !ImageHasChanged(image.value, app) && app.status.hash == cfg.hash(app.spec) {
        return Some(Skipped), app, [], wanted;
      }
      match generation {
        case PrepareError => ending := Some(Ending.PrepareFailed);
        case GenerateError => ending := Some(GenerateFailed);
        case Operations(generated) =>
          ending, prepared, ops := None, app.(status := app.status.(effectiveImage := image.value)), generated;
      }
    }

    /** The status that is stored when a reconcile has ended with a failure or a Sync. */
    ghost predicate Tells(v: World, k: Key, app: Workload, wanted: Option<string>, ending: Ending) {
      k in v.workloads ==>
        var status, before, after := v.workloads[k].status, app.status.hash, cfg.hash(app.spec);
        var image := if wanted.Some? then wanted.value else app.status.effectiveImage;
        match ending
        case PrepareFailed => status == Status(FailedPrepare, before, image)
        case GenerateFailed => status == Status(FailedGenerate, before, image)
        case Retry => status == Status(Retrying, before, image)
        case FailedForGood => status == Status(FailedSynchronization, after, image)
        case Synchronized => status == Status(SyncState.Synchronized, after, image)
        case _ => true
    }

    /** The rollout itself, for a copy that already holds the wanted image. */
    method SyncAndRecord(k: Key, ghost app: Workload, ghost wanted: Option<string>, prepared: Workload, ops: seq<Operation>)
      returns (ending: Ending, monitors: bool, ghost planned: seq<Operation>)
      requires Valid() && k in world.active && world.active[k] == Activity(prepared, Planning(ops))
      requires wanted.Some? && prepared == app.(status := app.status.(effectiveImage := wanted.value))
      modifies this
      ensures Valid() && old(run) <= run && old(world).history <= world.history && k !in world.active
      ensures SyncEnded(world, k, app, ending)
      ensures monitors <==> ending.Synchronized?
      ensures ending.Synchronized? || ending.Retry? || ending.FailedForGood?
      ensures sound ==> Tells(world, k, app, wanted, ending)
      ensures quiet && sound && k in old(world).workloads ==>
                RanAs(old(world), world, k, app, ops, planned, ending) && OnlyRecorded(old(world).workloads, world.workloads, k)
    {
      hide AfterAll, IsRun, Own, PlannedOn, DeletesThenOperations, AllKnown, RanAs, SyncEnded, Recorded, Tells, Concluding, OnlyRecorded;
      var retry, o;
      ghost var faults;
      retry, o, planned, faults := Sync(k, prepared, ops);
      ghost var entry := Concluded(k, app.uid, cfg.hash(app.spec), o);
      ghost var i :| 0 <= i < |world.history| && world.history[i] == entry;
      ghost var synced := world;
      ghost var write := UpdateResource(k);
      assert world.history[i] == entry;
      monitors := o.Done?;
      ending := if o.Done? then Ending.Synchronized else if retry then Retry else FailedForGood;
      EndedIn(world, k, app, ending, o, i);
      if sound {
        ToldAfterSync(world, k, app, wanted, prepared, ending, o);
      }
      if quiet && sound && k in old(world).workloads {
        RecordedTicks(synced, k);
        RanFrom(old(world), world, k, app, ops, planned, ending, o);
      }
    }

    /** What a reconcile does with a live workload that carries the finalizer; also says whether it
      * starts a rollout monitor. */
    method RollOut(k: Key, app: Workload, generation: Generation)
      returns (ending: Ending, monitors: bool, ghost wanted: Option<string>, ghost planned: seq<Operation>)
      requires Valid() && k in world.active && world.active[k] == Activity(app, Preparing)
      requires generation.Operations? ==> GeneratedBy(k, generation.ops)
      modifies this
      ensures Valid() && old(run) <= run && old(world).history <= world.history && k !in world.active
      ensures ending.Skipped? <==>
                && wanted.Some? && app.status.hash == cfg.hash(app.spec)
                && (wanted.value == app.status.effectiveImage || (app.status.effectiveImage == "" && app.spec.image != ""))
      ensures wanted.None? ==> ending.PrepareFailed?
      ensures wanted.Some? && !ending.Skipped? ==>
                match generation
                case PrepareError => ending.PrepareFailed?
                case GenerateError => ending.GenerateFailed?
                case Operations(_) => SyncEnded(world, k, app, ending)
      ensures monitors <==> ending.Synchronized? || (ending.Skipped? && app.status.state.Synchronized?)
      ensures app.spec.image != "" ==> wanted == Some(app.spec.image)
      ensures app.spec.image == "" && quiet && wanted.Some? ==> StoredImage(old(world), k) == wanted
      ensures app.spec.image == "" && quiet && sound && wanted.None? ==> StoredImage(old(world), k).None?
      ensures sound ==> Tells(world, k, app, wanted, ending)
      ensures quiet && ending.Skipped? ==> SameApart(old(world), world) && world.server == old(world).server
      ensures quiet && sound && !ending.Skipped? && k in old(world).workloads ==> OnlyRecorded(old(world).workloads, world.workloads, k)
      ensures quiet && sound && k in old(world).workloads && generation.Operations? && SyncEnded(world, k, app, ending) ==>
                RanAs(old(world), world, k, app, generation.ops, planned, ending)
    {
      hide AfterAll, Inv, After, Enabled, IsRun, GeneratedBy, Own, PlannedOn, DeletesThenOperations, AllKnown, Skips;
      hide RanAs, SyncEnded, Recorded, Wants, Tells, Concluding, OnlyRecorded;
      planned := [];
      var early, prepared, ops;
      early, prepared, ops, wanted := Prepare(k, app, generation);
      ghost var ready := world;
      if early.None? {
        ending, monitors, planned := SyncAndRecord(k, app, wanted, prepared, ops);
        if quiet && sound && k in old(world).workloads {
          SameServerRan(old(world), ready, world, k, app, ops, planned, ending);
        }
      } else {
        ending := early.value;
        monitors := ending.Skipped? && app.status.state.Synchronized?;
        ghost var copy := if ending.Skipped? then app else world.active[k].app;
        if !ending.Skipped? {
          var _ := UpdateResource(k);
        }
        if sound {
          ToldEarly(world, k, app, wanted, copy, ending);
        }
        if SyncEnded(world, k, app, ending) {
          EndedMeans(world, k, app, ending);
        }
      }
    }

    lemma ToldAfterSync(v: World, k: Key, app: Workload, wanted: Option<string>, prepared: Workload, ending: Ending, o: Outcome)
      requires wanted.Some? && prepared == app.(status := app.status.(effectiveImage := wanted.value))
      requires k in v.workloads ==> v.workloads[k].status == Concluding(prepared, o)
      requires ending == if o.Done? then Ending.Synchronized else if o == Failed(Conflict) then Retry else FailedForGood
      ensures Tells(v, k, app, wanted, ending)
    {
    }

    lemma ToldEarly(v: World, k: Key, app: Workload, wanted: Option<string>, copy: Workload, ending: Ending)
      requires ending.Skipped? || ending.PrepareFailed? || ending.GenerateFailed?
      requires !ending.Skipped? ==>
                 && copy.status == Status(if ending.GenerateFailed? then FailedGenerate else SyncState.FailedPrepare,
                                          app.status.hash,
                                          if wanted.Some? then wanted.value else app.status.effectiveImage)
                 && (k in v.workloads ==> v.workloads[k].status == copy.status)
      ensures Tells(v, k, app, wanted, ending)
    {
    }

    lemma RanFrom(w: World, v: World, k: Key, app: Workload, ops: seq<Operation>, planned: seq<Operation>, ending: Ending, o: Outcome)
      requires PlannedOn(w.server, cfg.listers, Rollout(Source(k.kind, k.namespace, k.name, app.uid), ops), planned)
      requires AllKnown(ops) ==>
                 DeletesThenOperations(w.server, cfg.listers, Rollout(Source(k.kind, k.namespace, k.name, app.uid), ops), planned)
      requires RunCommits(w.server, planned, NO_FAULTS).1 == o && v.server == Ticked(RunCommits(w.server, planned, NO_FAULTS).0)
      requires ending == if o.Done? then Ending.Synchronized else if o == Failed(Conflict) then Retry else FailedForGood
      ensures RanAs(w, v, k, app, ops, planned, ending)
    {
      hide RunCommits, PlannedOn, DeletesThenOperations, AllKnown;
    }

    lemma EndedIn(w: World, k: Key, app: Workload, ending: Ending, o: Outcome, i: nat)
      requires i < |w.history| && w.history[i] == Concluded(k, app.uid, cfg.hash(app.spec), o)
      requires ending == if o.Done? then Ending.Synchronized else if o == Failed(Conflict) then Retry else FailedForGood
      ensures SyncEnded(w, k, app, ending)
    {
    }

    lemma EndedMeans(w: World, k: Key, app: Workload, ending: Ending)
      requires SyncEnded(w, k, app, ending)
      ensures ending.Synchronized? || ending.Retry? || ending.FailedForGood?
    {
    }

    ghost predicate SyncEnded(w: World, k: Key, app: Workload, ending: Ending) {
      match ending
      case Synchronized => Concluded(k, app.uid, cfg.hash(app.spec), Done) in w.history
      case Retry => Concluded(k, app.uid, cfg.hash(app.spec), Failed(Conflict)) in w.history
      case FailedForGood => EndedFor(w, k, app.uid, cfg.hash(app.spec))
      case _ => false
    }

    /** The rollout was planned on the server as it was and run to its end, which is how the reconcile
      * ended; recording the status only moved the clock. */
    ghost predicate RanAs(w: World, v: World, k: Key, app: Workload, ops: seq<Operation>, planned: seq<Operation>, ending: Ending) {
      var r := Rollout(Source(k.kind, k.namespace, k.name, app.uid), ops);
      var (server, o) := RunCommits(w.server, planned, NO_FAULTS);
      && PlannedOn(w.server, cfg.listers, r, planned)
      && (AllKnown(ops) ==> DeletesThenOperations(w.server, cfg.listers, r, planned))
      && v.server == Ticked(server)
      && (ending.Synchronized? <==> o.Done?) && (ending.Retry? <==> o == Failed(Conflict))
    }

    lemma SameServerRan(w: World, began: World, v: World, k: Key, app: Workload, ops: seq<Operation>, planned: seq<Operation>, ending: Ending)
      ensures w.server == began.server && RanAs(began, v, k, app, ops, planned, ending) ==> RanAs(w, v, k, app, ops, planned, ending)
    {
      hide RunCommits, PlannedOn, DeletesThenOperations, AllKnown;
    }

    /** Returns how the reconcile ended, the copy of the workload it worked on, and whether it starts a
      * rollout monitor. Each ending says what was done; and when others hold still and no call fails,
      * the state it began in decides the ending and the outcome. */
    method Reconcile(k: Key, generation: Generation)
      returns (ending: Ending, app: Option<Workload>, monitors: bool, ghost wanted: Option<string>, ghost planned: seq<Operation>)
      requires Valid() && IsWorkloadKey(k) && k !in world.active
      requires generation.Operations? ==> GeneratedBy(k, generation.ops)
      modifies this
      ensures Valid() && old(run) <= run && old(world).history <= world.history && k !in world.active
      ensures ending.Gone? ==> app.None?
      ensures !ending.Gone? && !ending.Errored? ==> app.Some?
      ensures ending.FinalizerSet? ==> Guarded(world, k) && Own(run, k) == Own(old(run), k) + [Begin(k), Claim(k, false)]
      ensures ending.CleanedUp? ==> app.value.deleting
      ensures ending.CleanedUp? && FINALIZER in app.value.finalizers ==>
                && !Guarded(world, k)
                && exists accounts, policies :: Own(run, k) == Own(old(run), k) + [Begin(k)] + CleanUp(cfg.cnrm, k, accounts, policies)
      ensures ending.CleanedUp? && FINALIZER in app.value.finalizers && cfg.cnrm && Quiet(start) && NoOrphans(start) ==>
                NoIamOf(world, k) || Guarded(world, Twin(k))
      ensures wanted.Some? ==> app.Some? && (app.value.spec.image != "" ==> wanted.value == app.value.spec.image)
      ensures ending.Skipped? <==>
                && wanted.Some? && app.value.status.hash == cfg.hash(app.value.spec)
                && (wanted.value == app.value.status.effectiveImage
                    || (app.value.status.effectiveImage == "" && app.value.spec.image != ""))
      ensures sound && app.Some? ==> Tells(world, k, app.value, wanted, ending)
      ensures ending.Synchronized? || ending.Retry? || ending.FailedForGood? ==> SyncEnded(world, k, app.value, ending)
      ensures monitors <==> ending.Synchronized? || (ending.Skipped? && app.value.status.state.Synchronized?)
      ensures quiet && sound ==> app == if k in old(world).workloads then Some(old(world).workloads[k]) else None
      ensures quiet && sound ==> Expected(old(world), world, k, generation, ending, wanted, planned)
    {
      hide AfterAll, Inv, After, Enabled, IsRun, GeneratedBy, Own, RanAs, Skips, CleanUp, Claimed, SyncEnded;
      hide OnlyClaimed, OnlyReleased, OnlyRecorded;
      wanted, planned := None, [];
      var ok, read := Start(k);
      monitors, app := false, read;
      if !ok || read.None? {
        ending := if ok then Gone else Errored;
      } else if read.value.deleting {
        ending := CleanedUp;
        if FINALIZER in read.value.finalizers {
          ghost var accounts, policies;
          ending, accounts, policies := CleanUpAfterDeletion(k, read.value);
        }
      } else if FINALIZER !in read.value.finalizers {
        ghost var began := Own(run, k);
        ending := AddFinalizer(k);
        assert ending.FinalizerSet? ==> Own(run, k) == Own(old(run), k) + [Begin(k), Claim(k, false)];
      } else {
        ghost var began := world;
        ending, monitors, wanted, planned := RollOut(k, read.value, generation);
        if SyncEnded(world, k, read.value, ending) {
          EndedMeans(world, k, read.value, ending);
        }
        if generation.Operations? {
          SameServerRan(old(world), began, world, k, read.value, generation.ops, planned, ending);
        }
      }
    }

    /** What an undisturbed reconcile comes to. */
    ghost predicate Expected(w: World, v: World, k: Key, generation: Generation, ending: Ending, wanted: Option<string>, planned: seq<Operation>) {
      if k !in w.workloads then ending.Gone?
      else
        var app := w.workloads[k];
        if app.deleting then
          && ending.CleanedUp?
          && (if FINALIZER in app.finalizers then
                && !Guarded(v, k) && LessIamOf(w, v, k, cfg.cnrm) && v.images == w.images - {Key("Image", k.namespace, k.name)}
                && OnlyReleased(w.workloads, v.workloads, k)
              else v.workloads == w.workloads && v.images == w.images && v.server == w.server)
        else if FINALIZER !in app.finalizers then
          ending.FinalizerSet? && OnlyClaimed(w.workloads, v.workloads, k) && v.server.objects == w.server.objects
        else
          && wanted == (if app.spec.image != "" then Some(app.spec.image) else StoredImage(w, k))
          && (ending.Skipped? <==>
                && wanted.Some? && app.status.hash == cfg.hash(app.spec)
                && (wanted.value == app.status.effectiveImage || (app.status.effectiveImage == "" && app.spec.image != "")))
          && (if ending.Skipped? then v.workloads == w.workloads && v.server == w.server
              else OnlyRecorded(w.workloads, v.workloads, k))
          && (wanted.None? ==> ending.PrepareFailed?)
          && (wanted.Some? && !ending.Skipped? ==>
                match generation
                case PrepareError => ending.PrepareFailed?
                case GenerateError => ending.GenerateFailed?
                case Operations(ops) => RanAs(w, v, k, app, ops, planned, ending))
    }
  }

  // ---------------------------------------------------------------------------------------------
  // What the clean-up relies on
  // ---------------------------------------------------------------------------------------------

  lemma RecordedTicks(w: World, k: Key)
    requires InPhase(w, k, Recording) && k in w.workloads
    ensures Rest(Recorded(w, k, Written), k).server == Ticked(w.server)
  {
  }

  lemma NoneRepeated(s: Step)
    ensures Repeated(s, 0) == []
  {
  }

  /** What was listed is there until it is deleted. */
  lemma StillThere(w: World, k: Key, listed: seq<Key>, n: nat)
    ensures n < |listed| && Distinct(listed) ==> listed[n] !in listed[..n]
    ensures InLists(w, k) && ListsExactly(w, k, listed) && n < |listed| ==> listed[n] in w.server.objects
  {
  }

  lemma LeftByBoth(w: World, between: World, v: World, k: Key, app: Workload, accounts: seq<Key>, policies: seq<Key>)
    requires k in w.active && w.active[k] == Activity(app, Cleaning(ListAccounts)) && ListsExactly(w, k, accounts)
    requires k in between.active && between.active[k] == Activity(app, Cleaning(ListPolicies)) && ListsExactly(between, k, policies)
    requires forall o :: o in between.server.objects <==> o in w.server.objects && o !in accounts
    requires forall o :: o in between.server.objects ==> between.server.objects[o] == w.server.objects[o]
    requires forall o :: o in v.server.objects <==> o in between.server.objects && o !in policies
    requires forall o :: o in v.server.objects ==> v.server.objects[o] == between.server.objects[o]
    ensures LessIamOf(w, v, k, true)
  {
    forall o | o in w.server.objects
      ensures o in v.server.objects <==> !IamOf(o, w.server.objects[o].m, k)
    {
      assert o in accounts <==> ListedFor(w, k, ListAccounts, o);
      assert o in between.server.objects ==> (o in policies <==> ListedFor(between, k, ListPolicies, o));
    }
  }

  lemma CleanedUpAs(w: World, last: World, v: World, k: Key, app: Workload, cnrm: bool)
    requires if cnrm then LessIamOf(w, last, k, true) else last.server.objects == w.server.objects
    requires last.workloads == w.workloads && last.images == w.images - {Key("Image", k.namespace, k.name)}
    requires k in last.active && last.active[k] == Activity(app, Cleaning(Release))
    requires v == Released(last, k, false) && k !in v.active
    ensures LessIamOf(w, v, k, cnrm) && v.images == w.images - {Key("Image", k.namespace, k.name)}
    ensures k in w.workloads && w.workloads[k] == app ==> OnlyReleased(w.workloads, v.workloads, k)
  {
  }

  lemma StillCurrent(w: World, v: World, k: Key, app: Workload)
    ensures v.workloads == w.workloads ==> (Current(w, k, app) <==> Current(v, k, app))
  {
  }

  lemma TwinOrNone(w: World, k: Key)
    requires NoOrphans(w) && IsWorkloadKey(k) && !Guarded(w, k)
    ensures NoIamOf(w, k) || Guarded(w, Twin(k))
  {
    if !NoIamOf(w, k) {
      var o :| o in w.server.objects && IamOf(o, w.server.objects[o].m, k);
      assert LabelledFor(w.server.objects[o].m, k.namespace, k.name);
    }
  }
}
