/** What every Sync guarantees, whatever its rollout, wherever it stops. */
module SyncLaws {
  import opened Cluster
  import opened Updater
  import opened Sync
  import opened Wrappers

  ghost function StateAt(s: Server, commits: seq<Operation>, faults: Faults, n: nat): Server
    requires n <= |commits|
  {
    RunCommits(s, commits[..n], faults).0
  }

  /** A run that succeeds is a chain of commits that succeed. */
  lemma StepAt(s: Server, commits: seq<Operation>, faults: Faults, n: nat)
    requires n < |commits| && RunCommits(s, commits, faults).1.Done?
    ensures Commit(StateAt(s, commits, faults, n), commits[n], faults(n)) == (StateAt(s, commits, faults, n + 1), Done)
  {
    if RunCommits(s, commits[..n], faults).1.Failed? {
      FailureStops(s, commits, faults, n);
    }
    if RunCommits(s, commits[..n + 1], faults).1.Failed? {
      FailureStops(s, commits, faults, n + 1);
    }
    assert commits[..n + 1][..n] == commits[..n];
  }

  lemma BrokenPlan(s: Server, commits: seq<Operation>, faults: Faults)
    requires |commits| > 0 && commits[0].ty.Unknown?
    ensures RunCommits(s, commits, faults).0 == s && RunCommits(s, commits, faults).1.Failed?
  {
    assert commits[..1][..0] == [];
    assert RunCommits(s, [], faults) == (s, Done);
    FailureStops(s, commits, faults, 1);
  }

  // ---------------------------------------------------------------------------------------------
  // Frame
  // ---------------------------------------------------------------------------------------------

  ghost predicate SameAt(s: Server, t: Server, k: Key) {
    && (k in t.objects <==> k in s.objects)
    && (k in s.objects ==> t.objects[k] == s.objects[k])
  }

  lemma {:induction false} RunFrame(s: Server, commits: seq<Operation>, faults: Faults, k: Key)
    requires forall i :: 0 <= i < |commits| ==> commits[i].key != k
    ensures RunCommits(s, commits, faults).0.namespaces == s.namespaces
    ensures SameAt(s, RunCommits(s, commits, faults).0, k)
    decreases |commits|
  {
    if commits != [] {
      var last := |commits| - 1;
      RunFrame(s, commits[..last], faults, k);
      CommitFrame(RunCommits(s, commits[..last], faults).0, commits[last], faults(last), k);
    }
  }

  lemma {:induction false} NamespacesKept(s: Server, commits: seq<Operation>, faults: Faults)
    ensures RunCommits(s, commits, faults).0.namespaces == s.namespaces
    decreases |commits|
  {
    if commits != [] {
      NamespacesKept(s, commits[..|commits| - 1], faults);
    }
  }

  ghost predicate IsTarget(ops: seq<Operation>, k: Key) {
    exists i :: 0 <= i < |ops| && ops[i].key == k
  }

  /** A Sync, wherever it stops, touches only the objects its rollout names and the listed,
    * labelled and owned ones of which the rollout names none of the same kind and name. */
  lemma SyncFrame(s: Server, listers: seq<string>, r: Rollout, commits: seq<Operation>, faults: Faults, k: Key)
    requires PlannedOn(s, listers, r, commits)
    requires forall i :: 0 <= i < |r.ops| ==> r.ops[i].key != k
    requires k in s.objects ==>
               var m := s.objects[k].m;
               || k.kind !in listers
               || "app" !in m.labels || m.labels["app"] != r.source.name
               || (forall i :: 0 <= i < |m.owners| ==> m.owners[i].uid != r.source.uid)
               || exists i :: 0 <= i < |r.ops| && r.ops[i].key.kind == k.kind && r.ops[i].key.name == k.name
    ensures var t := RunCommits(s, commits, faults).0;
            && (k in t.objects <==> k in s.objects)
            && (k in s.objects ==> t.objects[k] == s.objects[k])
  {
    if StopsAtOnce(r, commits) {
      BrokenPlan(s, commits, faults);
    } else {
      var deletes := commits[..|commits| - |r.ops|];
      assert commits == deletes + r.ops;
      forall i | 0 <= i < |commits| ensures commits[i].key != k {
        if i < |deletes| {
          assert deletes[i].key in Unreferenced(s, listers, r);
        } else {
          assert commits[i] == r.ops[i - |deletes|];
        }
      }
      RunFrame(s, commits, faults, k);
    }
  }

  // ---------------------------------------------------------------------------------------------
  // Objects of others
  // ---------------------------------------------------------------------------------------------

  /** No operation may take over, recreate or delete `k`. */
  ghost predicate OffLimits(s: Server, ops: seq<Operation>, k: Key)
    requires k in s.objects
  {
    forall i :: 0 <= i < |ops| && ops[i].key == k ==>
      && !ops[i].ty.CreateOrRecreate? && !ops[i].ty.DeleteIfExists?
      && (ops[i].ty.CreateOrUpdate? ==> !MayOverwrite(ops[i].m, s.objects[k].m, IsPostgresNamespace(s, k.namespace)))
  }

  ghost predicate Annotates(ops: seq<Operation>, k: Key) {
    exists i :: 0 <= i < |ops| && ops[i].key == k && ops[i].ty.AnnotateIfExists?
  }

  lemma {:induction false} RunKeepsForeign(s: Server, commits: seq<Operation>, faults: Faults, k: Key)
    requires k in s.objects && OffLimits(s, commits, k)
    ensures k in RunCommits(s, commits, faults).0.objects
    ensures OnlyAnnotationsDiffer(s.objects[k], RunCommits(s, commits, faults).0.objects[k])
    ensures !Annotates(commits, k) ==> RunCommits(s, commits, faults).0.objects[k] == s.objects[k]
    ensures RunCommits(s, commits, faults).1.Done? ==>
              forall i :: 0 <= i < |commits| && commits[i].key == k ==> !commits[i].ty.CreateOrUpdate?
    decreases |commits|
  {
    if commits != [] {
      var last := |commits| - 1;
      var prefix := commits[..last];
      assert OffLimits(s, prefix, k);
      RunKeepsForeign(s, prefix, faults, k);
      NamespacesKept(s, prefix, faults);
      var t := RunCommits(s, prefix, faults).0;
      if commits[last].key == k {
        ForeignObjectKept(t, commits[last], faults(last));
        assert commits[last].ty.AnnotateIfExists? ==> Annotates(commits, k);
      } else {
        CommitFrame(t, commits[last], faults(last), k);
      }
      assert Annotates(prefix, k) ==> Annotates(commits, k);
    }
  }

  /** What a plan does to an object that is not collected is what the operations do to it. */
  lemma PlanLeavesToOperations(s: Server, listers: seq<string>, r: Rollout, commits: seq<Operation>, k: Key)
    requires DeletesThenOperations(s, listers, r, commits)
    requires k in s.objects && k !in Unreferenced(s, listers, r)
    ensures OffLimits(s, r.ops, k) ==> OffLimits(s, commits, k)
    ensures Annotates(commits, k) ==> Annotates(r.ops, k)
    ensures forall i :: 0 <= i < |r.ops| ==> commits[|commits| - |r.ops| + i] == r.ops[i]
  {
    var n := |commits| - |r.ops|;
    assert forall i :: 0 <= i < n ==> commits[..n][i] == commits[i];
    forall i | 0 <= i < |commits| && commits[i].key == k
      ensures i >= n && commits[i] == r.ops[i - n]
    {
      assert i >= n ==> commits[i] == commits[n..][i - n];
    }
    assert forall i :: 0 <= i < |r.ops| ==> commits[n..][i] == commits[n + i];
  }

  /** An object that no operation may take over keeps its identity, owners, labels and data through
    * every Sync; and a rollout that tries to overwrite it never succeeds. */
  lemma SyncKeepsForeign(s: Server, listers: seq<string>, r: Rollout, commits: seq<Operation>, faults: Faults, k: Key)
    requires PlannedOn(s, listers, r, commits)
    requires k in s.objects && k !in Unreferenced(s, listers, r) && OffLimits(s, r.ops, k)
    ensures k in RunCommits(s, commits, faults).0.objects
    ensures OnlyAnnotationsDiffer(s.objects[k], RunCommits(s, commits, faults).0.objects[k])
    ensures !Annotates(r.ops, k) ==> RunCommits(s, commits, faults).0.objects[k] == s.objects[k]
    ensures forall i :: 0 <= i < |r.ops| && r.ops[i].key == k && r.ops[i].ty.CreateOrUpdate? ==>
                          RunCommits(s, commits, faults).1.Failed?
  {
    if StopsAtOnce(r, commits) {
      BrokenPlan(s, commits, faults);
    } else {
      PlanLeavesToOperations(s, listers, r, commits, k);
      RunKeepsForeign(s, commits, faults, k);
    }
  }

  // ---------------------------------------------------------------------------------------------
  // Garbage collection is complete
  // ---------------------------------------------------------------------------------------------

  /** While only deletes run, objects disappear and never come back. */
  lemma {:induction false} DeletesOnlyRemove(s: Server, deletes: seq<Operation>, faults: Faults)
    requires forall i :: 0 <= i < |deletes| ==> deletes[i].ty.DeleteIfExists?
    requires RunCommits(s, deletes, faults).1.Done?
    ensures forall k :: k in RunCommits(s, deletes, faults).0.objects <==> k in s.objects && !IsTarget(deletes, k)
    ensures forall k :: k in RunCommits(s, deletes, faults).0.objects ==>
                          RunCommits(s, deletes, faults).0.objects[k] == s.objects[k]
    decreases |deletes|
  {
    if deletes != [] {
      var last := |deletes| - 1;
      DeletesOnlyRemove(s, deletes[..last], faults);
      forall k ensures IsTarget(deletes, k) <==> IsTarget(deletes[..last], k) || k == deletes[last].key {
        if IsTarget(deletes, k) {
          var i :| 0 <= i < |deletes| && deletes[i].key == k;
          assert i < last ==> deletes[..last][i].key == k;
        }
        if IsTarget(deletes[..last], k) {
          var i :| 0 <= i < |deletes[..last]| && deletes[..last][i].key == k;
          assert deletes[i].key == k;
        }
      }
    }
  }

  ghost function Shifted(faults: Faults, n: nat): Faults {
    (i: nat) => faults(n + i)
  }

  /** What one more commit makes of the state so far. */
  ghost function Next(so: (Server, Outcome), op: Operation, f: Fault): (Server, Outcome) {
    if so.1.Failed? then so else Commit(so.0, op, f)
  }

  lemma RunSnoc(s: Server, commits: seq<Operation>, op: Operation, faults: Faults, f: Fault)
    requires f == faults(|commits|)
    ensures RunCommits(s, commits + [op], faults) == Next(RunCommits(s, commits, faults), op, f)
  {
    assert (commits + [op])[..|commits|] == commits;
  }

  lemma {:induction false} RunSplit(s: Server, first: seq<Operation>, second: seq<Operation>, faults: Faults)
    requires RunCommits(s, first, faults).1.Done?
    ensures RunCommits(s, first + second, faults) ==
            RunCommits(RunCommits(s, first, faults).0, second, Shifted(faults, |first|))
    decreases |second|
  {
    if second == [] {
      assert first + second == first;
    } else {
      var last := |second| - 1;
      var init, op := second[..last], second[last];
      RunSplit(s, first, init, faults);
      SnocSplit(s, RunCommits(s, first, faults).0, first, init, op, faults);
      assert second == init + [op];
    }
  }

  lemma SnocSplit(s: Server, t: Server, first: seq<Operation>, init: seq<Operation>, op: Operation, faults: Faults)
    requires RunCommits(s, first + init, faults) == RunCommits(t, init, Shifted(faults, |first|))
    ensures RunCommits(s, first + (init + [op]), faults) == RunCommits(t, init + [op], Shifted(faults, |first|))
  {
    assert first + (init + [op]) == (first + init) + [op];
    RunSnoc(s, first + init, op, faults, faults(|first| + |init|));
    RunSnoc(t, init, op, Shifted(faults, |first|), faults(|first| + |init|));
  }

  /** A successful Sync ran its deletes, all of them, and then its operations. */
  lemma SuccessfulPlan(s: Server, listers: seq<string>, r: Rollout, commits: seq<Operation>, faults: Faults)
      returns (deletes: seq<Operation>, t: Server)
    requires PlannedOn(s, listers, r, commits)
    requires RunCommits(s, commits, faults).1.Done?
    ensures commits == deletes + r.ops && Planned(s, listers, r, deletes)
    ensures (t, Done) == RunCommits(s, deletes, faults)
    ensures RunCommits(s, commits, faults) == RunCommits(t, r.ops, Shifted(faults, |deletes|))
    ensures forall k :: k in t.objects <==> k in s.objects && k !in Unreferenced(s, listers, r)
    ensures forall k :: k in t.objects ==> t.objects[k] == s.objects[k]
  {
    if StopsAtOnce(r, commits) {
      BrokenPlan(s, commits, faults);
    }
    deletes := commits[..|commits| - |r.ops|];
    assert commits == deletes + r.ops;
    assert commits[..|deletes|] == deletes;
    if RunCommits(s, deletes, faults).1.Failed? {
      FailureStops(s, commits, faults, |deletes|);
    }
    t := RunCommits(s, deletes, faults).0;
    RunSplit(s, deletes, r.ops, faults);
    DeletesOnlyRemove(s, deletes, faults);
    forall k ensures IsTarget(deletes, k) <==> k in Unreferenced(s, listers, r) {
    }
  }

  /** The operations leave what they do not name as the deletes left it. */
  lemma UnnamedAfterSync(s: Server, listers: seq<string>, r: Rollout, commits: seq<Operation>, faults: Faults, k: Key)
    requires PlannedOn(s, listers, r, commits)
    requires RunCommits(s, commits, faults).1.Done?
    requires !Names(r.ops, k)
    ensures var end := RunCommits(s, commits, faults).0;
            && (k in end.objects <==> k in s.objects && k !in Unreferenced(s, listers, r))
            && (k in end.objects ==> end.objects[k] == s.objects[k])
  {
    var deletes, t := SuccessfulPlan(s, listers, r, commits, faults);
    assert forall i :: 0 <= i < |r.ops| ==> r.ops[i].key != k;
    RunFrame(t, r.ops, Shifted(faults, |deletes|), k);
  }

  /** After a successful Sync the objects whose kind and name no operation has are those that were there
    * before, as they were, less every one of a listed kind that carries the source's name as its app
    * label and has an owner with the source's uid. */
  lemma GarbageCollected(s: Server, listers: seq<string>, r: Rollout, commits: seq<Operation>, faults: Faults)
    requires PlannedOn(s, listers, r, commits)
    requires RunCommits(s, commits, faults).1.Done?
    ensures var end := RunCommits(s, commits, faults).0;
            forall k: Key :: (forall i :: 0 <= i < |r.ops| ==> r.ops[i].key.kind != k.kind || r.ops[i].key.name != k.name) ==>
              && (k in end.objects <==>
                    && k in s.objects
                    && !(var m := s.objects[k].m;
                         && k.kind in listers && "app" in m.labels && m.labels["app"] == r.source.name
                         && exists i :: 0 <= i < |m.owners| && m.owners[i].uid == r.source.uid))
              && (k in end.objects ==> end.objects[k] == s.objects[k])
    ensures var end := RunCommits(s, commits, faults).0;
            forall k :: k in end.objects && k.kind in listers
                        && "app" in end.objects[k].m.labels && end.objects[k].m.labels["app"] == r.source.name
                        && (exists i :: 0 <= i < |end.objects[k].m.owners| && end.objects[k].m.owners[i].uid == r.source.uid) ==>
              exists i :: 0 <= i < |r.ops| && r.ops[i].key.kind == k.kind && r.ops[i].key.name == k.name
  {
    hide RunCommits, PlannedOn;
    forall k | !Names(r.ops, k)
      ensures var end := RunCommits(s, commits, faults).0;
              && (k in end.objects <==> k in s.objects && k !in Unreferenced(s, listers, r))
              && (k in end.objects ==> end.objects[k] == s.objects[k])
    {
      UnnamedAfterSync(s, listers, r, commits, faults, k);
    }
  }

  // ---------------------------------------------------------------------------------------------
  // Write-once data
  // ---------------------------------------------------------------------------------------------

  /** One Sync of a run: any rollout, planned and run on the server as it then is. */
  datatype SyncRun = SyncRun(listers: seq<string>, rollout: Rollout, commits: seq<Operation>, faults: Faults)

  /** The rollout names `k` only through CreateIfNotExists and AnnotateIfExists. */
  ghost predicate LeavesAlone(ops: seq<Operation>, k: Key) {
    forall i :: 0 <= i < |ops| && ops[i].key == k ==> ops[i].ty.CreateIfNotExists? || ops[i].ty.AnnotateIfExists?
  }

  /** The server after a run of Syncs, each planned on what the one before left. */
  ghost predicate RunsTo(s: Server, runs: seq<SyncRun>, t: Server)
    decreases |runs|
  {
    if runs == [] then t == s
    else
      && PlannedOn(s, runs[0].listers, runs[0].rollout, runs[0].commits)
      && RunsTo(RunCommits(s, runs[0].commits, runs[0].faults).0, runs[1..], t)
  }

  /** Either the rollout keeps naming the object, or the object is not its source's to collect. */
  ghost predicate Respects(run: SyncRun, k: Key, m: Manifest) {
    && LeavesAlone(run.rollout.ops, k)
    && (Names(run.rollout.ops, k) || !Collectable(run.listers, run.rollout.source, k, m))
  }

  /** What is collectable depends on labels and owners, which no run of this kind changes. */
  lemma RespectsUpToAnnotations(run: SyncRun, k: Key, a: Obj, b: Obj)
    requires OnlyAnnotationsDiffer(a, b)
    ensures Respects(run, k, a.m) <==> Respects(run, k, b.m)
  {
  }

  /** Over any run of Syncs that keep naming an object only through CreateIfNotExists and
    * AnnotateIfExists, whatever values they would create it with and wherever they fail, the
    * object keeps its identity and its data. */
  lemma {:induction false} WriteOnce(s: Server, runs: seq<SyncRun>, t: Server, k: Key)
    requires RunsTo(s, runs, t)
    requires k in s.objects
    requires forall i :: 0 <= i < |runs| ==> Respects(runs[i], k, s.objects[k].m)
    ensures k in t.objects && OnlyAnnotationsDiffer(s.objects[k], t.objects[k])
    decreases |runs|
  {
    if runs != [] {
      var run := runs[0];
      SyncKeepsForeign(s, run.listers, run.rollout, run.commits, run.faults, k);
      var u := RunCommits(s, run.commits, run.faults).0;
      forall i | 0 <= i < |runs[1..]| ensures Respects(runs[1..][i], k, u.objects[k].m) {
        RespectsUpToAnnotations(runs[i + 1], k, s.objects[k], u.objects[k]);
      }
      WriteOnce(u, runs[1..], t, k);
    }
  }

  /** What the first CreateIfNotExists on `k` that ran without an error would create it with. */
  ghost function FirstCreation(s: Server, commits: seq<Operation>, faults: Faults, k: Key): Option<Manifest> {
    if commits == [] then None
    else
      var last := commits[|commits| - 1];
      var earlier := FirstCreation(s, commits[..|commits| - 1], faults, k);
      if earlier.Some? then earlier
      else if last.key == k && last.ty.CreateIfNotExists? && RunCommits(s, commits, faults).1.Done? then Some(last.m)
      else None
  }

  /** The same over a run of Syncs. */
  ghost function FirstCreationOf(s: Server, runs: seq<SyncRun>, k: Key): Option<Manifest>
    decreases |runs|
  {
    if runs == [] then None
    else
      var first := FirstCreation(s, runs[0].commits, runs[0].faults, k);
      if first.Some? then first else FirstCreationOf(RunCommits(s, runs[0].commits, runs[0].faults).0, runs[1..], k)
  }

  /** The object is there exactly when something is named, and then it is that, annotations apart. */
  ghost predicate IsCreation(t: Server, k: Key, m: Option<Manifest>) {
    && (k in t.objects <==> m.Some?)
    && (m.Some? ==> t.objects[k].m == m.value.(annotations := t.objects[k].m.annotations))
  }

  lemma {:induction false} CreationDecides(s: Server, commits: seq<Operation>, faults: Faults, k: Key)
    requires k !in s.objects && LeavesAlone(commits, k)
    ensures IsCreation(RunCommits(s, commits, faults).0, k, FirstCreation(s, commits, faults, k))
    decreases |commits|
  {
    if commits != [] {
      var n := |commits| - 1;
      var init, last := commits[..n], commits[n];
      assert LeavesAlone(init, k);
      CreationDecides(s, init, faults, k);
      var (u, o) := RunCommits(s, init, faults);
      if last.key != k {
        CommitFrame(u, last, faults(n), k);
      } else if k in u.objects {
        ForeignObjectKept(u, last, faults(n));
      }
    }
  }

  lemma {:induction false} NothingRan(s: Server, commits: seq<Operation>, faults: Faults, k: Key)
    requires commits != [] && RunCommits(s, commits[..1], faults).1.Failed?
    ensures FirstCreation(s, commits, faults, k).None?
    decreases |commits|
  {
    var n := |commits| - 1;
    FailureStops(s, commits, faults, 1);
    if n > 0 {
      assert commits[..n][..1] == commits[..1];
      NothingRan(s, commits[..n], faults, k);
    } else {
      assert commits[..n] == [] && commits[..1] == commits;
    }
  }

  lemma PlanCreates(s: Server, run: SyncRun, k: Key)
    requires PlannedOn(s, run.listers, run.rollout, run.commits)
    requires k !in s.objects && LeavesAlone(run.rollout.ops, k)
    ensures IsCreation(RunCommits(s, run.commits, run.faults).0, k, FirstCreation(s, run.commits, run.faults, k))
  {
    var r, commits := run.rollout, run.commits;
    if StopsAtOnce(r, commits) {
      BrokenPlan(s, commits, run.faults);
      assert commits[..1][..0] == [] && commits[..1][0] == commits[0];
      NothingRan(s, commits, run.faults, k);
    } else {
      var n := |commits| - |r.ops|;
      assert forall i :: 0 <= i < n ==> commits[..n][i] == commits[i];
      assert forall i :: n <= i < |commits| ==> commits[i] == commits[n..][i - n];
      CreationDecides(s, commits, run.faults, k);
    }
  }

  /** Whatever fresh values every rollout of a run would create an object with, it holds what the first
    * creation that succeeded stored, for as long as rollouts name it only through CreateIfNotExists and
    * AnnotateIfExists; and without such a creation it is not there. */
  lemma {:induction false} FirstCreationStays(s: Server, runs: seq<SyncRun>, t: Server, k: Key)
    requires RunsTo(s, runs, t) && k !in s.objects
    requires forall i :: 0 <= i < |runs| ==> LeavesAlone(runs[i].rollout.ops, k)
    requires var first := FirstCreationOf(s, runs, k);
             first.Some? ==> forall i :: 0 <= i < |runs| ==> Respects(runs[i], k, first.value)
    ensures IsCreation(t, k, FirstCreationOf(s, runs, k))
    decreases |runs|
  {
    if runs != [] {
      var run, rest := runs[0], runs[1..];
      PlanCreates(s, run, k);
      var u := RunCommits(s, run.commits, run.faults).0;
      assert forall i :: 0 <= i < |rest| ==> rest[i] == runs[i + 1];
      if k in u.objects {
        forall i | 0 <= i < |rest| ensures Respects(rest[i], k, u.objects[k].m) {
          var m := FirstCreation(s, run.commits, run.faults, k).value;
          RespectsUpToAnnotations(rest[i], k, Obj(0, 0, m), Obj(0, 0, u.objects[k].m));
        }
        WriteOnce(u, rest, t, k);
      } else {
        FirstCreationStays(u, rest, t, k);
      }
    }
  }

  // ---------------------------------------------------------------------------------------------
  // What updates never change
  // ---------------------------------------------------------------------------------------------

  /** Identity, owners once there are any, and the fields that are immutable for the kind. */
  ghost predicate SameIdentity(kind: string, a: Obj, b: Obj) {
    && a.uid == b.uid && ImmutableKept(kind, a.m, b.m)
    && (a.m.owners != [] ==> b.m.owners == a.m.owners)
  }

  predicate MergesIntoSpec(kind: string, m: Manifest) {
    kind in CNRM_KINDS && STATE_INTO_SPEC in m.annotations && m.annotations[STATE_INTO_SPEC] != ""
  }

  lemma CommitKeepsIdentity(s: Server, op: Operation, f: Fault, k: Key)
    requires k in s.objects && (op.key == k ==> !op.ty.CreateOrRecreate? && !op.ty.DeleteIfExists?)
    ensures var t := Commit(s, op, f).0;
            && k in t.objects && SameIdentity(k.kind, s.objects[k], t.objects[k])
            && (MergesIntoSpec(k.kind, s.objects[k].m) && !(op.key == k && op.ty.AnnotateIfExists? && STATE_INTO_SPEC in op.m.annotations) ==>
                  STATE_INTO_SPEC in t.objects[k].m.annotations
                  && t.objects[k].m.annotations[STATE_INTO_SPEC] == s.objects[k].m.annotations[STATE_INTO_SPEC])
  {
    if op.key != k {
      CommitFrame(s, op, f, k);
    }
  }

  /** Through any commits that neither recreate nor delete an object, wherever they fail, it keeps its
    * identity, its owner references and its immutable fields; and a CNRM object keeps how it is merged
    * into its spec, unless an operation annotates it otherwise. */
  lemma {:induction false} IdentitySurvives(s: Server, commits: seq<Operation>, faults: Faults, k: Key)
    requires k in s.objects
    requires forall i :: 0 <= i < |commits| && commits[i].key == k ==> !commits[i].ty.CreateOrRecreate? && !commits[i].ty.DeleteIfExists?
    ensures var t := RunCommits(s, commits, faults).0;
            && k in t.objects && SameIdentity(k.kind, s.objects[k], t.objects[k])
            && (MergesIntoSpec(k.kind, s.objects[k].m)
                && (forall i :: 0 <= i < |commits| && commits[i].key == k && commits[i].ty.AnnotateIfExists? ==>
                      STATE_INTO_SPEC !in commits[i].m.annotations)
                ==> STATE_INTO_SPEC in t.objects[k].m.annotations
                    && t.objects[k].m.annotations[STATE_INTO_SPEC] == s.objects[k].m.annotations[STATE_INTO_SPEC])
    decreases |commits|
  {
    if commits != [] {
      var n := |commits| - 1;
      assert forall i :: 0 <= i < n ==> commits[..n][i] == commits[i];
      IdentitySurvives(s, commits[..n], faults, k);
      CommitKeepsIdentity(RunCommits(s, commits[..n], faults).0, commits[n], faults(n), k);
    }
  }

  // ---------------------------------------------------------------------------------------------
  // What a successful Sync leaves behind
  // ---------------------------------------------------------------------------------------------

  /** A successful run around its commit number `n`. */
  lemma RunAround(s: Server, ops: seq<Operation>, faults: Faults, n: nat) returns (before: Server, after: Server)
    requires n < |ops| && RunCommits(s, ops, faults).1.Done?
    ensures before == StateAt(s, ops, faults, n) && (after, Done) == Commit(before, ops[n], faults(n))
    ensures RunCommits(s, ops, faults) == RunCommits(after, ops[n + 1..], Shifted(faults, n + 1))
  {
    before, after := StateAt(s, ops, faults, n), StateAt(s, ops, faults, n + 1);
    StepAt(s, ops, faults, n);
    assert ops[..n + 1] + ops[n + 1..] == ops;
    if RunCommits(s, ops[..n + 1], faults).1.Failed? {
      FailureStops(s, ops, faults, n + 1);
    }
    RunSplit(s, ops[..n + 1], ops[n + 1..], faults);
  }

  lemma {:induction false} AnnotationLeft(s: Server, ops: seq<Operation>, faults: Faults, k: Key, x: string)
    requires k in s.objects && LeavesAlone(ops, k)
    requires forall i :: 0 <= i < |ops| && ops[i].key == k && ops[i].ty.AnnotateIfExists? ==> x !in ops[i].m.annotations
    ensures var t := RunCommits(s, ops, faults).0;
            && k in t.objects
            && (x in t.objects[k].m.annotations <==> x in s.objects[k].m.annotations)
            && (x in s.objects[k].m.annotations ==> t.objects[k].m.annotations[x] == s.objects[k].m.annotations[x])
    decreases |ops|
  {
    if ops != [] {
      var n := |ops| - 1;
      assert forall i :: 0 <= i < n ==> ops[..n][i] == ops[i];
      AnnotationLeft(s, ops[..n], faults, k, x);
      if ops[n].key != k {
        CommitFrame(RunCommits(s, ops[..n], faults).0, ops[n], faults(n), k);
      }
    }
  }

  /** After a successful Sync an object holds the labels and the data of the last operation that updated
    * or recreated it, whatever was stored before; its annotations as well, but for those that later
    * operations set and for how a CNRM object is merged into its spec; and the other fields, where the
    * kind does not make them immutable. */
  lemma WrittenHolds(s: Server, listers: seq<string>, r: Rollout, commits: seq<Operation>, faults: Faults, n: nat)
    requires PlannedOn(s, listers, r, commits) && RunCommits(s, commits, faults).1.Done?
    requires n < |r.ops| && (r.ops[n].ty.CreateOrUpdate? || r.ops[n].ty.CreateOrRecreate?)
    requires forall i :: n < i < |r.ops| && r.ops[i].key == r.ops[n].key ==> r.ops[i].ty.CreateIfNotExists? || r.ops[i].ty.AnnotateIfExists?
    ensures var end, op, k := RunCommits(s, commits, faults).0, r.ops[n], r.ops[n].key;
            && k in end.objects
            && (var stored := end.objects[k].m;
                && stored.labels == op.m.labels && stored.payload == op.m.payload
                && (k.kind != "Service" || op.ty.CreateOrRecreate? ==> stored.clusterIP == op.m.clusterIP)
                && (k.kind !in {"SQLInstance", "SQLDatabase", "SQLUser", "SQLSSLCert", "StorageBucket"} || op.ty.CreateOrRecreate? ==>
                      stored.resourceID == op.m.resourceID)
                && forall x ::
                     && (k.kind !in {"SQLInstance", "SQLDatabase", "SQLUser", "SQLSSLCert", "StorageBucket", "StorageBucketAccessControl"}
                         || op.ty.CreateOrRecreate? || x != "cnrm.cloud.google.com/state-into-spec")
                     && (forall i :: n < i < |r.ops| && r.ops[i].key == k && r.ops[i].ty.AnnotateIfExists? ==> x !in r.ops[i].m.annotations)
                     ==>
                       && (x in stored.annotations <==> x in op.m.annotations)
                       && (x in op.m.annotations ==> stored.annotations[x] == op.m.annotations[x]))
  {
    hide RunCommits, PlannedOn, Commit;
    var op, k, rest := r.ops[n], r.ops[n].key, r.ops[n + 1..];
    var deletes, t := SuccessfulPlan(s, listers, r, commits, faults);
    var shifted := Shifted(faults, |deletes|);
    var before, after := RunAround(t, r.ops, shifted, n);
    if op.ty.CreateOrUpdate? { UpdateStores(before, op, shifted(n)); } else { OthersStore(before, op, shifted(n)); }
    assert forall i :: 0 <= i < |rest| ==> rest[i] == r.ops[n + 1 + i];
    RunKeepsForeign(after, rest, Shifted(shifted, n + 1), k);
    forall x | forall i :: n < i < |r.ops| && r.ops[i].key == k && r.ops[i].ty.AnnotateIfExists? ==> x !in r.ops[i].m.annotations
      ensures var stored := RunCommits(s, commits, faults).0.objects[k].m;
              && (x in stored.annotations <==> x in after.objects[k].m.annotations)
              && (x in stored.annotations ==> stored.annotations[x] == after.objects[k].m.annotations[x])
    {
      AnnotationLeft(after, rest, Shifted(shifted, n + 1), k, x);
    }
  }

  lemma {:induction false} StaysAbsent(s: Server, ops: seq<Operation>, faults: Faults, k: Key)
    requires k !in s.objects
    requires forall i :: 0 <= i < |ops| && ops[i].key == k ==> ops[i].ty.DeleteIfExists? || ops[i].ty.AnnotateIfExists?
    ensures k !in RunCommits(s, ops, faults).0.objects
    decreases |ops|
  {
    if ops != [] {
      var n := |ops| - 1;
      assert forall i :: 0 <= i < n ==> ops[..n][i] == ops[i];
      StaysAbsent(s, ops[..n], faults, k);
      if ops[n].key != k {
        CommitFrame(RunCommits(s, ops[..n], faults).0, ops[n], faults(n), k);
      }
    }
  }

  /** After a successful Sync an object is gone that an operation deleted and no later one wrote. */
  lemma DeletedIsGone(s: Server, listers: seq<string>, r: Rollout, commits: seq<Operation>, faults: Faults, n: nat)
    requires PlannedOn(s, listers, r, commits) && RunCommits(s, commits, faults).1.Done?
    requires n < |r.ops| && r.ops[n].ty.DeleteIfExists?
    requires forall i :: n < i < |r.ops| && r.ops[i].key == r.ops[n].key ==> r.ops[i].ty.DeleteIfExists? || r.ops[i].ty.AnnotateIfExists?
    ensures r.ops[n].key !in RunCommits(s, commits, faults).0.objects
  {
    hide RunCommits, PlannedOn, Commit;
    var op, rest := r.ops[n], r.ops[n + 1..];
    var deletes, t := SuccessfulPlan(s, listers, r, commits, faults);
    var shifted := Shifted(faults, |deletes|);
    var before, after := RunAround(t, r.ops, shifted, n);
    OthersStore(before, op, shifted(n));
    assert forall i :: 0 <= i < |rest| ==> rest[i] == r.ops[n + 1 + i];
    StaysAbsent(after, rest, Shifted(shifted, n + 1), op.key);
  }
}
