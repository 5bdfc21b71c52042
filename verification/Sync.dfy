/** Applying a rollout: garbage collection of what the rollout no longer names, then its
  * operations in order, stopping at the first error. */
module Sync {
  import opened Cluster
  import opened Updater

  datatype Source = Source(kind: string, namespace: string, name: string, uid: nat)

  datatype Rollout = Rollout(source: Source, ops: seq<Operation>)

  /** The call that fails in each commit, if any. */
  type Faults = nat -> Fault

  ghost predicate AllExternal(faults: Faults) {
    forall i :: External(faults(i))
  }

  const NO_FAULTS: Faults := _ => NoFault

  // ---------------------------------------------------------------------------------------------
  // Garbage collection: what it collects
  // ---------------------------------------------------------------------------------------------

  predicate OwnedBy(m: Manifest, uid: nat) {
    exists i :: 0 <= i < |m.owners| && m.owners[i].uid == uid
  }

  predicate Labelled(m: Manifest, app: string) {
    "app" in m.labels && m.labels["app"] == app
  }

  /** An object this source can collect: of a listed kind, labelled and owned by the source. */
  predicate Collectable(listers: seq<string>, source: Source, k: Key, m: Manifest) {
    k.kind in listers && Labelled(m, source.name) && OwnedBy(m, source.uid)
  }

  /** Kind and name alone decide whether an object is part of the rollout. */
  predicate Names(ops: seq<Operation>, k: Key) {
    exists i :: 0 <= i < |ops| && ops[i].key.kind == k.kind && ops[i].key.name == k.name
  }

  function Unreferenced(s: Server, listers: seq<string>, r: Rollout): set<Key> {
    set k | k in s.objects && Collectable(listers, r.source, k, s.objects[k].m) && !Names(r.ops, k)
  }

  method FindAll(cli: Client, listers: seq<string>, source: Source) returns (r: Result<seq<Key>>)
    requires External(cli.fault)
    modifies cli`fault
    ensures r.Ok? ==> forall k :: k in r.value <==> k in cli.server.objects && Collectable(listers, source, k, cli.server.objects[k].m)
    ensures old(cli.fault).NoFault? ==> r.Ok?
    ensures External(cli.fault)
  {
    var found: seq<Key> := [];
    for i := 0 to |listers|
      invariant forall k :: k in found <==>
                            k in cli.server.objects && k.kind in listers[..i] && Labelled(cli.server.objects[k].m, source.name)
      invariant External(cli.fault) && (old(cli.fault).NoFault? ==> cli.fault.NoFault?)
    {
      var items := cli.List(listers[i]);
      if items.Err? {
        return Err(items.error);
      }
      var labelled := WithLabel(cli.server, items.value, source.name);
      assert listers[..i + 1] == listers[..i] + [listers[i]];
      found := found + labelled;
    }
    assert listers[..|listers|] == listers;
    var owned := WithOwnerReference(cli.server, found, source.uid);
    return Ok(owned);
  }

  method WithLabel(s: Server, keys: seq<Key>, app: string) returns (r: seq<Key>)
    requires forall k :: k in keys ==> k in s.objects
    ensures forall k :: k in r <==> k in keys && Labelled(s.objects[k].m, app)
  {
    r := [];
    for i := 0 to |keys|
      invariant forall k :: k in r <==> k in keys[..i] && Labelled(s.objects[k].m, app)
    {
      assert keys[..i + 1] == keys[..i] + [keys[i]];
      if Labelled(s.objects[keys[i]].m, app) {
        r := r + [keys[i]];
      }
    }
    assert keys[..|keys|] == keys;
  }

  method WithOwnerReference(s: Server, keys: seq<Key>, uid: nat) returns (owned: seq<Key>)
    requires forall k :: k in keys ==> k in s.objects
    ensures forall k :: k in owned <==> k in keys && OwnedBy(s.objects[k].m, uid)
  {
    owned := [];
    for i := 0 to |keys|
      invariant forall k :: k in owned <==> k in keys[..i] && OwnedBy(s.objects[k].m, uid)
    {
      assert keys[..i + 1] == keys[..i] + [keys[i]];
      var owners := s.objects[keys[i]].m.owners;
      var has := false;
      for j := 0 to |owners|
        invariant has <==> exists x :: 0 <= x < j && owners[x].uid == uid
      {
        if owners[j].uid == uid {
          has := true;
        }
      }
      if has {
        owned := owned + [keys[i]];
      }
    }
    assert keys[..|keys|] == keys;
  }

  method FindUnreferenced(cli: Client, listers: seq<string>, r: Rollout) returns (res: Result<seq<Key>>)
    requires External(cli.fault)
    modifies cli`fault
    ensures res.Ok? ==>
              forall k :: k in res.value <==>
                && k in cli.server.objects && k.kind in listers
                && (var m := cli.server.objects[k].m;
                    && "app" in m.labels && m.labels["app"] == r.source.name
                    && exists i :: 0 <= i < |m.owners| && m.owners[i].uid == r.source.uid)
                && forall i :: 0 <= i < |r.ops| ==> r.ops[i].key.kind != k.kind || r.ops[i].key.name != k.name
    ensures old(cli.fault).NoFault? ==> res.Ok?
  {
    var found := FindAll(cli, listers, r.source);
    if found.Err? {
      return found;
    }
    var unreferenced: seq<Key> := [];
    for i := 0 to |found.value|
      invariant forall k :: k in unreferenced <==> k in found.value[..i] && !Names(r.ops, k)
    {
      assert found.value[..i + 1] == found.value[..i] + [found.value[i]];
      var intersects := false;
      for j := 0 to |r.ops|
        invariant intersects <==>
                  exists x :: 0 <= x < j && r.ops[x].key.kind == found.value[i].kind && r.ops[x].key.name == found.value[i].name
      {
        if r.ops[j].key.kind == found.value[i].kind && r.ops[j].key.name == found.value[i].name {
          intersects := true;
        }
      }
      if !intersects {
        unreferenced := unreferenced + [found.value[i]];
      }
    }
    assert found.value[..|found.value|] == found.value;
    return Ok(unreferenced);
  }

  // ---------------------------------------------------------------------------------------------
  // The commit list
  // ---------------------------------------------------------------------------------------------

  /** `deletes` removes exactly the keys in `doomed`, in some order. */
  predicate DeletesExactly(deletes: seq<Operation>, doomed: set<Key>) {
    && (forall i :: 0 <= i < |deletes| ==> deletes[i].ty.DeleteIfExists? && deletes[i].key in doomed)
    && forall k :: k in doomed ==> exists i :: 0 <= i < |deletes| && deletes[i].key == k
  }

  predicate AllKnown(ops: seq<Operation>) {
    forall i :: 0 <= i < |ops| ==> !ops[i].ty.Unknown?
  }

  /** A commit that fails with the reason it carries. */
  function Broken(reason: string): Operation {
    Operation(Unknown(reason), Key("", "", ""), Manifest(map[], map[], [], "", "", ""))
  }

  predicate Planned(s: Server, listers: seq<string>, r: Rollout, deletes: seq<Operation>) {
    AllKnown(r.ops) && DeletesExactly(deletes, Unreferenced(s, listers, r))
  }

  /** A list whose first commit fails, before anything is touched. */
  predicate StopsAtOnce(r: Rollout, commits: seq<Operation>) {
    && |commits| > 0 && commits[0].ty.Unknown? && commits[0].key == Broken("").key
    && (commits[1..] == [] || commits[1..] == r.ops)
  }

  /** Deletes drawn up on server `s`, then the operations. */
  predicate DeletesThenOperations(s: Server, listers: seq<string>, r: Rollout, commits: seq<Operation>) {
    && |r.ops| <= |commits| && commits[|commits| - |r.ops|..] == r.ops
    && Planned(s, listers, r, commits[..|commits| - |r.ops|])
  }

  predicate PlannedOn(s: Server, listers: seq<string>, r: Rollout, commits: seq<Operation>) {
    StopsAtOnce(r, commits) || DeletesThenOperations(s, listers, r, commits)
  }

  method ClusterOperations(cli: Client, listers: seq<string>, r: Rollout) returns (commits: seq<Operation>)
    requires External(cli.fault)
    modifies cli`fault
    ensures PlannedOn(cli.server, listers, r, commits)
    ensures !AllKnown(r.ops) ==> |commits| == 1 && commits[0].ty.Unknown?
    ensures old(cli.fault).NoFault? && AllKnown(r.ops) ==> DeletesThenOperations(cli.server, listers, r, commits)
    ensures old(cli.fault).NoFault? && AllKnown(r.ops) ==>
              && |r.ops| <= |commits| && commits[|commits| - |r.ops|..] == r.ops
              && (forall i :: 0 <= i < |commits| - |r.ops| ==> commits[i].ty.DeleteIfExists?)
              && forall k :: (exists i :: 0 <= i < |commits| - |r.ops| && commits[i].key == k) <==>
                   && k in cli.server.objects && k.kind in listers
                   && (var m := cli.server.objects[k].m;
                       && "app" in m.labels && m.labels["app"] == r.source.name
                       && exists i :: 0 <= i < |m.owners| && m.owners[i].uid == r.source.uid)
                   && forall i :: 0 <= i < |r.ops| ==> r.ops[i].key.kind != k.kind || r.ops[i].key.name != k.name
  {
    hide DeletesThenOperations;
    var funcs: seq<Operation> := [];
    for i := 0 to |r.ops|
      invariant funcs == r.ops[..i]
      invariant AllKnown(r.ops[..i])
    {
      if r.ops[i].ty.Unknown? {
        return [Broken("BUG: no such operation")];
      }
      assert r.ops[..i + 1] == r.ops[..i] + [r.ops[i]];
      funcs := funcs + [r.ops[i]];
    }
    assert r.ops[..|r.ops|] == r.ops;
    var unreferenced := FindUnreferenced(cli, listers, r);
    if unreferenced.Err? {
      return [Broken("unable to clean up obsolete resources")] + funcs;
    }
    var deletes := DeleteEach(cli.server, unreferenced.value);
    commits := deletes + funcs;
    DeletesDrawnUp(cli.server, listers, r, unreferenced.value, deletes);
  }

  lemma DeletesDrawnUp(s: Server, listers: seq<string>, r: Rollout, keys: seq<Key>, deletes: seq<Operation>)
    requires AllKnown(r.ops)
    requires forall k :: k in keys <==>
               && k in s.objects && k.kind in listers
               && (var m := s.objects[k].m;
                   && "app" in m.labels && m.labels["app"] == r.source.name
                   && exists i :: 0 <= i < |m.owners| && m.owners[i].uid == r.source.uid)
               && forall i :: 0 <= i < |r.ops| ==> r.ops[i].key.kind != k.kind || r.ops[i].key.name != k.name
    requires forall i :: 0 <= i < |deletes| ==> deletes[i].ty.DeleteIfExists? && deletes[i].key in keys
    requires forall k :: k in keys <==> exists i :: 0 <= i < |deletes| && deletes[i].key == k
    ensures DeletesThenOperations(s, listers, r, deletes + r.ops)
    ensures forall k :: k in keys <==> exists i :: 0 <= i < |deletes| && (deletes + r.ops)[i].key == k
  {
    var commits := deletes + r.ops;
    assert commits[..|commits| - |r.ops|] == deletes && commits[|deletes|..] == r.ops;
    assert forall i :: 0 <= i < |deletes| ==> commits[i] == deletes[i];
  }

  method DeleteEach(s: Server, keys: seq<Key>) returns (deletes: seq<Operation>)
    requires forall k :: k in keys ==> k in s.objects
    ensures |deletes| == |keys|
    ensures forall i :: 0 <= i < |deletes| ==> deletes[i].ty.DeleteIfExists? && deletes[i].key in keys
    ensures forall k :: k in keys <==> exists i :: 0 <= i < |deletes| && deletes[i].key == k
  {
    deletes := [];
    for i := 0 to |keys|
      invariant |deletes| == i
      invariant forall j :: 0 <= j < i ==> deletes[j].ty.DeleteIfExists? && deletes[j].key == keys[j]
    {
      deletes := deletes + [Operation(DeleteIfExists, keys[i], s.objects[keys[i]].m)];
    }
    forall k | k in keys ensures exists i :: 0 <= i < |deletes| && deletes[i].key == k {
      var i :| 0 <= i < |keys| && keys[i] == k;
      assert deletes[i].key == k;
    }
  }

  // ---------------------------------------------------------------------------------------------
  // Running the commits
  // ---------------------------------------------------------------------------------------------

  /** The server after the commits, which stop at the first one that fails. */
  ghost function RunCommits(s: Server, commits: seq<Operation>, faults: Faults): (Server, Outcome) {
    if commits == [] then (s, Done)
    else
      var last := |commits| - 1;
      var (t, o) := RunCommits(s, commits[..last], faults);
      if o.Failed? then (t, o) else Commit(t, commits[last], faults(last))
  }

  lemma {:induction false} FailureStops(s: Server, commits: seq<Operation>, faults: Faults, n: nat)
    requires n <= |commits|
    requires RunCommits(s, commits[..n], faults).1.Failed?
    ensures RunCommits(s, commits, faults) == RunCommits(s, commits[..n], faults)
    decreases |commits|
  {
    if n == |commits| {
      assert commits[..n] == commits;
    } else {
      var last := |commits| - 1;
      assert commits[..last][..n] == commits[..n];
      FailureStops(s, commits[..last], faults, n);
    }
  }

  /** Only the faults of the commits that there are matter. */
  lemma {:induction false} SameFaults(s: Server, commits: seq<Operation>, faults: Faults, others: Faults)
    requires forall i :: 0 <= i < |commits| ==> faults(i) == others(i)
    ensures RunCommits(s, commits, faults) == RunCommits(s, commits, others)
    decreases |commits|
  {
    if commits != [] {
      SameFaults(s, commits[..|commits| - 1], faults, others);
    }
  }

  method RolloutWithRetry(cli: Client, commits: seq<Operation>, faults: Faults) returns (retry: bool, o: Outcome)
    requires AllExternal(faults)
    modifies cli
    ensures (cli.server, o) == RunCommits(old(cli.server), commits, faults)
    ensures retry <==> o == Failed(Conflict)
  {
    for i := 0 to |commits|
      invariant (cli.server, Done) == RunCommits(old(cli.server), commits[..i], faults)
    {
      assert commits[..i + 1][..i] == commits[..i];
      cli.fault := faults(i);
      o := Run(cli, commits[i]);
      if o.Failed? {
        FailureStops(old(cli.server), commits, faults, i + 1);
        return o.error == Conflict, o;
      }
    }
    assert commits[..|commits|] == commits;
    return false, Done;
  }

  /** Plans and runs a rollout; `listFault` is the list call that fails, if any. */
  method Sync(cli: Client, listers: seq<string>, r: Rollout, listFault: Fault, faults: Faults)
      returns (retry: bool, o: Outcome, commits: seq<Operation>)
    requires External(listFault) && AllExternal(faults)
    modifies cli
    ensures PlannedOn(old(cli.server), listers, r, commits)
    ensures (cli.server, o) == RunCommits(old(cli.server), commits, faults)
    ensures retry <==> o == Failed(Conflict)
    ensures !AllKnown(r.ops) ==> o.Failed? && cli.server == old(cli.server)
    ensures listFault.NoFault? && AllKnown(r.ops) ==> DeletesThenOperations(old(cli.server), listers, r, commits)
    ensures listFault.NoFault? && AllKnown(r.ops) ==>
              && |r.ops| <= |commits| && commits[|commits| - |r.ops|..] == r.ops
              && (forall i :: 0 <= i < |commits| - |r.ops| ==> commits[i].ty.DeleteIfExists?)
              && forall k :: (exists i :: 0 <= i < |commits| - |r.ops| && commits[i].key == k) <==>
                   && k in old(cli.server).objects && k.kind in listers
                   && (var m := old(cli.server).objects[k].m;
                       && "app" in m.labels && m.labels["app"] == r.source.name
                       && exists i :: 0 <= i < |m.owners| && m.owners[i].uid == r.source.uid)
                   && forall i :: 0 <= i < |r.ops| ==> r.ops[i].key.kind != k.kind || r.ops[i].key.name != k.name
  {
    cli.fault := listFault;
    commits := ClusterOperations(cli, listers, r);
    retry, o := RolloutWithRetry(cli, commits, faults);
    if !AllKnown(r.ops) {
      assert commits[..0] == [];
    }
  }
}
