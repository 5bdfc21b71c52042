/** Applying the same rollout twice: when the second Sync succeeds, and when it changes nothing. */
module Convergence {
  import opened Cluster
  import opened Updater
  import opened Sync
  import opened SyncLaws
  import opened Wrappers

  predicate Writes(op: Operation) {
    op.ty.CreateOrUpdate? || op.ty.CreateOrRecreate? || op.ty.CreateIfNotExists?
  }

  /** Two operations on one object: not two that write it, and none that writes beside one that deletes. */
  predicate MayMeet(a: Operation, b: Operation) {
    a.key == b.key ==> !(Writes(a) && (Writes(b) || b.ty.DeleteIfExists?)) && !(a.ty.DeleteIfExists? && Writes(b))
  }

  ghost predicate OneWriter(ops: seq<Operation>) {
    forall i, j :: 0 <= i < j < |ops| ==> MayMeet(ops[i], ops[j])
  }

  /** An update that can be repeated: it carries an owner, or its namespace is a postgres one. */
  predicate Repeatable(s: Server, op: Operation) {
    op.ty.CreateOrUpdate? ==> op.m.owners != [] || IsPostgresNamespace(s, op.key.namespace)
  }

  /** No CNRM object is annotated with how it is merged into its spec. */
  ghost predicate SpecUntouched(ops: seq<Operation>) {
    forall i :: 0 <= i < |ops| && ops[i].ty.AnnotateIfExists? && ops[i].key.kind in CNRM_KINDS ==>
      STATE_INTO_SPEC !in ops[i].m.annotations
  }

  /** The same objects with the same manifests, identities and versions aside. */
  ghost predicate Alike(s: Server, t: Server) {
    && t.namespaces == s.namespaces
    && t.objects.Keys == s.objects.Keys
    && forall k :: k in s.objects ==> t.objects[k].m == s.objects[k].m
  }

  ghost predicate Recreates(ops: seq<Operation>, k: Key) {
    exists i :: 0 <= i < |ops| && ops[i].key == k && ops[i].ty.CreateOrRecreate?
  }

  // ---------------------------------------------------------------------------------------------
  // One object under a successful run
  // ---------------------------------------------------------------------------------------------

  type Annotations = map<string, string>

  /** The manifest stored under a key, if any. */
  function CellOf(s: Server, k: Key): Option<Manifest> {
    if k in s.objects then Some(s.objects[k].m) else None
  }

  function Annotate(c: Option<Manifest>, a: Annotations): Option<Manifest> {
    if c.None? then None else Some(c.value.(annotations := c.value.annotations + a))
  }

  /** What an operation on the object makes of it, when it succeeds. */
  function Next(op: Operation, c: Option<Manifest>): Option<Manifest> {
    match op.ty
    case CreateOrUpdate => Some(if c.None? then op.m else Merge(op.key.kind, op.m, c.value))
    case CreateOrRecreate => Some(op.m)
    case CreateIfNotExists => if c.None? then Some(op.m) else c
    case DeleteIfExists => None
    case AnnotateIfExists => Annotate(c, op.m.annotations)
    case Unknown(_) => c
  }

  function Fold(ops: seq<Operation>, k: Key, c: Option<Manifest>): Option<Manifest> {
    if ops == [] then c
    else
      var last, before := ops[|ops| - 1], Fold(ops[..|ops| - 1], k, c);
      if last.key == k then Next(last, before) else before
  }

  /** What the annotating operations on the object set, the later ones over the earlier ones. */
  function Sum(ops: seq<Operation>, k: Key): Annotations {
    if ops == [] then map[]
    else
      var last := ops[|ops| - 1];
      Sum(ops[..|ops| - 1], k) + if last.key == k && last.ty.AnnotateIfExists? then last.m.annotations else map[]
  }

  lemma DoneCell(s: Server, op: Operation, f: Fault, k: Key)
    requires Commit(s, op, f).1.Done?
    ensures CellOf(Commit(s, op, f).0, k) == if op.key == k then Next(op, CellOf(s, k)) else CellOf(s, k)
    ensures !op.ty.Unknown?
  {
    if op.key != k {
      CommitFrame(s, op, f, k);
    }
  }

  lemma {:induction false} RunFolds(s: Server, ops: seq<Operation>, faults: Faults, k: Key)
    requires RunCommits(s, ops, faults).1.Done?
    ensures CellOf(RunCommits(s, ops, faults).0, k) == Fold(ops, k, CellOf(s, k))
    ensures AllKnown(ops)
    decreases |ops|
  {
    if ops != [] {
      var n := |ops| - 1;
      RunFolds(s, ops[..n], faults, k);
      DoneCell(RunCommits(s, ops[..n], faults).0, ops[n], faults(n), k);
      assert forall i :: 0 <= i < n ==> ops[..n][i] == ops[i];
    }
  }

  lemma {:induction false} FoldJoin(a: seq<Operation>, b: seq<Operation>, k: Key, c: Option<Manifest>)
    ensures Fold(a + b, k, c) == Fold(b, k, Fold(a, k, c))
  {
    hide Next;
    if b == [] {
      assert a + b == a;
    } else {
      var n := |b| - 1;
      assert (a + b)[..|a| + n] == a + b[..n];
      FoldJoin(a, b[..n], k, c);
    }
  }

  ghost predicate OnlyAnnotated(ops: seq<Operation>, k: Key) {
    forall i :: 0 <= i < |ops| && ops[i].key == k ==> ops[i].ty.AnnotateIfExists?
  }

  lemma {:induction false} OnlyAnnotates(ops: seq<Operation>, k: Key, c: Option<Manifest>)
    requires OnlyAnnotated(ops, k)
    ensures Fold(ops, k, c) == Annotate(c, Sum(ops, k))
  {
    if ops == [] {
      assert c.Some? ==> c.value.annotations + map[] == c.value.annotations;
    } else {
      var n := |ops| - 1;
      OnlyAnnotates(ops[..n], k, c);
      var a := Sum(ops[..n], k);
      if c.Some? {
        var x, last := c.value.annotations, ops[n].m.annotations;
        assert (x + a) + last == x + (a + last) && a + map[] == a;
      }
    }
  }

  lemma {:induction false} SumSpares(ops: seq<Operation>, k: Key, x: string)
    requires forall i :: 0 <= i < |ops| && ops[i].key == k && ops[i].ty.AnnotateIfExists? ==> x !in ops[i].m.annotations
    ensures x !in Sum(ops, k)
  {
    if ops != [] {
      SumSpares(ops[..|ops| - 1], k, x);
    }
  }

  lemma AroundWriter(ops: seq<Operation>, n: nat)
    requires OneWriter(ops) && AllKnown(ops) && n < |ops| && Writes(ops[n])
    ensures OnlyAnnotated(ops[..n], ops[n].key) && OnlyAnnotated(ops[n + 1..], ops[n].key)
  {
    forall i | 0 <= i < |ops| && i != n && ops[i].key == ops[n].key ensures ops[i].ty.AnnotateIfExists? {
      assert MayMeet(ops[if i < n then i else n], ops[if i < n then n else i]);
    }
  }

  /** With its one writer at `n`, an object is annotated, written, annotated. */
  lemma FoldAround(ops: seq<Operation>, n: nat, c: Option<Manifest>)
    requires OneWriter(ops) && AllKnown(ops) && n < |ops| && Writes(ops[n])
    ensures var k := ops[n].key;
            Fold(ops, k, c) == Annotate(Next(ops[n], Annotate(c, Sum(ops[..n], k))), Sum(ops[n + 1..], k))
  {
    var k := ops[n].key;
    AroundWriter(ops, n);
    OnlyAnnotates(ops[..n], k, c);
    hide Next, OneWriter;
    var written := Fold(ops[..n + 1], k, c);
    assert ops[..n + 1][..n] == ops[..n];
    assert ops == ops[..n + 1] + ops[n + 1..];
    FoldJoin(ops[..n + 1], ops[n + 1..], k, c);
    OnlyAnnotates(ops[n + 1..], k, written);
  }

  lemma {:induction false} DeletedStays(ops: seq<Operation>, k: Key, n: nat, c: Option<Manifest>)
    requires n < |ops| && ops[n].key == k && ops[n].ty.DeleteIfExists?
    requires forall i :: 0 <= i < |ops| && ops[i].key == k ==> !Writes(ops[i])
    ensures Fold(ops, k, c) == None
  {
    var last := |ops| - 1;
    if n < last {
      assert forall i :: 0 <= i < last ==> ops[..last][i] == ops[i];
      DeletedStays(ops[..last], k, n, c);
    }
  }

  // ---------------------------------------------------------------------------------------------
  // The second time
  // ---------------------------------------------------------------------------------------------

  /** Every annotation set before the creation is set again after it, or the creation sets it anyway. */
  predicate Covered(before: Annotations, after: Annotations, own: Annotations) {
    forall x :: x in before && x !in after ==> x in own && own[x] == before[x]
  }

  lemma CreatedTwice(m: Manifest, a: Annotations, b: Annotations)
    ensures var once := Annotate(Some(m), b);
            Annotate(Annotate(once, a), b) == once <==> Covered(a, b, m.annotations)
  {
    var once, twice := m.annotations + b, ((m.annotations + b) + a) + b;
    if !Covered(a, b, m.annotations) {
      var x :| x in a && x !in b && !(x in m.annotations && m.annotations[x] == a[x]);
      assert x in twice && twice[x] == a[x];
      assert x in once ==> once[x] == m.annotations[x];
    } else {
      assert twice == once;
    }
  }

  lemma AnnotatedTwice(c: Option<Manifest>, a: Annotations, b: Annotations)
    ensures var once := Annotate(Annotate(c, a), b); Annotate(Annotate(once, a), b) == once
  {
    if c.Some? {
      var x := c.value.annotations;
      assert (((x + a) + b) + a) + b == (x + a) + b;
    }
  }

  /** One update in full: annotated before, merged or created, annotated after. */
  function Rewritten(op: Operation, c: Option<Manifest>, a: Annotations, b: Annotations): Option<Manifest> {
    Annotate(Next(op, Annotate(c, a)), b)
  }

  lemma UpdatedTwice(op: Operation, c: Option<Manifest>, a: Annotations, b: Annotations)
    requires op.ty.CreateOrUpdate? && (op.key.kind in CNRM_KINDS ==> STATE_INTO_SPEC !in a && STATE_INTO_SPEC !in b)
    ensures var once := Rewritten(op, c, a, b); Rewritten(op, once, a, b) == once
  {
    var kind, m := op.key.kind, op.m;
    var once := Rewritten(op, c, a, b);
    var again := Annotate(once, a).value;
    var written := Next(op, Annotate(c, a)).value;
    assert once.value == written.(annotations := written.annotations + b);
    MergeAgain(kind, m, written, again);
    assert Merge(kind, m, again) == written;
  }

  /** Merging over what a merge, or a creation, stored, however annotated since. */
  lemma MergeAgain(kind: string, m: Manifest, written: Manifest, again: Manifest)
    requires written == m || exists e :: written == Merge(kind, m, e)
    requires again == written.(annotations := again.annotations)
    requires kind in CNRM_KINDS ==>
               (STATE_INTO_SPEC in again.annotations <==> STATE_INTO_SPEC in written.annotations)
               && (STATE_INTO_SPEC in again.annotations ==> again.annotations[STATE_INTO_SPEC] == written.annotations[STATE_INTO_SPEC])
    ensures Merge(kind, m, again) == written
  {
    assert STATE_INTO_SPEC in m.annotations ==> m.annotations[STATE_INTO_SPEC := m.annotations[STATE_INTO_SPEC]] == m.annotations;
  }

  /** Folding an object's operations twice is folding them once exactly when it was there, or is not
    * created if missing, or what that creation is preceded by is covered. */
  lemma FoldTwiceIff(ops: seq<Operation>, k: Key, c: Option<Manifest>)
    requires OneWriter(ops) && AllKnown(ops) && SpecUntouched(ops)
    ensures Fold(ops, k, Fold(ops, k, c)) == Fold(ops, k, c)
            <==> forall n :: 0 <= n < |ops| && ops[n].key == k && ops[n].ty.CreateIfNotExists? && c.None? ==>
                   Covered(Sum(ops[..n], k), Sum(ops[n + 1..], k), ops[n].m.annotations)
  {
    if n :| 0 <= n < |ops| && ops[n].key == k && Writes(ops[n]) {
      forall i | 0 <= i < |ops| && i != n && ops[i].key == k ensures !Writes(ops[i]) {
        assert MayMeet(ops[if i < n then i else n], ops[if i < n then n else i]);
      }
      WriterTwiceIff(ops, n, c);
    } else if n :| 0 <= n < |ops| && ops[n].key == k && ops[n].ty.DeleteIfExists? {
      DeletedStays(ops, k, n, c);
      DeletedStays(ops, k, n, None);
    } else {
      OnlyAnnotates(ops, k, c);
      OnlyAnnotates(ops, k, Annotate(c, Sum(ops, k)));
      AnnotatedTwice(c, map[], Sum(ops, k));
      NoAnnotations(c);
      NoAnnotations(Annotate(c, Sum(ops, k)));
    }
  }

  lemma NoAnnotations(c: Option<Manifest>)
    ensures Annotate(c, map[]) == c
  {
    if c.Some? {
      assert c.value.annotations + map[] == c.value.annotations;
    }
  }

  lemma WriterTwiceIff(ops: seq<Operation>, n: nat, c: Option<Manifest>)
    requires OneWriter(ops) && AllKnown(ops) && SpecUntouched(ops) && n < |ops| && Writes(ops[n])
    ensures var k := ops[n].key;
            Fold(ops, k, Fold(ops, k, c)) == Fold(ops, k, c)
            <==> (ops[n].ty.CreateIfNotExists? && c.None? ==>
                    Covered(Sum(ops[..n], k), Sum(ops[n + 1..], k), ops[n].m.annotations))
  {
    var op, k := ops[n], ops[n].key;
    var a, b := Sum(ops[..n], k), Sum(ops[n + 1..], k);
    var once := Fold(ops, k, c);
    FoldAround(ops, n, c);
    FoldAround(ops, n, once);
    hide Fold, Sum, OneWriter;
    match op.ty
    case CreateOrUpdate =>
      if k.kind in CNRM_KINDS {
        SpecSpared(ops, n);
      }
      UpdatedTwice(op, c, a, b);
    case CreateIfNotExists =>
      if c.None? {
        CreatedTwice(op.m, a, b);
      } else {
        AnnotatedTwice(c, a, b);
      }
    case _ =>
  }

  lemma SpecSpared(ops: seq<Operation>, n: nat)
    requires SpecUntouched(ops) && n < |ops| && ops[n].key.kind in CNRM_KINDS
    ensures STATE_INTO_SPEC !in Sum(ops[..n], ops[n].key) && STATE_INTO_SPEC !in Sum(ops[n + 1..], ops[n].key)
  {
    SumSpares(ops[..n], ops[n].key, STATE_INTO_SPEC);
    SumSpares(ops[n + 1..], ops[n].key, STATE_INTO_SPEC);
  }

  // ---------------------------------------------------------------------------------------------
  // Whether the second run succeeds
  // ---------------------------------------------------------------------------------------------

  /** A successful update that can be repeated leaves an object that it may overwrite. */
  lemma UpdateAccepted(s: Server, op: Operation, f: Fault)
    requires Commit(s, op, f).1.Done? && Repeatable(s, op) && op.ty.CreateOrUpdate?
    ensures var t := Commit(s, op, f).0;
            op.key in t.objects && op.key.namespace in t.namespaces
            && MayOverwrite(op.m, t.objects[op.key].m, IsPostgresNamespace(t, op.key.namespace))
  {
    var t, pg := Commit(s, op, f).0, IsPostgresNamespace(s, op.key.namespace);
    var m, stored := op.m, t.objects[op.key].m;
    if !(m.owners == [] && pg) {
      if op.key in s.objects {
        var existing := s.objects[op.key].m;
        var i, j :| 0 <= i < |m.owners| && 0 <= j < |existing.owners| && Similar(existing.owners[j], m.owners[i]);
        assert Similar(stored.owners[j], m.owners[i]);
      } else {
        assert Similar(stored.owners[0], m.owners[0]);
      }
    }
  }

  /** An update without owners, outside postgres namespaces, succeeds only by creating. */
  lemma UnrepeatableUpdateCreates(s: Server, op: Operation, f: Fault)
    requires !Repeatable(s, op) && Commit(s, op, f).1.Done?
    ensures op.key !in s.objects
    ensures op.key in Commit(s, op, f).0.objects && Commit(s, op, f).0.objects[op.key].m.owners == []
  {
  }

  /** Around its one writer, an object is only annotated. */
  lemma OnlyAnnotatedElsewhere(s: Server, ops: seq<Operation>, n: nat, lo: nat, hi: nat)
    requires OneWriter(ops) && AllKnown(ops) && n < |ops| && Writes(ops[n])
    requires lo <= hi <= |ops| && (hi <= n || n < lo) && ops[n].key in s.objects
    ensures OffLimits(s, ops[lo..hi], ops[n].key)
  {
    forall i | 0 <= i < |ops[lo..hi]| && ops[lo..hi][i].key == ops[n].key
      ensures ops[lo..hi][i].ty.AnnotateIfExists?
    {
      assert ops[lo..hi][i] == ops[lo + i];
      assert MayMeet(ops[if lo + i < n then lo + i else n], ops[if lo + i < n then n else lo + i]);
    }
  }

  /** From its writer to the end of a successful run an object changes in annotations alone. */
  lemma WrittenStays(t: Server, ops: seq<Operation>, faults: Faults, n: nat) returns (before: Server, after: Server)
    requires RunCommits(t, ops, faults).1.Done? && OneWriter(ops)
    requires n < |ops| && Writes(ops[n])
    ensures (after, Done) == Commit(before, ops[n], faults(n)) && before.namespaces == t.namespaces
    ensures var end := RunCommits(t, ops, faults).0;
            && end.namespaces == t.namespaces && ops[n].key in after.objects && ops[n].key in end.objects
            && OnlyAnnotationsDiffer(after.objects[ops[n].key], end.objects[ops[n].key])
  {
    var k := ops[n].key;
    before, after := RunAround(t, ops, faults, n);
    RunFolds(t, ops, faults, k);
    NamespacesKept(t, ops[..n], faults);
    NamespacesKept(t, ops, faults);
    DoneCell(before, ops[n], faults(n), k);
    OnlyAnnotatedElsewhere(after, ops, n, n + 1, |ops|);
    RunKeepsForeign(after, ops[n + 1..], Shifted(faults, n + 1), k);
  }

  /** What the second run needs to find. */
  ghost predicate Accepts(s: Server, ops: seq<Operation>) {
    forall n :: 0 <= n < |ops| && ops[n].ty.CreateOrUpdate? ==>
      && ops[n].key in s.objects && ops[n].key.namespace in s.namespaces
      && MayOverwrite(ops[n].m, s.objects[ops[n].key].m, IsPostgresNamespace(s, ops[n].key.namespace))
  }

  lemma {:induction false} AcceptedRuns(s: Server, ops: seq<Operation>, n: nat)
    requires OneWriter(ops) && AllKnown(ops) && Accepts(s, ops) && n <= |ops|
    ensures RunCommits(s, ops[..n], NO_FAULTS).1.Done?
  {
    if n > 0 {
      var op := ops[n - 1];
      AcceptedRuns(s, ops, n - 1);
      assert ops[..n][..n - 1] == ops[..n - 1];
      if op.ty.CreateOrUpdate? {
        OnlyAnnotatedElsewhere(s, ops, n - 1, 0, n - 1);
        assert ops[0..n - 1] == ops[..n - 1];
        RunKeepsForeign(s, ops[..n - 1], NO_FAULTS, op.key);
        NamespacesKept(s, ops[..n - 1], NO_FAULTS);
      }
    }
  }

  lemma RepeatableRuns(t: Server, ops: seq<Operation>, faults: Faults)
    requires RunCommits(t, ops, faults).1.Done? && OneWriter(ops)
    requires forall i :: 0 <= i < |ops| ==> Repeatable(t, ops[i])
    ensures RunCommits(RunCommits(t, ops, faults).0, ops, NO_FAULTS).1.Done?
  {
    var end := RunCommits(t, ops, faults).0;
    RunFolds(t, ops, faults, Key("", "", ""));
    forall n | 0 <= n < |ops| && ops[n].ty.CreateOrUpdate?
      ensures && ops[n].key in end.objects && ops[n].key.namespace in end.namespaces
              && MayOverwrite(ops[n].m, end.objects[ops[n].key].m, IsPostgresNamespace(end, ops[n].key.namespace))
    {
      var before, after := WrittenStays(t, ops, faults, n);
      UpdateAccepted(before, ops[n], faults(n));
    }
    AcceptedRuns(end, ops, |ops|);
    assert ops[..|ops|] == ops;
  }

  lemma UnrepeatableFails(t: Server, ops: seq<Operation>, faults: Faults, n: nat)
    requires RunCommits(t, ops, faults).1.Done? && OneWriter(ops)
    requires n < |ops| && !Repeatable(t, ops[n])
    ensures RunCommits(RunCommits(t, ops, faults).0, ops, NO_FAULTS).1.Failed?
  {
    var end, k := RunCommits(t, ops, faults).0, ops[n].key;
    var before, after := WrittenStays(t, ops, faults, n);
    UnrepeatableUpdateCreates(before, ops[n], faults(n));
    RunFolds(t, ops, faults, k);
    OnlyAnnotatedElsewhere(end, ops, n, 0, n);
    assert ops[0..n] == ops[..n];
    RunKeepsForeign(end, ops[..n], NO_FAULTS, k);
    NamespacesKept(end, ops[..n], NO_FAULTS);
    if RunCommits(end, ops, NO_FAULTS).1.Done? {
      StepAt(end, ops, NO_FAULTS, n);
    }
  }

  // ---------------------------------------------------------------------------------------------
  // The second Sync
  // ---------------------------------------------------------------------------------------------

  /** The second Sync, planned without a fault where the first one ended, finds nothing to collect. */
  lemma SecondPlan(s: Server, listers: seq<string>, r: Rollout, commits: seq<Operation>, faults: Faults, again: seq<Operation>)
    requires PlannedOn(s, listers, r, commits) && RunCommits(s, commits, faults).1.Done?
    requires DeletesThenOperations(RunCommits(s, commits, faults).0, listers, r, again)
    ensures again == r.ops
  {
    var deletes := again[..|again| - |r.ops|];
    assert |deletes| > 0 ==> deletes[0].key in Unreferenced(RunCommits(s, commits, faults).0, listers, r);
    GarbageCollected(s, listers, r, commits, faults);
    assert again == r.ops;
  }

  /** The second Sync of a rollout with one writer for each object succeeds exactly when every update
    * can be repeated. */
  lemma SecondSyncSucceedsIff(s: Server, listers: seq<string>, r: Rollout, commits: seq<Operation>, faults: Faults, again: seq<Operation>)
    requires PlannedOn(s, listers, r, commits) && RunCommits(s, commits, faults).1.Done?
    requires OneWriter(r.ops)
    requires DeletesThenOperations(RunCommits(s, commits, faults).0, listers, r, again)
    ensures RunCommits(RunCommits(s, commits, faults).0, again, NO_FAULTS).1.Done?
            <==> forall i :: 0 <= i < |r.ops| ==> Repeatable(s, r.ops[i])
  {
    hide RunCommits, PlannedOn, DeletesThenOperations;
    SecondPlan(s, listers, r, commits, faults, again);
    var deletes, t := SuccessfulPlan(s, listers, r, commits, faults);
    NamespacesKept(s, deletes, faults);
    assert forall i :: 0 <= i < |r.ops| ==> (Repeatable(s, r.ops[i]) <==> Repeatable(t, r.ops[i]));
    if n :| 0 <= n < |r.ops| && !Repeatable(s, r.ops[n]) {
      UnrepeatableFails(t, r.ops, Shifted(faults, |deletes|), n);
    } else {
      RepeatableRuns(t, r.ops, Shifted(faults, |deletes|));
    }
  }

  /** The second run leaves every object as it is exactly when that holds of each one's operations. */
  lemma RunTwiceIff(t: Server, ops: seq<Operation>, faults: Faults)
    requires RunCommits(t, ops, faults).1.Done? && OneWriter(ops) && SpecUntouched(ops)
    requires RunCommits(RunCommits(t, ops, faults).0, ops, NO_FAULTS).1.Done?
    ensures var once := RunCommits(t, ops, faults).0;
            Alike(once, RunCommits(once, ops, NO_FAULTS).0)
            <==> forall n :: 0 <= n < |ops| && ops[n].ty.CreateIfNotExists? && ops[n].key !in t.objects ==>
                   Covered(Sum(ops[..n], ops[n].key), Sum(ops[n + 1..], ops[n].key), ops[n].m.annotations)
  {
    hide RunCommits, Fold, Sum, Covered, OneWriter, SpecUntouched, AllKnown;
    var once := RunCommits(t, ops, faults).0;
    var twice := RunCommits(once, ops, NO_FAULTS).0;
    NamespacesKept(once, ops, NO_FAULTS);
    forall k
      ensures CellOf(twice, k) == CellOf(once, k)
              <==> forall n :: 0 <= n < |ops| && ops[n].key == k && ops[n].ty.CreateIfNotExists? && k !in t.objects ==>
                     Covered(Sum(ops[..n], k), Sum(ops[n + 1..], k), ops[n].m.annotations)
    {
      RunFolds(t, ops, faults, k);
      RunFolds(once, ops, NO_FAULTS, k);
      FoldTwiceIff(ops, k, CellOf(t, k));
    }
    AlikeByCells(once, twice);
  }

  lemma AlikeByCells(s: Server, t: Server)
    requires t.namespaces == s.namespaces
    ensures Alike(s, t) <==> forall k :: CellOf(t, k) == CellOf(s, k)
  {
    if forall k :: CellOf(t, k) == CellOf(s, k) {
      assert forall k :: k in t.objects.Keys <==> CellOf(t, k).Some?;
      assert forall k :: k in s.objects.Keys <==> CellOf(s, k).Some?;
    }
  }

  /** After a successful Sync of a rollout with one writer for each object, all of its updates
    * repeatable, a second Sync changes no manifest exactly when for every object that was missing and
    * created by CreateIfNotExists: what was annotated before is annotated again after, or created so. */
  lemma SyncConvergesIff(s: Server, listers: seq<string>, r: Rollout, commits: seq<Operation>, faults: Faults, again: seq<Operation>)
    requires PlannedOn(s, listers, r, commits) && RunCommits(s, commits, faults).1.Done?
    requires OneWriter(r.ops) && SpecUntouched(r.ops) && forall i :: 0 <= i < |r.ops| ==> Repeatable(s, r.ops[i])
    requires DeletesThenOperations(RunCommits(s, commits, faults).0, listers, r, again)
    ensures var ops, once := r.ops, RunCommits(s, commits, faults).0;
            Alike(once, RunCommits(once, again, NO_FAULTS).0)
            <==> forall n :: 0 <= n < |ops| && ops[n].ty.CreateIfNotExists? && ops[n].key !in s.objects ==>
                   Covered(Sum(ops[..n], ops[n].key), Sum(ops[n + 1..], ops[n].key), ops[n].m.annotations)
  {
    hide RunCommits, PlannedOn, DeletesThenOperations, Alike, Covered, Sum, OneWriter, SpecUntouched, Repeatable;
    SecondPlan(s, listers, r, commits, faults, again);
    SecondSyncSucceedsIff(s, listers, r, commits, faults, again);
    var deletes, t := SuccessfulPlan(s, listers, r, commits, faults);
    RunTwiceIff(t, r.ops, Shifted(faults, |deletes|));
    forall n | 0 <= n < |r.ops| ensures r.ops[n].key in t.objects <==> r.ops[n].key in s.objects {
      NamedIsKept(s, listers, r, n);
    }
  }

  lemma NamedIsKept(s: Server, listers: seq<string>, r: Rollout, n: nat)
    requires n < |r.ops|
    ensures r.ops[n].key !in Unreferenced(s, listers, r)
  {
    assert Names(r.ops, r.ops[n].key);
  }

  /** And the second Sync gives no object a new identity but those that are recreated. */
  lemma IdentitiesConverge(s: Server, listers: seq<string>, r: Rollout, commits: seq<Operation>, faults: Faults, again: seq<Operation>, k: Key)
    requires PlannedOn(s, listers, r, commits) && RunCommits(s, commits, faults).1.Done?
    requires OneWriter(r.ops) && !Recreates(r.ops, k)
    requires DeletesThenOperations(RunCommits(s, commits, faults).0, listers, r, again)
    requires k in RunCommits(s, commits, faults).0.objects
    ensures var once := RunCommits(s, commits, faults).0;
            var twice := RunCommits(once, again, NO_FAULTS).0;
            k in twice.objects && twice.objects[k].uid == once.objects[k].uid
  {
    hide RunCommits, PlannedOn, DeletesThenOperations;
    SecondPlan(s, listers, r, commits, faults, again);
    var deletes, t := SuccessfulPlan(s, listers, r, commits, faults);
    var once := RunCommits(s, commits, faults).0;
    RunFolds(t, r.ops, Shifted(faults, |deletes|), k);
    forall n | 0 <= n < |r.ops| && r.ops[n].key == k ensures !r.ops[n].ty.DeleteIfExists? {
      if r.ops[n].ty.DeleteIfExists? {
        forall i | 0 <= i < |r.ops| && r.ops[i].key == k ensures !Writes(r.ops[i]) {
          assert i != n ==> MayMeet(r.ops[if i < n then i else n], r.ops[if i < n then n else i]);
        }
        DeletedStays(r.ops, k, n, CellOf(t, k));
      }
    }
    IdentitySurvives(once, again, NO_FAULTS, k);
  }

  /** For instance: annotating an object just before creating it settles in one Sync, on a server
    * without it, exactly when the creation sets the annotations anyway. */
  lemma AnnotateThenCreate(s: Server, k: Key, a: Manifest, m: Manifest)
    requires k !in s.objects
    ensures var ops := [Operation(AnnotateIfExists, k, a), Operation(CreateIfNotExists, k, m)];
            var once := RunCommits(s, ops, NO_FAULTS).0;
            Alike(once, RunCommits(once, ops, NO_FAULTS).0) <==> Covered(a.annotations, map[], m.annotations)
  {
    var annotate, create := Operation(AnnotateIfExists, k, a), Operation(CreateIfNotExists, k, m);
    var ops := [annotate, create];
    RunTwo(s, annotate, create);
    var once := RunCommits(s, ops, NO_FAULTS).0;
    RunTwo(once, annotate, create);
    var twice := RunCommits(once, ops, NO_FAULTS).0;
    assert twice.objects[k].m == m.(annotations := m.annotations + a.annotations);
    CreatedTwice(m, a.annotations, map[]);
    NoAnnotations(Some(m));
    NoAnnotations(Annotate(Some(m), a.annotations));
  }

  lemma RunTwo(s: Server, a: Operation, b: Operation)
    requires Commit(s, a, NoFault).1.Done?
    ensures RunCommits(s, [a, b], NO_FAULTS) == Commit(Commit(s, a, NoFault).0, b, NoFault)
  {
    assert [a, b] == [a] + [b] && [a] == [] + [a];
    RunSnoc(s, [a], b, NO_FAULTS, NoFault);
    RunSnoc(s, [], a, NO_FAULTS, NoFault);
  }
}
