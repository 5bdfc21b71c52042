/** The five operations a rollout is made of, each one a few client calls. */
module Updater {
  import opened Cluster

  datatype OperationType =
    | CreateOrUpdate
    | CreateOrRecreate
    | CreateIfNotExists
    | DeleteIfExists
    | AnnotateIfExists
    | Unknown(name: string)

  /** An unknown operation only ever fails. */
  datatype Operation = Operation(ty: OperationType, key: Key, m: Manifest)

  const STATE_INTO_SPEC := "cnrm.cloud.google.com/state-into-spec"

  // ---------------------------------------------------------------------------------------------
  // What updating an existing object may do
  // ---------------------------------------------------------------------------------------------

  predicate Similar(a: OwnerRef, b: OwnerRef) {
    a.name == b.name && a.kind == b.kind
  }

  /** Only an object owned by a workload of the same kind and name is overwritten; a resource
    * without owners may overwrite anything in a postgres namespace. */
  predicate MayOverwrite(m: Manifest, existing: Manifest, inPostgresNamespace: bool) {
    || (m.owners == [] && inPostgresNamespace)
    || exists i, j :: 0 <= i < |m.owners| && 0 <= j < |existing.owners| && Similar(existing.owners[j], m.owners[i])
  }

  /** The manifest stored when `m` is applied over `existing`: owner references, immutable fields
    * and the CNRM merge annotation survive, all else is replaced. */
  function Merge(kind: string, m: Manifest, existing: Manifest): (r: Manifest)
    ensures ImmutableKept(kind, existing, r)
  {
    var keepsMerge := kind in CNRM_KINDS && STATE_INTO_SPEC in existing.annotations && existing.annotations[STATE_INTO_SPEC] != "";
    m.(annotations := if keepsMerge then m.annotations[STATE_INTO_SPEC := existing.annotations[STATE_INTO_SPEC]] else m.annotations,
       clusterIP := if kind == "Service" then existing.clusterIP else m.clusterIP,
       resourceID := if kind in RESOURCE_ID_KINDS then existing.resourceID else m.resourceID,
       owners := if existing.owners != [] then existing.owners else m.owners)
  }

  // ---------------------------------------------------------------------------------------------
  // One commit, as a function of the server and of the call that fails, if any
  // ---------------------------------------------------------------------------------------------

  function Commit(s: Server, op: Operation, f: Fault): (Server, Outcome) {
    match op.ty
    case CreateOrUpdate => UpdateCommit(s, op.key, op.m, f)
    case CreateOrRecreate => RecreateCommit(s, op.key, op.m, f)
    case CreateIfNotExists =>
      if Hits(f, 0) then (s, Failed(f.e))
      else if op.key in s.objects then (s, Done)
      else (Created(s, op.key, op.m), Done)
    case DeleteIfExists =>
      if Hits(f, 0) then (s, Failed(f.e)) else (Deleted(s, op.key), Done)
    case AnnotateIfExists =>
      if Hits(f, 0) then (s, Failed(f.e))
      else if op.key !in s.objects then (s, Done)
      else if Hits(f, 1) then (s, Failed(f.e))
      else (Annotated(s, op.key, op.m.annotations), Done)
    case Unknown(reason) => (s, Failed(Unavailable(reason)))
  }

  function Annotated(s: Server, k: Key, annotations: map<string, string>): Server
    requires k in s.objects
  {
    Updated(s, k, s.objects[k].m.(annotations := s.objects[k].m.annotations + annotations))
  }

  function UpdateCommit(s: Server, k: Key, m: Manifest, f: Fault): (Server, Outcome) {
    if Hits(f, 0) then (s, Failed(f.e))
    else if k.namespace !in s.namespaces then (s, Failed(NotFound))
    else if Hits(f, 1) then (s, Failed(f.e))
    else if k !in s.objects then
      if Hits(f, 2) then (s, Failed(f.e)) else (Created(s, k, m), Done)
    else if !MayOverwrite(m, s.objects[k].m, IsPostgresNamespace(s, k.namespace)) then (s, Failed(Refused))
    else if Hits(f, 2) then (s, Failed(f.e))
    else (Updated(s, k, Merge(k.kind, m, s.objects[k].m)), Done)
  }

  /** The one operation that can fail half way: the old object is gone, the new one not there. What
    * kind of error the read in between met is not passed on. */
  function RecreateCommit(s: Server, k: Key, m: Manifest, f: Fault): (Server, Outcome) {
    if Hits(f, 0) then (s, Failed(f.e))
    else if Hits(f, 1) then (Deleted(s, k), Failed(Unavailable("internal error")))
    else if Hits(f, 2) then (Deleted(s, k), Failed(f.e))
    else (Created(Deleted(s, k), k, m), Done)
  }

  // ---------------------------------------------------------------------------------------------
  // The operations as client calls
  // ---------------------------------------------------------------------------------------------

  method AssertValidOwnerReference(m: Manifest, existing: Manifest, inPostgresNamespace: bool) returns (ok: bool)
    ensures ok == MayOverwrite(m, existing, inPostgresNamespace)
  {
    if m.owners == [] && inPostgresNamespace {
      return true;
    }
    for i := 0 to |m.owners|
      invariant forall x, y :: 0 <= x < i && 0 <= y < |existing.owners| ==> !Similar(existing.owners[y], m.owners[x])
    {
      for j := 0 to |existing.owners|
        invariant forall y :: 0 <= y < j ==> !Similar(existing.owners[y], m.owners[i])
      {
        if Similar(existing.owners[j], m.owners[i]) {
          return true;
        }
      }
    }
    return false;
  }

  method CopyCNRM(m: Manifest, existing: Manifest) returns (r: Manifest)
    ensures r == m.(annotations := r.annotations)
    ensures r.annotations ==
            if STATE_INTO_SPEC in existing.annotations && existing.annotations[STATE_INTO_SPEC] != ""
            then m.annotations[STATE_INTO_SPEC := existing.annotations[STATE_INTO_SPEC]]
            else m.annotations
  {
    r := m;
    if STATE_INTO_SPEC in existing.annotations && |existing.annotations[STATE_INTO_SPEC]| > 0 {
      r := r.(annotations := r.annotations[STATE_INTO_SPEC := existing.annotations[STATE_INTO_SPEC]]);
    }
  }

  method CopyImmutable(kind: string, m: Manifest, existing: Manifest) returns (r: Manifest)
    ensures r == Merge(kind, m, existing).(owners := m.owners)
    ensures r.labels == m.labels && r.payload == m.payload
  {
    r := m;
    if kind == "Service" {
      r := r.(clusterIP := existing.clusterIP);
    } else if kind in RESOURCE_ID_KINDS {
      r := CopyCNRM(r, existing);
      r := r.(resourceID := existing.resourceID);
    } else if kind == "StorageBucketAccessControl" {
      r := CopyCNRM(r, existing);
    }
  }

  method KeepOwnerReference(m: Manifest, existing: Manifest) returns (r: Manifest)
    ensures r == m.(owners := if existing.owners != [] then existing.owners else m.owners)
  {
    r := m;
    if |existing.owners| > 0 {
      r := r.(owners := existing.owners);
    }
  }

  method RunCreateOrUpdate(cli: Client, k: Key, m: Manifest) returns (r: Outcome)
    requires External(cli.fault)
    modifies cli
    ensures (cli.server, r) == UpdateCommit(old(cli.server), k, m, old(cli.fault))
    ensures r.Done? ==>
              k in cli.server.objects
              && cli.server.objects[k].m.labels == m.labels && cli.server.objects[k].m.payload == m.payload
  {
    var ns := cli.GetNamespace(k.namespace);
    if ns.Err? {
      return Failed(ns.error);
    }
    var isPgNamespace := "nais.io/type" in ns.value && ns.value["nais.io/type"] == "postgres";
    var existing := cli.Get(k);
    if existing.Err? && existing.error == NotFound {
      r := cli.Create(k, m);
    } else if existing.Ok? {
      var dst := CopyImmutable(k.kind, m, existing.value.m);
      var ok := AssertValidOwnerReference(m, existing.value.m, isPgNamespace);
      if !ok {
        return Failed(Refused);
      }
      dst := KeepOwnerReference(dst, existing.value.m);
      r := cli.Update(k, existing.value.version, dst);
    } else {
      r := Failed(existing.error);
    }
  }

  method RunCreateOrRecreate(cli: Client, k: Key, m: Manifest) returns (r: Outcome)
    requires External(cli.fault)
    modifies cli
    ensures (cli.server, r) == RecreateCommit(old(cli.server), k, m, old(cli.fault))
  {
    r := cli.Delete(k);
    if r.Failed? && r.error != NotFound {
      return;
    }
    assert cli.server == Deleted(old(cli.server), k);
    var existing := cli.Get(k);
    if existing.Err? && existing.error != NotFound {
      return Failed(Unavailable("internal error"));
    }
    r := cli.Create(k, m);
  }

  method RunCreateIfNotExists(cli: Client, k: Key, m: Manifest) returns (r: Outcome)
    requires External(cli.fault)
    modifies cli
    ensures (cli.server, r) == Commit(old(cli.server), Operation(CreateIfNotExists, k, m), old(cli.fault))
  {
    r := cli.Create(k, m);
    if r.Failed? && r.error == AlreadyExists {
      r := Done;
    }
  }

  method RunDeleteIfExists(cli: Client, k: Key, ghost m: Manifest) returns (r: Outcome)
    requires External(cli.fault)
    modifies cli
    ensures (cli.server, r) == Commit(old(cli.server), Operation(DeleteIfExists, k, m), old(cli.fault))
  {
    r := cli.Delete(k);
    if r.Failed? && r.error == NotFound {
      assert Deleted(cli.server, k) == cli.server;
      r := Done;
    }
  }

  method RunAnnotateIfExists(cli: Client, k: Key, m: Manifest) returns (r: Outcome)
    requires External(cli.fault)
    modifies cli
    ensures (cli.server, r) == Commit(old(cli.server), Operation(AnnotateIfExists, k, m), old(cli.fault))
  {
    var existing := cli.Get(k);
    if existing.Err? {
      return if existing.error == NotFound then Done else Failed(existing.error);
    }
    var annotations := existing.value.m.annotations + m.annotations;
    r := cli.PatchAnnotations(k, annotations);
    if r.Failed? && r.error == NotFound {
      r := Done;
    }
  }

  method Run(cli: Client, op: Operation) returns (r: Outcome)
    requires External(cli.fault)
    modifies cli
    ensures (cli.server, r) == Commit(old(cli.server), op, old(cli.fault))
  {
    match op.ty {
      case CreateOrUpdate => r := RunCreateOrUpdate(cli, op.key, op.m);
      case CreateOrRecreate => r := RunCreateOrRecreate(cli, op.key, op.m);
      case CreateIfNotExists => r := RunCreateIfNotExists(cli, op.key, op.m);
      case DeleteIfExists => r := RunDeleteIfExists(cli, op.key, op.m);
      case AnnotateIfExists => r := RunAnnotateIfExists(cli, op.key, op.m);
      case Unknown(reason) => r := Failed(Unavailable(reason));
    }
  }

  // ---------------------------------------------------------------------------------------------
  // What every operation keeps, whether it succeeds or fails at any call
  // ---------------------------------------------------------------------------------------------

  /** No commit touches an object other than the one it names, or any namespace. */
  lemma CommitFrame(s: Server, op: Operation, f: Fault, k: Key)
    requires k != op.key
    ensures Commit(s, op, f).0.namespaces == s.namespaces
    ensures k in Commit(s, op, f).0.objects <==> k in s.objects
    ensures k in s.objects ==> Commit(s, op, f).0.objects[k] == s.objects[k]
  {
  }

  /** Two versions of one object that differ in annotations alone. */
  predicate OnlyAnnotationsDiffer(a: Obj, b: Obj) {
    a.uid == b.uid && b.m == a.m.(annotations := b.m.annotations)
  }

  /** CreateOrUpdate keeps an object it does not own, CreateIfNotExists keeps every object, and
    * AnnotateIfExists alters annotations only. */
  lemma ForeignObjectKept(s: Server, op: Operation, f: Fault)
    requires op.key in s.objects
    requires op.ty.CreateOrUpdate? ==>
               !MayOverwrite(op.m, s.objects[op.key].m, IsPostgresNamespace(s, op.key.namespace))
    requires !op.ty.CreateOrRecreate? && !op.ty.DeleteIfExists?
    ensures op.key in Commit(s, op, f).0.objects
    ensures OnlyAnnotationsDiffer(s.objects[op.key], Commit(s, op, f).0.objects[op.key])
    ensures !op.ty.AnnotateIfExists? ==> Commit(s, op, f).0.objects[op.key] == s.objects[op.key]
  {
  }

  // ---------------------------------------------------------------------------------------------
  // What each operation comes to
  // ---------------------------------------------------------------------------------------------

  /** An update that succeeds stores the labels and data it carries; its annotations too, apart from how
    * a CNRM object is merged into its spec; and the fields that are not immutable for the kind. Of what
    * was stored before, only identity, owners and those fields last. */
  lemma UpdateStores(s: Server, op: Operation, f: Fault)
    requires op.ty.CreateOrUpdate? && Commit(s, op, f).1.Done?
    ensures var k, t := op.key, Commit(s, op, f).0;
            && k in t.objects
            && (var stored := t.objects[k].m;
                && stored.labels == op.m.labels && stored.payload == op.m.payload
                && (forall x :: x != "cnrm.cloud.google.com/state-into-spec" ==>
                      && (x in stored.annotations <==> x in op.m.annotations)
                      && (x in op.m.annotations ==> stored.annotations[x] == op.m.annotations[x]))
                && (k.kind !in {"SQLInstance", "SQLDatabase", "SQLUser", "SQLSSLCert", "StorageBucket", "StorageBucketAccessControl"} ==>
                      stored.annotations == op.m.annotations)
                && (var x, given := "cnrm.cloud.google.com/state-into-spec", op.m.annotations;
                    var existing := if k in s.objects then s.objects[k].m.annotations else map[];
                    if x in existing && existing[x] != "" then
                      k.kind in {"SQLInstance", "SQLDatabase", "SQLUser", "SQLSSLCert", "StorageBucket", "StorageBucketAccessControl"} ==>
                        x in stored.annotations && stored.annotations[x] == existing[x]
                    else (x in stored.annotations <==> x in given) && (x in given ==> stored.annotations[x] == given[x]))
                && (k.kind != "Service" ==> stored.clusterIP == op.m.clusterIP)
                && (k.kind !in {"SQLInstance", "SQLDatabase", "SQLUser", "SQLSSLCert", "StorageBucket"} ==>
                      stored.resourceID == op.m.resourceID))
            && (k !in s.objects ==> t.objects[k] == Obj(s.clock, s.clock, op.m))
            && (k in s.objects ==>
                  && t.objects[k].uid == s.objects[k].uid
                  && (k.kind == "Service" ==> t.objects[k].m.clusterIP == s.objects[k].m.clusterIP)
                  && (k.kind in {"SQLInstance", "SQLDatabase", "SQLUser", "SQLSSLCert", "StorageBucket"} ==>
                        t.objects[k].m.resourceID == s.objects[k].m.resourceID)
                  && t.objects[k].m.owners == if s.objects[k].m.owners != [] then s.objects[k].m.owners else op.m.owners)
  {
    var k := op.key;
    if k in s.objects {
      MergeStores(k.kind, op.m, s.objects[k].m);
    }
  }

  lemma MergeStores(kind: string, m: Manifest, existing: Manifest)
    ensures var stored := Merge(kind, m, existing);
            && stored.labels == m.labels && stored.payload == m.payload
            && (forall x :: x != "cnrm.cloud.google.com/state-into-spec" ==>
                  && (x in stored.annotations <==> x in m.annotations)
                  && (x in m.annotations ==> stored.annotations[x] == m.annotations[x]))
            && (kind !in {"SQLInstance", "SQLDatabase", "SQLUser", "SQLSSLCert", "StorageBucket", "StorageBucketAccessControl"} ==>
                  stored.annotations == m.annotations)
            && (var x, given := "cnrm.cloud.google.com/state-into-spec", existing.annotations;
                if x in given && given[x] != "" then
                  kind in {"SQLInstance", "SQLDatabase", "SQLUser", "SQLSSLCert", "StorageBucket", "StorageBucketAccessControl"} ==>
                    x in stored.annotations && stored.annotations[x] == given[x]
                else (x in stored.annotations <==> x in m.annotations) && (x in m.annotations ==> stored.annotations[x] == m.annotations[x]))
            && (kind != "Service" ==> stored.clusterIP == m.clusterIP)
            && (kind !in {"SQLInstance", "SQLDatabase", "SQLUser", "SQLSSLCert", "StorageBucket"} ==> stored.resourceID == m.resourceID)
            && (kind == "Service" ==> stored.clusterIP == existing.clusterIP)
            && (kind in {"SQLInstance", "SQLDatabase", "SQLUser", "SQLSSLCert", "StorageBucket"} ==> stored.resourceID == existing.resourceID)
            && stored.owners == if existing.owners != [] then existing.owners else m.owners
  {
  }

  /** What the other operations leave when they succeed: the new object, recreated as another one; the
    * old object, if there was one; nothing; and the old object with the given annotations over its own. */
  lemma OthersStore(s: Server, op: Operation, f: Fault)
    requires !op.ty.CreateOrUpdate? && Commit(s, op, f).1.Done?
    ensures var k, t := op.key, Commit(s, op, f).0;
            match op.ty
            case CreateOrRecreate => k in t.objects && t.objects[k].m == op.m && t.objects[k].uid == s.clock
            case CreateIfNotExists => k in t.objects && (if k in s.objects then t.objects[k] == s.objects[k] else t.objects[k].m == op.m)
            case DeleteIfExists => k !in t.objects
            case AnnotateIfExists =>
              && (k in t.objects <==> k in s.objects)
              && (k in s.objects ==>
                    var before, after := s.objects[k], t.objects[k];
                    && after.uid == before.uid
                    && after.m == before.m.(annotations := after.m.annotations)
                    && forall x ::
                         && (x in after.m.annotations <==> x in before.m.annotations || x in op.m.annotations)
                         && (x in op.m.annotations ==> after.m.annotations[x] == op.m.annotations[x])
                         && (x in before.m.annotations && x !in op.m.annotations ==> after.m.annotations[x] == before.m.annotations[x]))
            case _ => false
  {
  }

  /** When no call fails, an update fails exactly when its namespace is missing, or the object is there
    * and shares no owner of the same kind and name with it, unless it has no owners at all in a postgres
    * namespace; every other known operation succeeds. */
  lemma CommitSucceedsIff(s: Server, op: Operation)
    ensures Commit(s, op, NoFault).1.Done? <==>
            match op.ty
            case CreateOrUpdate =>
              && op.key.namespace in s.namespaces
              && (op.key in s.objects ==>
                    var owners, existing := op.m.owners, s.objects[op.key].m.owners;
                    || (exists i, j :: 0 <= i < |owners| && 0 <= j < |existing|
                                       && owners[i].kind == existing[j].kind && owners[i].name == existing[j].name)
                    || (owners == []
                        && "nais.io/type" in s.namespaces[op.key.namespace]
                        && s.namespaces[op.key.namespace]["nais.io/type"] == "postgres"))
            case Unknown(_) => false
            case _ => true
  {
    if op.ty.CreateOrUpdate? && op.key in s.objects {
      var owners, existing := op.m.owners, s.objects[op.key].m.owners;
      if i, j :| 0 <= i < |owners| && 0 <= j < |existing| && owners[i].kind == existing[j].kind && owners[i].name == existing[j].name {
        assert Similar(existing[j], owners[i]);
      }
    }
  }

  /** A commit that fails changes nothing, but that a recreation may have deleted the old object. */
  lemma FailureLeaves(s: Server, op: Operation, f: Fault)
    requires Commit(s, op, f).1.Failed?
    ensures var t := Commit(s, op, f).0;
            t == s || (op.ty.CreateOrRecreate? && t == s.(objects := s.objects - {op.key}))
  {
  }
}
