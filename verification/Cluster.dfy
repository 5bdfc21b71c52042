/** An abstract API server: the managed objects by kind, namespace and name, and the client calls
  * the operator makes. Reads are linearizable and deletes take effect at once. Rollouts never name
  * Namespace objects, so namespaces are kept apart.
  */
module Cluster {

  datatype OwnerRef = OwnerRef(kind: string, name: string, uid: nat)

  datatype Key = Key(kind: string, namespace: string, name: string)

  /** What a manifest says about an object; `payload` stands for spec and data. */
  datatype Manifest = Manifest(
    labels: map<string, string>,
    annotations: map<string, string>,
    owners: seq<OwnerRef>,
    clusterIP: string,
    resourceID: string,
    payload: string)

  datatype Obj = Obj(uid: nat, version: nat, m: Manifest)

  /** `clock` is the source of fresh uids and resource versions. */
  datatype Server = Server(
    namespaces: map<string, map<string, string>>,
    objects: map<Key, Obj>,
    clock: nat)

  datatype Error = NotFound | AlreadyExists | Conflict | Invalid | Refused | Unavailable(reason: string)

  datatype Outcome = Done | Failed(error: Error)

  /** At most one client call of a commit fails for reasons outside the model: call number `n`. */
  datatype Fault = NoFault | FailCall(n: nat, e: Error)

  /** An error a server can return at any time, whatever it stores. */
  predicate External(f: Fault) {
    f.FailCall? ==> f.e.Conflict? || f.e.Invalid? || f.e.Unavailable?
  }

  predicate Hits(f: Fault, call: nat) {
    f.FailCall? && f.n == call
  }

  function Spent(f: Fault): Fault {
    if f.FailCall? && f.n > 0 then FailCall(f.n - 1, f.e) else NoFault
  }

  predicate IsPostgresNamespace(s: Server, ns: string) {
    ns in s.namespaces && "nais.io/type" in s.namespaces[ns] && s.namespaces[ns]["nais.io/type"] == "postgres"
  }

  // ---------------------------------------------------------------------------------------------
  // Effects of the write calls
  // ---------------------------------------------------------------------------------------------

  function Created(s: Server, k: Key, m: Manifest): Server {
    s.(objects := s.objects[k := Obj(s.clock, s.clock, m)], clock := s.clock + 1)
  }

  function Updated(s: Server, k: Key, m: Manifest): Server
    requires k in s.objects
  {
    s.(objects := s.objects[k := Obj(s.objects[k].uid, s.clock, m)], clock := s.clock + 1)
  }

  function Deleted(s: Server, k: Key): Server {
    s.(objects := s.objects - {k})
  }

  const RESOURCE_ID_KINDS := {"SQLInstance", "SQLDatabase", "SQLUser", "SQLSSLCert", "StorageBucket"}

  const CNRM_KINDS := RESOURCE_ID_KINDS + {"StorageBucketAccessControl"}

  /** The server refuses an update that changes an immutable field. */
  predicate ImmutableKept(kind: string, before: Manifest, after: Manifest) {
    && (kind == "Service" ==> after.clusterIP == before.clusterIP)
    && (kind in RESOURCE_ID_KINDS ==> after.resourceID == before.resourceID)
  }

  // ---------------------------------------------------------------------------------------------
  // The client
  // ---------------------------------------------------------------------------------------------

  datatype Result<+T> = Ok(value: T) | Err(error: Error)

  class Client {
    var server: Server
    var fault: Fault

    constructor (server: Server)
      ensures this.server == server && fault == NoFault
    {
      this.server := server;
      fault := NoFault;
    }

    method Get(k: Key) returns (r: Result<Obj>)
      modifies this`fault
      ensures fault == Spent(old(fault))
      ensures r == if Hits(old(fault), 0) then Err(old(fault).e)
                   else if k in server.objects then Ok(server.objects[k])
                   else Err(NotFound)
    {
      r := if Hits(fault, 0) then Err(fault.e)
           else if k in server.objects then Ok(server.objects[k])
           else Err(NotFound);
      fault := Spent(fault);
    }

    method GetNamespace(ns: string) returns (r: Result<map<string, string>>)
      modifies this`fault
      ensures fault == Spent(old(fault))
      ensures r == if Hits(old(fault), 0) then Err(old(fault).e)
                   else if ns in server.namespaces then Ok(server.namespaces[ns])
                   else Err(NotFound)
    {
      r := if Hits(fault, 0) then Err(fault.e)
           else if ns in server.namespaces then Ok(server.namespaces[ns])
           else Err(NotFound);
      fault := Spent(fault);
    }

    method Create(k: Key, m: Manifest) returns (r: Outcome)
      modifies this
      ensures fault == Spent(old(fault))
      ensures r == if Hits(old(fault), 0) then Failed(old(fault).e)
                   else if k in old(server.objects) then Failed(AlreadyExists)
                   else Done
      ensures server == if r.Done? then Created(old(server), k, m) else old(server)
    {
      if Hits(fault, 0) {
        r := Failed(fault.e);
      } else if k in server.objects {
        r := Failed(AlreadyExists);
      } else {
        server := Created(server, k, m);
        r := Done;
      }
      fault := Spent(fault);
    }

    /** Optimistic concurrency: `version` must be the stored one. */
    method Update(k: Key, version: nat, m: Manifest) returns (r: Outcome)
      modifies this
      ensures fault == Spent(old(fault))
      ensures r == if Hits(old(fault), 0) then Failed(old(fault).e)
                   else if k !in old(server.objects) then Failed(NotFound)
                   else if old(server.objects)[k].version != version then Failed(Conflict)
                   else if !ImmutableKept(k.kind, old(server.objects)[k].m, m) then Failed(Invalid)
                   else Done
      ensures server == if r.Done? then Updated(old(server), k, m) else old(server)
    {
      if Hits(fault, 0) {
        r := Failed(fault.e);
      } else if k !in server.objects {
        r := Failed(NotFound);
      } else if server.objects[k].version != version {
        r := Failed(Conflict);
      } else if !ImmutableKept(k.kind, server.objects[k].m, m) {
        r := Failed(Invalid);
      } else {
        server := Updated(server, k, m);
        r := Done;
      }
      fault := Spent(fault);
    }

    /** A merge patch that carries annotations only. */
    method PatchAnnotations(k: Key, annotations: map<string, string>) returns (r: Outcome)
      modifies this
      ensures fault == Spent(old(fault))
      ensures r == if Hits(old(fault), 0) then Failed(old(fault).e)
                   else if k !in old(server.objects) then Failed(NotFound)
                   else Done
      ensures server == if r.Done? then Updated(old(server), k, old(server).objects[k].m.(annotations := annotations))
                        else old(server)
    {
      if Hits(fault, 0) {
        r := Failed(fault.e);
      } else if k !in server.objects {
        r := Failed(NotFound);
      } else {
        server := Updated(server, k, server.objects[k].m.(annotations := annotations));
        r := Done;
      }
      fault := Spent(fault);
    }

    method Delete(k: Key) returns (r: Outcome)
      modifies this
      ensures fault == Spent(old(fault))
      ensures r == if Hits(old(fault), 0) then Failed(old(fault).e)
                   else if k !in old(server.objects) then Failed(NotFound)
                   else Done
      ensures server == if r.Done? then Deleted(old(server), k) else old(server)
    {
      if Hits(fault, 0) {
        r := Failed(fault.e);
      } else if k !in server.objects {
        r := Failed(NotFound);
      } else {
        server := Deleted(server, k);
        r := Done;
      }
      fault := Spent(fault);
    }

    /** Every object of one kind, in any order. */
    method List(kind: string) returns (r: Result<seq<Key>>)
      modifies this`fault
      ensures fault == Spent(old(fault))
      ensures r.Err? <==> Hits(old(fault), 0)
      ensures r.Err? ==> r.error == old(fault).e
      ensures r.Ok? ==> forall k :: k in r.value <==> k in server.objects && k.kind == kind
    {
      if Hits(fault, 0) {
        r := Err(fault.e);
      } else {
        var left := set k | k in server.objects && k.kind == kind;
        var items: seq<Key> := [];
        while left != {}
          invariant fault == old(fault)
          invariant forall k :: k in items || k in left <==> k in server.objects && k.kind == kind
          decreases left
        {
          var k :| k in left;
          items := items + [k];
          left := left - {k};
        }
        r := Ok(items);
      }
      fault := Spent(fault);
    }
  }
}
