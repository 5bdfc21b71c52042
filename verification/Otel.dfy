/** OpenTelemetry environment variables: the platform's values together with what the user set. */
module Otel {
  import opened Strings
  import opened Wrappers

  datatype EnvVar = EnvVar(name: string, value: string)

  datatype Collector = Collector(service: string, namespace: string, port: int, protocol: string, tls: bool)

  const SERVICE_NAME := "OTEL_SERVICE_NAME"
  const RESOURCE_ATTRIBUTES := "OTEL_RESOURCE_ATTRIBUTES"
  const EXPORTER_ENDPOINT := "OTEL_EXPORTER_OTLP_ENDPOINT"
  const EXPORTER_PROTOCOL := "OTEL_EXPORTER_OTLP_PROTOCOL"
  const EXPORTER_INSECURE := "OTEL_EXPORTER_OTLP_INSECURE"

  const OTEL_NAMES := [SERVICE_NAME, RESOURCE_ATTRIBUTES, EXPORTER_ENDPOINT, EXPORTER_PROTOCOL, EXPORTER_INSECURE]

  predicate IsOtel(name: string) {
    name in OTEL_NAMES
  }

  const RESERVED := {"service.name", "service.namespace", "nais.backend"}

  // ---------------------------------------------------------------------------------------------
  // Attributes
  // ---------------------------------------------------------------------------------------------

  /** A user attribute that is kept: one '=', and a key the platform does not claim. */
  predicate Keeps(kv: string) {
    var parts := Split(kv, '=');
    |parts| == 2 && parts[0] !in RESERVED
  }

  function Kept(kvs: seq<string>): (r: seq<string>)
    ensures forall kv :: kv in r ==> Keeps(kv) && kv in kvs
  {
    if kvs == [] then []
    else Kept(kvs[..|kvs| - 1]) + IfKept(kvs[|kvs| - 1])
  }

  function IfKept(kv: string): seq<string> {
    if Keeps(kv) then [kv] else []
  }

  function Carried(e: EnvVar): (r: seq<string>)
    ensures forall kv :: kv in r ==> Keeps(kv)
  {
    if e.name == RESOURCE_ATTRIBUTES then Kept(Split(e.value, ',')) else []
  }

  /** The kept attributes of every variable that carries resource attributes, in order. */
  function UserAttributes(env: seq<EnvVar>): (r: seq<string>)
    ensures forall kv :: kv in r ==> Keeps(kv)
  {
    if env == [] then []
    else UserAttributes(env[..|env| - 1]) + Carried(env[|env| - 1])
  }

  function PlatformParts(name: string, namespace: string, sorted: seq<string>): seq<string> {
    ["service.name=" + name, "service.namespace=" + namespace]
    + if sorted == [] then [] else ["nais.backend=" + Join(sorted, ";")]
  }

  /** `given` with each of `kvs` behind it, after a comma. */
  function Extended(given: string, kvs: seq<string>): string {
    if kvs == [] then given else Extended(given, kvs[..|kvs| - 1]) + "," + kvs[|kvs| - 1]
  }

  function PlatformAttributes(name: string, namespace: string, sorted: seq<string>): string {
    "service.name=" + name + ",service.namespace=" + namespace
    + if sorted == [] then "" else ",nais.backend=" + Join(sorted, ";")
  }

  function Attributes(name: string, namespace: string, env: seq<EnvVar>, sorted: seq<string>): string {
    Extended(PlatformAttributes(name, namespace, sorted), UserAttributes(env))
  }

  lemma {:induction false} ExtendedTwice(given: string, a: seq<string>, b: seq<string>)
    ensures Extended(given, a + b) == Extended(Extended(given, a), b)
  {
    if b == [] {
      assert a + b == a;
    } else {
      var n := |b| - 1;
      assert (a + b)[..|a| + n] == a + b[..n];
      ExtendedTwice(given, a, b[..n]);
    }
  }

  /** The part of the loop for one variable. */
  method AppendKept(given: string, value: string) returns (attributes: string)
    ensures attributes == Extended(given, Kept(Split(value, ',')))
  {
    attributes := given;
    var kvs := Split(value, ',');
    for j := 0 to |kvs|
      invariant attributes == Extended(given, Kept(kvs[..j]))
    {
      assert kvs[..j + 1][..j] == kvs[..j];
      var parts := Split(kvs[j], '=');
      if |parts| == 2 && parts[0] !in RESERVED {
        attributes := attributes + "," + kvs[j];
        assert Kept(kvs[..j + 1])[..|Kept(kvs[..j])|] == Kept(kvs[..j]);
      } else {
        assert Kept(kvs[..j + 1]) == Kept(kvs[..j]);
      }
    }
    assert kvs[..|kvs|] == kvs;
  }

  /** Sorts the caller's destinations in place. */
  method OtelAttributes(name: string, namespace: string, env: seq<EnvVar>, destinations: array<string>)
    returns (attributes: string)
    modifies destinations
    ensures destinations[..] == Sorted(old(destinations[..])) && InOrder(destinations[..])
    ensures attributes == Attributes(name, namespace, env, destinations[..])
  {
    attributes := "service.name=" + name + ",service.namespace=" + namespace;
    if destinations.Length > 0 {
      Sort(destinations);
      attributes := attributes + ",nais.backend=" + Join(destinations[..], ";");
    }
    ghost var platform := PlatformAttributes(name, namespace, destinations[..]);
    assert attributes == platform && destinations[..] == Sorted(old(destinations[..]));
    hide Sorted, PlatformAttributes, Split, Kept, Extended, AtMost;
    for i := 0 to |env|
      invariant attributes == Extended(platform, UserAttributes(env[..i]))
      invariant destinations[..] == Sorted(old(destinations[..])) && InOrder(destinations[..])
    {
      assert env[..i + 1][..i] == env[..i];
      if env[i].name == RESOURCE_ATTRIBUTES {
        attributes := AppendKept(attributes, env[i].value);
        ExtendedTwice(platform, UserAttributes(env[..i]), Kept(Split(env[i].value, ',')));
      } else {
        assert UserAttributes(env[..i + 1]) == UserAttributes(env[..i]);
      }
    }
    assert env[..|env|] == env;
  }

  // ---------------------------------------------------------------------------------------------
  // Environment
  // ---------------------------------------------------------------------------------------------

  function Filtered(env: seq<EnvVar>): (r: seq<EnvVar>)
    ensures forall e :: e in r ==> !IsOtel(e.name)
  {
    if env == [] then []
    else
      var last := env[|env| - 1];
      Filtered(env[..|env| - 1]) + if IsOtel(last.name) then [] else [last]
  }

  method OtelFilterEnvVars(env: seq<EnvVar>) returns (filtered: seq<EnvVar>)
    ensures filtered == Filtered(env)
  {
    filtered := [];
    for i := 0 to |env|
      invariant filtered == Filtered(env[..i])
    {
      assert env[..i + 1][..i] == env[..i];
      var e := env[i];
      if && e.name != SERVICE_NAME && e.name != RESOURCE_ATTRIBUTES && e.name != EXPORTER_ENDPOINT
         && e.name != EXPORTER_PROTOCOL && e.name != EXPORTER_INSECURE {
        filtered := filtered + [e];
      }
    }
    assert env[..|env|] == env;
  }

  function Decimal(n: int): string
    decreases if n < 0 then 1 - n else n
  {
    if n < 0 then "-" + Decimal(-n)
    else if n < 10 then ["0123456789"[n]]
    else Decimal(n / 10) + ["0123456789"[n % 10]]
  }

  function Endpoint(c: Collector): string {
    (if c.tls then "https" else "http") + "://" + c.service + "." + c.namespace + ":" + Decimal(c.port)
  }

  function PlatformEnv(name: string, attributes: string, c: Collector): seq<EnvVar> {
    [EnvVar(SERVICE_NAME, name),
     EnvVar(RESOURCE_ATTRIBUTES, attributes),
     EnvVar(EXPORTER_ENDPOINT, Endpoint(c)),
     EnvVar(EXPORTER_PROTOCOL, c.protocol),
     EnvVar(EXPORTER_INSECURE, if c.tls then "false" else "true")]
  }

  function Environment(name: string, namespace: string, env: seq<EnvVar>, destinations: seq<string>, c: Collector): seq<EnvVar> {
    Filtered(env) + PlatformEnv(name, Attributes(name, namespace, env, Sorted(destinations)), c)
  }

  method OtelEnvVars(name: string, namespace: string, env: seq<EnvVar>, destinations: array<string>, c: Collector)
    returns (r: seq<EnvVar>)
    modifies destinations
    ensures r == Environment(name, namespace, env, old(destinations[..]), c)
    ensures destinations[..] == Sorted(old(destinations[..])) && InOrder(destinations[..])
  {
    var filtered := OtelFilterEnvVars(env);
    var attributes := OtelAttributes(name, namespace, env, destinations);
    r := filtered + PlatformEnv(name, attributes, c);
  }

  // ---------------------------------------------------------------------------------------------
  // Sorting
  // ---------------------------------------------------------------------------------------------

  predicate AtMost(s: string, t: string) {
    s == "" || (t != "" && (s[0] < t[0] || (s[0] == t[0] && AtMost(s[1..], t[1..]))))
  }

  function Insert(s: string, sorted: seq<string>): (r: seq<string>)
    ensures |r| == |sorted| + 1
  {
    if sorted == [] || AtMost(s, sorted[0]) then [s] + sorted else [sorted[0]] + Insert(s, sorted[1..])
  }

  function Sorted(xs: seq<string>): (r: seq<string>)
    ensures |r| == |xs|
  {
    if xs == [] then [] else Insert(xs[0], Sorted(xs[1..]))
  }

  lemma {:induction false} SameMembers(s: string, sorted: seq<string>)
    ensures multiset(Insert(s, sorted)) == multiset(sorted) + multiset{s}
  {
    if sorted != [] && !AtMost(s, sorted[0]) {
      SameMembers(s, sorted[1..]);
      assert sorted == [sorted[0]] + sorted[1..];
    }
  }

  ghost predicate InOrder(xs: seq<string>) {
    forall i, j :: 0 <= i < j < |xs| ==> AtMost(xs[i], xs[j])
  }

  lemma {:induction false} InsertKeepsOrder(s: string, sorted: seq<string>)
    requires InOrder(sorted)
    ensures InOrder(Insert(s, sorted))
  {
    var r := Insert(s, sorted);
    if sorted == [] {
    } else if AtMost(s, sorted[0]) {
      forall j | 0 < j < |r| ensures AtMost(s, r[j]) {
        if j > 1 {
          AtMostTransitive(s, sorted[0], sorted[j - 1]);
        }
      }
    } else {
      InsertKeepsOrder(s, sorted[1..]);
      AtMostTotal(s, sorted[0]);
      SameMembers(s, sorted[1..]);
      forall j | 0 < j < |r| ensures AtMost(sorted[0], r[j]) {
        assert r[j] == Insert(s, sorted[1..])[j - 1];
        assert r[j] in multiset(Insert(s, sorted[1..]));
        assert r[j] == s || r[j] in sorted[1..];
      }
      assert forall i, j :: 0 < i < j < |r| ==> r[i] == Insert(s, sorted[1..])[i - 1] && r[j] == Insert(s, sorted[1..])[j - 1];
    }
  }

  /** Sorting puts the destinations in order. */
  lemma {:induction false} SortedInOrder(xs: seq<string>)
    ensures InOrder(Sorted(xs))
  {
    if xs != [] {
      SortedInOrder(xs[1..]);
      InsertKeepsOrder(xs[0], Sorted(xs[1..]));
    }
  }

  method Sort(a: array<string>)
    modifies a
    ensures a[..] == Sorted(old(a[..])) && InOrder(a[..])
  {
    var s := Sorted(a[..]);
    SortedInOrder(a[..]);
    forall i | 0 <= i < a.Length {
      a[i] := s[i];
    }
    assert a[..] == s;
  }

  lemma AtMostTotal(s: string, t: string)
    ensures AtMost(s, t) || AtMost(t, s)
    ensures AtMost(s, t) && AtMost(t, s) ==> s == t
  {
    if s != "" && t != "" && s[0] == t[0] {
      AtMostTotal(s[1..], t[1..]);
      assert s == [s[0]] + s[1..] && t == [t[0]] + t[1..];
    }
  }

  lemma {:induction false} AtMostTransitive(s: string, t: string, u: string)
    requires AtMost(s, t) && AtMost(t, u)
    ensures AtMost(s, u)
  {
    if s != "" && s[0] == t[0] == u[0] {
      AtMostTransitive(s[1..], t[1..], u[1..]);
    }
  }

  lemma {:induction false} InsertCommutes(s: string, t: string, sorted: seq<string>)
    ensures Insert(s, Insert(t, sorted)) == Insert(t, Insert(s, sorted))
  {
    AtMostTotal(s, t);
    if sorted != [] {
      var u := sorted[0];
      AtMostTotal(s, u);
      AtMostTotal(t, u);
      InsertCommutes(s, t, sorted[1..]);
      if AtMost(s, u) && AtMost(t, u) {
      } else if AtMost(s, u) {
        if AtMost(t, s) { AtMostTransitive(t, s, u); }
      } else if AtMost(t, u) {
        if AtMost(s, t) { AtMostTransitive(s, t, u); }
      }
    }
  }

  lemma {:induction false} SortedRemove(xs: seq<string>, i: nat)
    requires i < |xs|
    ensures Sorted(xs) == Insert(xs[i], Sorted(xs[..i] + xs[i + 1..]))
  {
    var rest := xs[..i] + xs[i + 1..];
    if i == 0 {
      assert rest == xs[1..];
    } else {
      assert rest[0] == xs[0] && rest[1..] == xs[1..][..i - 1] + xs[1..][i..];
      SortedRemove(xs[1..], i - 1);
      InsertCommutes(xs[0], xs[i], Sorted(rest[1..]));
    }
  }

  lemma Without(xs: seq<string>, i: nat) returns (rest: seq<string>)
    requires i < |xs|
    ensures rest == xs[..i] + xs[i + 1..] && multiset(rest) == multiset(xs) - multiset{xs[i]}
  {
    rest := xs[..i] + xs[i + 1..];
    assert xs == xs[..i] + [xs[i]] + xs[i + 1..];
  }

  /** Sorting forgets the order the destinations came in. */
  lemma {:induction false} OrderDoesNotMatter(xs: seq<string>, ys: seq<string>)
    requires multiset(xs) == multiset(ys)
    ensures Sorted(xs) == Sorted(ys)
  {
    assert |xs| == |multiset(xs)| == |ys|;
    if xs != [] {
      hide *;
      assert xs[0] in multiset(ys);
      var i :| 0 <= i < |ys| && ys[i] == xs[0];
      var restX := Without(xs, 0);
      var restY := Without(ys, i);
      OrderDoesNotMatter(restX, restY);
      SortedRemove(xs, 0);
      SortedRemove(ys, i);
    }
  }

  lemma {:induction false} SortedMembers(xs: seq<string>)
    ensures multiset(Sorted(xs)) == multiset(xs)
  {
    if xs != [] {
      SortedMembers(xs[1..]);
      SameMembers(xs[0], Sorted(xs[1..]));
      assert xs == [xs[0]] + xs[1..];
    }
  }

  // ---------------------------------------------------------------------------------------------
  // What the variables say
  // ---------------------------------------------------------------------------------------------

  lemma {:induction false} KeptJoin(a: seq<string>, b: seq<string>)
    ensures Kept(a + b) == Kept(a) + Kept(b)
  {
    hide Keeps, IfKept;
    if b == [] {
      assert a + b == a;
    } else {
      var n := |b| - 1;
      assert (a + b)[..|a| + n] == a + b[..n];
      KeptJoin(a, b[..n]);
    }
  }

  lemma {:induction false} KeptAll(kvs: seq<string>)
    requires forall kv :: kv in kvs ==> Keeps(kv)
    ensures Kept(kvs) == kvs
  {
    hide Keeps;
    if kvs != [] {
      var n := |kvs| - 1;
      assert kvs[n] in kvs;
      KeptAll(kvs[..n]);
      assert kvs == kvs[..n] + [kvs[n]];
    }
  }

  lemma {:induction false} UserAttributesPlain(env: seq<EnvVar>)
    ensures forall kv :: kv in UserAttributes(env) ==> ',' !in kv
  {
    if env != [] {
      UserAttributesPlain(env[..|env| - 1]);
      PartsPlain(env[|env| - 1].value, ',');
    }
  }

  /** The user's attributes are split off again as they were put on. */
  lemma {:induction false} SplitExtended(given: string, kvs: seq<string>)
    requires forall kv :: kv in kvs ==> ',' !in kv
    ensures Split(Extended(given, kvs), ',') == Split(given, ',') + kvs
  {
    if kvs != [] {
      var n := |kvs| - 1;
      SplitExtended(given, kvs[..n]);
      SplitAppend(Extended(given, kvs[..n]), kvs[n], ',');
      SplitPlain(kvs[n], ',');
      assert kvs == kvs[..n] + [kvs[n]];
    }
  }

  lemma {:induction false} ExtendedLonger(given: string, kvs: seq<string>)
    ensures |Extended(given, kvs)| >= |given| && (kvs != [] ==> |Extended(given, kvs)| > |given|)
  {
    if kvs != [] {
      ExtendedLonger(given, kvs[..|kvs| - 1]);
    }
  }

  lemma {:induction false} SameLength(given: string, other: string, kvs: seq<string>)
    ensures |Extended(given, kvs)| - |given| == |Extended(other, kvs)| - |other|
  {
    if kvs != [] {
      SameLength(given, other, kvs[..|kvs| - 1]);
    }
  }

  lemma {:induction false} FilteredJoin(a: seq<EnvVar>, b: seq<EnvVar>)
    ensures Filtered(a + b) == Filtered(a) + Filtered(b)
  {
    hide IsOtel;
    if b == [] {
      assert a + b == a;
    } else {
      var n := |b| - 1;
      assert (a + b)[..|a| + n] == a + b[..n];
      FilteredJoin(a, b[..n]);
    }
  }

  lemma {:induction false} UserAttributesJoin(a: seq<EnvVar>, b: seq<EnvVar>)
    ensures UserAttributes(a + b) == UserAttributes(a) + UserAttributes(b)
  {
    hide Carried, Keeps;
    if b == [] {
      assert a + b == a;
    } else {
      var n := |b| - 1;
      assert (a + b)[..|a| + n] == a + b[..n];
      UserAttributesJoin(a, b[..n]);
    }
  }

  lemma {:induction false} FilteredAll(env: seq<EnvVar>)
    requires forall e :: e in env ==> !IsOtel(e.name)
    ensures Filtered(env) == env
  {
    hide IsOtel;
    if env != [] {
      var n := |env| - 1;
      assert env[n] in env;
      FilteredAll(env[..n]);
      assert env == env[..n] + [env[n]];
    }
  }

  lemma OneVariable(e: EnvVar)
    ensures Filtered([e]) == (if IsOtel(e.name) then [] else [e]) && UserAttributes([e]) == Carried(e)
  {
    hide IsOtel, Carried;
    assert [e][..0] == [];
  }

  lemma {:induction false} FilteredNone(env: seq<EnvVar>)
    requires forall e :: e in env ==> IsOtel(e.name)
    ensures Filtered(env) == []
  {
    hide IsOtel;
    if env != [] {
      FilteredNone(env[..|env| - 1]);
    }
  }

  lemma {:induction false} CarriedNone(env: seq<EnvVar>)
    requires forall e :: e in env ==> e.name != RESOURCE_ATTRIBUTES
    ensures UserAttributes(env) == []
  {
    if env != [] {
      CarriedNone(env[..|env| - 1]);
    }
  }

  lemma PlatformNames(name: string, attributes: string, c: Collector)
    ensures forall e :: e in PlatformEnv(name, attributes, c) ==> IsOtel(e.name)
    ensures forall i :: 0 <= i < 5 && i != 1 ==> PlatformEnv(name, attributes, c)[i].name != RESOURCE_ATTRIBUTES
  {
    hide Endpoint;
    assert OTEL_NAMES[0] == SERVICE_NAME && OTEL_NAMES[1] == RESOURCE_ATTRIBUTES && OTEL_NAMES[2] == EXPORTER_ENDPOINT;
    assert OTEL_NAMES[3] == EXPORTER_PROTOCOL && OTEL_NAMES[4] == EXPORTER_INSECURE;
  }

  lemma SecondCarries(p: seq<EnvVar>)
    requires |p| == 5 && forall i :: 0 <= i < 5 && i != 1 ==> p[i].name != RESOURCE_ATTRIBUTES
    ensures UserAttributes(p) == Carried(p[1])
  {
    hide *;
    CarriedNone(p[..1]);
    CarriedNone(p[2..]);
    OneVariable(p[1]);
    UserAttributesJoin([p[1]], p[2..]);
    UserAttributesJoin(p[..1], [p[1]] + p[2..]);
    assert p == p[..1] + ([p[1]] + p[2..]);
  }

  lemma PlatformIsFiltered(name: string, attributes: string, c: Collector)
    ensures Filtered(PlatformEnv(name, attributes, c)) == []
    ensures UserAttributes(PlatformEnv(name, attributes, c)) == Kept(Split(attributes, ','))
  {
    hide Filtered, UserAttributes, Kept, Split, Endpoint, IsOtel;
    var p := PlatformEnv(name, attributes, c);
    PlatformNames(name, attributes, c);
    FilteredNone(p);
    SecondCarries(p);
    CarriedBy(p[1]);
  }

  lemma CarriedBy(e: EnvVar)
    requires e.name == RESOURCE_ATTRIBUTES
    ensures Carried(e) == Kept(Split(e.value, ','))
  {
  }

  /** Splitting the value that a container gets gives the platform's attributes and then, in order,
    * the user's. */
  lemma AttributesSplit(name: string, namespace: string, env: seq<EnvVar>, sorted: seq<string>)
    ensures Split(Attributes(name, namespace, env, sorted), ',')
         == Split(PlatformAttributes(name, namespace, sorted), ',') + UserAttributes(env)
  {
    UserAttributesPlain(env);
    SplitExtended(PlatformAttributes(name, namespace, sorted), UserAttributes(env));
  }

  lemma FilteredCarriesNone(env: seq<EnvVar>)
    ensures UserAttributes(Filtered(env)) == []
  {
    hide Filtered, UserAttributes;
    assert OTEL_NAMES[1] == RESOURCE_ATTRIBUTES;
    CarriedNone(Filtered(env));
  }

  lemma RereadAttributes(name: string, namespace: string, env: seq<EnvVar>, destinations: seq<string>, c: Collector)
    ensures var once := Environment(name, namespace, env, destinations, c);
            && Filtered(once) == Filtered(env)
            && UserAttributes(once)
               == Kept(Split(PlatformAttributes(name, namespace, Sorted(destinations)), ',')) + UserAttributes(env)
  {
    hide Split, Extended, PlatformAttributes, Sorted, PlatformEnv, Kept, Keeps, UserAttributes;
    var attributes := Attributes(name, namespace, env, Sorted(destinations));
    var platform := PlatformEnv(name, attributes, c);
    FilteredAll(Filtered(env));
    FilteredCarriesNone(env);
    FilteredJoin(Filtered(env), platform);
    UserAttributesJoin(Filtered(env), platform);
    PlatformIsFiltered(name, attributes, c);
    AttributesSplit(name, namespace, env, Sorted(destinations));
    KeptJoin(Split(PlatformAttributes(name, namespace, Sorted(destinations)), ','), UserAttributes(env));
    UserAttributesKept(env);
    KeptAll(UserAttributes(env));
  }

  lemma UserAttributesKept(env: seq<EnvVar>)
    ensures forall kv :: kv in UserAttributes(env) ==> Keeps(kv)
  {
  }

  lemma TwiceTheSameIff(name: string, namespace: string, env: seq<EnvVar>, destinations: seq<string>, c: Collector)
    ensures var once := Environment(name, namespace, env, destinations, c);
            Environment(name, namespace, once, Sorted(destinations), c) == once
            <==> Kept(Split(PlatformAttributes(name, namespace, Sorted(destinations)), ',')) == []
  {
    hide Split, PlatformAttributes, Sorted, Kept, Keeps, UserAttributes, Filtered, Extended, Endpoint;
    var sorted := Sorted(destinations);
    var once := Environment(name, namespace, env, destinations, c);
    var twice := Environment(name, namespace, once, sorted, c);
    var given := PlatformAttributes(name, namespace, sorted);
    var leaked := Kept(Split(given, ','));
    SortedMembers(destinations);
    OrderDoesNotMatter(sorted, destinations);
    RereadAttributes(name, namespace, env, destinations, c);
    ExtendedTwice(given, leaked, UserAttributes(env));
    ExtendedLonger(given, leaked);
    SameLength(Extended(given, leaked), given, UserAttributes(env));
    var n := |Filtered(env)| + 1;
    assert once[n].value == Extended(given, UserAttributes(env));
    assert twice[n].value == Extended(given, leaked + UserAttributes(env));
    if leaked == [] {
      assert leaked + UserAttributes(env) == UserAttributes(env);
    }
  }

  /** What a value brings in as attributes of its own: well-formed ones behind its first comma. */
  ghost function Smuggled(value: string): seq<string> {
    Kept(Split(value, ',')[1..])
  }

  /** A value behind its key: the key stays with the first piece, which is never kept. */
  lemma BehindKey(key: string, value: string)
    requires key in RESERVED && '=' !in key && ',' !in key
    ensures Kept(Split(key + "=" + value, ',')) == Smuggled(value)
  {
    var pieces := Split(value, ',');
    var first, rest := pieces[0], pieces[1..];
    hide Keeps, Split;
    PrefixSplit(key + "=", value);
    assert Split(key + "=" + value, ',') == [key + "=" + first] + rest;
    NotKept(key, first);
    NoneKept([key + "=" + first]);
    KeptJoin([key + "=" + first], rest);
  }

  lemma {:induction false} PrefixSplit(prefix: string, value: string)
    requires ',' !in prefix
    ensures Split(prefix + value, ',') == [prefix + Split(value, ',')[0]] + Split(value, ',')[1..]
  {
    if prefix == "" {
      assert prefix + value == value && prefix + Split(value, ',')[0] == Split(value, ',')[0];
    } else {
      assert (prefix + value)[1..] == prefix[1..] + value;
      PrefixSplit(prefix[1..], value);
      assert [prefix[0]] + (prefix[1..] + Split(value, ',')[0]) == prefix + Split(value, ',')[0];
    }
  }

  /** What the platform's attributes would bring in, read as a user's, comes from their values. */
  lemma PlatformSmuggles(name: string, namespace: string, sorted: seq<string>)
    ensures Kept(Split(PlatformAttributes(name, namespace, sorted), ','))
         == Smuggled(name) + Smuggled(namespace) + if sorted == [] then [] else Smuggled(Join(sorted, ";"))
  {
    hide Split, Keeps, Kept, Smuggled, Join;
    var a, b, c := "service.name=" + name, "service.namespace=" + namespace, "nais.backend=" + Join(sorted, ";");
    assert "service.name=" == "service.name" + "=" && "service.namespace=" == "service.namespace" + "=";
    assert "nais.backend=" == "nais.backend" + "=";
    BehindKey("service.name", name);
    BehindKey("service.namespace", namespace);
    BehindKey("nais.backend", Join(sorted, ";"));
    SplitAppend(a, b, ',');
    KeptJoin(Split(a, ','), Split(b, ','));
    assert PlatformAttributes(name, namespace, []) == a + [','] + b;
    if sorted != [] {
      SplitAppend(a + [','] + b, c, ',');
      KeptJoin(Split(a + [','] + b, ','), Split(c, ','));
      assert PlatformAttributes(name, namespace, sorted) == a + [','] + b + [','] + c;
    }
  }

  /** Treating a container's variables a second time changes nothing exactly when neither the name nor
    * the namespace nor the joined destinations have a well-formed attribute behind a comma. */
  lemma IdempotentIff(name: string, namespace: string, env: seq<EnvVar>, destinations: seq<string>, c: Collector)
    ensures var once := Environment(name, namespace, env, destinations, c);
            Environment(name, namespace, once, Sorted(destinations), c) == once
            <==> && Smuggled(name) == [] && Smuggled(namespace) == []
                 && (destinations != [] ==> Smuggled(Join(Sorted(destinations), ";")) == [])
  {
    hide Split, Environment, Kept, Smuggled, PlatformAttributes, Join;
    TwiceTheSameIff(name, namespace, env, destinations, c);
    PlatformSmuggles(name, namespace, Sorted(destinations));
  }

  ghost predicate CommaFree(name: string, namespace: string, destinations: seq<string>) {
    ',' !in name && ',' !in namespace && forall d :: d in destinations ==> ',' !in d
  }

  lemma NotKept(key: string, value: string)
    requires key in RESERVED && '=' !in key
    ensures !Keeps(key + "=" + value)
  {
    SplitAppend(key, value, '=');
    SplitPlain(key, '=');
    assert key + ['='] + value == key + "=" + value;
  }

  lemma {:induction false} NoneKept(kvs: seq<string>)
    requires forall kv :: kv in kvs ==> !Keeps(kv)
    ensures Kept(kvs) == []
  {
    if kvs != [] {
      NoneKept(kvs[..|kvs| - 1]);
    }
  }

  /** One '=', and in front of it a key that the platform does not claim. */
  ghost predicate IsUserAttribute(kv: string) {
    exists i :: 0 <= i < |kv| && kv[i] == '=' && '=' !in kv[..i] && '=' !in kv[i + 1..]
                && kv[..i] != "service.name" && kv[..i] != "service.namespace" && kv[..i] != "nais.backend"
  }

  lemma KeepsIff(kv: string)
    ensures Keeps(kv) <==> IsUserAttribute(kv)
  {
    hide Split;
    if i :| 0 <= i < |kv| && kv[i] == '=' && '=' !in kv[..i] && '=' !in kv[i + 1..]
            && kv[..i] != "service.name" && kv[..i] != "service.namespace" && kv[..i] != "nais.backend" {
      assert kv == kv[..i] + ['='] + kv[i + 1..];
      SplitAppend(kv[..i], kv[i + 1..], '=');
      SplitPlain(kv[..i], '=');
      SplitPlain(kv[i + 1..], '=');
      assert Split(kv, '=') == [kv[..i], kv[i + 1..]];
    }
    if Keeps(kv) {
      JoinSplit(kv, '=');
      PartsPlain(kv, '=');
      var parts := Split(kv, '=');
      var i := |parts[0]|;
      TwoParts(parts, kv);
      assert kv[i] == '=' && kv[..i] == parts[0] && kv[i + 1..] == parts[1];
    }
  }

  lemma TwoParts(parts: seq<string>, kv: string)
    requires |parts| == 2 && Join(parts, "=") == kv
    ensures kv == parts[0] + "=" + parts[1]
  {
    assert parts[1..] == [parts[1]];
  }

  /** The user's attributes come in the order of the variables and, in each, of its value. */
  lemma UserAttributesInOrder(env: seq<EnvVar>, e: EnvVar)
    ensures UserAttributes(env + [e])
         == UserAttributes(env) + if e.name == "OTEL_RESOURCE_ATTRIBUTES" then Kept(Split(e.value, ',')) else []
    ensures UserAttributes([]) == []
  {
    hide Kept, Keeps, Split;
    assert (env + [e])[..|env|] == env;
  }

  lemma KeptInOrder(kvs: seq<string>, kv: string)
    ensures Kept(kvs + [kv]) == Kept(kvs) + if IsUserAttribute(kv) then [kv] else []
    ensures Kept([]) == []
  {
    hide Keeps, IsUserAttribute;
    assert (kvs + [kv])[..|kvs|] == kvs;
    KeepsIff(kv);
  }

  lemma FilteredInOrder(env: seq<EnvVar>, e: EnvVar)
    ensures Filtered(env + [e])
         == Filtered(env) + if e.name in {"OTEL_SERVICE_NAME", "OTEL_RESOURCE_ATTRIBUTES", "OTEL_EXPORTER_OTLP_ENDPOINT",
                                          "OTEL_EXPORTER_OTLP_PROTOCOL", "OTEL_EXPORTER_OTLP_INSECURE"} then [] else [e]
    ensures Filtered([]) == []
  {
    hide IsOtel;
    assert (env + [e])[..|env|] == env;
    OtelNames();
  }

  /** Strings are ordered character by character. */
  lemma {:induction false} AtMostIff(s: string, t: string)
    ensures AtMost(s, t) <==> s <= t || exists i :: 0 <= i < |s| && i < |t| && s[..i] == t[..i] && s[i] < t[i]
  {
    if s != "" && t != "" {
      if s[0] == t[0] {
        AtMostIff(s[1..], t[1..]);
        assert s <= t <==> s[1..] <= t[1..];
        if i :| 0 <= i < |s| && i < |t| && s[..i] == t[..i] && s[i] < t[i] {
          assert s[1..][..i - 1] == s[..i][1..] && t[1..][..i - 1] == t[..i][1..];
          assert s[1..][i - 1] < t[1..][i - 1];
        }
        if i :| 0 <= i < |s[1..]| && i < |t[1..]| && s[1..][..i] == t[1..][..i] && s[1..][i] < t[1..][i] {
          assert s[..i + 1] == [s[0]] + s[1..][..i] && t[..i + 1] == [t[0]] + t[1..][..i];
          assert s[i + 1] < t[i + 1];
        }
      } else {
        assert s[..0] == t[..0];
        if i :| 0 <= i < |s| && i < |t| && s[..i] == t[..i] && s[i] < t[i] {
          assert i > 0 ==> s[..i][0] == t[..i][0];
        }
      }
    }
  }

  /** The number that digits stand for. */
  function Numeral(s: string): nat
    requires forall i :: 0 <= i < |s| ==> '0' <= s[i] <= '9'
  {
    if s == "" then 0 else 10 * Numeral(s[..|s| - 1]) + (s[|s| - 1] as int - '0' as int)
  }

  /** A port is written in digits, without a leading zero. */
  lemma {:induction false} DecimalMeans(n: nat)
    ensures var s := Decimal(n);
            && s != "" && (forall i :: 0 <= i < |s| ==> '0' <= s[i] <= '9')
            && Numeral(s) == n && (|s| > 1 ==> s[0] != '0')
  {
    Digit(n % 10);
    if n >= 10 {
      DecimalMeans(n / 10);
      var init, s := Decimal(n / 10), Decimal(n);
      assert s[..|init|] == init;
      if |init| == 1 {
        OneDigit(init);
      }
    }
  }

  lemma OneDigit(s: string)
    requires |s| == 1 && '0' <= s[0] <= '9'
    ensures Numeral(s) == s[0] as int - '0' as int
  {
    assert s[..0] == "";
  }

  lemma Digit(d: nat)
    requires d < 10
    ensures '0' <= "0123456789"[d] <= '9' && "0123456789"[d] as int - '0' as int == d
  {
  }

  /** For names and destinations without commas the value splits into the platform's attributes,
    * each reserved and once, and the user's in their order, none of them reserved; a second
    * treatment changes nothing. */
  lemma AttributesSurvive(name: string, namespace: string, env: seq<EnvVar>, destinations: seq<string>, c: Collector)
    requires CommaFree(name, namespace, destinations)
    ensures Split(Attributes(name, namespace, env, Sorted(destinations)), ',')
         == ["service.name=" + name, "service.namespace=" + namespace]
            + (if destinations == [] then [] else ["nais.backend=" + Join(Sorted(destinations), ";")])
            + UserAttributes(env)
    ensures forall kv :: kv in UserAttributes(env) ==> IsUserAttribute(kv)
    ensures var once := Environment(name, namespace, env, destinations, c);
            Environment(name, namespace, once, Sorted(destinations), c) == once
  {
    var sorted := Sorted(destinations);
    PlatformSplit(name, namespace, destinations);
    PlatformNotKept(name, namespace, sorted);
    AttributesSplit(name, namespace, env, sorted);
    TwiceTheSameIff(name, namespace, env, destinations, c);
    UserAttributesKept(env);
    forall kv | kv in UserAttributes(env) ensures IsUserAttribute(kv) {
      KeepsIff(kv);
    }
    NoneKept(PlatformParts(name, namespace, sorted));
  }

  lemma PlatformSplit(name: string, namespace: string, destinations: seq<string>)
    requires CommaFree(name, namespace, destinations)
    ensures Split(PlatformAttributes(name, namespace, Sorted(destinations)), ',')
         == PlatformParts(name, namespace, Sorted(destinations))
  {
    hide PlatformAttributes, Sorted, Join, Split;
    var sorted := Sorted(destinations);
    SortedMembers(destinations);
    assert forall d :: d in sorted ==> d in multiset(sorted) && d in multiset(destinations);
    JoinPlain(sorted, ";", ',');
    PlatformIsJoin(name, namespace, sorted);
    SplitJoin(PlatformParts(name, namespace, sorted), ',');
  }

  lemma PlatformNotKept(name: string, namespace: string, sorted: seq<string>)
    ensures forall kv :: kv in PlatformParts(name, namespace, sorted) ==> !Keeps(kv)
  {
    hide Keeps, Join;
    NotKept("service.name", name);
    NotKept("service.namespace", namespace);
    NotKept("nais.backend", Join(sorted, ";"));
    assert "service.name=" == "service.name" + "=" && "service.namespace=" == "service.namespace" + "=";
    assert "nais.backend=" == "nais.backend" + "=";
  }

  lemma PlatformIsJoin(name: string, namespace: string, sorted: seq<string>)
    ensures PlatformAttributes(name, namespace, sorted) == Join(PlatformParts(name, namespace, sorted), ",")
  {
    var parts := PlatformParts(name, namespace, sorted);
    JoinAppend(parts[..1], parts[1..2], ",");
    assert parts[..2] == parts[..1] + parts[1..2];
    if sorted != [] {
      JoinAppend(parts[..2], parts[2..], ",");
      assert parts == parts[..2] + parts[2..];
    } else {
      assert parts == parts[..2];
    }
  }

  /** The last value set for a variable is the one a container sees. */
  function LastValue(env: seq<EnvVar>, name: string): Option<string> {
    if env == [] then None
    else if env[|env| - 1].name == name then Some(env[|env| - 1].value)
    else LastValue(env[..|env| - 1], name)
  }

  function Occurrences(env: seq<EnvVar>, name: string): nat {
    if env == [] then 0
    else Occurrences(env[..|env| - 1], name) + if env[|env| - 1].name == name then 1 else 0
  }

  lemma {:induction false} FilteredSays(env: seq<EnvVar>, n: string)
    ensures Occurrences(Filtered(env), n) == if IsOtel(n) then 0 else Occurrences(env, n)
    ensures LastValue(Filtered(env), n) == if IsOtel(n) then None else LastValue(env, n)
  {
    hide IsOtel;
    if env != [] {
      var init, last := env[..|env| - 1], env[|env| - 1];
      FilteredSays(init, n);
      assert IsOtel(last.name) ==> Filtered(env) == Filtered(init);
      assert !IsOtel(last.name) ==> Filtered(env)[..|Filtered(env)| - 1] == Filtered(init);
    }
  }

  lemma {:induction false} JoinSays(a: seq<EnvVar>, b: seq<EnvVar>, n: string)
    ensures Occurrences(a + b, n) == Occurrences(a, n) + Occurrences(b, n)
    ensures LastValue(a + b, n) == if LastValue(b, n).Some? then LastValue(b, n) else LastValue(a, n)
  {
    if b == [] {
      assert a + b == a;
    } else {
      var k := |b| - 1;
      assert (a + b)[..|a| + k] == a + b[..k];
      JoinSays(a, b[..k], n);
    }
  }

  lemma {:induction false} SaysOnce(env: seq<EnvVar>, i: nat, n: string)
    requires forall j, k :: 0 <= j < k < |env| ==> env[j].name != env[k].name
    requires i <= |env| && (i < |env| ==> env[i].name == n) && (i == |env| ==> forall j :: 0 <= j < |env| ==> env[j].name != n)
    ensures Occurrences(env, n) == if i < |env| then 1 else 0
    ensures LastValue(env, n) == if i < |env| then Some(env[i].value) else None
  {
    if env != [] {
      var k := |env| - 1;
      SaysOnce(env[..k], if i >= k then k else i, n);
    }
  }

  lemma DistinctNames()
    ensures forall i, j :: 0 <= i < j < 5 ==> OTEL_NAMES[i] != OTEL_NAMES[j]
  {
    assert SERVICE_NAME[5] == 'S' && RESOURCE_ATTRIBUTES[5] == 'R' && EXPORTER_ENDPOINT[5] == 'E';
    assert EXPORTER_PROTOCOL[5] == 'E' && EXPORTER_INSECURE[5] == 'E';
    assert EXPORTER_ENDPOINT[19] == 'E' && EXPORTER_PROTOCOL[19] == 'P' && EXPORTER_INSECURE[19] == 'I';
  }

  lemma PlatformNamed(name: string, attributes: string, c: Collector)
    ensures var p := PlatformEnv(name, attributes, c);
            && |p| == 5
            && (forall i :: 0 <= i < 5 ==> p[i].name == OTEL_NAMES[i])
            && (forall i, j :: 0 <= i < j < 5 ==> p[i].name != p[j].name)
            && (forall n :: IsOtel(n) <==> exists i :: 0 <= i < 5 && p[i].name == n)
  {
    DistinctNames();
    var p := PlatformEnv(name, attributes, c);
    var names := OTEL_NAMES;
    assert p[0].name == names[0] && p[1].name == names[1] && p[2].name == names[2] && p[3].name == names[3] && p[4].name == names[4];
    forall n ensures IsOtel(n) <==> exists i :: 0 <= i < 5 && p[i].name == n {
      assert IsOtel(n) <==> exists i :: 0 <= i < 5 && names[i] == n;
    }
  }

  ghost predicate SetTo(env: seq<EnvVar>, n: string, value: string) {
    Occurrences(env, n) == 1 && LastValue(env, n) == Some(value)
  }

  /** Each OTEL variable is set once: to the workload's name, to its attributes, and to where and how the
    * collector is reached; all other variables are as they were. */
  lemma PlatformWins(name: string, namespace: string, env: seq<EnvVar>, destinations: seq<string>, c: Collector)
    ensures var r := Environment(name, namespace, env, destinations, c);
            && SetTo(r, "OTEL_SERVICE_NAME", name)
            && SetTo(r, "OTEL_RESOURCE_ATTRIBUTES", Attributes(name, namespace, env, Sorted(destinations)))
            && SetTo(r, "OTEL_EXPORTER_OTLP_ENDPOINT",
                     (if c.tls then "https" else "http") + "://" + c.service + "." + c.namespace + ":" + Decimal(c.port))
            && SetTo(r, "OTEL_EXPORTER_OTLP_PROTOCOL", c.protocol)
            && SetTo(r, "OTEL_EXPORTER_OTLP_INSECURE", if c.tls then "false" else "true")
    ensures var r := Environment(name, namespace, env, destinations, c);
            forall n :: n !in {"OTEL_SERVICE_NAME", "OTEL_RESOURCE_ATTRIBUTES", "OTEL_EXPORTER_OTLP_ENDPOINT",
                               "OTEL_EXPORTER_OTLP_PROTOCOL", "OTEL_EXPORTER_OTLP_INSECURE"} ==>
              LastValue(r, n) == LastValue(env, n) && Occurrences(r, n) == Occurrences(env, n)
  {
    hide *;
    var r := Environment(name, namespace, env, destinations, c);
    OtelNames();
    PlatformValues(name, Attributes(name, namespace, env, Sorted(destinations)), c);
    OneWins(name, namespace, env, destinations, c, 0);
    OneWins(name, namespace, env, destinations, c, 1);
    OneWins(name, namespace, env, destinations, c, 2);
    OneWins(name, namespace, env, destinations, c, 3);
    OneWins(name, namespace, env, destinations, c, 4);
    forall n | !IsOtel(n)
      ensures LastValue(r, n) == LastValue(env, n) && Occurrences(r, n) == Occurrences(env, n)
    {
      OthersKept(name, namespace, env, destinations, c, n);
    }
  }

  lemma OtelNames()
    ensures OTEL_NAMES == ["OTEL_SERVICE_NAME", "OTEL_RESOURCE_ATTRIBUTES", "OTEL_EXPORTER_OTLP_ENDPOINT",
                           "OTEL_EXPORTER_OTLP_PROTOCOL", "OTEL_EXPORTER_OTLP_INSECURE"]
    ensures forall n :: IsOtel(n) <==> n in {"OTEL_SERVICE_NAME", "OTEL_RESOURCE_ATTRIBUTES", "OTEL_EXPORTER_OTLP_ENDPOINT",
                                             "OTEL_EXPORTER_OTLP_PROTOCOL", "OTEL_EXPORTER_OTLP_INSECURE"}
  {
  }

  lemma PlatformValues(name: string, attributes: string, c: Collector)
    ensures var p := PlatformEnv(name, attributes, c);
            && |p| == 5 && p[0].value == name && p[1].value == attributes
            && p[2].value == (if c.tls then "https" else "http") + "://" + c.service + "." + c.namespace + ":" + Decimal(c.port)
            && p[3].value == c.protocol && p[4].value == if c.tls then "false" else "true"
  {
    hide Decimal;
  }

  lemma OneWins(name: string, namespace: string, env: seq<EnvVar>, destinations: seq<string>, c: Collector, i: nat)
    requires i < 5
    ensures var platform := PlatformEnv(name, Attributes(name, namespace, env, Sorted(destinations)), c);
            |platform| == 5 && SetTo(Environment(name, namespace, env, destinations, c), OTEL_NAMES[i], platform[i].value)
  {
    hide *;
    var attributes := Attributes(name, namespace, env, Sorted(destinations));
    var platform := PlatformEnv(name, attributes, c);
    PlatformNamed(name, attributes, c);
    var n := platform[i].name;
    EnvironmentIs(name, namespace, env, destinations, c);
    JoinSays(Filtered(env), platform, n);
    FilteredSays(env, n);
    SaysOnce(platform, i, n);
    Set(Environment(name, namespace, env, destinations, c), n, platform[i].value);
  }

  lemma Set(env: seq<EnvVar>, n: string, value: string)
    requires Occurrences(env, n) == 1 && LastValue(env, n) == Some(value)
    ensures SetTo(env, n, value)
  {
  }

  lemma OthersKept(name: string, namespace: string, env: seq<EnvVar>, destinations: seq<string>, c: Collector, n: string)
    requires !IsOtel(n)
    ensures var r := Environment(name, namespace, env, destinations, c);
            LastValue(r, n) == LastValue(env, n) && Occurrences(r, n) == Occurrences(env, n)
  {
    hide *;
    var attributes := Attributes(name, namespace, env, Sorted(destinations));
    PlatformNamed(name, attributes, c);
    EnvironmentIs(name, namespace, env, destinations, c);
    JoinSays(Filtered(env), PlatformEnv(name, attributes, c), n);
    FilteredSays(env, n);
    SaysOnce(PlatformEnv(name, attributes, c), 5, n);
  }

  lemma EnvironmentIs(name: string, namespace: string, env: seq<EnvVar>, destinations: seq<string>, c: Collector)
    ensures Environment(name, namespace, env, destinations, c)
         == Filtered(env) + PlatformEnv(name, Attributes(name, namespace, env, Sorted(destinations)), c)
  {
  }
}
