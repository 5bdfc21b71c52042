/** Ingresses: one for each class that the hosts of the URLs select, with the rules of those URLs. */
module Ingress {
  import opened Annotations
  import opened IngressClasses
  import opened IngressPath
  import opened IngressPathLaws
  import opened Strings
  import opened Wrappers

  /** `base` holds the annotations every generated object has. */
  datatype Source = Source(name: string, base: Map, annotations: Map, protocol: string, urls: seq<string>)

  /** `parse` reads a URL, `validHost` checks a host name, and `shortName` fits a name into a label. */
  datatype Config = Config(
    entries: seq<Mapping>,
    haproxyEnabled: bool,
    naisNamespace: string,
    parse: string -> Option<Url>,
    validHost: string -> bool,
    shortName: string -> Option<string>)

  datatype Rule = Rule(host: string, paths: seq<HttpPath>)

  datatype IngressObject = IngressObject(name: string, class_: string, annotations: Map, rules: seq<Rule>)

  predicate IsHAProxy(class_: string) {
    HasSuffix(class_, "haproxy")
  }

  function TrimmedPath(path: string): string {
    if |path| > 1 then TrimRight(path, '/') else "/"
  }

  function ParseIngress(cfg: Config, url: string): Option<Url> {
    match cfg.parse(url)
    case None => None
    case Some(u) =>
      if u.host != "" && u.scheme == "https" && cfg.validHost(u.host) then Some(u.(path := TrimmedPath(u.path))) else None
  }

  function CreateIngressRule(source: Source, u: Url, class_: string): Rule {
    Rule(u.host,
         if IsHAProxy(class_) then HaproxyPaths(u.path, Lookup(source.annotations, NGINX + "rewrite-target"))
         else [HttpPath(NginxPath(u.path), ImplementationSpecific)])
  }

  /** Only when HAProxy is enabled are there ingresses for its classes. */
  predicate Wanted(cfg: Config, class_: string) {
    IsHAProxy(class_) ==> cfg.haproxyEnabled
  }

  function AnnotationsFor(cfg: Config, source: Source, class_: string): Map {
    if IsHAProxy(class_) then HaproxyAnnotations(source.base, source.annotations, cfg.parse)
    else NginxAnnotations(source.base, source.annotations, source.protocol)
  }

  // ---------------------------------------------------------------------------------------------
  // Which rules go to which class
  // ---------------------------------------------------------------------------------------------

  /** A rule and the class whose ingress it is for. */
  datatype Assignment = Assignment(class_: string, rule: Rule)

  function AssignedTo(cfg: Config, source: Source, u: Url, classes: seq<string>): seq<Assignment> {
    if classes == [] then []
    else
      var last := classes[|classes| - 1];
      AssignedTo(cfg, source, u, classes[..|classes| - 1])
      + if Wanted(cfg, last) then [Assignment(last, CreateIngressRule(source, u, last))] else []
  }

  /** The URL cannot be read, its host selects no class, or one of the ingresses cannot be named. */
  predicate Fails(cfg: Config, source: Source, url: string) {
    var u := ParseIngress(cfg, url);
    u.None? || Classes(cfg.entries, u.value.host).None? || !Nameable(cfg, source, Classes(cfg.entries, u.value.host).value)
  }

  predicate Nameable(cfg: Config, source: Source, classes: seq<string>) {
    forall i :: 0 <= i < |classes| && Wanted(cfg, classes[i]) ==> cfg.shortName(source.name + "-" + classes[i]).Some?
  }

  function OfUrl(cfg: Config, source: Source, url: string): seq<Assignment>
    requires !Fails(cfg, source, url)
  {
    var u := ParseIngress(cfg, url).value;
    AssignedTo(cfg, source, u, Classes(cfg.entries, u.host).value)
  }

  /** Every URL with every class its host selects, in the order of the spec and the configuration. */
  function Assignments(cfg: Config, source: Source, urls: seq<string>): seq<Assignment>
    requires forall i :: 0 <= i < |urls| ==> !Fails(cfg, source, urls[i])
  {
    if urls == [] then []
    else Assignments(cfg, source, urls[..|urls| - 1]) + OfUrl(cfg, source, urls[|urls| - 1])
  }

  function RulesIn(assignments: seq<Assignment>, class_: string): seq<Rule> {
    if assignments == [] then []
    else
      var last := assignments[|assignments| - 1];
      RulesIn(assignments[..|assignments| - 1], class_) + if last.class_ == class_ then [last.rule] else []
  }

  /** One ingress for each class with a rule, holding that class's rules in order. */
  ghost predicate Distributes(m: map<string, IngressObject>, cfg: Config, source: Source, assignments: seq<Assignment>) {
    forall c :: IsIngressFor(m, cfg, source, c, RulesIn(assignments, c))
  }

  ghost predicate IsIngressFor(m: map<string, IngressObject>, cfg: Config, source: Source, c: string, rules: seq<Rule>) {
    && (c in m <==> rules != [])
    && (c in m ==>
          && cfg.shortName(source.name + "-" + c).Some?
          && m[c] == IngressObject(cfg.shortName(source.name + "-" + c).value, c, AnnotationsFor(cfg, source, c), rules))
  }

  method CreateIngress(cfg: Config, source: Source, class_: string) returns (r: Option<IngressObject>)
    ensures r.None? <==> cfg.shortName(source.name + "-" + class_).None?
    ensures r.Some? ==> r.value == IngressObject(cfg.shortName(source.name + "-" + class_).value, class_,
                                                 AnnotationsFor(cfg, source, class_), [])
  {
    hide HaproxyAnnotations, NginxAnnotations, IsHAProxy;
    var name := cfg.shortName(source.name + "-" + class_);
    if name.None? {
      return None;
    }
    var annotations;
    if IsHAProxy(class_) {
      annotations := CreateHaproxyAnnotations(source.base, source.annotations, cfg.parse);
    } else {
      annotations := CreateNginxAnnotations(source.base, source.annotations, source.protocol);
    }
    r := Some(IngressObject(name.value, class_, annotations, []));
  }

  /** The part of the loop for one URL; None is an error. */
  method AddRules(cfg: Config, source: Source, url: string, given: map<string, IngressObject>, ghost before: seq<Assignment>)
    returns (r: Option<map<string, IngressObject>>)
    requires Distributes(given, cfg, source, before)
    ensures r.None? <==> Fails(cfg, source, url)
    ensures r.Some? ==> Distributes(r.value, cfg, source, before + OfUrl(cfg, source, url))
  {
    hide AnnotationsFor, CreateIngressRule, Classes, ParseIngress, Wanted, Distributes, RulesIn;
    var parsed := ParseIngress(cfg, url);
    if parsed.None? {
      return None;
    }
    var u := parsed.value;
    var found := GetIngressClasses(cfg.entries, u.host);
    if found.None? {
      return None;
    }
    var classes := found.value;
    var ingresses := given;
    assert before + [] == before;
    for j := 0 to |classes|
      invariant Nameable(cfg, source, classes[..j])
      invariant Distributes(ingresses, cfg, source, before + AssignedTo(cfg, source, u, classes[..j]))
    {
      var class_ := classes[j];
      ghost var sofar := before + AssignedTo(cfg, source, u, classes[..j]);
      assert classes[..j + 1][..j] == classes[..j];
      if !Wanted(cfg, class_) {
        assert before + AssignedTo(cfg, source, u, classes[..j + 1]) == sofar;
        continue;
      }
      var ingress;
      Found(ingresses, cfg, source, sofar, class_);
      if class_ in ingresses {
        ingress := ingresses[class_];
      } else {
        var created := CreateIngress(cfg, source, class_);
        if created.None? {
          return None;
        }
        ingress := created.value;
      }
      var rule := CreateIngressRule(source, u, class_);
      AddOne(ingresses, cfg, source, sofar, class_, rule, ingress);
      ingresses := ingresses[class_ := ingress.(rules := ingress.rules + [rule])];
      assert before + AssignedTo(cfg, source, u, classes[..j + 1]) == sofar + [Assignment(class_, rule)];
    }
    assert classes[..|classes|] == classes;
    r := Some(ingresses);
  }

  lemma Found(m: map<string, IngressObject>, cfg: Config, source: Source, assignments: seq<Assignment>, c: string)
    requires Distributes(m, cfg, source, assignments)
    ensures IsIngressFor(m, cfg, source, c, RulesIn(assignments, c))
  {
  }

  lemma AddOne(m: map<string, IngressObject>, cfg: Config, source: Source, before: seq<Assignment>, class_: string,
               rule: Rule, ingress: IngressObject)
    requires Distributes(m, cfg, source, before)
    requires cfg.shortName(source.name + "-" + class_).Some?
    requires ingress == IngressObject(cfg.shortName(source.name + "-" + class_).value, class_,
                                      AnnotationsFor(cfg, source, class_), RulesIn(before, class_))
    ensures Distributes(m[class_ := ingress.(rules := ingress.rules + [rule])], cfg, source, before + [Assignment(class_, rule)])
  {
    hide AnnotationsFor;
    var next := m[class_ := ingress.(rules := ingress.rules + [rule])];
    var after := before + [Assignment(class_, rule)];
    forall c ensures IsIngressFor(next, cfg, source, c, RulesIn(after, c)) {
      Found(m, cfg, source, before, c);
      assert after[..|before|] == before;
      assert RulesIn(after, c) == RulesIn(before, c) + if c == class_ then [rule] else [];
    }
  }

  // ---------------------------------------------------------------------------------------------
  // What all this means
  // ---------------------------------------------------------------------------------------------

  ghost predicate EndsInHAProxy(class_: string) {
    |class_| >= 7 && class_[|class_| - 7..] == "haproxy"
  }

  /** A class the operator creates ingresses for. */
  ghost predicate Serves(cfg: Config, class_: string) {
    EndsInHAProxy(class_) ==> cfg.haproxyEnabled
  }

  /** A URL that can be served: secure, with a proper host for which a suffix is configured. */
  ghost predicate Usable(cfg: Config, url: string) {
    cfg.parse(url).Some? &&
    var u := cfg.parse(url).value;
    && u.scheme == "https" && u.host != "" && cfg.validHost(u.host)
    && exists s :: Matching(cfg.entries, u.host, s)
  }

  ghost predicate UrlSelects(cfg: Config, url: string, class_: string) {
    cfg.parse(url).Some? && HostSelects(cfg.entries, cfg.parse(url).value.host, class_)
  }

  /** A readable URL keeps all but the slashes at the end of its path; only the root has one. */
  lemma ParseMeans(cfg: Config, url: string)
    ensures ParseIngress(cfg, url).Some? <==>
              cfg.parse(url).Some? &&
              var u := cfg.parse(url).value; u.scheme == "https" && u.host != "" && cfg.validHost(u.host)
    ensures ParseIngress(cfg, url).Some? ==>
              var u, given := ParseIngress(cfg, url).value, cfg.parse(url).value;
              && u == given.(path := u.path)
              && (if |given.path| <= 1 then u.path == "/"
                  else u.path <= given.path
                       && (u.path != "" ==> u.path[|u.path| - 1] != '/')
                       && forall k :: |u.path| <= k < |given.path| ==> given.path[k] == '/')
  {
  }

  /** The rule of a class for a URL: the paths HAProxy can match, or the one regular expression of
    * nginx, which lets through what is below the path as well. */
  lemma RuleMeans(source: Source, u: Url, class_: string)
    ensures var rule, key := CreateIngressRule(source, u, class_), "nginx.ingress.kubernetes.io/rewrite-target";
            && rule.host == u.host
            && rule.paths == if EndsInHAProxy(class_) then
                               HaproxyPaths(u.path, if key in source.annotations then source.annotations[key] else "")
                             else [HttpPath(if |u.path| > 1 then u.path + "(/.*)?" else u.path, ImplementationSpecific)]
  {
    hide HaproxyPaths;
    assert NGINX + "rewrite-target" == "nginx.ingress.kubernetes.io/rewrite-target";
  }

  lemma FailsIff(cfg: Config, source: Source, url: string)
    ensures Fails(cfg, source, url) <==>
              || !Usable(cfg, url)
              || exists c :: UrlSelects(cfg, url, c) && Serves(cfg, c) && cfg.shortName(source.name + "-" + c).None?
  {
    hide Classes, Matching, HostSelects;
    ParseMeans(cfg, url);
    if ParseIngress(cfg, url).Some? {
      var host := ParseIngress(cfg, url).value.host;
      UnusableIff(cfg.entries, host);
      forall c ensures HostSelects(cfg.entries, host, c) <==> Classes(cfg.entries, host).Some? && c in Classes(cfg.entries, host).value {
        SelectedIff(cfg.entries, host, c);
      }
    }
  }

  lemma SelectionsMean(cfg: Config, source: Source, url: string, c: string)
    requires !Fails(cfg, source, url)
    ensures Selections(cfg, source, url, c) > 0 <==> Serves(cfg, c) && UrlSelects(cfg, url, c)
  {
    hide Classes, HostSelects;
    ParseMeans(cfg, url);
    var host := ParseIngress(cfg, url).value.host;
    SelectedIff(cfg.entries, host, c);
    assert c in Classes(cfg.entries, host).value <==> c in multiset(Classes(cfg.entries, host).value);
  }

  /** There is an ingress for a class exactly when some URL's host selects it and the operator serves it;
    * it is named after workload and class, and annotated in the manner of the class. */
  ghost predicate OneForEachClass(m: map<string, IngressObject>, cfg: Config, source: Source) {
    forall c ::
      && (c in m <==> Serves(cfg, c) && exists i :: 0 <= i < |source.urls| && UrlSelects(cfg, source.urls[i], c))
      && (c in m ==>
            && m[c].class_ == c && Some(m[c].name) == cfg.shortName(source.name + "-" + c)
            && m[c].annotations == if EndsInHAProxy(c) then HaproxyAnnotations(source.base, source.annotations, cfg.parse)
                                   else NginxAnnotations(source.base, source.annotations, source.protocol))
  }

  lemma Explained(m: map<string, IngressObject>, cfg: Config, source: Source)
    requires forall i :: 0 <= i < |source.urls| ==> !Fails(cfg, source, source.urls[i])
    requires Distributes(m, cfg, source, Assignments(cfg, source, source.urls))
    ensures OneForEachClass(m, cfg, source)
  {
    hide Fails, UrlSelects, Selections, HaproxyAnnotations, NginxAnnotations, Assignments, RulesIn, RulesOf;
    forall c
      ensures c in m <==> Serves(cfg, c) && exists i :: 0 <= i < |source.urls| && UrlSelects(cfg, source.urls[i], c)
      ensures IsIngressFor(m, cfg, source, c, RulesIn(Assignments(cfg, source, source.urls), c))
    {
      Found(m, cfg, source, Assignments(cfg, source, source.urls), c);
      DistributionIsExact(cfg, source, source.urls, c);
      SelectedIffRules(cfg, source, source.urls, c);
      forall i | 0 <= i < |source.urls|
        ensures Selections(cfg, source, source.urls[i], c) > 0 <==> Serves(cfg, c) && UrlSelects(cfg, source.urls[i], c)
      {
        SelectionsMean(cfg, source, source.urls[i], c);
      }
    }
  }

  /** None is an error, and then nothing is created. */
  method CreateIngresses(cfg: Config, source: Source) returns (r: Option<map<string, IngressObject>>)
    ensures r.None? <==>
              exists i :: 0 <= i < |source.urls| &&
                (|| !Usable(cfg, source.urls[i])
                 || exists c :: UrlSelects(cfg, source.urls[i], c) && Serves(cfg, c) && cfg.shortName(source.name + "-" + c).None?)
    ensures r.None? <==> exists i :: 0 <= i < |source.urls| && Fails(cfg, source, source.urls[i])
    ensures r.Some? ==> Distributes(r.value, cfg, source, Assignments(cfg, source, source.urls))
    ensures r.Some? ==> OneForEachClass(r.value, cfg, source)
  {
    hide Fails, OfUrl, Distributes, OneForEachClass, Usable, UrlSelects;
    forall i | 0 <= i < |source.urls| {
      FailsIff(cfg, source, source.urls[i]);
    }
    var urls := source.urls;
    var ingresses: map<string, IngressObject> := map[];
    assert Distributes(ingresses, cfg, source, []) by {
      Nothing(cfg, source);
    }
    for i := 0 to |urls|
      invariant forall j :: 0 <= j < i ==> !Fails(cfg, source, urls[j])
      invariant Distributes(ingresses, cfg, source, Assignments(cfg, source, urls[..i]))
    {
      var next := AddRules(cfg, source, urls[i], ingresses, Assignments(cfg, source, urls[..i]));
      if next.None? {
        return None;
      }
      ingresses := next.value;
      assert urls[..i + 1][..i] == urls[..i];
    }
    assert urls[..|urls|] == urls;
    Explained(ingresses, cfg, source);
    r := Some(ingresses);
  }

  lemma Nothing(cfg: Config, source: Source)
    ensures Distributes(map[], cfg, source, [])
  {
  }

  // ---------------------------------------------------------------------------------------------
  // The distribution, class by class
  // ---------------------------------------------------------------------------------------------

  function Repeat(rule: Rule, n: nat): seq<Rule> {
    if n == 0 then [] else Repeat(rule, n - 1) + [rule]
  }

  /** How often a class is configured for the suffix that the host selects. */
  function Selections(cfg: Config, source: Source, url: string, c: string): nat
    requires !Fails(cfg, source, url)
  {
    if Wanted(cfg, c) then multiset(Classes(cfg.entries, ParseIngress(cfg, url).value.host).value)[c] else 0
  }

  /** Url by URL, the rule for this class as often as the host selects it. */
  function RulesOf(cfg: Config, source: Source, urls: seq<string>, c: string): seq<Rule>
    requires forall i :: 0 <= i < |urls| ==> !Fails(cfg, source, urls[i])
  {
    if urls == [] then []
    else
      var last := urls[|urls| - 1];
      assert !Fails(cfg, source, last);
      RulesOf(cfg, source, urls[..|urls| - 1], c)
      + Repeat(CreateIngressRule(source, ParseIngress(cfg, last).value, c), Selections(cfg, source, last, c))
  }

  lemma {:induction false} RulesInJoin(a: seq<Assignment>, b: seq<Assignment>, c: string)
    ensures RulesIn(a + b, c) == RulesIn(a, c) + RulesIn(b, c)
  {
    if b == [] {
      assert a + b == a;
    } else {
      var n := |b| - 1;
      assert (a + b)[..|a| + n] == a + b[..n];
      RulesInJoin(a, b[..n], c);
    }
  }

  lemma {:induction false} RulesAmong(cfg: Config, source: Source, u: Url, classes: seq<string>, c: string)
    ensures RulesIn(AssignedTo(cfg, source, u, classes), c)
         == Repeat(CreateIngressRule(source, u, c), if Wanted(cfg, c) then multiset(classes)[c] else 0)
  {
    hide CreateIngressRule, Wanted, RulesIn;
    if classes == [] {
      NoRules(c);
    } else {
      var n := |classes| - 1;
      var last := classes[n];
      RulesAmong(cfg, source, u, classes[..n], c);
      AssignedLast(cfg, source, u, classes);
      SelectionsLast(classes, c);
      RulesInSnoc(AssignedTo(cfg, source, u, classes[..n]), Assignment(last, CreateIngressRule(source, u, last)), c);
      hide AssignedTo;
    }
  }

  lemma AssignedLast(cfg: Config, source: Source, u: Url, classes: seq<string>)
    requires classes != []
    ensures var last := classes[|classes| - 1];
            var init := AssignedTo(cfg, source, u, classes[..|classes| - 1]);
            AssignedTo(cfg, source, u, classes)
            == if Wanted(cfg, last) then init + [Assignment(last, CreateIngressRule(source, u, last))] else init
  {
    hide CreateIngressRule, Wanted;
  }

  lemma SelectionsLast(classes: seq<string>, c: string)
    requires classes != []
    ensures var last := classes[|classes| - 1];
            multiset(classes)[c] == multiset(classes[..|classes| - 1])[c] + if last == c then 1 else 0
  {
    assert classes == classes[..|classes| - 1] + [classes[|classes| - 1]];
  }

  lemma NoRules(c: string)
    ensures RulesIn([], c) == []
  {
  }

  lemma RulesInSnoc(assignments: seq<Assignment>, last: Assignment, c: string)
    ensures RulesIn(assignments + [last], c) == RulesIn(assignments, c) + if last.class_ == c then [last.rule] else []
  {
    assert (assignments + [last])[..|assignments|] == assignments;
  }

  /** The rules of a class are, URL by URL in the order of the spec, those of the URLs whose host
    * selects it, as often as it does; for HAProxy classes only when HAProxy is enabled. */
  lemma {:induction false} DistributionIsExact(cfg: Config, source: Source, urls: seq<string>, c: string)
    requires forall i :: 0 <= i < |urls| ==> !Fails(cfg, source, urls[i])
    ensures RulesIn(Assignments(cfg, source, urls), c) == RulesOf(cfg, source, urls, c)
  {
    hide CreateIngressRule, Fails, ParseIngress, Selections, Repeat, OfUrl, RulesIn;
    if urls == [] {
      NoRules(c);
    } else {
      var init, last := urls[..|urls| - 1], urls[|urls| - 1];
      assert forall i :: 0 <= i < |init| ==> init[i] == urls[i];
      DistributionIsExact(cfg, source, init, c);
      RulesInJoin(Assignments(cfg, source, init), OfUrl(cfg, source, last), c);
      RulesOfLast(cfg, source, last, c);
    }
  }

  lemma {:induction false} RepeatLength(rule: Rule, n: nat)
    ensures |Repeat(rule, n)| == n
  {
    if n > 0 {
      RepeatLength(rule, n - 1);
    }
  }

  lemma {:induction false} SelectedIffRules(cfg: Config, source: Source, urls: seq<string>, c: string)
    requires forall i :: 0 <= i < |urls| ==> !Fails(cfg, source, urls[i])
    ensures RulesOf(cfg, source, urls, c) != [] <==> exists i :: 0 <= i < |urls| && Selections(cfg, source, urls[i], c) > 0
  {
    hide CreateIngressRule, ParseIngress, Selections, Repeat;
    if urls != [] {
      var n := |urls| - 1;
      var init, last := urls[..n], urls[n];
      assert forall i :: 0 <= i < n ==> init[i] == urls[i];
      SelectedIffRules(cfg, source, init, c);
      assert !Fails(cfg, source, last);
      RepeatLength(CreateIngressRule(source, ParseIngress(cfg, last).value, c), Selections(cfg, source, last, c));
    }
  }

  lemma RulesOfLast(cfg: Config, source: Source, url: string, c: string)
    requires !Fails(cfg, source, url)
    ensures RulesIn(OfUrl(cfg, source, url), c)
         == Repeat(CreateIngressRule(source, ParseIngress(cfg, url).value, c), Selections(cfg, source, url, c))
  {
    hide CreateIngressRule, Wanted;
    var u := ParseIngress(cfg, url).value;
    RulesAmong(cfg, source, u, Classes(cfg.entries, u.host).value, c);
  }

  /** The nginx and the HAProxy rule of one URL are for its host, and for a literal path they admit
    * the same requests exactly when the path has no dot. */
  lemma RulesAgreeIff(source: Source, u: Url, nginx: string, haproxy: string)
    requires !IsHAProxy(nginx) && IsHAProxy(haproxy) && IsLiteralPath(u.path)
    ensures var a, b := CreateIngressRule(source, u, nginx), CreateIngressRule(source, u, haproxy);
            var r := Cat(Plain(u.path), OptionalRest());
            && a.host == b.host == u.host
            && a.paths == [HttpPath(Show(r), ImplementationSpecific)]
            && (SameRequests(b.paths, r) <==> '.' !in u.path)
  {
    hide HaproxyPaths, SameRequests, Plain, OptionalRest, Show, IsHAProxy;
    LiteralPathAgreesIff(u.path, Lookup(source.annotations, NGINX + "rewrite-target"));
  }
}
