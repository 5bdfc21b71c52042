/** Network policies: the pods that a generated policy lets talk to a workload, and be talked to. */
module NetworkPolicy {
  import Ingress
  import opened IngressClasses
  import opened Wrappers

  type Labels = map<string, string>

  // ---------------------------------------------------------------------------------------------
  // What Kubernetes makes of a network policy
  // ---------------------------------------------------------------------------------------------

  /** Selectors of a peer; a missing namespace selector stands for the policy's own namespace. */
  datatype Peer = Pods(namespaces: Option<Labels>, pods: Labels) | IpBlock(cidr: string)

  /** Without peers a rule lets everyone through; without ports, every port. */
  datatype Rule = Rule(peers: seq<Peer>, ports: seq<int>)

  datatype Pod = Pod(namespace: string, namespaceLabels: Labels, labels: Labels)

  predicate Selects(selector: Labels, labels: Labels) {
    forall k :: k in selector ==> k in labels && labels[k] == selector[k]
  }

  /** The name of a namespace is one of its labels. */
  const NAME_LABEL := "kubernetes.io/metadata.name"

  predicate IsPod(p: Pod) {
    NAME_LABEL in p.namespaceLabels && p.namespaceLabels[NAME_LABEL] == p.namespace
  }

  /** Address blocks are for the world outside the cluster's pod network. */
  predicate PeerAdmits(peer: Peer, own: string, p: Pod) {
    match peer
    case IpBlock(_) => false
    case Pods(namespaces, pods) =>
      && (if namespaces.None? then p.namespace == own else Selects(namespaces.value, p.namespaceLabels))
      && Selects(pods, p.labels)
  }

  predicate AnyPeerAdmits(peers: seq<Peer>, own: string, p: Pod) {
    exists i :: 0 <= i < |peers| && PeerAdmits(peers[i], own, p)
  }

  predicate Admits(rule: Rule, own: string, p: Pod) {
    rule.peers == [] || AnyPeerAdmits(rule.peers, own, p)
  }

  predicate AnyAdmits(rules: seq<Rule>, own: string, p: Pod) {
    exists i :: 0 <= i < |rules| && Admits(rules[i], own, p)
  }

  /** Some rule lets traffic through to an address block, on exactly these ports. */
  predicate Reaches(rules: seq<Rule>, cidr: string, ports: seq<int>) {
    exists i :: 0 <= i < |rules| && IpBlock(cidr) in rules[i].peers && rules[i].ports == ports
  }

  /** Every rule names one peer at least, and no rule for pods is confined to some ports. */
  ghost predicate WellFormed(rules: seq<Rule>) {
    forall i :: 0 <= i < |rules| ==>
      rules[i].peers != [] && ((exists j :: 0 <= j < |rules[i].peers| && rules[i].peers[j].Pods?) ==> rules[i].ports == [])
  }

  lemma ReachesJoin(a: seq<Rule>, b: seq<Rule>, cidr: string, ports: seq<int>)
    ensures Reaches(a + b, cidr, ports) <==> Reaches(a, cidr, ports) || Reaches(b, cidr, ports)
  {
    assert forall i :: 0 <= i < |a| ==> (a + b)[i] == a[i];
    assert forall i :: 0 <= i < |b| ==> (a + b)[|a| + i] == b[i];
    assert forall i :: |a| <= i < |a + b| ==> (a + b)[i] == b[i - |a|];
  }

  lemma ReachesOne(peer: Peer, given: seq<int>, cidr: string, ports: seq<int>)
    ensures Reaches([Rule([peer], given)], cidr, ports) <==> peer == IpBlock(cidr) && given == ports
    ensures !Reaches([], cidr, ports)
  {
    assert [Rule([peer], given)][0] == Rule([peer], given);
    assert [peer][0] == peer;
  }

  /** Rules for pods reach no address. */
  ghost predicate PodsOnly(rules: seq<Rule>) {
    forall i, j :: 0 <= i < |rules| && 0 <= j < |rules[i].peers| ==> rules[i].peers[j].Pods?
  }

  lemma PodsReachNothing(rules: seq<Rule>, cidr: string, ports: seq<int>)
    requires PodsOnly(rules)
    ensures !Reaches(rules, cidr, ports)
  {
  }

  // ---------------------------------------------------------------------------------------------
  // Access policies
  // ---------------------------------------------------------------------------------------------

  datatype PolicyRule = PolicyRule(application: string, namespace: string, cluster: string)

  datatype External = External(host: string, ipv4: string, ports: seq<int>)

  datatype Outbound = Outbound(rules: seq<PolicyRule>, external: seq<External>)

  /** `matchesCluster` says whether a rule is about this cluster. */
  datatype Config = Config(
    ingress: Ingress.Config,
    matchesCluster: PolicyRule -> bool,
    aivenRange: string,
    apiServer: string)

  predicate LabelIs(p: Pod, key: string, value: string) {
    key in p.labels && p.labels[key] == value
  }

  /** The rule names this pod as one that may call: "*" is any application or namespace, no namespace
    * is the workload's own. */
  predicate NamesCaller(rule: PolicyRule, own: string, p: Pod) {
    && (rule.application == "*" || LabelIs(p, "app", rule.application))
    && (rule.namespace == "*" || p.namespace == if rule.namespace == "" then own else rule.namespace)
  }

  /** The rule names this pod as one that may be called. Wildcards are not understood here: rules for
    * application "*" or without one are ignored, and a namespace "*" is the name of none. */
  predicate NamesCallee(rule: PolicyRule, own: string, p: Pod) {
    && rule.application != "" && rule.application != "*"
    && LabelIs(p, "app", rule.application)
    && p.namespace == if rule.namespace == "" then own else rule.namespace
  }

  function InboundPeer(rule: PolicyRule): Peer {
    Pods(if rule.namespace == "*" then Some(map[])
         else if rule.namespace != "" then Some(map[NAME_LABEL := rule.namespace])
         else None,
         if rule.application == "*" then map[] else map["app" := rule.application])
  }

  function OutboundPeer(rule: PolicyRule): Peer {
    Pods(if rule.namespace != "" then Some(map[NAME_LABEL := rule.namespace]) else None, map["app" := rule.application])
  }

  function ExternalRules(external: seq<External>): seq<Rule> {
    if external == [] then []
    else
      var last := external[|external| - 1];
      ExternalRules(external[..|external| - 1])
      + if last.ipv4 != "" && last.host == "" then [Rule([IpBlock(last.ipv4 + "/32")], last.ports)] else []
  }

  /** No inbound policy at all is a policy without rules. */
  method IngressRulesFromAccessPolicy(cfg: Config, inbound: Option<seq<PolicyRule>>) returns (rules: seq<Rule>)
    ensures WellFormed(rules) && PodsOnly(rules)
    ensures forall own, p :: IsPod(p) ==>
              (AnyAdmits(rules, own, p) <==>
               inbound.Some? && exists i :: 0 <= i < |inbound.value|
                                            && cfg.matchesCluster(inbound.value[i]) && NamesCaller(inbound.value[i], own, p))
  {
    if inbound.None? || |inbound.value| == 0 {
      return [];
    }
    var named := inbound.value;
    var peers: seq<Peer> := [];
    for i := 0 to |named|
      invariant forall j :: 0 <= j < |peers| ==> peers[j].Pods?
      invariant forall own, p :: IsPod(p) ==>
                  (AnyPeerAdmits(peers, own, p)
                   <==> exists j :: 0 <= j < i && cfg.matchesCluster(named[j]) && NamesCaller(named[j], own, p))
    {
      if !cfg.matchesCluster(named[i]) {
        continue;
      }
      var peer := InboundPeer(named[i]);
      forall own, p | IsPod(p)
        ensures AnyPeerAdmits(peers + [peer], own, p) <==> AnyPeerAdmits(peers, own, p) || NamesCaller(named[i], own, p)
      {
        InboundMeans(named[i], own, p);
        OnePeerMore(peers, peer, own, p);
      }
      peers := peers + [peer];
    }
    rules := if |peers| == 0 then [] else [Rule(peers, [])];
    forall own, p ensures AnyAdmits(rules, own, p) <==> AnyPeerAdmits(peers, own, p) {
      assert rules != [] ==> rules[0] == Rule(peers, []);
    }
  }

  lemma InboundMeans(rule: PolicyRule, own: string, p: Pod)
    requires IsPod(p)
    ensures PeerAdmits(InboundPeer(rule), own, p) <==> NamesCaller(rule, own, p)
  {
  }

  lemma OnePeerMore(peers: seq<Peer>, peer: Peer, own: string, p: Pod)
    ensures AnyPeerAdmits(peers + [peer], own, p) <==> AnyPeerAdmits(peers, own, p) || PeerAdmits(peer, own, p)
  {
    hide PeerAdmits;
    var more := peers + [peer];
    assert forall j :: 0 <= j < |peers| ==> more[j] == peers[j];
    assert more[|peers|] == peer;
  }

  lemma OutboundMeans(rule: PolicyRule, own: string, p: Pod)
    requires IsPod(p) && rule.application != "" && rule.application != "*"
    ensures PeerAdmits(OutboundPeer(rule), own, p) <==> NamesCallee(rule, own, p)
  {
  }

  /** The rules for pods come first, then one for each external address. */
  method EgressRulesFromAccessPolicy(cfg: Config, outbound: Option<Outbound>) returns (rules: seq<Rule>, ghost pods: nat)
    ensures pods <= |rules| && rules[pods..] == if outbound.None? then [] else ExternalRules(outbound.value.external)
    ensures WellFormed(rules)
    ensures forall cidr, ports ::
              Reaches(rules, cidr, ports) <==>
              outbound.Some? && exists i :: 0 <= i < |outbound.value.external|
                                            && outbound.value.external[i].ipv4 != "" && outbound.value.external[i].host == ""
                                            && cidr == outbound.value.external[i].ipv4 + "/32" && ports == outbound.value.external[i].ports
    ensures forall own, p :: IsPod(p) ==>
              (AnyAdmits(rules, own, p) <==>
               outbound.Some? && exists i :: 0 <= i < |outbound.value.rules|
                                             && cfg.matchesCluster(outbound.value.rules[i])
                                             && NamesCallee(outbound.value.rules[i], own, p))
  {
    pods := 0;
    if outbound.None? || (|outbound.value.rules| == 0 && |outbound.value.external| == 0) {
      return [], 0;
    }
    var named := outbound.value.rules;
    rules := [];
    for i := 0 to |named|
      invariant WellFormed(rules) && PodsOnly(rules)
      invariant forall own, p :: IsPod(p) ==>
                  (AnyAdmits(rules, own, p)
                   <==> exists j :: 0 <= j < i && cfg.matchesCluster(named[j]) && NamesCallee(named[j], own, p))
    {
      if named[i].application == "" || named[i].application == "*" || !cfg.matchesCluster(named[i]) {
        continue;
      }
      var rule := Rule([OutboundPeer(named[i])], []);
      forall own, p | IsPod(p)
        ensures AnyAdmits(rules + [rule], own, p) <==> AnyAdmits(rules, own, p) || NamesCallee(named[i], own, p)
      {
        OutboundMeans(named[i], own, p);
        OnePeer(OutboundPeer(named[i]), [], own, p);
        OneRuleMore(rules, rule, own, p);
      }
      hide AnyAdmits, NamesCallee;
      rules := rules + [rule];
    }
    pods := |rules|;
    var external := outbound.value.external;
    ghost var inside := rules;
    for i := 0 to |external|
      invariant rules == inside + ExternalRules(external[..i])
      invariant WellFormed(rules)
      invariant forall own, p :: AnyAdmits(rules, own, p) <==> AnyAdmits(inside, own, p)
    {
      assert external[..i + 1][..i] == external[..i];
      if external[i].ipv4 != "" && external[i].host == "" {
        var block := IpBlock(external[i].ipv4 + "/32");
        forall own, p
          ensures AnyAdmits(rules + [Rule([block], external[i].ports)], own, p) <==> AnyAdmits(rules, own, p)
        {
          OnePeer(block, external[i].ports, own, p);
          OneRuleMore(rules, Rule([block], external[i].ports), own, p);
        }
        rules := rules + [Rule([block], external[i].ports)];
      }
    }
    assert external[..|external|] == external;
    forall cidr, ports
      ensures Reaches(rules, cidr, ports)
              <==> exists i :: 0 <= i < |external| && external[i].ipv4 != "" && external[i].host == ""
                               && cidr == external[i].ipv4 + "/32" && ports == external[i].ports
    {
      PodsReachNothing(inside, cidr, ports);
      ReachesJoin(inside, ExternalRules(external), cidr, ports);
      ExternalMeans(external, cidr, ports);
    }
  }

  lemma {:induction false} ExternalMeans(external: seq<External>, cidr: string, ports: seq<int>)
    ensures Reaches(ExternalRules(external), cidr, ports)
            <==> exists i :: 0 <= i < |external| && external[i].ipv4 != "" && external[i].host == ""
                             && cidr == external[i].ipv4 + "/32" && ports == external[i].ports
  {
    if external != [] {
      var n := |external| - 1;
      var init, last := external[..n], external[n];
      ExternalMeans(init, cidr, ports);
      ReachesOne(IpBlock(last.ipv4 + "/32"), last.ports, cidr, ports);
      ReachesJoin(ExternalRules(init), [Rule([IpBlock(last.ipv4 + "/32")], last.ports)], cidr, ports);
      assert ExternalRules(init) + [] == ExternalRules(init);
      assert forall i :: 0 <= i < n ==> init[i] == external[i];
      hide ExternalRules, Reaches;
    }
  }

  lemma OnePeer(peer: Peer, ports: seq<int>, own: string, p: Pod)
    ensures Admits(Rule([peer], ports), own, p) <==> PeerAdmits(peer, own, p)
  {
    assert [peer][0] == peer;
  }

  lemma OneRuleMore(rules: seq<Rule>, rule: Rule, own: string, p: Pod)
    ensures AnyAdmits(rules + [rule], own, p) <==> AnyAdmits(rules, own, p) || Admits(rule, own, p)
  {
    AdmitsJoin(rules, [rule], own, p);
    assert [rule][0] == rule;
  }

  lemma AdmitsJoin(a: seq<Rule>, b: seq<Rule>, own: string, p: Pod)
    ensures AnyAdmits(a + b, own, p) <==> AnyAdmits(a, own, p) || AnyAdmits(b, own, p)
  {
    assert forall i :: 0 <= i < |a| ==> (a + b)[i] == a[i];
    assert forall i :: 0 <= i < |b| ==> (a + b)[|a| + i] == b[i];
    assert forall i :: |a| <= i < |a + b| ==> (a + b)[i] == b[i - |a|];
  }

  // ---------------------------------------------------------------------------------------------
  // Ingress controllers
  // ---------------------------------------------------------------------------------------------

  function NamespacePeer(namespace: string, key: string, value: string): Peer {
    Pods(Some(map[NAME_LABEL := namespace]), map[key := value])
  }

  const CLASS_LABEL := "nais.io/ingressClass"

  function ControllerRule(cfg: Config, class_: string): Rule {
    Rule([NamespacePeer(cfg.ingress.naisNamespace, CLASS_LABEL, class_)], [])
  }

  function ControllerRules(cfg: Config, classes: seq<string>): seq<Rule> {
    if classes == [] then [] else ControllerRules(cfg, classes[..|classes| - 1]) + [ControllerRule(cfg, classes[|classes| - 1])]
  }

  /** URLs that cannot be read or used are passed over. */
  function SelectedClasses(cfg: Config, url: string): seq<string> {
    match cfg.ingress.parse(url)
    case None => []
    case Some(u) =>
      match Classes(cfg.ingress.entries, u.host)
      case None => []
      case Some(classes) => classes
  }

  /** The URL can be read, and its host selects the class. */
  ghost predicate UrlSelects(cfg: Config, url: string, class_: string) {
    cfg.ingress.parse(url).Some? && HostSelects(cfg.ingress.entries, cfg.ingress.parse(url).value.host, class_)
  }

  lemma SelectedMeans(cfg: Config, url: string, class_: string)
    ensures class_ in SelectedClasses(cfg, url) <==> UrlSelects(cfg, url, class_)
  {
    hide Classes, HostSelects;
    if cfg.ingress.parse(url).Some? {
      SelectedIff(cfg.ingress.entries, cfg.ingress.parse(url).value.host, class_);
    }
  }

  function RulesFromUrls(cfg: Config, urls: seq<string>): seq<Rule> {
    if urls == [] then []
    else RulesFromUrls(cfg, urls[..|urls| - 1]) + ControllerRules(cfg, SelectedClasses(cfg, urls[|urls| - 1]))
  }

  lemma ControllerRulesSnoc(cfg: Config, classes: seq<string>, j: nat)
    requires j < |classes|
    ensures ControllerRules(cfg, classes[..j + 1]) == ControllerRules(cfg, classes[..j]) + [ControllerRule(cfg, classes[j])]
  {
    hide ControllerRule;
    assert classes[..j + 1][..j] == classes[..j];
  }

  lemma RulesFromUrlsSnoc(cfg: Config, urls: seq<string>, i: nat)
    requires i < |urls|
    ensures RulesFromUrls(cfg, urls[..i + 1]) == RulesFromUrls(cfg, urls[..i]) + ControllerRules(cfg, SelectedClasses(cfg, urls[i]))
  {
    hide ControllerRules, SelectedClasses;
    assert urls[..i + 1][..i] == urls[..i];
  }

  lemma NoControllers(cfg: Config)
    ensures ControllerRules(cfg, []) == [] && RulesFromUrls(cfg, []) == []
  {
  }

  method IngressRulesFromIngress(cfg: Config, urls: seq<string>) returns (rules: seq<Rule>)
    ensures rules == RulesFromUrls(cfg, urls)
  {
    hide Classes, ControllerRule, ControllerRules, RulesFromUrls;
    NoControllers(cfg);
    rules := [];
    for i := 0 to |urls|
      invariant rules == RulesFromUrls(cfg, urls[..i])
    {
      RulesFromUrlsSnoc(cfg, urls, i);
      ghost var before := rules;
      var parsed := cfg.ingress.parse(urls[i]);
      if parsed.None? {
        continue;
      }
      var found := GetIngressClasses(cfg.ingress.entries, parsed.value.host);
      if found.None? {
        continue;
      }
      var classes := found.value;
      for j := 0 to |classes|
        invariant rules == before + ControllerRules(cfg, classes[..j])
      {
        ControllerRulesSnoc(cfg, classes, j);
        rules := rules + [ControllerRule(cfg, classes[j])];
      }
      assert classes[..|classes|] == classes;
    }
    assert urls[..|urls|] == urls;
  }

  /** A pod of the platform, known by one label. */
  predicate IsPlatform(cfg: Config, key: string, value: string, p: Pod) {
    p.namespace == cfg.ingress.naisNamespace && LabelIs(p, key, value)
  }

  lemma PlatformMeans(cfg: Config, key: string, value: string, own: string, p: Pod)
    requires IsPod(p)
    ensures PeerAdmits(NamespacePeer(cfg.ingress.naisNamespace, key, value), own, p) <==> IsPlatform(cfg, key, value, p)
  {
  }

  lemma {:induction false} ControllersMean(cfg: Config, classes: seq<string>, own: string, p: Pod)
    requires IsPod(p)
    ensures AnyAdmits(ControllerRules(cfg, classes), own, p) <==> exists c :: c in classes && IsPlatform(cfg, CLASS_LABEL, c, p)
  {
    hide AnyAdmits, IsPlatform, PeerAdmits, IsPod;
    if classes == [] {
      NoRuleAdmits(own, p);
    } else {
      var n := |classes| - 1;
      ControllersMean(cfg, classes[..n], own, p);
      OneRuleMore(ControllerRules(cfg, classes[..n]), ControllerRule(cfg, classes[n]), own, p);
      OnePeer(NamespacePeer(cfg.ingress.naisNamespace, CLASS_LABEL, classes[n]), [], own, p);
      PlatformMeans(cfg, CLASS_LABEL, classes[n], own, p);
      assert classes == classes[..n] + [classes[n]];
    }
  }

  lemma NoRuleAdmits(own: string, p: Pod)
    ensures !AnyAdmits([], own, p)
  {
  }

  /** The controllers of exactly the classes that some URL selects are let in. */
  lemma {:induction false} UrlsMean(cfg: Config, urls: seq<string>, own: string, p: Pod)
    requires IsPod(p)
    ensures AnyAdmits(RulesFromUrls(cfg, urls), own, p)
        <==> exists i, c :: 0 <= i < |urls| && UrlSelects(cfg, urls[i], c) && IsPlatform(cfg, "nais.io/ingressClass", c, p)
  {
    hide AnyAdmits, IsPlatform, IsPod, SelectedClasses, UrlSelects;
    forall url, c ensures c in SelectedClasses(cfg, url) <==> UrlSelects(cfg, url, c) {
      SelectedMeans(cfg, url, c);
    }
    if urls == [] {
      NoRuleAdmits(own, p);
    } else {
      var n := |urls| - 1;
      UrlsMean(cfg, urls[..n], own, p);
      ControllersMean(cfg, SelectedClasses(cfg, urls[n]), own, p);
      AdmitsJoin(RulesFromUrls(cfg, urls[..n]), ControllerRules(cfg, SelectedClasses(cfg, urls[n])), own, p);
      assert forall i :: 0 <= i < n ==> urls[..n][i] == urls[i];
    }
  }

  // ---------------------------------------------------------------------------------------------
  // The whole policy
  // ---------------------------------------------------------------------------------------------

  datatype AccessPolicy = AccessPolicy(inbound: Option<seq<PolicyRule>>, outbound: Option<Outbound>)

  datatype Spec = Spec(selected: Labels, ingress: seq<Rule>, egress: seq<Rule>)

  const PLATFORM_LABEL := "app.kubernetes.io/name"

  function DefaultIngressRules(cfg: Config): seq<Rule> {
    [Rule([NamespacePeer(cfg.ingress.naisNamespace, PLATFORM_LABEL, "prometheus"),
           NamespacePeer(cfg.ingress.naisNamespace, PLATFORM_LABEL, "alloy")], [])]
  }

  function DefaultEgressRules(cfg: Config): seq<Rule> {
    [Rule([Pods(Some(map[]), map["k8s-app" := "kube-dns"])], [])]
    + if cfg.aivenRange != "" then [Rule([IpBlock(cfg.aivenRange)], [])] else []
  }

  /** Who may call the workload. */
  ghost predicate MayCall(cfg: Config, inbound: Option<seq<PolicyRule>>, urls: seq<string>, own: string, p: Pod) {
    || IsPlatform(cfg, "app.kubernetes.io/name", "prometheus", p)
    || IsPlatform(cfg, "app.kubernetes.io/name", "alloy", p)
    || (exists i, c :: 0 <= i < |urls| && UrlSelects(cfg, urls[i], c) && IsPlatform(cfg, "nais.io/ingressClass", c, p))
    || (inbound.Some? && exists i :: 0 <= i < |inbound.value| && cfg.matchesCluster(inbound.value[i]) && NamesCaller(inbound.value[i], own, p))
  }

  /** Whom the workload may call inside the cluster. */
  ghost predicate MayBeCalled(cfg: Config, outbound: Option<Outbound>, own: string, p: Pod) {
    || LabelIs(p, "k8s-app", "kube-dns")
    || (outbound.Some? && exists i :: 0 <= i < |outbound.value.rules| && cfg.matchesCluster(outbound.value.rules[i])
                                       && NamesCallee(outbound.value.rules[i], own, p))
  }

  method NetpolSpec(cfg: Config, name: string, policy: Option<AccessPolicy>, urls: seq<string>, election: bool) returns (spec: Spec)
    ensures spec.selected == map["app" := name]
    ensures WellFormed(spec.ingress) && WellFormed(spec.egress) && PodsOnly(spec.ingress)
    ensures forall own, p :: IsPod(p) ==>
              (AnyAdmits(spec.ingress, own, p) <==> MayCall(cfg, if policy.Some? then policy.value.inbound else None, urls, own, p))
    ensures forall own, p :: IsPod(p) ==>
              (AnyAdmits(spec.egress, own, p) <==> MayBeCalled(cfg, if policy.Some? then policy.value.outbound else None, own, p))
    ensures forall cidr, ports ::
              Reaches(spec.egress, cidr, ports) <==>
              || (cfg.aivenRange != "" && cidr == cfg.aivenRange && ports == [])
              || (election && cidr == cfg.apiServer && ports == [])
              || (policy.Some? && policy.value.outbound.Some? &&
                  exists e :: e in policy.value.outbound.value.external && e.ipv4 != "" && e.host == ""
                              && cidr == e.ipv4 + "/32" && ports == e.ports)
  {
    hide Admits, AnyAdmits, IsPlatform, NamesCaller, NamesCallee, LabelIs, SelectedClasses, UrlSelects, IsPod, Reaches;
    var inbound := if policy.Some? then policy.value.inbound else None;
    var outbound := if policy.Some? then policy.value.outbound else None;
    var controllers := IngressRulesFromIngress(cfg, urls);
    var callers := IngressRulesFromAccessPolicy(cfg, inbound);
    var callees, _ := EgressRulesFromAccessPolicy(cfg, outbound);
    var leader := if election then [Rule([IpBlock(cfg.apiServer)], [])] else [];
    forall own, p | IsPod(p)
      ensures AnyAdmits(DefaultIngressRules(cfg) + controllers + callers, own, p) <==> MayCall(cfg, inbound, urls, own, p)
      ensures AnyAdmits(DefaultEgressRules(cfg) + callees + leader, own, p) <==> MayBeCalled(cfg, outbound, own, p)
    {
      UrlsMean(cfg, urls, own, p);
      DefaultsMean(cfg, own, p);
      AdmitsJoin(DefaultIngressRules(cfg), controllers, own, p);
      AdmitsJoin(DefaultIngressRules(cfg) + controllers, callers, own, p);
      AdmitsJoin(DefaultEgressRules(cfg), callees, own, p);
      AdmitsJoin(DefaultEgressRules(cfg) + callees, leader, own, p);
      AddressAdmitsNoPod(cfg.apiServer, own, p);
      NoRuleAdmits(own, p);
    }
    forall cidr, ports {
      AddressesMean(cfg, callees, leader, election, cidr, ports);
    }
    UrlsNotOpen(cfg, urls);
    assert WellFormed(DefaultIngressRules(cfg)) && PodsOnly(DefaultIngressRules(cfg));
    assert WellFormed(DefaultEgressRules(cfg)) && WellFormed(leader);
    spec := Spec(map["app" := name], DefaultIngressRules(cfg) + controllers + callers, DefaultEgressRules(cfg) + callees + leader);
  }

  lemma AddressesMean(cfg: Config, callees: seq<Rule>, leader: seq<Rule>, election: bool, cidr: string, ports: seq<int>)
    requires leader == if election then [Rule([IpBlock(cfg.apiServer)], [])] else []
    ensures Reaches(DefaultEgressRules(cfg) + callees + leader, cidr, ports) <==>
              || (cfg.aivenRange != "" && cidr == cfg.aivenRange && ports == [])
              || (election && cidr == cfg.apiServer && ports == [])
              || Reaches(callees, cidr, ports)
  {
    hide Reaches;
    var dns := Pods(Some(map[]), map["k8s-app" := "kube-dns"]);
    var aiven := if cfg.aivenRange != "" then [Rule([IpBlock(cfg.aivenRange)], [])] else [];
    ReachesJoin(DefaultEgressRules(cfg) + callees, leader, cidr, ports);
    ReachesJoin(DefaultEgressRules(cfg), callees, cidr, ports);
    ReachesJoin([Rule([dns], [])], aiven, cidr, ports);
    ReachesOne(dns, [], cidr, ports);
    ReachesOne(IpBlock(cfg.aivenRange), [], cidr, ports);
    ReachesOne(IpBlock(cfg.apiServer), [], cidr, ports);
  }

  lemma {:induction false} ControllersNotOpen(cfg: Config, classes: seq<string>)
    ensures WellFormed(ControllerRules(cfg, classes)) && PodsOnly(ControllerRules(cfg, classes))
  {
    if classes != [] {
      ControllersNotOpen(cfg, classes[..|classes| - 1]);
    }
  }

  lemma {:induction false} UrlsNotOpen(cfg: Config, urls: seq<string>)
    ensures WellFormed(RulesFromUrls(cfg, urls)) && PodsOnly(RulesFromUrls(cfg, urls))
  {
    if urls != [] {
      UrlsNotOpen(cfg, urls[..|urls| - 1]);
      ControllersNotOpen(cfg, SelectedClasses(cfg, urls[|urls| - 1]));
    }
  }

  lemma AddressAdmitsNoPod(cidr: string, own: string, p: Pod)
    ensures !AnyAdmits([Rule([IpBlock(cidr)], [])], own, p)
  {
    OnePeer(IpBlock(cidr), [], own, p);
  }

  lemma DefaultsMean(cfg: Config, own: string, p: Pod)
    requires IsPod(p)
    ensures AnyAdmits(DefaultIngressRules(cfg), own, p)
        <==> IsPlatform(cfg, PLATFORM_LABEL, "prometheus", p) || IsPlatform(cfg, PLATFORM_LABEL, "alloy", p)
    ensures AnyAdmits(DefaultEgressRules(cfg), own, p) <==> LabelIs(p, "k8s-app", "kube-dns")
  {
    hide IsPlatform, NamespacePeer, IsPod, AnyAdmits, AnyPeerAdmits;
    var ns := cfg.ingress.naisNamespace;
    var prometheus, alloy := NamespacePeer(ns, PLATFORM_LABEL, "prometheus"), NamespacePeer(ns, PLATFORM_LABEL, "alloy");
    PlatformMeans(cfg, PLATFORM_LABEL, "prometheus", own, p);
    PlatformMeans(cfg, PLATFORM_LABEL, "alloy", own, p);
    OnePeer(prometheus, [], own, p);
    OnePeerMore([prometheus], alloy, own, p);
    assert [prometheus] + [alloy] == [prometheus, alloy];
    OneRule(Rule([prometheus, alloy], []), own, p);
    DefaultEgressMeans(cfg, own, p);
  }

  lemma DefaultEgressMeans(cfg: Config, own: string, p: Pod)
    ensures AnyAdmits(DefaultEgressRules(cfg), own, p) <==> LabelIs(p, "k8s-app", "kube-dns")
  {
    hide AnyAdmits;
    var dns := Pods(Some(map[]), map["k8s-app" := "kube-dns"]);
    OnePeer(dns, [], own, p);
    OneRule(Rule([dns], []), own, p);
    OneRuleMore([Rule([dns], [])], Rule([IpBlock(cfg.aivenRange)], []), own, p);
    OnePeer(IpBlock(cfg.aivenRange), [], own, p);
    assert [Rule([dns], [])] + [] == [Rule([dns], [])];
  }

  lemma OneRule(rule: Rule, own: string, p: Pod)
    ensures AnyAdmits([rule], own, p) <==> Admits(rule, own, p)
  {
    assert [rule][0] == rule;
  }

  /** A class that got an ingress has its controllers let in. */
  lemma IngressClassesAreLetIn(cfg: Config, source: Ingress.Source, c: string, own: string, p: Pod)
    requires forall i :: 0 <= i < |source.urls| ==> !Ingress.Fails(cfg.ingress, source, source.urls[i])
    requires Ingress.RulesIn(Ingress.Assignments(cfg.ingress, source, source.urls), c) != []
    requires IsPod(p) && IsPlatform(cfg, "nais.io/ingressClass", c, p)
    ensures AnyAdmits(RulesFromUrls(cfg, source.urls), own, p)
  {
    hide AnyAdmits, IsPlatform, IsPod, UrlSelects;
    Ingress.DistributionIsExact(cfg.ingress, source, source.urls, c);
    Ingress.SelectedIffRules(cfg.ingress, source, source.urls, c);
    var i :| 0 <= i < |source.urls| && Ingress.Selections(cfg.ingress, source, source.urls[i], c) > 0;
    assert c in SelectedClasses(cfg, source.urls[i]);
    SelectedMeans(cfg, source.urls[i], c);
    UrlsMean(cfg, source.urls, own, p);
  }
}
