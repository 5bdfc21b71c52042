/** Ingress annotations: what nginx users wrote, carried over to HAProxy. Maps are walked in whatever
  * order they give their keys.
  */
module Annotations {
  import opened Strings
  import opened Wrappers

  const NGINX := "nginx.ingress.kubernetes.io/"
  const HAPROXY := "haproxy.org/"
  const SNIPPET := "haproxy.org/backend-config-snippet"

  /** The nginx annotations with a HAProxy counterpart, and that counterpart. */
  const SHORT := ["keepalive-timeout", "proxy-connect-timeout", "proxy-read-timeout", "proxy-send-timeout", "upstream-vhost"]
  const COUNTERPART := ["timeout-http-keep-alive", "timeout-connect", "timeout-server", "timeout-client", "set-host"]

  type Map = map<string, string>

  datatype Url = Url(scheme: string, host: string, path: string)

  function IndexIn(xs: seq<string>, x: string): (i: nat)
    ensures i <= |xs|
    ensures i < |xs| ==> xs[i] == x
    ensures i == |xs| ==> x !in xs
    ensures forall j :: 0 <= j < i ==> xs[j] != x
  {
    if xs == [] || xs[0] == x then 0 else 1 + IndexIn(xs[1..], x)
  }

  /** A missing key reads as the empty string. */
  function Lookup(m: Map, k: string): string {
    if k in m then m[k] else ""
  }

  // ---------------------------------------------------------------------------------------------
  // Copying
  // ---------------------------------------------------------------------------------------------

  function Nginx(src: Map): Map {
    map k | k in src && NGINX <= k :: src[k]
  }

  function Haproxy(src: Map): Map {
    map k | k in src && HAPROXY <= k :: src[k]
  }

  /** The user's own HAProxy annotations over `dst`; a snippet goes before the one already there. */
  function WithHaproxy(dst: Map, src: Map): Map {
    var copied := Haproxy(src);
    if SNIPPET in copied && Lookup(dst, SNIPPET) != "" then
      dst + copied[SNIPPET := copied[SNIPPET] + "\n\n" + Lookup(dst, SNIPPET)]
    else dst + copied
  }

  // ---------------------------------------------------------------------------------------------
  // Timeouts and host
  // ---------------------------------------------------------------------------------------------

  function Converted(i: nat, value: string): string
    requires i < 5
  {
    if HasSuffix(SHORT[i], "-timeout") && "timeout-" <= COUNTERPART[i] then value + "s" else value
  }

  function TargetKey(i: nat): string
    requires i < 5
  {
    HAPROXY + COUNTERPART[i]
  }

  function SourceKey(i: nat): string
    requires i < 5
  {
    NGINX + SHORT[i]
  }

  /** The first `n` rows of the table, applied where the source has them. */
  function WithRows(dst: Map, nginx: Map, n: nat): Map
    requires n <= 5
  {
    if n == 0 then dst
    else
      var rest := WithRows(dst, nginx, n - 1);
      if SourceKey(n - 1) in nginx then rest[TargetKey(n - 1) := Converted(n - 1, nginx[SourceKey(n - 1)])] else rest
  }

  function WithLimit(dst: Map, nginx: Map): Map {
    var limit := Lookup(nginx, NGINX + "limit-rpm");
    if limit == "" then dst
    else dst["haproxy.org/rate-limit-period" := "1m"]
            ["haproxy.org/rate-limit-requests" := limit]
            ["haproxy.org/rate-limit-status-code" := "429"]
  }

  // ---------------------------------------------------------------------------------------------
  // Snippets
  // ---------------------------------------------------------------------------------------------

  predicate IsDigit(c: char) {
    '0' <= c <= '9'
  }

  predicate IsWord(c: char) {
    IsDigit(c) || 'a' <= c <= 'z' || 'A' <= c <= 'Z' || c == '_'
  }

  predicate HasCaptures(s: string) {
    exists i :: 0 <= i < |s| - 1 && s[i] == '$' && IsDigit(s[i + 1])
  }

  predicate ArgumentAt(s: string, i: nat)
    requires i <= |s|
  {
    "$arg_" <= s[i..] && i + 5 < |s| && IsWord(s[i + 5])
  }

  predicate HasArguments(s: string) {
    exists i :: 0 <= i < |s| && ArgumentAt(s, i)
  }

  /** $1, $2 become \1, \2. */
  function CaptureGroups(s: string): string {
    if s == "" then ""
    else [if s[0] == '$' && |s| > 1 && IsDigit(s[1]) then '\\' else s[0]] + CaptureGroups(s[1..])
  }

  function WordLength(s: string): (n: nat)
    ensures n <= |s|
  {
    if s == "" || !IsWord(s[0]) then 0 else 1 + WordLength(s[1..])
  }

  /** $arg_name becomes %[url_param(name)]. */
  function Arguments(s: string): string
    decreases |s|
  {
    if s == "" then ""
    else if ArgumentAt(s, 0) then
      var n := WordLength(s[5..]);
      "%[url_param(" + s[5..5 + n] + ")]" + Arguments(s[5 + n..])
    else [s[0]] + Arguments(s[1..])
  }

  function Block(annotation: string, body: string): string {
    "###\n# Added by naiserator due to the `" + annotation + "` annotation:\n" + body + "\n###"
  }

  function RewriteBlock(target: string): string {
    Block("nginx.ingress.kubernetes.io/rewrite-target",
          "http-request redirect location " + Arguments(CaptureGroups(target)) + " code 302")
  }

  /** Behind what is there already, after an empty line. */
  function WithSnippet(dst: Map, block: string): Map {
    var existing := Lookup(dst, SNIPPET);
    dst[SNIPPET := if existing != "" then existing + "\n\n" + block else block]
  }

  predicate IsAbsolute(target: string) {
    "http://" <= target || "https://" <= target
  }

  /** A redirect that only replaces the host; `parse` reads a URL. */
  predicate IsHostRedirect(target: string, parse: string -> Option<Url>) {
    && parse(target).Some?
    && parse(target).value.path in {"", "/"}
    && !HasCaptures(target) && !HasArguments(target)
  }

  function WithRewrite(dst: Map, nginx: Map, parse: string -> Option<Url>): Map {
    var target := Lookup(nginx, NGINX + "rewrite-target");
    if target == "" then dst
    else if !IsAbsolute(target) then dst["haproxy.org/path-rewrite" := CaptureGroups(target)]
    else if IsHostRedirect(target, parse) then
      dst["haproxy.org/request-redirect" := parse(target).value.host]["haproxy.org/request-redirect-code" := "302"]
    else WithSnippet(dst, RewriteBlock(target))
  }

  /** The white space of Unicode. */
  predicate IsSpace(c: char) {
    || '\U{0009}' <= c <= '\U{000D}' || c == ' ' || c == '\U{0085}' || c == '\U{00A0}'
    || c == '\U{1680}' || '\U{2000}' <= c <= '\U{200A}' || c == '\U{2028}' || c == '\U{2029}'
    || c == '\U{202F}' || c == '\U{205F}' || c == '\U{3000}'
  }

  function TrimSpace(s: string): string
    decreases |s|
  {
    if s == "" then s
    else if IsSpace(s[0]) then TrimSpace(s[1..])
    else if IsSpace(s[|s| - 1]) then TrimSpace(s[..|s| - 1])
    else s
  }

  function Ranges(parts: seq<string>): seq<string> {
    if parts == [] then []
    else
      var last := TrimSpace(parts[|parts| - 1]);
      Ranges(parts[..|parts| - 1]) + if last != "" then [last] else []
  }

  function WhitelistBlock(ranges: seq<string>): string {
    Block("nginx.ingress.kubernetes.io/whitelist-source-range",
          "acl allowed_src req.hdr_ip(X-Forwarded-For) " + Join(ranges, " ")
          + "\nhttp-request deny deny_status 403 if !allowed_src")
  }

  function Whitelisted(nginx: Map): seq<string> {
    var whitelist := Lookup(nginx, NGINX + "whitelist-source-range");
    if whitelist == "" then [] else Ranges(Split(whitelist, ','))
  }

  function WithWhitelist(dst: Map, nginx: Map): Map {
    var ranges := Whitelisted(nginx);
    if ranges == [] then dst else WithSnippet(dst, WhitelistBlock(ranges))
  }

  function Migrated(dst: Map, src: Map, parse: string -> Option<Url>): Map {
    var nginx := Nginx(src);
    WithWhitelist(WithRewrite(WithLimit(WithRows(dst, nginx, 5), nginx), nginx, parse), nginx)
  }

  // ---------------------------------------------------------------------------------------------
  // The code
  // ---------------------------------------------------------------------------------------------

  class AnnotationMap {
    var entries: Map

    constructor (entries: Map)
      ensures this.entries == entries
    {
      this.entries := entries;
    }

    method CopyHAProxyAnnotations(src: Map)
      modifies this
      ensures entries == WithHaproxy(old(entries), src)
    {
      var left := src.Keys;
      ghost var done: set<string> := {};
      while left != {}
        invariant left <= src.Keys && done == src.Keys - left
        invariant entries == WithHaproxy(old(entries), map k | k in src && k in done :: src[k])
        decreases left
      {
        var k :| k in left;
        ghost var before := map j | j in src && j in done :: src[j];
        left, done := left - {k}, done + {k};
        assert before[k := src[k]] == map j | j in src && j in done :: src[j];
        OneMore(old(entries), before, k, src[k]);
        if HAPROXY <= k {
          if k == SNIPPET && Lookup(entries, k) != "" {
            entries := entries[k := src[k] + "\n\n" + entries[k]];
          } else {
            entries := entries[k := src[k]];
          }
        }
      }
      assert src == map k | k in src && k in done :: src[k];
    }

    method CopyNginxAnnotations(src: Map)
      modifies this
      ensures entries == old(entries) + Nginx(src)
    {
      var left := src.Keys;
      while left != {}
        invariant left <= src.Keys
        invariant entries == old(entries) + map k | k in src && k !in left && NGINX <= k :: src[k]
        decreases left
      {
        var k :| k in left;
        left := left - {k};
        if NGINX <= k {
          entries := entries[k := src[k]];
        }
      }
    }

    method MigrateNginxAnnotationsToHAProxyAnnotations(src: Map, parse: string -> Option<Url>)
      modifies this
      ensures entries == Migrated(old(entries), src, parse)
    {
      hide WithRows, WithLimit, WithRewrite, WithWhitelist, IndexIn, HasSuffix, SourceKey, Lookup;
      var nginx := new AnnotationMap(map[]);
      nginx.CopyNginxAnnotations(src);
      assert nginx.entries == Nginx(src);
      var annotations := nginx.entries;
      var left := annotations.Keys;
      ghost var done: Map := map[];
      NoRows(entries, 5);
      while left != {}
        invariant left <= annotations.Keys && nginx.entries == annotations
        invariant done == map k | k in annotations && k !in left :: annotations[k]
        invariant entries == WithRows(old(entries), done, 5)
        decreases left
      {
        var key :| key in left;
        RowsStep(old(entries), done, key, annotations[key], 5);
        left, done := left - {key}, done[key := annotations[key]];
        var i := IndexIn(SHORT, key[|NGINX|..]);
        if i < |SHORT| {
          var target := HAPROXY + COUNTERPART[i];
          var value := annotations[key];
          entries := entries[target := value];
          if HasSuffix(SHORT[i], "-timeout") && "timeout-" <= COUNTERPART[i] {
            entries := entries[target := value + "s"];
          }
        }
      }
      assert done == annotations;
      MigrateLimitRpm(annotations);
      MigrateRewriteTarget(annotations, parse);
      MigrateWhitelistSourceRange(annotations);
    }

    method MigrateLimitRpm(nginx: Map)
      modifies this
      ensures entries == WithLimit(old(entries), nginx)
    {
      var limit := Lookup(nginx, NGINX + "limit-rpm");
      if limit == "" {
        return;
      }
      entries := entries["haproxy.org/rate-limit-period" := "1m"];
      entries := entries["haproxy.org/rate-limit-requests" := limit];
      entries := entries["haproxy.org/rate-limit-status-code" := "429"];
    }

    method MigrateRewriteTarget(nginx: Map, parse: string -> Option<Url>)
      modifies this
      ensures entries == WithRewrite(old(entries), nginx, parse)
    {
      var target := Lookup(nginx, NGINX + "rewrite-target");
      if target == "" {
        return;
      }
      if !IsAbsolute(target) {
        entries := entries["haproxy.org/path-rewrite" := CaptureGroups(target)];
        return;
      }
      var u := parse(target);
      if u.None? {
        MigrateRewriteTargetAsSnippet(target);
        return;
      }
      var hostOnly := u.value.path == "" || u.value.path == "/";
      if hostOnly && !HasCaptures(target) && !HasArguments(target) {
        entries := entries["haproxy.org/request-redirect" := u.value.host];
        entries := entries["haproxy.org/request-redirect-code" := "302"];
        return;
      }
      MigrateRewriteTargetAsSnippet(target);
    }

    method MigrateRewriteTargetAsSnippet(target: string)
      modifies this
      ensures entries == WithSnippet(old(entries), RewriteBlock(target))
    {
      var snippet := RewriteBlock(target);
      var existing := Lookup(entries, SNIPPET);
      if existing != "" {
        entries := entries[SNIPPET := existing + "\n\n" + snippet];
        return;
      }
      entries := entries[SNIPPET := snippet];
    }

    method MigrateWhitelistSourceRange(nginx: Map)
      modifies this
      ensures entries == WithWhitelist(old(entries), nginx)
    {
      var whitelist := Lookup(nginx, NGINX + "whitelist-source-range");
      if whitelist == "" {
        return;
      }
      var parts := Split(whitelist, ',');
      var ranges := [];
      for i := 0 to |parts|
        invariant ranges == Ranges(parts[..i]) && entries == old(entries)
      {
        assert parts[..i + 1][..i] == parts[..i];
        var range := TrimSpace(parts[i]);
        if range != "" {
          ranges := ranges + [range];
        }
      }
      assert parts[..|parts|] == parts;
      if |ranges| == 0 {
        return;
      }
      var snippet := WhitelistBlock(ranges);
      var existing := Lookup(entries, SNIPPET);
      if existing != "" {
        entries := entries[SNIPPET := existing + "\n\n" + snippet];
        return;
      }
      entries := entries[SNIPPET := snippet];
    }
  }

  /** One annotation more, whichever it is, and the copy is one step further. */
  lemma OneMore(dst: Map, src: Map, k: string, value: string)
    requires k !in src
    ensures WithHaproxy(dst, src[k := value]) ==
            var m := WithHaproxy(dst, src);
            if !(HAPROXY <= k) then m
            else if k == SNIPPET && Lookup(m, k) != "" then m[k := value + "\n\n" + m[k]]
            else m[k := value]
  {
    HaproxyPut(src, k, value);
    assert SNIPPET in Haproxy(src) ==> SNIPPET in src;
    hide Haproxy;
  }

  lemma HaproxyPut(src: Map, k: string, value: string)
    ensures k !in src ==> k !in Haproxy(src)
    ensures k !in src ==> Haproxy(src[k := value]) == if HAPROXY <= k then Haproxy(src)[k := value] else Haproxy(src)
  {
  }

  lemma Distinct(i: nat, j: nat)
    requires i < j < 5
    ensures SHORT[i] != SHORT[j] && COUNTERPART[i] != COUNTERPART[j]
  {
    assert SHORT[2][6] == 'r' && SHORT[3][6] == 's';
    assert COUNTERPART[2][8] == 's' && COUNTERPART[3][8] == 'c';
  }

  lemma DistinctKeys(i: nat, j: nat)
    requires i < 5 && j < 5 && i != j
    ensures SourceKey(i) != SourceKey(j) && TargetKey(i) != TargetKey(j)
  {
    if i < j { Distinct(i, j); } else { Distinct(j, i); }
    assert SourceKey(i)[|NGINX|..] == SHORT[i] && SourceKey(j)[|NGINX|..] == SHORT[j];
    assert TargetKey(i)[|HAPROXY|..] == COUNTERPART[i] && TargetKey(j)[|HAPROXY|..] == COUNTERPART[j];
  }

  lemma {:induction false} NoRows(dst: Map, n: nat)
    requires n <= 5
    ensures WithRows(dst, map[], n) == dst
  {
    if n > 0 {
      NoRows(dst, n - 1);
    }
  }

  lemma RowOf(key: string, n: nat)
    requires NGINX <= key && n < 5
    ensures SourceKey(n) == key <==> n == IndexIn(SHORT, key[|NGINX|..])
  {
    var i := IndexIn(SHORT, key[|NGINX|..]);
    assert SourceKey(n)[|NGINX|..] == SHORT[n];
    assert i < 5 ==> SourceKey(i) == key;
    if i < 5 && i != n {
      DistinctKeys(i, n);
    }
  }

  /** One nginx annotation more changes at most its own counterpart, so their order is irrelevant. */
  lemma {:induction false} RowsStep(dst: Map, nginx: Map, key: string, value: string, n: nat)
    requires n <= 5 && key !in nginx && NGINX <= key
    ensures var i := IndexIn(SHORT, key[|NGINX|..]);
            WithRows(dst, nginx[key := value], n)
            == if i < n then WithRows(dst, nginx, n)[TargetKey(i) := Converted(i, value)] else WithRows(dst, nginx, n)
  {
    hide Converted, SourceKey, TargetKey, IndexIn;
    if n > 0 {
      RowsStep(dst, nginx, key, value, n - 1);
      RowOf(key, n - 1);
      var i := IndexIn(SHORT, key[|NGINX|..]);
      if i < 5 && i != n - 1 {
        DistinctKeys(i, n - 1);
      }
    }
  }

  // ---------------------------------------------------------------------------------------------
  // What a HAProxy ingress is annotated with
  // ---------------------------------------------------------------------------------------------

  function HaproxyAnnotations(base: Map, src: Map, parse: string -> Option<Url>): Map {
    WithHaproxy(Migrated(base, src, parse), src)
  }

  function NginxAnnotations(base: Map, src: Map, protocol: string): Map {
    (base + Nginx(src))["nginx.ingress.kubernetes.io/use-regex" := "true"]
      ["nginx.ingress.kubernetes.io/backend-protocol" := if protocol == "grpc" then "GRPC" else "HTTP"]
  }

  /** The annotations of a HAProxy ingress: migrated ones first, then the user's own. */
  method CreateHaproxyAnnotations(base: Map, src: Map, parse: string -> Option<Url>) returns (r: Map)
    ensures r == HaproxyAnnotations(base, src, parse)
  {
    hide Migrated, WithHaproxy;
    var annotations := new AnnotationMap(base);
    annotations.MigrateNginxAnnotationsToHAProxyAnnotations(src, parse);
    annotations.CopyHAProxyAnnotations(src);
    r := annotations.entries;
  }

  method CreateNginxAnnotations(base: Map, src: Map, protocol: string) returns (r: Map)
    ensures r == NginxAnnotations(base, src, protocol)
  {
    var annotations := new AnnotationMap(base);
    annotations.CopyNginxAnnotations(src);
    r := annotations.entries["nginx.ingress.kubernetes.io/use-regex" := "true"];
    r := r["nginx.ingress.kubernetes.io/backend-protocol" := if protocol == "grpc" then "GRPC" else "HTTP"];
  }

  /** Two maps agree at every key outside the HAProxy prefix. */
  ghost predicate AgreeElsewhere(a: Map, b: Map) {
    forall k :: !(HAPROXY <= k) ==> (k in a <==> k in b) && (k in a ==> a[k] == b[k])
  }

  lemma {:induction false} RowsStayInside(dst: Map, nginx: Map, n: nat)
    requires n <= 5
    ensures AgreeElsewhere(dst, WithRows(dst, nginx, n))
    ensures Lookup(WithRows(dst, nginx, n), SNIPPET) == Lookup(dst, SNIPPET)
    ensures SNIPPET in WithRows(dst, nginx, n) <==> SNIPPET in dst
  {
    if n > 0 {
      RowsStayInside(dst, nginx, n - 1);
      hide Converted, SourceKey, WithRows;
      assert SNIPPET[|HAPROXY|] == 'b';
      assert TargetKey(n - 1)[|HAPROXY|] == COUNTERPART[n - 1][0];
      assert COUNTERPART[n - 1][0] in {'t', 's'};
      assert HAPROXY <= TargetKey(n - 1) != SNIPPET;
      RowsLast(dst, nginx, n);
    }
  }

  lemma RowsLast(dst: Map, nginx: Map, n: nat)
    requires 0 < n <= 5
    ensures var rest := WithRows(dst, nginx, n - 1);
            WithRows(dst, nginx, n) in {rest, rest[TargetKey(n - 1) := Converted(n - 1, Lookup(nginx, SourceKey(n - 1)))]}
  {
  }

  lemma LimitStaysInside(dst: Map, nginx: Map)
    ensures AgreeElsewhere(dst, WithLimit(dst, nginx))
    ensures Lookup(WithLimit(dst, nginx), SNIPPET) == Lookup(dst, SNIPPET)
    ensures SNIPPET in WithLimit(dst, nginx) <==> SNIPPET in dst
  {
    assert SNIPPET[12] == 'b';
    assert "haproxy.org/rate-limit-period"[12] == 'r' && HAPROXY <= "haproxy.org/rate-limit-period";
    assert "haproxy.org/rate-limit-requests"[12] == 'r' && HAPROXY <= "haproxy.org/rate-limit-requests";
    assert "haproxy.org/rate-limit-status-code"[12] == 'r' && HAPROXY <= "haproxy.org/rate-limit-status-code";
  }

  function RewriteBlocks(nginx: Map, parse: string -> Option<Url>): seq<string> {
    var target := Lookup(nginx, NGINX + "rewrite-target");
    if target != "" && IsAbsolute(target) && !IsHostRedirect(target, parse) then [RewriteBlock(target)] else []
  }

  function WhitelistBlocks(nginx: Map): seq<string> {
    if Whitelisted(nginx) == [] then [] else [WhitelistBlock(Whitelisted(nginx))]
  }

  function UserBlocks(src: Map): seq<string> {
    if SNIPPET in src then [src[SNIPPET]] else []
  }

  /** The snippet holds exactly these blocks. */
  ghost predicate Holds(m: Map, blocks: seq<string>) {
    (SNIPPET in m <==> blocks != []) && (SNIPPET in m ==> m[SNIPPET] == Join(blocks, "\n\n"))
  }

  lemma RewriteHolds(dst: Map, nginx: Map, parse: string -> Option<Url>)
    requires Holds(dst, [])
    ensures Holds(WithRewrite(dst, nginx, parse), RewriteBlocks(nginx, parse))
    ensures AgreeElsewhere(dst, WithRewrite(dst, nginx, parse))
  {
    hide RewriteBlock, IsHostRedirect, IsAbsolute, CaptureGroups;
    assert SNIPPET[12] == 'b' && HAPROXY <= SNIPPET;
    assert "haproxy.org/path-rewrite"[12] == 'p' && HAPROXY <= "haproxy.org/path-rewrite";
    assert "haproxy.org/request-redirect"[12] == 'r' && HAPROXY <= "haproxy.org/request-redirect";
    assert "haproxy.org/request-redirect-code"[12] == 'r' && HAPROXY <= "haproxy.org/request-redirect-code";
  }

  lemma WhitelistHolds(dst: Map, nginx: Map, blocks: seq<string>)
    requires Holds(dst, blocks) && |blocks| <= 1 && forall b :: b in blocks ==> b != ""
    ensures Holds(WithWhitelist(dst, nginx), blocks + WhitelistBlocks(nginx))
    ensures AgreeElsewhere(dst, WithWhitelist(dst, nginx))
  {
    hide Whitelisted, WhitelistBlock;
    if Whitelisted(nginx) != [] {
      var block := WhitelistBlock(Whitelisted(nginx));
      assert HAPROXY <= SNIPPET;
      if blocks == [] {
        assert blocks + [block] == [block];
      } else {
        assert blocks[0] in blocks && blocks == [blocks[0]];
        JoinAppend(blocks, [block], "\n\n");
      }
    } else {
      assert blocks + WhitelistBlocks(nginx) == blocks;
    }
  }

  lemma MigratedHolds(base: Map, src: Map, parse: string -> Option<Url>)
    requires SNIPPET !in base
    ensures Holds(Migrated(base, src, parse), RewriteBlocks(Nginx(src), parse) + WhitelistBlocks(Nginx(src)))
    ensures AgreeElsewhere(base, Migrated(base, src, parse))
  {
    hide WithRows, WithLimit, WithRewrite, WithWhitelist, RewriteBlocks, WhitelistBlocks, Nginx;
    var nginx := Nginx(src);
    var limited := WithLimit(WithRows(base, nginx, 5), nginx);
    RowsStayInside(base, nginx, 5);
    LimitStaysInside(WithRows(base, nginx, 5), nginx);
    RewriteHolds(limited, nginx, parse);
    OneRewriteBlock(nginx, parse);
    WhitelistHolds(WithRewrite(limited, nginx, parse), nginx, RewriteBlocks(nginx, parse));
  }

  lemma OneRewriteBlock(nginx: Map, parse: string -> Option<Url>)
    ensures |RewriteBlocks(nginx, parse)| <= 1 && forall b :: b in RewriteBlocks(nginx, parse) ==> b != ""
  {
    hide Arguments, CaptureGroups, IsHostRedirect;
  }

  lemma JoinedNotEmpty(nginx: Map, parse: string -> Option<Url>)
    ensures var blocks := RewriteBlocks(nginx, parse) + WhitelistBlocks(nginx);
            blocks != [] ==> Join(blocks, "\n\n") != ""
  {
    hide RewriteBlocks, Whitelisted;
    OneRewriteBlock(nginx, parse);
    var blocks := RewriteBlocks(nginx, parse) + WhitelistBlocks(nginx);
    if RewriteBlocks(nginx, parse) != [] {
      assert blocks[0] == RewriteBlocks(nginx, parse)[0];
      assert blocks[0] in RewriteBlocks(nginx, parse);
    } else if blocks != [] {
      assert blocks == [WhitelistBlock(Whitelisted(nginx))];
    }
    assert blocks != [] ==> |Join(blocks, "\n\n")| >= |blocks[0]| > 0;
  }

  /** The user's own HAProxy annotations win, the snippet apart; nothing outside the HAProxy prefix is
    * touched. The snippet is the user's text, then the rewrite block, then the whitelist block, an
    * empty line between them, and nothing else. */
  lemma HaproxyResult(base: Map, src: Map, parse: string -> Option<Url>)
    requires SNIPPET !in base
    ensures var r := HaproxyAnnotations(base, src, parse);
            && (forall k :: k in src && HAPROXY <= k && k != SNIPPET ==> k in r && r[k] == src[k])
            && (forall k :: HAPROXY <= k && k != SNIPPET && k !in src ==>
                  (k in r <==> k in Migrated(base, src, parse)) && (k in r ==> r[k] == Migrated(base, src, parse)[k]))
            && AgreeElsewhere(base, r)
            && (var key := "haproxy.org/backend-config-snippet";
                var blocks := UserBlocks(src) + (RewriteBlocks(Nginx(src), parse) + WhitelistBlocks(Nginx(src)));
                (key in r <==> blocks != []) && (key in r ==> r[key] == Join(blocks, "\n\n")))
  {
    hide Migrated, RewriteBlocks, WhitelistBlocks, Nginx, UserBlocks;
    var migrated := Migrated(base, src, parse);
    var blocks := RewriteBlocks(Nginx(src), parse) + WhitelistBlocks(Nginx(src));
    MigratedHolds(base, src, parse);
    JoinedNotEmpty(Nginx(src), parse);
    assert HAPROXY <= SNIPPET;
    UserFirst(migrated, src, blocks);
  }

  lemma UserFirst(dst: Map, src: Map, blocks: seq<string>)
    requires Holds(dst, blocks) && (blocks != [] ==> Join(blocks, "\n\n") != "")
    ensures Holds(WithHaproxy(dst, src), UserBlocks(src) + blocks)
  {
    assert HAPROXY <= SNIPPET;
    if SNIPPET in src {
      if blocks == [] {
        assert UserBlocks(src) + blocks == [src[SNIPPET]];
      } else {
        JoinAppend(UserBlocks(src), blocks, "\n\n");
      }
    } else {
      assert UserBlocks(src) + blocks == blocks;
    }
  }

  /** What a '$' or any other character at `i` becomes. */
  function Rewritten(s: string, i: nat): char
    requires i < |s|
  {
    if s[i] == '$' && i + 1 < |s| && '0' <= s[i + 1] <= '9' then '\\' else s[i]
  }

  /** Only the '$'s of capture groups change, and no capture group is left in a rewritten path. */
  lemma {:induction false} CapturesRewritten(s: string)
    ensures var r := CaptureGroups(s);
            |r| == |s| && (forall i :: 0 <= i < |s| ==> r[i] == Rewritten(s, i)) && !HasCaptures(r)
  {
    if s != "" {
      CapturesRewritten(s[1..]);
      var r, rest := CaptureGroups(s), CaptureGroups(s[1..]);
      forall i | 0 <= i < |s|
        ensures r[i] == Rewritten(s, i)
      {
        if i > 0 {
          var j := i - 1;
          assert rest[j] == Rewritten(s[1..], j);
          assert Rewritten(s[1..], j) == Rewritten(s, i);
        }
      }
    }
  }

  ghost predicate IsWordCharacter(c: char) {
    '0' <= c <= '9' || 'a' <= c <= 'z' || 'A' <= c <= 'Z' || c == '_'
  }

  /** An nginx variable for a query argument starts at `i`. */
  ghost predicate ArgumentIn(s: string, i: nat) {
    i + 5 < |s| && "$arg_" <= s[i..] && IsWordCharacter(s[i + 5])
  }

  lemma ArgumentFurther(s: string, i: nat)
    requires s != ""
    ensures ArgumentIn(s[1..], i) <==> ArgumentIn(s, i + 1)
  {
    if i + 1 <= |s| {
      assert s[1..][i..] == s[i + 1..];
    }
  }

  lemma PlainStep(s: string)
    requires s != "" && !ArgumentIn(s, 0)
    ensures Arguments(s) == [s[0]] + Arguments(s[1..])
  {
    assert s[0..] == s;
  }

  /** What is not an argument stays. */
  lemma {:induction false} PlainStays(plain: string, tail: string)
    requires forall i :: 0 <= i < |plain| ==> !ArgumentIn(plain + tail, i)
    ensures Arguments(plain + tail) == plain + Arguments(tail)
    decreases |plain|
  {
    hide Arguments, ArgumentIn;
    var s := plain + tail;
    if plain == "" {
      assert s == tail;
    } else {
      assert s[1..] == plain[1..] + tail && s[0] == plain[0];
      forall i | 0 <= i < |plain| - 1 ensures !ArgumentIn(s[1..], i) {
        ArgumentFurther(s, i);
      }
      PlainStays(plain[1..], tail);
      PlainStep(s);
      assert plain == [plain[0]] + plain[1..];
    }
  }

  /** An argument, its name as long as can be, becomes a parameter of the URL. */
  lemma ArgumentRewritten(name: string, rest: string)
    requires name != "" && forall i :: 0 <= i < |name| ==> IsWordCharacter(name[i])
    requires rest != "" ==> !IsWordCharacter(rest[0])
    ensures Arguments("$arg_" + (name + rest)) == "%[url_param(" + name + ")]" + Arguments(rest)
  {
    var tail := name + rest;
    var s := "$arg_" + tail;
    assert s[5..] == tail && s[0..] == s && tail[0] == name[0];
    NameLength(name, rest);
    assert s[5..][..|name|] == name && s[5..][|name|..] == rest;
    assert s[5..5 + |name|] == name && s[5 + |name|..] == rest;
  }

  lemma {:induction false} NameLength(name: string, rest: string)
    requires forall i :: 0 <= i < |name| ==> IsWordCharacter(name[i])
    requires rest != "" ==> !IsWordCharacter(rest[0])
    ensures WordLength(name + rest) == |name|
    decreases |name|
  {
    if name == "" {
      assert name + rest == rest;
    } else {
      assert (name + rest)[1..] == name[1..] + rest;
      NameLength(name[1..], rest);
    }
  }

  /** The white space of Unicode, by code point. */
  ghost predicate IsWhite(c: char) {
    var n := c as int;
    || 9 <= n <= 13 || n == 32 || n == 133 || n == 160 || n == 5760 || 8192 <= n <= 8202
    || n == 8232 || n == 8233 || n == 8239 || n == 8287 || n == 12288
  }

  lemma SpaceIsWhite(c: char)
    ensures IsSpace(c) <==> IsWhite(c)
  {
  }

  lemma {:induction false} TrimMeans(s: string) returns (before: string, after: string)
    ensures s == before + TrimSpace(s) + after
    ensures forall i :: 0 <= i < |before| ==> IsWhite(before[i])
    ensures forall i :: 0 <= i < |after| ==> IsWhite(after[i])
    ensures TrimSpace(s) != "" ==> !IsWhite(TrimSpace(s)[0]) && !IsWhite(TrimSpace(s)[|TrimSpace(s)| - 1])
    decreases |s|
  {
    hide IsSpace, IsWhite, TrimSpace;
    TrimStep(s);
    before, after := "", "";
    if s != "" {
      var n := |s| - 1;
      SpaceIsWhite(s[0]);
      SpaceIsWhite(s[n]);
      if IsSpace(s[0]) {
        var b, a := TrimMeans(s[1..]);
        before, after := [s[0]] + b, a;
        Longer(s[0], b, TrimSpace(s), a);
      } else if IsSpace(s[n]) {
        var b, a := TrimMeans(s[..n]);
        before, after := b, a + [s[n]];
        Longer(s[n], b, TrimSpace(s), a);
      }
    }
  }

  lemma TrimStep(s: string)
    ensures TrimSpace(s) ==
            if s == "" then ""
            else if IsSpace(s[0]) then TrimSpace(s[1..])
            else if IsSpace(s[|s| - 1]) then TrimSpace(s[..|s| - 1])
            else s
  {
  }

  lemma Longer(c: char, before: string, middle: string, after: string)
    ensures [c] + (before + middle + after) == ([c] + before) + middle + after
    ensures (before + middle + after) + [c] == before + middle + (after + [c])
  {
  }

  lemma RangesSnoc(parts: seq<string>, part: string)
    ensures Ranges(parts + [part]) == Ranges(parts) + if TrimSpace(part) == "" then [] else [TrimSpace(part)]
    ensures Ranges([]) == []
  {
    assert (parts + [part])[..|parts|] == parts;
  }

  /** The ranges of a list, one after the other: each part without the space around it, unless that is
    * all there is. */
  lemma {:induction false} RangesInOrder(a: seq<string>, b: seq<string>)
    ensures Ranges(a + b) == Ranges(a) + Ranges(b)
    ensures |b| == 1 ==> Ranges(b) == if TrimSpace(b[0]) == "" then [] else [TrimSpace(b[0])]
  {
    hide TrimSpace, Ranges;
    RangesSnoc([], "");
    if b == [] {
      assert a + b == a;
    } else {
      var n := |b| - 1;
      RangesInOrder(a, b[..n]);
      assert a + b == (a + b[..n]) + [b[n]] && b == b[..n] + [b[n]];
      RangesSnoc(a + b[..n], b[n]);
      RangesSnoc(b[..n], b[n]);
    }
  }

  /** The blocks, word for word. */
  lemma BlocksRead(target: string, ranges: seq<string>)
    ensures RewriteBlock(target)
         == "###\n# Added by naiserator due to the `" + "nginx.ingress.kubernetes.io/rewrite-target" + "` annotation:\n"
            + ("http-request redirect location " + Arguments(CaptureGroups(target)) + " code 302") + "\n###"
    ensures WhitelistBlock(ranges)
         == "###\n# Added by naiserator due to the `" + "nginx.ingress.kubernetes.io/whitelist-source-range" + "` annotation:\n"
            + ("acl allowed_src req.hdr_ip(X-Forwarded-For) " + Join(ranges, " ")
               + "\nhttp-request deny deny_status 403 if !allowed_src") + "\n###"
  {
    hide Arguments, CaptureGroups, Join;
  }

  // ---------------------------------------------------------------------------------------------
  // What each migrated annotation says
  // ---------------------------------------------------------------------------------------------

  function Period(): string { "haproxy.org/rate-limit-period" }
  function Requests(): string { "haproxy.org/rate-limit-requests" }
  function StatusCode(): string { "haproxy.org/rate-limit-status-code" }
  function PathRewrite(): string { "haproxy.org/path-rewrite" }
  function Redirect(): string { "haproxy.org/request-redirect" }
  function RedirectCode(): string { "haproxy.org/request-redirect-code" }

  /** `m` has the key exactly when the condition holds, and then with this value. */
  ghost predicate Says(m: Map, key: string, condition: bool, value: string) {
    (key in m <==> condition) && (condition ==> m[key] == value)
  }

  /** What is said of the six keys outside the table. */
  ghost predicate SaysRest(m: Map, nginx: Map, parse: string -> Option<Url>) {
    var limit, target := Lookup(nginx, NGINX + "limit-rpm"), Lookup(nginx, NGINX + "rewrite-target");
    && Says(m, Period(), limit != "", "1m") && Says(m, Requests(), limit != "", limit) && Says(m, StatusCode(), limit != "", "429")
    && Says(m, PathRewrite(), target != "" && !IsAbsolute(target), CaptureGroups(target))
    && (var redirects := target != "" && IsAbsolute(target) && IsHostRedirect(target, parse);
        && Says(m, Redirect(), redirects, if redirects then parse(target).value.host else "")
        && Says(m, RedirectCode(), redirects, "302"))
  }

  lemma OtherKeysDiffer()
    ensures forall i :: 0 <= i < 5 ==> TargetKey(i) !in {Period(), Requests(), StatusCode(), PathRewrite(), Redirect(), RedirectCode(), SNIPPET}
  {
    assert Period()[12] == 'r' && Requests()[12] == 'r' && StatusCode()[12] == 'r' && PathRewrite()[12] == 'p';
    assert Redirect()[12] == 'r' && RedirectCode()[12] == 'r' && SNIPPET[12] == 'b';
    assert Period()[23] == 'p' && Requests()[23] == 'r' && StatusCode()[23] == 's' && Redirect()[13] == 'e' && Period()[13] == 'a';
    forall i | 0 <= i < 5
      ensures TargetKey(i)[12] in {'t', 's'}
    {
      assert TargetKey(i)[12] == COUNTERPART[i][0];
    }
  }

  lemma {:induction false} RowsMean(dst: Map, nginx: Map, n: nat, i: nat)
    requires n <= 5 && i < 5 && TargetKey(i) !in dst
    ensures Says(WithRows(dst, nginx, n), TargetKey(i), i < n && SourceKey(i) in nginx,
                 if SourceKey(i) in nginx then Converted(i, nginx[SourceKey(i)]) else "")
  {
    hide Converted, TargetKey, SourceKey;
    if n > 0 {
      RowsMean(dst, nginx, n - 1, i);
      if i != n - 1 {
        DistinctKeys(i, n - 1);
      }
    }
  }

  lemma {:induction false} RowsElsewhere(dst: Map, nginx: Map, n: nat, key: string)
    requires n <= 5 && forall i :: 0 <= i < n ==> TargetKey(i) != key
    ensures key in WithRows(dst, nginx, n) <==> key in dst
  {
    hide Converted, TargetKey, SourceKey;
    if n > 0 {
      RowsElsewhere(dst, nginx, n - 1, key);
    }
  }

  ghost predicate SameAt(a: Map, b: Map, key: string) {
    (key in a <==> key in b) && (key in a ==> a[key] == b[key])
  }

  lemma LimitMeans(dst: Map, nginx: Map, key: string)
    requires Period() !in dst && Requests() !in dst && StatusCode() !in dst
    ensures var m, limit := WithLimit(dst, nginx), Lookup(nginx, NGINX + "limit-rpm");
            && Says(m, Period(), limit != "", "1m") && Says(m, Requests(), limit != "", limit) && Says(m, StatusCode(), limit != "", "429")
            && (key !in {Period(), Requests(), StatusCode()} ==> SameAt(dst, m, key))
  {
    hide Lookup;
    OtherKeysDiffer();
    assert Period()[23] == 'p' && Requests()[23] == 'r' && StatusCode()[23] == 's';
  }

  lemma RewriteMeans(dst: Map, nginx: Map, parse: string -> Option<Url>, key: string)
    requires PathRewrite() !in dst && Redirect() !in dst && RedirectCode() !in dst
    ensures var m, target := WithRewrite(dst, nginx, parse), Lookup(nginx, NGINX + "rewrite-target");
            var redirects := target != "" && IsAbsolute(target) && IsHostRedirect(target, parse);
            && Says(m, PathRewrite(), target != "" && !IsAbsolute(target), CaptureGroups(target))
            && Says(m, Redirect(), redirects, if redirects then parse(target).value.host else "")
            && Says(m, RedirectCode(), redirects, "302")
            && (key !in {PathRewrite(), Redirect(), RedirectCode(), SNIPPET} ==> SameAt(dst, m, key))
  {
    hide CaptureGroups, RewriteBlock, IsAbsolute, HasCaptures, HasArguments, Lookup;
    assert PathRewrite()[12] == 'p' && Redirect()[12] == 'r' && SNIPPET[12] == 'b' && RedirectCode()[12] == 'r';
    assert |Redirect()| != |RedirectCode()|;
  }

  ghost predicate LacksOthers(m: Map) {
    Period() !in m && Requests() !in m && StatusCode() !in m && PathRewrite() !in m && Redirect() !in m && RedirectCode() !in m
  }

  lemma RowsLackOthers(base: Map, nginx: Map, i: nat)
    requires i < 5 && forall key :: key in base ==> !(HAPROXY <= key)
    ensures LacksOthers(WithRows(base, nginx, 5)) && TargetKey(i) !in base
  {
    hide WithRows;
    TargetInside(i);
    OtherKeysDiffer();
    RowsElsewhere(base, nginx, 5, Period());
    RowsElsewhere(base, nginx, 5, Requests());
    RowsElsewhere(base, nginx, 5, StatusCode());
    RowsElsewhere(base, nginx, 5, PathRewrite());
    RowsElsewhere(base, nginx, 5, Redirect());
    RowsElsewhere(base, nginx, 5, RedirectCode());
  }

  lemma RowMeans(base: Map, src: Map, parse: string -> Option<Url>, i: nat)
    requires i < 5 && forall key :: key in base ==> !(HAPROXY <= key)
    ensures var m, nginx := Migrated(base, src, parse), Nginx(src);
            && Says(m, TargetKey(i), SourceKey(i) in nginx, if SourceKey(i) in nginx then Converted(i, nginx[SourceKey(i)]) else "")
            && SaysRest(m, nginx, parse)
  {
    hide *;
    var nginx := Nginx(src);
    var rows := WithRows(base, nginx, 5);
    MigratedIs(base, src, parse);
    RowsLackOthers(base, nginx, i);
    RowsMean(base, nginx, 5, i);
    OtherKeysDiffer();
    OthersMean(rows, nginx, parse, TargetKey(i));
    SaysStays(rows, Migrated(base, src, parse), TargetKey(i), SourceKey(i) in nginx,
              if SourceKey(i) in nginx then Converted(i, nginx[SourceKey(i)]) else "");
  }

  ghost function Given(src: Map, key: string): string {
    if key in src then src[key] else ""
  }

  /** The one annotation is there exactly when the other is, and says the same in this unit. */
  ghost predicate Converts(m: Map, src: Map, target: string, source: string, unit: string) {
    (target in m <==> source in src) && (source in src ==> m[target] == src[source] + unit)
  }

  /** The target of a redirect to another host alone: no path, and nothing to fill in. */
  ghost predicate NamesHostOnly(target: string, parse: string -> Option<Url>) {
    && parse(target).Some? && (parse(target).value.path == "" || parse(target).value.path == "/")
    && (forall i :: 0 <= i < |target| - 1 ==> !(target[i] == '$' && '0' <= target[i + 1] <= '9'))
    && forall i :: 0 <= i < |target| ==> !ArgumentIn(target, i)
  }

  /** What a HAProxy annotation says after migration: each is there exactly when its nginx annotation
    * asks for it, with that annotation's value, timeouts in seconds. */
  lemma MigrationMeans(base: Map, src: Map, parse: string -> Option<Url>)
    requires forall key :: key in base ==> !(HAPROXY <= key)
    ensures var m := Migrated(base, src, parse);
            && Converts(m, src, "haproxy.org/" + "timeout-http-keep-alive", "nginx.ingress.kubernetes.io/" + "keepalive-timeout", "s")
            && Converts(m, src, "haproxy.org/" + "timeout-connect", "nginx.ingress.kubernetes.io/" + "proxy-connect-timeout", "s")
            && Converts(m, src, "haproxy.org/" + "timeout-server", "nginx.ingress.kubernetes.io/" + "proxy-read-timeout", "s")
            && Converts(m, src, "haproxy.org/" + "timeout-client", "nginx.ingress.kubernetes.io/" + "proxy-send-timeout", "s")
            && Converts(m, src, "haproxy.org/" + "set-host", "nginx.ingress.kubernetes.io/" + "upstream-vhost", "")
    ensures var m, limit := Migrated(base, src, parse), Given(src, "nginx.ingress.kubernetes.io/limit-rpm");
            && Says(m, "haproxy.org/rate-limit-period", limit != "", "1m")
            && Says(m, "haproxy.org/rate-limit-requests", limit != "", limit)
            && Says(m, "haproxy.org/rate-limit-status-code", limit != "", "429")
    ensures var m, target := Migrated(base, src, parse), Given(src, "nginx.ingress.kubernetes.io/rewrite-target");
            var absolute := "http://" <= target || "https://" <= target;
            var redirects := absolute && NamesHostOnly(target, parse);
            && Says(m, "haproxy.org/path-rewrite", target != "" && !absolute, CaptureGroups(target))
            && Says(m, "haproxy.org/request-redirect", redirects, if redirects then parse(target).value.host else "")
            && Says(m, "haproxy.org/request-redirect-code", redirects, "302")
  {
    hide *;
    RowSays(base, src, parse, 0);
    RowSays(base, src, parse, 1);
    RowSays(base, src, parse, 2);
    RowSays(base, src, parse, 3);
    RowSays(base, src, parse, 4);
    TableReads();
    RestSays(base, src, parse);
  }

  lemma RowSays(base: Map, src: Map, parse: string -> Option<Url>, i: nat)
    requires i < 5 && forall key :: key in base ==> !(HAPROXY <= key)
    ensures Converts(Migrated(base, src, parse), src, TargetKey(i), SourceKey(i), if i < 4 then "s" else "")
  {
    hide Migrated;
    RowMeans(base, src, parse, i);
    InUnit(i);
    assert NGINX <= SourceKey(i);
    assert SourceKey(i) in Nginx(src) <==> SourceKey(i) in src;
    hide Converted, SourceKey, TargetKey;
  }

  lemma InUnit(i: nat)
    requires i < 5
    ensures forall value :: Converted(i, value) == value + if i < 4 then "s" else ""
  {
    hide HasSuffix;
    Timeouts(SHORT[i], COUNTERPART[i], i);
    assert forall value: string :: value + "" == value;
  }

  lemma Timeouts(short: string, counterpart: string, i: nat)
    requires i < 5
    requires i == 0 ==> short == "keepalive-timeout" && counterpart == "timeout-http-keep-alive"
    requires i == 1 ==> short == "proxy-connect-timeout" && counterpart == "timeout-connect"
    requires i == 2 ==> short == "proxy-read-timeout" && counterpart == "timeout-server"
    requires i == 3 ==> short == "proxy-send-timeout" && counterpart == "timeout-client"
    requires i == 4 ==> short == "upstream-vhost"
    ensures HasSuffix(short, "-timeout") && "timeout-" <= counterpart <==> i < 4
  {
    if i == 4 {
      assert short[|short| - 8] == 'a';
    } else {
      assert short[|short| - 8..] == "-timeout" && counterpart[..8] == "timeout-";
    }
  }

  lemma TableReads()
    ensures SourceKey(0) == "nginx.ingress.kubernetes.io/" + "keepalive-timeout" && TargetKey(0) == "haproxy.org/" + "timeout-http-keep-alive"
    ensures SourceKey(1) == "nginx.ingress.kubernetes.io/" + "proxy-connect-timeout" && TargetKey(1) == "haproxy.org/" + "timeout-connect"
    ensures SourceKey(2) == "nginx.ingress.kubernetes.io/" + "proxy-read-timeout" && TargetKey(2) == "haproxy.org/" + "timeout-server"
    ensures SourceKey(3) == "nginx.ingress.kubernetes.io/" + "proxy-send-timeout" && TargetKey(3) == "haproxy.org/" + "timeout-client"
    ensures SourceKey(4) == "nginx.ingress.kubernetes.io/" + "upstream-vhost" && TargetKey(4) == "haproxy.org/" + "set-host"
  {
  }

  lemma RestSays(base: Map, src: Map, parse: string -> Option<Url>)
    requires forall key :: key in base ==> !(HAPROXY <= key)
    ensures var m, limit := Migrated(base, src, parse), Given(src, "nginx.ingress.kubernetes.io/limit-rpm");
            && Says(m, "haproxy.org/rate-limit-period", limit != "", "1m")
            && Says(m, "haproxy.org/rate-limit-requests", limit != "", limit)
            && Says(m, "haproxy.org/rate-limit-status-code", limit != "", "429")
    ensures var m, target := Migrated(base, src, parse), Given(src, "nginx.ingress.kubernetes.io/rewrite-target");
            var absolute := "http://" <= target || "https://" <= target;
            var redirects := absolute && NamesHostOnly(target, parse);
            && Says(m, "haproxy.org/path-rewrite", target != "" && !absolute, CaptureGroups(target))
            && Says(m, "haproxy.org/request-redirect", redirects, if redirects then parse(target).value.host else "")
            && Says(m, "haproxy.org/request-redirect-code", redirects, "302")
  {
    hide Migrated, Nginx, Lookup, Given, CaptureGroups, NamesHostOnly, IsHostRedirect, Says;
    RowMeans(base, src, parse, 0);
    GivenMeans(src);
    HostOnlyMeans(Given(src, "nginx.ingress.kubernetes.io/rewrite-target"), parse);
  }

  lemma WhitelistKey()
    ensures NGINX + "whitelist-source-range" == "nginx.ingress.kubernetes.io/whitelist-source-range"
    ensures NGINX <= "nginx.ingress.kubernetes.io/whitelist-source-range"
  {
  }

  lemma GivenMeans(src: Map)
    ensures Lookup(Nginx(src), NGINX + "limit-rpm") == Given(src, "nginx.ingress.kubernetes.io/limit-rpm")
    ensures Lookup(Nginx(src), NGINX + "rewrite-target") == Given(src, "nginx.ingress.kubernetes.io/rewrite-target")
    ensures Lookup(Nginx(src), NGINX + "whitelist-source-range") == Given(src, "nginx.ingress.kubernetes.io/whitelist-source-range")
  {
    WhitelistKey();
    assert NGINX + "limit-rpm" == "nginx.ingress.kubernetes.io/limit-rpm";
    assert NGINX + "rewrite-target" == "nginx.ingress.kubernetes.io/rewrite-target";
    assert NGINX <= "nginx.ingress.kubernetes.io/limit-rpm" && NGINX <= "nginx.ingress.kubernetes.io/rewrite-target";
  }

  lemma HostOnlyMeans(target: string, parse: string -> Option<Url>)
    ensures IsHostRedirect(target, parse) <==> NamesHostOnly(target, parse)
    ensures IsAbsolute(target) ==> target != ""
  {
    forall i | 0 <= i < |target|
      ensures ArgumentAt(target, i) <==> ArgumentIn(target, i)
    {
    }
  }

  /** Which blocks are asked for. */
  lemma BlocksAsked(src: Map, parse: string -> Option<Url>)
    ensures var target := Given(src, "nginx.ingress.kubernetes.io/rewrite-target");
            RewriteBlocks(Nginx(src), parse)
            == if ("http://" <= target || "https://" <= target) && !NamesHostOnly(target, parse) then [RewriteBlock(target)] else []
    ensures var list := Given(src, "nginx.ingress.kubernetes.io/whitelist-source-range");
            var ranges := if list == "" then [] else Ranges(Split(list, ','));
            WhitelistBlocks(Nginx(src)) == if ranges == [] then [] else [WhitelistBlock(ranges)]
  {
    hide IsHostRedirect, NamesHostOnly, RewriteBlock, WhitelistBlock, Ranges, Split;
    GivenMeans(src);
    HostOnlyMeans(Given(src, "nginx.ingress.kubernetes.io/rewrite-target"), parse);
  }

  lemma MigratedIs(base: Map, src: Map, parse: string -> Option<Url>)
    ensures var nginx := Nginx(src);
            Migrated(base, src, parse)
            == WithWhitelist(WithRewrite(WithLimit(WithRows(base, nginx, 5), nginx), nginx, parse), nginx)
  {
    hide WithRows, WithLimit, WithRewrite, WithWhitelist, Nginx;
  }

  lemma SaysStays(a: Map, b: Map, key: string, condition: bool, value: string)
    requires SameAt(a, b, key) && Says(a, key, condition, value)
    ensures Says(b, key, condition, value)
  {
  }

  /** The steps behind the table say the other six keys and leave `key`, not one of these, alone. */
  lemma OthersMean(rows: Map, nginx: Map, parse: string -> Option<Url>, key: string)
    requires LacksOthers(rows)
    requires key !in {Period(), Requests(), StatusCode(), PathRewrite(), Redirect(), RedirectCode(), SNIPPET}
    ensures var m := WithWhitelist(WithRewrite(WithLimit(rows, nginx), nginx, parse), nginx);
            SaysRest(m, nginx, parse) && SameAt(rows, m, key)
  {
    hide WithLimit, WithRewrite, WithWhitelist, IsAbsolute, IsHostRedirect, CaptureGroups, Lookup;
    OtherKeysDiffer();
    hide Period, Requests, StatusCode, PathRewrite, Redirect, RedirectCode;
    var limited := WithLimit(rows, nginx);
    var rewritten := WithRewrite(limited, nginx, parse);
    OthersDiffer();
    LimitMeans(rows, nginx, key);
    LimitMeans(rows, nginx, PathRewrite());
    LimitMeans(rows, nginx, Redirect());
    LimitMeans(rows, nginx, RedirectCode());
    RewriteMeans(limited, nginx, parse, key);
    RewriteMeans(limited, nginx, parse, Period());
    RewriteMeans(limited, nginx, parse, Requests());
    RewriteMeans(limited, nginx, parse, StatusCode());
    WhitelistElsewhere(rewritten, nginx, key);
    WhitelistElsewhere(rewritten, nginx, Period());
    WhitelistElsewhere(rewritten, nginx, Requests());
    WhitelistElsewhere(rewritten, nginx, StatusCode());
    WhitelistElsewhere(rewritten, nginx, PathRewrite());
    WhitelistElsewhere(rewritten, nginx, Redirect());
    WhitelistElsewhere(rewritten, nginx, RedirectCode());
  }

  lemma OthersDiffer()
    ensures Period() != Requests() && Period() != StatusCode() && Requests() != StatusCode()
    ensures {Period(), Requests(), StatusCode()} !! {PathRewrite(), Redirect(), RedirectCode(), SNIPPET}
    ensures PathRewrite() != Redirect() && PathRewrite() != RedirectCode() && Redirect() != RedirectCode()
    ensures SNIPPET !in {PathRewrite(), Redirect(), RedirectCode()}
  {
    OtherKeysDiffer();
    assert Period()[23] == 'p' && Requests()[23] == 'r' && StatusCode()[23] == 's';
    assert |Redirect()| != |RedirectCode()| && SNIPPET[12] == 'b';
    assert PathRewrite()[12] == 'p' && Period()[13] == 'a' && Requests()[13] == 'a' && StatusCode()[13] == 'a';
    assert Redirect()[13] == 'e' && RedirectCode()[13] == 'e' && Redirect()[12] == 'r' && RedirectCode()[12] == 'r';
    assert Period()[12] == 'r' && Requests()[12] == 'r' && StatusCode()[12] == 'r';
  }

  lemma TargetInside(i: nat)
    requires i < 5
    ensures HAPROXY <= TargetKey(i)
  {
  }

  lemma WhitelistElsewhere(dst: Map, nginx: Map, key: string)
    requires key != SNIPPET
    ensures SameAt(dst, WithWhitelist(dst, nginx), key)
  {
  }

  const USE_REGEX := "nginx.ingress.kubernetes.io/use-regex"
  const BACKEND_PROTOCOL := "nginx.ingress.kubernetes.io/backend-protocol"

  /** An nginx ingress is annotated with what the user says in nginx annotations, except that regular
    * expressions are always on and the protocol is the service's; nothing else is touched. */
  lemma NginxResult(base: Map, src: Map, protocol: string, key: string)
    ensures var r := NginxAnnotations(base, src, protocol);
            && USE_REGEX in r && r[USE_REGEX] == "true"
            && BACKEND_PROTOCOL in r && r[BACKEND_PROTOCOL] == (if protocol == "grpc" then "GRPC" else "HTTP")
            && (key in src && NGINX <= key && key != USE_REGEX && key != BACKEND_PROTOCOL ==> key in r && r[key] == src[key])
            && (!(NGINX <= key) || (key !in src && key != USE_REGEX && key != BACKEND_PROTOCOL) ==> SameAt(base, r, key))
  {
    assert USE_REGEX[28] == 'u' && BACKEND_PROTOCOL[28] == 'b';
    assert NGINX <= USE_REGEX && NGINX <= BACKEND_PROTOCOL;
  }
}
