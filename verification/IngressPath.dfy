/** Ingress paths for HAProxy, which knows the path types Prefix and Exact but no regular expressions. */
module IngressPath {
  import Annotations
  import opened Strings
  import opened Wrappers

  datatype PathType = Prefix | Exact | ImplementationSpecific

  datatype HttpPath = HttpPath(path: string, pathType: PathType)

  const DETECTED := "()[]{}|^$*+?\\"

  const REGEX_SUFFIX := "(/.*)?"

  predicate IsDetected(c: char) {
    c in DETECTED
  }

  predicate IsRegexPath(path: string) {
    exists i :: 0 <= i < |path| && IsDetected(path[i])
  }

  /** Where stripping stops. */
  predicate IsMeta(c: char) {
    IsDetected(c) || c == '.'
  }

  /** The place of the first metacharacter, '.' included; the length when there is none. */
  function FirstMeta(path: string): (n: nat)
    ensures n <= |path|
    ensures forall i :: 0 <= i < n ==> !IsMeta(path[i])
    ensures n < |path| ==> IsMeta(path[n])
  {
    if path == "" || IsMeta(path[0]) then 0 else 1 + FirstMeta(path[1..])
  }

  function StripRegexPath(path: string): string {
    var trimmed := TrimRight(path[..FirstMeta(path)], '/');
    if trimmed == "" then "/" else trimmed
  }

  const EXACT_PAIR := "($|/$)"
  const EXACT_PAIR_ESCAPED := "($|\\/$)"

  function ExactPairLiteral(path: string): Option<string> {
    if HasSuffix(path, EXACT_PAIR_ESCAPED) then LiteralBefore(path[..|path| - |EXACT_PAIR_ESCAPED|])
    else if HasSuffix(path, EXACT_PAIR) then LiteralBefore(path[..|path| - |EXACT_PAIR|])
    else None
  }

  function LiteralBefore(path: string): Option<string> {
    var literal := TrimRight(path, '/');
    if literal == "" || IsRegexPath(literal) then None else Some(literal)
  }

  /** With capture groups in the rewrite target the expression itself is handed on as a path. */
  function HaproxyPaths(path: string, rewriteTarget: string): seq<HttpPath> {
    if !IsRegexPath(path) || Annotations.HasCaptures(rewriteTarget) then [HttpPath(path, Prefix)]
    else
      match ExactPairLiteral(path)
      case Some(literal) => [HttpPath(literal, Exact), HttpPath(literal + "/", Exact)]
      case None => [HttpPath(StripRegexPath(path), Prefix)]
  }

  /** The path nginx gets for the same ingress URL. */
  function NginxPath(path: string): string {
    if |path| > 1 then path + REGEX_SUFFIX else path
  }

  /** A path is treated as a regular expression for any of thirteen characters; stripping stops at a dot
    * as well. */
  lemma MetacharactersAre(path: string)
    ensures IsRegexPath(path) <==>
              exists c :: c in path && c in {'(', ')', '[', ']', '{', '}', '|', '^', '$', '*', '+', '?', '\\'}
    ensures var n := FirstMeta(path);
            && (forall i :: 0 <= i < n ==>
                  path[i] !in {'(', ')', '[', ']', '{', '}', '|', '^', '$', '*', '+', '?', '\\', '.'})
            && (n < |path| ==> path[n] in {'(', ')', '[', ']', '{', '}', '|', '^', '$', '*', '+', '?', '\\', '.'})
  {
    forall c ensures IsDetected(c) <==> c in {'(', ')', '[', ']', '{', '}', '|', '^', '$', '*', '+', '?', '\\'} {
      DetectedIs(c);
    }
    hide IsDetected, FirstMeta;
    if c :| c in path && IsDetected(c) {
      var i :| 0 <= i < |path| && path[i] == c;
      assert IsDetected(path[i]);
    }
  }

  lemma DetectedIs(c: char)
    ensures IsDetected(c) <==> c in {'(', ')', '[', ']', '{', '}', '|', '^', '$', '*', '+', '?', '\\'}
  {
    var d := DETECTED;
    assert d[0] == '(' && d[1] == ')' && d[2] == '[' && d[3] == ']' && d[4] == '{' && d[5] == '}' && d[6] == '|';
    assert d[7] == '^' && d[8] == '$' && d[9] == '*' && d[10] == '+' && d[11] == '?' && d[12] == '\\';
  }

  lemma PairBehind(path: string, t: string)
    requires path == t + "($|/$)" || path == t + "($|\\/$)"
    ensures ExactPairLiteral(path) == LiteralBefore(t)
  {
    hide LiteralBefore;
    var plain, escaped := EXACT_PAIR, EXACT_PAIR_ESCAPED;
    if path == t + plain {
      assert path[|t|..] == plain && path[..|t|] == t;
      assert path[|path| - 4] == plain[2] == '|' && escaped[3] == '\\';
    } else {
      assert path[|t|..] == escaped && path[..|t|] == t;
    }
  }

  lemma PairInFront(path: string) returns (t: string)
    requires ExactPairLiteral(path).Some?
    ensures path == t + "($|/$)" || path == t + "($|\\/$)"
  {
    hide LiteralBefore;
    t := path[..|path| - if HasSuffix(path, EXACT_PAIR_ESCAPED) then 7 else 6];
    assert path == t + path[|t|..];
  }

  /** The exact pair is told by its ending, behind a literal that is not empty without its last slashes. */
  lemma ExactPairIff(path: string, literal: string)
    ensures ExactPairLiteral(path) == Some(literal) <==>
              && literal != "" && !IsRegexPath(literal)
              && exists t :: TrimRight(t, '/') == literal && (path == t + "($|/$)" || path == t + "($|\\/$)")
  {
    hide ExactPairLiteral, IsRegexPath, TrimRight;
    if ExactPairLiteral(path).Some? {
      var t := PairInFront(path);
      PairBehind(path, t);
    }
    if t :| TrimRight(t, '/') == literal && (path == t + "($|/$)" || path == t + "($|\\/$)") {
      PairBehind(path, t);
    }
  }

  // ---------------------------------------------------------------------------------------------
  // What paths admit
  // ---------------------------------------------------------------------------------------------

  /** Kubernetes compares Prefix paths element by element; a slash at the end of the path is ignored. */
  predicate Admits(p: HttpPath, request: string) {
    match p.pathType
    case Exact => request == p.path
    case Prefix => Split(TrimRight(p.path, '/'), '/') <= Split(request, '/')
    case ImplementationSpecific => false
  }

  predicate AnyAdmits(paths: seq<HttpPath>, request: string) {
    exists i :: 0 <= i < |paths| && Admits(paths[i], request)
  }

  predicate IsRequest(s: string) {
    s != "" && s[0] == '/' && '\n' !in s
  }

  /** The path itself, or the path, a slash and anything. */
  predicate Below(path: string, request: string) {
    var p := TrimRight(path, '/');
    request == p || p + "/" <= request
  }

  /** Matching element by element is being at or below the path. */
  lemma PrefixMeans(path: string, request: string)
    ensures Admits(HttpPath(path, Prefix), request) <==> Below(path, request)
  {
    var p := TrimRight(path, '/');
    var elements, all := Split(p, '/'), Split(request, '/');
    JoinSplit(request, '/');
    JoinSplit(p, '/');
    if p + "/" <= request {
      var rest := request[|p| + 1..];
      assert request == p + ['/'] + rest;
      SplitAppend(p, rest, '/');
    }
    if elements <= all {
      assert all == elements + all[|elements|..];
      if all[|elements|..] != [] {
        JoinAppend(elements, all[|elements|..], "/");
      } else {
        assert all == elements;
      }
    }
  }

  // ---------------------------------------------------------------------------------------------
  // Regular expressions
  // ---------------------------------------------------------------------------------------------

  /** Alternation occurs inside parentheses only. */
  datatype Regex =
    | Empty
    | Char(c: char)
    | Escaped(c: char)
    | AnyChar
    | Class(negated: bool, chars: string)
    | Start
    | End
    | Group(branches: Branches)
    | Opt(r: Regex)
    | Star(r: Regex)
    | Plus(r: Regex)
    | Cat(first: Regex, second: Regex)

  datatype Branches = Last(r: Regex) | Or(r: Regex, rest: Branches)

  function Show(r: Regex): string
    decreases r, 0
  {
    match r
    case Empty => ""
    case Char(c) => [c]
    case Escaped(c) => "\\" + [c]
    case AnyChar => "."
    case Class(negated, chars) => "[" + (if negated then "^" else "") + chars + "]"
    case Start => "^"
    case End => "$"
    case Group(branches) => "(" + ShowBranches(branches) + ")"
    case Opt(x) => ShowAtom(x) + "?"
    case Star(x) => ShowAtom(x) + "*"
    case Plus(x) => ShowAtom(x) + "+"
    case Cat(x, y) => Show(x) + Show(y)
  }

  function ShowBranches(b: Branches): string
    decreases b, 0
  {
    match b
    case Last(r) => Show(r)
    case Or(r, rest) => Show(r) + "|" + ShowBranches(rest)
  }

  function ShowAtom(r: Regex): string
    decreases r, 1
  {
    if r.Char? || r.Escaped? || r.AnyChar? || r.Class? || r.Group? then Show(r) else "(" + Show(r) + ")"
  }

  predicate WellFormed(r: Regex) {
    match r
    case Char(c) => !IsMeta(c)
    case Escaped(c) => IsMeta(c) || c == '/'
    case Class(_, chars) => chars != "" && forall i :: 0 <= i < |chars| ==> chars[i] !in "[]^-\\"
    case Group(branches) => WellFormedBranches(branches)
    case Opt(x) => WellFormed(x)
    case Star(x) => WellFormed(x)
    case Plus(x) => WellFormed(x)
    case Cat(x, y) => WellFormed(x) && WellFormed(y)
    case _ => true
  }

  predicate WellFormedBranches(b: Branches) {
    WellFormed(b.r) && (b.Or? ==> WellFormedBranches(b.rest))
  }

  /** `r` matches the part of `s` from `i` up to `j`. */
  ghost predicate Matches(r: Regex, s: string, i: nat, j: nat)
    requires i <= j <= |s|
    decreases r, 0, j - i
  {
    match r
    case Empty => i == j
    case Char(c) => j == i + 1 && s[i] == c
    case Escaped(c) => j == i + 1 && s[i] == c
    case AnyChar => j == i + 1 && s[i] != '\n'
    case Class(negated, chars) => j == i + 1 && (s[i] in chars <==> !negated)
    case Start => i == j == 0
    case End => i == j == |s|
    case Group(branches) => MatchesBranch(branches, s, i, j)
    case Opt(x) => i == j || Matches(x, s, i, j)
    case Star(x) => Many(x, s, i, j)
    case Plus(x) => exists k :: i <= k <= j && Matches(x, s, i, k) && Many(x, s, k, j)
    case Cat(x, y) => exists k :: i <= k <= j && Matches(x, s, i, k) && Matches(y, s, k, j)
  }

  ghost predicate MatchesBranch(b: Branches, s: string, i: nat, j: nat)
    requires i <= j <= |s|
    decreases b, 0, j - i
  {
    Matches(b.r, s, i, j) || (b.Or? && MatchesBranch(b.rest, s, i, j))
  }

  ghost predicate Many(r: Regex, s: string, i: nat, j: nat)
    requires i <= j <= |s|
    decreases r, 1, j - i
  {
    i == j || exists k :: i < k <= j && Matches(r, s, i, k) && Many(r, s, k, j)
  }

  ghost predicate WholeMatch(r: Regex, s: string) {
    Matches(r, s, 0, |s|)
  }

  // ---------------------------------------------------------------------------------------------
  // Stripping covers
  // ---------------------------------------------------------------------------------------------

  lemma {:induction false} FirstMetaAppend(s: string, t: string)
    ensures FirstMeta(s + t) == if FirstMeta(s) < |s| then FirstMeta(s) else |s| + FirstMeta(t)
  {
    if s == "" {
      assert s + t == t;
    } else {
      assert (s + t)[1..] == s[1..] + t;
      FirstMetaAppend(s[1..], t);
    }
  }

  /** A quantifier that lets what it follows be absent. */
  predicate AllowsNothing(c: char) {
    c == '?' || c == '*' || c == '{'
  }

  /** The text before the first metacharacter. */
  function Literal(path: string): string {
    path[..FirstMeta(path)]
  }

  predicate IsOpen(path: string) {
    FirstMeta(path) < |path|
  }

  /** The last character of the literal text may be absent from what is matched. */
  predicate IsCut(path: string) {
    IsOpen(path) && AllowsNothing(path[FirstMeta(path)])
  }

  /** The part of `s` from `i` to `j` starts with the literal text that `w` starts with, or with all of
    * it but the last character. */
  predicate StartsAs(w: string, s: string, i: nat, j: nat)
    requires i <= j <= |s|
  {
    var l := Literal(w);
    && (!IsCut(w) ==> i + |l| <= j && s[i..i + |l|] == l)
    && (l != "" ==> i + |l| - 1 <= j && s[i..i + |l| - 1] == l[..|l| - 1])
    && (!IsOpen(w) ==> j == i + |l|)
  }

  lemma LiteralAppend(v: string, w: string)
    ensures IsOpen(v) ==> Literal(v + w) == Literal(v) && (IsCut(v + w) <==> IsCut(v)) && IsOpen(v + w)
    ensures !IsOpen(v) ==> Literal(v + w) == v + Literal(w) && (IsCut(v + w) <==> IsCut(w)) && (IsOpen(v + w) <==> IsOpen(w))
    ensures !IsOpen(v) ==> Literal(v) == v && !IsCut(v)
  {
    hide AllowsNothing, FirstMeta;
    FirstMetaAppend(v, w);
  }

  lemma StartsAsAppend(v: string, w: string, s: string, i: nat, k: nat, j: nat)
    requires i <= k <= j <= |s| && StartsAs(v, s, i, k) && StartsAs(w, s, k, j)
    ensures StartsAs(v + w, s, i, j)
  {
    hide Literal, IsOpen, IsCut;
    LiteralAppend(v, w);
    if !IsOpen(v) {
      var l := Literal(w);
      assert !IsCut(w) ==> s[i..i + |v + l|] == s[i..k] + s[k..k + |l|];
      if l != "" {
        assert s[i..i + |v + l| - 1] == s[i..k] + s[k..k + |l| - 1];
        assert (v + l)[..|v + l| - 1] == v + l[..|l| - 1];
      } else {
        assert v + l == v && k == i + |v|;
      }
    }
  }

  lemma QuantifiedStart(x: Regex, quantifier: char, s: string, i: nat, j: nat)
    requires i <= j <= |s| && WellFormed(x) && quantifier in "?*+"
    requires quantifier == '+' ==> exists k :: i <= k <= j && Matches(x, s, i, k)
    ensures StartsAs(ShowAtom(x) + [quantifier], s, i, j)
  {
    var w := ShowAtom(x) + [quantifier];
    if x.Char? {
      assert w == [x.c, quantifier] && FirstMeta(w[1..]) == 0;
    } else {
      assert IsMeta(w[0]);
    }
  }

  /** Whatever a regular expression matches starts with the literal text it starts with. */
  lemma {:induction false} LiteralStartIsMatched(r: Regex, s: string, i: nat, j: nat)
    requires i <= j <= |s| && WellFormed(r) && Matches(r, s, i, j)
    ensures StartsAs(Show(r), s, i, j)
    decreases r
  {
    match r
    case Cat(x, y) =>
      var k :| i <= k <= j && Matches(x, s, i, k) && Matches(y, s, k, j);
      LiteralStartIsMatched(x, s, i, k);
      LiteralStartIsMatched(y, s, k, j);
      StartsAsAppend(Show(x), Show(y), s, i, k, j);
    case Opt(x) => QuantifiedStart(x, '?', s, i, j);
    case Star(x) => QuantifiedStart(x, '*', s, i, j);
    case Plus(x) => QuantifiedStart(x, '+', s, i, j);
    case Empty =>
    case Char(c) =>
    case _ => assert IsMeta(Show(r)[0]);
  }

  /** A request matched by the regular expression of an ingress is admitted by HAProxy, when it gets
    * the stripped path, exactly when the literal start of the expression ends in a slash, or is the
    * whole request, or is followed by a slash in it; when it gets the expression itself, because of
    * capture groups in the rewrite target, exactly when the request is at or below that very text. */
  lemma StrippedAdmitsIff(r: Regex, rewriteTarget: string, request: string)
    requires WellFormed(r) && IsRegexPath(Show(r)) && ExactPairLiteral(Show(r)).None? && !IsCut(Show(r))
    requires IsRequest(request) && WholeMatch(r, request)
    ensures var path := Show(r);
            var n := FirstMeta(path);
            && path[..n] <= request
            && (AnyAdmits(HaproxyPaths(path, rewriteTarget), request)
                <==> if Annotations.HasCaptures(rewriteTarget) then Below(path, request)
                     else n == 0 || path[n - 1] == '/' || |request| == n || request[n] == '/')
  {
    LiteralStartIsMatched(r, request, 0, |request|);
    UncutAdmitsIff(Show(r), rewriteTarget, request);
  }

  lemma UncutAdmitsIff(path: string, rewriteTarget: string, request: string)
    requires IsRegexPath(path) && ExactPairLiteral(path).None? && !IsCut(path)
    requires IsRequest(request) && StartsAs(path, request, 0, |request|)
    ensures var n := FirstMeta(path);
            && path[..n] <= request
            && (AnyAdmits(HaproxyPaths(path, rewriteTarget), request)
                <==> if Annotations.HasCaptures(rewriteTarget) then Below(path, request)
                     else n == 0 || path[n - 1] == '/' || |request| == n || request[n] == '/')
  {
    hide HaproxyPaths, AnyAdmits, Below, ExactPairLiteral, IsRegexPath;
    var n := FirstMeta(path);
    assert request[0..0 + n] == request[..n];
    if Annotations.HasCaptures(rewriteTarget) {
      CapturedMeans(path, rewriteTarget, request);
    } else {
      StrippedMeans(path, rewriteTarget, request);
      UnderLiteral(path[..n], request);
    }
  }

  /** The same for a literal start whose last character may be absent: all of it but that character
    * is in the request, and HAProxy asks for the rest, a slash apart. */
  lemma CutAdmitsIff(r: Regex, rewriteTarget: string, request: string)
    requires WellFormed(r) && IsRegexPath(Show(r)) && ExactPairLiteral(Show(r)).None?
    requires FirstMeta(Show(r)) > 0 && IsCut(Show(r)) && !Annotations.HasCaptures(rewriteTarget)
    requires IsRequest(request) && WholeMatch(r, request)
    ensures var path := Show(r);
            var n := FirstMeta(path) - 1;
            && path[..n] <= request
            && (AnyAdmits(HaproxyPaths(path, rewriteTarget), request)
                <==> if path[n] == '/' then n == 0 || path[n - 1] == '/' || |request| == n || request[n] == '/'
                     else path[..n + 1] <= request && (|request| == n + 1 || request[n + 1] == '/'))
  {
    hide HaproxyPaths, AnyAdmits, Matches, ExactPairLiteral, WellFormed, IsCut, Below, Annotations.HasCaptures, StartsAs, IsRegexPath, Show;
    LiteralStartIsMatched(r, request, 0, |request|);
    StartAdmitsIff(Show(r), rewriteTarget, request);
  }

  lemma StartAdmitsIff(path: string, rewriteTarget: string, request: string)
    requires IsRegexPath(path) && ExactPairLiteral(path).None? && !Annotations.HasCaptures(rewriteTarget)
    requires FirstMeta(path) > 0 && IsRequest(request) && StartsAs(path, request, 0, |request|)
    ensures var n := FirstMeta(path) - 1;
            && path[..n] <= request
            && (AnyAdmits(HaproxyPaths(path, rewriteTarget), request)
                <==> if path[n] == '/' then n == 0 || path[n - 1] == '/' || |request| == n || request[n] == '/'
                     else path[..n + 1] <= request && (|request| == n + 1 || request[n + 1] == '/'))
  {
    hide HaproxyPaths, AnyAdmits, ExactPairLiteral, IsCut, Below, Annotations.HasCaptures, IsRegexPath, IsMeta;
    StrippedMeans(path, rewriteTarget, request);
    CutLiteral(Literal(path), request);
  }

  lemma CutLiteral(literal: string, request: string)
    requires IsRequest(request) && literal != "" && |literal| - 1 <= |request| && request[0..0 + |literal| - 1] == literal[..|literal| - 1]
    ensures var n := |literal| - 1;
            && literal[..n] <= request
            && (Below(literal, request)
                <==> if literal[n] == '/' then n == 0 || literal[n - 1] == '/' || |request| == n || request[n] == '/'
                     else literal <= request && (|request| == n + 1 || request[n + 1] == '/'))
  {
    var n := |literal| - 1;
    assert request[0..0 + n] == request[..n];
    if literal[n] == '/' {
      TrimLast(literal);
      hide Below;
      BelowTrimmed(literal, literal[..n], request);
      UnderLiteral(literal[..n], request);
    } else if literal <= request {
      hide Below;
      UnderLiteral(literal, request);
    } else {
      TrimNone(literal);
    }
  }

  lemma BelowTrimmed(a: string, b: string, request: string)
    requires TrimRight(a, '/') == TrimRight(b, '/')
    ensures Below(a, request) <==> Below(b, request)
  {
  }

  lemma TrimNone(text: string)
    requires text != "" && text[|text| - 1] != '/'
    ensures TrimRight(text, '/') == text
  {
  }

  lemma TrimLast(text: string)
    requires text != "" && text[|text| - 1] == '/'
    ensures TrimRight(text, '/') == TrimRight(text[..|text| - 1], '/')
  {
  }

  lemma StrippedMeans(path: string, rewriteTarget: string, request: string)
    requires IsRegexPath(path) && ExactPairLiteral(path).None? && !Annotations.HasCaptures(rewriteTarget)
    ensures AnyAdmits(HaproxyPaths(path, rewriteTarget), request) <==> Below(path[..FirstMeta(path)], request)
  {
    hide IsRegexPath, ExactPairLiteral, Annotations.HasCaptures, Admits;
    var stripped := StripRegexPath(path);
    TrimSlash();
    PrefixMeans(stripped, request);
    OnlyPathAdmits(HttpPath(stripped, Prefix), request);
  }

  lemma CapturedMeans(path: string, rewriteTarget: string, request: string)
    requires Annotations.HasCaptures(rewriteTarget)
    ensures AnyAdmits(HaproxyPaths(path, rewriteTarget), request) <==> Below(path, request)
  {
    PrefixMeans(path, request);
    OnlyPathAdmits(HttpPath(path, Prefix), request);
  }

  /** With capture groups in the rewrite target, an expression admits no request without
    * metacharacters: whatever of that kind it matches is lost. */
  lemma CapturesRefuse(path: string, rewriteTarget: string, request: string)
    requires IsRegexPath(path) && Annotations.HasCaptures(rewriteTarget) && !IsRegexPath(request)
    ensures !AnyAdmits(HaproxyPaths(path, rewriteTarget), request)
  {
    CapturedMeans(path, rewriteTarget, request);
    var p := TrimRight(path, '/');
    var i :| 0 <= i < |path| && IsDetected(path[i]);
    assert i < |p| && p[i] == path[i];
    if p <= request {
      assert IsDetected(request[i]);
    }
  }

  lemma TrimSlash()
    ensures TrimRight("/", '/') == ""
  {
    assert "/"[..0] == "";
  }

  lemma UnderLiteral(literal: string, request: string)
    requires literal <= request && IsRequest(request)
    ensures Below(literal, request)
            <==> literal == "" || literal[|literal| - 1] == '/' || request == literal || request[|literal|] == '/'
  {
    var p := TrimRight(literal, '/');
    if literal != "" && literal[|literal| - 1] == '/' {
      assert literal[|p|] == '/';
    } else {
      assert p == literal;
    }
  }

  lemma OnlyPathAdmits(p: HttpPath, request: string)
    ensures AnyAdmits([p], request) <==> Admits(p, request)
  {
    assert [p][0] == p;
  }
}
