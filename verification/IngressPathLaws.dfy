/** Which translations of ingress paths for HAProxy keep their meaning, and when. */
module IngressPathLaws {
  import Annotations
  import opened IngressPath
  import opened Strings
  import opened Wrappers

  /** Text as a regular expression: a '.' matches any character. */
  function Plain(text: string): (r: Regex)
    ensures !IsRegexPath(text) ==> WellFormed(r)
    ensures Show(r) == text
  {
    if text == "" then Empty
    else
      assert !IsRegexPath(text) ==> !IsRegexPath(text[1..]);
      assert !IsRegexPath(text) ==> !IsDetected(text[0]);
      Cat(if text[0] == '.' then AnyChar else Char(text[0]), Plain(text[1..]))
  }

  predicate PlainAt(text: string, s: string, i: nat) {
    i + |text| <= |s| && forall k :: 0 <= k < |text| ==> if text[k] == '.' then s[i + k] != '\n' else s[i + k] == text[k]
  }

  lemma {:induction false} PlainMatches(text: string, s: string, i: nat, j: nat)
    requires i <= j <= |s|
    ensures Matches(Plain(text), s, i, j) <==> j == i + |text| && PlainAt(text, s, i)
    decreases |text|
  {
    if text != "" {
      var c := if text[0] == '.' then AnyChar else Char(text[0]);
      if i + 1 <= j {
        PlainMatches(text[1..], s, i + 1, j);
        assert Matches(Plain(text), s, i, j) <==> Matches(c, s, i, i + 1) && Matches(Plain(text[1..]), s, i + 1, j);
        assert PlainAt(text, s, i) <==> Matches(c, s, i, i + 1) && PlainAt(text[1..], s, i + 1);
      }
    }
  }

  lemma CatWitness(x: Regex, y: Regex, s: string, i: nat, j: nat) returns (k: nat)
    requires i <= j <= |s| && Matches(Cat(x, y), s, i, j)
    ensures i <= k <= j && Matches(x, s, i, k) && Matches(y, s, k, j)
  {
    k :| i <= k <= j && Matches(x, s, i, k) && Matches(y, s, k, j);
  }

  lemma CatMatches(x: Regex, y: Regex, s: string, i: nat, k: nat, j: nat)
    requires i <= k <= j <= |s| && Matches(x, s, i, k) && Matches(y, s, k, j)
    ensures Matches(Cat(x, y), s, i, j)
  {
  }

  /** Text followed by something matches what has a match of each part in sequence. */
  lemma PlainThen(text: string, tail: Regex, s: string)
    ensures WholeMatch(Cat(Plain(text), tail), s) <==> PlainAt(text, s, 0) && Matches(tail, s, |text|, |s|)
  {
    var r := Plain(text);
    if WholeMatch(Cat(r, tail), s) {
      var k := CatWitness(r, tail, s, 0, |s|);
      PlainMatches(text, s, 0, k);
    }
    if PlainAt(text, s, 0) && Matches(tail, s, |text|, |s|) {
      PlainMatches(text, s, 0, |text|);
      CatMatches(r, tail, s, 0, |text|, |s|);
    }
  }

  lemma {:induction false} ManyAny(s: string, i: nat, j: nat)
    requires i <= j <= |s| && '\n' !in s
    ensures Many(AnyChar, s, i, j)
    decreases j - i
  {
    if i < j {
      var next := i + 1;
      ManyAny(s, next, j);
      assert Matches(AnyChar, s, i, next);
    }
  }

  lemma OneBranch(r: Regex, s: string, i: nat, j: nat)
    requires i <= j <= |s|
    ensures Matches(Group(Last(r)), s, i, j) <==> Matches(r, s, i, j)
  {
    assert Matches(Group(Last(r)), s, i, j) <==> MatchesBranch(Last(r), s, i, j);
  }

  lemma TwoBranches(q: Regex, r: Regex, s: string, i: nat, j: nat)
    requires i <= j <= |s|
    ensures Matches(Group(Or(q, Last(r))), s, i, j) <==> Matches(q, s, i, j) || Matches(r, s, i, j)
  {
    assert Matches(Group(Or(q, Last(r))), s, i, j) <==> MatchesBranch(Or(q, Last(r)), s, i, j);
    assert MatchesBranch(Last(r), s, i, j) <==> Matches(r, s, i, j);
  }

  /** `(/.*)?`. */
  function OptionalRest(): Regex {
    Opt(Group(Last(Cat(Char('/'), Star(AnyChar)))))
  }

  lemma ShowOptionalRest()
    ensures Show(OptionalRest()) == REGEX_SUFFIX
  {
    var inner := Cat(Char('/'), Star(AnyChar));
    assert Show(inner) == "/.*" && Show(Group(Last(inner))) == "(/.*)";
  }

  lemma OptionalRestMatches(s: string, i: nat)
    requires i <= |s| && '\n' !in s
    ensures Matches(OptionalRest(), s, i, |s|) <==> i == |s| || s[i] == '/'
  {
    var inner := Cat(Char('/'), Star(AnyChar));
    OneBranch(inner, s, i, |s|);
    if i < |s| && s[i] == '/' {
      var next := i + 1;
      ManyAny(s, next, |s|);
      assert Matches(Char('/'), s, i, next) && Matches(Star(AnyChar), s, next, |s|);
    }
  }

  function Slash(escaped: bool): Regex {
    if escaped then Escaped('/') else Char('/')
  }

  /** `($|/$)` or `($|\/$)`. */
  function SlashOrEnd(escaped: bool): Regex {
    Group(Or(End, Last(Cat(Slash(escaped), End))))
  }

  function PairSuffix(escaped: bool): string {
    if escaped then EXACT_PAIR_ESCAPED else EXACT_PAIR
  }

  lemma ShowSlashOrEnd(escaped: bool)
    ensures Show(SlashOrEnd(escaped)) == PairSuffix(escaped)
  {
    var inner := Cat(Slash(escaped), End);
    assert Show(inner) == if escaped then "\\/$" else "/$";
    assert ShowBranches(Or(End, Last(inner))) == "$|" + Show(inner);
  }

  lemma SlashOrEndMatches(escaped: bool, s: string, i: nat)
    requires i <= |s|
    ensures Matches(SlashOrEnd(escaped), s, i, |s|) <==> i == |s| || s[i..] == "/"
  {
    var inner := Cat(Slash(escaped), End);
    TwoBranches(End, inner, s, i, |s|);
    if i < |s| && s[i..] == "/" {
      var next := i + 1;
      assert s[i] == s[i..][0] && next == |s|;
      assert Matches(Slash(escaped), s, i, next) && Matches(End, s, next, |s|);
    }
  }

  /** `($|\/.+)`. */
  function EndOrDeeper(): Regex {
    Group(Or(End, Last(Cat(Escaped('/'), Plus(AnyChar)))))
  }

  lemma ShowEndOrDeeper()
    ensures Show(EndOrDeeper()) == "($|\\/.+)"
  {
    var inner := Cat(Escaped('/'), Plus(AnyChar));
    assert Show(inner) == "\\/.+";
    assert ShowBranches(Or(End, Last(inner))) == "$|\\/.+";
  }

  lemma EndOrDeeperMatches(s: string, i: nat)
    requires i <= |s| && '\n' !in s
    ensures Matches(EndOrDeeper(), s, i, |s|) <==> i == |s| || (s[i] == '/' && i + 1 < |s|)
  {
    var inner := Cat(Escaped('/'), Plus(AnyChar));
    TwoBranches(End, inner, s, i, |s|);
    if Matches(inner, s, i, |s|) {
      var _ := CatWitness(Escaped('/'), Plus(AnyChar), s, i, |s|);
    }
    if i + 1 < |s| && s[i] == '/' {
      var next := i + 1;
      var after := next + 1;
      ManyAny(s, after, |s|);
      assert Matches(AnyChar, s, next, after) && Many(AnyChar, s, after, |s|);
      CatMatches(Escaped('/'), Plus(AnyChar), s, i, next, |s|);
    }
  }

  /** A literal path as an ingress has it: slash-trimmed and more than the root. */
  predicate IsLiteralPath(text: string) {
    IsRequest(text) && |text| > 1 && text[|text| - 1] != '/' && !IsRegexPath(text)
  }

  ghost predicate SameRequests(paths: seq<HttpPath>, r: Regex) {
    forall request :: IsRequest(request) ==> (AnyAdmits(paths, request) <==> WholeMatch(r, request))
  }

  lemma PlainAtStart(text: string, request: string)
    requires '.' !in text
    ensures PlainAt(text, request, 0) <==> text <= request
  {
  }

  lemma NoMeta(text: string)
    requires !IsRegexPath(text)
    ensures FirstMeta(text) == |text| <==> '.' !in text
    ensures FirstMeta(text) < |text| ==> text[FirstMeta(text)] == '.'
  {
  }

  /** Some other character where the text has its dot: matched by the dot only. */
  lemma DotStandIn(text: string) returns (request: string)
    requires IsRequest(text) && '.' in text
    ensures IsRequest(request) && |request| == |text| && request != text && PlainAt(text, request, 0)
  {
    var n :| 0 <= n < |text| && text[n] == '.';
    request := text[n := 'x'];
    assert request[n] != text[n];
  }

  // What HAProxy gets, as strings.

  lemma LiteralAdmits(path: string, rewriteTarget: string, request: string)
    requires !IsRegexPath(path)
    ensures AnyAdmits(HaproxyPaths(path, rewriteTarget), request) <==> Below(path, request)
  {
    PrefixMeans(path, request);
    OnlyPathAdmits(HttpPath(path, Prefix), request);
  }

  lemma LiteralThenGroup(text: string, tail: string)
    requires !IsRegexPath(text) && tail != "" && tail[0] == '('
    ensures IsRegexPath(text + tail)
    ensures var path := text + tail;
            var n := FirstMeta(path);
            n == FirstMeta(text) && n < |path| && path[..n] == text[..n] && !AllowsNothing(path[n])
  {
    var path := text + tail;
    assert DETECTED[0] == '(' && path[|text|] == '(';
    assert IsMeta('(') && FirstMeta(tail) == 0;
    FirstMetaAppend(text, tail);
    NoMeta(text);
  }

  lemma PairEndsInDollar(path: string)
    requires |path| >= 2 && ExactPairLiteral(path).Some?
    ensures path[|path| - 2] == '$'
  {
    assert HasSuffix(path, EXACT_PAIR_ESCAPED) ==> path[|path| - 2] == path[|path| - 7..][5];
    assert HasSuffix(path, EXACT_PAIR) ==> path[|path| - 2] == path[|path| - 6..][4];
  }

  lemma GroupAdmits(text: string, tail: string, rewriteTarget: string, request: string)
    requires !Annotations.HasCaptures(rewriteTarget)
    requires !IsRegexPath(text) && |tail| >= 2 && tail[0] == '(' && tail[|tail| - 2] != '$'
    ensures AnyAdmits(HaproxyPaths(text + tail, rewriteTarget), request) <==> Below(text[..FirstMeta(text)], request)
  {
    hide *;
    var path := text + tail;
    assert path[|path| - 2] == tail[|tail| - 2];
    LiteralThenGroup(text, tail);
    if ExactPairLiteral(text + tail).Some? {
      PairEndsInDollar(text + tail);
    }
    StrippedMeans(text + tail, rewriteTarget, request);
  }

  lemma PairFound(text: string, escaped: bool)
    ensures ExactPairLiteral(text + PairSuffix(escaped)) == LiteralBefore(text)
  {
    var suffix := PairSuffix(escaped);
    var path := text + suffix;
    assert path[|path| - |suffix|..] == suffix && path[..|path| - |suffix|] == text;
    assert HasSuffix(path, EXACT_PAIR_ESCAPED) ==> path[|path| - 4] == path[|path| - 7..][3];
    assert path[|path| - 4] == path[|path| - |suffix|..][|suffix| - 4];
  }

  lemma PairPaths(text: string, escaped: bool, rewriteTarget: string)
    requires !Annotations.HasCaptures(rewriteTarget)
    requires !IsRegexPath(text) && TrimRight(text, '/') != ""
    ensures var t := TrimRight(text, '/');
            HaproxyPaths(text + PairSuffix(escaped), rewriteTarget) == [HttpPath(t, Exact), HttpPath(t + "/", Exact)]
  {
    LiteralThenGroup(text, PairSuffix(escaped));
    PairFound(text, escaped);
    assert !IsRegexPath(TrimRight(text, '/'));
  }

  lemma PairAdmits(t: string, request: string)
    ensures AnyAdmits([HttpPath(t, Exact), HttpPath(t + "/", Exact)], request) <==> request == t || request == t + "/"
  {
    var paths := [HttpPath(t, Exact), HttpPath(t + "/", Exact)];
    assert paths[0].path == t && paths[1].path == t + "/";
  }

  // What the expressions match.

  lemma AnythingBelowMatches(text: string, request: string)
    requires '\n' !in request
    ensures WholeMatch(Cat(Plain(text), OptionalRest()), request)
        <==> PlainAt(text, request, 0) && (|request| == |text| || request[|text|] == '/')
  {
    hide Matches, Plain, OptionalRest, SlashOrEnd, EndOrDeeper;
    PlainThen(text, OptionalRest(), request);
    if |text| <= |request| {
      OptionalRestMatches(request, |text|);
    }
  }

  lemma PairMatches(text: string, escaped: bool, request: string)
    ensures WholeMatch(Cat(Plain(text), SlashOrEnd(escaped)), request)
        <==> PlainAt(text, request, 0) && (|request| == |text| || request[|text|..] == "/")
  {
    hide Matches, Plain, OptionalRest, SlashOrEnd, EndOrDeeper;
    PlainThen(text, SlashOrEnd(escaped), request);
    if |text| <= |request| {
      SlashOrEndMatches(escaped, request, |text|);
    }
  }

  lemma DeeperMatches(text: string, request: string)
    requires '\n' !in request
    ensures WholeMatch(Cat(Plain(text), EndOrDeeper()), request)
        <==> PlainAt(text, request, 0) && (|request| == |text| || (request[|text|] == '/' && |request| > |text| + 1))
  {
    hide Matches, Plain, OptionalRest, SlashOrEnd, EndOrDeeper;
    PlainThen(text, EndOrDeeper(), request);
    if |text| <= |request| {
      EndOrDeeperMatches(request, |text|);
    }
  }

  // The translations that keep the meaning, and when they do.

  /** The HAProxy and the nginx ingress of a literal path admit the same requests exactly when the
    * path has no dot. */
  lemma LiteralPathAgreesIff(path: string, rewriteTarget: string)
    requires IsLiteralPath(path)
    ensures var nginx := Cat(Plain(path), OptionalRest());
            && Show(nginx) == NginxPath(path)
            && (SameRequests(HaproxyPaths(path, rewriteTarget), nginx) <==> '.' !in path)
  {
    hide HaproxyPaths, AnyAdmits, Matches, Plain, OptionalRest;
    var nginx := Cat(Plain(path), OptionalRest());
    ShowOptionalRest();
    if '.' in path {
      var request := DotStandIn(path);
      LiteralAdmits(path, rewriteTarget, request);
      AnythingBelowMatches(path, request);
      TrimNone(path);
      assert WholeMatch(nginx, request) && !AnyAdmits(HaproxyPaths(path, rewriteTarget), request);
    } else {
      forall request | IsRequest(request)
        ensures AnyAdmits(HaproxyPaths(path, rewriteTarget), request) <==> WholeMatch(nginx, request)
      {
        LiteralAdmits(path, rewriteTarget, request);
        BelowIsMatched(path, request);
      }
    }
  }

  lemma BelowIsMatched(text: string, request: string)
    requires IsLiteralPath(text) && '.' !in text && IsRequest(request)
    ensures Below(text, request) <==> WholeMatch(Cat(Plain(text), OptionalRest()), request)
  {
    hide Matches, Plain, OptionalRest;
    TrimNone(text);
    AnythingBelowMatches(text, request);
    PlainAtStart(text, request);
    if text <= request {
      UnderLiteral(text, request);
    }
  }

  /** `literal(/.*)?` keeps its meaning exactly when the literal has no dot, for HAProxy gets only the
    * part before it, and the rewrite target no capture groups, for then HAProxy gets it as it is. */
  lemma OptionalRestAgreesIff(text: string, rewriteTarget: string)
    requires IsLiteralPath(text)
    ensures var r := Cat(Plain(text), OptionalRest());
            && Show(r) == text + REGEX_SUFFIX
            && (SameRequests(HaproxyPaths(Show(r), rewriteTarget), r)
                <==> '.' !in text && !Annotations.HasCaptures(rewriteTarget))
  {
    hide HaproxyPaths, AnyAdmits, Matches, Plain, OptionalRest, Below, Annotations.HasCaptures;
    var r := Cat(Plain(text), OptionalRest());
    var paths := HaproxyPaths(text + REGEX_SUFFIX, rewriteTarget);
    ShowOptionalRest();
    NoMeta(text);
    var n := FirstMeta(text);
    if Annotations.HasCaptures(rewriteTarget) {
      LiteralThenGroup(text, REGEX_SUFFIX);
      CapturesRefuse(text + REGEX_SUFFIX, rewriteTarget, text);
      AnythingBelowMatches(text, text);
      assert WholeMatch(r, text) && !AnyAdmits(paths, text);
    } else if '.' in text {
      var request := DotLoses(text);
      GroupAdmits(text, REGEX_SUFFIX, rewriteTarget, request);
      AnythingBelowMatches(text, request);
      assert WholeMatch(r, request) <==> !AnyAdmits(paths, request);
    } else {
      forall request | IsRequest(request)
        ensures AnyAdmits(paths, request) <==> WholeMatch(r, request)
      {
        GroupAdmits(text, REGEX_SUFFIX, rewriteTarget, request);
        assert text[..n] == text;
        BelowIsMatched(text, request);
      }
    }
  }

  /** A literal with a dot: the literal itself is not below the part before the dot, or that part is a
    * shorter request of its own. */
  lemma DotLoses(text: string) returns (request: string)
    requires IsLiteralPath(text) && '.' in text
    ensures IsRequest(request) && (request == text || |request| < |text|)
    ensures request == text <==> !Below(text[..FirstMeta(text)], request)
  {
    NoMeta(text);
    var n := FirstMeta(text);
    request := if text[n - 1] == '/' then text[..n] else text;
    UnderLiteral(text[..n], request);
  }

  /** `literal($|\/.+)` and the path `literal/` together mean what HAProxy gets for the former, exactly
    * under the same conditions. */
  lemma EndOrDeeperAgreesIff(text: string, rewriteTarget: string)
    requires IsLiteralPath(text)
    ensures var r := Cat(Plain(text), EndOrDeeper());
            && Show(r) == text + "($|\\/.+)"
            && ((forall request :: IsRequest(request) ==>
                   (AnyAdmits(HaproxyPaths(Show(r), rewriteTarget), request) <==> WholeMatch(r, request) || request == text + "/"))
                <==> '.' !in text && !Annotations.HasCaptures(rewriteTarget))
  {
    hide HaproxyPaths, AnyAdmits, Matches, Plain, EndOrDeeper, Below, Annotations.HasCaptures;
    var r := Cat(Plain(text), EndOrDeeper());
    var tail := "($|\\/.+)";
    var paths := HaproxyPaths(text + tail, rewriteTarget);
    ShowEndOrDeeper();
    if Annotations.HasCaptures(rewriteTarget) {
      LiteralThenGroup(text, tail);
      CapturesRefuse(text + tail, rewriteTarget, text);
      DeeperMatches(text, text);
      assert WholeMatch(r, text) && !AnyAdmits(paths, text);
    } else if '.' in text {
      var request := DotLoses(text);
      GroupAdmits(text, tail, rewriteTarget, request);
      DeeperMatches(text, request);
      assert (WholeMatch(r, request) || request == text + "/") <==> !AnyAdmits(paths, request);
    } else {
      NoMeta(text);
      assert text[..FirstMeta(text)] == text;
      forall request | IsRequest(request)
        ensures AnyAdmits(paths, request) <==> WholeMatch(r, request) || request == text + "/"
      {
        GroupAdmits(text, tail, rewriteTarget, request);
        DeeperOrSlash(text, request);
      }
    }
  }

  lemma DeeperOrSlash(text: string, request: string)
    requires IsLiteralPath(text) && '.' !in text && IsRequest(request)
    ensures Below(text, request) <==> WholeMatch(Cat(Plain(text), EndOrDeeper()), request) || request == text + "/"
  {
    hide Matches, Plain, EndOrDeeper, Below;
    DeeperMatches(text, request);
    PlainAtStart(text, request);
    if text <= request {
      UnderLiteral(text, request);
    } else {
      NotUnder(text, request);
    }
  }

  lemma NotUnder(text: string, request: string)
    requires IsLiteralPath(text) && !(text <= request)
    ensures !Below(text, request)
  {
    TrimNone(text);
  }

  lemma PairAgrees(text: string, escaped: bool, request: string)
    requires '.' !in text
    ensures WholeMatch(Cat(Plain(text), SlashOrEnd(escaped)), request) <==> request == text || request == text + "/"
  {
    hide *;
    PairMatches(text, escaped, request);
    PlainAtStart(text, request);
    if text <= request {
      assert request == text + request[|text|..];
    }
  }

  /** `literal($|/$)`, with or without the backslash, keeps its meaning as two Exact paths exactly
    * when the literal has no dot and no slash at its end, and the rewrite target no capture groups. */
  lemma ExactPairAgreesIff(text: string, escaped: bool, rewriteTarget: string)
    requires IsRequest(text) && !IsRegexPath(text) && TrimRight(text, '/') != ""
    ensures var r := Cat(Plain(text), SlashOrEnd(escaped));
            && Show(r) == text + PairSuffix(escaped)
            && (SameRequests(HaproxyPaths(Show(r), rewriteTarget), r)
                <==> '.' !in text && text[|text| - 1] != '/' && !Annotations.HasCaptures(rewriteTarget))
  {
    hide HaproxyPaths, AnyAdmits, Matches, Plain, SlashOrEnd, PairSuffix, IsRegexPath, Annotations.HasCaptures;
    var r := Cat(Plain(text), SlashOrEnd(escaped));
    ShowSlashOrEnd(escaped);
    var paths := HaproxyPaths(Show(r), rewriteTarget);
    if Annotations.HasCaptures(rewriteTarget) {
      PairIsRegex(text, escaped);
      CapturesRefuse(text + PairSuffix(escaped), rewriteTarget, text);
      PairMatches(text, escaped, text);
      assert WholeMatch(r, text) && !AnyAdmits(paths, text);
    } else {
      PairPaths(text, escaped, rewriteTarget);
      if text[|text| - 1] == '/' {
        var t := TrimRight(text, '/');
        PairAdmits(t, t);
        PairMatches(text, escaped, t);
        assert AnyAdmits(paths, t) && !WholeMatch(r, t);
      } else if '.' in text {
        TrimNone(text);
        var request := DotStandIn(text);
        PairAdmits(text, request);
        PairMatches(text, escaped, request);
        assert !AnyAdmits(paths, request) && WholeMatch(r, request);
      } else {
        TrimNone(text);
        forall request | IsRequest(request)
          ensures AnyAdmits(paths, request) <==> WholeMatch(r, request)
        {
          PairAdmits(text, request);
          PairAgrees(text, escaped, request);
        }
      }
    }
  }

  lemma PairIsRegex(text: string, escaped: bool)
    requires !IsRegexPath(text)
    ensures IsRegexPath(text + PairSuffix(escaped))
  {
    LiteralThenGroup(text, PairSuffix(escaped));
  }

  lemma WithSlash(text: string)
    requires !IsRegexPath(text) && '.' !in text
    ensures !IsRegexPath(text + "/") && '.' !in text + "/"
  {
    var below := text + "/";
    assert forall i :: 0 <= i < |below| ==> below[i] == if i < |text| then text[i] else '/';
    assert !IsDetected('/');
  }

  /** An expression that goes on from `literal/` with a group loses no request without capture groups
    * in the rewrite target, and with them every request free of metacharacters. */
  lemma GroupBelowIsCovered(text: string, branches: Branches, rest: Regex, rewriteTarget: string, request: string)
    requires !IsRegexPath(text) && '.' !in text && WellFormedBranches(branches) && WellFormed(rest)
    requires var r := Cat(Plain(text + "/"), Cat(Group(branches), rest));
             ExactPairLiteral(Show(r)).None? && IsRequest(request) && WholeMatch(r, request)
    ensures var paths := HaproxyPaths(Show(Cat(Plain(text + "/"), Cat(Group(branches), rest))), rewriteTarget);
            && (!Annotations.HasCaptures(rewriteTarget) ==> AnyAdmits(paths, request))
            && (!IsRegexPath(request) ==> (AnyAdmits(paths, request) <==> !Annotations.HasCaptures(rewriteTarget)))
  {
    hide HaproxyPaths, AnyAdmits, Matches, Plain, ExactPairLiteral, WellFormedBranches, Below, Annotations.HasCaptures;
    var below, tail := text + "/", Cat(Group(branches), rest);
    WithSlash(text);
    assert Show(Group(branches)) == "(" + ShowBranches(branches) + ")";
    assert Show(tail) == Show(Group(branches)) + Show(rest);
    LiteralThenGroup(below, Show(tail));
    NoMeta(below);
    if Annotations.HasCaptures(rewriteTarget) && !IsRegexPath(request) {
      CapturesRefuse(below + Show(tail), rewriteTarget, request);
    } else if !Annotations.HasCaptures(rewriteTarget) {
      StrippedAdmitsIff(Cat(Plain(below), tail), rewriteTarget, request);
    }
  }

  /** `literal/(.*)`. */
  function Captured(text: string): Regex {
    Cat(Plain(text + "/"), Group(Last(Star(AnyChar))))
  }

  /** All that an ingress `literal/(.*)` is for, requests below the literal, it loses to a rewrite
    * target with capture groups. */
  lemma CapturesLose(text: string, rewriteTarget: string, request: string)
    requires IsLiteralPath(text) && '.' !in text && Annotations.HasCaptures(rewriteTarget)
    requires IsRequest(request) && text + "/" <= request && !IsRegexPath(request)
    ensures var path := text + "/(.*)";
            && Show(Captured(text)) == path && WholeMatch(Captured(text), request)
            && AnyAdmits(HaproxyPaths(path, ""), request) && !AnyAdmits(HaproxyPaths(path, rewriteTarget), request)
  {
    hide HaproxyPaths, AnyAdmits, Plain, IsRegexPath, Below, ExactPairLiteral;
    var tail := "(.*)";
    var below := text + "/";
    CapturedMatches(text, request);
    WithSlash(text);
    LiteralThenGroup(below, tail);
    assert below + tail == text + "/(.*)";
    CapturesRefuse(below + tail, rewriteTarget, request);
    GroupAdmits(below, tail, "", request);
    NoMeta(below);
    assert below[..FirstMeta(below)] == below;
    UnderLiteral(below, request);
  }

  lemma CapturedMatches(text: string, request: string)
    requires '.' !in text && IsRequest(request) && text + "/" <= request
    ensures Show(Captured(text)) == text + "/(.*)" && WholeMatch(Captured(text), request)
  {
    var below := text + "/";
    var star := Star(AnyChar);
    assert ShowAtom(AnyChar) == "." && Show(star) == ".*";
    assert ShowBranches(Last(star)) == ".*" && Show(Group(Last(star))) == "(.*)";
    assert below + "(.*)" == text + "/(.*)";
    ManyAny(request, |below|, |request|);
    OneBranch(star, request, |below|, |request|);
    assert '.' !in below;
    PlainAtStart(below, request);
    PlainThen(below, Group(Last(star)), request);
  }

  /** For instance `/foo/(.*)` with the rewrite target `/$1`. */
  lemma CapturesLoseFoo(request: string)
    requires IsRequest(request) && "/foo/" <= request && !IsRegexPath(request)
    ensures WholeMatch(Captured("/foo"), request)
    ensures AnyAdmits(HaproxyPaths("/foo/(.*)", ""), request) && !AnyAdmits(HaproxyPaths("/foo/(.*)", "/$1"), request)
  {
    hide HaproxyPaths, AnyAdmits, Matches;
    assert "/$1"[1] == '$' && Annotations.IsDigit("/$1"[2]);
    assert "/foo" + "/" == "/foo/" && "/foo" + "/(.*)" == "/foo/(.*)";
    CapturesLose("/foo", "/$1", request);
  }

  /** A character made optional by '?' loses the requests without it, whatever the rewrite target. */
  lemma OptionalCharacterIsLost(text: string, c: char, rewriteTarget: string)
    requires IsLiteralPath(text) && '.' !in text && !IsMeta(c) && c != '/'
    ensures var r := Cat(Plain(text), Opt(Char(c)));
            Show(r) == text + [c, '?'] && WholeMatch(r, text) && !AnyAdmits(HaproxyPaths(Show(r), rewriteTarget), text)
  {
    hide HaproxyPaths, AnyAdmits, Plain, ExactPairLiteral, Annotations.HasCaptures;
    var tail := [c, '?'];
    var path := text + tail;
    assert ShowAtom(Char(c)) == [c];
    assert Show(Opt(Char(c))) == [c] + "?" == tail;
    assert path[|path| - 2] == c && path[|path| - 1] == '?';
    if ExactPairLiteral(path).Some? {
      PairEndsInDollar(path);
    }
    assert DETECTED[11] == '?' && IsDetected(path[|text| + 1]);
    NoMeta(text);
    FirstMetaAppend(text, tail);
    assert FirstMeta(tail[1..]) == 0 && FirstMeta(tail) == 1;
    assert path[..|text| + 1] == text + [c];
    TrimNone(text + [c]);
    if Annotations.HasCaptures(rewriteTarget) {
      CapturesRefuse(path, rewriteTarget, text);
    } else {
      StrippedMeans(path, rewriteTarget, text);
    }
    PlainAtStart(text, text);
    PlainThen(text, Opt(Char(c)), text);
  }

  // ---------------------------------------------------------------------------------------------
  // nginx gets the path with `(/.*)?` behind it
  // ---------------------------------------------------------------------------------------------

  /** What the nginx ingress of an expression matches, HAProxy admits on the same terms. */
  lemma NginxStrippedAdmitsIff(r: Regex, rewriteTarget: string, request: string)
    requires WellFormed(r) && IsRegexPath(Show(r)) && ExactPairLiteral(Show(r)).None? && !IsCut(Show(r)) && |Show(r)| > 1
    requires IsRequest(request) && WholeMatch(Cat(r, OptionalRest()), request)
    ensures var path := Show(r);
            var n := FirstMeta(path);
            && Show(Cat(r, OptionalRest())) == NginxPath(path)
            && path[..n] <= request
            && (AnyAdmits(HaproxyPaths(path, rewriteTarget), request)
                <==> if Annotations.HasCaptures(rewriteTarget) then Below(path, request)
                     else n == 0 || path[n - 1] == '/' || |request| == n || request[n] == '/')
  {
    hide HaproxyPaths, AnyAdmits, Matches, ExactPairLiteral, Below, Annotations.HasCaptures, StartsAs, OptionalRest, IsCut, IsRegexPath;
    assert WellFormed(OptionalRest()) by { OptionalRestWellFormed(); }
    var path := Show(r);
    ShowOptionalRest();
    RegexHasMeta(path);
    assert IsOpen(path);
    LiteralStartIsMatched(Cat(r, OptionalRest()), request, 0, |request|);
    StartsAsPrefix(path, REGEX_SUFFIX, request);
    UncutAdmitsIff(path, rewriteTarget, request);
  }

  lemma OptionalRestWellFormed()
    ensures WellFormed(OptionalRest())
  {
    assert !IsMeta('/');
  }

  lemma RegexHasMeta(path: string)
    requires IsRegexPath(path)
    ensures FirstMeta(path) < |path|
  {
    var i :| 0 <= i < |path| && IsDetected(path[i]);
    assert IsMeta(path[i]);
  }

  lemma StartsAsPrefix(path: string, tail: string, s: string)
    requires IsOpen(path) && StartsAs(path + tail, s, 0, |s|)
    ensures StartsAs(path, s, 0, |s|)
  {
    hide Literal, IsOpen, IsCut;
    LiteralAppend(path, tail);
  }

  /** Behind an exact pair the suffix adds nothing, so the two Exact paths agree with nginx exactly
    * when they agree with the expression. */
  lemma NginxPairAgreesIff(text: string, escaped: bool, rewriteTarget: string)
    requires IsRequest(text) && !IsRegexPath(text) && TrimRight(text, '/') != ""
    ensures var r := Cat(Cat(Plain(text), SlashOrEnd(escaped)), OptionalRest());
            && Show(r) == NginxPath(text + PairSuffix(escaped))
            && (SameRequests(HaproxyPaths(text + PairSuffix(escaped), rewriteTarget), r)
                <==> '.' !in text && text[|text| - 1] != '/' && !Annotations.HasCaptures(rewriteTarget))
  {
    hide HaproxyPaths, AnyAdmits, Matches, Plain, SlashOrEnd, OptionalRest, IsRegexPath, Annotations.HasCaptures;
    var pair := Cat(Plain(text), SlashOrEnd(escaped));
    ShowSlashOrEnd(escaped);
    ShowOptionalRest();
    ExactPairAgreesIff(text, escaped, rewriteTarget);
    forall request | IsRequest(request)
      ensures WholeMatch(Cat(pair, OptionalRest()), request) <==> WholeMatch(pair, request)
    {
      PairThenRest(text, escaped, request);
    }
  }

  lemma PairThenRest(text: string, escaped: bool, request: string)
    requires '\n' !in request
    ensures var pair := Cat(Plain(text), SlashOrEnd(escaped));
            WholeMatch(Cat(pair, OptionalRest()), request) <==> WholeMatch(pair, request)
  {
    hide Plain, OptionalRest, SlashOrEnd, Matches;
    var pair := Cat(Plain(text), SlashOrEnd(escaped));
    var n := |request|;
    OptionalRestMatches(request, n);
    if WholeMatch(Cat(pair, OptionalRest()), request) {
      var k := CatWitness(pair, OptionalRest(), request, 0, n);
      var j := CatWitness(Plain(text), SlashOrEnd(escaped), request, 0, k);
      PairReachesEnd(escaped, request, j, k);
    }
    if WholeMatch(pair, request) {
      CatMatches(pair, OptionalRest(), request, 0, n, n);
    }
  }

  lemma PairReachesEnd(escaped: bool, s: string, i: nat, j: nat)
    requires i <= j <= |s| && Matches(SlashOrEnd(escaped), s, i, j)
    ensures j == |s|
  {
    var inner := Cat(Slash(escaped), End);
    TwoBranches(End, inner, s, i, j);
    if Matches(inner, s, i, j) {
      var _ := CatWitness(Slash(escaped), End, s, i, j);
    }
  }

  /** For `literal(/.*)?` the suffix adds nothing either. */
  lemma NginxOptionalRestAgreesIff(text: string, rewriteTarget: string)
    requires IsLiteralPath(text)
    ensures var r := Cat(Cat(Plain(text), OptionalRest()), OptionalRest());
            && Show(r) == NginxPath(text + REGEX_SUFFIX)
            && (SameRequests(HaproxyPaths(text + REGEX_SUFFIX, rewriteTarget), r)
                <==> '.' !in text && !Annotations.HasCaptures(rewriteTarget))
  {
    hide HaproxyPaths, AnyAdmits, Matches, Plain, OptionalRest, Annotations.HasCaptures;
    var once := Cat(Plain(text), OptionalRest());
    ShowOptionalRest();
    OptionalRestAgreesIff(text, rewriteTarget);
    forall request | IsRequest(request)
      ensures WholeMatch(Cat(once, OptionalRest()), request) <==> WholeMatch(once, request)
    {
      RestTwice(text, request);
    }
  }

  lemma RestTwice(text: string, request: string)
    requires '\n' !in request
    ensures var once := Cat(Plain(text), OptionalRest());
            WholeMatch(Cat(once, OptionalRest()), request) <==> WholeMatch(once, request)
  {
    hide Plain, OptionalRest, Matches;
    var once := Cat(Plain(text), OptionalRest());
    var n := |request|;
    OptionalRestMatches(request, n);
    if WholeMatch(Cat(once, OptionalRest()), request) {
      var k := CatWitness(once, OptionalRest(), request, 0, n);
      var j := CatWitness(Plain(text), OptionalRest(), request, 0, k);
      PlainMatches(text, request, 0, j);
      OptionalRestMatches(request, k);
      RestStarts(request, j, k);
      AnythingBelowMatches(text, request);
    }
    if WholeMatch(once, request) {
      CatMatches(once, OptionalRest(), request, 0, n, n);
    }
  }

  lemma RestStarts(s: string, i: nat, j: nat)
    requires i <= j <= |s| && Matches(OptionalRest(), s, i, j)
    ensures i == j || s[i] == '/'
  {
    var inner := Cat(Char('/'), Star(AnyChar));
    OneBranch(inner, s, i, j);
    if Matches(inner, s, i, j) {
      var _ := CatWitness(Char('/'), Star(AnyChar), s, i, j);
    }
  }
}
