/** From a domain to ingress classes: those configured for the longest matching domain suffix. */
module IngressClasses {
  import opened Strings
  import opened Wrappers

  datatype Mapping = Mapping(suffix: string, class_: string)

  /** The longest suffix of the domain among the entries, "" when there is none. */
  function Longest(entries: seq<Mapping>, domain: string): string {
    if entries == [] then ""
    else
      var best, last := Longest(entries[..|entries| - 1], domain), entries[|entries| - 1].suffix;
      if HasSuffix(domain, last) && |last| > |best| then last else best
  }

  /** The classes of a suffix, in the order of the entries. */
  function ClassesOf(entries: seq<Mapping>, suffix: string): seq<string> {
    if entries == [] then []
    else
      var last := entries[|entries| - 1];
      ClassesOf(entries[..|entries| - 1], suffix) + if last.suffix == suffix then [last.class_] else []
  }

  function Classes(entries: seq<Mapping>, domain: string): Option<seq<string>> {
    var classes := ClassesOf(entries, Longest(entries, domain));
    if classes == [] then None else Some(classes)
  }

  /** None is the error that the domain cannot be used in the cluster. */
  method GetIngressClasses(entries: seq<Mapping>, domain: string) returns (r: Option<seq<string>>)
    ensures r == Classes(entries, domain)
  {
    var longest := "";
    for i := 0 to |entries|
      invariant longest == Longest(entries[..i], domain)
    {
      assert entries[..i + 1][..i] == entries[..i];
      if HasSuffix(domain, entries[i].suffix) {
        if |entries[i].suffix| > |longest| {
          longest := entries[i].suffix;
        }
      }
    }
    assert entries[..|entries|] == entries;
    var classes := [];
    for i := 0 to |entries|
      invariant classes == ClassesOf(entries[..i], longest)
    {
      assert entries[..i + 1][..i] == entries[..i];
      if entries[i].suffix == longest {
        classes := classes + [entries[i].class_];
      }
    }
    r := if |classes| == 0 then None else Some(classes);
  }

  // ---------------------------------------------------------------------------------------------
  // What it returns
  // ---------------------------------------------------------------------------------------------

  predicate Matching(entries: seq<Mapping>, domain: string, suffix: string) {
    && |suffix| <= |domain| && domain[|domain| - |suffix|..] == suffix
    && exists i :: 0 <= i < |entries| && entries[i].suffix == suffix
  }

  /** Configured, matching, and no shorter than any other that matches. */
  ghost predicate IsLongest(entries: seq<Mapping>, domain: string, suffix: string) {
    Matching(entries, domain, suffix) && forall s :: Matching(entries, domain, s) ==> |s| <= |suffix|
  }

  lemma LongestIsUnique(entries: seq<Mapping>, domain: string, s: string, t: string)
    requires IsLongest(entries, domain, s) && IsLongest(entries, domain, t)
    ensures s == t
  {
    assert |s| == |t|;
  }

  lemma MatchingSnoc(entries: seq<Mapping>, domain: string, s: string)
    requires entries != []
    ensures var n := |entries| - 1;
            Matching(entries, domain, s)
            <==> Matching(entries[..n], domain, s) || (entries[n].suffix == s && HasSuffix(domain, s))
  {
    var n := |entries| - 1;
    assert entries[n].suffix == s ==> exists i :: 0 <= i < |entries| && entries[i].suffix == s;
    if i :| 0 <= i < n && entries[..n][i].suffix == s {
      assert entries[i].suffix == s;
    }
    if i :| 0 <= i < n && entries[i].suffix == s {
      assert entries[..n][i].suffix == s;
    }
  }

  lemma {:induction false} LongestBounds(entries: seq<Mapping>, domain: string)
    ensures var best := Longest(entries, domain);
            && HasSuffix(domain, best)
            && (best != "" ==> Matching(entries, domain, best))
            && (forall s :: Matching(entries, domain, s) ==> |s| <= |best|)
  {
    if entries == [] {
      assert domain[|domain|..] == "";
    } else {
      hide Matching, HasSuffix;
      LongestBounds(entries[..|entries| - 1], domain);
      forall s
        ensures Matching(entries, domain, s) <==>
                  || Matching(entries[..|entries| - 1], domain, s)
                  || (entries[|entries| - 1].suffix == s && HasSuffix(domain, s))
      {
        MatchingSnoc(entries, domain, s);
      }
    }
  }

  lemma {:induction false} ClassesOfNone(entries: seq<Mapping>, suffix: string)
    ensures ClassesOf(entries, suffix) == [] <==> forall i :: 0 <= i < |entries| ==> entries[i].suffix != suffix
  {
    if entries != [] {
      var n := |entries| - 1;
      ClassesOfNone(entries[..n], suffix);
      assert forall i :: 0 <= i < n ==> entries[..n][i] == entries[i];
    }
  }

  /** An error exactly when no configured suffix matches the domain. */
  lemma UnusableIff(entries: seq<Mapping>, domain: string)
    ensures Classes(entries, domain).None? <==> forall s :: !Matching(entries, domain, s)
  {
    hide Longest, ClassesOf;
    var best := Longest(entries, domain);
    LongestBounds(entries, domain);
    ClassesOfNone(entries, best);
    if s :| Matching(entries, domain, s) {
      assert best == "" ==> s == best;
      assert Matching(entries, domain, best);
    } else {
      assert !Matching(entries, domain, best);
    }
  }

  /** Otherwise, in the order of the entries, the classes of the one longest suffix that matches. */
  lemma LongestSuffixWins(entries: seq<Mapping>, domain: string, suffix: string)
    requires IsLongest(entries, domain, suffix)
    ensures Classes(entries, domain) == Some(ClassesOf(entries, suffix))
  {
    hide Longest, ClassesOf, HasSuffix;
    var best := Longest(entries, domain);
    LongestBounds(entries, domain);
    UnusableIff(entries, domain);
    assert best != "" ==> Matching(entries, domain, best);
    assert |best| == |suffix|;
    SameSuffix(domain, best, suffix);
  }

  /** The domain selects a class: one configured for the longest suffix that matches. */
  ghost predicate HostSelects(entries: seq<Mapping>, domain: string, class_: string) {
    exists s :: IsLongest(entries, domain, s) && Mapping(s, class_) in entries
  }

  /** Some suffix is the longest one, when any matches. */
  lemma SomeIsLongest(entries: seq<Mapping>, domain: string)
    requires exists s :: Matching(entries, domain, s)
    ensures IsLongest(entries, domain, Longest(entries, domain))
  {
    hide Longest;
    LongestBounds(entries, domain);
    var s :| Matching(entries, domain, s);
    if Longest(entries, domain) == "" {
      assert s == "";
    }
  }

  /** A class is among those returned exactly when it is configured for the longest matching suffix. */
  lemma SelectedIff(entries: seq<Mapping>, domain: string, class_: string)
    ensures (Classes(entries, domain).Some? && class_ in Classes(entries, domain).value) <==> HostSelects(entries, domain, class_)
  {
    hide Longest, ClassesOf, Classes, Matching;
    UnusableIff(entries, domain);
    if Classes(entries, domain).Some? {
      SomeIsLongest(entries, domain);
      var best := Longest(entries, domain);
      LongestSuffixWins(entries, domain, best);
      ClassesOfMembers(entries, best, class_);
      assert class_ in ClassesOf(entries, best) <==> class_ in multiset(ClassesOf(entries, best));
      assert Mapping(best, class_) in entries <==> Mapping(best, class_) in multiset(entries);
      forall s | IsLongest(entries, domain, s) ensures s == best {
        LongestIsUnique(entries, domain, s, best);
      }
    }
  }

  lemma ClassesOfSnoc(entries: seq<Mapping>, entry: Mapping, suffix: string)
    ensures ClassesOf(entries + [entry], suffix) == ClassesOf(entries, suffix) + if entry.suffix == suffix then [entry.class_] else []
  {
    assert (entries + [entry])[..|entries|] == entries;
  }

  /** The classes of a suffix are in the order of the entries. */
  lemma {:induction false} ClassesInOrder(a: seq<Mapping>, b: seq<Mapping>, suffix: string)
    ensures ClassesOf(a + b, suffix) == ClassesOf(a, suffix) + ClassesOf(b, suffix)
    ensures |b| == 1 ==> ClassesOf(b, suffix) == if b[0].suffix == suffix then [b[0].class_] else []
  {
    hide ClassesOf;
    if b == [] {
      assert a + b == a;
      NoClasses(suffix);
    } else {
      var n := |b| - 1;
      ClassesInOrder(a, b[..n], suffix);
      assert a + b == (a + b[..n]) + [b[n]] && b == b[..n] + [b[n]];
      ClassesOfSnoc(a + b[..n], b[n], suffix);
      ClassesOfSnoc(b[..n], b[n], suffix);
      NoClasses(suffix);
    }
  }

  lemma NoClasses(suffix: string)
    ensures ClassesOf([], suffix) == []
  {
  }

  lemma SameSuffix(domain: string, s: string, t: string)
    requires HasSuffix(domain, s) && HasSuffix(domain, t) && |s| == |t|
    ensures s == t
  {
  }

  // ---------------------------------------------------------------------------------------------
  // The order of the configuration
  // ---------------------------------------------------------------------------------------------

  lemma {:induction false} ClassesOfMembers(entries: seq<Mapping>, suffix: string, class_: string)
    ensures multiset(ClassesOf(entries, suffix))[class_] == multiset(entries)[Mapping(suffix, class_)]
  {
    if entries != [] {
      var n := |entries| - 1;
      ClassesOfMembers(entries[..n], suffix, class_);
      assert entries == entries[..n] + [entries[n]];
    }
  }

  lemma MatchingMembers(xs: seq<Mapping>, ys: seq<Mapping>, domain: string, s: string)
    requires multiset(xs) == multiset(ys) && Matching(xs, domain, s)
    ensures Matching(ys, domain, s)
  {
    var i :| 0 <= i < |xs| && xs[i].suffix == s;
    assert xs[i] in multiset(ys);
    var j :| 0 <= j < |ys| && ys[j] == xs[i];
    assert ys[j].suffix == s;
  }

  lemma SameLongest(xs: seq<Mapping>, ys: seq<Mapping>, domain: string)
    requires multiset(xs) == multiset(ys)
    ensures Longest(xs, domain) == Longest(ys, domain)
  {
    var s, t := Longest(xs, domain), Longest(ys, domain);
    LongestBounds(xs, domain);
    LongestBounds(ys, domain);
    if s != "" { MatchingMembers(xs, ys, domain, s); }
    if t != "" { MatchingMembers(ys, xs, domain, t); }
    assert |s| == |t|;
  }

  /** As a multiset the classes do not depend on the order of the configuration. */
  lemma OrderIndependent(xs: seq<Mapping>, ys: seq<Mapping>, domain: string)
    requires multiset(xs) == multiset(ys)
    ensures var a, b := Classes(xs, domain), Classes(ys, domain);
            (a.None? <==> b.None?) && (a.Some? ==> multiset(a.value) == multiset(b.value))
  {
    SameLongest(xs, ys, domain);
    var suffix := Longest(xs, domain);
    var a, b := ClassesOf(xs, suffix), ClassesOf(ys, suffix);
    forall c ensures multiset(a)[c] == multiset(b)[c] {
      ClassesOfMembers(xs, suffix, c);
      ClassesOfMembers(ys, suffix, c);
    }
    assert multiset(a) == multiset(b);
    assert |multiset(a)| == |a| && |multiset(b)| == |b|;
  }
}
