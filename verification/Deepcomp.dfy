/** The golden-test comparator, over JSON trees without null: `Exact` reports every difference
  * between an expected and an actual tree, `Subset` forgives what the actual tree has in excess.
  */
module Deepcomp {
  import opened Wrappers

  datatype Json =
    | Bool(b: bool)
    | Number(n: real)
    | Str(s: string)
    | Arr(elems: seq<Json>)
    | Obj(fields: map<string, Json>)

  datatype MatchType = MatchExact | MatchSubset

  datatype ErrorType = ErrMissingField | ErrExtraField | ErrTypeDiffers | ErrValueDiffers

  datatype Step = Field(key: string) | Index(i: nat)

  type Path = seq<Step>

  datatype Diff = Diff(path: Path, ty: ErrorType)

  predicate SameKind(e: Json, a: Json) {
    || (e.Bool? && a.Bool?)
    || (e.Number? && a.Number?)
    || (e.Str? && a.Str?)
    || (e.Arr? && a.Arr?)
    || (e.Obj? && a.Obj?)
  }

  // ---------------------------------------------------------------------------------------------
  // What the two modes mean, independent of how they are computed
  // ---------------------------------------------------------------------------------------------

  ghost predicate Increasing(f: seq<nat>) {
    forall i, j :: 0 <= i < j < |f| ==> f[i] < f[j]
  }

  /** The expected tree embeds in the actual one: equal scalars, every expected key present with an
    * embedded child, and array elements matched in order by some strictly increasing index map.
    */
  ghost predicate Embeds(e: Json, a: Json)
    decreases e
  {
    match e
    case Arr(es) =>
      a.Arr? &&
      exists f: seq<nat> ::
        |f| == |es| && Increasing(f) &&
        forall i :: 0 <= i < |es| ==> f[i] < |a.elems| && Embeds(es[i], a.elems[f[i]])
    case Obj(fields) =>
      a.Obj? && forall k :: k in fields ==> k in a.fields && Embeds(fields[k], a.fields[k])
    case _ => e == a
  }

  /** `f` places `es[ai..]` into `xs[bi..]` in order. */
  ghost predicate Places(es: seq<Json>, xs: seq<Json>, ai: nat, bi: nat, f: seq<nat>)
    requires ai <= |es|
  {
    && |f| == |es| - ai
    && Increasing(f)
    && forall i :: 0 <= i < |f| ==> bi <= f[i] < |xs| && Embeds(es[ai + i], xs[f[i]])
  }

  ghost predicate Placeable(es: seq<Json>, xs: seq<Json>, ai: nat, bi: nat)
    requires ai <= |es|
  {
    exists f: seq<nat> :: Places(es, xs, ai, bi, f)
  }

  // ---------------------------------------------------------------------------------------------
  // The set of differences the comparator reports
  // ---------------------------------------------------------------------------------------------

  ghost predicate Clean(ds: set<Diff>) {
    forall d :: d in ds ==> d.ty == ErrExtraField
  }

  ghost function Diffs(m: MatchType, e: Json, a: Json, path: Path): set<Diff>
    decreases e, 1, 0
  {
    if !SameKind(e, a) then {Diff(path, ErrTypeDiffers)}
    else
      match e
      case Arr(_) =>
        if m.MatchExact? then ElementDiffs(m, e, a, path)
        else if e.elems == [] then {}
        else GreedyDiffs(m, e, a, path, 0, 0, {})
      case Obj(_) => FieldDiffs(m, e, a, path)
      case _ => if e == a then {} else {Diff(path, ErrValueDiffers)}
  }

  /** Expected keys, among `keys`, that the actual object lacks. */
  ghost function MissingKeys(e: Json, a: Json, path: Path, keys: set<string>): set<Diff>
    requires e.Obj? && a.Obj?
  {
    set k | k in keys && k !in a.fields :: Diff(path + [Field(k)], ErrMissingField)
  }

  ghost function ChildDiffs(m: MatchType, e: Json, a: Json, path: Path, keys: set<string>): set<Diff>
    requires e.Obj? && a.Obj? && keys <= e.fields.Keys
    decreases e, 0, 0
  {
    set k, d | k in keys && k in a.fields && d in Diffs(m, e.fields[k], a.fields[k], path + [Field(k)]) :: d
  }

  /** Actual keys, among `keys`, that were not expected. */
  ghost function ExtraKeys(e: Json, a: Json, path: Path, keys: set<string>): set<Diff>
    requires e.Obj? && a.Obj?
  {
    set k | k in keys && k !in e.fields :: Diff(path + [Field(k)], ErrExtraField)
  }

  /** Extra keys are only searched for when the two objects differ in size. */
  ghost function FieldDiffs(m: MatchType, e: Json, a: Json, path: Path): set<Diff>
    requires e.Obj? && a.Obj?
    decreases e, 0, 1
  {
    MissingKeys(e, a, path, e.fields.Keys)
    + ChildDiffs(m, e, a, path, e.fields.Keys)
    + (if |e.fields| == |a.fields| then {} else ExtraKeys(e, a, path, a.fields.Keys))
  }

  ghost function PairwiseDiffs(m: MatchType, e: Json, a: Json, path: Path, n: nat): set<Diff>
    requires e.Arr? && a.Arr? && n <= |e.elems| && n <= |a.elems|
    decreases e, 0, 0
  {
    set i, d | 0 <= i < n && d in Diffs(m, e.elems[i], a.elems[i], path + [Index(i)]) :: d
  }

  ghost function ElementDiffs(m: MatchType, e: Json, a: Json, path: Path): set<Diff>
    requires e.Arr? && a.Arr?
    decreases e, 0, 1
  {
    if |e.elems| > |a.elems| then PairwiseDiffs(m, e, a, path, |a.elems|) + {Diff(path, ErrMissingField)}
    else if |e.elems| < |a.elems| then PairwiseDiffs(m, e, a, path, |e.elems|) + {Diff(path, ErrExtraField)}
    else PairwiseDiffs(m, e, a, path, |e.elems|)
  }

  /** The one-pass ordered search: the next expected element is looked for from position `bi` on. */
  ghost function GreedyDiffs(m: MatchType, e: Json, a: Json, path: Path, ai: nat, bi: nat, last: set<Diff>): set<Diff>
    requires e.Arr? && a.Arr? && ai <= |e.elems| && bi <= |a.elems|
    decreases e, 0, |a.elems| - bi
  {
    if ai == |e.elems| then (if bi == |a.elems| then last else {})
    else if bi == |a.elems| then {Diff(path, ErrMissingField)}
    else
      var ds := Diffs(m, e.elems[ai], a.elems[bi], path + [Index(ai)]);
      GreedyDiffs(m, e, a, path, if Clean(ds) then ai + 1 else ai, bi + 1, ds)
  }

  // ---------------------------------------------------------------------------------------------
  // Exact: no difference exactly when the trees are equal
  // ---------------------------------------------------------------------------------------------

  /** Extra keys are only searched for when the sizes differ; equal sizes leave none to find. */
  lemma SameSizeSameKeys<K, V>(x: map<K, V>, y: map<K, V>)
    requires x.Keys <= y.Keys && |x| == |y|
    ensures x.Keys == y.Keys
  {
    assert y.Keys == x.Keys + (y.Keys - x.Keys);
    assert |y.Keys| == |x.Keys| + |y.Keys - x.Keys|;
  }

  lemma {:induction false} ExactIsEquality(e: Json, a: Json, path: Path)
    ensures Diffs(MatchExact, e, a, path) == {} <==> e == a
    decreases e
  {
    if e.Arr? && a.Arr? {
      forall i | 0 <= i < |e.elems| && i < |a.elems|
        ensures Diffs(MatchExact, e.elems[i], a.elems[i], path + [Index(i)]) == {} <==> e.elems[i] == a.elems[i]
      {
        ExactIsEquality(e.elems[i], a.elems[i], path + [Index(i)]);
      }
      ExactElements(e, a, path);
    } else if e.Obj? && a.Obj? {
      forall k | k in e.fields && k in a.fields
        ensures Diffs(MatchExact, e.fields[k], a.fields[k], path + [Field(k)]) == {} <==> e.fields[k] == a.fields[k]
      {
        ExactIsEquality(e.fields[k], a.fields[k], path + [Field(k)]);
      }
      ExactFields(e, a, path);
    }
  }

  lemma ExactElements(e: Json, a: Json, path: Path)
    requires e.Arr? && a.Arr?
    requires forall i :: 0 <= i < |e.elems| && i < |a.elems| ==>
               (Diffs(MatchExact, e.elems[i], a.elems[i], path + [Index(i)]) == {} <==> e.elems[i] == a.elems[i])
    ensures ElementDiffs(MatchExact, e, a, path) == {} <==> e == a
  {
    var ds := ElementDiffs(MatchExact, e, a, path);
    assert |e.elems| > |a.elems| ==> Diff(path, ErrMissingField) in ds;
    assert |e.elems| < |a.elems| ==> Diff(path, ErrExtraField) in ds;
    var n := if |e.elems| < |a.elems| then |e.elems| else |a.elems|;
    assert PairwiseDiffs(MatchExact, e, a, path, n) <= ds;
    assert forall i :: 0 <= i < n ==>
        Diffs(MatchExact, e.elems[i], a.elems[i], path + [Index(i)]) <= PairwiseDiffs(MatchExact, e, a, path, n);
    if ds == {} {
      forall i | 0 <= i < |e.elems|
        ensures e.elems[i] == a.elems[i]
      {
        assert Diffs(MatchExact, e.elems[i], a.elems[i], path + [Index(i)]) <= PairwiseDiffs(MatchExact, e, a, path, n);
      }
    }
  }

  lemma ExactFields(e: Json, a: Json, path: Path)
    requires e.Obj? && a.Obj?
    requires forall k :: k in e.fields && k in a.fields ==>
               (Diffs(MatchExact, e.fields[k], a.fields[k], path + [Field(k)]) == {} <==> e.fields[k] == a.fields[k])
    ensures FieldDiffs(MatchExact, e, a, path) == {} <==> e == a
  {
    var ds := FieldDiffs(MatchExact, e, a, path);
    var missing, children, extra := MissingKeys(e, a, path, e.fields.Keys),
                                    ChildDiffs(MatchExact, e, a, path, e.fields.Keys),
                                    ExtraKeys(e, a, path, a.fields.Keys);
    assert forall k :: k in e.fields && k !in a.fields ==> Diff(path + [Field(k)], ErrMissingField) in missing;
    assert forall k :: k in a.fields && k !in e.fields ==> Diff(path + [Field(k)], ErrExtraField) in extra;
    assert forall k :: k in e.fields && k in a.fields ==>
        Diffs(MatchExact, e.fields[k], a.fields[k], path + [Field(k)]) <= children;
    if ds == {} {
      assert missing == {} && children == {};
      assert e.fields.Keys <= a.fields.Keys;
      if |e.fields| == |a.fields| {
        SameSizeSameKeys(e.fields, a.fields);
      }
      forall k | k in e.fields
        ensures e.fields[k] == a.fields[k]
      {
        assert Diffs(MatchExact, e.fields[k], a.fields[k], path + [Field(k)]) <= children;
      }
      assert e.fields == a.fields;
    }
  }

  lemma {:induction false} PathsExtend(m: MatchType, e: Json, a: Json, path: Path, d: Diff)
    requires d in Diffs(m, e, a, path)
    ensures path <= d.path
    decreases e, 1, 0
  {
    if e.Arr? && a.Arr? {
      if m.MatchExact? {
        var n := if |e.elems| < |a.elems| then |e.elems| else |a.elems|;
        if d in PairwiseDiffs(m, e, a, path, n) {
          var i: nat :| i < n && d in Diffs(m, e.elems[i], a.elems[i], path + [Index(i)]);
          PathsExtend(m, e.elems[i], a.elems[i], path + [Index(i)], d);
        }
      } else if e.elems != [] {
        GreedyPathsExtend(m, e, a, path, 0, 0, {}, d);
      }
    } else if e.Obj? && a.Obj? && d in ChildDiffs(m, e, a, path, e.fields.Keys) {
      var k :| k in e.fields && k in a.fields && d in Diffs(m, e.fields[k], a.fields[k], path + [Field(k)]);
      PathsExtend(m, e.fields[k], a.fields[k], path + [Field(k)], d);
    }
  }

  lemma {:induction false} GreedyPathsExtend(m: MatchType, e: Json, a: Json, path: Path, ai: nat, bi: nat, last: set<Diff>, d: Diff)
    requires e.Arr? && a.Arr? && ai <= |e.elems| && bi <= |a.elems|
    requires forall x :: x in last ==> path <= x.path
    requires d in GreedyDiffs(m, e, a, path, ai, bi, last)
    ensures path <= d.path
    decreases e, 0, |a.elems| - bi
  {
    if ai < |e.elems| && bi < |a.elems| {
      var ds := Diffs(m, e.elems[ai], a.elems[bi], path + [Index(ai)]);
      forall x | x in ds ensures path <= x.path {
        PathsExtend(m, e.elems[ai], a.elems[bi], path + [Index(ai)], x);
      }
      GreedyPathsExtend(m, e, a, path, if Clean(ds) then ai + 1 else ai, bi + 1, ds, d);
    }
  }

  /** Not every difference is reported: an unexpected key is, exactly when the objects differ in size. */
  lemma ExtraKeyReportedIff(e: Json, a: Json, path: Path, k: string)
    requires e.Obj? && a.Obj? && k in a.fields && k !in e.fields
    ensures (exists d :: d in Diffs(MatchExact, e, a, path) && path + [Field(k)] <= d.path) <==> |e.fields| != |a.fields|
  {
    var ds := Diffs(MatchExact, e, a, path);
    if |e.fields| != |a.fields| {
      assert Diff(path + [Field(k)], ErrExtraField) in ExtraKeys(e, a, path, a.fields.Keys);
    } else if d :| d in ds && path + [Field(k)] <= d.path {
      assert d.path[|path|] == Field(k);
      if d in ChildDiffs(MatchExact, e, a, path, e.fields.Keys) {
        var j :| j in e.fields && j in a.fields && d in Diffs(MatchExact, e.fields[j], a.fields[j], path + [Field(j)]);
        PathsExtend(MatchExact, e.fields[j], a.fields[j], path + [Field(j)], d);
        assert d.path[|path|] == Field(j);
      }
    }
  }

  // ---------------------------------------------------------------------------------------------
  // Subset: nothing but extra fields exactly when the expected tree embeds
  // ---------------------------------------------------------------------------------------------

  /** Taking a match as soon as one is met never loses an embedding. */
  lemma TakeFirstMatch(es: seq<Json>, xs: seq<Json>, ai: nat, bi: nat)
    requires ai < |es| && bi < |xs|
    ensures Embeds(es[ai], xs[bi]) ==> (Placeable(es, xs, ai, bi) <==> Placeable(es, xs, ai + 1, bi + 1))
    ensures !Embeds(es[ai], xs[bi]) ==> (Placeable(es, xs, ai, bi) <==> Placeable(es, xs, ai, bi + 1))
  {
    var next, beyond := ai + 1, bi + 1;
    if f: seq<nat> :| Places(es, xs, ai, bi, f) {
      if Embeds(es[ai], xs[bi]) {
        forall i | 0 <= i < |f| - 1
          ensures bi + 1 <= f[1..][i] < |xs| && Embeds(es[ai + 1 + i], xs[f[1..][i]])
        {
          assert f[0] < f[i + 1] && Embeds(es[ai + (i + 1)], xs[f[i + 1]]);
        }
        assert Places(es, xs, ai + 1, bi + 1, f[1..]);
      } else {
        forall i | 0 <= i < |f|
          ensures bi + 1 <= f[i]
        {
          assert Embeds(es[ai + 0], xs[f[0]]);
          assert i > 0 ==> f[0] < f[i];
        }
        assert Places(es, xs, ai, bi + 1, f);
      }
    }
    if Embeds(es[ai], xs[bi]) {
      if g: seq<nat> :| Places(es, xs, next, beyond, g) {
        var f := [bi] + g;
        forall i | 0 <= i < |f|
          ensures bi <= f[i] < |xs| && Embeds(es[ai + i], xs[f[i]])
        {
          if i > 0 { assert Embeds(es[ai + 1 + (i - 1)], xs[g[i - 1]]); }
        }
        assert Places(es, xs, ai, bi, f);
      }
    } else {
      if g: seq<nat> :| Places(es, xs, ai, beyond, g) {
        assert Places(es, xs, ai, bi, g);
      }
    }
  }

  lemma PlaceableEnds(es: seq<Json>, xs: seq<Json>, ai: nat, bi: nat)
    requires ai <= |es| && bi <= |xs|
    ensures ai == |es| ==> Placeable(es, xs, ai, bi)
    ensures ai < |es| && bi == |xs| ==> !Placeable(es, xs, ai, bi)
  {
    if ai == |es| {
      assert Places(es, xs, ai, bi, []);
    } else if f: seq<nat> :| Places(es, xs, ai, bi, f) {
      assert bi <= f[0] < |xs|;
    }
  }

  lemma {:induction false} GreedyIsComplete(e: Json, a: Json, path: Path, ai: nat, bi: nat, last: set<Diff>)
    requires e.Arr? && a.Arr? && ai <= |e.elems| && bi <= |a.elems|
    requires ai == |e.elems| ==> Clean(last)
    requires forall x, i :: 0 <= i < |e.elems| ==>
               (Clean(Diffs(MatchSubset, e.elems[i], x, path + [Index(i)])) <==> Embeds(e.elems[i], x))
    ensures Clean(GreedyDiffs(MatchSubset, e, a, path, ai, bi, last)) <==> Placeable(e.elems, a.elems, ai, bi)
    decreases |a.elems| - bi
  {
    PlaceableEnds(e.elems, a.elems, ai, bi);
    if ai < |e.elems| {
      if bi == |a.elems| {
        assert Diff(path, ErrMissingField) in GreedyDiffs(MatchSubset, e, a, path, ai, bi, last);
      } else {
        var ds := Diffs(MatchSubset, e.elems[ai], a.elems[bi], path + [Index(ai)]);
        TakeFirstMatch(e.elems, a.elems, ai, bi);
        GreedyIsComplete(e, a, path, if Clean(ds) then ai + 1 else ai, bi + 1, ds);
      }
    }
  }

  lemma {:induction false} SubsetIsEmbedding(e: Json, a: Json, path: Path)
    ensures Clean(Diffs(MatchSubset, e, a, path)) <==> Embeds(e, a)
    decreases e
  {
    if !SameKind(e, a) {
      assert Diff(path, ErrTypeDiffers) in Diffs(MatchSubset, e, a, path);
    } else if e.Arr? {
      forall x, i | 0 <= i < |e.elems|
        ensures Clean(Diffs(MatchSubset, e.elems[i], x, path + [Index(i)])) <==> Embeds(e.elems[i], x)
      {
        SubsetIsEmbedding(e.elems[i], x, path + [Index(i)]);
      }
      PlaceableIsEmbedding(e, a);
      PlaceableEnds(e.elems, a.elems, 0, 0);
      GreedyIsComplete(e, a, path, 0, 0, {});
    } else if e.Obj? {
      forall k | k in e.fields && k in a.fields
        ensures Clean(Diffs(MatchSubset, e.fields[k], a.fields[k], path + [Field(k)])) <==> Embeds(e.fields[k], a.fields[k])
      {
        SubsetIsEmbedding(e.fields[k], a.fields[k], path + [Field(k)]);
      }
      SubsetFields(e, a, path);
    } else if e != a {
      assert Diff(path, ErrValueDiffers) in Diffs(MatchSubset, e, a, path);
    }
  }

  lemma PlaceableIsEmbedding(e: Json, a: Json)
    requires e.Arr? && a.Arr?
    ensures Placeable(e.elems, a.elems, 0, 0) <==> Embeds(e, a)
  {
    if f: seq<nat> :| Places(e.elems, a.elems, 0, 0, f) {
      assert forall i :: 0 <= i < |e.elems| ==> f[i] < |a.elems| && Embeds(e.elems[0 + i], a.elems[f[i]]);
    }
    if Embeds(e, a) {
      var f: seq<nat> :|
        |f| == |e.elems| && Increasing(f) &&
        forall i :: 0 <= i < |e.elems| ==> f[i] < |a.elems| && Embeds(e.elems[i], a.elems[f[i]]);
      assert Places(e.elems, a.elems, 0, 0, f);
    }
  }

  lemma SubsetFields(e: Json, a: Json, path: Path)
    requires e.Obj? && a.Obj?
    requires forall k :: k in e.fields && k in a.fields ==>
               (Clean(Diffs(MatchSubset, e.fields[k], a.fields[k], path + [Field(k)])) <==> Embeds(e.fields[k], a.fields[k]))
    ensures Clean(FieldDiffs(MatchSubset, e, a, path)) <==> Embeds(e, a)
  {
    var ds := FieldDiffs(MatchSubset, e, a, path);
    var missing, children := MissingKeys(e, a, path, e.fields.Keys), ChildDiffs(MatchSubset, e, a, path, e.fields.Keys);
    assert forall k :: k in e.fields && k !in a.fields ==> Diff(path + [Field(k)], ErrMissingField) in missing;
    assert forall k :: k in e.fields && k in a.fields ==>
        Diffs(MatchSubset, e.fields[k], a.fields[k], path + [Field(k)]) <= children;
    assert missing <= ds && children <= ds;
  }

  // ---------------------------------------------------------------------------------------------
  // Embedding is a partial order on trees
  // ---------------------------------------------------------------------------------------------

  lemma {:induction false} EmbedsReflexive(e: Json)
    ensures Embeds(e, e)
  {
    match e
    case Arr(es) =>
      forall i | 0 <= i < |es| ensures Embeds(es[i], es[i]) { EmbedsReflexive(es[i]); }
      var f: seq<nat> := seq(|es|, i requires 0 <= i < |es| => i);
      assert Increasing(f);
      assert forall i :: 0 <= i < |es| ==> f[i] < |e.elems| && Embeds(es[i], e.elems[f[i]]);
    case Obj(fields) =>
      forall k | k in fields ensures Embeds(fields[k], fields[k]) { EmbedsReflexive(fields[k]); }
    case _ =>
  }

  lemma ComposePlaces(xs: seq<Json>, zs: seq<Json>, f: seq<nat>, g: seq<nat>)
    requires |f| == |xs| && Increasing(f) && Increasing(g)
    requires forall i :: 0 <= i < |xs| ==> f[i] < |g| && g[f[i]] < |zs| && Embeds(xs[i], zs[g[f[i]]])
    ensures Placeable(xs, zs, 0, 0)
  {
    var h: seq<nat> := seq(|xs|, i requires 0 <= i < |xs| => g[f[i]]);
    assert Places(xs, zs, 0, 0, h);
  }

  lemma {:induction false} EmbedsTransitive(x: Json, y: Json, z: Json)
    requires Embeds(x, y) && Embeds(y, z)
    ensures Embeds(x, z)
    decreases x
  {
    match x
    case Arr(xs) =>
      PlaceableIsEmbedding(x, y);
      PlaceableIsEmbedding(y, z);
      PlaceableIsEmbedding(x, z);
      var f: seq<nat> :| Places(xs, y.elems, 0, 0, f);
      var g: seq<nat> :| Places(y.elems, z.elems, 0, 0, g);
      forall i | 0 <= i < |xs|
        ensures f[i] < |g| && g[f[i]] < |z.elems| && Embeds(xs[i], z.elems[g[f[i]]])
      {
        assert Embeds(xs[0 + i], y.elems[f[i]]) && Embeds(y.elems[0 + f[i]], z.elems[g[f[i]]]);
        EmbedsTransitive(xs[i], y.elems[f[i]], z.elems[g[f[i]]]);
      }
      ComposePlaces(xs, z.elems, f, g);
    case Obj(fields) =>
      forall k | k in fields ensures k in z.fields && Embeds(fields[k], z.fields[k]) {
        EmbedsTransitive(fields[k], y.fields[k], z.fields[k]);
      }
    case _ =>
  }

  lemma IncreasingIsAtLeast(f: seq<nat>, i: nat)
    requires Increasing(f) && i < |f|
    ensures f[i] >= i
  {
    if i > 0 { IncreasingIsAtLeast(f, i - 1); }
  }

  lemma IncreasingIntoSameLength(f: seq<nat>, i: nat)
    requires Increasing(f) && i < |f| && forall j :: 0 <= j < |f| ==> f[j] < |f|
    ensures f[i] == i
    decreases |f| - i
  {
    IncreasingIsAtLeast(f, i);
    if i + 1 < |f| { IncreasingIntoSameLength(f, i + 1); }
  }

  lemma EmbeddedIsNoLonger(x: Json, y: Json)
    requires x.Arr? && Embeds(x, y)
    ensures |x.elems| <= |y.elems|
  {
    var f: seq<nat> :|
      |f| == |x.elems| && Increasing(f) &&
      forall i :: 0 <= i < |x.elems| ==> f[i] < |y.elems| && Embeds(x.elems[i], y.elems[f[i]]);
    if |f| > 0 { IncreasingIsAtLeast(f, |f| - 1); }
  }

  lemma EmbedsPointwise(x: Json, y: Json)
    requires x.Arr? && Embeds(x, y) && |x.elems| == |y.elems|
    ensures forall i :: 0 <= i < |x.elems| ==> Embeds(x.elems[i], y.elems[i])
  {
    var f: seq<nat> :|
      |f| == |x.elems| && Increasing(f) &&
      forall i :: 0 <= i < |x.elems| ==> f[i] < |y.elems| && Embeds(x.elems[i], y.elems[f[i]]);
    forall i | 0 <= i < |x.elems| ensures Embeds(x.elems[i], y.elems[i]) {
      IncreasingIntoSameLength(f, i);
    }
  }

  /** Two trees that each match as a subset of the other are equal. */
  lemma {:induction false} EmbedsAntisymmetric(x: Json, y: Json)
    requires Embeds(x, y) && Embeds(y, x)
    ensures x == y
    decreases x
  {
    match x
    case Arr(xs) =>
      EmbeddedIsNoLonger(x, y);
      EmbeddedIsNoLonger(y, x);
      EmbedsPointwise(x, y);
      EmbedsPointwise(y, x);
      forall i | 0 <= i < |xs| ensures xs[i] == y.elems[i] {
        EmbedsAntisymmetric(xs[i], y.elems[i]);
      }
      assert xs == y.elems;
    case Obj(fields) =>
      forall k | k in fields ensures fields[k] == y.fields[k] {
        EmbedsAntisymmetric(fields[k], y.fields[k]);
      }
      assert fields == y.fields;
    case _ =>
  }

  // ---------------------------------------------------------------------------------------------
  // Which differences are reported, place by place
  // ---------------------------------------------------------------------------------------------

  /** The subtree at a place, if there is one. */
  ghost function At(t: Json, p: Path): Option<Json>
    decreases |p|
  {
    if p == [] then Some(t)
    else
      match p[0]
      case Field(k) => if t.Obj? && k in t.fields then At(t.fields[k], p[1..]) else None
      case Index(i) => if t.Arr? && i < |t.elems| then At(t.elems[i], p[1..]) else None
  }

  ghost predicate OtherKind(x: Json, y: Json) {
    x.Bool? != y.Bool? || x.Number? != y.Number? || x.Str? != y.Str? || x.Arr? != y.Arr? || x.Obj? != y.Obj?
  }

  ghost predicate OtherScalar(x: Json, y: Json) {
    !OtherKind(x, y) && !x.Arr? && !x.Obj? && x != y
  }

  /** Two trees differ: in kind, in a scalar, or in the length of an array. */
  ghost predicate NodesDiffer(x: Option<Json>, y: Option<Json>, ty: ErrorType) {
    x.Some? && y.Some? &&
    match ty
    case ErrTypeDiffers => OtherKind(x.value, y.value)
    case ErrValueDiffers => OtherScalar(x.value, y.value)
    case ErrMissingField => x.value.Arr? && y.value.Arr? && |x.value.elems| > |y.value.elems|
    case ErrExtraField => x.value.Arr? && y.value.Arr? && |x.value.elems| < |y.value.elems|
  }

  /** Two objects differ in a key: it is missing, or unexpected in an object of another size. */
  ghost predicate KeysDiffer(x: Option<Json>, y: Option<Json>, k: string, ty: ErrorType) {
    x.Some? && y.Some? && x.value.Obj? && y.value.Obj? &&
    var expected, actual := x.value.fields, y.value.fields;
    match ty
    case ErrMissingField => k in expected && k !in actual
    case ErrExtraField => k !in expected && k in actual && |expected| != |actual|
    case _ => false
  }

  /** What an exact comparison has to report at a place: that the subtrees differ there, or the key that
    * leads there. */
  ghost predicate DifferAt(e: Json, a: Json, p: Path, ty: ErrorType) {
    || NodesDiffer(At(e, p), At(a, p), ty)
    || (p != [] && p[|p| - 1].Field? && KeysDiffer(At(e, p[..|p| - 1]), At(a, p[..|p| - 1]), p[|p| - 1].key, ty))
  }

  ghost predicate NodeLacks(x: Option<Json>, y: Option<Json>, ty: ErrorType) {
    x.Some? && y.Some? &&
    match ty
    case ErrTypeDiffers => OtherKind(x.value, y.value)
    case ErrValueDiffers => OtherScalar(x.value, y.value)
    case ErrMissingField => x.value.Arr? && y.value.Arr? && !Embeds(x.value, y.value)
    case ErrExtraField => false
  }

  ghost predicate InObjects(p: Path) {
    forall i :: 0 <= i < |p| ==> p[i].Field?
  }

  /** What a subset comparison has to report at a place: it looks into objects only, and holds an array
    * that does not embed against the array as a whole. */
  ghost predicate LacksAt(e: Json, a: Json, p: Path, ty: ErrorType) {
    && InObjects(p)
    && (|| NodeLacks(At(e, p), At(a, p), ty)
        || (p != [] && p[|p| - 1].Field? && ty.ErrMissingField?
            && KeysDiffer(At(e, p[..|p| - 1]), At(a, p[..|p| - 1]), p[|p| - 1].key, ty)))
  }

  lemma AtStep(t: Json, s: Step, q: Path)
    ensures ([s] + q)[0] == s && ([s] + q)[1..] == q
    ensures q != [] ==> ([s] + q)[..|q|] == [s] + q[..|q| - 1] && ([s] + q)[|q|] == q[|q| - 1]
    ensures q == [] ==> ([s] + q)[..|q|] == [] && ([s] + q)[|q|] == s
    ensures s.Field? ==> At(t, [s] + q) == if t.Obj? && s.key in t.fields then At(t.fields[s.key], q) else None
    ensures s.Index? ==> At(t, [s] + q) == if t.Arr? && s.i < |t.elems| then At(t.elems[s.i], q) else None
  {
    assert ([s] + q)[1..] == q;
  }

  /** The differences at a place one step or more down, spelled out. */
  lemma DifferStep(e: Json, a: Json, s: Step, q: Path, ty: ErrorType)
    ensures DifferAt(e, a, [s] + q, ty) <==>
            || NodesDiffer(At(e, [s] + q), At(a, [s] + q), ty)
            || (if q == [] then KeyDiffersHere(e, a, s, ty)
                else var n := |q| - 1; q[n].Field? && KeysDiffer(At(e, [s] + q[..n]), At(a, [s] + q[..n]), q[n].key, ty))
    ensures LacksAt(e, a, [s] + q, ty) <==>
            s.Field? && InObjects(q) &&
            (|| NodeLacks(At(e, [s] + q), At(a, [s] + q), ty)
             || (ty.ErrMissingField?
                 && if q == [] then KeyDiffersHere(e, a, s, ty)
                    else var n := |q| - 1; q[n].Field? && KeysDiffer(At(e, [s] + q[..n]), At(a, [s] + q[..n]), q[n].key, ty)))
  {
    hide NodesDiffer, NodeLacks, KeysDiffer, InObjects;
    InObjectsStep(s, q);
    AtStep(e, s, q);
  }

  /** Going down a step that both trees have. */
  lemma DownBoth(e: Json, a: Json, s: Step, q: Path, ty: ErrorType, x: Json, y: Json)
    requires At(e, [s]) == Some(x) && At(a, [s]) == Some(y)
    ensures DifferAt(e, a, [s] + q, ty) <==> DifferAt(x, y, q, ty) || (q == [] && KeyDiffersHere(e, a, s, ty))
    ensures LacksAt(e, a, [s] + q, ty) <==>
              s.Field? && (LacksAt(x, y, q, ty) || (q == [] && ty.ErrMissingField? && KeyDiffersHere(e, a, s, ty)))
  {
    hide NodesDiffer, NodeLacks, KeysDiffer, KeyDiffersHere;
    DifferStep(e, a, s, q, ty);
    AtStep(e, s, []);
    AtStep(a, s, []);
    assert [s] + [] == [s];
    AtStep(e, s, q);
    AtStep(a, s, q);
    if q != [] {
      AtStep(e, s, q[..|q| - 1]);
      AtStep(a, s, q[..|q| - 1]);
    }
  }

  ghost predicate KeyDiffersHere(e: Json, a: Json, s: Step, ty: ErrorType) {
    s.Field? && KeysDiffer(Some(e), Some(a), s.key, ty)
  }

  lemma InObjectsStep(s: Step, q: Path)
    ensures InObjects([s] + q) <==> s.Field? && InObjects(q)
  {
    var p := [s] + q;
    assert p[0] == s;
    if InObjects(p) {
      assert forall i :: 0 <= i < |q| ==> q[i] == p[i + 1];
    }
  }

  lemma NothingThere(x: Option<Json>, y: Option<Json>, ty: ErrorType)
    requires x.None? || y.None?
    ensures !NodesDiffer(x, y, ty) && !NodeLacks(x, y, ty) && forall k :: !KeysDiffer(x, y, k, ty)
  {
  }

  /** Below a step that one of them lacks there is nothing to tell but of the key itself. */
  lemma DownOne(e: Json, a: Json, s: Step, q: Path, ty: ErrorType)
    requires At(e, [s]).None? || At(a, [s]).None?
    ensures DifferAt(e, a, [s] + q, ty) <==> q == [] && KeyDiffersHere(e, a, s, ty)
    ensures LacksAt(e, a, [s] + q, ty) <==> q == [] && ty.ErrMissingField? && KeyDiffersHere(e, a, s, ty)
  {
    hide NodesDiffer, NodeLacks, KeysDiffer, KeyDiffersHere;
    DifferStep(e, a, s, q, ty);
    AtStep(e, s, []);
    AtStep(a, s, []);
    assert [s] + [] == [s];
    AtStep(e, s, q);
    AtStep(a, s, q);
    NothingThere(At(e, [s] + q), At(a, [s] + q), ty);
    if q != [] {
      AtStep(e, s, q[..|q| - 1]);
      AtStep(a, s, q[..|q| - 1]);
      NothingThere(At(e, [s] + q[..|q| - 1]), At(a, [s] + q[..|q| - 1]), ty);
    }
  }

  /** A difference below one child is not one below another. */
  lemma StepOf(m: MatchType, x: Json, y: Json, path: Path, s: Step, r: Step, q: Path, ty: ErrorType)
    requires Diff(path + ([s] + q), ty) in Diffs(m, x, y, path + [r])
    ensures r == s
  {
    PathsExtend(m, x, y, path + [r], Diff(path + ([s] + q), ty));
    assert (path + ([s] + q))[|path|] == s && (path + [r])[|path|] == r;
  }

  lemma ElementReported(e: Json, a: Json, path: Path, i: nat, q: Path, ty: ErrorType)
    requires e.Arr? && a.Arr?
    ensures Diff(path + ([Index(i)] + q), ty) in Diffs(MatchExact, e, a, path)
            <==> i < |e.elems| && i < |a.elems| &&
                 Diff((path + [Index(i)]) + q, ty) in Diffs(MatchExact, e.elems[i], a.elems[i], path + [Index(i)])
  {
    var d := Diff(path + ([Index(i)] + q), ty);
    assert (path + [Index(i)]) + q == path + ([Index(i)] + q);
    assert d.path[|path|] == Index(i);
    var n := if |e.elems| < |a.elems| then |e.elems| else |a.elems|;
    assert d in Diffs(MatchExact, e, a, path) <==> d in PairwiseDiffs(MatchExact, e, a, path, n);
    if d in PairwiseDiffs(MatchExact, e, a, path, n) {
      var j: nat :| j < n && d in Diffs(MatchExact, e.elems[j], a.elems[j], path + [Index(j)]);
      StepOf(MatchExact, e.elems[j], a.elems[j], path, Index(i), Index(j), q, ty);
    }
  }

  lemma FieldReported(m: MatchType, e: Json, a: Json, path: Path, k: string, q: Path, ty: ErrorType)
    requires e.Obj? && a.Obj?
    ensures Diff(path + ([Field(k)] + q), ty) in Diffs(m, e, a, path) <==>
            if k in e.fields && k in a.fields then
              Diff((path + [Field(k)]) + q, ty) in Diffs(m, e.fields[k], a.fields[k], path + [Field(k)])
            else
              q == [] && match ty
                         case ErrMissingField => k in e.fields
                         case ErrExtraField => k in a.fields && |e.fields| != |a.fields|
                         case _ => false
  {
    var d := Diff(path + ([Field(k)] + q), ty);
    assert (path + [Field(k)]) + q == path + ([Field(k)] + q);
    assert d.path[|path|] == Field(k) && |d.path| == |path| + 1 + |q|;
    forall j ensures d.path == path + [Field(j)] <==> j == k && q == [] {
      assert d.path == path + [Field(j)] ==> d.path[|path|] == Field(j);
    }
    assert d in MissingKeys(e, a, path, e.fields.Keys) <==> k in e.fields && k !in a.fields && q == [] && ty.ErrMissingField?;
    assert d in ExtraKeys(e, a, path, a.fields.Keys) <==> k in a.fields && k !in e.fields && q == [] && ty.ErrExtraField?;
    if d in ChildDiffs(m, e, a, path, e.fields.Keys) {
      var j :| j in e.fields && j in a.fields && d in Diffs(m, e.fields[j], a.fields[j], path + [Field(j)]);
      StepOf(m, e.fields[j], a.fields[j], path, Field(k), Field(j), q, ty);
    }
  }

  lemma NotBelow(m: MatchType, x: Json, y: Json, path: Path, s: Step, ty: ErrorType)
    ensures Diff(path, ty) !in Diffs(m, x, y, path + [s])
  {
    if Diff(path, ty) in Diffs(m, x, y, path + [s]) {
      PathsExtend(m, x, y, path + [s], Diff(path, ty));
    }
  }

  /** What is reported at the top of two trees. */
  lemma TopReported(e: Json, a: Json, path: Path, ty: ErrorType)
    ensures Diff(path, ty) in Diffs(MatchExact, e, a, path) <==> DifferAt(e, a, [], ty)
  {
    var d := Diff(path, ty);
    if e.Arr? && a.Arr? {
      var n := if |e.elems| < |a.elems| then |e.elems| else |a.elems|;
      if d in PairwiseDiffs(MatchExact, e, a, path, n) {
        var i: nat :| i < n && d in Diffs(MatchExact, e.elems[i], a.elems[i], path + [Index(i)]);
        NotBelow(MatchExact, e.elems[i], a.elems[i], path, Index(i), ty);
      }
    } else if e.Obj? && a.Obj? {
      TopOfFields(MatchExact, e, a, path, ty);
    }
  }

  lemma TopOfFields(m: MatchType, e: Json, a: Json, path: Path, ty: ErrorType)
    requires e.Obj? && a.Obj?
    ensures Diff(path, ty) !in Diffs(m, e, a, path)
  {
    var d := Diff(path, ty);
    assert forall k :: |path| != |path + [Field(k)]|;
    if d in ChildDiffs(m, e, a, path, e.fields.Keys) {
      var k :| k in e.fields && k in a.fields && d in Diffs(m, e.fields[k], a.fields[k], path + [Field(k)]);
      NotBelow(m, e.fields[k], a.fields[k], path, Field(k), ty);
    }
    assert d !in MissingKeys(e, a, path, e.fields.Keys) && d !in ExtraKeys(e, a, path, a.fields.Keys);
  }

  /** Trees of different kinds, and scalars, differ at the top or not at all. */
  lemma NothingBelow(m: MatchType, e: Json, a: Json, path: Path, s: Step, q: Path, ty: ErrorType)
    requires !(e.Arr? && a.Arr?) && !(e.Obj? && a.Obj?)
    ensures Diff(path + ([s] + q), ty) !in Diffs(m, e, a, path)
  {
    assert |path + ([s] + q)| > |path|;
  }

  /** A step into both trees, into one of them, or into neither. */
  lemma StepReported(e: Json, a: Json, path: Path, s: Step, q: Path, ty: ErrorType)
    ensures Diff(path + ([s] + q), ty) in Diffs(MatchExact, e, a, path) <==>
            || (At(e, [s]).Some? && At(a, [s]).Some?
                && Diff((path + [s]) + q, ty) in Diffs(MatchExact, At(e, [s]).value, At(a, [s]).value, path + [s]))
            || (q == [] && KeyDiffersHere(e, a, s, ty))
  {
    AtStep(e, s, []);
    AtStep(a, s, []);
    assert [s] + [] == [s];
    if e.Arr? && a.Arr? {
      if s.Index? { ElementReported(e, a, path, s.i, q, ty); } else { WrongStep(MatchExact, e, a, path, s, q, ty); }
    } else if e.Obj? && a.Obj? {
      if s.Field? { FieldReported(MatchExact, e, a, path, s.key, q, ty); } else { WrongStep(MatchExact, e, a, path, s, q, ty); }
    } else {
      NothingBelow(MatchExact, e, a, path, s, q, ty);
    }
  }

  lemma WrongStep(m: MatchType, e: Json, a: Json, path: Path, s: Step, q: Path, ty: ErrorType)
    requires (m.MatchExact? && e.Arr? && a.Arr? && s.Field?) || (e.Obj? && a.Obj? && s.Index?)
    ensures Diff(path + ([s] + q), ty) !in Diffs(m, e, a, path)
  {
    var d := Diff(path + ([s] + q), ty);
    assert d.path[|path|] == s && |d.path| > |path|;
    if e.Arr? {
      var n := if |e.elems| < |a.elems| then |e.elems| else |a.elems|;
      if d in PairwiseDiffs(m, e, a, path, n) {
        var i: nat :| i < n && d in Diffs(m, e.elems[i], a.elems[i], path + [Index(i)]);
        StepOf(m, e.elems[i], a.elems[i], path, s, Index(i), q, ty);
      }
    } else {
      assert forall k :: (path + [Field(k)])[|path|] == Field(k);
      if d in ChildDiffs(m, e, a, path, e.fields.Keys) {
        var k :| k in e.fields && k in a.fields && d in Diffs(m, e.fields[k], a.fields[k], path + [Field(k)]);
        StepOf(m, e.fields[k], a.fields[k], path, s, Field(k), q, ty);
      }
    }
  }

  /** The exact comparison reports a difference exactly where two trees differ. */
  lemma {:induction false} ExactReportsIff(e: Json, a: Json, path: Path, p: Path, ty: ErrorType)
    ensures Diff(path + p, ty) in Diffs(MatchExact, e, a, path) <==> DifferAt(e, a, p, ty)
    decreases |p|
  {
    if p == [] {
      assert path + p == path;
      TopReported(e, a, path, ty);
    } else {
      hide Diffs, DifferAt, LacksAt, KeyDiffersHere;
      var s, q := p[0], p[1..];
      assert p == [s] + q;
      StepReported(e, a, path, s, q, ty);
      if At(e, [s]).Some? && At(a, [s]).Some? {
        var x, y := At(e, [s]).value, At(a, [s]).value;
        ExactReportsIff(x, y, path + [s], q, ty);
        DownBoth(e, a, s, q, ty, x, y);
      } else {
        DownOne(e, a, s, q, ty);
      }
    }
  }

  /** The ordered search ends with extra fields of the last match, or with one difference. */
  lemma {:induction false} GreedyOutcome(m: MatchType, e: Json, a: Json, path: Path, ai: nat, bi: nat, last: set<Diff>)
    requires e.Arr? && a.Arr? && ai <= |e.elems| && bi <= |a.elems|
    requires ai == |e.elems| ==> Clean(last)
    ensures var ds := GreedyDiffs(m, e, a, path, ai, bi, last); Clean(ds) || ds == {Diff(path, ErrMissingField)}
    decreases |a.elems| - bi
  {
    if ai < |e.elems| && bi < |a.elems| {
      var ds := Diffs(m, e.elems[ai], a.elems[bi], path + [Index(ai)]);
      GreedyOutcome(m, e, a, path, if Clean(ds) then ai + 1 else ai, bi + 1, ds);
    }
  }

  lemma SubsetArrays(e: Json, a: Json, path: Path, d: Diff)
    requires e.Arr? && a.Arr? && d.ty != ErrExtraField
    ensures d in Diffs(MatchSubset, e, a, path) <==> d == Diff(path, ErrMissingField) && !Embeds(e, a)
  {
    SubsetIsEmbedding(e, a, path);
    if e.elems != [] {
      GreedyOutcome(MatchSubset, e, a, path, 0, 0, {});
    }
  }

  lemma TopLacks(e: Json, a: Json, path: Path, ty: ErrorType)
    requires ty != ErrExtraField
    ensures Diff(path, ty) in Diffs(MatchSubset, e, a, path) <==> LacksAt(e, a, [], ty)
  {
    hide Embeds;
    if e.Arr? && a.Arr? {
      SubsetArrays(e, a, path, Diff(path, ty));
    } else if e.Obj? && a.Obj? {
      TopOfFields(MatchSubset, e, a, path, ty);
    }
  }

  lemma StepLacks(e: Json, a: Json, path: Path, s: Step, q: Path, ty: ErrorType)
    requires ty != ErrExtraField
    ensures Diff(path + ([s] + q), ty) in Diffs(MatchSubset, e, a, path) <==>
            s.Field? &&
            (|| (At(e, [s]).Some? && At(a, [s]).Some?
                 && Diff((path + [s]) + q, ty) in Diffs(MatchSubset, At(e, [s]).value, At(a, [s]).value, path + [s]))
             || (q == [] && ty.ErrMissingField? && KeyDiffersHere(e, a, s, ty)))
  {
    AtStep(e, s, []);
    AtStep(a, s, []);
    assert [s] + [] == [s];
    if e.Arr? && a.Arr? {
      assert |path + ([s] + q)| > |path|;
      SubsetArrays(e, a, path, Diff(path + ([s] + q), ty));
    } else if e.Obj? && a.Obj? {
      if s.Field? { FieldReported(MatchSubset, e, a, path, s.key, q, ty); } else { WrongStep(MatchSubset, e, a, path, s, q, ty); }
    } else {
      NothingBelow(MatchSubset, e, a, path, s, q, ty);
    }
  }

  /** The subset comparison reports, extra fields aside, exactly what the actual tree lacks. */
  lemma {:induction false} SubsetReportsIff(e: Json, a: Json, path: Path, p: Path, ty: ErrorType)
    requires ty != ErrExtraField
    ensures Diff(path + p, ty) in Diffs(MatchSubset, e, a, path) <==> LacksAt(e, a, p, ty)
    decreases |p|
  {
    if p == [] {
      assert path + p == path;
      TopLacks(e, a, path, ty);
    } else {
      hide Diffs, DifferAt, LacksAt, KeyDiffersHere;
      var s, q := p[0], p[1..];
      assert p == [s] + q;
      StepLacks(e, a, path, s, q, ty);
      if At(e, [s]).Some? && At(a, [s]).Some? {
        var x, y := At(e, [s]).value, At(a, [s]).value;
        SubsetReportsIff(x, y, path + [s], q, ty);
        DownBoth(e, a, s, q, ty, x, y);
      } else {
        DownOne(e, a, s, q, ty);
        AtStep(e, s, []);
        AtStep(a, s, []);
      }
    }
  }

  // ---------------------------------------------------------------------------------------------
  // The comparator itself
  // ---------------------------------------------------------------------------------------------

  ghost function SetOf(ds: seq<Diff>): set<Diff> {
    set d | d in ds
  }

  /** No difference is reported twice. */
  ghost predicate Unique(ds: seq<Diff>) {
    forall i, j :: 0 <= i < j < |ds| ==> ds[i] != ds[j]
  }

  lemma UniqueJoin(xs: seq<Diff>, ys: seq<Diff>)
    requires Unique(xs) && Unique(ys) && SetOf(xs) !! SetOf(ys)
    ensures Unique(xs + ys) && SetOf(xs + ys) == SetOf(xs) + SetOf(ys)
  {
    forall i, j | 0 <= i < |xs| && 0 <= j < |ys| ensures xs[i] != ys[j] {
      assert xs[i] in SetOf(xs) && ys[j] in SetOf(ys);
    }
  }

  lemma NextElementApart(m: MatchType, e: Json, a: Json, path: Path, i: nat)
    requires e.Arr? && a.Arr? && i < |e.elems| && i < |a.elems|
    ensures PairwiseDiffs(m, e, a, path, i) !! Diffs(m, e.elems[i], a.elems[i], path + [Index(i)])
  {
    forall d, x | d in PairwiseDiffs(m, e, a, path, i) && x in Diffs(m, e.elems[i], a.elems[i], path + [Index(i)])
      ensures d != x
    {
      var j: nat :| j < i && d in Diffs(m, e.elems[j], a.elems[j], path + [Index(j)]);
      PathsExtend(m, e.elems[j], a.elems[j], path + [Index(j)], d);
      PathsExtend(m, e.elems[i], a.elems[i], path + [Index(i)], x);
      Apart(path, Index(j), Index(i), d.path, x.path);
    }
  }

  lemma Apart(path: Path, s: Step, r: Step, p: Path, q: Path)
    requires s != r && path + [s] <= p && path + [r] <= q
    ensures p != q
  {
    assert p[|path|] == (path + [s])[|path|] && q[|path|] == (path + [r])[|path|];
  }

  lemma TopApart(m: MatchType, e: Json, a: Json, path: Path, n: nat, ty: ErrorType)
    requires e.Arr? && a.Arr? && n <= |e.elems| && n <= |a.elems|
    ensures PairwiseDiffs(m, e, a, path, n) !! SetOf([Diff(path, ty)])
  {
    assert SetOf([Diff(path, ty)]) == {Diff(path, ty)};
    if Diff(path, ty) in PairwiseDiffs(m, e, a, path, n) {
      var j: nat :| j < n && Diff(path, ty) in Diffs(m, e.elems[j], a.elems[j], path + [Index(j)]);
      NotBelow(m, e.elems[j], a.elems[j], path, Index(j), ty);
    }
  }

  /** What is reported of expected keys lies at or below one of them. */
  lemma BelowKeys(m: MatchType, e: Json, a: Json, path: Path, keys: set<string>, d: Diff)
    requires e.Obj? && a.Obj? && keys <= e.fields.Keys
    requires d in MissingKeys(e, a, path, keys) + ChildDiffs(m, e, a, path, keys)
    ensures exists k :: k in keys && path + [Field(k)] <= d.path
  {
    if d in ChildDiffs(m, e, a, path, keys) {
      var k :| k in keys && k in a.fields && d in Diffs(m, e.fields[k], a.fields[k], path + [Field(k)]);
      PathsExtend(m, e.fields[k], a.fields[k], path + [Field(k)], d);
    }
  }

  lemma NextKeyApart(m: MatchType, e: Json, a: Json, path: Path, keys: set<string>, k: string, found: set<Diff>)
    requires e.Obj? && a.Obj? && keys <= e.fields.Keys && k !in keys
    requires forall d :: d in found ==> path + [Field(k)] <= d.path
    ensures MissingKeys(e, a, path, keys) + ChildDiffs(m, e, a, path, keys) !! found
  {
    forall d, x | d in MissingKeys(e, a, path, keys) + ChildDiffs(m, e, a, path, keys) && x in found
      ensures d != x
    {
      BelowKeys(m, e, a, path, keys, d);
      var j :| j in keys && path + [Field(j)] <= d.path;
      Apart(path, Field(j), Field(k), d.path, x.path);
    }
  }

  lemma ExtraApart(m: MatchType, e: Json, a: Json, path: Path)
    requires e.Obj? && a.Obj?
    ensures MissingKeys(e, a, path, e.fields.Keys) + ChildDiffs(m, e, a, path, e.fields.Keys)
         !! ExtraKeys(e, a, path, a.fields.Keys)
  {
    forall d, x | d in MissingKeys(e, a, path, e.fields.Keys) + ChildDiffs(m, e, a, path, e.fields.Keys)
                  && x in ExtraKeys(e, a, path, a.fields.Keys)
      ensures d != x
    {
      BelowKeys(m, e, a, path, e.fields.Keys, d);
      var j :| j in e.fields.Keys && path + [Field(j)] <= d.path;
      var k :| k in a.fields.Keys && k !in e.fields && x == Diff(path + [Field(k)], ErrExtraField);
      Apart(path, Field(j), Field(k), d.path, x.path);
    }
  }

  lemma ChildBelow(m: MatchType, x: Json, y: Json, path: Path)
    ensures forall d :: d in Diffs(m, x, y, path) ==> path <= d.path
  {
    forall d | d in Diffs(m, x, y, path) ensures path <= d.path {
      PathsExtend(m, x, y, path, d);
    }
  }

  lemma {:induction false} WithoutIsUnique(ds: seq<Diff>, ty: ErrorType)
    requires Unique(ds)
    ensures Unique(Without(ds, ty))
  {
    if ds != [] {
      var n := |ds| - 1;
      WithoutIsUnique(ds[..n], ty);
      WithoutMembers(ds[..n], ty);
      if ds[n].ty != ty {
        forall i | 0 <= i < |Without(ds[..n], ty)| ensures Without(ds[..n], ty)[i] != ds[n] {
          assert Without(ds[..n], ty)[i] in ds[..n];
        }
      }
    }
  }

  /** The differences of other types, in order. */
  function Without(ds: seq<Diff>, ty: ErrorType): seq<Diff> {
    if ds == [] then []
    else if ds[|ds| - 1].ty != ty then Without(ds[..|ds| - 1], ty) + [ds[|ds| - 1]]
    else Without(ds[..|ds| - 1], ty)
  }

  lemma WithoutMembers(ds: seq<Diff>, ty: ErrorType)
    ensures forall d :: d in Without(ds, ty) <==> d in ds && d.ty != ty
  {
    if ds != [] { WithoutMembers(ds[..|ds| - 1], ty); assert ds == ds[..|ds| - 1] + [ds[|ds| - 1]]; }
  }

  lemma NothingButExtra(ds: seq<Diff>)
    ensures Without(ds, ErrExtraField) == [] <==> Clean(SetOf(ds))
  {
    WithoutMembers(ds, ErrExtraField);
    if Without(ds, ErrExtraField) != [] {
      var d := Without(ds, ErrExtraField)[0];
      assert d in Without(ds, ErrExtraField);
      assert d in SetOf(ds);
    }
  }

  method Filter(ds: seq<Diff>, ty: ErrorType) returns (matched: seq<Diff>)
    ensures matched == Without(ds, ty)
    ensures forall d :: d in matched <==> d in ds && d.ty != ty
    ensures Unique(ds) ==> Unique(matched)
  {
    if Unique(ds) {
      WithoutIsUnique(ds, ty);
    }
    matched := [];
    for i := 0 to |ds|
      invariant matched == Without(ds[..i], ty)
    {
      assert ds[..i + 1][..i] == ds[..i];
      if ds[i].ty != ty {
        matched := matched + [ds[i]];
      }
    }
    assert ds[..|ds|] == ds;
    WithoutMembers(ds, ty);
  }

  method DeepValueEqual(e: Json, a: Json, path: Path, m: MatchType) returns (diffs: seq<Diff>)
    ensures SetOf(diffs) == Diffs(m, e, a, path) && Unique(diffs)
    ensures m.MatchExact? ==> forall p, ty :: Diff(path + p, ty) in diffs <==> DifferAt(e, a, p, ty)
    decreases e, 1
  {
    if !SameKind(e, a) {
      AllReported(e, a, path, m, [Diff(path, ErrTypeDiffers)]);
      return [Diff(path, ErrTypeDiffers)];
    }
    match e {
      case Arr(_) =>
        if m == MatchSubset {
          diffs := SubsliceSubset(e, a, path, m);
        } else {
          diffs := SubsliceEqual(e, a, path, m);
        }
      case Obj(_) =>
        diffs := MapEqual(e, a, path, m);
      case _ =>
        diffs := if e == a then [] else [Diff(path, ErrValueDiffers)];
    }
    AllReported(e, a, path, m, diffs);
  }

  lemma AllReported(e: Json, a: Json, path: Path, m: MatchType, diffs: seq<Diff>)
    requires SetOf(diffs) == Diffs(m, e, a, path)
    ensures m.MatchExact? ==> forall p, ty :: Diff(path + p, ty) in diffs <==> DifferAt(e, a, p, ty)
  {
    if m.MatchExact? {
      forall p, ty ensures Diff(path + p, ty) in diffs <==> DifferAt(e, a, p, ty) {
        ExactReportsIff(e, a, path, p, ty);
        assert Diff(path + p, ty) in diffs <==> Diff(path + p, ty) in SetOf(diffs);
      }
    }
  }

  method MapEqual(e: Json, a: Json, path: Path, m: MatchType) returns (diffs: seq<Diff>)
    requires e.Obj? && a.Obj?
    ensures SetOf(diffs) == FieldDiffs(m, e, a, path) && Unique(diffs)
    decreases e, 0, 1
  {
    diffs := CompareExpectedKeys(e, a, path, m);
    if |e.fields| == |a.fields| {
      return;
    }
    var extra := FindExtraKeys(e, a, path);
    ExtraApart(m, e, a, path);
    UniqueJoin(diffs, extra);
    diffs := diffs + extra;
  }

  method CompareExpectedKeys(e: Json, a: Json, path: Path, m: MatchType) returns (diffs: seq<Diff>)
    requires e.Obj? && a.Obj?
    ensures SetOf(diffs) == MissingKeys(e, a, path, e.fields.Keys) + ChildDiffs(m, e, a, path, e.fields.Keys) && Unique(diffs)
    decreases e, 0, 0
  {
    diffs := [];
    var keys := e.fields.Keys;
    while keys != {}
      invariant keys <= e.fields.Keys && Unique(diffs)
      invariant SetOf(diffs) ==
                MissingKeys(e, a, path, e.fields.Keys - keys) + ChildDiffs(m, e, a, path, e.fields.Keys - keys)
      decreases keys
    {
      var k :| k in keys;
      assert e.fields.Keys - (keys - {k}) == (e.fields.Keys - keys) + {k};
      MoreKeys(m, e, a, path, e.fields.Keys - keys, k);
      var found := [Diff(path + [Field(k)], ErrMissingField)];
      if k in a.fields {
        found := DeepValueEqual(e.fields[k], a.fields[k], path + [Field(k)], m);
        ChildBelow(m, e.fields[k], a.fields[k], path + [Field(k)]);
      }
      NextKeyApart(m, e, a, path, e.fields.Keys - keys, k, SetOf(found));
      UniqueJoin(diffs, found);
      diffs := diffs + found;
      keys := keys - {k};
    }
    assert e.fields.Keys - {} == e.fields.Keys;
  }

  method FindExtraKeys(e: Json, a: Json, path: Path) returns (diffs: seq<Diff>)
    requires e.Obj? && a.Obj?
    ensures SetOf(diffs) == ExtraKeys(e, a, path, a.fields.Keys) && Unique(diffs)
  {
    diffs := [];
    var rest := a.fields.Keys;
    while rest != {}
      invariant rest <= a.fields.Keys && Unique(diffs)
      invariant SetOf(diffs) == ExtraKeys(e, a, path, a.fields.Keys - rest)
      decreases rest
    {
      var k :| k in rest;
      if k !in e.fields {
        var extra := Diff(path + [Field(k)], ErrExtraField);
        forall j | j in a.fields.Keys - rest ensures extra != Diff(path + [Field(j)], ErrExtraField) {
          assert (path + [Field(j)])[|path|] != extra.path[|path|];
        }
        UniqueJoin(diffs, [extra]);
        diffs := diffs + [extra];
      }
      rest := rest - {k};
    }
    assert a.fields.Keys - {} == a.fields.Keys;
  }

  lemma MoreKeys(m: MatchType, e: Json, a: Json, path: Path, keys: set<string>, k: string)
    requires e.Obj? && a.Obj? && keys <= e.fields.Keys && k in e.fields
    ensures MissingKeys(e, a, path, keys + {k}) ==
            MissingKeys(e, a, path, keys) + (if k in a.fields then {} else {Diff(path + [Field(k)], ErrMissingField)})
    ensures ChildDiffs(m, e, a, path, keys + {k}) ==
            ChildDiffs(m, e, a, path, keys) + (if k in a.fields then Diffs(m, e.fields[k], a.fields[k], path + [Field(k)]) else {})
  {
  }

  method SubsliceEqual(e: Json, a: Json, path: Path, m: MatchType) returns (diffs: seq<Diff>)
    requires e.Arr? && a.Arr? && m == MatchExact
    ensures SetOf(diffs) == ElementDiffs(m, e, a, path) && Unique(diffs)
    ensures forall p, ty :: Diff(path + p, ty) in diffs <==> DifferAt(e, a, p, ty)
    decreases e, 0
  {
    diffs := [];
    var i := 0;
    while i < |e.elems|
      invariant 0 <= i <= |e.elems| && i <= |a.elems|
      invariant SetOf(diffs) == PairwiseDiffs(m, e, a, path, i) && Unique(diffs)
    {
      if i >= |a.elems| {
        TopApart(m, e, a, path, i, ErrMissingField);
        UniqueJoin(diffs, [Diff(path, ErrMissingField)]);
        assert SetOf([Diff(path, ErrMissingField)]) == {Diff(path, ErrMissingField)};
        AllReported(e, a, path, m, diffs + [Diff(path, ErrMissingField)]);
        return diffs + [Diff(path, ErrMissingField)];
      }
      var ds := DeepValueEqual(e.elems[i], a.elems[i], path + [Index(i)], m);
      NextElementApart(m, e, a, path, i);
      UniqueJoin(diffs, ds);
      diffs := diffs + ds;
      i := i + 1;
    }
    if |e.elems| < |a.elems| {
      TopApart(m, e, a, path, i, ErrExtraField);
      UniqueJoin(diffs, [Diff(path, ErrExtraField)]);
      assert SetOf([Diff(path, ErrExtraField)]) == {Diff(path, ErrExtraField)};
      AllReported(e, a, path, m, diffs + [Diff(path, ErrExtraField)]);
      return diffs + [Diff(path, ErrExtraField)];
    }
    AllReported(e, a, path, m, diffs);
  }

  method SubsliceSubset(e: Json, a: Json, path: Path, m: MatchType) returns (diffs: seq<Diff>)
    requires e.Arr? && a.Arr? && m == MatchSubset
    ensures SetOf(diffs) == Diffs(m, e, a, path) && Unique(diffs)
    decreases e, 0
  {
    diffs := [];
    var alen, blen := |e.elems|, |a.elems|;
    var max := if alen > blen then alen else blen;
    if alen == 0 {
      return [];
    }
    var ai, bi := 0, 0;
    while bi < max
      invariant 0 <= ai <= alen && 0 <= bi <= blen && Unique(diffs)
      invariant GreedyDiffs(m, e, a, path, ai, bi, SetOf(diffs)) == Diffs(m, e, a, path)
    {
      if ai >= alen || bi >= blen {
        break;
      }
      diffs := DeepValueEqual(e.elems[ai], a.elems[bi], path + [Index(ai)], m);
      var hard := Filter(diffs, ErrExtraField);
      NothingButExtra(diffs);
      if |hard| == 0 {
        ai := ai + 1;
      }
      bi := bi + 1;
    }
    if ai == alen && bi == blen {
      return diffs;
    }
    if ai < alen {
      return [Diff(path, ErrMissingField)];
    }
    return [];
  }

  /** No differences exactly when the trees are equal. */
  method Exact(e: Json, a: Json) returns (diffs: seq<Diff>)
    ensures forall p, ty :: Diff(p, ty) in diffs <==> DifferAt(e, a, p, ty)
    ensures Unique(diffs)
    ensures diffs == [] <==> e == a
  {
    diffs := DeepValueEqual(e, a, [], MatchExact);
    ExactIsEquality(e, a, []);
    forall p, ty ensures Diff(p, ty) in diffs <==> DifferAt(e, a, p, ty) {
      assert [] + p == p;
    }
    if diffs != [] { assert diffs[0] in SetOf(diffs); }
  }

  /** No differences exactly when the expected tree embeds in the actual one. */
  method Subset(e: Json, a: Json) returns (diffs: seq<Diff>)
    ensures forall p, ty :: Diff(p, ty) in diffs <==> ty != ErrExtraField && LacksAt(e, a, p, ty)
    ensures Unique(diffs)
    ensures diffs == [] <==> Embeds(e, a)
  {
    var all := DeepValueEqual(e, a, [], MatchSubset);
    diffs := Filter(all, ErrExtraField);
    NothingButExtra(all);
    SubsetIsEmbedding(e, a, []);
    forall p, ty ensures Diff(p, ty) in diffs <==> ty != ErrExtraField && LacksAt(e, a, p, ty) {
      assert Diff(p, ty) in all <==> Diff(p, ty) in SetOf(all);
      assert [] + p == p;
      if ty != ErrExtraField {
        SubsetReportsIff(e, a, [], p, ty);
      }
    }
  }

  method Compare(m: MatchType, e: Json, a: Json) returns (diffs: seq<Diff>)
    ensures m == MatchExact ==> (diffs == [] <==> e == a)
    ensures m == MatchSubset ==> (diffs == [] <==> Embeds(e, a))
  {
    if m == MatchExact {
      diffs := Exact(e, a);
    } else {
      diffs := Subset(e, a);
    }
  }

  /** Whatever passes as exact passes as a subset, at any place in the tree. */
  lemma ExactImpliesSubset(e: Json, a: Json, path: Path)
    requires Diffs(MatchExact, e, a, path) == {}
    ensures Clean(Diffs(MatchSubset, e, a, path))
  {
    ExactIsEquality(e, a, path);
    EmbedsReflexive(e);
    SubsetIsEmbedding(e, a, path);
  }
}
