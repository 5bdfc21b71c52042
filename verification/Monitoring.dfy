/** Rollout monitors: one goroutine per rollout, registered by workload under a lock. Critical
  * sections and the ends of goroutines are the atomic steps; starts are serialized per workload. Each
  * kind of workload has a synchronizer and a map of its own; the lock and the gauge they share.
  */
module Monitoring {
  import opened Cluster
  import opened Wrappers

  /** A uuid; `ID()` is only its first 32 bits. */
  datatype Uuid = Uuid(prefix: bv32, rest: nat)

  /** Where a goroutine is: watching, past its own cancel, or gone. */
  datatype Routine = Watching | Cancelled | Ended

  /** Where a start is: the previous monitor cancelled, or the new context made. */
  datatype Start = Cleared | Made(id: Uuid)

  /** `registered` is the maps of all kinds taken together, whose keys are apart; `changed` is the kind
    * of the map that changed last. */
  datatype State = State(
    registered: map<Key, Uuid>,
    gauge: int,
    changed: Option<string>,
    starts: map<Key, Start>,
    keyOf: map<Uuid, Key>,
    cancelled: set<Uuid>,
    routines: map<Uuid, Routine>)

  const NOTHING := State(map[], 0, None, map[], map[], {}, map[])

  /** The map of one synchronizer. */
  function OfKind(registered: map<Key, Uuid>, kind: string): map<Key, Uuid> {
    map k | k in registered && k.kind == kind :: registered[k]
  }

  datatype Step =
    | ClearPrevious(k: Key)
    | MakeContext(k: Key, id: Uuid)
    | Register(k: Key)
    | StopWatching(id: Uuid)
    | CleanUp(id: Uuid)

  predicate Enabled(s: State, step: Step) {
    match step
    case ClearPrevious(k) => k !in s.starts
    case MakeContext(k, id) => k in s.starts && s.starts[k].Cleared? && id !in s.keyOf
    case Register(k) => k in s.starts && s.starts[k].Made?
    case StopWatching(id) => id in s.routines && s.routines[id].Watching?
    case CleanUp(id) => id in s.routines && s.routines[id].Cancelled? && id in s.keyOf
  }

  /** The critical section of cancelMonitor: cancels and removes the registered monitor, unless a
    * different one was expected. */
  function CancelRegistered(s: State, k: Key, expected: Option<Uuid>): State {
    if k !in s.registered || (expected.Some? && s.registered[k].prefix != expected.value.prefix) then s
    else
      var rest := s.registered - {k};
      s.(cancelled := s.cancelled + {s.registered[k]}, registered := rest,
         gauge := |OfKind(rest, k.kind)|, changed := Some(k.kind))
  }

  function PreviousCleared(s: State, k: Key): State {
    var t := CancelRegistered(s, k, None);
    t.(starts := t.starts[k := Cleared])
  }

  function ContextMade(s: State, k: Key, id: Uuid): State {
    s.(starts := s.starts[k := Made(id)], keyOf := s.keyOf[id := k])
  }

  function Entered(s: State, k: Key, id: Uuid): State {
    var entries := s.registered[k := id];
    s.(registered := entries, gauge := |OfKind(entries, k.kind)|, changed := Some(k.kind),
       starts := s.starts - {k}, routines := s.routines[id := Watching])
  }

  function Stopped(s: State, id: Uuid): State {
    s.(cancelled := s.cancelled + {id}, routines := s.routines[id := Routine.Cancelled])
  }

  function CleanedUp(s: State, id: Uuid): State
    requires id in s.keyOf
  {
    var t := CancelRegistered(s, s.keyOf[id], Some(id));
    t.(routines := t.routines[id := Ended])
  }

  function After(s: State, step: Step): State
    requires Enabled(s, step)
  {
    match step
    case ClearPrevious(k) => PreviousCleared(s, k)
    case MakeContext(k, id) => ContextMade(s, k, id)
    case Register(k) => Entered(s, k, s.starts[k].id)
    case StopWatching(id) => Stopped(s, id)
    case CleanUp(id) => CleanedUp(s, id)
  }

  // ---------------------------------------------------------------------------------------------
  // The invariant
  // ---------------------------------------------------------------------------------------------

  /** The context of this monitor is not cancelled. */
  predicate Live(s: State, id: Uuid) {
    id in s.keyOf && id !in s.cancelled
  }

  /** The gauge is the size of the map that changed last. */
  ghost predicate GaugeIsLast(s: State) {
    if s.changed.None? then s.gauge == 0 && s.registered == map[]
    else s.gauge == |OfKind(s.registered, s.changed.value)|
  }

  ghost predicate Inv(s: State) {
    && GaugeIsLast(s)
    && (forall k :: k in s.registered ==> s.registered[k] in s.keyOf && s.keyOf[s.registered[k]] == k)
    && (forall k :: k in s.starts ==> k !in s.registered)
    && (forall k :: k in s.starts && s.starts[k].Made? ==>
          s.starts[k].id in s.keyOf && s.keyOf[s.starts[k].id] == k && s.starts[k].id !in s.routines)
    && (forall id :: id in s.routines ==> id in s.keyOf && (s.routines[id].Watching? || id in s.cancelled))
    && (forall id :: Live(s, id) ==> Placed(s, id))
  }

  /** Registered for its workload, or made and about to be. */
  ghost predicate Placed(s: State, id: Uuid)
    requires id in s.keyOf
  {
    var k := s.keyOf[id];
    (k in s.registered && s.registered[k] == id) || (k in s.starts && s.starts[k] == Made(id))
  }

  lemma CancelKeeps(s: State, k: Key, expected: Option<Uuid>)
    requires Inv(s)
    ensures Inv(CancelRegistered(s, k, expected))
    ensures expected.None? ==> k !in CancelRegistered(s, k, expected).registered
  {
    var t := CancelRegistered(s, k, expected);
    forall id | Live(t, id) ensures Placed(t, id) {
      assert Live(s, id) && Placed(s, id);
    }
  }

  lemma ClearKeeps(s: State, k: Key)
    requires Inv(s) && k !in s.starts
    ensures Inv(PreviousCleared(s, k))
  {
    CancelKeeps(s, k, None);
    var c, t := CancelRegistered(s, k, None), PreviousCleared(s, k);
    forall id | Live(t, id) ensures Placed(t, id) {
      assert Live(c, id) && Placed(c, id);
    }
  }

  lemma MakeKeeps(s: State, k: Key, id: Uuid)
    requires Inv(s) && Enabled(s, MakeContext(k, id))
    ensures Inv(ContextMade(s, k, id))
  {
    var t := ContextMade(s, k, id);
    forall x | Live(t, x) ensures Placed(t, x) {
      assert x != id ==> Live(s, x) && Placed(s, x);
    }
  }

  lemma RegisterKeeps(s: State, k: Key)
    requires Inv(s) && Enabled(s, Register(k))
    ensures Inv(Entered(s, k, s.starts[k].id))
  {
    var t := Entered(s, k, s.starts[k].id);
    forall x | Live(t, x) ensures Placed(t, x) {
      assert Live(s, x) && Placed(s, x);
    }
  }

  lemma StopKeeps(s: State, id: Uuid)
    requires Inv(s) && Enabled(s, StopWatching(id))
    ensures Inv(Stopped(s, id))
  {
    var t := Stopped(s, id);
    forall x | Live(t, x) ensures Placed(t, x) {
      assert Live(s, x) && Placed(s, x);
    }
  }

  lemma CleanUpKeeps(s: State, id: Uuid)
    requires Inv(s) && Enabled(s, CleanUp(id))
    ensures Inv(CleanedUp(s, id))
  {
    CancelKeeps(s, s.keyOf[id], Some(id));
    var c, t := CancelRegistered(s, s.keyOf[id], Some(id)), CleanedUp(s, id);
    forall x | Live(t, x) ensures Placed(t, x) {
      assert Live(c, x) && Placed(c, x);
    }
  }

  lemma StepKeeps(s: State, step: Step)
    requires Inv(s) && Enabled(s, step)
    ensures Inv(After(s, step))
  {
    match step
    case ClearPrevious(k) => ClearKeeps(s, k);
    case MakeContext(k, id) => MakeKeeps(s, k, id);
    case Register(k) => RegisterKeeps(s, k);
    case StopWatching(id) => StopKeeps(s, id);
    case CleanUp(id) => CleanUpKeeps(s, id);
  }

  ghost function AfterAll(s: State, run: seq<Step>): State {
    if run == [] then s
    else
      var t := AfterAll(s, run[..|run| - 1]);
      if Enabled(t, run[|run| - 1]) then After(t, run[|run| - 1]) else t
  }

  lemma {:induction false} RunKeeps(s: State, run: seq<Step>)
    requires Inv(s)
    ensures Inv(AfterAll(s, run))
    decreases |run|
  {
    if run != [] {
      RunKeeps(s, run[..|run| - 1]);
      var t := AfterAll(s, run[..|run| - 1]);
      if Enabled(t, run[|run| - 1]) {
        StepKeeps(t, run[|run| - 1]);
      }
    }
  }

  // ---------------------------------------------------------------------------------------------
  // What it means for every run
  // ---------------------------------------------------------------------------------------------

  /** However starts and ends interleave: a workload has at most one live monitor, a live monitor is
    * the registered one from its registration on, and the gauge counts the registered ones of the kind
    * whose map changed last. */
  lemma MonitorSafety(run: seq<Step>)
    ensures var s := AfterAll(NOTHING, run);
            && s.gauge == (if s.changed.None? then 0 else |set k | k in s.registered && k.kind == s.changed.value|)
            && (s.changed.None? ==> s.registered == map[])
            && (forall i, j :: Live(s, i) && Live(s, j) && s.keyOf[i] == s.keyOf[j] ==> i == j)
            && (forall i :: Live(s, i) && i in s.routines ==> s.keyOf[i] in s.registered && s.registered[s.keyOf[i]] == i)
  {
    RunKeeps(NOTHING, run);
    var s := AfterAll(NOTHING, run);
    forall i | Live(s, i) ensures Placed(s, i) {
    }
    if s.changed.Some? {
      var part := OfKind(s.registered, s.changed.value);
      assert part.Keys == set k | k in s.registered && k.kind == s.changed.value;
      assert |part| == |part.Keys|;
    }
  }

  lemma {:induction false} PartIsWhole(m: map<Key, Uuid>, kind: string)
    ensures |OfKind(m, kind)| == |m| <==> forall k :: k in m ==> k.kind == kind
  {
    var part := OfKind(m, kind);
    assert part.Keys <= m.Keys;
    if forall k :: k in m ==> k.kind == kind {
      assert part == m;
    } else {
      var k :| k in m && k.kind != kind;
      assert k !in part.Keys;
      SubsetIsSmaller(part.Keys, m.Keys - {k});
    }
  }

  lemma {:induction false} SubsetIsSmaller<T>(a: set<T>, b: set<T>)
    requires a <= b
    ensures |a| <= |b|
  {
    if a != {} {
      var x :| x in a;
      SubsetIsSmaller(a - {x}, b - {x});
    }
  }

  /** The gauge shows the number of all registered monitors exactly when none is of another kind than
    * the one whose map changed last. */
  lemma GaugeIsTotalIff(run: seq<Step>)
    ensures var s := AfterAll(NOTHING, run);
            s.gauge == |s.registered| <==> forall k :: k in s.registered ==> s.changed == Some(k.kind)
  {
    RunKeeps(NOTHING, run);
    var s := AfterAll(NOTHING, run);
    if s.changed.Some? {
      PartIsWhole(s.registered, s.changed.value);
    }
  }

  /** One Application and one Naisjob being monitored: the gauge shows one. */
  lemma GaugeMissesAnother(app: Key, job: Key, first: Uuid, second: Uuid)
    requires app.kind == "Application" && job.kind == "Naisjob" && first != second
    ensures var s := AfterAll(NOTHING, StartRun(app, first) + StartRun(job, second));
            app in s.registered && job in s.registered && s.changed == Some("Naisjob") && s.gauge < |s.registered|
  {
    Started(NOTHING, [], app, first);
    assert [] + StartRun(app, first) == StartRun(app, first);
    Started(NOTHING, StartRun(app, first), job, second);
    var run := StartRun(app, first) + StartRun(job, second);
    var s := AfterAll(NOTHING, run);
    RunKeeps(NOTHING, run);
    GaugeIsTotalIff(run);
    SubsetIsSmaller(OfKind(s.registered, "Naisjob").Keys, s.registered.Keys);
    assert app in s.registered && s.changed != Some(app.kind);
  }

  /** A monitor that finishes removes the entry of another one exactly when the two ids share their
    * first 32 bits. */
  lemma RemovesAnotherIff(run: seq<Step>, id: Uuid)
    requires Enabled(AfterAll(NOTHING, run), CleanUp(id))
    requires var s := AfterAll(NOTHING, run);
             s.keyOf[id] in s.registered && s.registered[s.keyOf[id]] != id
    ensures var s := AfterAll(NOTHING, run);
            var k := s.keyOf[id];
            k !in After(s, CleanUp(id)).registered <==> s.registered[k].prefix == id.prefix
  {
  }

  /** What is left for a goroutine to do. */
  function Ending(s: State, id: Uuid): seq<Step>
    requires id in s.routines
  {
    match s.routines[id]
    case Watching => [StopWatching(id), CleanUp(id)]
    case Cancelled => [CleanUp(id)]
    case Ended => []
  }

  lemma CleanUpEffect(s: State, id: Uuid)
    requires id in s.keyOf && s.keyOf[id] in s.registered
    ensures var t, k := CleanedUp(s, id), s.keyOf[id];
            && (k !in t.registered <==> s.registered[k].prefix == id.prefix)
            && (s.registered[k].prefix == id.prefix ==> s.registered[k] in t.cancelled)
            && id in t.routines && t.routines[id].Ended?
  {
  }

  /** In any run: when a goroutine that still lives comes to its end, it cancels and removes the monitor
    * that is registered in its place exactly when the two ids share their first 32 bits. */
  lemma EndingCancelsIff(run: seq<Step>, id: Uuid)
    requires var s := AfterAll(NOTHING, run);
             && id in s.routines && !s.routines[id].Ended? && id in s.keyOf
             && s.keyOf[id] in s.registered && s.registered[s.keyOf[id]] != id
    ensures var s := AfterAll(NOTHING, run);
            var t := AfterAll(NOTHING, run + Ending(s, id));
            var k := s.keyOf[id];
            && (k !in t.registered <==> s.registered[k].prefix == id.prefix)
            && (s.registered[k].prefix == id.prefix ==> s.registered[k] in t.cancelled)
            && id in t.routines && t.routines[id].Ended?
  {
    hide AfterAll, CleanedUp;
    var s := AfterAll(NOTHING, run);
    if s.routines[id].Watching? {
      var stopped := Snoc(NOTHING, run, StopWatching(id));
      CleanUpEffect(stopped, id);
      var _ := Snoc(NOTHING, run + [StopWatching(id)], CleanUp(id));
      assert run + [StopWatching(id)] + [CleanUp(id)] == run + Ending(s, id);
    } else {
      CleanUpEffect(s, id);
      var _ := Snoc(NOTHING, run, CleanUp(id));
    }
  }

  ghost predicate DistinctPrefixes(s: State) {
    forall i, j :: i in s.keyOf && j in s.keyOf && i.prefix == j.prefix ==> i == j
  }

  lemma CancelledOnlyByOwnFrom(s: State, step: Step, id: Uuid)
    requires Inv(s) && Enabled(s, step) && DistinctPrefixes(s)
    requires Live(s, id) && !Live(After(s, step), id)
    ensures step == StopWatching(id) || step == ClearPrevious(s.keyOf[id])
  {
    assert Placed(s, id);
  }

  /** With distinct prefixes a live monitor is cancelled only by its own end or by a newer start for
    * its workload. */
  lemma CancelledOnlyByOwn(run: seq<Step>, step: Step, id: Uuid)
    requires Enabled(AfterAll(NOTHING, run), step)
    requires DistinctPrefixes(AfterAll(NOTHING, run))
    requires Live(AfterAll(NOTHING, run), id) && !Live(After(AfterAll(NOTHING, run), step), id)
    ensures step == StopWatching(id) || step == ClearPrevious(AfterAll(NOTHING, run).keyOf[id])
  {
    RunKeeps(NOTHING, run);
    CancelledOnlyByOwnFrom(AfterAll(NOTHING, run), step, id);
  }

  /** The collision can happen: after this run the monitor of the first rollout, on its way out,
    * cancels the one of the second. */
  lemma CollisionCancelsSuccessor(k: Key, earlier: Uuid, later: Uuid)
    requires earlier != later && earlier.prefix == later.prefix
    ensures var run := StartRun(k, earlier) + [StopWatching(earlier)] + StartRun(k, later);
            && Live(AfterAll(NOTHING, run), later)
            && !Live(AfterAll(NOTHING, run + [CleanUp(earlier)]), later)
  {
    Started(NOTHING, [], k, earlier);
    assert [] + StartRun(k, earlier) == StartRun(k, earlier);
    var s := AfterAll(NOTHING, StartRun(k, earlier));
    var t := Snoc(NOTHING, StartRun(k, earlier), StopWatching(earlier));
    Started(NOTHING, StartRun(k, earlier) + [StopWatching(earlier)], k, later);
    var run := StartRun(k, earlier) + [StopWatching(earlier)] + StartRun(k, later);
    var end := Snoc(NOTHING, run, CleanUp(earlier));
  }

  function StartRun(k: Key, id: Uuid): seq<Step> {
    [ClearPrevious(k), MakeContext(k, id), Register(k)]
  }

  /** What an undisturbed start comes to. */
  ghost predicate IsStarted(t: State, u: State, k: Key, id: Uuid) {
    && k in u.registered && u.registered[k] == id && k !in u.starts && u.changed == Some(k.kind)
    && (forall j :: j != k ==> (j in u.registered <==> j in t.registered) && (j in u.starts <==> j in t.starts))
    && u.keyOf == t.keyOf[id := k] && u.routines == t.routines[id := Watching]
    && u.cancelled <= t.cancelled + if k in t.registered then {t.registered[k]} else {}
  }

  lemma StartEffect(t: State, k: Key, id: Uuid)
    ensures IsStarted(t, Entered(ContextMade(PreviousCleared(t, k), k, id), k, id), k, id)
  {
    CancelLeaves(t, k, None);
    var a := PreviousCleared(t, k);
    var b := ContextMade(a, k, id);
    var c := Entered(b, k, id);
    assert k in c.registered && c.registered[k] == id;
    assert c.cancelled == a.cancelled;
  }

  lemma Started(s: State, run: seq<Step>, k: Key, id: Uuid)
    requires k !in AfterAll(s, run).starts && id !in AfterAll(s, run).keyOf
    ensures IsStarted(AfterAll(s, run), AfterAll(s, run + StartRun(k, id)), k, id)
  {
    StartEffect(AfterAll(s, run), k, id);
    var run1 := run + [ClearPrevious(k)];
    var run2 := run1 + [MakeContext(k, id)];
    var t1 := Snoc(s, run, ClearPrevious(k));
    var t2 := Snoc(s, run1, MakeContext(k, id));
    var t3 := Snoc(s, run2, Register(k));
    assert run2 + [Register(k)] == run + StartRun(k, id);
  }

  lemma Snoc(s: State, run: seq<Step>, step: Step) returns (t: State)
    ensures t == AfterAll(s, run + [step])
    ensures t == var u := AfterAll(s, run); if Enabled(u, step) then After(u, step) else u
  {
    assert (run + [step])[..|run|] == run;
    t := AfterAll(s, run + [step]);
  }

  // ---------------------------------------------------------------------------------------------
  // The code, interleaved with whatever else goes on
  // ---------------------------------------------------------------------------------------------

  predicate IsOthers(step: Step, k: Option<Key>, id: Option<Uuid>) {
    match step
    case ClearPrevious(j) => Some(j) != k
    case MakeContext(j, _) => Some(j) != k
    case Register(j) => Some(j) != k
    case StopWatching(i) => Some(i) != id
    case CleanUp(i) => Some(i) != id
  }

  /** The start for `k` and the goroutine `id` are where they were; nothing made is forgotten. */
  ghost predicate LeftAlone(s: State, t: State, k: Option<Key>, id: Option<Uuid>) {
    && (k.Some? ==> (k.value in t.starts <==> k.value in s.starts))
    && (k.Some? && k.value in s.starts ==> t.starts[k.value] == s.starts[k.value])
    && (id.Some? && id.value in s.routines ==>
          id.value in t.routines && t.routines[id.value] == s.routines[id.value])
    && s.cancelled <= t.cancelled
    && (forall i :: i in s.keyOf ==> i in t.keyOf && t.keyOf[i] == s.keyOf[i])
  }

  lemma OthersLeaveAlone(s: State, step: Step, k: Option<Key>, id: Option<Uuid>)
    requires Inv(s) && Enabled(s, step) && IsOthers(step, k, id)
    ensures LeftAlone(s, After(s, step), k, id)
  {
    match step
    case ClearPrevious(j) => CancelLeaves(s, j, None);
    case CleanUp(i) => CancelLeaves(s, s.keyOf[i], Some(i));
    case _ =>
  }

  lemma CancelLeaves(s: State, k: Key, expected: Option<Uuid>)
    ensures var t := CancelRegistered(s, k, expected);
            t.starts == s.starts && t.keyOf == s.keyOf && t.routines == s.routines && s.cancelled <= t.cancelled
  {
  }

  class Monitors {
    var state: State
    ghost var run: seq<Step>

    ghost predicate Valid()
      reads this
    {
      state == AfterAll(NOTHING, run)
    }

    constructor ()
      ensures Valid() && state == NOTHING
    {
      state := NOTHING;
      run := [];
    }

    method Take(step: Step)
      requires Valid() && Enabled(state, step)
      modifies this
      ensures Valid() && state == After(old(state), step) && run == old(run) + [step]
    {
      var _ := Snoc(NOTHING, run, step);
      state := After(state, step);
      run := run + [step];
    }

    /** Other starts and other goroutines do as they like; a start for `k` and the end of the
      * goroutine `id` are left to their own. */
    method Interfere(k: Option<Key>, id: Option<Uuid>)
      requires Valid()
      modifies this
      ensures Valid() && old(run) <= run && LeftAlone(old(state), state, k, id)
    {
      var steps: seq<Step> := *;
      for n := 0 to |steps|
        invariant Valid() && old(run) <= run && LeftAlone(old(state), state, k, id)
      {
        if Enabled(state, steps[n]) && IsOthers(steps[n], k, id) {
          RunKeeps(NOTHING, run);
          OthersLeaveAlone(state, steps[n], k, id);
          Take(steps[n]);
        }
      }
    }

    /** The critical section: cancel what is registered, unless a different monitor was expected. */
    method CancelMonitor(k: Key, expected: Option<Uuid>) returns (s: State)
      ensures s == CancelRegistered(state, k, expected)
    {
      s := state;
      if k !in s.registered {
        return;
      }
      var rollout := s.registered[k];
      if expected.Some? && rollout.prefix != expected.value.prefix {
        return;
      }
      s := s.(cancelled := s.cancelled + {rollout});
      s := s.(registered := s.registered - {k});
      s := s.(gauge := |OfKind(s.registered, k.kind)|, changed := Some(k.kind));
    }

    /** Cancels what the workload has running and registers a monitor with a fresh id. */
    method MonitorRollout(k: Key) returns (id: Uuid)
      requires Valid() && k !in state.starts
      modifies this
      ensures Valid() && old(run) <= run
      ensures id !in old(state).keyOf && k !in state.starts
      ensures k in state.registered && state.registered[k] == id
      ensures id in state.routines && state.routines[id].Watching?
    {
      var cleared := CancelMonitor(k, None);
      Take(ClearPrevious(k));
      assert state == cleared.(starts := cleared.starts[k := Cleared]);
      Interfere(Some(k), None);
      SomeFresh(state.keyOf.Keys);
      id :| id !in state.keyOf.Keys;
      Take(MakeContext(k, id));
      Interfere(Some(k), None);
      Take(Register(k));
    }

    /** The goroutine of a monitor: it stops watching at any time, cancels itself, and then removes
      * its entry unless a newer one has taken its place. */
    method MonitorRoutine(id: Uuid)
      requires Valid() && id in state.routines && state.routines[id].Watching?
      modifies this
      ensures Valid() && old(run) <= run
      ensures id in state.cancelled && forall k :: k in state.registered ==> state.registered[k] != id
    {
      hide AfterAll;
      RunKeeps(NOTHING, run);
      Interfere(None, Some(id));
      Take(StopWatching(id));
      Interfere(None, Some(id));
      RunKeeps(NOTHING, run);
      var cleaned := CancelMonitor(state.keyOf[id], Some(id));
      Take(CleanUp(id));
      assert state == cleaned.(routines := cleaned.routines[id := Ended]);
    }
  }

  /** There is always an id that was not handed out yet. */
  lemma {:induction false} SomeFresh(ids: set<Uuid>)
    ensures exists id: Uuid :: id !in ids
  {
    var n := Beyond(ids);
    assert Uuid(0, n) !in ids;
  }

  lemma {:induction false} Beyond(ids: set<Uuid>) returns (n: nat)
    ensures forall id :: id in ids ==> id.rest < n
    decreases ids
  {
    n := 0;
    if ids != {} {
      var id :| id in ids;
      n := Beyond(ids - {id});
      n := if id.rest < n then n else id.rest + 1;
    }
  }
}
