/** How a monitor brings a rollout to completion: it looks at the workload on every tick and, once
  * the rollout is done, saves an event and then the status "RolloutComplete".
  */
module Completion {
  import opened Events

  datatype DeploymentState = DeploymentState(
    desired: int, updated: int, replicas: int, available: int, observedGeneration: int, generation: int)

  datatype JobCreation = JobCreated | JobExists | JobRefused

  /** What a look at the workload's main resource finds. */
  datatype Sight =
    | Unavailable
    | Deployed(state: DeploymentState)
    | Scheduled(suspended: bool, creation: JobCreation)

  /** One turn of the select: the context was cancelled, or the interval passed. */
  datatype Tick = Superseded | Interval(sight: Sight, event: Fault, statusFails: bool)

  /** What the cluster sees of an attempt to complete. */
  datatype Action = EventSaved | EventLost | StatusWritten | StatusLost

  datatype CompletionState = CompletionState(eventReported: bool, applicationUpdated: bool) {
    predicate SaveEvent() {
      !eventReported
    }

    predicate SetSynchronizationState() {
      !applicationUpdated && eventReported
    }
  }

  predicate DeploymentComplete(d: DeploymentState) {
    d.updated == d.desired && d.replicas == d.desired && d.available == d.desired && d.observedGeneration >= d.generation
  }

  predicate Ready(s: Sight) {
    match s
    case Unavailable => false
    case Deployed(d) => DeploymentComplete(d)
    case Scheduled(suspended, creation) => !suspended || !creation.JobRefused?
  }

  function Attempt(event: Fault, statusFails: bool): seq<Action> {
    if event.ListFails? || event.WriteFails? then [EventLost]
    else [EventSaved, if statusFails then StatusLost else StatusWritten]
  }

  /** Everything a monitor does on the ticks it lives through. */
  function Actions(ticks: seq<Tick>): seq<Action> {
    if ticks == [] || ticks[0].Superseded? then []
    else if !Ready(ticks[0].sight) then Actions(ticks[1..])
    else
      var done := Attempt(ticks[0].event, ticks[0].statusFails);
      if StatusWritten in done then done else done + Actions(ticks[1..])
  }

  class Monitor {
    const completed: Event
    const recorder: Recorder
    var status: string
    ghost var trace: seq<Action>

    constructor (completed: Event, recorder: Recorder)
      ensures this.completed == completed && this.recorder == recorder && trace == []
    {
      this.completed := completed;
      this.recorder := recorder;
      status := "";
      trace := [];
    }

    /** The completion state is passed by value, so what it learns here is gone with the call. */
    method CompleteRollout(given: CompletionState, event: Fault, statusFails: bool) returns (ok: bool)
      requires given == CompletionState(false, false)
      modifies this, recorder
      ensures trace == old(trace) + Attempt(event, statusFails)
      ensures recorder.log == Reported(old(recorder.log), Report(completed, event))
      ensures ok == (StatusWritten in Attempt(event, statusFails))
      ensures status == if ok then "RolloutComplete" else old(status)
    {
      var completion := given;
      if completion.SaveEvent() {
        var saved := recorder.ReportEvent(Report(completed, event));
        completion := completion.(eventReported := saved);
        trace := trace + [if saved then EventSaved else EventLost];
        if !saved {
          return false;
        }
      }
      if completion.SetSynchronizationState() {
        completion := completion.(applicationUpdated := !statusFails);
        trace := trace + [if statusFails then StatusLost else StatusWritten];
        if statusFails {
          return false;
        }
        status := "RolloutComplete";
      }
      return true;
    }

    method MonitorRolloutRoutine(ticks: seq<Tick>)
      modifies this, recorder
      ensures trace == old(trace) + Actions(ticks)
      ensures recorder.log == LogAfter(old(recorder.log), completed, ticks)
      ensures status == if StatusWritten in Actions(ticks) then "RolloutComplete" else old(status)
    {
      var completion := CompletionState(false, false);
      var n := 0;
      while n < |ticks|
        invariant n <= |ticks| && status == old(status)
        invariant trace + Actions(ticks[n..]) == old(trace) + Actions(ticks)
        invariant LogAfter(recorder.log, completed, ticks[n..]) == LogAfter(old(recorder.log), completed, ticks)
        invariant StatusWritten in Actions(ticks[n..]) <==> StatusWritten in Actions(ticks)
      {
        assert ticks[n..][1..] == ticks[n + 1..];
        if ticks[n].Superseded? {
          return;
        }
        if Ready(ticks[n].sight) {
          var ok := CompleteRollout(completion, ticks[n].event, ticks[n].statusFails);
          if ok {
            return;
          }
        }
        n := n + 1;
      }
    }
  }

  /** The event log when no one else reports meanwhile. */
  function LogAfter(log: seq<Event>, completed: Event, ticks: seq<Tick>): seq<Event>
    decreases |ticks|
  {
    if ticks == [] || ticks[0].Superseded? then log
    else if !Ready(ticks[0].sight) then LogAfter(log, completed, ticks[1..])
    else
      var next := Reported(log, Report(completed, ticks[0].event));
      if StatusWritten in Attempt(ticks[0].event, ticks[0].statusFails) then next
      else LogAfter(next, completed, ticks[1..])
  }

  // ---------------------------------------------------------------------------------------------
  // Accounting
  // ---------------------------------------------------------------------------------------------

  ghost function Count(actions: seq<Action>, a: Action): nat {
    if actions == [] then 0 else (if actions[0] == a then 1 else 0) + Count(actions[1..], a)
  }

  lemma {:induction false} CountJoin(xs: seq<Action>, ys: seq<Action>, a: Action)
    ensures Count(xs + ys, a) == Count(xs, a) + Count(ys, a)
  {
    if xs == [] {
      assert xs + ys == ys;
    } else {
      assert (xs + ys)[1..] == xs[1..] + ys;
      CountJoin(xs[1..], ys, a);
    }
  }

  lemma CountOne(x: Action)
    ensures forall a: Action :: Count([x], a) == if x == a then 1 else 0
  {
    assert [x][1..] == [];
  }

  lemma CountAttempt(event: Fault, statusFails: bool)
    ensures var done := Attempt(event, statusFails);
            && Count(done, EventSaved) == (if event.ListFails? || event.WriteFails? then 0 else 1)
            && Count(done, StatusWritten) == (if StatusWritten in done then 1 else 0)
            && Count(done, StatusLost) == (if StatusLost in done then 1 else 0)
  {
    var done := Attempt(event, statusFails);
    CountOne(done[0]);
    if |done| == 1 {
      assert done == [done[0]];
    } else {
      CountOne(done[1]);
      assert done == [done[0]] + [done[1]];
      forall a: Action ensures Count(done, a) == Count([done[0]], a) + Count([done[1]], a) {
        CountJoin([done[0]], [done[1]], a);
      }
    }
  }

  /** Every status write follows a saved event and the other way round; a successful one is last. */
  ghost predicate Orderly(t: seq<Action>) {
    && (forall i :: 0 <= i < |t| && t[i].StatusWritten? ==> i == |t| - 1)
    && (forall i :: 0 <= i < |t| && (t[i].StatusWritten? || t[i].StatusLost?) ==> i > 0 && t[i - 1].EventSaved?)
    && (forall i :: 0 <= i < |t| && t[i].EventSaved? ==> i + 1 < |t| && (t[i + 1].StatusWritten? || t[i + 1].StatusLost?))
  }

  /** On any ticks: the status is written at most once, as the last thing, and right after an event
    * was saved. */
  lemma {:induction false} CompletesOnce(ticks: seq<Tick>)
    ensures Orderly(Actions(ticks))
  {
    if ticks != [] && ticks[0].Interval? {
      CompletesOnce(ticks[1..]);
      if Ready(ticks[0].sight) {
        OrderlyJoin(ticks[0].event, ticks[0].statusFails, Actions(ticks[1..]));
      }
    }
  }

  lemma OrderlyJoin(event: Fault, statusFails: bool, rest: seq<Action>)
    requires Orderly(rest)
    ensures var done := Attempt(event, statusFails);
            Orderly(done) && (StatusWritten !in done ==> Orderly(done + rest))
  {
    var done := Attempt(event, statusFails);
    var t := done + rest;
    assert forall i :: 0 <= i < |rest| ==> t[|done| + i] == rest[i];
    if StatusWritten !in done {
      forall i | 0 <= i < |t|
        ensures t[i].StatusWritten? ==> i == |t| - 1
        ensures t[i].StatusWritten? || t[i].StatusLost? ==> i > 0 && t[i - 1].EventSaved?
        ensures t[i].EventSaved? ==> i + 1 < |t| && (t[i + 1].StatusWritten? || t[i + 1].StatusLost?)
      {
        if i >= |done| {
          assert t[i] == rest[i - |done|];
        }
      }
    }
  }

  /** Saved events are as many as status writes, failed ones included. */
  lemma {:induction false} SavedEvents(ticks: seq<Tick>)
    ensures var t := Actions(ticks);
            && Count(t, EventSaved) == Count(t, StatusWritten) + Count(t, StatusLost)
            && Count(t, StatusWritten) == (if StatusWritten in t then 1 else 0)
            && (Count(t, StatusLost) == 0 <==> StatusLost !in t)
  {
    if ticks != [] && ticks[0].Interval? {
      SavedEvents(ticks[1..]);
      if Ready(ticks[0].sight) {
        CountAttempt(ticks[0].event, ticks[0].statusFails);
        var done, rest := Attempt(ticks[0].event, ticks[0].statusFails), Actions(ticks[1..]);
        CountJoin(done, rest, EventSaved);
        CountJoin(done, rest, StatusWritten);
        CountJoin(done, rest, StatusLost);
      }
    }
  }

  /** All replicas wanted are there, updated and available, and no others, as of the newest generation;
    * or the job has been started, unless it need not be. */
  predicate RolledOut(s: Sight) {
    || (s.Deployed? && s.state.desired == s.state.updated == s.state.replicas == s.state.available
        && s.state.generation <= s.state.observedGeneration)
    || (s.Scheduled? && (s.suspended ==> s.creation == JobCreated || s.creation == JobExists))
  }

  /** The event is saved on this tick. */
  predicate Saves(t: Tick) {
    t.Interval? && RolledOut(t.sight) && !t.event.ListFails? && !t.event.WriteFails?
  }

  lemma ReadyIff(s: Sight)
    ensures Ready(s) <==> RolledOut(s)
  {
  }

  /** The event is saved and the status written. */
  predicate Completes(t: Tick) {
    Saves(t) && !t.statusFails
  }

  /** How many ticks the monitor lives through: up to the first that cancels or completes it. */
  function Life(ticks: seq<Tick>): (n: nat)
    ensures n <= |ticks|
    ensures forall i :: 0 <= i < n - 1 ==> !ticks[i].Superseded? && !Completes(ticks[i])
    ensures n < |ticks| ==> n > 0 && (ticks[n - 1].Superseded? || Completes(ticks[n - 1]))
  {
    if ticks == [] then 0
    else if ticks[0].Superseded? || Completes(ticks[0]) then 1
    else 1 + Life(ticks[1..])
  }

  ghost function Saving(ticks: seq<Tick>): nat {
    if ticks == [] then 0 else (if Saves(ticks[0]) then 1 else 0) + Saving(ticks[1..])
  }

  /** One saved event for each tick, while the monitor lives, on which the workload is ready and the
    * event calls succeed; and completion when, on top of that, the status write does. */
  lemma {:induction false} SavedOn(ticks: seq<Tick>)
    ensures Count(Actions(ticks), EventSaved) == Saving(ticks[..Life(ticks)])
    ensures StatusWritten in Actions(ticks) <==> Life(ticks) > 0 && Completes(ticks[Life(ticks) - 1])
  {
    if ticks != [] {
      var t, rest := ticks[0], ticks[1..];
      SavedOn(rest);
      if t.Interval? {
        ReadyIff(t.sight);
      }
      assert Life(ticks) > 1 ==> ticks[..Life(ticks)][1..] == rest[..Life(rest)];
      assert Life(ticks) == 1 ==> ticks[..1][1..] == [];
      if t.Interval? && Ready(t.sight) {
        CountAttempt(t.event, t.statusFails);
        CountJoin(Attempt(t.event, t.statusFails), Actions(rest), EventSaved);
      }
    }
  }

  lemma {:induction false} AtMostOneSaving(ticks: seq<Tick>)
    ensures Saving(ticks) == 0 <==> forall i :: 0 <= i < |ticks| ==> !Saves(ticks[i])
    ensures Saving(ticks) <= 1 <==> forall i, j :: 0 <= i < j < |ticks| ==> !(Saves(ticks[i]) && Saves(ticks[j]))
  {
    if ticks != [] {
      var rest := ticks[1..];
      AtMostOneSaving(rest);
      assert forall i :: 0 <= i < |rest| ==> rest[i] == ticks[i + 1];
      assert forall i :: 0 < i < |ticks| ==> ticks[i] == rest[i - 1];
    }
  }

  /** A rollout is announced at most once exactly when at most one tick in the life of its monitor
    * finds it ready and saves the event; once it is completed, exactly when no earlier tick saved the
    * event and then failed to write the status. What was saved is not remembered between ticks. */
  lemma AnnouncedOnceIff(ticks: seq<Tick>)
    ensures var n := Life(ticks);
            && (Count(Actions(ticks), EventSaved) <= 1
                <==> forall i, j :: 0 <= i < j < n ==> !(Saves(ticks[i]) && Saves(ticks[j])))
            && (n > 0 && Completes(ticks[n - 1]) ==>
                  (Count(Actions(ticks), EventSaved) == 1
                   <==> forall i :: 0 <= i < n - 1 ==> !(Saves(ticks[i]) && ticks[i].statusFails)))
  {
    var n := Life(ticks);
    SavedOn(ticks);
    AtMostOneSaving(ticks[..n]);
    if n > 0 && Completes(ticks[n - 1]) {
      assert ticks[..n][n - 1] == ticks[n - 1];
      assert forall i :: 0 <= i < n ==> ticks[..n][i] == ticks[i];
      assert forall i :: 0 <= i < n - 1 && Saves(ticks[i]) ==> ticks[i].statusFails;
    }
  }

  /** A status write that fails once makes two announcements of one rollout. */
  lemma AnnouncedTwice(sight: Sight)
    requires RolledOut(sight)
    ensures Actions([Interval(sight, NoFault, true), Interval(sight, NoFault, false)])
         == [EventSaved, StatusLost, EventSaved, StatusWritten]
  {
    ReadyIff(sight);
    var second := [Interval(sight, NoFault, false)];
    assert [Interval(sight, NoFault, true), Interval(sight, NoFault, false)][1..] == second;
    assert Actions(second) == [EventSaved, StatusWritten];
  }

  /** The counters in the cluster agree with the trace of the monitor. */
  lemma {:induction false} CountersAgree(log: seq<Event>, completed: Event, ticks: seq<Tick>)
    requires completed.count == 1
    ensures Total(LogAfter(log, completed, ticks), completed) == Total(log, completed) + Count(Actions(ticks), EventSaved)
    decreases |ticks|
  {
    if ticks != [] && ticks[0].Interval? {
      if Ready(ticks[0].sight) {
        var r := Report(completed, ticks[0].event);
        CountsOnce(log, r, completed);
        CountAttempt(ticks[0].event, ticks[0].statusFails);
        CountersAgree(Reported(log, r), completed, ticks[1..]);
        CountJoin(Attempt(ticks[0].event, ticks[0].statusFails), Actions(ticks[1..]), EventSaved);
      } else {
        CountersAgree(log, completed, ticks[1..]);
      }
    }
  }
}
