/** Kubernetes events about workloads, and the accounting of rollout completion in a monitor. */
module Events {

  datatype ObjectRef = ObjectRef(name: string, uid: nat)

  datatype Event = Event(involved: ObjectRef, reason: string, message: string, count: nat, lastSeen: nat, annotations: string)

  /** What goes wrong while an event is reported: the list call, with an error or with "not found",
    * or the write that follows it. */
  datatype Fault = NoFault | ListFails | ListNotFound | WriteFails

  datatype Report = Report(event: Event, fault: Fault)

  // ---------------------------------------------------------------------------------------------
  // One report
  // ---------------------------------------------------------------------------------------------

  predicate SameSubject(a: Event, b: Event) {
    a.involved == b.involved && a.message == b.message
  }

  /** The stored event seen again. */
  function Again(stored: Event, reported: Event): Event {
    stored.(count := stored.count + 1, lastSeen := reported.lastSeen, annotations := reported.annotations)
  }

  /** The place of the first stored event on the subject of `e`; the length when there is none. */
  function FirstOn(log: seq<Event>, e: Event): (i: nat)
    ensures i <= |log|
    ensures forall j :: 0 <= j < i ==> !SameSubject(log[j], e)
    ensures i < |log| ==> SameSubject(log[i], e)
  {
    if log == [] || SameSubject(log[0], e) then 0 else 1 + FirstOn(log[1..], e)
  }

  predicate Succeeds(r: Report) {
    !r.fault.ListFails? && !r.fault.WriteFails?
  }

  function Reported(log: seq<Event>, r: Report): seq<Event> {
    if !Succeeds(r) then log
    else
      var i := if r.fault.ListNotFound? then |log| else FirstOn(log, r.event);
      if i < |log| then log[i := Again(log[i], r.event)] else log + [r.event]
  }

  class Recorder {
    var log: seq<Event>

    constructor ()
      ensures log == []
    {
      log := [];
    }

    /** Creates an event, or raises the counter of the one already stored on the same subject. */
    method ReportEvent(r: Report) returns (ok: bool)
      modifies this
      ensures log == Reported(old(log), r) && (ok <==> !r.fault.ListFails? && !r.fault.WriteFails?)
    {
      if r.fault.ListFails? {
        return false;
      }
      var items := if r.fault.ListNotFound? then [] else log;
      var i := 0;
      while i < |items|
        invariant i <= |items| && log == old(log)
        invariant forall j :: 0 <= j < i ==> !SameSubject(items[j], r.event)
      {
        if items[i].involved == r.event.involved && items[i].message == r.event.message {
          if r.fault.WriteFails? {
            return false;
          }
          log := log[i := Again(items[i], r.event)];
          return true;
        }
        i := i + 1;
      }
      if r.fault.WriteFails? {
        return false;
      }
      log := log + [r.event];
      return true;
    }
  }

  /** A report whose calls succeed sees again the first stored event on the same object with the same
    * message: one more, at the reported time, with the reported annotations. Without one, or when the
    * list call answers "not found", the event is stored as it is; and a failed call stores nothing. */
  lemma ReportMeans(log: seq<Event>, r: Report, i: nat)
    requires i <= |log|
    requires forall j :: 0 <= j < i ==> log[j].involved != r.event.involved || log[j].message != r.event.message
    requires i < |log| ==> log[i].involved == r.event.involved && log[i].message == r.event.message
    ensures r.fault.ListFails? || r.fault.WriteFails? ==> Reported(log, r) == log
    ensures r.fault.ListNotFound? || (r.fault.NoFault? && i == |log|) ==> Reported(log, r) == log + [r.event]
    ensures r.fault.NoFault? && i < |log| ==>
              var e := log[i];
              Reported(log, r) == log[..i] + [Event(e.involved, e.reason, e.message, e.count + 1, r.event.lastSeen, r.event.annotations)]
                                  + log[i + 1..]
  {
    var first := FirstOn(log, r.event);
    if first < |log| {
      assert SameSubject(log[first], r.event);
    }
    if i < |log| {
      assert SameSubject(log[i], r.event);
    }
    assert first == i;
    if i < |log| {
      var again := Again(log[i], r.event);
      assert log[i := again] == log[..i] + [again] + log[i + 1..];
    }
  }

  // ---------------------------------------------------------------------------------------------
  // Runs of reports
  // ---------------------------------------------------------------------------------------------

  ghost predicate NoDuplicates(log: seq<Event>) {
    forall i, j :: 0 <= i < j < |log| ==> !SameSubject(log[i], log[j])
  }

  ghost predicate Mentions(log: seq<Event>, e: Event) {
    exists i :: 0 <= i < |log| && SameSubject(log[i], e)
  }

  /** A report keeps the log free of duplicates, except when the list call answers "not found"
    * although an event on the subject is stored. */
  lemma StaysUniqueIff(log: seq<Event>, r: Report)
    requires NoDuplicates(log)
    ensures NoDuplicates(Reported(log, r)) <==> !(r.fault.ListNotFound? && Mentions(log, r.event))
  {
    var after := Reported(log, r);
    if r.fault.ListNotFound? && Mentions(log, r.event) {
      var i :| 0 <= i < |log| && SameSubject(log[i], r.event);
      assert SameSubject(after[i], after[|log|]);
    }
  }

  /** How often the subject of `e` was seen, by the counters in the log. */
  ghost function Total(log: seq<Event>, e: Event): nat {
    if log == [] then 0
    else (if SameSubject(log[0], e) then log[0].count else 0) + Total(log[1..], e)
  }

  lemma {:induction false} TotalAppend(log: seq<Event>, last: Event, e: Event)
    ensures Total(log + [last], e) == Total(log, e) + if SameSubject(last, e) then last.count else 0
  {
    if log == [] {
      assert log + [last] == [last];
    } else {
      assert (log + [last])[1..] == log[1..] + [last];
      TotalAppend(log[1..], last, e);
    }
  }

  lemma {:induction false} TotalAgain(log: seq<Event>, i: nat, e: Event, subject: Event)
    requires i < |log|
    ensures Total(log[i := Again(log[i], e)], subject) == Total(log, subject) + if SameSubject(log[i], subject) then 1 else 0
  {
    var after := log[i := Again(log[i], e)];
    if i == 0 {
      assert after[1..] == log[1..];
    } else {
      assert after[1..] == log[1..][i - 1 := Again(log[i], e)];
      TotalAgain(log[1..], i - 1, e, subject);
    }
  }

  /** A successful report of a new event counts once, for its own subject only; a failed one changes
    * nothing. */
  lemma CountsOnce(log: seq<Event>, r: Report, subject: Event)
    requires r.event.count == 1
    ensures Total(Reported(log, r), subject)
         == Total(log, subject) + if Succeeds(r) && SameSubject(r.event, subject) then 1 else 0
    ensures !Succeeds(r) ==> Reported(log, r) == log
  {
    if Succeeds(r) {
      var i := if r.fault.ListNotFound? then |log| else FirstOn(log, r.event);
      if i < |log| {
        TotalAgain(log, i, r.event, subject);
      } else {
        TotalAppend(log, r.event, subject);
      }
    }
  }

  ghost function AfterReports(reports: seq<Report>): seq<Event> {
    if reports == [] then [] else Reported(AfterReports(reports[..|reports| - 1]), reports[|reports| - 1])
  }

  predicate Hits(r: Report, subject: Event) {
    Succeeds(r) && SameSubject(r.event, subject)
  }

  ghost function Successes(reports: seq<Report>, subject: Event): nat {
    if reports == [] then 0
    else Successes(reports[..|reports| - 1], subject) + if Hits(reports[|reports| - 1], subject) then 1 else 0
  }

  /** The last successful report on a subject; the length when there is none. */
  ghost function LastSuccess(reports: seq<Report>, subject: Event): (i: nat)
    ensures i <= |reports|
    ensures i < |reports| ==> Hits(reports[i], subject)
    ensures forall j :: 0 <= j < |reports| && (i == |reports| || i < j) ==> !Hits(reports[j], subject)
  {
    if reports == [] then 0
    else
      var n := |reports| - 1;
      if Hits(reports[n], subject) then n
      else
        var i := LastSuccess(reports[..n], subject);
        assert forall j :: 0 <= j < n ==> reports[j] == reports[..n][j];
        if i == n then |reports| else i
  }

  /** After any run of reports whose list calls answer, each subject ever reported with success has
    * one event: it counts those reports and carries the time and annotations of the last one. */
  lemma {:induction false} LogTellsTheRun(reports: seq<Report>, subject: Event)
    requires forall r :: r in reports ==> r.event.count == 1 && !r.fault.ListNotFound?
    ensures var log := AfterReports(reports);
            var last := LastSuccess(reports, subject);
            && NoDuplicates(log)
            && Total(log, subject) == Successes(reports, subject)
            && (Mentions(log, subject) <==> last < |reports|)
            && (forall e :: e in log && SameSubject(e, subject) ==>
                  e.lastSeen == reports[last].event.lastSeen && e.annotations == reports[last].event.annotations)
    decreases |reports|
  {
    if reports != [] {
      var n := |reports| - 1;
      var before, r := reports[..n], reports[n];
      assert r in reports;
      forall q | q in before ensures q in reports {
      }
      LogTellsTheRun(before, subject);
      var log := AfterReports(before);
      StaysUniqueIff(log, r);
      CountsOnce(log, r, subject);
      OneReport(log, r, subject);
    }
  }

  lemma OneReport(log: seq<Event>, r: Report, subject: Event)
    requires NoDuplicates(log) && !r.fault.ListNotFound?
    ensures var after := Reported(log, r);
            if Succeeds(r) && SameSubject(r.event, subject) then
              && Mentions(after, subject)
              && (forall e :: e in after && SameSubject(e, subject) ==>
                    e.lastSeen == r.event.lastSeen && e.annotations == r.event.annotations)
            else
              && (Mentions(after, subject) <==> Mentions(log, subject))
              && (forall e :: e in after && SameSubject(e, subject) ==> e in log)
  {
    var after := Reported(log, r);
    var i := FirstOn(log, r.event);
    if Succeeds(r) {
      assert i < |log| ==> after[i] == Again(log[i], r.event);
      assert i == |log| ==> after[i] == r.event;
      forall e | e in after && SameSubject(e, subject)
        ensures if SameSubject(r.event, subject) then e == after[i] else e in log
      {
        var j :| 0 <= j < |after| && after[j] == e;
        if j != i {
          assert after[j] == log[j];
        }
      }
      if SameSubject(r.event, subject) {
        assert SameSubject(after[i], subject);
      } else {
        assert forall j :: 0 <= j < |log| && SameSubject(log[j], subject) ==> after[j] == log[j];
        assert forall j :: 0 <= j < |after| && SameSubject(after[j], subject) ==> j < |log| && after[j] == log[j];
      }
    }
  }
}
