/**
 What a workflow is told, in plain terms: the version it gets, the value of a side effect,
 the call it makes, and what an event says to whom.
 */
module Answers {
  import opened Common
  import opened DecisionMachine
  import opened DecisionsState
  import opened DecisionsRuns
  import opened HelperAgreement
  import opened Calls
  import opened Replays

  // ---------------------------------------------------------------- events and cancellations

  /** The notices of an event or a cancellation that answers call `id`, unless it was answered before. */
  predicate Tells(c: Calls, id: DecisionID, notices: seq<Notice>, said: seq<Notice>) {
    id in c.data && notices == if c.data[id].handled then [] else said
  }

  /** Every event says its own result, to the call it belongs to by name or by event ID. */
  lemma EventTells(c: Calls, ev: HistoryEvent)
    requires Inv(c.helper) && Receive(c, ev).Some?
    ensures var h, ns := c.helper, Receive(c, ev).value.1;
            match ev
            case ActivityTaskClosed(e, v) =>
              && e in h.activityIDs
              && var id := DecisionID(Activity, h.activityIDs[e]); Tells(c, id, ns, [Answered(id, Closed(v))])
            case ActivityTaskCanceled(e, v) =>
              && e in h.activityIDs
              && var id := DecisionID(Activity, h.activityIDs[e]); Tells(c, id, ns, [Answered(id, CanceledByServer(v))])
            case TimerFired(t) => var id := DecisionID(Timer, t); Tells(c, id, ns, [Answered(id, Closed(""))])
            case StartChildFailed(w) =>
              var id, o := DecisionID(ChildWorkflow, w), Closed("Workflow execution already started");
              Tells(c, id, ns, [ChildRunning(id, o), Answered(id, o)])
            case ChildStarted(w, run) =>
              var id := DecisionID(ChildWorkflow, w); Tells(c, id, ns, [ChildRunning(id, Closed(run))])
            case ChildClosed(w, v) => var id := DecisionID(ChildWorkflow, w);
                Tells(c, id, ns, [Answered(id, Closed(v))])
            case ChildCanceled(w, v) =>
              var id := DecisionID(ChildWorkflow, w); Tells(c, id, ns, [Answered(id, CanceledByServer(v))])
            case CancelExternalRequested(e, _) =>
              if e !in h.cancellationIDs then ns == []
              else var id := DecisionID(Cancellation, h.cancellationIDs[e]);
                  Tells(c, id, ns, [Answered(id, Closed(""))])
            case CancelExternalFailed(e, _, v) =>
              if e !in h.cancellationIDs then ns == []
              else var id := DecisionID(Cancellation, h.cancellationIDs[e]); Tells(c, id, ns, [Answered(id, Closed(v))])
            case SignalExternalClosed(e, v) =>
              && e in h.signalIDs
              && var id := DecisionID(Signal, h.signalIDs[e]); Tells(c, id, ns, [Answered(id, Closed(v))])
            case WorkflowSignaled(name, input) => ns == [Signaled(name, input)]
            case WorkflowCancelRequested => ns == [CancelRequested]
            case _ => ns == []
  {
    hide LookUpAndDeliver, LookUp, Drain, AddMachine, Inv, StateOf;
    if ev.ActivityTaskCanceled? { CanceledIsDone(c.helper, c.helper.activityIDs[ev.scheduledEventID]); }
  }

  /** A cancelled event that is accepted completes its activity. */
  lemma CanceledIsDone(h: HelperState, a: string)
    requires Inv(h) && LookUpAndDeliver(h, DecisionID(Activity, a), OnCanceled).1
    ensures StateOf(LookUpAndDeliver(h, DecisionID(Activity, a), OnCanceled).0, DecisionID(Activity, a)) == Completed
  {
    hide LookUpAndDeliver, Inv;
    var id := DecisionID(Activity, a);
    CanceledIsRemoved(h, id);
    LookUpAndDeliverKeepsInv(h, id, OnCanceled);
    IndexIsFind(LookUpAndDeliver(h, id, OnCanceled).0, id);
  }

  lemma CanceledIsRemoved(h: HelperState, id: DecisionID)
    requires id.kind.Activity? && LookUpAndDeliver(h, id, OnCanceled).1
    ensures id !in LookUpAndDeliver(h, id, OnCanceled).0.index
  {
  }

  /** A timer that is cancelled is told so at once, an activity if it does not wait or is done; a child never. */
  lemma CancelTells(c: Calls, id: DecisionID)
    requires CancelCall(c, id).Some? && (id.kind.Activity? || id.kind.Timer? || id.kind.ChildWorkflow?)
    ensures var c', ns := CancelCall(c, id).value.0, CancelCall(c, id).value.1;
            match id.kind
            case Timer => Tells(c, id, ns, [Answered(id, CanceledLocally)])
            case Activity =>
              && id in c.data
              && var now := !c.data[id].wait || Done(StateOf(c'.helper, id));
                 Tells(c, id, ns, if now then [Answered(id, CanceledLocally)] else [])
            case _ => ns == []
  {
    hide LookUpAndDeliver, StateOf;
  }

  // ---------------------------------------------------------------- calls

  /** Under which ID a call is made. */
  predicate IsIDOf(e: Env, q: Request, id: string) {
    if q.given == "" then id == q.prefix + Decimal(ID(e.counter)) else id == q.given
  }

  /**
   A call is made under its own ID or takes the next sequence number, unless there is one under that ID;
   it has not been sent, and nobody has answered it.
   */
  lemma CallIsMade(e: Env, q: Request, id: string)
    requires IsIDOf(e, q, id) && Inv(e.calls.helper)
    ensures Execute(e, q).Some? <==> DecisionID(q.kind, id) !in e.calls.helper.index
    ensures Execute(e, q).Some? ==>
              var e', d := Execute(e, q).value, DecisionID(q.kind, id);
              && d in e'.calls.helper.index && StateOf(e'.calls.helper, d) == Created
              && d in e'.calls.data && e'.calls.data[d] == Data(q.wait, false)
              && e'.counter == (if q.given == "" then e.counter + 1 else e.counter)
              && e'.obs == e.obs + [if q.given == "" then Generated(id) else Named(id)]
  {
    var d := DecisionID(q.kind, id);
    if d !in e.calls.helper.index {
      IndexIsFind(e.calls.helper, d);
      NewIsFound(e.calls.helper, d);
    }
  }

  lemma NewIsFound(h: HelperState, id: DecisionID)
    requires id !in h.index && Find(h.ordered, id) == |h.ordered|
    ensures StateOf(AddMachine(h, id).0, id) == Created
  {
    var h' := AddMachine(h, id).0;
    assert h'.ordered[|h.ordered|].id == id;
    assert forall j :: 0 <= j < |h.ordered| ==> h'.ordered[j] == h.ordered[j];
  }

  /** Activities, timers, children, signals and external cancellations, and what each is called. */
  lemma CallsOfActions(e: Env, a: Action)
    ensures match a
            case ExecuteActivity(id, wait) => Plain(e, a) == Execute(e, Request(Kind.Activity, "", id, wait))
            case NewTimer(s) =>
              if s < 0 then Plain(e, a) == Some(e.(obs := e.obs + [NegativeTimer]))
              else if s == 0 then Plain(e, a) == Some(e.(obs := e.obs + [TimerElapsed]))
              else Plain(e, a) == Execute(e, Request(Kind.Timer, "", "", false))
            case ExecuteChildWorkflow(id, wait) =>
              Plain(e, a) == Execute(e, Request(Kind.ChildWorkflow, e.run + "_", id, wait))
            case SignalExternalWorkflow => Plain(e, a) == Execute(e, Request(Kind.Signal, "", "", false))
            case RequestCancelExternalWorkflow => Plain(e, a) == Execute(e, Request(Kind.Cancellation, "", "", false))
            case _ => true
  {
  }

  lemma {:induction false} DigitsDiffer(m: nat, n: nat)
    requires Digits(m) == Digits(n)
    ensures m == n
    decreases m
  {
    var a, b := Digits(m), Digits(n);
    assert a[|a| - 1] == (m % 10 + 48) as char && b[|b| - 1] == (n % 10 + 48) as char;
    assert m % 10 == n % 10;
    assert a[..|a| - 1] == b[..|b| - 1];
    assert a[..|a| - 1] == if m < 10 then "" else Digits(m / 10);
    assert b[..|b| - 1] == if n < 10 then "" else Digits(n / 10);
    if m >= 10 && n >= 10 { DigitsDiffer(m / 10, n / 10); }
  }

  lemma {:induction false} DigitsAreDigits(n: nat)
    ensures Digits(n) != "" && forall i :: 0 <= i < |Digits(n)| ==> '0' <= Digits(n)[i] <= '9'
  {
    if n >= 10 { DigitsAreDigits(n / 10); }
  }

  /** Sequence numbers less than 2^32 apart have different IDs. */
  lemma GeneratedIDsDiffer(m: nat, n: nat)
    requires m < n < m + SPAN
    ensures Decimal(ID(m)) != Decimal(ID(n))
  {
    var a, b := ID(m), ID(n);
    assert m % SPAN != n % SPAN;
    assert a != b;
    DigitsAreDigits(if a < 0 then -a else a);
    DigitsAreDigits(if b < 0 then -b else b);
    if Decimal(a) == Decimal(b) {
      assert Decimal(a)[0] == Decimal(b)[0];
      assert a < 0 <==> b < 0;
      if a < 0 {
        assert Decimal(a)[1..] == Digits(-a) && Decimal(b)[1..] == Digits(-b);
        DigitsDiffer(-a, -b);
      } else {
        DigitsDiffer(a, b);
      }
    }
  }

  // ---------------------------------------------------------------- versions

  /** The version that a call of GetVersion is about. */
  predicate IsVersion(e: Env, replay: bool, a: Action, v: int)
    requires a.GetVersion?
  {
    var known := a.changeID in e.versions;
    && (known ==> v == e.versions[a.changeID])
    && (!known && replay ==> v == -1)
    && (!known && !replay && a.custom.Some? ==> v == a.custom.value)
    && (!known && !replay && a.custom.None? && a.useMin ==> v == a.minSupported)
    && (!known && !replay && a.custom.None? && !a.useMin ==> v == a.maxSupported)
  }

  /** Whether a version has to be put on record: it was chosen now, live, and is not the default. */
  predicate OnRecord(e: Env, replay: bool, a: Action, v: int)
    requires a.GetVersion?
  {
    a.changeID !in e.versions && !replay && v != -1
  }

  /** The machines a version is recorded with are in use: then recording panics. */
  predicate RecordClashes(h: HelperState, changeID: string, v: int) {
    || DecisionID(Kind.Marker, "Version_" + changeID) in h.index
    || DecisionID(Kind.UpsertSearchAttributes, changeID + "-" + Decimal(v)) in h.index
  }

  /**
   GetVersion panics exactly if the version is outside the supported range or cannot be recorded; otherwise
   the workflow gets that version, which is the version of the change from then on, and exactly one marker
   says so if it has to be on record.
   */
  lemma VersionIsAnswered(e: Env, replay: bool, a: Action, v: int)
    requires a.GetVersion? && IsVersion(e, replay, a, v)
    ensures AnswerVersion(e, replay, a).None? <==>
              || !(a.minSupported <= v <= a.maxSupported)
              || (OnRecord(e, replay, a, v) && RecordClashes(e.calls.helper, a.changeID, v))
    ensures AnswerVersion(e, replay, a).Some? ==>
              var e' := AnswerVersion(e, replay, a).value;
              && e'.obs == e.obs + [Version(v)] && e'.versions == e.versions[a.changeID := v] && e'.counter == e.counter
              && e'.markers == e.markers + (if OnRecord(e, replay, a, v) then [VersionMarker(a.changeID, v)] else [])
  {
    hide LookUpAndDeliver, Inv;
    if a.changeID in e.versions { assert e.versions[a.changeID := v] == e.versions; }
    if OnRecord(e, replay, a, v) && DecisionID(Kind.Marker, "Version_" + a.changeID) !in e.calls.helper.index {
      var e' := RecordIn(e, DecisionID(Kind.Marker, "Version_" + a.changeID)).value;
      var id := DecisionID(Kind.UpsertSearchAttributes, a.changeID + "-" + Decimal(v));
      assert id in e'.calls.helper.index <==> id in e.calls.helper.index;
    }
  }

  /** Two versions in the supported range whose search attributes have one ID: the second call panics. */
  lemma SupportedVersionPanics(run: string, now: int)
    ensures var a, b := GetVersion("c", -2, -2, None, false), GetVersion("c-", 2, 2, None, false);
            var e := AnswerVersion(NewEnv(run, now), false, a);
            e.Some? && IsVersion(e.value, false, b, 2) && AnswerVersion(e.value, false, b).None?
  {
    var a, b := GetVersion("c", -2, -2, None, false), GetVersion("c-", 2, 2, None, false);
    var e0 := NewEnv(run, now);
    assert Digits(2) == "2" && Decimal(-2) == "-2" && Decimal(2) == "2";
    assert "c" + "-" + "-2" == "c-" + "-" + "2";
    VersionIsAnswered(e0, false, a, -2);
    var e := AnswerVersion(e0, false, a).value;
    assert DecisionID(Kind.UpsertSearchAttributes, "c" + "-" + Decimal(-2)) in e.calls.helper.index;
    VersionIsAnswered(e, false, b, 2);
  }

  // ---------------------------------------------------------------- side effects

  /** Live the function is evaluated and its value recorded under the next sequence number; replay looks it up there. */
  lemma SideEffectIsAnswered(e: Env, replay: bool, world: Oracle)
    ensures AnswerSideEffect(e, replay, world).None? <==>
              || (replay && ID(e.counter) !in e.effects)
              || DecisionID(Kind.Marker, "SideEffect_" + Decimal(ID(e.counter))) in e.calls.helper.index
    ensures AnswerSideEffect(e, replay, world).Some? ==>
              var e' := AnswerSideEffect(e, replay, world).value;
              && e'.counter == e.counter + 1
              && (replay ==>
                    && e'.obs == e.obs + [Effect(e.effects[ID(e.counter)])]
                    && e'.markers == e.markers && e'.fx == e.fx)
              && (!replay ==>
                    && e'.obs == e.obs + [Effect(world(e.fx))] && e'.fx == e.fx + 1
                    && e'.markers == e.markers + [SideEffectMarker(e.counter, world(e.fx))])
  {
  }
}
