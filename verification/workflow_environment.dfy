/**
 The workflow environment as an object: a wrapping 32-bit counter, the versions and side
 effect results it knows, the decisions helper with the data of its machines, and the replay
 flag. Its methods give the answers of `Replays`. A panic is `ok == false`.
 */
module WorkflowEnvironments {
  import opened Common
  import opened DecisionMachine
  import opened DecisionsState
  import opened DecisionsRuns
  import opened DecisionsHelper
  import opened HelperAgreement
  import C = Calls
  import opened Calls
  import R = Replays
  import opened Replays
  import opened Answers

  const MAX_INT32 := 0x7FFF_FFFF
  const MIN_INT32 := -0x8000_0000

  /** Incrementing an int32 goes to the next ID. */
  lemma NextID(n: nat)
    ensures ID(n + 1) == if ID(n) == MAX_INT32 then MIN_INT32 else ID(n) + 1
    ensures MIN_INT32 <= ID(n) <= MAX_INT32
  {
  }

  class WorkflowEnvironment {
    const runID: string
    const decisionsHelper: Helper
    /** What is attached to the machines, by decision ID. */
    var data: map<DecisionID, Data>
    var counterID: int
    var changeVersions: map<string, int>
    var sideEffectResult: map<int, Value>
    var pendingLaTasks: set<string>
    var canceledLaTasks: set<string>
    var currentReplayTime: int
    var isReplay: bool
    ghost var generated: nat
    ghost var obs: seq<Obs>
    ghost var fx: nat
    /** The markers handed to the decisions helper in this decision. */
    ghost var markers: seq<R.Marker>
    ghost var decided: seq<seq<(DecisionID, Decision)>>

    ghost predicate Valid()
      reads this, decisionsHelper, decisionsHelper.orderedDecisions
    {
      counterID == ID(generated) && decisionsHelper.Valid()
    }

    ghost function Made(): Calls
      reads this, decisionsHelper, decisionsHelper.orderedDecisions
    {
      C.Calls(decisionsHelper.View(), data)
    }

    ghost function View(): Env
      reads this, decisionsHelper, decisionsHelper.orderedDecisions
    {
      Env(runID, generated, changeVersions, sideEffectResult, pendingLaTasks, canceledLaTasks, Made(),
          obs, currentReplayTime, fx, markers, decided)
    }

    constructor (runID: string, now: int)
      ensures Valid() && View() == NewEnv(runID, now) && fresh(decisionsHelper) &&
              fresh(decisionsHelper.orderedDecisions)
    {
      decisionsHelper := new Helper();
      this.runID, data := runID, map[];
      counterID, changeVersions, sideEffectResult, currentReplayTime := 0, map[], map[], now;
      pendingLaTasks, canceledLaTasks, isReplay := {}, {}, false;
      generated, obs, fx, markers, decided := 0, [], 0, [], [];
      new;
      hide Helper.Valid;
    }

    method GenerateSequence() returns (result: int)
      requires counterID == ID(generated)
      modifies this`counterID, this`generated
      ensures counterID == ID(generated) && generated == old(generated) + 1 && result == ID(old(generated))
    {
      NextID(generated);
      result := counterID;
      counterID := if counterID == MAX_INT32 then MIN_INT32 else counterID + 1;
      generated := generated + 1;
    }

    // -------------------------------------------------------------- machines and their data

    /** Add a machine and attach its data, if it has any. */
    method AddMachine(id: DecisionID, wait: Option<bool>) returns (ok: bool)
      requires Valid()
      modifies this`data, decisionsHelper
      ensures Valid()
      ensures var r := if wait.Some? then Register(old(Made()), id, wait.value) else Record(old(Made()), id);
              ok == r.Some? && View() == old(View()).(calls := if ok then r.value else old(Made()))
      ensures ok <==> id !in old(decisionsHelper.View()).index
      ensures forall m :: m in decisionsHelper.orderedDecisions ==>
              m in old(decisionsHelper.orderedDecisions) || fresh(m)
    {
      hide Inv;
      AddKeepsInv(decisionsHelper.View(), id);
      var m := decisionsHelper.AddDecision(id);
      ok := m.Some?;
      if ok && wait.Some? {
        data := data[id := Data(wait.value, false)];
      }
    }

    /** `isDone`: a machine that is no longer in the map has completed. */
    method IsDone(id: DecisionID) returns (done: bool)
      requires decisionsHelper.Shared()
      ensures done == Done(StateOf(decisionsHelper.View(), id))
    {
      if id in decisionsHelper.decisions {
        var m := decisionsHelper.decisions[id];
        decisionsHelper.PositionIsFind(m);
        done := Done(m.state);
      } else {
        assert forall m :: m in decisionsHelper.orderedDecisions ==> m.id != id;
        assert forall i :: 0 <= i < |decisionsHelper.orderedDecisions| ==> decisionsHelper.View().ordered[i].id != id;
        done := true;
      }
    }

    /** Fire a callback. The precondition is the absence of the "already handled" panic. */
    method Handle(id: DecisionID, outcome: Outcome)
      requires id in data && !data[id].handled
      modifies this`data
      ensures data == old(data)[id := old(data)[id].(handled := true)]
    {
      data := data[id := data[id].(handled := true)];
    }

    /** What the handler of an event does with the callback it found. */
    method React(id: DecisionID, r: Reaction) returns (notices: seq<Notice>)
      requires Valid() && id in data
      modifies this`data
      ensures Valid() && (Made(), notices) == C.React(old(Made()), id, r)
    {
      hide Inv, StateOf, Helper.View;
      notices := [];
      if data[id].handled { return; }
      match r {
        case Silent =>
        case Settle(o) =>
          Handle(id, o);
          notices := [Answered(id, o)];
        case SettleIfDone(o) =>
          var done := IsDone(id);
          if done || !data[id].wait {
            Handle(id, o);
            notices := [Answered(id, o)];
          }
        case TellStarted(o) => notices := [ChildRunning(id, o)];
        case TellFailed(o) =>
          Handle(id, o);
          notices := [ChildRunning(id, o), Answered(id, o)];
      }
    }

    /** Move a machine through the helper, then see to the callback. */
    method PerformOp(op: Op, about: Option<(DecisionID, Reaction)>) returns (ok: bool, notices: seq<Notice>)
      requires Valid()
      modifies this`data, decisionsHelper, decisionsHelper.orderedDecisions
      ensures Valid()
      ensures var r := Perform(old(Made()), op, about); ok == r.Some? && (ok ==> (Made(), notices) == r.value)
    {
      hide Inv, Step, C.React;
      notices := [];
      ghost var before := Made();
      var moved, _ := decisionsHelper.Perform(op);
      assert Made() == before.(helper := Step(before.helper, op).0);
      if !moved || (about.Some? && about.value.0 !in data) { return false, []; }
      if about.Some? { notices := React(about.value.0, about.value.1); }
      ok := true;
    }

    // -------------------------------------------------------------- what the workflow calls

    /** A call under the ID it was given, or under a generated one. */
    method Execute(q: Request) returns (ok: bool, id: string)
      requires Valid()
      modifies this, decisionsHelper
      ensures Valid() && isReplay == old(isReplay)
      ensures var r := R.Execute(old(View()), q); ok == r.Some? && (ok ==> View() == r.value)
      ensures id == if q.given == "" then q.prefix + Decimal(old(counterID)) else q.given
      ensures generated == if q.given == "" then old(generated) + 1 else old(generated)
      ensures ok <==> DecisionID(q.kind, id) !in old(decisionsHelper.View()).index
      ensures ok ==> data == old(data)[DecisionID(q.kind, id) := Data(q.wait, false)]
    {
      hide Helper.View, Helper.Valid;
      hide Inv;
      if q.given == "" {
        var n := GenerateSequence();
        id := q.prefix + Decimal(n);
      } else {
        id := q.given;
      }
      ok := AddMachine(DecisionID(q.kind, id), Some(q.wait));
      if ok { obs := obs + [if q.given == "" then Generated(id) else Named(id)]; }
    }

    method ExecuteActivity(activityID: string, wait: bool) returns (ok: bool, id: string)
      requires Valid()
      modifies this, decisionsHelper
      ensures Valid() && isReplay == old(isReplay)
      ensures var r := Plain(old(View()), Action.ExecuteActivity(activityID, wait));
              ok == r.Some? && (ok ==> View() == r.value)
      ensures id == if activityID == "" then Decimal(old(counterID)) else activityID
      ensures ok <==> DecisionID(Kind.Activity, id) !in old(decisionsHelper.View()).index
      ensures ok ==> data == old(data)[DecisionID(Kind.Activity, id) := Data(wait, false)]
      ensures generated == if activityID == "" then old(generated) + 1 else old(generated)
    {
      hide Helper.View, Helper.Valid;
      hide Inv, R.Execute;
      ok, id := Execute(Request(Kind.Activity, "", activityID, wait));
    }

    /** A timer that is not in the future is answered at once and uses no ID. */
    method NewTimer(seconds: int) returns (ok: bool, id: string)
      requires Valid()
      modifies this, decisionsHelper
      ensures Valid() && isReplay == old(isReplay)
      ensures var r := Plain(old(View()), Action.NewTimer(seconds)); ok == r.Some? && (ok ==> View() == r.value)
      ensures seconds <= 0 ==> ok && counterID == old(counterID) && data == old(data)
      ensures seconds < 0 ==> obs == old(obs) + [NegativeTimer]
      ensures seconds == 0 ==> obs == old(obs) + [TimerElapsed]
      ensures seconds > 0 ==>
                && id == Decimal(old(counterID)) && generated == old(generated) + 1
                && (ok <==> DecisionID(Kind.Timer, id) !in old(decisionsHelper.View()).index)
                && (ok ==> data == old(data)[DecisionID(Kind.Timer, id) := Data(false, false)])
    {
      hide Helper.View, Helper.Valid;
      hide Inv, R.Execute;
      ok, id := true, "";
      if seconds < 0 {
        obs := obs + [NegativeTimer];
      } else if seconds == 0 {
        obs := obs + [TimerElapsed];
      } else {
        ok, id := Execute(Request(Kind.Timer, "", "", false));
      }
    }

    /** Take a call back: an activity or a timer may be told so at once, a child is not. */
    method RequestCancel(id: DecisionID) returns (ok: bool)
      requires Valid() && (id.kind.Activity? || id.kind.Timer? || id.kind.ChildWorkflow?)
      modifies this, decisionsHelper, decisionsHelper.orderedDecisions
      ensures Valid() && isReplay == old(isReplay)
      ensures var r := TakeBack(old(View()), id); ok == r.Some? && (ok ==> View() == r.value)
    {
      hide Inv, Perform;
      var about := if id.kind.ChildWorkflow? then None else Some((id, CancelReaction(id.kind)));
      var notices;
      ok, notices := PerformOp(Op.Handle(id, OnCancel), about);
      if ok { obs := obs + Notices(notices) + [Returned]; }
    }

    method ExecuteLocalActivity() returns (activityID: string)
      requires Valid()
      modifies this
      ensures Valid() && isReplay == old(isReplay)
      ensures activityID == Decimal(old(counterID)) && generated == old(generated) + 1
      ensures pendingLaTasks == old(pendingLaTasks) + {activityID}
      ensures Some(View()) == Plain(old(View()), Action.ExecuteLocalActivity)
    {
      hide Helper.View, Helper.Valid;
      var n := GenerateSequence();
      activityID := Decimal(n);
      pendingLaTasks := pendingLaTasks + {activityID};
      obs := obs + [Generated(activityID)];
    }

    /** A local activity that is still wanted is asked to stop; nothing else changes. */
    method RequestCancelLocalActivity(activityID: string)
      requires Valid()
      modifies this
      ensures Valid() && isReplay == old(isReplay) && pendingLaTasks == old(pendingLaTasks)
      ensures forall id :: id in canceledLaTasks <==>
              id in old(canceledLaTasks) || (id == activityID && id in pendingLaTasks)
      ensures Some(View()) == Plain(old(View()), Action.RequestCancelLocalActivity(activityID))
    {
      hide Helper.View, Helper.Valid;
      if activityID in pendingLaTasks { canceledLaTasks := canceledLaTasks + {activityID}; }
      obs := obs + [Returned];
    }

    /** Search attributes of a version change are keyed by the change: they use no ID. */
    method UpsertSearchAttributes(changeVersion: Option<string>) returns (ok: bool)
      requires Valid()
      modifies this`data, this`counterID, this`generated, decisionsHelper
      ensures Valid() && (changeVersion.Some? ==> counterID == old(counterID))
      ensures var r := Upsert(old(View()), changeVersion); ok == r.Some? && (ok ==> View() == r.value)
      ensures forall m :: m in decisionsHelper.orderedDecisions ==>
              m in old(decisionsHelper.orderedDecisions) || fresh(m)
    {
      hide Helper.View, Helper.Valid;
      hide Inv, Record, Register;
      var upsertID;
      if changeVersion.Some? {
        upsertID := changeVersion.value;
      } else {
        var n := GenerateSequence();
        upsertID := Decimal(n);
      }
      ok := AddMachine(DecisionID(Kind.UpsertSearchAttributes, upsertID), None);
    }

    /** The version of a change, fixed at its first use; an unsupported one panics. */
    method GetVersion(changeID: string, minSupported: int, maxSupported: int, custom: Option<int>, useMin: bool)
      returns (ok: bool, version: int)
      requires Valid()
      modifies this, decisionsHelper
      ensures Valid() && isReplay == old(isReplay) && counterID == old(counterID)
      ensures var r := AnswerVersion(old(View()), isReplay,
              Action.GetVersion(changeID, minSupported, maxSupported, custom, useMin));
              ok == r.Some? && (ok ==> View() == r.value && obs == old(obs) + [Version(version)])
      ensures changeID in old(changeVersions) ==> version == old(changeVersions)[changeID]
      ensures changeID !in old(changeVersions) && isReplay ==> version == -1
      ensures changeID !in old(changeVersions) && !isReplay ==>
                && (custom.Some? ==> version == custom.value)
                && (custom.None? && useMin ==> version == minSupported)
                && (custom.None? && !useMin ==> version == maxSupported)
      ensures var recorded := changeID !in old(changeVersions) && !isReplay && version != -1;
              && (ok <==>
                    && minSupported <= version <= maxSupported
                    && (recorded ==> !RecordClashes(old(decisionsHelper.View()), changeID, version)))
              && (ok ==>
                    && changeVersions == old(changeVersions)[changeID := version]
                    && markers == old(markers) + if recorded then [VersionMarker(changeID, version)] else [])
    {
      hide Helper.View, Helper.Valid;
      hide Inv, Announce;
      ghost var a := Action.GetVersion(changeID, minSupported, maxSupported, custom, useMin);
      if changeID in changeVersions {
        version := changeVersions[changeID];
        VersionIsAnswered(View(), isReplay, a, version);
        ok := minSupported <= version <= maxSupported;
        if ok { obs := obs + [Version(version)]; }
        return;
      }
      if isReplay {
        version := DEFAULT_VERSION;
      } else if custom.Some? {
        version := custom.value;
      } else if useMin {
        version := minSupported;
      } else {
        version := maxSupported;
      }
      VersionIsAnswered(View(), isReplay, a, version);
      ok := minSupported <= version <= maxSupported;
      if !ok { return; }
      if !isReplay && version != DEFAULT_VERSION {
        ok := RecordVersion(changeID, version);
        if !ok { return; }
      }
      changeVersions := changeVersions[changeID := version];
      obs := obs + [Version(version)];
    }

    /** A marker decision; there can be one under an ID in a decision. */
    method RecordMarker(id: string) returns (ok: bool)
      requires Valid()
      modifies this`data, decisionsHelper
      ensures Valid() && (ok <==> DecisionID(Kind.Marker, id) !in old(decisionsHelper.View()).index)
      ensures var r := RecordIn(old(View()), DecisionID(Kind.Marker, id));
              ok == r.Some? && (ok ==> View() == r.value)
    {
      hide Inv, Record, Helper.View, Helper.Valid;
      ok := AddMachine(DecisionID(Kind.Marker, id), None);
    }

    /** Record the marker of a version, and upsert the search attributes of the change. */
    method RecordVersion(changeID: string, version: int) returns (ok: bool)
      requires Valid()
      modifies this`data, this`counterID, this`generated, this`markers, decisionsHelper
      ensures Valid() && counterID == old(counterID)
      ensures var r := Announce(old(View()), changeID, version); ok == r.Some? && (ok ==> View() == r.value)
    {
      hide Inv, Record;
      ok := RecordMarker("Version_" + changeID);
      if ok {
        ok := UpsertSearchAttributes(Some(changeID + "-" + Decimal(version)));
        markers := markers + [VersionMarker(changeID, version)];
      }
    }

    /** `value` is what the function gives when it is evaluated; replay does not evaluate it. */
    method SideEffect(value: Value, ghost world: Oracle) returns (ok: bool, result: Value)
      requires Valid() && value == world(fx)
      modifies this, decisionsHelper
      ensures Valid() && isReplay == old(isReplay)
      ensures var r := AnswerSideEffect(old(View()), isReplay, world);
              ok == r.Some? && (ok ==> View() == r.value && obs == old(obs) + [Effect(result)])
      ensures var id := DecisionID(Kind.Marker, "SideEffect_" + Decimal(old(counterID)));
              ok <==> (isReplay ==> old(counterID) in sideEffectResult) && id !in old(decisionsHelper.View()).index
      ensures generated == old(generated) + 1 && sideEffectResult == old(sideEffectResult)
      ensures ok && isReplay ==>
                result == sideEffectResult[old(counterID)] && markers == old(markers) && fx == old(fx)
      ensures ok && !isReplay ==>
                result == value && markers == old(markers) + [SideEffectMarker(old(generated), value)]
    {
      hide Helper.View, Helper.Valid;
      hide Inv, Record, RecordIn, Decimal;
      ghost var n, id := generated, DecisionID(Kind.Marker, "SideEffect_" + Decimal(counterID));
      ghost var recorded := RecordIn(Counted(View()), id);
      var sideEffectID := GenerateSequence();
      if isReplay {
        if sideEffectID !in sideEffectResult { return false, ""; }
        result := sideEffectResult[sideEffectID];
      } else {
        result := value;
      }
      ok := RecordMarker("SideEffect_" + Decimal(sideEffectID));
      if !ok { return; }
      assert View() == recorded.value;
      if !isReplay {
        fx := fx + 1;
        markers := markers + [SideEffectMarker(n, value)];
      }
      obs := obs + [Effect(result)];
    }

    // -------------------------------------------------------------- what history brings

    /** Time does not run backwards. */
    method SetCurrentReplayTime(time: int)
      modifies this`currentReplayTime
      ensures currentReplayTime == Later(old(currentReplayTime), time)
      ensures old(currentReplayTime) <= currentReplayTime && time <= currentReplayTime
    {
      if time < currentReplayTime { return; }
      currentReplayTime := time;
    }

    /** The call that an event may answer, by the event IDs seen so far. */
    method FindCall(ev: HistoryEvent) returns (about: Option<(DecisionID, Reaction)>)
      ensures about == About(decisionsHelper.View(), ev)
    {
      var h := decisionsHelper;
      about := Addressee(h.scheduledEventIDToActivityID, h.scheduledEventIDToCancellationID,
          h.scheduledEventIDToSignalID, ev);
    }

    /** An event finds its machine, moves it, and may fire its callback. */
    method ProcessEvent(ev: HistoryEvent) returns (ok: bool)
      requires Valid()
      modifies this`data, this`obs, decisionsHelper, decisionsHelper.orderedDecisions
      ensures Valid()
      ensures var r := Receive(old(Made()), ev);
              ok == r.Some? && (ok ==> View() == old(View()).(calls := r.value.0, obs := old(obs) + Notices(r.value.1)))
    {
      hide Helper.View, Helper.Valid;
      hide Inv, Perform, HelperOp, About;
      var notices;
      if ev.WorkflowSignaled? {
        ok, notices := true, [Signaled(ev.name, ev.input)];
      } else if ev.WorkflowCancelRequested? {
        ok, notices := true, [CancelRequested];
      } else {
        var about := FindCall(ev);
        ok, notices := PerformOp(HelperOp(ev), about);
      }
      if ok { obs := obs + Notices(notices); }
    }

    /** Take in the markers of a decision before it is replayed. */
    method Preload(ms: seq<R.Marker>)
      requires Valid()
      modifies this`sideEffectResult, this`changeVersions
      ensures Valid() && View() == R.Preload(old(View()), ms)
    {
      hide Helper.View, Helper.Valid;
      var i := 0;
      while i < |ms|
        invariant i <= |ms| && Valid() && View() == R.Preload(old(View()), ms[..i])
      {
        assert ms[..i + 1][..i] == ms[..i];
        match ms[i] {
          case SideEffectMarker(n, v) => sideEffectResult := sideEffectResult[ID(n) := v];
          case VersionMarker(c, v) => changeVersions := changeVersions[c := v];
          case LocalActivityMarker(_, _, _) =>
        }
        i := i + 1;
      }
      assert ms[..i] == ms;
    }

    /** A local activity result that is waited for reaches the workflow; any other is ignored. */
    method HandleLocalActivityMarker(d: Local) returns (ok: bool)
      requires Valid()
      modifies this, decisionsHelper
      ensures Valid() && isReplay == old(isReplay)
      ensures d.activityID !in old(pendingLaTasks) ==> ok && View() == old(View())
      ensures d.activityID in old(pendingLaTasks) ==>
                var r := DeliverLocal(old(View()), d); ok == r.Some? && (ok ==> View() == r.value)
      ensures d.activityID in old(pendingLaTasks) ==>
                && (ok <==> DecisionID(Kind.Marker, "LocalActivity_" + d.activityID)
                              !in old(decisionsHelper.View()).index)
                && (ok ==>
                      && pendingLaTasks == old(pendingLaTasks) - {d.activityID}
                      && obs == old(obs) + [LocalResult(d.activityID, d.result)]
                      && old(currentReplayTime) <= currentReplayTime && d.time <= currentReplayTime
                      && currentReplayTime in {old(currentReplayTime), d.time})
    {
      hide Helper.View, Helper.Valid;
      hide Inv, Record, RecordIn;
      if d.activityID !in pendingLaTasks { return true; }
      ok := RecordMarker("LocalActivity_" + d.activityID);
      if !ok { return; }
      ghost var calls := Made();
      pendingLaTasks, canceledLaTasks := pendingLaTasks - {d.activityID}, canceledLaTasks - {d.activityID};
      obs := obs + [LocalResult(d.activityID, d.result)];
      SetCurrentReplayTime(d.time);
      assert Made() == calls;
    }

    /** The end of a decision task: hand out what is pending and mark it as sent. */
    method CompleteDecisionTask() returns (result: seq<(DecisionID, Decision)>)
      requires Valid()
      modifies this`decided, decisionsHelper, decisionsHelper.orderedDecisions
      ensures Valid() && View() == Close(old(View())) && result == Outputs(old(Made()).helper.ordered)
      ensures decided == old(decided) + [Proper(result)]
    {
      hide Inv, Drain, Outputs, Proper;
      DrainKeepsInv(decisionsHelper.View(), 0);
      result := decisionsHelper.GetDecisions();
      decided := decided + [Proper(result)];
    }
  }
}
