/**
 The calls a workflow has made: a decision machine each, and what the environment attaches
 to it, which is whether its callback has fired and whether it waits for cancellation.
 Requests of the workflow and history events move the machine and may fire the callback.
 */
module Calls {
  import opened Common
  import opened DecisionMachine
  import opened DecisionsState
  import opened HelperAgreement

  datatype Data = Data(wait: bool, handled: bool)

  datatype Calls = Calls(helper: HelperState, data: map<DecisionID, Data>)

  const NO_CALLS := Calls(EMPTY, map[])

  /** What a callback is told: cancelled on the spot, or an outcome from the history. */
  datatype Outcome = CanceledLocally | Closed(result: string) | CanceledByServer(details: string)

  /** What reaches the workflow. */
  datatype Notice =
    | Answered(id: DecisionID, outcome: Outcome)
    | ChildRunning(id: DecisionID, outcome: Outcome)
    | Signaled(name: string, input: string)
    | CancelRequested

  datatype HistoryEvent =
    | ActivityTaskScheduled(eventID: int, activityID: string)
    | ActivityTaskClosed(scheduledEventID: int, result: string)
    | ActivityTaskCanceled(scheduledEventID: int, details: string)
    | ActivityTaskCancelRequested(activityID: string)
    | RequestCancelActivityTaskFailed(activityID: string)
    | TimerStarted(timerID: string)
    | TimerFired(timerID: string)
    | TimerCanceled(timerID: string)
    | CancelTimerFailed(timerID: string)
    | StartChildInitiated(workflowID: string)
    | StartChildFailed(workflowID: string)
    | ChildStarted(workflowID: string, runID: string)
    | ChildClosed(workflowID: string, result: string)
    | ChildCanceled(workflowID: string, details: string)
    | CancelExternalInitiated(eventID: int, workflowID: string, cancellationID: string)
    | CancelExternalRequested(initiatedEventID: int, workflowID: string)
    | CancelExternalFailed(initiatedEventID: int, workflowID: string, cause: string)
    | SignalExternalInitiated(eventID: int, signalID: string)
    | SignalExternalClosed(initiatedEventID: int, result: string)
    | WorkflowSignaled(name: string, input: string)
    | WorkflowCancelRequested

  /** `isDone` */
  predicate Done(s: State) { s.Completed? || s.CompletedAfterCancellationDecisionSent? }

  // ---------------------------------------------------------------- making calls

  /** Register a call; a duplicate ID panics. */
  function Register(c: Calls, id: DecisionID, wait: bool): Option<Calls> {
    var r := AddMachine(c.helper, id);
    if r.1 then Some(Calls(r.0, c.data[id := Data(wait, false)])) else None
  }

  /** Register a marker or an upsert, which nobody waits for. */
  function Record(c: Calls, id: DecisionID): Option<Calls> {
    var r := AddMachine(c.helper, id);
    if r.1 then Some(c.(helper := r.0)) else None
  }

  // ---------------------------------------------------------------- callbacks

  /** How the handler of an event treats a callback that has not fired yet. */
  datatype Reaction =
    | Silent
    | Settle(outcome: Outcome)
    | SettleIfDone(outcome: Outcome)
    | TellStarted(outcome: Outcome)
    | TellFailed(outcome: Outcome)

  function React(c: Calls, id: DecisionID, r: Reaction): (Calls, seq<Notice>)
    requires id in c.data
  {
    var d := c.data[id];
    var fired := c.(data := c.data[id := d.(handled := true)]);
    if d.handled then (c, [])
    else
      match r
      case Silent => (c, [])
      case Settle(o) => (fired, [Answered(id, o)])
      case SettleIfDone(o) => if Done(StateOf(c.helper, id)) || !d.wait then (fired, [Answered(id, o)]) else (c, [])
      case TellStarted(o) => (c, [ChildRunning(id, o)])
      case TellFailed(o) => (fired, [ChildRunning(id, o), Answered(id, o)])
  }

  /** What comes after a helper operation. */
  function Follow(c: Calls, ok: bool, about: Option<(DecisionID, Reaction)>): Option<(Calls, seq<Notice>)> {
    if !ok then None
    else if about.None? then Some((c, []))
    else if about.value.0 !in c.data then None
    else Some(React(c, about.value.0, about.value.1))
  }

  /** A helper operation followed by a reaction. `None` is a panic: of the helper, or for want of data. */
  function Perform(c: Calls, op: Op, about: Option<(DecisionID, Reaction)>): Option<(Calls, seq<Notice>)> {
    var s := Step(c.helper, op);
    Follow(c.(helper := s.0), s.1, about)
  }

  /** The kinds of call a workflow can take back; only a child hears nothing of it at once. */
  function CancelReaction(k: Kind): Reaction {
    match k
    case Activity => SettleIfDone(CanceledLocally)
    case Timer => Settle(CanceledLocally)
    case _ => Silent
  }

  function CancelCall(c: Calls, id: DecisionID): Option<(Calls, seq<Notice>)> {
    Perform(c, Handle(id, OnCancel), if id.kind.ChildWorkflow? then None else Some((id, CancelReaction(id.kind))))
  }

  // ---------------------------------------------------------------- history events

  predicate ForWorkflow(ev: HistoryEvent) { ev.WorkflowSignaled? || ev.WorkflowCancelRequested? }

  function HelperOp(ev: HistoryEvent): (op: Op)
    requires !ForWorkflow(ev)
    ensures Regular(op) && !op.Add? && !op.GetDecisions?
  {
    match ev
    case ActivityTaskScheduled(e, a) => ActivityScheduled(e, a)
    case ActivityTaskClosed(e, _) => ActivityClosed(e)
    case ActivityTaskCanceled(e, _) => ActivityCanceled(e)
    case ActivityTaskCancelRequested(a) => Handle(DecisionID(Activity, a), OnCancelInitiated)
    case RequestCancelActivityTaskFailed(a) => Handle(DecisionID(Activity, a), OnCancelFailed)
    case TimerStarted(t) => Handle(DecisionID(Timer, t), OnInitiated)
    case TimerFired(t) => Handle(DecisionID(Timer, t), OnCompletion)
    case TimerCanceled(t) => Handle(DecisionID(Timer, t), OnCanceled)
    case CancelTimerFailed(t) => Handle(DecisionID(Timer, t), OnCancelFailed)
    case StartChildInitiated(w) => Handle(DecisionID(ChildWorkflow, w), OnInitiated)
    case StartChildFailed(w) => Handle(DecisionID(ChildWorkflow, w), OnInitiationFailed)
    case ChildStarted(w, _) => Handle(DecisionID(ChildWorkflow, w), OnStarted)
    case ChildClosed(w, _) => Handle(DecisionID(ChildWorkflow, w), OnCompletion)
    case ChildCanceled(w, _) => Handle(DecisionID(ChildWorkflow, w), OnCanceled)
    case CancelExternalInitiated(e, w, x) => ExternalCancelInitiated(e, w, x)
    case CancelExternalRequested(e, w) => ExternalCancelRequested(e, w)
    case CancelExternalFailed(e, w, _) => ExternalCancelFailed(e, w)
    case SignalExternalInitiated(e, g) => SignalInitiated(e, g)
    case SignalExternalClosed(e, _) => SignalClosed(e)
  }

  const ALREADY_STARTED := Closed("Workflow execution already started")

  /** The call an event may answer, and how. */
  function Addressee(
    activityIDs: map<int, string>, cancellationIDs: map<int, string>, signalIDs: map<int, string>, ev: HistoryEvent)
    : (r: Option<(DecisionID, Reaction)>)
    ensures r.Some? ==> !OneShot(r.value.0.kind)
  {
    match ev
    case ActivityTaskClosed(e, v) =>
      if e in activityIDs then Some((DecisionID(Activity, activityIDs[e]), Settle(Closed(v)))) else None
    case ActivityTaskCanceled(e, v) =>
      if e in activityIDs then Some((DecisionID(Activity, activityIDs[e]), SettleIfDone(CanceledByServer(v)))) else None
    case TimerFired(t) => Some((DecisionID(Timer, t), Settle(Closed(""))))
    case StartChildFailed(w) => Some((DecisionID(ChildWorkflow, w), TellFailed(ALREADY_STARTED)))
    case ChildStarted(w, run) => Some((DecisionID(ChildWorkflow, w), TellStarted(Closed(run))))
    case ChildClosed(w, v) => Some((DecisionID(ChildWorkflow, w), Settle(Closed(v))))
    case ChildCanceled(w, v) => Some((DecisionID(ChildWorkflow, w), Settle(CanceledByServer(v))))
    case CancelExternalRequested(e, _) =>
      if e in cancellationIDs then Some((DecisionID(Cancellation, cancellationIDs[e]), Settle(Closed("")))) else None
    case CancelExternalFailed(e, _, v) =>
      if e in cancellationIDs then Some((DecisionID(Cancellation, cancellationIDs[e]), Settle(Closed(v)))) else None
    case SignalExternalClosed(e, v) =>
      if e in signalIDs then Some((DecisionID(Signal, signalIDs[e]), Settle(Closed(v)))) else None
    case _ => None
  }

  function About(h: HelperState, ev: HistoryEvent): Option<(DecisionID, Reaction)> {
    Addressee(h.activityIDs, h.cancellationIDs, h.signalIDs, ev)
  }

  /** `ProcessEvent`, for events other than markers and decision starts. */
  function Receive(c: Calls, ev: HistoryEvent): Option<(Calls, seq<Notice>)> {
    match ev
    case WorkflowSignaled(name, input) => Some((c, [Signaled(name, input)]))
    case WorkflowCancelRequested => Some((c, [CancelRequested]))
    case _ => Perform(c, HelperOp(ev), About(c.helper, ev))
  }

  // ---------------------------------------------------------------- agreement

  ghost predicate CallsAgree(l: Calls, r: Calls) { Agree(l.helper, r.helper) && l.data == r.data }

  lemma RegisterAgrees(l: Calls, r: Calls, id: DecisionID, wait: bool)
    requires CallsAgree(l, r) && Register(l, id, wait).Some?
    ensures Register(r, id, wait).Some? && CallsAgree(Register(l, id, wait).value, Register(r, id, wait).value)
  {
    AddAgrees(l.helper, r.helper, id);
  }

  lemma RecordAgrees(l: Calls, r: Calls, id: DecisionID)
    requires CallsAgree(l, r) && Record(l, id).Some?
    ensures Record(r, id).Some? && CallsAgree(Record(l, id).value, Record(r, id).value)
  {
    AddAgrees(l.helper, r.helper, id);
  }

  lemma RecordLiveAgrees(l: Calls, r: Calls, id: DecisionID)
    requires CallsAgree(l, r) && OneShot(id.kind) && Record(l, id).Some?
    ensures CallsAgree(Record(l, id).value, r)
  {
    AddLiveAgrees(l.helper, r.helper, id);
  }

  ghost predicate ResultsAgree(l: Option<(Calls, seq<Notice>)>, r: Option<(Calls, seq<Notice>)>) {
    (l.Some? <==> r.Some?) && (l.Some? ==> CallsAgree(l.value.0, r.value.0) && l.value.1 == r.value.1)
  }

  lemma ReactAgrees(l: Calls, r: Calls, id: DecisionID, reaction: Reaction)
    requires CallsAgree(l, r) && id in l.data && !OneShot(id.kind)
    ensures ResultsAgree(Some(React(l, id, reaction)), Some(React(r, id, reaction)))
  {
    StatesAgree(l.helper, r.helper, id);
  }

  lemma FollowAgrees(l: Calls, r: Calls, ok: bool, about: Option<(DecisionID, Reaction)>)
    requires CallsAgree(l, r) && (about.Some? ==> !OneShot(about.value.0.kind))
    ensures ResultsAgree(Follow(l, ok, about), Follow(r, ok, about))
  {
    if about.Some? && about.value.0 in l.data { ReactAgrees(l, r, about.value.0, about.value.1); }
  }

  lemma PerformAgrees(l: Calls, r: Calls, op: Op, about: Option<(DecisionID, Reaction)>)
    requires CallsAgree(l, r) && Regular(op) && !op.Add? && (about.Some? ==> !OneShot(about.value.0.kind))
    ensures ResultsAgree(Perform(l, op, about), Perform(r, op, about))
  {
    StepAgrees(l.helper, r.helper, op);
    FollowAgrees(l.(helper := Step(l.helper, op).0), r.(helper := Step(r.helper, op).0), Step(l.helper, op).1, about);
  }

  lemma CancelCallAgrees(l: Calls, r: Calls, id: DecisionID)
    requires CallsAgree(l, r) && !OneShot(id.kind)
    ensures ResultsAgree(CancelCall(l, id), CancelCall(r, id))
  {
    var about := if id.kind.ChildWorkflow? then None else Some((id, CancelReaction(id.kind)));
    PerformAgrees(l, r, Handle(id, OnCancel), about);
  }

  /** An event ends alike on both sides: the same panic, or the same notices. */
  lemma ReceiveAgrees(l: Calls, r: Calls, ev: HistoryEvent)
    requires CallsAgree(l, r)
    ensures ResultsAgree(Receive(l, ev), Receive(r, ev))
  {
    if !ForWorkflow(ev) { PerformAgrees(l, r, HelperOp(ev), About(l.helper, ev)); }
  }
}
