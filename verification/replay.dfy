/**
 Running a workflow live and replaying it from its history.

 A workflow is a function from everything it has observed, and the replay clock, to its next
 action. The environment answers actions and history events, and keeps a decision machine for
 every call. Live, side effects are evaluated and versions are chosen, and markers record
 them. In replay both come from the markers of the decision, which are loaded before any of
 it runs; local activity markers are applied in order after. Each decision task ends with a
 drain of the decisions helper. A panic is `None`.
 */
module Replays {
  import opened Common
  import opened Calls
  import opened HelperAgreement
  import opened DecisionsState
  import opened DecisionsRuns
  import opened DecisionMachine

  type Value = string

  const SPAN := 0x1_0000_0000

  /** The `n`-th generated sequence number: a 32-bit counter that wraps around. */
  function ID(n: nat): int {
    var m := n % SPAN;
    if m < SPAN / 2 then m else m - SPAN
  }

  function Digits(n: nat): string {
    (if n < 10 then "" else Digits(n / 10)) + [(n % 10 + 48) as char]
  }

  function Decimal(n: int): string { if n < 0 then "-" + Digits(-n) else Digits(n) }

  const DEFAULT_VERSION := -1

  datatype Action =
    | ExecuteActivity(activityID: string, wait: bool)
    | RequestCancelActivity(activityID: string)
    | NewTimer(seconds: int)
    | RequestCancelTimer(timerID: string)
    | SideEffect
    | GetVersion(changeID: string, minSupported: int, maxSupported: int, custom: Option<int>, useMin: bool)
    | ExecuteLocalActivity
    | RequestCancelLocalActivity(activityID: string)
    | ExecuteChildWorkflow(workflowID: string, wait: bool)
    | RequestCancelChildWorkflow(workflowID: string)
    | SignalExternalWorkflow
    | RequestCancelExternalWorkflow
    | UpsertSearchAttributes(changeVersion: Option<string>)
    | Block

  /** What the workflow gets to see. */
  datatype Obs =
    | Generated(id: string)
    | Named(name: string)
    | NegativeTimer
    | TimerElapsed
    | Effect(value: Value)
    | Version(version: int)
    | Heard(notice: Notice)
    | LocalResult(activityID: string, result: Value)
    | Returned

  datatype Marker =
    | SideEffectMarker(n: nat, value: Value)
    | VersionMarker(changeID: string, version: int)
    | LocalActivityMarker(activityID: string, result: Value, time: int)

  /**
   `stopped` are the local activities that were asked to stop; `fx` counts side effects
   evaluated; `markers` are those recorded in the current decision; `decided` is what each
   decision task handed out, markers and upserts aside.
   */
  datatype Env = Env(
    run: string,
    counter: nat,
    versions: map<string, int>,
    effects: map<int, Value>,
    pending: set<string>,
    stopped: set<string>,
    calls: Calls,
    obs: seq<Obs>,
    now: int,
    fx: nat,
    markers: seq<Marker>,
    decided: seq<seq<(DecisionID, Decision)>>)

  type Program = (seq<Obs>, int) -> Action
  type Oracle = nat -> Value

  function NewEnv(run: string, now: int): Env { Env(run, 0, map[], map[], {}, {}, NO_CALLS, [], now, 0, [], []) }

  // ---------------------------------------------------------------- answering one action

  function See(e: Env, o: Obs): Env { e.(obs := e.obs + [o]) }

  /** The sequence ID that is generated next, and the counter after it. */
  function NewID(e: Env): string { Decimal(ID(e.counter)) }

  function Counted(e: Env): Env { e.(counter := e.counter + 1) }

  function MakeCall(e: Env, kind: Kind, id: string, wait: bool, seen: Obs): Option<Env> {
    var c :- Register(e.calls, DecisionID(kind, id), wait);
    Some(See(e, seen).(calls := c))
  }

  /** A call under the ID it was given, or under a generated one. */
  function Execute(e: Env, q: Request): Option<Env> {
    if q.given == "" then MakeCall(Counted(e), q.kind, q.prefix + NewID(e), q.wait, Generated(q.prefix + NewID(e)))
    else MakeCall(e, q.kind, q.given, q.wait, Named(q.given))
  }

  function Notices(ns: seq<Notice>): seq<Obs> { seq(|ns|, i requires 0 <= i < |ns| => Heard(ns[i])) }

  function TakeBack(e: Env, id: DecisionID): Option<Env> {
    var r :- CancelCall(e.calls, id);
    Some(e.(calls := r.0, obs := e.obs + Notices(r.1) + [Returned]))
  }

  /** A machine that nobody waits for. */
  function RecordIn(e: Env, id: DecisionID): Option<Env> {
    var c :- Record(e.calls, id);
    Some(e.(calls := c))
  }

  /** The search attributes of a version change are keyed by the change, all others by a generated ID. */
  function Upsert(e: Env, changeVersion: Option<string>): Option<Env> {
    if changeVersion.Some? then RecordIn(e, DecisionID(Kind.UpsertSearchAttributes, changeVersion.value))
    else RecordIn(Counted(e), DecisionID(Kind.UpsertSearchAttributes, NewID(e)))
  }

  predicate Supported(version: int, minSupported: int, maxSupported: int) { minSupported <= version <= maxSupported }

  /** The version of a change that has none yet. */
  function ChooseVersion(replay: bool, a: Action): int
    requires a.GetVersion?
  {
    if replay then DEFAULT_VERSION
    else if a.custom.Some? then a.custom.value
    else if a.useMin then a.minSupported
    else a.maxSupported
  }

  /** Record a version marker, and upsert the search attributes of the change. */
  function Announce(e: Env, changeID: string, version: int): Option<Env> {
    var e' :- RecordIn(e, DecisionID(Kind.Marker, "Version_" + changeID));
    var e'' :- Upsert(e', Some(changeID + "-" + Decimal(version)));
    Some(e''.(markers := e.markers + [VersionMarker(changeID, version)]))
  }

  /** An unsupported version panics. */
  function AnswerVersion(e: Env, replay: bool, a: Action): Option<Env>
    requires a.GetVersion?
  {
    var known := a.changeID in e.versions;
    var version := if known then e.versions[a.changeID] else ChooseVersion(replay, a);
    if !Supported(version, a.minSupported, a.maxSupported) then None
    else if known then Some(See(e, Version(version)))
    else
      var e' :- if !replay && version != DEFAULT_VERSION then Announce(e, a.changeID, version) else Some(e);
      Some(See(e', Version(version)).(versions := e.versions[a.changeID := version]))
  }

  /** A side effect that replay finds no result for panics. */
  function AnswerSideEffect(e: Env, replay: bool, world: Oracle): Option<Env> {
    if replay && ID(e.counter) !in e.effects then None
    else
      var v := if replay then e.effects[ID(e.counter)] else world(e.fx);
      var e' :- RecordIn(Counted(e), DecisionID(Kind.Marker, "SideEffect_" + NewID(e)));
      var e'' := See(e', Effect(v));
      Some(if replay then e'' else e''.(fx := e.fx + 1, markers := e.markers + [SideEffectMarker(e.counter, v)]))
  }

  /**
   The kind of call an action makes, the prefix of a generated ID, the ID it was given if any, and
   whether it waits.
   */
  datatype Request = Request(kind: Kind, prefix: string, given: string, wait: bool)

  function Requested(run: string, a: Action): Option<Request> {
    match a
    case ExecuteActivity(id, wait) => Some(Request(Kind.Activity, "", id, wait))
    case NewTimer(s) => if s > 0 then Some(Request(Kind.Timer, "", "", false)) else None
    case ExecuteChildWorkflow(id, wait) => Some(Request(Kind.ChildWorkflow, run + "_", id, wait))
    case SignalExternalWorkflow => Some(Request(Kind.Signal, "", "", false))
    case RequestCancelExternalWorkflow => Some(Request(Kind.Cancellation, "", "", false))
    case _ => None
  }

  /** The call an action takes back. */
  function Recalled(a: Action): (id: Option<DecisionID>)
    ensures id.Some? ==> !OneShot(id.value.kind)
  {
    match a
    case RequestCancelActivity(id) => Some(DecisionID(Kind.Activity, id))
    case RequestCancelTimer(id) => Some(DecisionID(Kind.Timer, id))
    case RequestCancelChildWorkflow(id) => Some(DecisionID(Kind.ChildWorkflow, id))
    case _ => None
  }

  /** Actions that neither make nor take back a call. */
  function Simple(e: Env, a: Action): Option<Env> {
    match a
    case NewTimer(s) => Some(See(e, if s < 0 then NegativeTimer else TimerElapsed))
    case ExecuteLocalActivity => Some(See(Counted(e), Generated(NewID(e))).(pending := e.pending + {NewID(e)}))
    case RequestCancelLocalActivity(id) =>
      Some(See(if id in e.pending then e.(stopped := e.stopped + {id}) else e, Returned))
    case UpsertSearchAttributes(change) =>
      var e' :- Upsert(e, change);
      Some(See(e', Returned))
    case _ => Some(e)
  }

  /** Actions that are answered alike live and in replay. */
  function Plain(e: Env, a: Action): Option<Env> {
    var q, id := Requested(e.run, a), Recalled(a);
    if q.Some? then Execute(e, q.value) else if id.Some? then TakeBack(e, id.value) else Simple(e, a)
  }

  function Answer(e: Env, replay: bool, a: Action, world: Oracle): Option<Env> {
    if a.SideEffect? then AnswerSideEffect(e, replay, world)
    else if a.GetVersion? then AnswerVersion(e, replay, a)
    else Plain(e, a)
  }

  // ---------------------------------------------------------------- decision tasks

  /** Run until the workflow blocks; `None` if it panics or is still running after `fuel` actions. */
  function Segment(e: Env, replay: bool, prog: Program, world: Oracle, fuel: nat): Option<Env>
    decreases fuel
  {
    if fuel == 0 then None
    else if prog(e.obs, e.now).Block? then Some(e)
    else
      var e' :- Answer(e, replay, prog(e.obs, e.now), world);
      Segment(e', replay, prog, world, fuel - 1)
  }

  function Later(now: int, time: int): int { if time < now then now else time }

  /** The events before a decision, each of which may fire a callback. */
  function Receives(e: Env, events: seq<HistoryEvent>): Option<Env>
    decreases |events|
  {
    if events == [] then Some(e)
    else
      var r :- Receive(e.calls, events[0]);
      Receives(e.(calls := r.0, obs := e.obs + Notices(r.1)), events[1..])
  }

  /** The events before a decision, and its clock. */
  function Hear(e: Env, events: seq<HistoryEvent>, time: int): Option<Env> {
    var e' :- Receives(e, events);
    Some(e'.(now := Later(e.now, time)))
  }

  datatype Local = Local(activityID: string, result: Value, time: int)

  /** A local activity result that was waited for. */
  function DeliverLocal(e: Env, d: Local): Option<Env> {
    var e' :- RecordIn(e, DecisionID(Kind.Marker, "LocalActivity_" + d.activityID));
    Some(See(e', LocalResult(d.activityID, d.result)).(
           pending := e.pending - {d.activityID}, stopped := e.stopped - {d.activityID}, now := Later(e.now, d.time)))
  }

  datatype Input = Input(events: seq<HistoryEvent>, time: int, locals: seq<Local>)

  function Mark(e: Env, d: Local): Env {
    e.(markers := e.markers + [LocalActivityMarker(d.activityID, d.result, d.time)])
  }

  function LiveLocals(e: Env, locals: seq<Local>, prog: Program, world: Oracle, fuel: nat): Option<Env>
    decreases |locals|
  {
    if locals == [] then Some(e)
    else if locals[0].activityID !in e.pending then LiveLocals(e, locals[1..], prog, world, fuel)
    else
      var e1 :- DeliverLocal(Mark(e, locals[0]), locals[0]);
      var e2 :- Segment(e1, false, prog, world, fuel);
      LiveLocals(e2, locals[1..], prog, world, fuel)
  }

  /** The end of a decision task: what is pending is handed out and marked as sent. */
  function Close(e: Env): Env {
    e.(calls := e.calls.(helper := Drain(e.calls.helper, 0)),
       decided := e.decided + [Proper(Outputs(e.calls.helper.ordered))])
  }

  /** One decision task, live. */
  function LiveDecision(e: Env, d: Input, prog: Program, world: Oracle, fuel: nat): Option<Env> {
    var e0 :- Hear(e.(markers := []), d.events, d.time);
    var e1 :- Segment(e0, false, prog, world, fuel);
    var e2 :- LiveLocals(e1, d.locals, prog, world, fuel);
    Some(Close(e2))
  }

  /** What history keeps of a decision task. */
  datatype Recorded = Recorded(events: seq<HistoryEvent>, time: int, markers: seq<Marker>)

  /** `handleMarkerRecorded` for the markers that are loaded up front. */
  function Load(e: Env, m: Marker): Env {
    match m
    case SideEffectMarker(n, v) => e.(effects := e.effects[ID(n) := v])
    case VersionMarker(c, v) => e.(versions := e.versions[c := v])
    case LocalActivityMarker(_, _, _) => e
  }

  function Preload(e: Env, ms: seq<Marker>): Env
    decreases |ms|
  {
    if ms == [] then e else Load(Preload(e, ms[..|ms| - 1]), ms[|ms| - 1])
  }

  function LocalOf(m: Marker): Local
    requires m.LocalActivityMarker?
  {
    Local(m.activityID, m.result, m.time)
  }

  function ReplayLocals(e: Env, ms: seq<Marker>, prog: Program, world: Oracle, fuel: nat): Option<Env>
    decreases |ms|
  {
    if ms == [] then Some(e)
    else if !ms[0].LocalActivityMarker? || ms[0].activityID !in e.pending
        then ReplayLocals(e, ms[1..], prog, world, fuel)
    else
      var e1 :- DeliverLocal(e, LocalOf(ms[0]));
      var e2 :- Segment(e1, true, prog, world, fuel);
      ReplayLocals(e2, ms[1..], prog, world, fuel)
  }

  /** One decision task, replayed. */
  function ReplayDecision(e: Env, r: Recorded, prog: Program, world: Oracle, fuel: nat): Option<Env> {
    var e0 :- Hear(Preload(e, r.markers), r.events, r.time);
    var e1 :- Segment(e0, true, prog, world, fuel);
    var e2 :- ReplayLocals(e1, r.markers, prog, world, fuel);
    Some(Close(e2))
  }

  datatype Live = Live(env: Env, history: seq<Recorded>)

  function LiveRun(e: Env, ds: seq<Input>, prog: Program, world: Oracle, fuel: nat): Option<Live>
    decreases |ds|
  {
    if ds == [] then Some(Live(e, []))
    else
      var e' :- LiveDecision(e, ds[0], prog, world, fuel);
      var rest :- LiveRun(e', ds[1..], prog, world, fuel);
      Some(Live(rest.env, [Recorded(ds[0].events, ds[0].time, e'.markers)] + rest.history))
  }

  function ReplayRun(e: Env, history: seq<Recorded>, prog: Program, world: Oracle, fuel: nat): Option<Env>
    decreases |history|
  {
    if history == [] then Some(e)
    else
      var e' :- ReplayDecision(e, history[0], prog, world, fuel);
      ReplayRun(e', history[1..], prog, world, fuel)
  }
}
