/**
 The decisions helper as a value: the ordered list of live machines, the index by
 decision ID, the routing tables from scheduled event IDs, and a log of everything that
 happened. Every helper operation is a total step; a panic is `ok == false` with whatever
 effect the operation had before it panicked, so that runs may go on past a panic.
 */
module DecisionsState {
  import opened Common
  import opened DecisionMachine

  datatype DecisionID = DecisionID(kind: Kind, id: string)

  /**
   A live machine. IDs are reused once a machine is gone, so each one also has a serial
   number; `touch` is the log position at which it was last added or looked up.
   */
  datatype MachineView = MachineView(id: DecisionID, serial: nat, state: State, canceled: bool, touch: nat)

  datatype Entry =
    | Added(serial: nat)
    | Touched(serial: nat)
    | Did(serial: nat, act: Act)

  datatype HelperState = HelperState(
    ordered: seq<MachineView>,
    index: map<DecisionID, nat>,
    activityIDs: map<int, string>,
    cancellationIDs: map<int, string>,
    signalIDs: map<int, string>,
    kinds: seq<Kind>,
    log: seq<Entry>)

  const EMPTY := HelperState([], map[], map[], map[], map[], [], [])

  /** An event or request that user code or the history delivers; only a drain marks decisions as sent. */
  type Event = t: Trigger | !t.OnDecisionSent? witness OnCancel

  datatype Op =
    | Add(id: DecisionID)
    | Handle(id: DecisionID, event: Event)
    | ActivityScheduled(eventID: int, activityID: string)
    | ActivityClosed(scheduledEventID: int)
    | ActivityCanceled(scheduledEventID: int)
    | ExternalCancelInitiated(eventID: int, workflowID: string, cancellationID: string)
    | ExternalCancelRequested(initiatedEventID: int, workflowID: string)
    | ExternalCancelFailed(initiatedEventID: int, workflowID: string)
    | SignalInitiated(eventID: int, signalID: string)
    | SignalClosed(initiatedEventID: int)
    | GetDecisions

  // ---------------------------------------------------------------- reading the log

  /** What machine `s` emitted and handled, in order. */
  function Trace(log: seq<Entry>, s: nat): seq<Act> {
    if log == [] then []
    else
      var rest, e := Trace(log[..|log| - 1], s), log[|log| - 1];
      if e.Did? && e.serial == s then rest + [e.act] else rest
  }

  /** The position of the last time machine `s` was added or looked up; -1 if it never was. */
  function LastTouch(log: seq<Entry>, s: nat): int {
    if log == [] then -1
    else if !log[|log| - 1].Did? && log[|log| - 1].serial == s then |log| - 1
    else LastTouch(log[..|log| - 1], s)
  }

  lemma LogStep(log: seq<Entry>, e: Entry, s: nat)
    ensures Trace(log + [e], s) == if e.Did? && e.serial == s then Trace(log, s) + [e.act] else Trace(log, s)
    ensures LastTouch(log + [e], s) == if !e.Did? && e.serial == s then |log| else LastTouch(log, s)
  {
    assert (log + [e])[..|log|] == log;
  }

  // ---------------------------------------------------------------- the operations

  /** The position of the machine with this ID, or the length of the list. */
  function Find(ms: seq<MachineView>, id: DecisionID): (i: nat)
    ensures i <= |ms|
    ensures i < |ms| ==> ms[i].id == id
    ensures forall j :: 0 <= j < i ==> ms[j].id != id
  {
    if ms == [] || ms[0].id == id then 0 else 1 + Find(ms[1..], id)
  }

  /** `getDecision`: the machine that is looked up goes to the back of the list. */
  function Touch(h: HelperState, i: nat): HelperState
    requires i < |h.ordered|
  {
    var m := h.ordered[i];
    h.(ordered := Without(h.ordered, i) + [m.(touch := |h.log|)], log := h.log + [Touched(m.serial)])
  }

  /** Put machine `i` into state `s`, dropping it from list and index when that is the final state. */
  function Move(h: HelperState, i: nat, s: State, act: Act): HelperState
    requires i < |h.ordered|
  {
    var m := h.ordered[i];
    var h' := h.(log := h.log + [Did(m.serial, act)]);
    if s.Completed? then h'.(ordered := Without(h.ordered, i), index := h.index - {m.id})
    else h'.(ordered := h.ordered[i := m.(state := s)])
  }

  /** A timer remembers that it was cancelled even when the cancellation then panics. */
  function Flag(h: HelperState, i: nat, t: Event): HelperState
    requires i < |h.ordered|
  {
    var m := h.ordered[i];
    if m.id.kind.Timer? && t.OnCancel? then h.(ordered := h.ordered[i := m.(canceled := true)]) else h
  }

  /** Deliver an event to machine `i`. */
  function Deliver(h: HelperState, i: nat, t: Event): (r: (HelperState, bool))
    requires i < |h.ordered|
  {
    var h' := Flag(h, i, t);
    match Next(h.ordered[i].id.kind, h.ordered[i].state, t)
    case None => (h', false)
    case Some(s) => (Move(h', i, s, Fire(t)), true)
  }

  /** Look a machine up and deliver an event to it. An unknown ID panics. */
  function LookUpAndDeliver(h: HelperState, id: DecisionID, t: Event): (HelperState, bool) {
    var i := Find(h.ordered, id);
    if id !in h.index || i == |h.ordered| then (h, false)
    else
      var h' := Touch(h, i);
      Deliver(h', |h'.ordered| - 1, t)
  }

  /** `addDecision`: a duplicate ID panics. */
  function AddMachine(h: HelperState, id: DecisionID): (HelperState, bool) {
    if id in h.index then (h, false)
    else
      var s := |h.kinds|;
      (h.(ordered := h.ordered + [MachineView(id, s, Created, false, |h.log|)], index := h.index[id := s],
          kinds := h.kinds + [id.kind], log := h.log + [Added(s)]), true)
  }

  /** One turn of the loop in `getDecisions(true)`. */
  function DrainOne(h: HelperState, i: nat): HelperState
    requires i < |h.ordered|
  {
    var m := h.ordered[i];
    match Emits(m.id.kind, m.state)
    case None => h
    case Some(d) => Move(h, i, AfterSent(m.id.kind, m.state), Emit(d))
  }

  function Drain(h: HelperState, i: nat): HelperState
    requires i <= |h.ordered|
    decreases |h.ordered| - i
  {
    if i == |h.ordered| then h
    else
      var h' := DrainOne(h, i);
      Drain(h', if |h'.ordered| < |h.ordered| then i else i + 1)
  }

  function Step(h: HelperState, op: Op): (HelperState, bool) {
    match op
    case Add(id) => AddMachine(h, id)
    case Handle(id, t) => LookUpAndDeliver(h, id, t)
    case ActivityScheduled(e, a) =>
      LookUpAndDeliver(h.(activityIDs := h.activityIDs[e := a]), DecisionID(Activity, a), OnInitiated)
    case ActivityClosed(e) =>
      if e in h.activityIDs then LookUpAndDeliver(h, DecisionID(Activity, h.activityIDs[e]), OnCompletion)
          else (h, false)
    case ActivityCanceled(e) =>
      if e in h.activityIDs then LookUpAndDeliver(h, DecisionID(Activity, h.activityIDs[e]), OnCanceled) else (h, false)
    case ExternalCancelInitiated(e, w, c) =>
      if c == "" then LookUpAndDeliver(h, DecisionID(ChildWorkflow, w), OnCancelInitiated)
      else LookUpAndDeliver(h.(cancellationIDs := h.cancellationIDs[e := c]), DecisionID(Cancellation, c), OnInitiated)
    case ExternalCancelRequested(e, w) =>
      if e in h.cancellationIDs
      then LookUpAndDeliver(h, DecisionID(Cancellation, h.cancellationIDs[e]), OnCompletion)
      else LookUp(h, DecisionID(ChildWorkflow, w))
    case ExternalCancelFailed(e, w) =>
      if e in h.cancellationIDs
      then LookUpAndDeliver(h, DecisionID(Cancellation, h.cancellationIDs[e]), OnCompletion)
      else LookUpAndDeliver(h, DecisionID(ChildWorkflow, w), OnCancelFailed)
    case SignalInitiated(e, g) =>
      LookUpAndDeliver(h.(signalIDs := h.signalIDs[e := g]), DecisionID(Signal, g), OnInitiated)
    case SignalClosed(e) =>
      if e in h.signalIDs then LookUpAndDeliver(h, DecisionID(Signal, h.signalIDs[e]), OnCompletion) else (h, false)
    case GetDecisions => (Drain(h, 0), true)
  }

  /** The child-workflow branch of a cancel-requested event: the lookup alone. */
  function LookUp(h: HelperState, id: DecisionID): (HelperState, bool) {
    var i := Find(h.ordered, id);
    if id !in h.index || i == |h.ordered| then (h, false) else (Touch(h, i), true)
  }

  function Run(ops: seq<Op>): HelperState {
    if ops == [] then EMPTY else Step(Run(ops[..|ops| - 1]), ops[|ops| - 1]).0
  }

  // ---------------------------------------------------------------- the invariant

  /** Everything the invariant says about one live machine. */
  ghost predicate Good(h: HelperState, m: MachineView) {
    && m.serial < |h.kinds| && h.kinds[m.serial] == m.id.kind
    && m.id in h.index && h.index[m.id] == m.serial
    && !m.state.Completed?
    && m.touch == LastTouch(h.log, m.serial) < |h.log|
    && Replay(m.id.kind, Trace(h.log, m.serial)) == Some(m.state)
  }

  ghost predicate AllGood(h: HelperState) {
    forall m :: m in h.ordered ==> Good(h, m)
  }

  ghost predicate Sorted(ms: seq<MachineView>) {
    forall i, j :: 0 <= i < j < |ms| ==> ms[i].touch < ms[j].touch
  }

  ghost predicate Has(ms: seq<MachineView>, id: DecisionID) {
    exists m :: m in ms && m.id == id
  }

  ghost predicate IndexCovered(h: HelperState) {
    forall id :: id in h.index ==> Has(h.ordered, id)
  }

  ghost predicate Gone(ms: seq<MachineView>, s: nat) {
    forall m :: m in ms ==> m.serial != s
  }

  /** A machine that left the list did so because it completed. */
  ghost predicate GoneAreCompleted(h: HelperState) {
    forall s :: 0 <= s < |h.kinds| && Gone(h.ordered, s) ==> Replay(h.kinds[s], Trace(h.log, s)) == Some(Completed)
  }

  ghost predicate LogKnown(h: HelperState) {
    forall i :: 0 <= i < |h.log| ==> h.log[i].serial < |h.kinds|
  }

  ghost predicate Inv(h: HelperState) {
    AllGood(h) && Sorted(h.ordered) && IndexCovered(h) && GoneAreCompleted(h) && LogKnown(h)
  }
}
