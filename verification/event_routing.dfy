/**
 Where a history event goes: the machine it names, or the machine that was named when the
 event it refers to came in.
 */
module EventRouting {
  import opened Common
  import opened DecisionMachine
  import opened DecisionsState
  import opened DecisionsRuns
  import opened ActivityCallbacks

  // ---------------------------------------------------------------- event IDs

  ghost predicate SameIDs(h: HelperState, h': HelperState) {
    h'.activityIDs == h.activityIDs && h'.cancellationIDs == h.cancellationIDs && h'.signalIDs == h.signalIDs
  }

  lemma {:induction false} DrainKeepsIDs(h: HelperState, i: nat)
    requires i <= |h.ordered|
    ensures SameIDs(h, Drain(h, i))
    decreases |h.ordered| - i
  {
    if i < |h.ordered| {
      var h' := DrainOne(h, i);
      DrainKeepsIDs(h', if |h'.ordered| < |h.ordered| then i else i + 1);
    }
  }

  lemma ServeKeepsIDs(h: HelperState, id: DecisionID, t: Event)
    ensures SameIDs(h, LookUpAndDeliver(h, id, t).0)
  {
    hide Next, Find, Without;
  }

  /** The activity, signal or cancellation that an operation names an event ID for. */
  function Names(op: Op): Option<(Kind, int, string)> {
    match op
    case ActivityScheduled(e, a) => Some((Activity, e, a))
    case SignalInitiated(e, g) => Some((Signal, e, g))
    case ExternalCancelInitiated(e, _, c) => if c == "" then None else Some((Cancellation, e, c))
    case _ => None
  }

  predicate IsNamedBy(op: Op, k: Kind, e: int) {
    Names(op).Some? && Names(op).value.0 == k && Names(op).value.1 == e
  }

  /** What the helper remembers for an event ID. */
  function Remembered(h: HelperState, k: Kind, e: int): Option<string> {
    match k
    case Activity => if e in h.activityIDs then Some(h.activityIDs[e]) else None
    case Signal => if e in h.signalIDs then Some(h.signalIDs[e]) else None
    case Cancellation => if e in h.cancellationIDs then Some(h.cancellationIDs[e]) else None
    case _ => None
  }

  lemma StepRemembers(h: HelperState, op: Op, k: Kind, e: int)
    ensures Remembered(Step(h, op).0, k, e) ==
            if IsNamedBy(op, k, e) then Some(Names(op).value.2)
            else Remembered(h, k, e)
  {
    hide LookUpAndDeliver, Drain;
    match op
    case Add(id) =>
    case Handle(id, t) => ServeKeepsIDs(h, id, t);
    case ActivityScheduled(x, a) =>
      ServeKeepsIDs(h.(activityIDs := h.activityIDs[x := a]), DecisionID(Activity, a), OnInitiated);
    case ActivityClosed(x) =>
      if x in h.activityIDs { ServeKeepsIDs(h, DecisionID(Activity, h.activityIDs[x]), OnCompletion); }
    case ActivityCanceled(x) =>
      if x in h.activityIDs { ServeKeepsIDs(h, DecisionID(Activity, h.activityIDs[x]), OnCanceled); }
    case ExternalCancelInitiated(x, w, c) =>
      ServeKeepsIDs(h, DecisionID(ChildWorkflow, w), OnCancelInitiated);
      ServeKeepsIDs(h.(cancellationIDs := h.cancellationIDs[x := c]), DecisionID(Cancellation, c), OnInitiated);
    case ExternalCancelRequested(x, w) =>
      if x in h.cancellationIDs { ServeKeepsIDs(h, DecisionID(Cancellation, h.cancellationIDs[x]), OnCompletion); }
    case ExternalCancelFailed(x, w) =>
      ServeKeepsIDs(h, DecisionID(ChildWorkflow, w), OnCancelFailed);
      if x in h.cancellationIDs { ServeKeepsIDs(h, DecisionID(Cancellation, h.cancellationIDs[x]), OnCompletion); }
    case SignalInitiated(x, g) =>
      ServeKeepsIDs(h.(signalIDs := h.signalIDs[x := g]), DecisionID(Signal, g), OnInitiated);
    case SignalClosed(x) =>
      if x in h.signalIDs { ServeKeepsIDs(h, DecisionID(Signal, h.signalIDs[x]), OnCompletion); }
    case GetDecisions => DrainKeepsIDs(h, 0);
  }

  /** Over every run, an event ID stands for what it was last named for, and for nothing (`i == -1`) if it never was. */
  lemma {:induction false} EventIDsAreRemembered(ops: seq<Op>, k: Kind, e: int, i: int)
    requires -1 <= i < |ops| && (i >= 0 ==> IsNamedBy(ops[i], k, e))
    requires forall j :: i < j < |ops| ==> !IsNamedBy(ops[j], k, e)
    ensures Remembered(Run(ops), k, e) == if i < 0 then None else Some(Names(ops[i]).value.2)
  {
    if ops != [] {
      var n := |ops| - 1;
      assert Run(ops) == Step(Run(ops[..n]), ops[n]).0;
      hide Step, Run;
      StepRemembers(Run(ops[..n]), ops[n], k, e);
      if i < n { EventIDsAreRemembered(ops[..n], k, e, i); }
    }
  }

  // ---------------------------------------------------------------- deliveries

  /** Of all machines exactly the one under `id` was told of `t`. */
  ghost predicate ToldOnly(h: HelperState, h': HelperState, id: DecisionID, t: Event) {
    && id in h.index
    && forall s: nat :: Trace(h'.log, s) == Trace(h.log, s) + if s == h.index[id] then [Fire(t)] else []
  }

  lemma ServeTellsOnly(h: HelperState, id: DecisionID, t: Event)
    requires Inv(h) && LookUpAndDeliver(h, id, t).1
    ensures ToldOnly(h, LookUpAndDeliver(h, id, t).0, id, t)
  {
    hide LookUpAndDeliver, Inv, Trace;
    ServeTraces(h, id, t, 0);
    forall s: nat
      ensures Trace(LookUpAndDeliver(h, id, t).0.log, s) ==
              Trace(h.log, s) + if s == h.index[id] then [Fire(t)] else []
    {
      ServeTraces(h, id, t, s);
    }
  }

  /** Each event that is accepted is told to one machine: the one it names or the one its event ID stands for. */
  lemma EventReachesItsMachine(h: HelperState, op: Op)
    requires Inv(h) && Step(h, op).1
    ensures var h' := Step(h, op).0;
            match op
            case Handle(id, t) => ToldOnly(h, h', id, t)
            case ActivityScheduled(_, a) => ToldOnly(h, h', DecisionID(Activity, a), OnInitiated)
            case ActivityClosed(e) =>
              && Remembered(h, Activity, e).Some?
              && ToldOnly(h, h', DecisionID(Activity, Remembered(h, Activity, e).value), OnCompletion)
            case ActivityCanceled(e) =>
              && Remembered(h, Activity, e).Some?
              && ToldOnly(h, h', DecisionID(Activity, Remembered(h, Activity, e).value), OnCanceled)
            case ExternalCancelInitiated(_, w, c) =>
              if c == "" then ToldOnly(h, h', DecisionID(ChildWorkflow, w), OnCancelInitiated)
              else ToldOnly(h, h', DecisionID(Cancellation, c), OnInitiated)
            case ExternalCancelRequested(e, w) =>
              match Remembered(h, Cancellation, e) {
                case Some(c) => ToldOnly(h, h', DecisionID(Cancellation, c), OnCompletion)
                case None => DecisionID(ChildWorkflow, w) in h.index
              }
            case ExternalCancelFailed(e, w) =>
              match Remembered(h, Cancellation, e) {
                case Some(c) => ToldOnly(h, h', DecisionID(Cancellation, c), OnCompletion)
                case None => ToldOnly(h, h', DecisionID(ChildWorkflow, w), OnCancelFailed)
              }
            case SignalInitiated(_, g) => ToldOnly(h, h', DecisionID(Signal, g), OnInitiated)
            case SignalClosed(e) =>
              && Remembered(h, Signal, e).Some?
              && ToldOnly(h, h', DecisionID(Signal, Remembered(h, Signal, e).value), OnCompletion)
            case Add(_) => true
            case GetDecisions => true
  {
    hide LookUpAndDeliver, Inv, ToldOnly;
    match op
    case Handle(id, t) => ServeTellsOnly(h, id, t);
    case ActivityScheduled(e, a) =>
      IDsDoNotMatter(h, h.(activityIDs := h.activityIDs[e := a]));
      ServeTellsOnly(h.(activityIDs := h.activityIDs[e := a]), DecisionID(Activity, a), OnInitiated);
    case ActivityClosed(e) => ServeTellsOnly(h, DecisionID(Activity, h.activityIDs[e]), OnCompletion);
    case ActivityCanceled(e) => ServeTellsOnly(h, DecisionID(Activity, h.activityIDs[e]), OnCanceled);
    case ExternalCancelInitiated(e, w, c) =>
      if c == "" {
        ServeTellsOnly(h, DecisionID(ChildWorkflow, w), OnCancelInitiated);
      } else {
        IDsDoNotMatter(h, h.(cancellationIDs := h.cancellationIDs[e := c]));
        ServeTellsOnly(h.(cancellationIDs := h.cancellationIDs[e := c]), DecisionID(Cancellation, c), OnInitiated);
      }
    case ExternalCancelRequested(e, w) =>
      if e in h.cancellationIDs { ServeTellsOnly(h, DecisionID(Cancellation, h.cancellationIDs[e]), OnCompletion); }
    case ExternalCancelFailed(e, w) =>
      if e in h.cancellationIDs {
        ServeTellsOnly(h, DecisionID(Cancellation, h.cancellationIDs[e]), OnCompletion);
      } else {
        ServeTellsOnly(h, DecisionID(ChildWorkflow, w), OnCancelFailed);
      }
    case SignalInitiated(e, g) =>
      IDsDoNotMatter(h, h.(signalIDs := h.signalIDs[e := g]));
      ServeTellsOnly(h.(signalIDs := h.signalIDs[e := g]), DecisionID(Signal, g), OnInitiated);
    case SignalClosed(e) => ServeTellsOnly(h, DecisionID(Signal, h.signalIDs[e]), OnCompletion);
    case Add(_) =>
    case GetDecisions =>
  }

  /** Event IDs are no part of the invariant, nor of what a machine has been told. */
  lemma IDsDoNotMatter(h: HelperState, g: HelperState)
    requires Inv(h)
    requires g == h.(activityIDs := g.activityIDs, cancellationIDs := g.cancellationIDs, signalIDs := g.signalIDs)
    ensures Inv(g)
    ensures forall h', id, t :: ToldOnly(g, h', id, t) <==> ToldOnly(h, h', id, t)
  {
  }
}
