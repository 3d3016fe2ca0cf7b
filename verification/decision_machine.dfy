/**
 The state machine behind one decision of a workflow: its ten states, the seven kinds of
 machine, the transition each history event causes, and the decision the machine emits.

 The second half reads a machine's life as a trace of emissions and handled events and
 proves what every legal trace obeys: one start decision at most, no cancel request before
 the server knows about the thing to cancel, and no second cancel request unless the
 first one failed.
 */
module DecisionMachine {
  import opened Common

  datatype State =
    | Created
    | DecisionSent
    | CanceledBeforeInitiated
    | Initiated
    | Started
    | CanceledAfterInitiated
    | CanceledAfterStarted
    | CancellationDecisionSent
    | CompletedAfterCancellationDecisionSent
    | Completed

  datatype Kind =
    | Activity
    | ChildWorkflow
    | Cancellation
    | Marker
    | Timer
    | Signal
    | UpsertSearchAttributes

  /** The entry points of a machine, apart from `getDecision`. */
  datatype Trigger =
    | OnCancel
    | OnDecisionSent
    | OnInitiated
    | OnInitiationFailed
    | OnStarted
    | OnCompletion
    | OnCancelInitiated
    | OnCancelFailed
    | OnCanceled

  /** The two decisions a machine can emit: the one that starts it and the one that cancels it. */
  datatype Decision = Start | RequestCancel

  // ---------------------------------------------------------------- transitions

  /** The shared transitions. `None` is the illegal-state panic. */
  function BaseNext(s: State, t: Trigger): Option<State> {
    match t
    case OnDecisionSent => Some(if s.Created? then DecisionSent else s)
    case OnCancel =>
      (match s
       case Completed | CompletedAfterCancellationDecisionSent => Some(s)
       case Created => Some(Completed)
       case DecisionSent => Some(CanceledBeforeInitiated)
       case Initiated => Some(CanceledAfterInitiated)
       case _ => None)
    case OnInitiated =>
      (match s
       case DecisionSent => Some(Initiated)
       case CanceledBeforeInitiated => Some(CanceledAfterInitiated)
       case _ => None)
    case OnInitiationFailed =>
      (match s
       case Initiated | DecisionSent | CanceledBeforeInitiated => Some(Completed)
       case _ => None)
    case OnStarted => Some(s)
    case OnCompletion =>
      (match s
       case CanceledAfterInitiated | Initiated => Some(Completed)
       case CancellationDecisionSent => Some(CompletedAfterCancellationDecisionSent)
       case _ => None)
    case OnCancelInitiated => if s.CancellationDecisionSent? then Some(s) else None
    case OnCancelFailed =>
      if s.CompletedAfterCancellationDecisionSent? then Some(Completed) else None
    case OnCanceled => if s.CancellationDecisionSent? then Some(Completed) else None
  }

  /** Activities and timers differ from the shared transitions in two places. */
  function ActivityNext(s: State, t: Trigger): Option<State> {
    if t.OnDecisionSent? && s.CanceledAfterInitiated? then Some(CancellationDecisionSent)
    else if t.OnCancelFailed? && s.CancellationDecisionSent? then Some(Initiated)
    else BaseNext(s, t)
  }

  function ChildNext(s: State, t: Trigger): Option<State> {
    if t.OnDecisionSent? && s.CanceledAfterStarted? then Some(CancellationDecisionSent)
    else if t.OnStarted? && s.Initiated? then Some(Started)
    else if t.OnStarted? && s.CanceledAfterInitiated? then Some(CanceledAfterStarted)
    else if t.OnCancelFailed? && s.CancellationDecisionSent? then Some(Started)
    else if t.OnCancel? && s.Started? then Some(CanceledAfterStarted)
    else if t.OnCanceled? && s.Started? then Some(Completed)
    else if t.OnCompletion? && (s.Started? || s.CanceledAfterStarted?) then Some(Completed)
    else BaseNext(s, t)
  }

  /** External cancellations and signals; everything else on them is unsupported and panics. */
  function RequestNext(s: State, t: Trigger): Option<State> {
    if t.OnDecisionSent? then BaseNext(s, t)
    else if t.OnInitiated? && s.DecisionSent? then Some(Initiated)
    else if t.OnCompletion? && s.Initiated? then Some(Completed)
    else None
  }

  /** Markers and search attribute upserts are finished once they are sent. */
  function OneShotNext(s: State, t: Trigger): Option<State> {
    if t.OnDecisionSent? then Some(if s.Created? then Completed else s) else None
  }

  function Next(k: Kind, s: State, t: Trigger): Option<State> {
    match k
    case Activity | Timer => ActivityNext(s, t)
    case ChildWorkflow => ChildNext(s, t)
    case Cancellation | Signal => RequestNext(s, t)
    case Marker | UpsertSearchAttributes => OneShotNext(s, t)
  }

  /** `getDecision`: what the machine wants to say in its current state. */
  function Emits(k: Kind, s: State): Option<Decision> {
    if s.Created? then Some(Start)
    else if (k.Activity? || k.Timer?) && s.CanceledAfterInitiated? then Some(RequestCancel)
    else if k.ChildWorkflow? && s.CanceledAfterStarted? then Some(RequestCancel)
    else None
  }

  /** The state after `handleDecisionSent`, which no machine refuses. */
  function AfterSent(k: Kind, s: State): (s': State)
    ensures Next(k, s, OnDecisionSent) == Some(s')
    ensures s' != s <==> Emits(k, s).Some?
    ensures Emits(k, s').None?
  {
    Next(k, s, OnDecisionSent).value
  }

  // ---------------------------------------------------------------- traces

  /** One step in a machine's life: a decision handed out by a drain, or a handled event. */
  datatype Act = Emit(decision: Decision) | Fire(trigger: Trigger)

  /** One act from state `s`; `None` when it is impossible there. Only a drain marks a decision as sent. */
  function Does(k: Kind, s: State, a: Act): Option<State> {
    match a
    case Emit(d) => if Emits(k, s) == Some(d) then Some(AfterSent(k, s)) else None
    case Fire(t) => if t.OnDecisionSent? then None else Next(k, s, t)
  }

  /** The state a machine of kind `k` is in after `trace`; `None` when it could not have happened. */
  function Replay(k: Kind, trace: seq<Act>): Option<State> {
    if trace == [] then Some(Created)
    else
      match Replay(k, trace[..|trace| - 1])
      case None => None
      case Some(s) => Does(k, s, trace[|trace| - 1])
  }

  lemma {:induction false} ReplayStep(k: Kind, trace: seq<Act>, a: Act)
    ensures Replay(k, trace + [a]) ==
            match Replay(k, trace) case None => None case Some(s) => Does(k, s, a)
  {
    assert (trace + [a])[..|trace|] == trace;
  }

  lemma {:induction false} ReplayPrefix(k: Kind, trace: seq<Act>, n: nat)
    requires n <= |trace| && Replay(k, trace).Some?
    ensures Replay(k, trace[..n]).Some?
    decreases |trace| - n
  {
    if n < |trace| {
      ReplayPrefix(k, trace, n + 1);
      assert trace[..n + 1][..n] == trace[..n];
    } else {
      assert trace[..n] == trace;
    }
  }

  predicate Cancelable(k: Kind) { k.Activity? || k.Timer? || k.ChildWorkflow? }

  /** The event that must precede a cancel request. */
  function Enabler(k: Kind): Trigger {
    if k.ChildWorkflow? then OnStarted else OnInitiated
  }

  /** The states reached only after the start decision went out. */
  predicate PastSent(s: State) { !s.Created? && !s.Completed? }

  /** The states in which a cancel request is outstanding or has been answered for good. */
  predicate CancelSpent(s: State) {
    s.CancellationDecisionSent? || s.CompletedAfterCancellationDecisionSent? || s.Completed?
  }

  /** The states reached only after the enabling event. */
  predicate PastEnabler(k: Kind, s: State) {
    s.CancellationDecisionSent? || s.CompletedAfterCancellationDecisionSent? || s.Started? || s.CanceledAfterStarted? ||
    (!k.ChildWorkflow? && (s.Initiated? || s.CanceledAfterInitiated?))
  }

  /** No cancel request at or after `i` in `trace` is left without a failure answer. */
  ghost predicate Answered(trace: seq<Act>, i: nat) {
    exists f :: i < f < |trace| && trace[f] == Fire(OnCancelFailed)
  }

  /** What the state says about the trace that led to it. */
  ghost predicate Bookkeeping(k: Kind, trace: seq<Act>, s: State) {
    && (s.Created? <==> forall i :: 0 <= i < |trace| ==> trace[i] == Fire(OnStarted))
    && (PastSent(s) ==> Emit(Start) in trace)
    && (PastEnabler(k, s) ==> Fire(Enabler(k)) in trace)
    && (!CancelSpent(s) ==>
          forall i :: 0 <= i < |trace| && trace[i] == Emit(RequestCancel) ==> Answered(trace, i))
  }

  lemma {:induction false} TraceBookkeeping(k: Kind, trace: seq<Act>)
    requires Replay(k, trace).Some?
    ensures Bookkeeping(k, trace, Replay(k, trace).value)
  {
    if trace != [] {
      var before, a := trace[..|trace| - 1], trace[|trace| - 1];
      assert trace == before + [a];
      TraceBookkeeping(k, before);
      BookkeepingStep(k, before, a);
    }
  }

  /** How one act moves the facts that `Bookkeeping` reads off the state. */
  lemma {:induction false} StepFacts(k: Kind, s: State, a: Act)
    requires Does(k, s, a).Some?
    ensures var s' := Does(k, s, a).value;
            && (s'.Created? <==> s.Created? && a == Fire(OnStarted))
            && (PastSent(s') ==> PastSent(s) || a == Emit(Start))
            && (PastEnabler(k, s') ==> PastEnabler(k, s) || a == Fire(Enabler(k)))
            && (!CancelSpent(s') ==> a != Emit(RequestCancel) && (CancelSpent(s) ==> a == Fire(OnCancelFailed)))
  {
    match a
    case Emit(d) =>
    case Fire(t) =>
      match t
      case OnCancel =>
      case OnDecisionSent =>
      case OnInitiated =>
      case OnInitiationFailed =>
      case OnStarted =>
      case OnCompletion =>
      case OnCancelInitiated =>
      case OnCancelFailed =>
      case OnCanceled =>
  }

  lemma {:induction false} BookkeepingStep(k: Kind, before: seq<Act>, a: Act)
    requires Replay(k, before).Some? && Replay(k, before + [a]).Some?
    requires Bookkeeping(k, before, Replay(k, before).value)
    ensures Bookkeeping(k, before + [a], Replay(k, before + [a]).value)
  {
    ReplayStep(k, before, a);
    var s, trace := Replay(k, before).value, before + [a];
    StepFacts(k, s, a);
    BookkeepingTransfer(k, before, a, s, Replay(k, trace).value);
  }

  lemma {:induction false} BookkeepingTransfer(k: Kind, before: seq<Act>, a: Act, s: State, s': State)
    requires Bookkeeping(k, before, s)
    requires s'.Created? <==> s.Created? && a == Fire(OnStarted)
    requires PastSent(s') ==> PastSent(s) || a == Emit(Start)
    requires PastEnabler(k, s') ==> PastEnabler(k, s) || a == Fire(Enabler(k))
    requires !CancelSpent(s') ==> a != Emit(RequestCancel) && (CancelSpent(s) ==> a == Fire(OnCancelFailed))
    ensures Bookkeeping(k, before + [a], s')
  {
    var trace := before + [a];
    assert trace[|before|] == a && trace[..|before|] == before;
    assert forall x :: x in before ==> x in trace;
    if !CancelSpent(s') {
      forall i | 0 <= i < |trace| && trace[i] == Emit(RequestCancel)
        ensures Answered(trace, i)
      {
        assert before[i] == trace[i];
        if !CancelSpent(s) {
          var f :| i < f < |before| && before[f] == Fire(OnCancelFailed);
          assert trace[f] == Fire(OnCancelFailed);
        }
      }
    }
  }

  // ---------------------------------------------------------------- the discipline

  /** The start decision goes out once at most. */
  ghost predicate StartsOnce(trace: seq<Act>) {
    forall i, j :: 0 <= i < j < |trace| && trace[i] == Emit(Start) ==> trace[j] != Emit(Start)
  }

  /** A cancel request follows the start decision and the event that makes it meaningful. */
  ghost predicate CancelsAreEnabled(k: Kind, trace: seq<Act>) {
    forall i :: 0 <= i < |trace| && trace[i] == Emit(RequestCancel) ==>
      Cancelable(k) && Emit(Start) in trace[..i] && Fire(Enabler(k)) in trace[..i]
  }

  /** Between two cancel requests the first one has failed. */
  ghost predicate CancelsAreSeparated(trace: seq<Act>) {
    forall i, j :: 0 <= i < j < |trace| && trace[i] == Emit(RequestCancel) && trace[j] == Emit(RequestCancel) ==>
      exists f :: i < f < j && trace[f] == Fire(OnCancelFailed)
  }

  /** A machine cancelled before its start decision went out stays silent for good. */
  ghost predicate CancelledUnsentIsSilent(trace: seq<Act>) {
    forall i, j :: 0 <= i < |trace| && trace[i] == Fire(OnCancel) && Emit(Start) !in trace[..i] && 0 <= j < |trace| ==>
      !trace[j].Emit?
  }

  ghost predicate Disciplined(k: Kind, trace: seq<Act>) {
    && StartsOnce(trace)
    && CancelsAreEnabled(k, trace)
    && CancelsAreSeparated(trace)
    && CancelledUnsentIsSilent(trace)
  }

  /** The state just before position `i`, and that the act there was possible in it. */
  lemma {:induction false} StateBefore(k: Kind, trace: seq<Act>, i: nat) returns (s: State)
    requires i < |trace| && Replay(k, trace).Some?
    ensures Replay(k, trace[..i]) == Some(s) && Bookkeeping(k, trace[..i], s)
    ensures trace[i].Emit? ==> Emits(k, s) == Some(trace[i].decision)
    ensures trace[i].Fire? ==> Next(k, s, trace[i].trigger).Some?
  {
    ReplayPrefix(k, trace, i);
    ReplayPrefix(k, trace, i + 1);
    s := Replay(k, trace[..i]).value;
    TraceBookkeeping(k, trace[..i]);
    assert trace[..i + 1] == trace[..i] + [trace[i]];
    ReplayStep(k, trace[..i], trace[i]);
  }

  lemma {:induction false} LegalTracesStartOnce(k: Kind, trace: seq<Act>)
    requires Replay(k, trace).Some?
    ensures StartsOnce(trace)
  {
    forall i, j | 0 <= i < j < |trace| && trace[i] == Emit(Start)
      ensures trace[j] != Emit(Start)
    {
      var s := StateBefore(k, trace, j);
      assert trace[..j][i] == Emit(Start);
    }
  }

  lemma {:induction false} LegalTracesEnableCancels(k: Kind, trace: seq<Act>)
    requires Replay(k, trace).Some?
    ensures CancelsAreEnabled(k, trace)
  {
    forall i | 0 <= i < |trace| && trace[i] == Emit(RequestCancel)
      ensures Cancelable(k) && Emit(Start) in trace[..i] && Fire(Enabler(k)) in trace[..i]
    {
      var s := StateBefore(k, trace, i);
    }
  }

  lemma {:induction false} LegalTracesSeparateCancels(k: Kind, trace: seq<Act>)
    requires Replay(k, trace).Some?
    ensures CancelsAreSeparated(trace)
  {
    forall i, j | 0 <= i < j < |trace| && trace[i] == Emit(RequestCancel) && trace[j] == Emit(RequestCancel)
      ensures exists f :: i < f < j && trace[f] == Fire(OnCancelFailed)
    {
      var s := StateBefore(k, trace, j);
      assert trace[..j][i] == Emit(RequestCancel);
      assert Answered(trace[..j], i);
      var f :| i < f < j && trace[..j][f] == Fire(OnCancelFailed);
      assert trace[f] == Fire(OnCancelFailed);
    }
  }

  /** Once a machine is `Completed` it emits nothing more. */
  lemma {:induction false} CompletedIsFinal(k: Kind, trace: seq<Act>, n: nat)
    requires n <= |trace| && Replay(k, trace).Some? && Replay(k, trace[..n]) == Some(Completed)
    ensures Replay(k, trace) == Some(Completed)
    ensures forall j :: n <= j < |trace| ==> !trace[j].Emit?
  {
    if n == |trace| {
      assert trace[..n] == trace;
    } else {
      var before, a := trace[..|trace| - 1], trace[|trace| - 1];
      assert trace == before + [a] && before[..n] == trace[..n];
      ReplayStep(k, before, a);
      CompletedIsFinal(k, before, n);
    }
  }

  /** Nothing is emitted before the start decision. */
  lemma {:induction false} SilentBeforeStart(k: Kind, trace: seq<Act>, j: nat)
    requires j < |trace| && Replay(k, trace).Some? && Emit(Start) !in trace
    ensures !trace[j].Emit?
  {
    assert trace[j].Emit? ==> trace[j].decision.Start? || trace[j].decision.RequestCancel?;
    LegalTracesEnableCancels(k, trace);
    assert trace[j] in trace && forall x :: x in trace[..j] ==> x in trace;
    assert trace[j] != Emit(Start) && trace[j] != Emit(RequestCancel);
  }

  lemma {:induction false} CancelBeforeStartCompletes(k: Kind, trace: seq<Act>, i: nat)
    requires i < |trace| && Replay(k, trace).Some?
    requires trace[i] == Fire(OnCancel) && Emit(Start) !in trace[..i]
    ensures Replay(k, trace[..i + 1]) == Some(Completed)
  {
    var s := StateBefore(k, trace, i);
    assert !PastSent(s);
    assert Does(k, s, Fire(OnCancel)) == Some(Completed);
    assert trace[..i + 1] == trace[..i] + [trace[i]];
    ReplayStep(k, trace[..i], trace[i]);
  }

  lemma {:induction false} LegalTracesStaySilent(k: Kind, trace: seq<Act>)
    requires Replay(k, trace).Some?
    ensures CancelledUnsentIsSilent(trace)
  {
    forall i, j | 0 <= i < |trace| && trace[i] == Fire(OnCancel) && Emit(Start) !in trace[..i] && 0 <= j < |trace|
      ensures !trace[j].Emit?
    {
      CancelBeforeStartCompletes(k, trace, i);
      CompletedIsFinal(k, trace, i + 1);
      if j < i {
        ReplayPrefix(k, trace, i);
        SilentBeforeStart(k, trace[..i], j);
      }
    }
  }

  /** Every life a machine can have obeys the emission discipline. */
  lemma {:induction false} LegalTracesAreDisciplined(k: Kind, trace: seq<Act>)
    requires Replay(k, trace).Some?
    ensures Disciplined(k, trace)
  {
    LegalTracesStartOnce(k, trace);
    LegalTracesEnableCancels(k, trace);
    LegalTracesSeparateCancels(k, trace);
    LegalTracesStaySilent(k, trace);
  }
}
