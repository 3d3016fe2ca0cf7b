/**
 What a decision machine's state means, read off its trace: what was sent, what the history
 said about it, and whether a cancellation was asked for and has gone out since the last one
 failed. And that what is asked for does go out.
 */
module DecisionMeaning {
  import opened Common
  import opened DecisionMachine

  /** The act happened, and no cancel request has failed since. */
  ghost predicate Since(trace: seq<Act>, a: Act) {
    exists i :: 0 <= i < |trace| && trace[i] == a && Fire(OnCancelFailed) !in trace[i + 1..]
  }

  /** The started event of a child came after its initiated event. */
  ghost predicate StartedOnceInitiated(trace: seq<Act>) {
    exists i :: 0 <= i < |trace| && trace[i] == Fire(OnStarted) && Fire(OnInitiated) in trace[..i]
  }

  /** The history has closed it, or it was cancelled before it was sent. */
  predicate Over(trace: seq<Act>) {
    || Fire(OnCompletion) in trace || Fire(OnInitiationFailed) in trace || Fire(OnCanceled) in trace
    || (Fire(OnCancel) in trace && Emit(Start) !in trace)
  }

  /** The state of an activity, a timer or a child, by what has happened to it. */
  ghost function Meant(k: Kind, trace: seq<Act>): State {
    var asked, told := Since(trace, Fire(OnCancel)), Since(trace, Emit(RequestCancel));
    if Over(trace) then
      if Fire(OnCompletion) in trace && told then CompletedAfterCancellationDecisionSent else Completed
    else if Emit(Start) !in trace then Created
    else if told then CancellationDecisionSent
    else if Fire(OnInitiated) !in trace then (if asked then CanceledBeforeInitiated else DecisionSent)
    else if k.ChildWorkflow? && StartedOnceInitiated(trace) then (if asked then CanceledAfterStarted else Started)
    else if asked then CanceledAfterInitiated
    else Initiated
  }

  // ---------------------------------------------------------------- one more act

  lemma SinceNext(trace: seq<Act>, a: Act, x: Act)
    requires x != Fire(OnCancelFailed)
    ensures Since(trace + [a], x) <==> x == a || (a != Fire(OnCancelFailed) && Since(trace, x))
  {
    var t := trace + [a];
    if x == a {
      assert t[|trace|] == x && t[|trace| + 1..] == [];
    } else {
      if Since(t, x) {
        var i :| 0 <= i < |t| && t[i] == x && Fire(OnCancelFailed) !in t[i + 1..];
        assert t[i + 1..] == trace[i + 1..] + [a];
        assert trace[i] == x;
      }
      if Since(trace, x) && a != Fire(OnCancelFailed) {
        var i :| 0 <= i < |trace| && trace[i] == x && Fire(OnCancelFailed) !in trace[i + 1..];
        assert t[i] == x && t[i + 1..] == trace[i + 1..] + [a];
      }
    }
  }

  lemma StartedNext(trace: seq<Act>, a: Act)
    ensures StartedOnceInitiated(trace + [a]) <==>
            StartedOnceInitiated(trace) || (a == Fire(OnStarted) && Fire(OnInitiated) in trace)
  {
    var t := trace + [a];
    if StartedOnceInitiated(trace) {
      var i :| 0 <= i < |trace| && trace[i] == Fire(OnStarted) && Fire(OnInitiated) in trace[..i];
      assert t[i] == trace[i] && t[..i] == trace[..i];
    }
    if a == Fire(OnStarted) && Fire(OnInitiated) in trace {
      assert t[|trace|] == a && t[..|trace|] == trace;
    }
    if StartedOnceInitiated(t) {
      var i :| 0 <= i < |t| && t[i] == Fire(OnStarted) && Fire(OnInitiated) in t[..i];
      if i < |trace| { assert trace[i] == t[i] && trace[..i] == t[..i]; } else { assert t[..i] == trace; }
    }
  }

  /** The facts that the meaning is made of. */
  datatype Facts = Facts(
    sent: bool, initiated: bool, started: bool, asked: bool, told: bool,
    completed: bool, initiationFailed: bool, canceled: bool, everAsked: bool)

  ghost function FactsOf(trace: seq<Act>): Facts {
    Facts(Emit(Start) in trace, Fire(OnInitiated) in trace, StartedOnceInitiated(trace),
          Since(trace, Fire(OnCancel)), Since(trace, Emit(RequestCancel)),
          Fire(OnCompletion) in trace, Fire(OnInitiationFailed) in trace, Fire(OnCanceled) in trace,
              Fire(OnCancel) in trace)
  }

  function Noted(f: Facts, a: Act): Facts {
    if a == Fire(OnCancelFailed) then f.(asked := false, told := false)
    else
      f.(sent := f.sent || a == Emit(Start),
         initiated := f.initiated || a == Fire(OnInitiated),
         started := f.started || (a == Fire(OnStarted) && f.initiated),
         asked := f.asked || a == Fire(OnCancel),
         told := f.told || a == Emit(RequestCancel),
         completed := f.completed || a == Fire(OnCompletion),
         initiationFailed := f.initiationFailed || a == Fire(OnInitiationFailed),
         canceled := f.canceled || a == Fire(OnCanceled),
         everAsked := f.everAsked || a == Fire(OnCancel))
  }

  lemma FactsNext(trace: seq<Act>, a: Act)
    ensures FactsOf(trace + [a]) == Noted(FactsOf(trace), a)
  {
    SinceNext(trace, a, Fire(OnCancel));
    SinceNext(trace, a, Emit(RequestCancel));
    StartedNext(trace, a);
  }

  function MeaningOf(k: Kind, f: Facts): State {
    if f.completed || f.initiationFailed || f.canceled || (f.everAsked && !f.sent) then
      if f.completed && f.told then CompletedAfterCancellationDecisionSent else Completed
    else if !f.sent then Created
    else if f.told then CancellationDecisionSent
    else if !f.initiated then (if f.asked then CanceledBeforeInitiated else DecisionSent)
    else if k.ChildWorkflow? && f.started then (if f.asked then CanceledAfterStarted else Started)
    else if f.asked then CanceledAfterInitiated
    else Initiated
  }

  /** What facts go together in a life that is possible. */
  predicate Coherent(k: Kind, f: Facts) {
    && (f.told ==> f.asked && f.initiated && (k.ChildWorkflow? ==> f.started))
    && (f.initiated ==> f.sent) && (f.started ==> f.initiated)
    && (f.asked ==> f.everAsked)
    && (f.completed || f.initiationFailed || f.canceled ==> f.sent)
    && (f.everAsked && !f.sent ==> !f.initiated && !f.told)
  }

  lemma EmitMeaning(k: Kind, f: Facts, d: Decision)
    requires Cancelable(k) && Coherent(k, f) && Does(k, MeaningOf(k, f), Emit(d)).Some?
    ensures Does(k, MeaningOf(k, f), Emit(d)) == Some(MeaningOf(k, Noted(f, Emit(d)))) && Coherent(k, Noted(f, Emit(d)))
  {
  }

  lemma ActivityMeaning(f: Facts, t: Trigger)
    requires Coherent(Activity, f) && Does(Activity, MeaningOf(Activity, f), Fire(t)).Some?
    ensures Does(Activity, MeaningOf(Activity, f), Fire(t)) == Some(MeaningOf(Activity, Noted(f, Fire(t))))
    ensures Coherent(Activity, Noted(f, Fire(t)))
  {
  }

  lemma TimerMeaning(f: Facts, t: Trigger)
    requires Coherent(Timer, f) && Does(Timer, MeaningOf(Timer, f), Fire(t)).Some?
    ensures Does(Timer, MeaningOf(Timer, f), Fire(t)) == Some(MeaningOf(Timer, Noted(f, Fire(t))))
    ensures Coherent(Timer, Noted(f, Fire(t)))
  {
  }

  lemma ChildMeaning(f: Facts, t: Trigger)
    requires Coherent(ChildWorkflow, f) && Does(ChildWorkflow, MeaningOf(ChildWorkflow, f), Fire(t)).Some?
    ensures Does(ChildWorkflow, MeaningOf(ChildWorkflow, f), Fire(t)) ==
            Some(MeaningOf(ChildWorkflow, Noted(f, Fire(t))))
    ensures Coherent(ChildWorkflow, Noted(f, Fire(t)))
  {
  }

  lemma FireMeaning(k: Kind, f: Facts, t: Trigger)
    requires Cancelable(k) && Coherent(k, f) && Does(k, MeaningOf(k, f), Fire(t)).Some?
    ensures Does(k, MeaningOf(k, f), Fire(t)) == Some(MeaningOf(k, Noted(f, Fire(t)))) && Coherent(k, Noted(f, Fire(t)))
  {
    match k
    case Activity => ActivityMeaning(f, t);
    case Timer => TimerMeaning(f, t);
    case ChildWorkflow => ChildMeaning(f, t);
  }

  lemma MeaningNext(k: Kind, f: Facts, a: Act)
    requires Cancelable(k) && Coherent(k, f) && Does(k, MeaningOf(k, f), a).Some?
    ensures Does(k, MeaningOf(k, f), a) == Some(MeaningOf(k, Noted(f, a))) && Coherent(k, Noted(f, a))
  {
    match a
    case Emit(d) => EmitMeaning(k, f, d);
    case Fire(t) => FireMeaning(k, f, t);
  }

  lemma {:induction false} MeaningOfTrace(k: Kind, trace: seq<Act>)
    requires Cancelable(k) && Replay(k, trace).Some?
    ensures Coherent(k, FactsOf(trace)) && Replay(k, trace) == Some(MeaningOf(k, FactsOf(trace)))
  {
    if trace == [] {
      assert FactsOf(trace) == Facts(false, false, false, false, false, false, false, false, false);
    } else {
      var before, a := trace[..|trace| - 1], trace[|trace| - 1];
      assert trace == before + [a];
      ReplayStep(k, before, a);
      MeaningOfTrace(k, before);
      MeaningNext(k, FactsOf(before), a);
      FactsNext(before, a);
    }
  }

  /** The state of an activity, a timer or a child is what has happened to it. */
  lemma StateIsWhatHappened(k: Kind, trace: seq<Act>)
    requires Cancelable(k) && Replay(k, trace).Some?
    ensures Replay(k, trace) == Some(Meant(k, trace))
  {
    MeaningOfTrace(k, trace);
  }

  /** The other kinds cannot be cancelled: requests are initiated and answered, markers and upserts are only sent. */
  lemma {:induction false} OtherStates(k: Kind, trace: seq<Act>)
    requires !Cancelable(k) && Replay(k, trace).Some?
    ensures Replay(k, trace) == Some(
              if Emit(Start) !in trace then Created
              else if k.Marker? || k.UpsertSearchAttributes? || Fire(OnCompletion) in trace then Completed
              else if Fire(OnInitiated) in trace then Initiated
              else DecisionSent)
    ensures Emit(Start) !in trace ==> trace == []
  {
    if trace != [] {
      var before, a := trace[..|trace| - 1], trace[|trace| - 1];
      assert trace == before + [a];
      ReplayStep(k, before, a);
      OtherStates(k, before);
    }
  }

  // ---------------------------------------------------------------- what a machine accepts

  /** When an event is legal, by what has happened. Anything else panics. */
  ghost predicate Due(k: Kind, trace: seq<Act>, t: Trigger) {
    var asked, told := Since(trace, Fire(OnCancel)), Since(trace, Emit(RequestCancel));
    var sent, initiated := Emit(Start) in trace, Fire(OnInitiated) in trace;
    var running := k.ChildWorkflow? && StartedOnceInitiated(trace);
    match t
    case OnCancel => Over(trace) || !asked
    case OnDecisionSent => true
    case OnInitiated => !Over(trace) && sent && !initiated
    case OnInitiationFailed => !Over(trace) && sent && !told && (initiated ==> !asked && !running)
    case OnStarted => true
    case OnCompletion => !Over(trace) && initiated
    case OnCancelInitiated => !Over(trace) && told
    case OnCancelFailed => told && (Over(trace) ==> Fire(OnCompletion) in trace)
    case OnCanceled => !Over(trace) && (told || (running && !asked))
  }

  lemma AcceptedExactly(k: Kind, trace: seq<Act>, t: Trigger)
    requires Cancelable(k) && Replay(k, trace).Some?
    ensures Next(k, Replay(k, trace).value, t).Some? <==> Due(k, trace, t)
  {
    hide Replay, Since, StartedOnceInitiated;
    MeaningOfTrace(k, trace);
    match t
    case OnCancel =>
    case OnDecisionSent =>
    case OnInitiated =>
    case OnInitiationFailed =>
    case OnStarted =>
    case OnCompletion =>
    case OnCancelInitiated =>
    case OnCancelFailed =>
    case OnCanceled =>
  }

  // ---------------------------------------------------------------- what is asked for goes out

  predicate Closes(a: Act) {
    a in {Fire(OnCompletion), Fire(OnInitiationFailed), Fire(OnCanceled), Fire(OnCancelFailed)}
  }

  /**
   At `i` the workflow asked for a cancellation of something that was sent and was not over; by now the
   event that a cancel request has to wait for has come, and nothing has closed it or refused the request.
   */
  ghost predicate CancelIsWanted(k: Kind, trace: seq<Act>, i: nat) {
    && i < |trace| && trace[i] == Fire(OnCancel) && Emit(Start) in trace[..i] && !Over(trace[..i])
    && Fire(OnInitiated) in trace && (k.ChildWorkflow? ==> StartedOnceInitiated(trace))
    && forall j :: i < j < |trace| ==> !Closes(trace[j])
  }

  lemma WantedIsAsked(k: Kind, trace: seq<Act>, i: nat)
    requires CancelIsWanted(k, trace, i)
    ensures Since(trace, Fire(OnCancel)) && !Over(trace)
  {
    assert forall a :: a in trace[i + 1..] ==> !Closes(a);
    assert trace == trace[..i] + [trace[i]] + trace[i + 1..];
  }

  /** A request from before this cancellation would have made it illegal. */
  lemma ToldSince(k: Kind, trace: seq<Act>, i: nat)
    requires Cancelable(k) && Replay(k, trace).Some? && CancelIsWanted(k, trace, i) && Since(trace, Emit(RequestCancel))
    ensures Emit(RequestCancel) in trace[i + 1..]
  {
    var p :| 0 <= p < |trace| && trace[p] == Emit(RequestCancel) && Fire(OnCancelFailed) !in trace[p + 1..];
    if p < i {
      var before := trace[..i];
      var s := StateBefore(k, trace, i);
      assert before[p] == Emit(RequestCancel);
      var later := trace[p + 1..];
      assert before[p + 1..] == later[..i - p - 1];
      assert Since(before, Emit(RequestCancel));
      AcceptedExactly(k, before, OnCancel);
      MeaningOfTrace(k, before);
    } else {
      assert trace[i + 1..][p - i - 1] == Emit(RequestCancel);
    }
  }

  /** A cancellation that is wanted has gone out since it was asked for, or is what the machine says now. */
  lemma CancelGoesOut(k: Kind, trace: seq<Act>, i: nat)
    requires Cancelable(k) && Replay(k, trace).Some? && CancelIsWanted(k, trace, i)
    ensures Emit(RequestCancel) in trace[i + 1..] || Emits(k, Replay(k, trace).value) == Some(RequestCancel)
  {
    StateIsWhatHappened(k, trace);
    WantedIsAsked(k, trace, i);
    assert Emit(Start) in trace;
    if Since(trace, Emit(RequestCancel)) { ToldSince(k, trace, i); }
  }

  /** The start decision has gone out, or is what the machine says now, unless it was cancelled before. */
  lemma StartGoesOut(k: Kind, trace: seq<Act>)
    requires Replay(k, trace).Some?
    ensures Emit(Start) in trace || Fire(OnCancel) in trace || Emits(k, Replay(k, trace).value) == Some(Start)
  {
    if !Cancelable(k) {
      OtherStates(k, trace);
    } else if Emit(Start) !in trace {
      StateIsWhatHappened(k, trace);
      LegalTraceClosed(k, trace);
    }
  }

  /** Nothing is closed by the history before it was sent. */
  lemma LegalTraceClosed(k: Kind, trace: seq<Act>)
    requires Cancelable(k) && Replay(k, trace).Some? && Emit(Start) !in trace
    ensures Fire(OnCompletion) !in trace && Fire(OnInitiationFailed) !in trace && Fire(OnCanceled) !in trace
  {
    MeaningOfTrace(k, trace);
  }
}
