/**
 The decisions helper as the program has it: machine objects shared between an ordered
 list and an index, changed in place. Every method is proved to take the step of the
 value model and to keep the invariant that all runs satisfy.
 */
module DecisionsHelper {
  import opened Common
  import opened DecisionMachine
  import opened DecisionsState
  import opened DecisionsRuns

  class Machine {
    const id: DecisionID
    var state: State
    var canceled: bool
    ghost const serial: nat
    ghost var touch: nat

    constructor (id: DecisionID, ghost serial: nat, ghost touch: nat)
      ensures View() == MachineView(id, serial, Created, false, touch)
    {
      this.id, this.state, this.canceled, this.serial, this.touch := id, Created, false, serial, touch;
    }

    ghost function View(): MachineView
      reads this
    {
      MachineView(id, serial, state, canceled, touch)
    }
  }

  ghost function Views(ms: seq<Machine>): (vs: seq<MachineView>)
    reads ms
    ensures |vs| == |ms| && forall i :: 0 <= i < |ms| ==> vs[i] == ms[i].View()
  {
    seq(|ms|, i requires 0 <= i < |ms| reads ms => ms[i].View())
  }

  ghost function Serials(index: map<DecisionID, Machine>): map<DecisionID, nat> {
    map id | id in index :: index[id].serial
  }

  lemma SerialsPlus(index: map<DecisionID, Machine>, id: DecisionID, m: Machine)
    ensures Serials(index[id := m]) == Serials(index)[id := m.serial]
  {
  }

  lemma SerialsMinus(index: map<DecisionID, Machine>, id: DecisionID)
    ensures Serials(index - {id}) == Serials(index) - {id}
  {
  }

  /** The list position of a machine object, or the length of the list. */
  function Position(ms: seq<Machine>, m: Machine): (i: nat)
    ensures i <= |ms| && (i < |ms| ==> ms[i] == m) && (m in ms ==> i < |ms|)
  {
    if ms == [] || ms[0] == m then 0 else 1 + Position(ms[1..], m)
  }

  class Helper {
    var orderedDecisions: seq<Machine>
    var decisions: map<DecisionID, Machine>
    var scheduledEventIDToActivityID: map<int, string>
    var scheduledEventIDToCancellationID: map<int, string>
    var scheduledEventIDToSignalID: map<int, string>
    ghost var kinds: seq<Kind>
    ghost var log: seq<Entry>

    ghost function View(): HelperState
      reads this, orderedDecisions
    {
      HelperState(Views(orderedDecisions), Serials(decisions),
                  scheduledEventIDToActivityID, scheduledEventIDToCancellationID, scheduledEventIDToSignalID,
                  kinds, log)
    }

    ghost predicate Shared()
      reads this
    {
      Share(orderedDecisions, decisions)
    }

    ghost predicate Valid()
      reads this, orderedDecisions
    {
      Shared() && Inv(View())
    }

    constructor ()
      ensures Valid() && View() == EMPTY
    {
      orderedDecisions, decisions := [], map[];
      scheduledEventIDToActivityID, scheduledEventIDToCancellationID, scheduledEventIDToSignalID := map[], map[], map[];
      kinds, log := [], [];
    }

    /** An object's list position is where the value model finds its ID. */
    lemma PositionIsFind(m: Machine)
      requires Share(orderedDecisions, decisions) && m in orderedDecisions
      ensures Find(Views(orderedDecisions), m.id) == Position(orderedDecisions, m) < |orderedDecisions|
    {
      var i, k := Position(orderedDecisions, m), Find(Views(orderedDecisions), m.id);
      assert Views(orderedDecisions)[i].id == m.id;
      assert k <= i && orderedDecisions[k].id == m.id && orderedDecisions[k] in orderedDecisions;
      assert orderedDecisions[k] == m;
    }

    /** Look a machine up and move it to the back of the list; an unknown ID panics. */
    method GetDecision(id: DecisionID) returns (m: Option<Machine>)
      requires Shared()
      modifies this, orderedDecisions
      ensures Shared() && m.Some? == (id in decisions) && unchanged(`decisions)
      ensures m.None? ==> View() == old(View())
      ensures m.Some? ==>
                && m.value == decisions[id] && orderedDecisions != []
                && orderedDecisions[|orderedDecisions| - 1] == m.value
      ensures m.Some? ==> Find(old(View()).ordered, id) < |old(View()).ordered|
      ensures m.Some? ==> View() == Touch(old(View()), Find(old(View()).ordered, id))
    {
      if id !in decisions {
        return None;
      }
      var d := decisions[id];
      var i := Position(orderedDecisions, d);
      PositionIsFind(d);
      MoveToBack(i);
      m := Some(d);
    }

    method MoveToBack(i: nat)
      requires Shared() && i < |orderedDecisions|
      modifies `orderedDecisions, `log, orderedDecisions[i]
      ensures Shared() && View() == Touch(old(View()), i)
      ensures orderedDecisions != [] && orderedDecisions[|orderedDecisions| - 1] == old(orderedDecisions[i])
    {
      var d := orderedDecisions[i];
      var rest := Without(orderedDecisions, i);
      ghost var before := View();
      ViewsWithout(orderedDecisions, i);
      ReorderedShare(orderedDecisions, decisions, i);
      orderedDecisions := rest + [d];
      d.touch := |log|;
      log := log + [Touched(d.serial)];
      ViewsPush(rest, d);
      assert Views(rest) == Without(before.ordered, i);
    }

    /** Change a machine's state; a completed machine leaves list and index at once. */
    method MoveState(d: Machine, s: State, ghost a: Act)
      requires Shared() && d in orderedDecisions
      modifies `orderedDecisions, `decisions, `log, d
      ensures Shared() && View() == Move(old(View()), Position(old(orderedDecisions), d), s, a)
      ensures orderedDecisions == if s.Completed?
              then Without(old(orderedDecisions), Position(old(orderedDecisions), d)) else old(orderedDecisions)
    {
      if s.Completed? {
        RemoveCompleted(d, a);
      } else {
        SetState(d, s);
        log := log + [Did(d.serial, a)];
      }
    }

    method SetState(d: Machine, s: State)
      requires Shared() && d in orderedDecisions
      modifies d
      ensures d.canceled == old(d.canceled) && d.touch == old(d.touch) && d.state == s
      ensures View() == old(View()).(ordered :=
              old(View()).ordered[Position(orderedDecisions, d) := old(d.View()).(state := s)])
    {
      ghost var before, i := View(), Position(orderedDecisions, d);
      assert forall k :: 0 <= k < |orderedDecisions| && k != i ==> orderedDecisions[k] != d;
      d.state := s;
      assert Views(orderedDecisions) == before.ordered[i := d.View()];
    }

    method RemoveCompleted(d: Machine, ghost a: Act)
      requires Shared() && d in orderedDecisions
      modifies `orderedDecisions, `decisions, `log, d
      ensures Shared() && View() == Move(old(View()), Position(old(orderedDecisions), d), Completed, a)
      ensures orderedDecisions == Without(old(orderedDecisions), Position(old(orderedDecisions), d))
    {
      ghost var before, i := View(), Position(orderedDecisions, d);
      ViewsWithout(orderedDecisions, i);
      RemovedShare(orderedDecisions, decisions, i);
      SerialsMinus(decisions, d.id);
      d.state := Completed;
      log := log + [Did(d.serial, a)];
      var elem := decisions[d.id];
      orderedDecisions := Without(orderedDecisions, Position(orderedDecisions, elem));
      decisions := decisions - {d.id};
      assert Views(orderedDecisions) == Without(before.ordered, i);
    }

    /** Deliver an event to a machine; an illegal transition panics. */
    method HandleEvent(d: Machine, t: Event) returns (ok: bool)
      requires Shared() && d in orderedDecisions
      modifies `orderedDecisions, `decisions, `log, d
      ensures Shared() && (View(), ok) == Deliver(old(View()), Position(old(orderedDecisions), d), t)
    {
      if d.id.kind.Timer? && t.OnCancel? {
        SetCanceled(d);
      }
      match Next(d.id.kind, d.state, t) {
        case None => ok := false;
        case Some(s) =>
          MoveState(d, s, Fire(t));
          ok := true;
      }
    }

    method SetCanceled(d: Machine)
      requires Shared() && d in orderedDecisions
      modifies d
      ensures d.state == old(d.state) && d.touch == old(d.touch) && d.canceled
      ensures View() == old(View()).(ordered :=
              old(View()).ordered[Position(orderedDecisions, d) := old(d.View()).(canceled := true)])
    {
      ghost var before, i := View(), Position(orderedDecisions, d);
      assert forall k :: 0 <= k < |orderedDecisions| && k != i ==> orderedDecisions[k] != d;
      d.canceled := true;
      assert Views(orderedDecisions) == before.ordered[i := d.View()];
    }

    /** Register a new machine at the back of the list; a duplicate ID panics. */
    method AddDecision(id: DecisionID) returns (m: Option<Machine>)
      requires Shared()
      modifies this
      ensures Shared() && (View(), m.Some?) == AddMachine(old(View()), id)
      ensures m.Some? ==> fresh(m.value) && orderedDecisions == old(orderedDecisions) + [m.value]
      ensures m.None? ==> unchanged(this)
    {
      if id in decisions {
        return None;
      }
      var d := new Machine(id, |kinds|, |log|);
      m := Some(d);
      Register(d);
      assert !old(allocated(d));
    }

    /** Put a new machine into the list and the map. */
    method Register(d: Machine)
      requires Shared() && d !in orderedDecisions && d.id !in decisions && d.serial == |kinds| && d.touch == |log|
      modifies this
      ensures Shared() && orderedDecisions == old(orderedDecisions) + [d]
      ensures View() == old(View()).(
                ordered := old(View()).ordered + [d.View()], index := old(View()).index[d.id := d.serial],
                kinds := old(kinds) + [d.id.kind], log := old(log) + [Added(d.serial)])
    {
      ViewsPush(orderedDecisions, d);
      AddedShare(orderedDecisions, decisions, d);
      SerialsPlus(decisions, d.id, d);
      orderedDecisions := orderedDecisions + [d];
      decisions := decisions[d.id := d];
      kinds, log := kinds + [d.id.kind], log + [Added(d.serial)];
    }

    /** One turn of the drain: hand out what machine `i` has to say and mark it as sent. */
    method DrainTurnAt(i: nat) returns (out: seq<(DecisionID, Decision)>)
      requires Shared() && i < |orderedDecisions|
      modifies `orderedDecisions, `decisions, `log, orderedDecisions[i]
      ensures Shared() && View() == DrainOne(old(View()), i)
      ensures out == OutputOf(old(View()).ordered[i])
      ensures orderedDecisions == old(orderedDecisions) || orderedDecisions == Without(old(orderedDecisions), i)
    {
      var d := orderedDecisions[i];
      PositionAt(orderedDecisions, i);
      match Emits(d.id.kind, d.state) {
        case None => out := [];
        case Some(decision) =>
          out := [(d.id, decision)];
          MoveState(d, AfterSent(d.id.kind, d.state), Emit(decision));
      }
    }

    /** Hand out the pending decisions in list order and mark them as sent, dropping machines this completes. */
    method GetDecisions() returns (result: seq<(DecisionID, Decision)>)
      requires Shared()
      modifies this, orderedDecisions
      ensures Shared() && View() == Drain(old(View()), 0)
      ensures result == Outputs(old(View()).ordered)
    {
      result := [];
      var i := 0;
      ghost var start := View();
      assert start.ordered[0..] == start.ordered;
      while i < |orderedDecisions|
        invariant Shared() && Draining(start, View(), i, result)
        invariant forall m :: m in orderedDecisions ==> m in old(orderedDecisions)
        decreases |orderedDecisions| - i
      {
        ghost var here := View();
        var n := |orderedDecisions|;
        ListShrinks(orderedDecisions, i);
        var out := DrainTurnAt(i);
        DrainingStep(start, here, i, result, View());
        result := result + out;
        if |orderedDecisions| == n {
          i := i + 1;
        }
      }
    }

    /** The common shape of the event handlers: look a machine up, then deliver an event to it. */
    method LookUpAndHandle(id: DecisionID, t: Event) returns (ok: bool)
      requires Shared()
      modifies this, orderedDecisions
      ensures Shared() && (View(), ok) == LookUpAndDeliver(old(View()), id, t)
    {
      var m := GetDecision(id);
      if m.None? {
        return false;
      }
      assert m.value in orderedDecisions;
      PositionAt(orderedDecisions, |orderedDecisions| - 1);
      ok := HandleEvent(m.value, t);
    }

    /** Any helper operation, with the routing of events to machines. A panic is `ok == false`. */
    method Perform(op: Op) returns (ok: bool, result: seq<(DecisionID, Decision)>)
      requires Valid()
      modifies this, orderedDecisions
      ensures Valid() && (View(), ok) == Step(old(View()), op)
      ensures result == if op.GetDecisions? then Outputs(old(View()).ordered) else []
    {
      ghost var before := View();
      StepKeepsInv(before, op);
      result := [];
      match op {
        case Add(id) =>
          var m := AddDecision(id);
          ok := m.Some?;
        case Handle(id, t) =>
          ok := LookUpAndHandle(id, t);
        case GetDecisions =>
          result := GetDecisions();
          ok := true;
        case _ =>
          ok := RouteEvent(op);
      }
    }

    /** Events that find their machine through an event ID. */
    method RouteEvent(op: Op) returns (ok: bool)
      requires Shared() && !op.Add? && !op.Handle? && !op.GetDecisions?
      modifies this, orderedDecisions
      ensures Shared() && (View(), ok) == Step(old(View()), op)
    {
      match op {
        case ActivityScheduled(e, a) => ok := HandleActivityTaskScheduled(e, a);
        case ActivityClosed(e) => ok := HandleActivityTaskClosed(e);
        case ActivityCanceled(e) => ok := HandleActivityTaskCanceled(e);
        case ExternalCancelInitiated(e, w, c) => ok := HandleExternalCancelInitiated(e, w, c);
        case ExternalCancelRequested(e, w) => ok := HandleExternalCancelRequested(e, w);
        case ExternalCancelFailed(e, w) => ok := HandleExternalCancelFailed(e, w);
        case SignalInitiated(e, g) => ok := HandleSignalInitiated(e, g);
        case SignalClosed(e) => ok := HandleSignalClosed(e);
      }
    }

    method HandleExternalCancelRequested(e: int, w: string) returns (ok: bool)
      requires Shared()
      modifies this, orderedDecisions
      ensures Shared() && (View(), ok) == Step(old(View()), ExternalCancelRequested(e, w))
    {
      if e in scheduledEventIDToCancellationID {
        ok := LookUpAndHandle(DecisionID(Cancellation, scheduledEventIDToCancellationID[e]), OnCompletion);
      } else {
        var m := GetDecision(DecisionID(ChildWorkflow, w));
        ok := m.Some?;
      }
    }

    method HandleActivityTaskScheduled(e: int, a: string) returns (ok: bool)
      requires Shared()
      modifies this, orderedDecisions
      ensures Shared() && (View(), ok) == Step(old(View()), ActivityScheduled(e, a))
    {
      scheduledEventIDToActivityID := scheduledEventIDToActivityID[e := a];
      assert View() == old(View()).(activityIDs := scheduledEventIDToActivityID);
      ok := LookUpAndHandle(DecisionID(Activity, a), OnInitiated);
    }

    method HandleActivityTaskClosed(e: int) returns (ok: bool)
      requires Shared()
      modifies this, orderedDecisions
      ensures Shared() && (View(), ok) == Step(old(View()), ActivityClosed(e))
    {
      ok := false;
      if e in scheduledEventIDToActivityID {
        ok := LookUpAndHandle(DecisionID(Activity, scheduledEventIDToActivityID[e]), OnCompletion);
      }
    }

    method HandleActivityTaskCanceled(e: int) returns (ok: bool)
      requires Shared()
      modifies this, orderedDecisions
      ensures Shared() && (View(), ok) == Step(old(View()), ActivityCanceled(e))
    {
      ok := false;
      if e in scheduledEventIDToActivityID {
        ok := LookUpAndHandle(DecisionID(Activity, scheduledEventIDToActivityID[e]), OnCanceled);
      }
    }

    /** An empty cancellation ID means that the event is about a child workflow. */
    method HandleExternalCancelInitiated(e: int, w: string, c: string) returns (ok: bool)
      requires Shared()
      modifies this, orderedDecisions
      ensures Shared() && (View(), ok) == Step(old(View()), ExternalCancelInitiated(e, w, c))
    {
      if c == "" {
        ok := LookUpAndHandle(DecisionID(ChildWorkflow, w), OnCancelInitiated);
      } else {
        scheduledEventIDToCancellationID := scheduledEventIDToCancellationID[e := c];
        assert View() == old(View()).(cancellationIDs := scheduledEventIDToCancellationID);
        ok := LookUpAndHandle(DecisionID(Cancellation, c), OnInitiated);
      }
    }

    method HandleExternalCancelFailed(e: int, w: string) returns (ok: bool)
      requires Shared()
      modifies this, orderedDecisions
      ensures Shared() && (View(), ok) == Step(old(View()), ExternalCancelFailed(e, w))
    {
      if e in scheduledEventIDToCancellationID {
        ok := LookUpAndHandle(DecisionID(Cancellation, scheduledEventIDToCancellationID[e]), OnCompletion);
      } else {
        ok := LookUpAndHandle(DecisionID(ChildWorkflow, w), OnCancelFailed);
      }
    }

    method HandleSignalInitiated(e: int, g: string) returns (ok: bool)
      requires Shared()
      modifies this, orderedDecisions
      ensures Shared() && (View(), ok) == Step(old(View()), SignalInitiated(e, g))
    {
      scheduledEventIDToSignalID := scheduledEventIDToSignalID[e := g];
      assert View() == old(View()).(signalIDs := scheduledEventIDToSignalID);
      ok := LookUpAndHandle(DecisionID(Signal, g), OnInitiated);
    }

    method HandleSignalClosed(e: int) returns (ok: bool)
      requires Shared()
      modifies this, orderedDecisions
      ensures Shared() && (View(), ok) == Step(old(View()), SignalClosed(e))
    {
      ok := false;
      if e in scheduledEventIDToSignalID {
        ok := LookUpAndHandle(DecisionID(Signal, scheduledEventIDToSignalID[e]), OnCompletion);
      }
    }
  }

  /** List and index share their objects, and hold each one once. */
  ghost predicate Share(ms: seq<Machine>, index: map<DecisionID, Machine>) {
    && (forall i, j :: 0 <= i < j < |ms| ==> ms[i] != ms[j])
    && (forall m :: m in ms ==> m.id in index && index[m.id] == m)
    && (forall id :: id in index ==> index[id] in ms && index[id].id == id)
  }

  lemma ReorderedShare(ms: seq<Machine>, index: map<DecisionID, Machine>, i: nat)
    requires i < |ms| && Share(ms, index)
    ensures Share(Without(ms, i) + [ms[i]], index) && ms[i] !in Without(ms, i)
  {
    var rest, ms' := Without(ms, i), Without(ms, i) + [ms[i]];
    assert ms == ms[..i] + [ms[i]] + ms[i + 1..];
    assert forall m :: m in ms' <==> m in ms;
    assert forall a, b :: 0 <= a < b < |ms'| ==> ms'[a] != ms'[b];
  }

  lemma PositionAt(ms: seq<Machine>, i: nat)
    requires i < |ms| && forall a, b :: 0 <= a < b < |ms| ==> ms[a] != ms[b]
    ensures Position(ms, ms[i]) == i
  {
  }

  lemma ListShrinks(ms: seq<Machine>, i: nat)
    requires i < |ms|
    ensures ms[i] in ms && forall m :: m in Without(ms, i) ==> m in ms
  {
  }

  /** A drain of `start` that has reached position `i` of `h` and handed out `result`. */
  ghost predicate Draining(start: HelperState, h: HelperState, i: nat, result: seq<(DecisionID, Decision)>) {
    && i <= |h.ordered|
    && Drain(h, i) == Drain(start, 0)
    && result + Outputs(h.ordered[i..]) == Outputs(start.ordered)
  }

  lemma DrainingStep(start: HelperState, h: HelperState, i: nat, result: seq<(DecisionID, Decision)>, h': HelperState)
    requires i < |h.ordered| && h' == DrainOne(h, i) && Draining(start, h, i, result)
    ensures Draining(start, h', if |h'.ordered| == |h.ordered| then i + 1 else i, result + OutputOf(h.ordered[i]))
  {
    var j := if |h'.ordered| == |h.ordered| then i + 1 else i;
    assert h.ordered == h.ordered[..i] + [h.ordered[i]] + h.ordered[i + 1..];
    DrainOneSplits(h, h.ordered[..i], h.ordered[i], h.ordered[i + 1..]);
    assert h'.ordered[j..] == h.ordered[i + 1..];
    assert h.ordered[i..][1..] == h.ordered[i + 1..];
    Associative(result, OutputOf(h.ordered[i]), Outputs(h'.ordered[j..]));
  }

  lemma RemovedShare(ms: seq<Machine>, index: map<DecisionID, Machine>, i: nat)
    requires i < |ms| && Share(ms, index)
    ensures Share(Without(ms, i), index - {ms[i].id}) && ms[i] !in Without(ms, i)
  {
    var rest := Without(ms, i);
    assert ms == ms[..i] + [ms[i]] + ms[i + 1..];
    assert forall m :: m in ms <==> m in rest || m == ms[i];
    assert forall a, b :: 0 <= a < b < |rest| ==> rest[a] != rest[b];
    assert ms[i] !in rest;
  }

  lemma AddedShare(ms: seq<Machine>, index: map<DecisionID, Machine>, m: Machine)
    requires Share(ms, index) && m.id !in index
    ensures Share(ms + [m], index[m.id := m])
  {
  }

  lemma ViewsWithout(ms: seq<Machine>, i: nat)
    requires i < |ms|
    ensures Views(Without(ms, i)) == Without(Views(ms), i)
  {
    ViewsConcat(ms[..i], ms[i + 1..]);
    ViewsSlices(ms, i);
  }

  lemma ViewsConcat(a: seq<Machine>, b: seq<Machine>)
    ensures Views(a + b) == Views(a) + Views(b)
  {
  }

  lemma ViewsSlices(ms: seq<Machine>, i: nat)
    requires i < |ms|
    ensures Views(ms[..i]) == Views(ms)[..i] && Views(ms[i + 1..]) == Views(ms)[i + 1..]
  {
  }

  lemma ViewsPush(ms: seq<Machine>, m: Machine)
    ensures Views(ms + [m]) == Views(ms) + [m.View()]
  {
  }
}
