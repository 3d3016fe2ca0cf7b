/**
 What holds after every run of helper operations: the index and the list agree, the list
 is sorted by last touch, and every machine that ever existed obeyed the emission
 discipline, even the ones that are gone.
 */
module DecisionsRuns {
  import opened Common
  import opened DecisionMachine
  import opened DecisionsState

  // ---------------------------------------------------------------- list facts

  lemma WithoutMembers(ms: seq<MachineView>, i: nat)
    requires i < |ms|
    ensures forall m :: m in Without(ms, i) ==> m in ms
    ensures forall m :: m in ms && m != ms[i] ==> m in Without(ms, i)
  {
    assert ms == ms[..i] + [ms[i]] + ms[i + 1..];
  }

  lemma WithoutSorted(ms: seq<MachineView>, i: nat)
    requires i < |ms| && Sorted(ms)
    ensures Sorted(Without(ms, i)) && ms[i] !in Without(ms, i)
  {
  }

  lemma UpdateMembers(ms: seq<MachineView>, i: nat, m': MachineView)
    requires i < |ms|
    ensures forall m :: m in ms[i := m'] ==> m in ms || m == m'
    ensures forall m :: m in ms && m != ms[i] ==> m in ms[i := m']
    ensures m' in ms[i := m']
  {
    assert ms == ms[..i] + [ms[i]] + ms[i + 1..];
    assert ms[i := m'] == ms[..i] + [m'] + ms[i + 1..];
  }

  /** Two live machines with one serial number or one ID are the same machine. */
  lemma SameMachine(h: HelperState, m: MachineView, m': MachineView)
    requires AllGood(h) && Sorted(h.ordered) && m in h.ordered && m' in h.ordered
    requires m.serial == m'.serial || m.id == m'.id
    ensures m == m'
  {
    assert Good(h, m) && Good(h, m');
    var i :| 0 <= i < |h.ordered| && h.ordered[i] == m;
    var j :| 0 <= j < |h.ordered| && h.ordered[j] == m';
  }

  lemma FindHas(ms: seq<MachineView>, id: DecisionID)
    requires Has(ms, id)
    ensures Find(ms, id) < |ms|
  {
    var m :| m in ms && m.id == id;
    var i :| 0 <= i < |ms| && ms[i] == m;
  }

  /** A log entry about another machine leaves this one's facts alone. */
  lemma GoodElsewhere(h: HelperState, h': HelperState, e: Entry, m: MachineView)
    requires Good(h, m) && h'.log == h.log + [e] && e.serial != m.serial
    requires h.kinds <= h'.kinds && m.id in h'.index && h'.index[m.id] == h.index[m.id]
    ensures Good(h', m)
  {
    LogStep(h.log, e, m.serial);
  }

  lemma GoneElsewhere(h: HelperState, h': HelperState, e: Entry, s: nat)
    requires GoneAreCompleted(h) && s < |h.kinds| && Gone(h.ordered, s)
    requires h'.log == h.log + [e] && e.serial != s && h.kinds <= h'.kinds
    ensures Replay(h'.kinds[s], Trace(h'.log, s)) == Some(Completed)
  {
    LogStep(h.log, e, s);
  }

  // ---------------------------------------------------------------- one machine changes

  /** `h'` is `h` with machine `m` replaced by `m'` somewhere in the list and one more log entry about it. */
  ghost predicate Replaced(h: HelperState, h': HelperState, m: MachineView, m': MachineView, e: Entry) {
    && m in h.ordered && m' in h'.ordered && m'.id == m.id && m'.serial == m.serial == e.serial
    && h'.log == h.log + [e] && h'.kinds == h.kinds && h'.index == h.index
    && (forall x :: x in h'.ordered ==> x == m' || (x in h.ordered && x != m))
    && (forall x :: x in h.ordered && x != m ==> x in h'.ordered)
  }

  lemma ReplacedAllGood(h: HelperState, h': HelperState, m: MachineView, m': MachineView, e: Entry)
    requires Inv(h) && Replaced(h, h', m, m', e) && Good(h', m')
    ensures AllGood(h')
  {
    forall x | x in h'.ordered ensures Good(h', x) {
      if x != m' {
        if x.serial == m.serial { SameMachine(h, x, m); }
        GoodElsewhere(h, h', e, x);
      }
    }
  }

  lemma ReplacedCovered(h: HelperState, h': HelperState, m: MachineView, m': MachineView, e: Entry)
    requires Inv(h) && Replaced(h, h', m, m', e)
    ensures IndexCovered(h')
  {
    forall id | id in h'.index ensures Has(h'.ordered, id) {
      var x :| x in h.ordered && x.id == id;
      assert (if x == m then m' else x) in h'.ordered;
    }
  }

  lemma ReplacedGone(h: HelperState, h': HelperState, m: MachineView, m': MachineView, e: Entry)
    requires Inv(h) && Replaced(h, h', m, m', e)
    ensures GoneAreCompleted(h') && LogKnown(h')
  {
    assert Good(h, m);
    forall s | 0 <= s < |h'.kinds| && Gone(h'.ordered, s)
      ensures Replay(h'.kinds[s], Trace(h'.log, s)) == Some(Completed)
    {
      assert s != m.serial;
      assert Gone(h.ordered, s);
      GoneElsewhere(h, h', e, s);
    }
  }

  lemma ReplacedKeepsInv(h: HelperState, h': HelperState, m: MachineView, m': MachineView, e: Entry)
    requires Inv(h) && Replaced(h, h', m, m', e) && Good(h', m') && Sorted(h'.ordered)
    ensures Inv(h')
  {
    ReplacedAllGood(h, h', m, m', e);
    ReplacedCovered(h, h', m, m', e);
    ReplacedGone(h, h', m, m', e);
  }

  lemma TouchSorted(h: HelperState, i: nat)
    requires AllGood(h) && Sorted(h.ordered) && i < |h.ordered|
    ensures Sorted(Touch(h, i).ordered)
  {
    var rest := Without(h.ordered, i);
    WithoutMembers(h.ordered, i);
    WithoutSorted(h.ordered, i);
    forall k | 0 <= k < |rest| ensures rest[k].touch < |h.log| {
      assert rest[k] in h.ordered;
      assert Good(h, rest[k]);
    }
  }

  lemma TouchKeepsInv(h: HelperState, i: nat)
    requires Inv(h) && i < |h.ordered|
    ensures Inv(Touch(h, i))
  {
    var h', m := Touch(h, i), h.ordered[i];
    var e, m' := Touched(m.serial), m.(touch := |h.log|);
    assert Good(h, m);
    LogStep(h.log, e, m.serial);
    TouchSorted(h, i);
    WithoutMembers(h.ordered, i);
    WithoutSorted(h.ordered, i);
    ReplacedKeepsInv(h, h', m, m', e);
  }

  lemma DidKeepsGood(h: HelperState, h': HelperState, m: MachineView, s: State, a: Act)
    requires Good(h, m) && Does(m.id.kind, m.state, a) == Some(s) && !s.Completed?
    requires h'.log == h.log + [Did(m.serial, a)] && h'.kinds == h.kinds && h'.index == h.index
    ensures Good(h', m.(state := s))
  {
    LogStep(h.log, Did(m.serial, a), m.serial);
    ReplayStep(m.id.kind, Trace(h.log, m.serial), a);
  }

  lemma UpdateInPlaceKeepsInv(h: HelperState, i: nat, s: State, a: Act)
    requires Inv(h) && i < |h.ordered| && !s.Completed?
    requires Does(h.ordered[i].id.kind, h.ordered[i].state, a) == Some(s)
    ensures Inv(Move(h, i, s, a))
  {
    var h', m := Move(h, i, s, a), h.ordered[i];
    var m' := m.(state := s);
    assert Good(h, m);
    DidKeepsGood(h, h', m, s, a);
    UpdateMembers(h.ordered, i, m');
    NoOtherCopy(h.ordered, i, m');
    ReplacedKeepsInv(h, h', m, m', Did(m.serial, a));
  }

  lemma NoOtherCopy(ms: seq<MachineView>, i: nat, m': MachineView)
    requires i < |ms| && Sorted(ms) && m'.touch == ms[i].touch
    ensures Sorted(ms[i := m']) && (m' != ms[i] ==> ms[i] !in ms[i := m'])
  {
    var r := ms[i := m'];
    forall a, b | 0 <= a < b < |r| ensures r[a].touch < r[b].touch {
      assert ms[a].touch < ms[b].touch;
    }
  }

  // ---------------------------------------------------------------- a machine leaves

  lemma RemoveGone(h: HelperState, i: nat, a: Act)
    requires Inv(h) && i < |h.ordered|
    requires Does(h.ordered[i].id.kind, h.ordered[i].state, a) == Some(Completed)
    ensures GoneAreCompleted(Move(h, i, Completed, a)) && LogKnown(Move(h, i, Completed, a))
  {
    var h', m := Move(h, i, Completed, a), h.ordered[i];
    var e := Did(m.serial, a);
    assert Good(h, m);
    WithoutMembers(h.ordered, i);
    forall s | 0 <= s < |h'.kinds| && Gone(h'.ordered, s)
      ensures Replay(h'.kinds[s], Trace(h'.log, s)) == Some(Completed)
    {
      if s == m.serial {
        LogStep(h.log, e, s);
        ReplayStep(m.id.kind, Trace(h.log, s), a);
      } else {
        assert Gone(h.ordered, s);
        GoneElsewhere(h, h', e, s);
      }
    }
  }

  lemma RemoveKeepsInv(h: HelperState, i: nat, a: Act)
    requires Inv(h) && i < |h.ordered|
    requires Does(h.ordered[i].id.kind, h.ordered[i].state, a) == Some(Completed)
    ensures Inv(Move(h, i, Completed, a))
  {
    var h', m := Move(h, i, Completed, a), h.ordered[i];
    WithoutMembers(h.ordered, i);
    WithoutSorted(h.ordered, i);
    RemoveGone(h, i, a);
    RemoveGood(h, i, a);
    forall id | id in h'.index ensures Has(h'.ordered, id) {
      var x :| x in h.ordered && x.id == id;
      assert x in h'.ordered;
    }
  }

  lemma RemoveGood(h: HelperState, i: nat, a: Act)
    requires Inv(h) && i < |h.ordered|
    requires Does(h.ordered[i].id.kind, h.ordered[i].state, a) == Some(Completed)
    ensures AllGood(Move(h, i, Completed, a))
  {
    var h', m := Move(h, i, Completed, a), h.ordered[i];
    WithoutMembers(h.ordered, i);
    forall x | x in h'.ordered ensures Good(h', x) {
      if x.serial == m.serial || x.id == m.id { SameMachine(h, x, m); }
      GoodElsewhere(h, h', Did(m.serial, a), x);
    }
  }

  lemma MoveKeepsInv(h: HelperState, i: nat, s: State, a: Act)
    requires Inv(h) && i < |h.ordered|
    requires Does(h.ordered[i].id.kind, h.ordered[i].state, a) == Some(s)
    ensures Inv(Move(h, i, s, a))
  {
    if s.Completed? { RemoveKeepsInv(h, i, a); } else { UpdateInPlaceKeepsInv(h, i, s, a); }
  }

  lemma FlaggedIndexCovered(h: HelperState, i: nat, t: Event)
    requires IndexCovered(h) && i < |h.ordered|
    ensures IndexCovered(Flag(h, i, t))
  {
    var h', m := Flag(h, i, t), h.ordered[i];
    var m' := m.(canceled := true);
    if h' != h {
      UpdateMembers(h.ordered, i, m');
      forall id | id in h'.index ensures Has(h'.ordered, id) {
        var x :| x in h.ordered && x.id == id;
        assert (if x == m then m' else x) in h'.ordered;
      }
    }
  }

  /** Setting a timer's `canceled` flag touches nothing the invariant reads. */
  lemma FlagKeepsInv(h: HelperState, i: nat, t: Event)
    requires Inv(h) && i < |h.ordered|
    ensures Inv(Flag(h, i, t))
  {
    var h', m := Flag(h, i, t), h.ordered[i];
    var m' := m.(canceled := true);
    if h' != h {
      FlagGood(h, i, t);
      FlaggedIndexCovered(h, i, t);
      UpdateMembers(h.ordered, i, m');
      NoOtherCopy(h.ordered, i, m');
      forall s | 0 <= s < |h'.kinds| && Gone(h'.ordered, s) ensures Gone(h.ordered, s) {
        assert s != m.serial;
      }
    }
  }

  lemma FlagGood(h: HelperState, i: nat, t: Event)
    requires Inv(h) && i < |h.ordered|
    ensures AllGood(Flag(h, i, t))
  {
    var h', m := Flag(h, i, t), h.ordered[i];
    var m' := m.(canceled := true);
    if h' != h {
      UpdateMembers(h.ordered, i, m');
      forall x | x in h'.ordered ensures Good(h', x) {
        assert Good(h, if x == m' then m else x);
      }
    }
  }

  // ---------------------------------------------------------------- a machine arrives

  lemma {:induction false} UnknownHasNoTrace(log: seq<Entry>, s: nat)
    requires forall i :: 0 <= i < |log| ==> log[i].serial < s
    ensures Trace(log, s) == []
  {
    if log != [] { UnknownHasNoTrace(log[..|log| - 1], s); }
  }

  lemma AddGone(h: HelperState, id: DecisionID)
    requires Inv(h) && id !in h.index
    ensures GoneAreCompleted(AddMachine(h, id).0) && LogKnown(AddMachine(h, id).0)
  {
    var h', n := AddMachine(h, id).0, |h.kinds|;
    assert h'.ordered[|h.ordered|].serial == n;
    forall s | 0 <= s < |h'.kinds| && Gone(h'.ordered, s)
      ensures Replay(h'.kinds[s], Trace(h'.log, s)) == Some(Completed)
    {
      assert Gone(h.ordered, s);
      GoneElsewhere(h, h', Added(n), s);
    }
  }

  lemma AddGood(h: HelperState, id: DecisionID)
    requires Inv(h) && id !in h.index
    ensures AllGood(AddMachine(h, id).0)
  {
    var h', n := AddMachine(h, id).0, |h.kinds|;
    UnknownHasNoTrace(h.log, n);
    LogStep(h.log, Added(n), n);
    forall x | x in h'.ordered ensures Good(h', x) {
      if x in h.ordered { GoodElsewhere(h, h', Added(n), x); }
    }
  }

  lemma AddCovered(h: HelperState, id: DecisionID)
    requires IndexCovered(h) && id !in h.index
    ensures IndexCovered(AddMachine(h, id).0)
  {
    var h' := AddMachine(h, id).0;
    var m := h'.ordered[|h.ordered|];
    forall x | x in h'.index ensures Has(h'.ordered, x) {
      if x == id {
        assert m in h'.ordered;
      } else {
        var y :| y in h.ordered && y.id == x;
        assert y in h'.ordered;
      }
    }
  }

  lemma AddSorted(h: HelperState, id: DecisionID)
    requires AllGood(h) && Sorted(h.ordered) && id !in h.index
    ensures Sorted(AddMachine(h, id).0.ordered)
  {
    forall k | 0 <= k < |h.ordered| ensures h.ordered[k].touch < |h.log| {
      assert Good(h, h.ordered[k]);
    }
  }

  lemma AddKeepsInv(h: HelperState, id: DecisionID)
    requires Inv(h)
    ensures Inv(AddMachine(h, id).0)
  {
    if id !in h.index {
      AddGone(h, id);
      AddGood(h, id);
      AddCovered(h, id);
      AddSorted(h, id);
    }
  }

  // ---------------------------------------------------------------- whole operations

  lemma DeliverKeepsInv(h: HelperState, i: nat, t: Event)
    requires Inv(h) && i < |h.ordered|
    ensures Inv(Deliver(h, i, t).0)
  {
    FlagKeepsInv(h, i, t);
    match Next(h.ordered[i].id.kind, h.ordered[i].state, t)
    case None =>
    case Some(s) => MoveKeepsInv(Flag(h, i, t), i, s, Fire(t));
  }

  lemma TouchAndDeliverKeepsInv(h: HelperState, i: nat, h': HelperState, t: Event)
    requires Inv(h) && i < |h.ordered| && h' == Touch(h, i)
    ensures |h'.ordered| == |h.ordered| && Inv(Deliver(h', |h'.ordered| - 1, t).0)
  {
    TouchKeepsInv(h, i);
    DeliverKeepsInv(h', |h'.ordered| - 1, t);
  }

  lemma LookUpAndDeliverKeepsInv(h: HelperState, id: DecisionID, t: Event)
    requires Inv(h)
    ensures Inv(LookUpAndDeliver(h, id, t).0)
  {
    var i := Find(h.ordered, id);
    if id in h.index && i < |h.ordered| {
      TouchAndDeliverKeepsInv(h, i, Touch(h, i), t);
    }
  }

  lemma {:induction false} DrainKeepsInv(h: HelperState, i: nat)
    requires Inv(h) && i <= |h.ordered|
    ensures Inv(Drain(h, i))
    decreases |h.ordered| - i
  {
    if i < |h.ordered| {
      var h', m := DrainOne(h, i), h.ordered[i];
      match Emits(m.id.kind, m.state) {
        case None =>
        case Some(d) => MoveKeepsInv(h, i, AfterSent(m.id.kind, m.state), Emit(d));
      }
      DrainKeepsInv(h', if |h'.ordered| < |h.ordered| then i else i + 1);
    }
  }

  lemma RoutingKeepsInv(h: HelperState, h': HelperState)
    requires Inv(h) && h'.ordered == h.ordered && h'.index == h.index && h'.kinds == h.kinds && h'.log == h.log
    ensures Inv(h')
  {
    forall m | m in h'.ordered ensures Good(h', m) { assert Good(h, m); }
  }

  lemma CancelInitiatedKeepsInv(h: HelperState, e: int, w: string, c: string)
    requires Inv(h)
    ensures Inv(Step(h, ExternalCancelInitiated(e, w, c)).0)
  {
    LookUpAndDeliverKeepsInv(h, DecisionID(ChildWorkflow, w), OnCancelInitiated);
    RoutingKeepsInv(h, h.(cancellationIDs := h.cancellationIDs[e := c]));
    LookUpAndDeliverKeepsInv(h.(cancellationIDs := h.cancellationIDs[e := c]), DecisionID(Cancellation, c),
        OnInitiated);
  }

  lemma ExternalKeepsInv(h: HelperState, op: Op)
    requires Inv(h) && (op.ExternalCancelInitiated? || op.ExternalCancelRequested? || op.ExternalCancelFailed?)
    ensures Inv(Step(h, op).0)
  {
    match op
    case ExternalCancelInitiated(e, w, c) => CancelInitiatedKeepsInv(h, e, w, c);
    case ExternalCancelRequested(e, w) => CancelRequestedKeepsInv(h, e, w);
    case ExternalCancelFailed(e, w) => CancelFailedKeepsInv(h, e, w);
  }

  lemma CancelRequestedKeepsInv(h: HelperState, e: int, w: string)
    requires Inv(h)
    ensures Inv(Step(h, ExternalCancelRequested(e, w)).0)
  {
    hide LookUpAndDeliver, Inv, Touch;
    var id := DecisionID(ChildWorkflow, w);
    if e in h.cancellationIDs {
      LookUpAndDeliverKeepsInv(h, DecisionID(Cancellation, h.cancellationIDs[e]), OnCompletion);
    }
    else if id in h.index && Find(h.ordered, id) < |h.ordered| { TouchKeepsInv(h, Find(h.ordered, id)); }
  }

  lemma CancelFailedKeepsInv(h: HelperState, e: int, w: string)
    requires Inv(h)
    ensures Inv(Step(h, ExternalCancelFailed(e, w)).0)
  {
    if e in h.cancellationIDs {
      LookUpAndDeliverKeepsInv(h, DecisionID(Cancellation, h.cancellationIDs[e]), OnCompletion);
    }
    else { LookUpAndDeliverKeepsInv(h, DecisionID(ChildWorkflow, w), OnCancelFailed); }
  }

  lemma StepKeepsInv(h: HelperState, op: Op)
    requires Inv(h)
    ensures Inv(Step(h, op).0)
  {
    match op
    case Add(id) => AddKeepsInv(h, id);
    case Handle(id, t) => LookUpAndDeliverKeepsInv(h, id, t);
    case ActivityScheduled(e, a) =>
      RoutingKeepsInv(h, h.(activityIDs := h.activityIDs[e := a]));
      LookUpAndDeliverKeepsInv(h.(activityIDs := h.activityIDs[e := a]), DecisionID(Activity, a), OnInitiated);
    case ActivityClosed(e) =>
      if e in h.activityIDs { LookUpAndDeliverKeepsInv(h, DecisionID(Activity, h.activityIDs[e]), OnCompletion); }
    case ActivityCanceled(e) =>
      if e in h.activityIDs { LookUpAndDeliverKeepsInv(h, DecisionID(Activity, h.activityIDs[e]), OnCanceled); }
    case ExternalCancelInitiated(_, _, _) => ExternalKeepsInv(h, op);
    case ExternalCancelRequested(_, _) => ExternalKeepsInv(h, op);
    case ExternalCancelFailed(_, _) => ExternalKeepsInv(h, op);
    case SignalInitiated(e, g) =>
      RoutingKeepsInv(h, h.(signalIDs := h.signalIDs[e := g]));
      LookUpAndDeliverKeepsInv(h.(signalIDs := h.signalIDs[e := g]), DecisionID(Signal, g), OnInitiated);
    case SignalClosed(e) =>
      if e in h.signalIDs { LookUpAndDeliverKeepsInv(h, DecisionID(Signal, h.signalIDs[e]), OnCompletion); }
    case GetDecisions => DrainKeepsInv(h, 0);
  }

  lemma {:induction false} RunKeepsInv(ops: seq<Op>)
    ensures Inv(Run(ops))
  {
    if ops != [] {
      RunKeepsInv(ops[..|ops| - 1]);
      StepKeepsInv(Run(ops[..|ops| - 1]), ops[|ops| - 1]);
    }
  }

  // ---------------------------------------------------------------- draining

  /** What a drain leaves of one machine: nothing if sending completes it, else the machine in its new state. */
  function KeptOf(m: MachineView): seq<MachineView> {
    var s := AfterSent(m.id.kind, m.state);
    if s.Completed? && !m.state.Completed? then [] else [m.(state := s)]
  }

  /** What a drain logs for one machine. */
  function EmittedBy(m: MachineView): seq<Entry> {
    match Emits(m.id.kind, m.state)
    case None => []
    case Some(d) => [Did(m.serial, Emit(d))]
  }

  function Remaining(ms: seq<MachineView>): seq<MachineView> {
    if ms == [] then [] else KeptOf(ms[0]) + Remaining(ms[1..])
  }

  /** The log entries of a drain: one emission per machine that has something to say, in list order. */
  function Emissions(ms: seq<MachineView>): seq<Entry> {
    if ms == [] then [] else EmittedBy(ms[0]) + Emissions(ms[1..])
  }

  /** The decisions a drain hands out for one machine, and for a list. */
  function OutputOf(m: MachineView): seq<(DecisionID, Decision)> {
    match Emits(m.id.kind, m.state)
    case None => []
    case Some(d) => [(m.id, d)]
  }

  function Outputs(ms: seq<MachineView>): seq<(DecisionID, Decision)> {
    if ms == [] then [] else OutputOf(ms[0]) + Outputs(ms[1..])
  }

  /** One turn of the drain, seen on the list split at the current machine. */
  lemma DrainOneSplits(h: HelperState, pre: seq<MachineView>, m: MachineView, rest: seq<MachineView>)
    requires h.ordered == pre + [m] + rest
    ensures DrainOne(h, |pre|).ordered == pre + KeptOf(m) + rest
    ensures DrainOne(h, |pre|).log == h.log + EmittedBy(m)
  {
    assert h.ordered[|pre|] == m;
    assert Without(h.ordered, |pre|) == pre + [] + rest;
    var m' := m.(state := AfterSent(m.id.kind, m.state));
    assert h.ordered[|pre| := m'] == pre + [m'] + rest;
  }

  lemma DrainTurn(h: HelperState, i: nat, h': HelperState)
    requires i < |h.ordered| && h' == DrainOne(h, i)
    ensures Drain(h, i) == Drain(h', i + |KeptOf(h.ordered[i])|)
  {
  }

  lemma SuffixHead(pre: seq<MachineView>, suf: seq<MachineView>)
    requires suf != []
    ensures pre + suf == pre + [suf[0]] + suf[1..] && (pre + suf)[|pre|] == suf[0]
  {
  }

  lemma {:induction false} DrainSplits(h: HelperState, i: nat, pre: seq<MachineView>, suf: seq<MachineView>)
    requires h.ordered == pre + suf && i == |pre|
    ensures Drain(h, i).ordered == pre + Remaining(suf)
    ensures Drain(h, i).log == h.log + Emissions(suf)
    decreases |suf|
  {
    if suf == [] {
      assert h.ordered == pre;
    } else {
      var m, rest, h' := suf[0], suf[1..], DrainOne(h, i);
      SuffixHead(pre, suf);
      DrainOneSplits(h, pre, m, rest);
      DrainTurn(h, i, h');
      var pre' := pre + KeptOf(m);
      DrainSplits(h', |pre'|, pre', rest);
      assert Drain(h, i) == Drain(h', |pre'|);
      RemainingHead(pre, h.log, suf);
    }
  }

  lemma RemainingHead(pre: seq<MachineView>, log: seq<Entry>, suf: seq<MachineView>)
    requires suf != []
    ensures pre + KeptOf(suf[0]) + Remaining(suf[1..]) == pre + Remaining(suf)
    ensures log + EmittedBy(suf[0]) + Emissions(suf[1..]) == log + Emissions(suf)
  {
    Associative(pre, KeptOf(suf[0]), Remaining(suf[1..]));
    Associative(log, EmittedBy(suf[0]), Emissions(suf[1..]));
  }

  /** A drain emits every pending decision in list order, whatever it removes on the way. */
  lemma DrainIsListOrder(h: HelperState)
    ensures Drain(h, 0).ordered == Remaining(h.ordered)
    ensures Drain(h, 0).log == h.log + Emissions(h.ordered)
  {
    DrainSplits(h, 0, [], h.ordered);
  }

  lemma {:induction false} NothingPending(ms: seq<MachineView>)
    ensures forall m :: m in Remaining(ms) ==> Emits(m.id.kind, m.state).None?
  {
    if ms != [] { NothingPending(ms[1..]); }
  }

  lemma {:induction false} NothingToDrain(h: HelperState, i: nat)
    requires i <= |h.ordered| && forall m :: m in h.ordered ==> Emits(m.id.kind, m.state).None?
    ensures Drain(h, i) == h
    decreases |h.ordered| - i
  {
    if i < |h.ordered| {
      assert h.ordered[i] in h.ordered;
      NothingToDrain(h, i + 1);
    }
  }

  // ---------------------------------------------------------------- main results

  /** Every machine that ever existed in a run, present or gone, obeyed the emission discipline. */
  lemma EmissionDiscipline(ops: seq<Op>, s: nat)
    requires s < |Run(ops).kinds|
    ensures Disciplined(Run(ops).kinds[s], Trace(Run(ops).log, s))
  {
    var h := Run(ops);
    RunKeepsInv(ops);
    if !Gone(h.ordered, s) {
      var m :| m in h.ordered && m.serial == s;
      assert Good(h, m);
    }
    LegalTracesAreDisciplined(h.kinds[s], Trace(h.log, s));
  }

  lemma IndexIsTheList(h: HelperState)
    requires Inv(h)
    ensures h.index.Keys == set m | m in h.ordered :: m.id
  {
    forall id | id in h.index ensures id in (set m | m in h.ordered :: m.id) {
      assert Has(h.ordered, id);
    }
    forall m | m in h.ordered ensures m.id in h.index { assert Good(h, m); }
  }

  lemma ListIsOrdered(h: HelperState, i: nat, j: nat)
    requires Inv(h) && i < j < |h.ordered|
    ensures h.ordered[i].id != h.ordered[j].id
    ensures LastTouch(h.log, h.ordered[i].serial) < LastTouch(h.log, h.ordered[j].serial)
  {
    assert Good(h, h.ordered[i]) && Good(h, h.ordered[j]);
  }

  /** Index and list hold the same machines under unique IDs, none of them completed, oldest touch first. */
  lemma IndexAndOrder(ops: seq<Op>)
    ensures var h := Run(ops);
            && h.index.Keys == (set m | m in h.ordered :: m.id)
            && (forall m :: m in h.ordered ==> h.index[m.id] == m.serial && !m.state.Completed?)
            && (forall i, j :: 0 <= i < j < |h.ordered| ==>
                  && h.ordered[i].id != h.ordered[j].id
                  && LastTouch(h.log, h.ordered[i].serial) < LastTouch(h.log, h.ordered[j].serial))
  {
    var h := Run(ops);
    RunKeepsInv(ops);
    IndexIsTheList(h);
    forall i, j | 0 <= i < j < |h.ordered|
      ensures h.ordered[i].id != h.ordered[j].id
      ensures LastTouch(h.log, h.ordered[i].serial) < LastTouch(h.log, h.ordered[j].serial)
    {
      ListIsOrdered(h, i, j);
    }
    forall m | m in h.ordered ensures h.index[m.id] == m.serial && !m.state.Completed? { assert Good(h, m); }
  }

  /** Emissions in a sorted list come out in order of last touch. */
  lemma {:induction false} EmissionsFollowTheList(ms: seq<MachineView>, i: nat, j: nat) returns (a: nat, b: nat)
    requires i < j < |Emissions(ms)|
    ensures a < b < |ms| && Emissions(ms)[i].serial == ms[a].serial && Emissions(ms)[j].serial == ms[b].serial
  {
    var n := if Emits(ms[0].id.kind, ms[0].state).None? then 0 else 1;
    if n == 1 && i == 0 {
      a := 0;
      b := EmissionSource(ms[1..], j - 1);
      b := b + 1;
    } else {
      a, b := EmissionsFollowTheList(ms[1..], i - n, j - n);
      a, b := a + 1, b + 1;
    }
  }

  lemma {:induction false} EmissionSource(ms: seq<MachineView>, i: nat) returns (a: nat)
    requires i < |Emissions(ms)|
    ensures a < |ms| && Emissions(ms)[i].serial == ms[a].serial
  {
    var n := if Emits(ms[0].id.kind, ms[0].state).None? then 0 else 1;
    if n == 1 && i == 0 {
      a := 0;
    } else {
      a := EmissionSource(ms[1..], i - n);
      a := a + 1;
    }
  }

  /** After any run, a drain hands out decisions in the order their machines were last touched. */
  lemma DrainInTouchOrder(ops: seq<Op>, i: nat, j: nat)
    requires i < j < |Emissions(Run(ops).ordered)|
    ensures var h := Run(ops);
            LastTouch(h.log, Emissions(h.ordered)[i].serial) < LastTouch(h.log, Emissions(h.ordered)[j].serial)
  {
    var h := Run(ops);
    RunKeepsInv(ops);
    var a, b := EmissionsFollowTheList(h.ordered, i, j);
    assert Good(h, h.ordered[a]) && Good(h, h.ordered[b]);
  }

  /** Draining twice in a row emits nothing the second time and changes nothing. */
  lemma SecondDrainIsEmpty(h: HelperState)
    ensures Drain(Drain(h, 0), 0) == Drain(h, 0)
  {
    DrainIsListOrder(h);
    NothingPending(h.ordered);
    NothingToDrain(Drain(h, 0), 0);
  }
}
