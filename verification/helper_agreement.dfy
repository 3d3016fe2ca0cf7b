/**
 Two helpers that differ in markers and search attribute upserts only. A live run registers
 markers that its replay does not; everything else the two do is the same, and so are the
 machines, their order, and what they say when they are drained.
 */
module HelperAgreement {
  import opened Common
  import opened DecisionMachine
  import opened DecisionsState
  import opened DecisionsRuns

  /** The kinds that are finished once they are sent. */
  predicate OneShot(k: Kind) { k.Marker? || k.UpsertSearchAttributes? }

  /** A machine without what only the log knows. */
  datatype Bare = Bare(id: DecisionID, state: State, canceled: bool)

  function StripOne(m: MachineView): seq<Bare> {
    if OneShot(m.id.kind) then [] else [Bare(m.id, m.state, m.canceled)]
  }

  function Strip(ms: seq<MachineView>): seq<Bare> {
    if ms == [] then [] else StripOne(ms[0]) + Strip(ms[1..])
  }

  lemma {:induction false} StripConcat(a: seq<MachineView>, b: seq<MachineView>)
    ensures Strip(a + b) == Strip(a) + Strip(b)
  {
    if a == [] {
      assert a + b == b;
    } else {
      assert (a + b)[1..] == a[1..] + b;
      StripConcat(a[1..], b);
    }
  }

  function FindBare(bs: seq<Bare>, id: DecisionID): (i: nat)
    ensures i <= |bs|
  {
    if bs == [] || bs[0].id == id then 0 else 1 + FindBare(bs[1..], id)
  }

  lemma {:induction false} FindBareAt(a: seq<Bare>, b: Bare, c: seq<Bare>)
    requires forall x :: x in a ==> x.id != b.id
    ensures FindBare(a + [b] + c, b.id) == |a| && (a + [b] + c)[|a|] == b && Without(a + [b] + c, |a|) == a + c
  {
    if a != [] {
      assert (a + [b] + c)[1..] == a[1..] + [b] + c;
      FindBareAt(a[1..], b, c);
    }
  }

  lemma {:induction false} FindBareNone(bs: seq<Bare>, id: DecisionID)
    requires forall x :: x in bs ==> x.id != id
    ensures FindBare(bs, id) == |bs|
  {
    if bs != [] { FindBareNone(bs[1..], id); }
  }

  lemma {:induction false} StripMembers(ms: seq<MachineView>, id: DecisionID)
    requires forall i :: 0 <= i < |ms| ==> ms[i].id != id
    ensures forall b :: b in Strip(ms) ==> b.id != id
  {
    if ms != [] { StripMembers(ms[1..], id); }
  }

  lemma StripSplit(ms: seq<MachineView>, i: nat)
    requires i < |ms|
    ensures Strip(ms) == Strip(ms[..i]) + StripOne(ms[i]) + Strip(ms[i + 1..])
  {
    assert ms == ms[..i] + ms[i..] && ms[i..][1..] == ms[i + 1..];
    StripConcat(ms[..i], ms[i..]);
    Associative(Strip(ms[..i]), StripOne(ms[i]), Strip(ms[i + 1..]));
  }

  /** A machine that is not one-shot is found in the stripped list exactly when it is found in the list, */
  lemma FindStripped(ms: seq<MachineView>, id: DecisionID)
    requires !OneShot(id.kind)
    ensures Find(ms, id) < |ms| <==> FindBare(Strip(ms), id) < |Strip(ms)|
    ensures Find(ms, id) < |ms| ==> FoundAt(ms, id)
  {
    var i := Find(ms, id);
    StripMembers(ms[..i], id);
    if i < |ms| {
      StripSplit(ms, i);
      FindBareAt(Strip(ms[..i]), BareOf(ms[i]), Strip(ms[i + 1..]));
    } else {
      assert ms[..i] == ms;
      FindBareNone(Strip(ms), id);
    }
  }

  function BareOf(m: MachineView): Bare { Bare(m.id, m.state, m.canceled) }

  /** and then in the same place. */
  ghost predicate FoundAt(ms: seq<MachineView>, id: DecisionID)
    requires Find(ms, id) < |ms|
  {
    var i, p := Find(ms, id), FindBare(Strip(ms), id);
    && p < |Strip(ms)| && Strip(ms)[p] == BareOf(ms[i])
    && Without(Strip(ms), p) == Strip(ms[..i]) + Strip(ms[i + 1..])
  }

  /** The same machines in the same order, and the same routes from event IDs. */
  ghost predicate Same(l: HelperState, r: HelperState) {
    && Strip(l.ordered) == Strip(r.ordered)
    && l.activityIDs == r.activityIDs && l.cancellationIDs == r.cancellationIDs && l.signalIDs == r.signalIDs
  }

  /** Every one-shot machine on the right is on the left too. */
  ghost predicate Fewer(l: HelperState, r: HelperState) {
    forall id: DecisionID :: OneShot(id.kind) && id in r.index ==> id in l.index
  }

  ghost predicate Agree(l: HelperState, r: HelperState) { Inv(l) && Inv(r) && Same(l, r) && Fewer(l, r) }

  // ---------------------------------------------------------------- adding

  lemma IndexIsFind(h: HelperState, id: DecisionID)
    requires Inv(h)
    ensures id in h.index <==> Find(h.ordered, id) < |h.ordered|
  {
    var i := Find(h.ordered, id);
    if id in h.index { FindHas(h.ordered, id); }
    if i < |h.ordered| { assert Good(h, h.ordered[i]); }
  }

  lemma AgreeOnIndex(l: HelperState, r: HelperState, id: DecisionID)
    requires Agree(l, r)
    ensures id in r.index ==> id in l.index
    ensures !OneShot(id.kind) ==> (id in l.index <==> id in r.index)
  {
    if !OneShot(id.kind) {
      IndexIsFind(l, id);
      IndexIsFind(r, id);
      FindStripped(l.ordered, id);
      FindStripped(r.ordered, id);
    }
  }

  lemma StripAdded(h: HelperState, id: DecisionID)
    requires id !in h.index
    ensures Strip(AddMachine(h, id).0.ordered) ==
            Strip(h.ordered) + if OneShot(id.kind) then [] else [Bare(id, Created, false)]
  {
    var m := MachineView(id, |h.kinds|, Created, false, |h.log|);
    StripConcat(h.ordered, [m]);
    assert Strip([m]) == StripOne(m);
  }

  /** What can be added live can be added in replay. */
  lemma AddAgrees(l: HelperState, r: HelperState, id: DecisionID)
    requires Agree(l, r) && AddMachine(l, id).1
    ensures AddMachine(r, id).1 && Agree(AddMachine(l, id).0, AddMachine(r, id).0)
  {
    AgreeOnIndex(l, r, id);
    StripAdded(l, id);
    StripAdded(r, id);
    AddKeepsInv(l, id);
    AddKeepsInv(r, id);
  }

  /** A one-shot machine may be added live alone. */
  lemma AddLiveAgrees(l: HelperState, r: HelperState, id: DecisionID)
    requires Agree(l, r) && OneShot(id.kind) && AddMachine(l, id).1
    ensures Agree(AddMachine(l, id).0, r)
  {
    StripAdded(l, id);
    AddKeepsInv(l, id);
  }

  // ---------------------------------------------------------------- looking up and delivering

  lemma StripLast(pre: seq<MachineView>, m: MachineView)
    requires !OneShot(m.id.kind)
    ensures Strip(pre + [m]) == Strip(pre) + [BareOf(m)]
  {
    StripConcat(pre, [m]);
    assert Strip([m]) == StripOne(m) + Strip([m][1..]);
  }

  lemma StripWithout(ms: seq<MachineView>, i: nat)
    requires i < |ms|
    ensures Strip(Without(ms, i)) == Strip(ms[..i]) + Strip(ms[i + 1..])
  {
    StripConcat(ms[..i], ms[i + 1..]);
  }

  /** A lookup moves the same machine to the back of both lists. */
  lemma StripTouched(ms: seq<MachineView>, id: DecisionID, i: nat, p: nat, touch: nat)
    requires !OneShot(id.kind) && i == Find(ms, id) < |ms| && p == FindBare(Strip(ms), id)
    ensures p < |Strip(ms)| && Strip(ms)[p] == BareOf(ms[i])
    ensures Strip(Without(ms, i)) == Without(Strip(ms), p)
    ensures Strip(Without(ms, i) + [ms[i].(touch := touch)]) == Without(Strip(ms), p) + [Strip(ms)[p]]
  {
    FindStripped(ms, id);
    StripWithout(ms, i);
    StripLast(Without(ms, i), ms[i].(touch := touch));
  }

  /** What a delivery to the last machine leaves of it. */
  function Delivered(b: Bare, t: Event): seq<Bare> {
    var b' := if b.id.kind.Timer? && t.OnCancel? then b.(canceled := true) else b;
    match Next(b.id.kind, b.state, t)
    case None => [b']
    case Some(s) => if s.Completed? then [] else [b'.(state := s)]
  }

  lemma StripDelivered(h: HelperState, pre: seq<MachineView>, m: MachineView, t: Event)
    requires h.ordered == pre + [m] && !OneShot(m.id.kind)
    ensures Strip(Deliver(h, |pre|, t).0.ordered) == Strip(pre) + Delivered(BareOf(m), t)
    ensures Deliver(h, |pre|, t).1 == Next(m.id.kind, m.state, t).Some?
  {
    var m' := if m.id.kind.Timer? && t.OnCancel? then m.(canceled := true) else m;
    DeliveredList(h, pre, m, m', t);
    match Next(m.id.kind, m.state, t) {
      case None => StripLast(pre, m');
      case Some(s) =>
        if !s.Completed? { StripLast(pre, m'.(state := s)); }
    }
  }

  lemma DeliveredList(h: HelperState, pre: seq<MachineView>, m: MachineView, m': MachineView, t: Event)
    requires h.ordered == pre + [m] && m' == if m.id.kind.Timer? && t.OnCancel? then m.(canceled := true) else m
    ensures Deliver(h, |pre|, t).0.ordered ==
            match Next(m.id.kind, m.state, t)
            case None => pre + [m']
            case Some(s) => if s.Completed? then pre else pre + [m'.(state := s)]
  {
    assert h.ordered[|pre|] == m;
    assert Flag(h, |pre|, t).ordered == pre + [m'];
  }

  /** The list after a lookup and a delivery, as a function of the stripped list. */
  function Served(bs: seq<Bare>, id: DecisionID, t: Event): (seq<Bare>, bool) {
    var p := FindBare(bs, id);
    if p == |bs| then (bs, false)
    else (Without(bs, p) + Delivered(bs[p], t), Next(id.kind, bs[p].state, t).Some?)
  }

  lemma ServedOn(h: HelperState, id: DecisionID, t: Event, i: nat, h': HelperState)
    requires id in h.index && i == Find(h.ordered, id) < |h.ordered| && h' == Touch(h, i)
    ensures |h'.ordered| == |h.ordered| && LookUpAndDeliver(h, id, t) == Deliver(h', |h'.ordered| - 1, t)
  {
  }

  lemma StripServed(h: HelperState, id: DecisionID, t: Event)
    requires Inv(h) && !OneShot(id.kind)
    ensures Strip(LookUpAndDeliver(h, id, t).0.ordered) == Served(Strip(h.ordered), id, t).0
    ensures LookUpAndDeliver(h, id, t).1 == Served(Strip(h.ordered), id, t).1
  {
    var i, p := Find(h.ordered, id), FindBare(Strip(h.ordered), id);
    IndexIsFind(h, id);
    FindStripped(h.ordered, id);
    if i < |h.ordered| {
      var pre, m, h' := Without(h.ordered, i), h.ordered[i].(touch := |h.log|), Touch(h, i);
      StripTouched(h.ordered, id, i, p, |h.log|);
      ServedOn(h, id, t, i, h');
      StripDelivered(h', pre, m, t);
      assert BareOf(m) == Strip(h.ordered)[p];
    }
  }

  lemma ServeAgrees(l: HelperState, r: HelperState, id: DecisionID, t: Event)
    requires Agree(l, r) && !OneShot(id.kind)
    ensures LookUpAndDeliver(l, id, t).1 == LookUpAndDeliver(r, id, t).1
    ensures Agree(LookUpAndDeliver(l, id, t).0, LookUpAndDeliver(r, id, t).0)
  {
    StripServed(l, id, t);
    StripServed(r, id, t);
    LookUpAndDeliverKeepsInv(l, id, t);
    LookUpAndDeliverKeepsInv(r, id, t);
    ServeSparesOneShots(l, id, t);
    ServeSparesOneShots(r, id, t);
  }

  ghost predicate SparesOneShots(h: HelperState, h': HelperState) {
    && (forall x: DecisionID :: OneShot(x.kind) ==> (x in h'.index <==> x in h.index))
    && h'.activityIDs == h.activityIDs && h'.cancellationIDs == h.cancellationIDs && h'.signalIDs == h.signalIDs
  }

  lemma MoveSparesOneShots(h: HelperState, i: nat, s: State, a: Act)
    requires i < |h.ordered| && !OneShot(h.ordered[i].id.kind)
    ensures SparesOneShots(h, Move(h, i, s, a))
  {
  }

  lemma DeliverSparesOneShots(h: HelperState, i: nat, t: Event)
    requires i < |h.ordered| && !OneShot(h.ordered[i].id.kind)
    ensures SparesOneShots(h, Deliver(h, i, t).0)
  {
    var h' := Flag(h, i, t);
    match Next(h.ordered[i].id.kind, h.ordered[i].state, t)
    case None =>
    case Some(s) => MoveSparesOneShots(h', i, s, Fire(t));
  }

  lemma ServeSparesOneShots(h: HelperState, id: DecisionID, t: Event)
    requires !OneShot(id.kind)
    ensures SparesOneShots(h, LookUpAndDeliver(h, id, t).0)
  {
    hide Deliver;
    var i := Find(h.ordered, id);
    if id in h.index && i < |h.ordered| {
      var h' := Touch(h, i);
      ServedOn(h, id, t, i, h');
      DeliverSparesOneShots(h', |h'.ordered| - 1, t);
    }
  }

  lemma LookUpAgrees(l: HelperState, r: HelperState, id: DecisionID)
    requires Agree(l, r) && !OneShot(id.kind)
    ensures LookUp(l, id).1 == LookUp(r, id).1 && Agree(LookUp(l, id).0, LookUp(r, id).0)
  {
    hide Inv;
    IndexIsFind(l, id);
    IndexIsFind(r, id);
    AgreeOnIndex(l, r, id);
    if id in l.index {
      StripTouched(l.ordered, id, Find(l.ordered, id), FindBare(Strip(l.ordered), id), |l.log|);
      StripTouched(r.ordered, id, Find(r.ordered, id), FindBare(Strip(r.ordered), id), |r.log|);
      TouchKeepsInv(l, Find(l.ordered, id));
      TouchKeepsInv(r, Find(r.ordered, id));
    }
  }

  /** New routes on both sides. */
  lemma RoutesAgree(l: HelperState, r: HelperState, l': HelperState, r': HelperState)
    requires Agree(l, r) && Same(l', r')
    requires l'.ordered == l.ordered && l'.index == l.index && l'.kinds == l.kinds && l'.log == l.log
    requires r'.ordered == r.ordered && r'.index == r.index && r'.kinds == r.kinds && r'.log == r.log
    ensures Agree(l', r')
  {
    RoutingKeepsInv(l, l');
    RoutingKeepsInv(r, r');
  }

  // ---------------------------------------------------------------- draining

  function KeptBare(b: Bare): seq<Bare> {
    var s := AfterSent(b.id.kind, b.state);
    if s.Completed? && !b.state.Completed? then [] else [b.(state := s)]
  }

  function RemainingBare(bs: seq<Bare>): seq<Bare> {
    if bs == [] then [] else KeptBare(bs[0]) + RemainingBare(bs[1..])
  }

  lemma {:induction false} StripRemaining(ms: seq<MachineView>)
    ensures Strip(Remaining(ms)) == RemainingBare(Strip(ms))
  {
    if ms != [] {
      StripRemaining(ms[1..]);
      StripConcat(KeptOf(ms[0]), Remaining(ms[1..]));
      var kept := KeptOf(ms[0]);
      if kept != [] { assert kept[1..] == [] && Strip(kept) == StripOne(kept[0]); }
      if OneShot(ms[0].id.kind) {
        assert Strip(ms) == Strip(ms[1..]);
      } else {
        assert Strip(ms)[0] == BareOf(ms[0]) && Strip(ms)[1..] == Strip(ms[1..]);
      }
    }
  }

  /** The decisions other than markers and upserts. */
  function Proper(out: seq<(DecisionID, Decision)>): seq<(DecisionID, Decision)> {
    if out == [] then [] else (if OneShot(out[0].0.kind) then [] else [out[0]]) + Proper(out[1..])
  }

  /** Each decision on its own, kept exactly if it is neither a marker nor an upsert, in order. */
  lemma {:induction false} ProperExactly(out: seq<(DecisionID, Decision)>, x: (DecisionID, Decision))
    ensures Proper(out + [x]) == Proper(out) + if x.0.kind.Marker? || x.0.kind.UpsertSearchAttributes? then [] else [x]
  {
    if out == [] {
      assert out + [x] == [x];
    } else {
      ProperExactly(out[1..], x);
      assert (out + [x])[1..] == out[1..] + [x];
    }
  }

  function Says(b: Bare): seq<(DecisionID, Decision)> {
    match Emits(b.id.kind, b.state)
    case None => []
    case Some(d) => [(b.id, d)]
  }

  function AllSay(bs: seq<Bare>): seq<(DecisionID, Decision)> {
    if bs == [] then [] else Says(bs[0]) + AllSay(bs[1..])
  }

  lemma {:induction false} StripOutputs(ms: seq<MachineView>)
    ensures Proper(Outputs(ms)) == AllSay(Strip(ms))
  {
    if ms != [] {
      StripOutputs(ms[1..]);
      var out := OutputOf(ms[0]);
      if out != [] {
        assert Outputs(ms)[0] == out[0] && Outputs(ms)[1..] == Outputs(ms[1..]);
      } else {
        assert Outputs(ms) == Outputs(ms[1..]);
      }
      if OneShot(ms[0].id.kind) {
        assert Strip(ms) == Strip(ms[1..]);
      } else {
        assert Strip(ms)[0] == BareOf(ms[0]) && Strip(ms)[1..] == Strip(ms[1..]);
      }
    }
  }

  /** A one-shot machine that is still there has not been sent. */
  lemma {:induction false} OneShotStates(k: Kind, trace: seq<Act>)
    requires OneShot(k) && Replay(k, trace).Some?
    ensures Replay(k, trace).value.Created? || Replay(k, trace).value.Completed?
  {
    if trace != [] { OneShotStates(k, trace[..|trace| - 1]); }
  }

  lemma {:induction false} KeptAreNotOneShot(ms: seq<MachineView>)
    requires forall m :: m in ms && OneShot(m.id.kind) ==> m.state.Created?
    ensures forall m :: m in Remaining(ms) ==> !OneShot(m.id.kind)
  {
    if ms != [] { KeptAreNotOneShot(ms[1..]); }
  }

  lemma DrainLeavesNoOneShot(h: HelperState)
    requires Inv(h)
    ensures Inv(Drain(h, 0)) && forall id: DecisionID :: OneShot(id.kind) ==> id !in Drain(h, 0).index
  {
    var h' := Drain(h, 0);
    DrainKeepsInv(h, 0);
    DrainIsListOrder(h);
    forall m | m in h.ordered && OneShot(m.id.kind) ensures m.state.Created? {
      assert Good(h, m);
      OneShotStates(m.id.kind, Trace(h.log, m.serial));
    }
    KeptAreNotOneShot(h.ordered);
    forall id | id in h'.index ensures !OneShot(id.kind) { assert Has(h'.ordered, id); }
  }

  lemma {:induction false} DrainSparesRoutes(h: HelperState, i: nat)
    requires i <= |h.ordered|
    ensures var h' := Drain(h, i);
            h'.activityIDs == h.activityIDs && h'.cancellationIDs == h.cancellationIDs && h'.signalIDs == h.signalIDs
    decreases |h.ordered| - i
  {
    if i < |h.ordered| {
      var h' := DrainOne(h, i);
      DrainSparesRoutes(h', if |h'.ordered| < |h.ordered| then i else i + 1);
    }
  }

  /** Drained, two helpers that agree say the same, markers and upserts aside, and agree again. */
  lemma DrainAgrees(l: HelperState, r: HelperState)
    requires Agree(l, r)
    ensures Agree(Drain(l, 0), Drain(r, 0)) && Agree(Drain(r, 0), Drain(l, 0))
    ensures Proper(Outputs(l.ordered)) == Proper(Outputs(r.ordered))
  {
    DrainLeavesNoOneShot(l);
    DrainLeavesNoOneShot(r);
    DrainIsListOrder(l);
    DrainIsListOrder(r);
    DrainSparesRoutes(l, 0);
    DrainSparesRoutes(r, 0);
    StripRemaining(l.ordered);
    StripRemaining(r.ordered);
    StripOutputs(l.ordered);
    StripOutputs(r.ordered);
  }

  // ---------------------------------------------------------------- any operation

  /** Operations that do not concern one-shot machines. */
  predicate Regular(op: Op) {
    match op
    case Add(id) => !OneShot(id.kind)
    case Handle(id, _) => !OneShot(id.kind)
    case _ => true
  }

  /** Delivering any event ends alike on both sides, panics included. */
  lemma StepAgrees(l: HelperState, r: HelperState, op: Op)
    requires Agree(l, r) && Regular(op) && !op.Add?
    ensures Step(l, op).1 == Step(r, op).1 && Agree(Step(l, op).0, Step(r, op).0)
  {
    hide LookUpAndDeliver, LookUp, Inv, Drain;
    match op
    case Handle(id, t) => ServeAgrees(l, r, id, t);
    case ActivityScheduled(e, a) =>
      var l', r' := l.(activityIDs := l.activityIDs[e := a]), r.(activityIDs := r.activityIDs[e := a]);
      RoutesAgree(l, r, l', r');
      ServeAgrees(l', r', DecisionID(Activity, a), OnInitiated);
    case ActivityClosed(e) =>
      if e in l.activityIDs { ServeAgrees(l, r, DecisionID(Activity, l.activityIDs[e]), OnCompletion); }
    case ActivityCanceled(e) =>
      if e in l.activityIDs { ServeAgrees(l, r, DecisionID(Activity, l.activityIDs[e]), OnCanceled); }
    case ExternalCancelInitiated(e, w, c) =>
      if c == "" {
        ServeAgrees(l, r, DecisionID(ChildWorkflow, w), OnCancelInitiated);
      } else {
        var l', r' := l.(cancellationIDs := l.cancellationIDs[e := c]),
            r.(cancellationIDs := r.cancellationIDs[e := c]);
        RoutesAgree(l, r, l', r');
        ServeAgrees(l', r', DecisionID(Cancellation, c), OnInitiated);
      }
    case ExternalCancelRequested(e, w) =>
      if e in l.cancellationIDs { ServeAgrees(l, r, DecisionID(Cancellation, l.cancellationIDs[e]), OnCompletion); }
      else { LookUpAgrees(l, r, DecisionID(ChildWorkflow, w)); }
    case ExternalCancelFailed(e, w) =>
      if e in l.cancellationIDs { ServeAgrees(l, r, DecisionID(Cancellation, l.cancellationIDs[e]), OnCompletion); }
      else { ServeAgrees(l, r, DecisionID(ChildWorkflow, w), OnCancelFailed); }
    case SignalInitiated(e, g) =>
      var l', r' := l.(signalIDs := l.signalIDs[e := g]), r.(signalIDs := r.signalIDs[e := g]);
      RoutesAgree(l, r, l', r');
      ServeAgrees(l', r', DecisionID(Signal, g), OnInitiated);
    case SignalClosed(e) =>
      if e in l.signalIDs { ServeAgrees(l, r, DecisionID(Signal, l.signalIDs[e]), OnCompletion); }
    case GetDecisions => DrainAgrees(l, r);
  }

  /** The state of a machine; one that is gone has completed. */
  function StateOf(h: HelperState, id: DecisionID): State {
    var i := Find(h.ordered, id);
    if i < |h.ordered| then h.ordered[i].state else Completed
  }

  lemma StatesAgree(l: HelperState, r: HelperState, id: DecisionID)
    requires Agree(l, r) && !OneShot(id.kind)
    ensures StateOf(l, id) == StateOf(r, id)
  {
    FindStripped(l.ordered, id);
    FindStripped(r.ordered, id);
  }
}
