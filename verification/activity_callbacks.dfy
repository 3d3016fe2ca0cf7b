/**
 Callbacks over whole runs: any number of calls of every kind, with requests of the
 workflow, history events routed by event ID, and drains in any order. A panic ends the
 workflow, and with it the run.
 */
module ActivityCallbacks {
  import opened Common
  import opened DecisionMachine
  import opened DecisionMeaning
  import DS = DecisionsState
  import opened DecisionsState
  import opened DecisionsRuns
  import opened HelperAgreement
  import opened Calls

  // ---------------------------------------------------------------- one activity

  /** `sent` is whether the start decision went out, `fired` what the callback was told. */
  datatype Call = Call(state: State, wait: bool, sent: bool, fired: seq<Outcome>)

  /** The machine state tells whether the callback has fired, and the history tells with what. */
  ghost predicate CallInv(c: Call) {
    && |c.fired| <= 1
    && (c.wait ==> (c.fired != [] <==> Done(c.state)))
    && (!c.wait && Done(c.state) ==> c.fired != [])
    && (c.wait && c.fired != [] && c.sent ==> c.fired != [CanceledLocally])
    && (c.sent ==> !c.state.Created?)
    && (!c.sent ==> (c.state.Created? && c.fired == []) || (c.state.Completed? && c.fired == [CanceledLocally]))
  }

  /** What a reaction tells a callback. */
  function Told(r: Reaction, wait: bool, handled: bool, s: State): seq<Outcome> {
    if handled then []
    else
      match r
      case Settle(o) => [o]
      case SettleIfDone(o) => if Done(s) || !wait then [o] else []
      case TellFailed(o) => [o]
      case _ => []
  }

  /** The requests and events that reach an activity, and how its handler reacts. */
  predicate ActivityRule(t: Trigger, r: Reaction) {
    match t
    case OnCancel => r == SettleIfDone(CanceledLocally)
    case OnCompletion => r.Settle? && r.outcome.Closed?
    case OnCanceled => r.SettleIfDone? && r.outcome.CanceledByServer?
    case OnInitiated | OnCancelInitiated | OnCancelFailed => r.Silent?
    case _ => false
  }

  /** The same for every kind of call. */
  predicate Rule(k: Kind, t: Trigger, r: Reaction) {
    match k
    case Activity => ActivityRule(t, r)
    case Timer => if t.OnCancel? || t.OnCompletion? then r.Settle? else r.Silent? && !t.OnInitiationFailed?
    case ChildWorkflow =>
      if t.OnCompletion? || t.OnCanceled? then r.Settle?
      else if t.OnInitiationFailed? then r.TellFailed?
      else r.Silent? || r.TellStarted?
    case _ => if t.OnCompletion? then r.Settle? else r.Silent?
  }

  /** What has happened answers the call. */
  predicate AnsweredBy(k: Kind, wait: bool, trace: seq<DecisionMachine.Act>) {
    || Fire(OnCompletion) in trace
    || (k.Activity? && (Fire(OnCanceled) in trace ||
        (Fire(OnCancel) in trace && (!wait || Emit(Decision.Start) !in trace))))
    || (k.Timer? && Fire(OnCancel) in trace)
    || (k.ChildWorkflow? && (Fire(OnCanceled) in trace || Fire(OnInitiationFailed) in trace))
  }

  lemma FireKeepsCall(c: Call, t: Trigger, r: Reaction, s: State)
    requires CallInv(c) && !c.state.Completed? && ActivityRule(t, r) && Next(Activity, c.state, t) == Some(s)
    ensures CallInv(c.(state := s, fired := c.fired + Told(r, c.wait, c.fired != [], s)))
  {
    var told := Told(r, c.wait, c.fired != [], s);
    assert c.fired == [] ==> c.fired + told == told;
    match t
    case OnCancel =>
    case OnCompletion =>
    case OnCanceled =>
    case OnInitiated =>
    case OnCancelInitiated =>
    case OnCancelFailed =>
  }

  lemma EmitKeepsCall(c: Call, d: Decision, s: State)
    requires CallInv(c) && Does(Activity, c.state, Emit(d)) == Some(s)
    ensures CallInv(c.(state := s, sent := c.sent || d.Start?))
  {
  }

  // ---------------------------------------------------------------- runs

  /** A callback told something; machines are known by their serial numbers, since IDs are reused. */
  datatype Firing = Firing(serial: nat, outcome: Outcome)

  /** `waits` and `fired` are history: how each call was made, and what its callback was told. */
  datatype World = World(calls: Calls, waits: map<nat, bool>, fired: seq<Firing>)

  const START := World(NO_CALLS, map[], [])

  datatype Request =
    | MakeCall(id: DecisionID, wait: bool)
    | MakeRecord(id: DecisionID)
    | TakeBack(id: DecisionID)
    | Happens(event: HistoryEvent)
    | Send

  function Firings(h: HelperState, ns: seq<Notice>): seq<Firing> {
    if ns == [] then []
    else
      (if ns[0].Answered? && ns[0].id in h.index then [Firing(h.index[ns[0].id], ns[0].outcome)] else [])
      + Firings(h, ns[1..])
  }

  function Noted(w: World, r: (Calls, seq<Notice>)): World {
    w.(calls := r.0, fired := w.fired + Firings(w.calls.helper, r.1))
  }

  function Act(w: World, q: Request): Option<World> {
    match q
    case MakeCall(id, wait) =>
      var c :- if OneShot(id.kind) then None else Register(w.calls, id, wait);
      Some(w.(calls := c, waits := w.waits[|w.calls.helper.kinds| := wait]))
    case MakeRecord(id) =>
      var c :- if OneShot(id.kind) then Record(w.calls, id) else None;
      Some(w.(calls := c))
    case TakeBack(id) =>
      var r :- if OneShot(id.kind) then None else CancelCall(w.calls, id);
      Some(Noted(w, r))
    case Happens(ev) =>
      var r :- Receive(w.calls, ev);
      Some(Noted(w, r))
    case Send => Some(w.(calls := w.calls.(helper := Drain(w.calls.helper, 0))))
  }

  function Live(qs: seq<Request>): Option<World> {
    if qs == [] then Some(START)
    else
      var w :- Live(qs[..|qs| - 1]);
      Act(w, qs[|qs| - 1])
  }

  /** What the callback of machine `s` was told, in order. */
  function FiredBy(fired: seq<Firing>, s: nat): seq<Outcome> {
    if fired == [] then []
    else FiredBy(fired[..|fired| - 1], s) + if fired[|fired| - 1].serial == s then [fired[|fired| - 1].outcome] else []
  }

  lemma FiredStep(fired: seq<Firing>, f: Firing, s: nat)
    ensures FiredBy(fired + [f], s) == FiredBy(fired, s) + if f.serial == s then [f.outcome] else []
  {
    assert (fired + [f])[..|fired|] == fired;
  }

  lemma {:induction false} UnknownHasNotFired(fired: seq<Firing>, s: nat)
    requires forall i :: 0 <= i < |fired| ==> fired[i].serial < s
    ensures FiredBy(fired, s) == []
  {
    if fired != [] { UnknownHasNotFired(fired[..|fired| - 1], s); }
  }

  // ---------------------------------------------------------------- the invariant

  /** A live call has its data, and the data say whether its callback has fired. */
  ghost predicate DataOK(w: World) {
    forall m :: m in w.calls.helper.ordered && !OneShot(m.id.kind) ==>
      && m.id in w.calls.data && m.serial in w.waits
      && w.calls.data[m.id] == Data(w.waits[m.serial], FiredBy(w.fired, m.serial) != [])
  }

  ghost predicate Once(w: World) {
    && (forall s :: 0 <= s < |w.calls.helper.kinds| ==> |FiredBy(w.fired, s)| <= 1)
    && (forall i :: 0 <= i < |w.fired| ==> w.fired[i].serial < |w.calls.helper.kinds|)
  }

  ghost predicate ActivityOK(trace: seq<DecisionMachine.Act>, wait: bool, fired: seq<Outcome>) {
    Replay(Activity, trace).Some? ==>
        CallInv(Call(Replay(Activity, trace).value, wait, Emit(Decision.Start) in trace, fired))
  }

  ghost predicate CallOK(k: Kind, trace: seq<DecisionMachine.Act>, wait: bool, fired: seq<Outcome>) {
    (k.Activity? ==> ActivityOK(trace, wait, fired)) && (fired != [] <==> AnsweredBy(k, wait, trace))
  }

  ghost predicate CallsOK(w: World) {
    forall s :: 0 <= s < |w.calls.helper.kinds| && !OneShot(w.calls.helper.kinds[s]) ==>
      s in w.waits && CallOK(w.calls.helper.kinds[s], Trace(w.calls.helper.log, s), w.waits[s], FiredBy(w.fired, s))
  }

  ghost predicate WorldInv(w: World) { Inv(w.calls.helper) && DataOK(w) && Once(w) && CallsOK(w) }

  // ---------------------------------------------------------------- a call is served

  /** Machines that are still there were there before, under the same ID. */
  ghost predicate Persist(h: HelperState, h': HelperState) {
    && h'.kinds == h.kinds
    && forall m' :: m' in h'.ordered ==> exists m :: m in h.ordered && m.id == m'.id && m.serial == m'.serial
  }

  lemma PersistSparesKinds(h: HelperState, h': HelperState)
    requires Persist(h, h')
    ensures h'.kinds == h.kinds
  {
  }

  lemma TouchPersists(h: HelperState, i: nat)
    requires i < |h.ordered|
    ensures Persist(h, Touch(h, i))
  {
    WithoutMembers(h.ordered, i);
    forall m' | m' in Touch(h, i).ordered ensures exists m :: m in h.ordered && m.id == m'.id && m.serial == m'.serial {
      assert h.ordered[i] in h.ordered;
    }
  }

  lemma PersistChains(a: HelperState, b: HelperState, c: HelperState)
    requires Persist(a, b) && Persist(b, c)
    ensures Persist(a, c)
  {
    forall m'' | m'' in c.ordered ensures exists m :: m in a.ordered && m.id == m''.id && m.serial == m''.serial {
      var m' :| m' in b.ordered && m'.id == m''.id && m'.serial == m''.serial;
    }
  }

  lemma UpdatePersists(h: HelperState, h': HelperState, i: nat, m': MachineView)
    requires i < |h.ordered| && h'.ordered == h.ordered[i := m'] && h'.kinds == h.kinds
    requires m'.id == h.ordered[i].id && m'.serial == h.ordered[i].serial
    ensures Persist(h, h')
  {
    UpdateMembers(h.ordered, i, m');
    assert h.ordered[i] in h.ordered;
  }

  lemma MovePersists(h: HelperState, i: nat, s: State, a: DecisionMachine.Act)
    requires i < |h.ordered|
    ensures Persist(h, Move(h, i, s, a))
  {
    if s.Completed? { WithoutMembers(h.ordered, i); }
    else { UpdatePersists(h, Move(h, i, s, a), i, h.ordered[i].(state := s)); }
  }

  lemma DeliverPersists(h: HelperState, i: nat, t: Event)
    requires i < |h.ordered|
    ensures Persist(h, Deliver(h, i, t).0)
  {
    hide Persist;
    var h' := Flag(h, i, t);
    if h'.ordered != h.ordered {
      UpdatePersists(h, h', i, h.ordered[i].(canceled := true));
    } else {
      ItselfPersists(h);
    }
    match Next(h.ordered[i].id.kind, h.ordered[i].state, t) {
      case None =>
      case Some(s) =>
        MovePersists(h', i, s, Fire(t));
        PersistChains(h, h', Move(h', i, s, Fire(t)));
    }
  }

  lemma ItselfPersists(h: HelperState)
    ensures Persist(h, h)
  {
  }

  /** The log of a lookup with a delivery. */
  lemma ServeLog(h: HelperState, id: DecisionID, t: Event)
    requires Inv(h) && LookUpAndDeliver(h, id, t).1
    ensures id in h.index && h.index[id] < |h.kinds| && h.kinds[h.index[id]] == id.kind
    ensures var h' := LookUpAndDeliver(h, id, t).0;
            h'.log == h.log + [Touched(h.index[id])] + [Did(h.index[id], Fire(t))] && Persist(h, h')
    ensures var trace := Trace(h.log, h.index[id]);
            Replay(id.kind, trace).Some? && !Replay(id.kind, trace).value.Completed?
  {
    hide Deliver, Persist;
    var i := Find(h.ordered, id);
    var h1 := Touch(h, i);
    ServedOn(h, id, t, i, h1);
    assert Good(h, h.ordered[i]);
    TouchPersists(h, i);
    DeliverPersists(h1, |h1.ordered| - 1, t);
    PersistChains(h, h1, LookUpAndDeliver(h, id, t).0);
    assert h1.ordered[|h1.ordered| - 1].serial == h.index[id];
    DeliverLog(h1, |h1.ordered| - 1, t);
  }

  lemma DeliverLog(h: HelperState, i: nat, t: Event)
    requires i < |h.ordered| && Deliver(h, i, t).1
    ensures Deliver(h, i, t).0.log == h.log + [Did(h.ordered[i].serial, Fire(t))]
  {
  }

  /** A machine that persists has the serial number the index gave its ID. */
  lemma SameSerial(h: HelperState, h': HelperState, id: DecisionID, m': MachineView)
    requires Inv(h) && Persist(h, h') && id in h.index && m' in h'.ordered
    ensures m'.serial == h.index[id] <==> m'.id == id
  {
    var was :| was in h.ordered && was.id == id;
    var m :| m in h.ordered && m.id == m'.id && m.serial == m'.serial;
    assert Good(h, was);
    if m.serial == h.index[id] || m.id == id { SameMachine(h, m, was); }
  }

  /** The state of a machine is what its trace says, also when it is gone. */
  lemma StateIsReplayed(h: HelperState, h': HelperState, id: DecisionID)
    requires Inv(h) && Inv(h') && Persist(h, h') && id in h.index && h.index[id] < |h'.kinds|
    ensures Replay(h'.kinds[h.index[id]], Trace(h'.log, h.index[id])) == Some(StateOf(h', id))
  {
    hide Persist;
    var s, i := h.index[id], Find(h'.ordered, id);
    if i < |h'.ordered| {
      SameSerial(h, h', id, h'.ordered[i]);
      assert Good(h', h'.ordered[i]);
    } else {
      forall k | 0 <= k < |h'.ordered| ensures h'.ordered[k].serial != s { SameSerial(h, h', id, h'.ordered[k]); }
      assert Gone(h'.ordered, s);
    }
  }

  // ---------------------------------------------------------------- its callback reacts

  /** The firings of one reaction. */
  function FiringsOf(s: nat, told: seq<Outcome>): seq<Firing>
    requires |told| <= 1
  {
    if told == [] then [] else [Firing(s, told[0])]
  }

  lemma FiringsOfOne(h: HelperState, n: Notice)
    ensures Firings(h, [n]) == if n.Answered? && n.id in h.index then [Firing(h.index[n.id], n.outcome)] else []
  {
    assert [n][1..] == [];
  }

  lemma FiringsOfTwo(h: HelperState, a: Notice, n: Notice)
    requires !a.Answered?
    ensures Firings(h, [a, n]) == Firings(h, [n])
  {
    assert [a, n][1..] == [n];
  }

  lemma ReactFirings(c: Calls, id: DecisionID, r: Reaction, h: HelperState)
    requires id in c.data && id in h.index
    ensures var d := c.data[id];
            var told := Told(r, d.wait, d.handled, StateOf(c.helper, id));
            |told| <= 1 && Firings(h, React(c, id, r).1) == FiringsOf(h.index[id], told)
  {
    hide Firings, StateOf;
    var ns := React(c, id, r).1;
    assert Firings(h, []) == [] by { NoFirings(h); }
    if |ns| >= 1 { FiringsOfOne(h, ns[|ns| - 1]); }
    if |ns| == 2 { FiringsOfTwo(h, ns[0], ns[1]); }
  }

  lemma NoFirings(h: HelperState)
    ensures Firings(h, []) == []
  {
  }

  lemma ReactData(c: Calls, id: DecisionID, r: Reaction)
    requires id in c.data
    ensures var d, c' := c.data[id], React(c, id, r).0;
            var told := Told(r, d.wait, d.handled, StateOf(c.helper, id));
            && c'.helper == c.helper && c'.data.Keys == c.data.Keys
            && (forall x :: x in c.data ==>
                c'.data[x] == if x == id && told != [] then d.(handled := true) else c.data[x])
  {
    hide StateOf;
  }

  lemma FiredAfter(fired: seq<Firing>, s: nat, told: seq<Outcome>, x: nat)
    requires |told| <= 1
    ensures FiredBy(fired + FiringsOf(s, told), x) == FiredBy(fired, x) + if x == s then told else []
  {
    if told == [] {
      assert fired + [] == fired;
    } else {
      FiredStep(fired, Firing(s, told[0]), x);
      assert told == [told[0]];
    }
  }

  /** The world after a call was served; `told` is what its callback was told. */
  ghost predicate Served(w: World, w': World, id: DecisionID, t: Event, told: seq<Outcome>) {
    && Inv(w.calls.helper) && LookUpAndDeliver(w.calls.helper, id, t).1
    && w'.calls.helper == LookUpAndDeliver(w.calls.helper, id, t).0
    && id in w.calls.data && |told| <= 1 && id in w.calls.helper.index
    && w'.waits == w.waits && w'.fired == w.fired + FiringsOf(w.calls.helper.index[id], told)
    && w'.calls.data.Keys == w.calls.data.Keys
    && (forall x :: x in w.calls.data ==>
          w'.calls.data[x] == if x == id && told != [] then w.calls.data[id].(handled := true) else w.calls.data[x])
    && (w.calls.data[id].handled ==> told == [])
  }

  lemma ServedData(w: World, w': World, id: DecisionID, t: Event, told: seq<Outcome>)
    requires WorldInv(w) && Served(w, w', id, t, told) && !OneShot(id.kind)
    ensures DataOK(w')
  {
    var h, h' := w.calls.helper, w'.calls.helper;
    ServeLog(h, id, t);
    var was :| was in h.ordered && was.id == id;
    assert Good(h, was);
    forall m' | m' in h'.ordered && !OneShot(m'.id.kind)
      ensures m'.id in w'.calls.data && m'.serial in w'.waits
      ensures w'.calls.data[m'.id] == Data(w'.waits[m'.serial], FiredBy(w'.fired, m'.serial) != [])
    {
      var m :| m in h.ordered && m.id == m'.id && m.serial == m'.serial;
      FiredAfter(w.fired, h.index[id], told, m.serial);
      if m.id == id || m.serial == h.index[id] { SameMachine(h, m, was); }
    }
  }

  lemma ServedOnce(w: World, w': World, id: DecisionID, t: Event, told: seq<Outcome>)
    requires WorldInv(w) && Served(w, w', id, t, told) && !OneShot(id.kind)
    ensures Once(w')
  {
    hide LookUpAndDeliver, FiringsOf, CallsOK;
    ServeLog(w.calls.helper, id, t);
    forall s | 0 <= s < |w.calls.helper.kinds| ensures |FiredBy(w'.fired, s)| <= 1 {
      FiredAfter(w.fired, w.calls.helper.index[id], told, s);
      if s == w.calls.helper.index[id] { HandledIfFired(w, id); }
    }
    FiringsAre(w.calls.helper.index[id], told);
  }

  lemma FiringsAre(s: nat, told: seq<Outcome>)
    requires |told| <= 1
    ensures forall f :: f in FiringsOf(s, told) ==> f.serial == s
  {
  }

  lemma HandledIfFired(w: World, id: DecisionID)
    requires Inv(w.calls.helper) && DataOK(w) && id in w.calls.helper.index && !OneShot(id.kind)
    ensures id in w.calls.data && w.calls.helper.index[id] in w.waits
    ensures w.calls.data[id] == Data(w.waits[w.calls.helper.index[id]],
            FiredBy(w.fired, w.calls.helper.index[id]) != [])
  {
    var was :| was in w.calls.helper.ordered && was.id == id;
    assert Good(w.calls.helper, was);
  }

  lemma ServeTraces(h: HelperState, id: DecisionID, t: Event, x: nat)
    requires Inv(h) && LookUpAndDeliver(h, id, t).1
    ensures id in h.index
    ensures Trace(LookUpAndDeliver(h, id, t).0.log, x) == Trace(h.log, x) + if x == h.index[id] then [Fire(t)] else []
  {
    ServeLog(h, id, t);
    var s := h.index[id];
    LogStep(h.log, Touched(s), x);
    LogStep(h.log + [Touched(s)], Did(s, Fire(t)), x);
  }

  /** An activity that was served, seen on its trace. */
  lemma FireKeepsActivity(trace: seq<DecisionMachine.Act>, t: Event, wait: bool, fired: seq<Outcome>, r: Reaction,
      s: State)
    requires ActivityOK(trace, wait, fired) && Replay(Activity, trace).Some? &&
             !Replay(Activity, trace).value.Completed?
    requires ActivityRule(t, r) && Replay(Activity, trace + [Fire(t)]) == Some(s)
    ensures ActivityOK(trace + [Fire(t)], wait, fired + Told(r, wait, fired != [], s))
  {
    ReplayStep(Activity, trace, Fire(t));
    var c := Call(Replay(Activity, trace).value, wait, Emit(Decision.Start) in trace, fired);
    FireKeepsCall(c, t, r, s);
    assert Emit(Decision.Start) in trace + [Fire(t)] <==> Emit(Decision.Start) in trace;
  }

  lemma FireInTrace(trace: seq<DecisionMachine.Act>, t: Event)
    ensures forall x :: x in trace + [Fire(t)] <==> x in trace || x == Fire(t)
  {
  }

  lemma FireAnswers(k: Kind, trace: seq<DecisionMachine.Act>, t: Event, wait: bool, fired: seq<Outcome>, r: Reaction,
      s: State)
    requires !OneShot(k) && Replay(k, trace).Some? && !Replay(k, trace).value.Completed?
    requires fired != [] <==> AnsweredBy(k, wait, trace)
    requires Rule(k, t, r) && Replay(k, trace + [Fire(t)]) == Some(s)
    ensures fired + Told(r, wait, fired != [], s) != [] <==> AnsweredBy(k, wait, trace + [Fire(t)])
  {
    hide Replay;
    FireInTrace(trace, t);
    if k.Activity? && (t.OnCancel? || t.OnCanceled?) && fired == [] { DoneAfter(trace, t, s); }
  }

  /** A cancelled activity that has not been answered is done if it had not been sent, or when the server says so. */
  lemma DoneAfter(trace: seq<DecisionMachine.Act>, t: Event, s: State)
    requires Replay(Activity, trace).Some? && !Replay(Activity, trace).value.Completed?
    requires (t.OnCancel? || t.OnCanceled?) && Replay(Activity, trace + [Fire(t)]) == Some(s)
    requires Fire(OnCompletion) !in trace && Fire(OnCanceled) !in trace
    ensures Done(s) <==> t.OnCanceled? || Emit(Decision.Start) !in trace
  {
    hide Replay;
    ReplayStep(Activity, trace, Fire(t));
    StateIsWhatHappened(Activity, trace);
  }

  /** A call that was served, seen on its trace. */
  lemma FireKeepsCallOK(k: Kind, trace: seq<DecisionMachine.Act>, t: Event, wait: bool, fired: seq<Outcome>,
      r: Reaction, s: State)
    requires !OneShot(k) && CallOK(k, trace, wait, fired) && Replay(k, trace).Some? &&
             !Replay(k, trace).value.Completed?
    requires Rule(k, t, r) && Replay(k, trace + [Fire(t)]) == Some(s)
    ensures CallOK(k, trace + [Fire(t)], wait, fired + Told(r, wait, fired != [], s))
  {
    hide ActivityOK, AnsweredBy, Told;
    FireAnswers(k, trace, t, wait, fired, r, s);
    if k.Activity? { FireKeepsActivity(trace, t, wait, fired, r, s); }
  }

  ghost predicate Reacted(w: World, w': World, id: DecisionID, t: Event, r: Reaction, told: seq<Outcome>) {
    && Served(w, w', id, t, told) && !OneShot(id.kind) && Rule(id.kind, t, r)
    && told == Told(r, w.calls.data[id].wait, w.calls.data[id].handled, StateOf(w'.calls.helper, id))
  }

  lemma ServedCall(w: World, w': World, id: DecisionID, t: Event, r: Reaction, told: seq<Outcome>)
    requires WorldInv(w) && Inv(w'.calls.helper) && Reacted(w, w', id, t, r, told)
    ensures var s := w.calls.helper.index[id];
            s in w'.waits && CallOK(id.kind, Trace(w'.calls.helper.log, s), w'.waits[s], FiredBy(w'.fired, s))
  {
    hide LookUpAndDeliver, FiringsOf, Told, CallOK, Rule, Persist;
    var h, h' := w.calls.helper, w'.calls.helper;
    var s := h.index[id];
    ServeLog(h, id, t);
    PersistSparesKinds(h, h');
    HandledIfFired(w, id);
    ServeTraces(h, id, t, s);
    FiredAfter(w.fired, s, told, s);
    StateIsReplayed(h, h', id);
    FireKeepsCallOK(id.kind, Trace(h.log, s), t, w.waits[s], FiredBy(w.fired, s), r, StateOf(h', id));
  }

  lemma ServedCalls(w: World, w': World, id: DecisionID, t: Event, r: Reaction, told: seq<Outcome>)
    requires WorldInv(w) && Inv(w'.calls.helper) && Reacted(w, w', id, t, r, told)
    ensures CallsOK(w')
  {
    hide LookUpAndDeliver, FiringsOf, Told, CallOK, Rule, Persist, DataOK, Once;
    var h, h' := w.calls.helper, w'.calls.helper;
    ServeLog(h, id, t);
    PersistSparesKinds(h, h');
    ServedCall(w, w', id, t, r, told);
    forall x | 0 <= x < |h'.kinds| && !OneShot(h'.kinds[x]) && x != h.index[id]
      ensures Trace(h'.log, x) == Trace(h.log, x) && FiredBy(w'.fired, x) == FiredBy(w.fired, x)
    {
      ServeTraces(h, id, t, x);
      FiredAfter(w.fired, h.index[id], told, x);
    }
  }

  /** A lookup, a delivery and a reaction keep the invariant. */
  lemma ServeKeepsInv(w: World, id: DecisionID, t: Event, r: Reaction)
    requires WorldInv(w) && !OneShot(id.kind) && LookUpAndDeliver(w.calls.helper, id, t).1
    requires Rule(id.kind, t, r)
    ensures id in w.calls.data
    ensures var c := w.calls.(helper := LookUpAndDeliver(w.calls.helper, id, t).0); WorldInv(Noted(w, React(c, id, r)))
  {
    hide LookUpAndDeliver, React, Told, Firings, FiringsOf, StateOf, DataOK, Once, CallsOK;
    var h := w.calls.helper;
    ServeLog(h, id, t);
    HandledIfFired(w, id);
    var c := w.calls.(helper := LookUpAndDeliver(h, id, t).0);
    ReactFirings(c, id, r, h);
    ReactData(c, id, r);
    var w', told := Noted(w, React(c, id, r)), Told(r, c.data[id].wait, c.data[id].handled, StateOf(c.helper, id));
    LookUpAndDeliverKeepsInv(h, id, t);
    HandledIsToldNothing(r, c.data[id].wait, StateOf(c.helper, id));
    ServedData(w, w', id, t, told);
    ServedOnce(w, w', id, t, told);
    ServedCalls(w, w', id, t, r, told);
  }

  lemma HandledIsToldNothing(r: Reaction, wait: bool, s: State)
    ensures Told(r, wait, true, s) == []
  {
  }

  // ---------------------------------------------------------------- the other steps

  /** The same world with new routes. */
  lemma RoutesKeepInv(w: World, h: HelperState)
    requires WorldInv(w)
    requires h.ordered == w.calls.helper.ordered && h.index == w.calls.helper.index
    requires h.kinds == w.calls.helper.kinds && h.log == w.calls.helper.log
    ensures WorldInv(w.(calls := w.calls.(helper := h)))
  {
    RoutingKeepsInv(w.calls.helper, h);
  }

  lemma PersistKeepsData(w: World, h': HelperState)
    requires DataOK(w) && Persist(w.calls.helper, h')
    ensures DataOK(w.(calls := w.calls.(helper := h')))
  {
    forall m' | m' in h'.ordered && !OneShot(m'.id.kind)
      ensures m'.id in w.calls.data && m'.serial in w.waits
      ensures w.calls.data[m'.id] == Data(w.waits[m'.serial], FiredBy(w.fired, m'.serial) != [])
    {
      var m :| m in w.calls.helper.ordered && m.id == m'.id && m.serial == m'.serial;
    }
  }

  lemma TouchKeepsCalls(w: World, i: nat)
    requires CallsOK(w) && i < |w.calls.helper.ordered|
    ensures CallsOK(w.(calls := w.calls.(helper := Touch(w.calls.helper, i))))
  {
    hide CallOK;
    var h, h' := w.calls.helper, Touch(w.calls.helper, i);
    forall x | 0 <= x < |h.kinds| && !OneShot(h.kinds[x])
      ensures x in w.waits && CallOK(h.kinds[x], Trace(h'.log, x), w.waits[x], FiredBy(w.fired, x))
    {
      TouchTrace(h, i, x);
    }
  }

  lemma LookUpKeepsInv(w: World, id: DecisionID)
    requires WorldInv(w) && LookUp(w.calls.helper, id).1
    ensures WorldInv(w.(calls := w.calls.(helper := LookUp(w.calls.helper, id).0)))
  {
    hide DataOK, CallsOK, Inv, Persist, Touch;
    var h, i := w.calls.helper, Find(w.calls.helper.ordered, id);
    var h' := Touch(h, i);
    TouchKeepsInv(h, i);
    TouchPersists(h, i);
    PersistSparesKinds(h, h');
    PersistKeepsData(w, h');
    TouchKeepsCalls(w, i);
  }

  lemma TouchTrace(h: HelperState, i: nat, x: nat)
    requires i < |h.ordered|
    ensures Trace(Touch(h, i).log, x) == Trace(h.log, x)
  {
    LogStep(h.log, Touched(h.ordered[i].serial), x);
  }

  /** An emission answers nothing. */
  lemma EmitKeepsCallOK(k: Kind, trace: seq<DecisionMachine.Act>, d: Decision, wait: bool, fired: seq<Outcome>)
    requires CallOK(k, trace, wait, fired) && Replay(k, trace + [Emit(d)]).Some?
    ensures CallOK(k, trace + [Emit(d)], wait, fired)
  {
    ReplayStep(k, trace, Emit(d));
    assert forall x :: x in trace + [Emit(d)] <==> x in trace || x == Emit(d);
    if k.Activity? {
      StateIsWhatHappened(k, trace);
      EmitKeepsCall(Call(Replay(k, trace).value, wait, Emit(Decision.Start) in trace, fired), d,
          Replay(k, trace + [Emit(d)]).value);
    }
  }

  lemma {:induction false} EmissionsKeepCall(k: Kind, log: seq<Entry>, es: seq<Entry>, x: nat, wait: bool,
      fired: seq<Outcome>)
    requires forall i :: 0 <= i < |es| ==> es[i].Did? && es[i].act.Emit?
    requires Replay(k, Trace(log + es, x)).Some? && CallOK(k, Trace(log, x), wait, fired)
    ensures CallOK(k, Trace(log + es, x), wait, fired)
    decreases |es|
  {
    hide CallOK;
    if es == [] {
      assert log + es == log;
    } else {
      var n := |es| - 1;
      assert log + es == (log + es[..n]) + [es[n]];
      LogStep(log + es[..n], es[n], x);
      var before := Trace(log + es[..n], x);
      if es[n].serial == x {
        ReplayStep(k, before, es[n].act);
        EmissionsKeepCall(k, log, es[..n], x, wait, fired);
        EmitKeepsCallOK(k, before, es[n].act.decision, wait, fired);
      } else {
        EmissionsKeepCall(k, log, es[..n], x, wait, fired);
      }
    }
  }

  lemma {:induction false} EmissionsAreEmits(ms: seq<MachineView>)
    ensures forall i :: 0 <= i < |Emissions(ms)| ==> Emissions(ms)[i].Did? && Emissions(ms)[i].act.Emit?
  {
    if ms != [] { EmissionsAreEmits(ms[1..]); }
  }

  lemma {:induction false} RemainingPersist(ms: seq<MachineView>)
    ensures forall m' :: m' in Remaining(ms) ==> exists m :: m in ms && m.id == m'.id && m.serial == m'.serial
  {
    if ms != [] {
      RemainingPersist(ms[1..]);
      forall m' | m' in Remaining(ms) ensures exists m :: m in ms && m.id == m'.id && m.serial == m'.serial {
        if m' in KeptOf(ms[0]) {
          assert ms[0] in ms;
        } else {
          var m :| m in ms[1..] && m.id == m'.id && m.serial == m'.serial;
          assert m in ms;
        }
      }
    }
  }

  lemma {:induction false} DrainSparesKinds(h: HelperState, i: nat)
    requires i <= |h.ordered|
    ensures Drain(h, i).kinds == h.kinds
    decreases |h.ordered| - i
  {
    if i < |h.ordered| {
      var h' := DrainOne(h, i);
      DrainSparesKinds(h', if |h'.ordered| < |h.ordered| then i else i + 1);
    }
  }

  lemma DrainPersists(h: HelperState)
    ensures Persist(h, Drain(h, 0))
  {
    DrainIsListOrder(h);
    DrainSparesKinds(h, 0);
    RemainingPersist(h.ordered);
  }

  lemma DrainKeepsCalls(w: World, h': HelperState)
    requires WorldInv(w) && h' == Drain(w.calls.helper, 0)
    ensures CallsOK(w.(calls := w.calls.(helper := h')))
  {
    hide Drain, CallOK, DataOK, Once;
    var h := w.calls.helper;
    DrainKeepsInv(h, 0);
    DrainIsListOrder(h);
    DrainSparesKinds(h, 0);
    EmissionsAreEmits(h.ordered);
    forall x | 0 <= x < |h.kinds| && !OneShot(h.kinds[x])
      ensures x in w.waits && CallOK(h.kinds[x], Trace(h'.log, x), w.waits[x], FiredBy(w.fired, x))
    {
      TracesReplay(h', x);
      EmissionsKeepCall(h.kinds[x], h.log, Emissions(h.ordered), x, w.waits[x], FiredBy(w.fired, x));
    }
  }

  lemma SendKeepsInv(w: World)
    requires WorldInv(w)
    ensures WorldInv(w.(calls := w.calls.(helper := Drain(w.calls.helper, 0))))
  {
    hide Drain, CallsOK, DataOK;
    var h' := Drain(w.calls.helper, 0);
    DrainKeepsInv(w.calls.helper, 0);
    DrainPersists(w.calls.helper);
    PersistKeepsData(w, h');
    DrainKeepsCalls(w, h');
  }

  lemma TracesReplay(h: HelperState, s: nat)
    requires Inv(h) && s < |h.kinds|
    ensures Replay(h.kinds[s], Trace(h.log, s)).Some?
  {
    if !Gone(h.ordered, s) {
      var m :| m in h.ordered && m.serial == s;
      assert Good(h, m);
    }
  }

  /** A new machine, with its data unless it is one-shot. */
  ghost predicate Grown(w: World, w': World, id: DecisionID) {
    var n := |w.calls.helper.kinds|;
    && id !in w.calls.helper.index && w'.calls.helper == AddMachine(w.calls.helper, id).0 && w'.fired == w.fired
    && (forall x :: x in w.calls.data && x != id ==> x in w'.calls.data && w'.calls.data[x] == w.calls.data[x])
    && (forall s :: s in w.waits && s != n ==> s in w'.waits && w'.waits[s] == w.waits[s])
    && (!OneShot(id.kind) ==> id in w'.calls.data && n in w'.waits && w'.calls.data[id] == Data(w'.waits[n], false))
  }

  lemma GrownData(w: World, w': World, id: DecisionID)
    requires WorldInv(w) && Grown(w, w', id)
    ensures DataOK(w')
  {
    hide CallsOK;
    var h, h' := w.calls.helper, w'.calls.helper;
    UnknownHasNotFired(w.fired, |h.kinds|);
    forall m | m in h'.ordered && !OneShot(m.id.kind)
      ensures m.id in w'.calls.data && m.serial in w'.waits
      ensures w'.calls.data[m.id] == Data(w'.waits[m.serial], FiredBy(w'.fired, m.serial) != [])
    {
      if m in h.ordered { assert Good(h, m); }
    }
  }

  lemma GrownCall(w: World, w': World, id: DecisionID, x: nat)
    requires WorldInv(w) && Grown(w, w', id) && x < |w'.calls.helper.kinds| && !OneShot(w'.calls.helper.kinds[x])
    ensures x in w'.waits && CallOK(w'.calls.helper.kinds[x], Trace(w'.calls.helper.log, x), w'.waits[x],
            FiredBy(w'.fired, x))
  {
    hide CallOK, Inv, DataOK;
    var h, n := w.calls.helper, |w.calls.helper.kinds|;
    LogStep(h.log, Added(n), x);
    if x == n {
      UnknownHasNotFired(w.fired, n);
      LogIsKnown(h);
      UnknownHasNoTrace(h.log, n);
      NewCallOK(id.kind, w'.waits[n]);
    }
  }

  lemma LogIsKnown(h: HelperState)
    requires Inv(h)
    ensures LogKnown(h)
  {
  }

  lemma GrownCalls(w: World, w': World, id: DecisionID)
    requires WorldInv(w) && Grown(w, w', id)
    ensures CallsOK(w')
  {
    hide CallOK, Grown, WorldInv;
    forall x | 0 <= x < |w'.calls.helper.kinds| && !OneShot(w'.calls.helper.kinds[x])
      ensures x in w'.waits && CallOK(w'.calls.helper.kinds[x], Trace(w'.calls.helper.log, x), w'.waits[x],
              FiredBy(w'.fired, x))
    {
      GrownCall(w, w', id, x);
    }
  }

  lemma GrownOnce(w: World, w': World, id: DecisionID)
    requires Once(w) && Grown(w, w', id)
    ensures Once(w')
  {
    UnknownHasNotFired(w.fired, |w.calls.helper.kinds|);
  }

  lemma GrownKeepsInv(w: World, w': World, id: DecisionID)
    requires WorldInv(w) && Grown(w, w', id)
    ensures WorldInv(w')
  {
    hide CallsOK, DataOK, Once, Inv;
    AddKeepsInv(w.calls.helper, id);
    GrownOnce(w, w', id);
    GrownData(w, w', id);
    GrownCalls(w, w', id);
  }

  lemma NewCallOK(k: Kind, wait: bool)
    ensures CallOK(k, [], wait, [])
  {
  }

  // ---------------------------------------------------------------- events

  /** The machine an event is delivered to, after its route was recorded, and the reaction of its handler. */
  datatype Delivery = Delivery(helper: HelperState, id: DecisionID, trigger: Event, reaction: Reaction)

  function Routed(h: HelperState, ev: HistoryEvent): Option<Delivery> {
    match ev
    case ActivityTaskScheduled(e, a) =>
      Some(Delivery(h.(activityIDs := h.activityIDs[e := a]), DecisionID(Activity, a), OnInitiated, Silent))
    case ActivityTaskClosed(e, v) =>
      if e in h.activityIDs
      then Some(Delivery(h, DecisionID(Activity, h.activityIDs[e]), OnCompletion, Settle(Closed(v)))) else None
    case ActivityTaskCanceled(e, v) =>
      if e in h.activityIDs
      then Some(Delivery(h, DecisionID(Activity, h.activityIDs[e]), OnCanceled, SettleIfDone(CanceledByServer(v))))
          else None
    case ActivityTaskCancelRequested(a) => Some(Delivery(h, DecisionID(Activity, a), OnCancelInitiated, Silent))
    case RequestCancelActivityTaskFailed(a) => Some(Delivery(h, DecisionID(Activity, a), OnCancelFailed, Silent))
    case CancelExternalInitiated(e, w, x) =>
      if x == "" then Some(Delivery(h, DecisionID(ChildWorkflow, w), OnCancelInitiated, Silent))
      else Some(Delivery(h.(cancellationIDs := h.cancellationIDs[e := x]), DecisionID(Cancellation, x), OnInitiated,
          Silent))
    case CancelExternalRequested(e, _) =>
      if e in h.cancellationIDs
      then Some(Delivery(h, DecisionID(Cancellation, h.cancellationIDs[e]), OnCompletion, Settle(Closed("")))) else None
    case CancelExternalFailed(e, w, v) =>
      if e in h.cancellationIDs
      then Some(Delivery(h, DecisionID(Cancellation, h.cancellationIDs[e]), OnCompletion, Settle(Closed(v))))
      else Some(Delivery(h, DecisionID(ChildWorkflow, w), OnCancelFailed, Silent))
    case SignalExternalInitiated(e, g) =>
      Some(Delivery(h.(signalIDs := h.signalIDs[e := g]), DecisionID(Signal, g), OnInitiated, Silent))
    case SignalExternalClosed(e, v) =>
      if e in h.signalIDs
      then Some(Delivery(h, DecisionID(Signal, h.signalIDs[e]), OnCompletion, Settle(Closed(v)))) else None
    case TimerStarted(_) | TimerFired(_) | TimerCanceled(_) | CancelTimerFailed(_) => Some(Plainly(h, ev))
    case StartChildInitiated(_) | StartChildFailed(_) | ChildStarted(_, _) | ChildClosed(_, _) | ChildCanceled(_, _) =>
      Some(Plainly(h, ev))
    case WorkflowSignaled(_, _) => None
    case WorkflowCancelRequested => None
  }

  /** Events of timers and children name their machine. */
  function Plainly(h: HelperState, ev: HistoryEvent): Delivery
    requires !ForWorkflow(ev) && HelperOp(ev).Handle?
  {
    var about := About(h, ev);
    Delivery(h, HelperOp(ev).id, HelperOp(ev).event, if about.Some? then about.value.1 else Silent)
  }

  ghost predicate SameButRoutes(h: HelperState, h': HelperState) {
    h'.ordered == h.ordered && h'.index == h.index && h'.kinds == h.kinds && h'.log == h.log
  }

  lemma RoutedIs(h: HelperState, ev: HistoryEvent)
    requires !ForWorkflow(ev) && Routed(h, ev).Some?
    ensures var d := Routed(h, ev).value;
            && Step(h, HelperOp(ev)) == LookUpAndDeliver(d.helper, d.id, d.trigger)
            && !OneShot(d.id.kind) && SameButRoutes(h, d.helper)
            && Rule(d.id.kind, d.trigger, d.reaction)
            && (if About(h, ev).Some? then About(h, ev).value == (d.id, d.reaction) else d.reaction.Silent?)
  {
  }

  /** The only event that looks a machine up and delivers nothing. */
  lemma UnroutedIs(h: HelperState, ev: HistoryEvent)
    requires !ForWorkflow(ev) && Routed(h, ev).None? && Step(h, HelperOp(ev)).1
    ensures ev.CancelExternalRequested? && Step(h, HelperOp(ev)) == LookUp(h, DecisionID(ChildWorkflow, ev.workflowID))
    ensures About(h, ev).None?
  {
  }

  lemma {:induction false} FiringsByIndex(h: HelperState, h': HelperState, ns: seq<Notice>)
    requires h.index == h'.index
    ensures Firings(h, ns) == Firings(h', ns)
  {
    if ns != [] { FiringsByIndex(h, h', ns[1..]); }
  }

  /** A delivery with its reaction, from the world before the route was recorded. */
  lemma DeliveryKeepsInv(w: World, d: Delivery, about: Option<(DecisionID, Reaction)>)
    requires WorldInv(w) && SameButRoutes(w.calls.helper, d.helper) && !OneShot(d.id.kind)
    requires Rule(d.id.kind, d.trigger, d.reaction)
    requires if about.Some? then about.value == (d.id, d.reaction) else d.reaction.Silent?
    requires var s := LookUpAndDeliver(d.helper, d.id, d.trigger); Follow(w.calls.(helper := s.0), s.1, about).Some?
    ensures var s := LookUpAndDeliver(d.helper, d.id, d.trigger);
            WorldInv(Noted(w, Follow(w.calls.(helper := s.0), s.1, about).value))
  {
    hide LookUpAndDeliver, WorldInv;
    var s, w1 := LookUpAndDeliver(d.helper, d.id, d.trigger), w.(calls := w.calls.(helper := d.helper));
    var c := w.calls.(helper := s.0);
    RoutesKeepInv(w, d.helper);
    ServeKeepsInv(w1, d.id, d.trigger, d.reaction);
    assert c == w1.calls.(helper := s.0);
    assert Follow(c, s.1, about).value == React(c, d.id, d.reaction);
    FiringsByIndex(w.calls.helper, d.helper, React(c, d.id, d.reaction).1);
    assert Noted(w, React(c, d.id, d.reaction)) == Noted(w1, React(c, d.id, d.reaction));
  }

  lemma EventKeepsInv(w: World, ev: HistoryEvent)
    requires WorldInv(w) && Receive(w.calls, ev).Some?
    ensures WorldInv(Noted(w, Receive(w.calls, ev).value))
  {
    hide WorldInv, LookUpAndDeliver, Step, LookUp;
    var h := w.calls.helper;
    if ForWorkflow(ev) {
      var ns := Receive(w.calls, ev).value.1;
      assert ns[1..] == [] && Firings(h, ns) == [] && w.fired + [] == w.fired;
    } else if Routed(h, ev).Some? {
      RoutedIs(h, ev);
      DeliveryKeepsInv(w, Routed(h, ev).value, About(h, ev));
    } else {
      UnroutedIs(h, ev);
      LookUpKeepsInv(w, DecisionID(ChildWorkflow, ev.workflowID));
      assert Noted(w, Receive(w.calls, ev).value) == w.(calls := w.calls.(helper := Step(h, HelperOp(ev)).0));
    }
  }

  lemma TakeBackKeepsInv(w: World, id: DecisionID)
    requires WorldInv(w) && !OneShot(id.kind) && CancelCall(w.calls, id).Some?
    ensures WorldInv(Noted(w, CancelCall(w.calls, id).value))
  {
    hide WorldInv, LookUpAndDeliver;
    var r := CancelReaction(id.kind);
    var about := if id.kind.ChildWorkflow? then None else Some((id, r));
    var d := Delivery(w.calls.helper, id, OnCancel, r);
    assert Step(w.calls.helper, Handle(id, OnCancel)) == LookUpAndDeliver(d.helper, d.id, d.trigger);
    DeliveryKeepsInv(w, d, about);
  }

  lemma ActKeepsInv(w: World, q: Request)
    requires WorldInv(w) && Act(w, q).Some?
    ensures WorldInv(Act(w, q).value)
  {
    hide WorldInv;
    match q
    case MakeCall(id, wait) => GrownKeepsInv(w, Act(w, q).value, id);
    case MakeRecord(id) => GrownKeepsInv(w, Act(w, q).value, id);
    case TakeBack(id) => TakeBackKeepsInv(w, id);
    case Happens(ev) => EventKeepsInv(w, ev);
    case Send => SendKeepsInv(w);
  }

  lemma {:induction false} LiveKeepsInv(qs: seq<Request>)
    requires Live(qs).Some?
    ensures WorldInv(Live(qs).value)
  {
    if qs != [] {
      LiveKeepsInv(qs[..|qs| - 1]);
      ActKeepsInv(Live(qs[..|qs| - 1]).value, qs[|qs| - 1]);
    }
  }

  // ---------------------------------------------------------------- main results

  /** In every run, no call has its callback fired twice. */
  lemma CallbacksFireOnce(qs: seq<Request>, s: nat)
    requires Live(qs).Some? && s < |Live(qs).value.calls.helper.kinds|
    ensures |FiredBy(Live(qs).value.fired, s)| <= 1
  {
    LiveKeepsInv(qs);
  }

  /**
   For every activity there ever was: one that waits for cancellation has its callback fired exactly
   when its machine is done, any other at the latest then; before the start decision went out only
   a local cancellation can have fired it, and after that a waiting activity is never told so.
   */
  lemma ActivityCallbackFollowsMachine(qs: seq<Request>, s: nat)
    requires Live(qs).Some? && s < |Live(qs).value.calls.helper.kinds| && Live(qs).value.calls.helper.kinds[s].Activity?
    ensures var w := Live(qs).value;
            var trace, fired := Trace(w.calls.helper.log, s), FiredBy(w.fired, s);
            && s in w.waits && Replay(Activity, trace).Some?
            && var done := Done(Replay(Activity, trace).value);
               && (if w.waits[s] then fired != [] <==> done else done ==> fired != [])
               && (fired != [] && Emit(Decision.Start) !in trace ==> fired == [CanceledLocally])
               && (fired != [] && Emit(Decision.Start) in trace && w.waits[s] ==> fired != [CanceledLocally])
  {
    LiveKeepsInv(qs);
    TracesReplay(Live(qs).value.calls.helper, s);
  }

  /**
   For every call of any kind there ever was: its callback has fired exactly when something that answers it
   has happened, be it an event or, for an activity or a timer, a cancellation.
   */
  lemma CallbackFiresExactly(qs: seq<Request>, s: nat)
    requires Live(qs).Some? && s < |Live(qs).value.calls.helper.kinds| && !OneShot(Live(qs).value.calls.helper.kinds[s])
    ensures var w := Live(qs).value;
            && s in w.waits
            && (FiredBy(w.fired, s) != [] <==>
                  AnsweredBy(w.calls.helper.kinds[s], w.waits[s], Trace(w.calls.helper.log, s)))
  {
    LiveKeepsInv(qs);
  }
}
