/**
 Selectors over channels and futures, and every interleaving of their calls.

 A Select registers one callback per case, commits to the first case that is ready or whose
 callback accepts, runs that case's function and only then takes its callbacks off the queues.
 Other coroutines run between any two of these steps.
 */
module Selectors {
  import opened Common
  import opened Channels

  datatype SelCase = RecvCase(ch: nat) | SendCase(ch: nat, value: Value) | FutureCase(ch: nat, spent: bool)

  datatype Phase = Blocked | Running(branch: nat) | Returned(branch: nat)

  /** One call of Select; its token is its position in the list of calls. */
  datatype Call = Call(selector: nat, phase: Phase)

  /** A case function that was run. */
  datatype Ran = Ran(token: nat, selector: nat, branch: nat)

  /** The selectors with their cases, the calls made so far, and the next token of a plain call. */
  datatype Desk = Desk(selectors: seq<seq<SelCase>>, calls: seq<Call>, next: nat)

  /** `futures` are the channels that belong to futures: they carry no values and are only ever closed. */
  datatype World = World(chans: seq<Chan>, futures: set<nat>, reg: Registry, desk: Desk, ran: seq<Ran>)

  datatype Op =
    | Send(c: nat, v: Value)
    | SendAsync(c: nat, v: Value)
    | Receive(c: nat)
    | ReceiveAsync(c: nat)
    | PeekSignals(c: nat)
    | GetFuture(c: nat)
    | SetFuture(c: nat)
    | Select(selector: nat)
    | Resume(token: nat)
    | Return(token: nat)

  function SetChan(w: World, c: nat, ch: Chan, reg: Registry): World
    requires c < |w.chans|
  {
    w.(chans := w.chans[c := ch], reg := reg)
  }

  predicate CasesInRange(cases: seq<SelCase>, n: nat) { forall i :: 0 <= i < |cases| ==> cases[i].ch < n }

  predicate InRange(d: Desk, n: nat) {
    && (forall s :: 0 <= s < |d.selectors| ==> CasesInRange(d.selectors[s], n))
    && (forall t :: 0 <= t < |d.calls| ==> d.calls[t].selector < |d.selectors|)
  }

  predicate Ready(w: World) { InRange(w.desk, |w.chans|) }

  predicate Known(d: Desk, t: nat) { t < |d.calls| && d.calls[t].selector < |d.selectors| }

  function CasesOf(d: Desk, t: nat): seq<SelCase>
    requires Known(d, t)
  {
    d.selectors[d.calls[t].selector]
  }

  function Spend(k: SelCase): SelCase { if k.FutureCase? then k.(spent := true) else k }

  function SetPhase(d: Desk, t: nat, phase: Phase): Desk
    requires t < |d.calls|
  {
    d.(calls := d.calls[t := d.calls[t].(phase := phase)])
  }

  function SpendCase(d: Desk, t: nat, i: nat): Desk
    requires Known(d, t) && i < |CasesOf(d, t)|
  {
    var s := d.calls[t].selector;
    d.(selectors := d.selectors[s := d.selectors[s][i := Spend(d.selectors[s][i])]])
  }

  /** A call goes on to run a case function. */
  function RunCase(w: World, t: nat, i: nat): World
    requires Known(w.desk, t) && i < |CasesOf(w.desk, t)|
  {
    w.(desk := SetPhase(SpendCase(w.desk, t, i), t, Running(i)),
       ran := w.ran + [Ran(t, w.desk.calls[t].selector, i)])
  }

  /** The case is ready at registration: nothing may be accepted for this call any more. */
  function CommitNow(w: World, t: nat, i: nat): World
    requires Ready(w) && t < |w.desk.calls| && i < |CasesOf(w.desk, t)|
  {
    RunCase(w.(reg := Fire(w.reg, Case(t, i, CasesOf(w.desk, t)[i].ch), None)), t, i)
  }

  /** Try a case, leaving a callback behind if it is not ready. */
  function TryCase(w: World, t: nat, i: nat): World
    requires Ready(w) && t < |w.desk.calls| && i < |CasesOf(w.desk, t)|
  {
    var k := CasesOf(w.desk, t)[i];
    var o := Case(t, i, k.ch);
    match k
    case RecvCase(c) =>
      var r := ReceiveImpl(w.chans[c], w.reg, Some(o));
      if r.value.Some? then CommitNow(SetChan(w, c, Prefetch(r.ch, r.value.value), r.reg), t, i)
      else SetChan(w, c, r.ch, r.reg)
    case SendCase(c, v) =>
      var r := SendImpl(w.chans[c], w.reg, v, Some(o));
      if r.ok then CommitNow(SetChan(w, c, r.ch, r.reg), t, i) else SetChan(w, c, r.ch, r.reg)
    case FutureCase(c, spent) =>
      if spent then w
      else
        var r := ReceiveImpl(w.chans[c], w.reg, Some(o));
        if !r.more then CommitNow(SetChan(w, c, r.ch, r.reg), t, i) else SetChan(w, c, r.ch, r.reg)
  }

  function TryCases(w: World, t: nat, i: nat): World
    requires Ready(w) && t < |w.desk.calls| && i <= |CasesOf(w.desk, t)|
    decreases |CasesOf(w.desk, t)| - i
  {
    if i == |CasesOf(w.desk, t)| then w
    else
      var w' := TryCase(w, t, i);
      if w'.desk.calls[t].phase.Blocked? then TryCases(w', t, i + 1) else w'
  }

  /** Take the callbacks of cases `i..` off their channels. */
  function Cleanup(w: World, t: nat, i: nat): (r: World)
    requires Ready(w) && t < |w.desk.calls| && i <= |CasesOf(w.desk, t)|
    ensures r == w.(chans := r.chans) && |r.chans| == |w.chans|
    decreases |CasesOf(w.desk, t)| - i
  {
    if i == |CasesOf(w.desk, t)| then w
    else
      var c := CasesOf(w.desk, t)[i].ch;
      Cleanup(SetChan(w, c, Withdraw(w.chans[c], Case(t, i, c)), w.reg), t, i + 1)
  }

  function ResumeCall(w: World, t: nat): World
    requires Ready(w) && t < |w.desk.calls| && SelectCall(t) in w.reg.fired
  {
    var f := w.reg.fired[SelectCall(t)];
    if f.owner.Plain? || f.owner.branch >= |CasesOf(w.desk, t)| then w
    else
      var k := CasesOf(w.desk, t)[f.owner.branch];
      var w' :=
        if k.RecvCase? && f.value.Some? then SetChan(w, k.ch, Land(w.chans[k.ch], t, f.value.value), w.reg) else w;
      RunCase(w', t, f.owner.branch)
  }

  predicate Enabled(w: World, op: Op) {
    && Ready(w)
    && match op
       case Send(c, _) => c < |w.chans| && c !in w.futures
       case SendAsync(c, _) => c < |w.chans| && c !in w.futures
       case Receive(c) => c < |w.chans| && c !in w.futures
       case ReceiveAsync(c) => c < |w.chans| && c !in w.futures
       case PeekSignals(c) => c < |w.chans| && c !in w.futures
       case GetFuture(c) => c < |w.chans| && c in w.futures
       case SetFuture(c) => c < |w.chans| && c in w.futures && !w.chans[c].closed
       case Select(s) =>
         && s < |w.desk.selectors|
         && forall t :: 0 <= t < |w.desk.calls| && w.desk.calls[t].selector == s ==> w.desk.calls[t].phase.Returned?
       case Resume(t) => t < |w.desk.calls| && w.desk.calls[t].phase.Blocked? && SelectCall(t) in w.reg.fired
       case Return(t) => t < |w.desk.calls| && w.desk.calls[t].phase.Running?
  }

  function Bump(w: World): World { w.(desk := w.desk.(next := w.desk.next + 1)) }

  function AddCall(w: World, s: nat): World { w.(desk := w.desk.(calls := w.desk.calls + [Call(s, Blocked)])) }

  /** A receive with or without a callback; what it takes goes to the caller. */
  function ReceiveBy(w: World, c: nat, callback: Option<Owner>): World
    requires c < |w.chans|
  {
    var r := ReceiveImpl(w.chans[c], w.reg, callback);
    SetChan(w, c, if r.value.Some? then HandOver(r.ch, r.value.value) else r.ch, r.reg)
  }

  function SendBy(w: World, c: nat, v: Value, callback: Option<Owner>): World
    requires c < |w.chans|
  {
    var r := SendImpl(w.chans[c], w.reg, v, callback);
    SetChan(w, c, r.ch, r.reg)
  }

  /** Looking for unhandled signals takes a value and puts it into the prefetch slot. */
  function PeekAt(w: World, c: nat): World
    requires c < |w.chans|
  {
    var r := ReceiveImpl(w.chans[c], w.reg, None);
    SetChan(w, c, if r.value.Some? then Prefetch(r.ch, r.value.value) else r.ch, r.reg)
  }

  function Step(w: World, op: Op): World
    requires Enabled(w, op)
  {
    match op
    case Send(c, v) => SendBy(Bump(w), c, v, Some(Plain(w.desk.next, c)))
    case SendAsync(c, v) => SendBy(w, c, v, None)
    case Receive(c) => ReceiveBy(Bump(w), c, Some(Plain(w.desk.next, c)))
    case ReceiveAsync(c) => ReceiveBy(w, c, None)
    case PeekSignals(c) => PeekAt(w, c)
    case GetFuture(c) => ReceiveBy(Bump(w), c, Some(Plain(w.desk.next, c)))
    case SetFuture(c) => SetChan(w, c, w.chans[c].(closed := true), FireAll(w.reg, w.chans[c].receives))
    case Select(s) => TryCases(AddCall(w, s), |w.desk.calls|, 0)
    case Resume(t) => ResumeCall(w, t)
    case Return(t) =>
      Cleanup(w, t, 0).(desk := SetPhase(w.desk, t, Returned(w.desk.calls[t].phase.branch)))
  }

  /** A run: operations that are not enabled are passed over. */
  function Run(w: World, ops: seq<Op>): World
    decreases |ops|
  {
    if ops == [] then w
    else
      var w' := Run(w, ops[..|ops| - 1]);
      var op := ops[|ops| - 1];
      if Enabled(w', op) then Step(w', op) else w'
  }
}
