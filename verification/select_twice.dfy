/**
 Exactly when a Select commits twice. One case does if the callback it wakes up is its own
 call's; and there are runs in which that happens if and only if some selector both sends
 to and receives from one channel.
 */
module SelectTwice {
  import opened Common
  import opened Channels
  import opened ChannelLedger
  import opened Selectors
  import opened SelectInvariant
  import opened SelectRuns
  import opened ChannelTheorems
  import opened ChannelOrder

  // ---------------------------------------------------------------- one case

  predicate OwnSenderFirst(ch: Chan, reg: Registry, t: nat) {
    var j := FirstAccepting(Owners(ch.sends), reg);
    j < |ch.sends| && KeyOf(ch.sends[j].owner) == SelectCall(t)
  }

  predicate OwnReceiverFirst(ch: Chan, reg: Registry, t: nat) {
    var j := FirstAccepting(ch.receives, reg);
    j < |ch.receives| && KeyOf(ch.receives[j]) == SelectCall(t)
  }

  /** The first callback that case `i` would wake up on its channel belongs to the same call. */
  predicate MeetsItself(w: World, t: nat, i: nat)
    requires Ready(w) && t < |w.desk.calls| && i < |CasesOf(w.desk, t)|
  {
    var k := CasesOf(w.desk, t)[i];
    assert CasesInRange(CasesOf(w.desk, t), |w.chans|);
    var ch := w.chans[k.ch];
    match k
    case RecvCase(_) => ch.recValue.None? && (ch.buffer != [] || !ch.closed) && OwnSenderFirst(ch, w.reg, t)
    case SendCase(_, _) => OwnReceiverFirst(ch, w.reg, t)
    case FutureCase(_, _) => false
  }

  /** The call whose sender a receive wakes up. */
  function Wakes(ch: Chan, reg: Registry): seq<Key> {
    var j := FirstAccepting(Owners(ch.sends), reg);
    if ch.recValue.None? && (ch.buffer != [] || !ch.closed) && j < |ch.sends| then [KeyOf(ch.sends[j].owner)] else []
  }

  lemma ReceiveWakes(ch: Chan, reg: Registry, callback: Option<Owner>)
    ensures ReceiveImpl(ch, reg, callback).reg.order == reg.order + Wakes(ch, reg)
    ensures Wakes(ch, reg) != [] ==> ReceiveImpl(ch, reg, callback).value.Some?
  {
  }

  lemma TryReceiveOrder(w: World, t: nat, i: nat)
    requires Ready(w) && t < |w.desk.calls| && i < |CasesOf(w.desk, t)| && CasesOf(w.desk, t)[i].RecvCase?
    ensures var c := CasesOf(w.desk, t)[i].ch;
            && c < |w.chans|
            && var r := ReceiveImpl(w.chans[c], w.reg, Some(Case(t, i, c)));
               TryCase(w, t, i).reg.order == r.reg.order + if r.value.Some? then [SelectCall(t)] else []
  {
    assert CasesInRange(CasesOf(w.desk, t), |w.chans|);
  }

  /** A call that tries a case commits twice exactly if the case meets the call itself. */
  lemma CommitsTwiceExactly(w: World, t: nat, i: nat)
    requires Ready(w) && t < |w.desk.calls| && i < |CasesOf(w.desk, t)|
    ensures TryCase(w, t, i).reg.order == w.reg.order + [SelectCall(t), SelectCall(t)] <==> MeetsItself(w, t, i)
  {
    var k := CasesOf(w.desk, t)[i];
    assert CasesInRange(CasesOf(w.desk, t), |w.chans|);
    var ch, two := w.chans[k.ch], [SelectCall(t), SelectCall(t)];
    var order := TryCase(w, t, i).reg.order;
    match k {
      case RecvCase(c) =>
        ReceiveWakes(ch, w.reg, Some(Case(t, i, c)));
        TryReceiveOrder(w, t, i);
        var woken := Wakes(ch, w.reg);
        var ready := ReceiveImpl(ch, w.reg, Some(Case(t, i, c))).value.Some?;
        assert order == w.reg.order + woken + if ready then [SelectCall(t)] else [];
        TwiceIs(w.reg.order, woken, order, SelectCall(t));
      case SendCase(c, v) =>
        var j := FirstAccepting(ch.receives, w.reg);
        var woken := if j < |ch.receives| then [KeyOf(ch.receives[j])] else [];
        var ready := SendImpl(ch, w.reg, v, Some(Case(t, i, c))).ok;
        assert order == w.reg.order + woken + if ready then [SelectCall(t)] else [];
        TwiceIs(w.reg.order, woken, order, SelectCall(t));
      case FutureCase(c, _) =>
        ReceiveWakes(ch, w.reg, Some(Case(t, i, c)));
        assert |order| <= |w.reg.order| + 1;
    }
  }

  lemma TwiceIs(order: seq<Key>, woken: seq<Key>, order': seq<Key>, key: Key)
    requires |woken| <= 1 && (order' == order + woken + [key] || (woken == [] && order' == order + woken + []))
    ensures order' == order + [key, key] <==> woken == [key]
  {
    if order' == order + [key, key] {
      assert |woken| == 1 && order'[|order|] == woken[0];
    }
    if woken == [key] { assert order + woken + [key] == order + [key, key]; }
  }

  // ---------------------------------------------------------------- selectors

  /** No channel is both sent to and received from in the first `k` cases. */
  ghost predicate OneSidedTo(cases: seq<SelCase>, k: nat)
    requires k <= |cases|
  {
    forall i, j :: 0 <= i < k && 0 <= j < k && cases[i].RecvCase? && cases[j].SendCase? ==> cases[i].ch != cases[j].ch
  }

  ghost predicate OneSided(cases: seq<SelCase>) { OneSidedTo(cases, |cases|) }

  /** Future cases are the cases on the channels of futures. */
  ghost predicate Typed(futures: set<nat>, cases: seq<SelCase>) {
    forall i :: 0 <= i < |cases| ==> (cases[i].FutureCase? <==> cases[i].ch in futures)
  }

  /** Open, empty channels, and any selectors, which nobody has called yet. */
  ghost predicate Idle(w: World) {
    && (forall c :: 0 <= c < |w.chans| ==> w.chans[c] == Open(w.chans[c].size))
    && w.reg == Registry(map[], []) && w.desk.calls == [] && w.desk.next == 0 && w.ran == []
    && Ready(w) && forall s :: 0 <= s < |w.desk.selectors| ==> Typed(w.futures, w.desk.selectors[s])
  }

  lemma StartIsIdle(w: World)
    ensures Start(w) <==> Idle(w) && forall s :: 0 <= s < |w.desk.selectors| ==> OneSided(w.desk.selectors[s])
  {
    forall s | 0 <= s < |w.desk.selectors|
      ensures Proper(w.futures, w.desk.selectors[s]) <==>
              Typed(w.futures, w.desk.selectors[s]) && OneSided(w.desk.selectors[s])
    {
    }
  }

  /** The first case that meets an earlier one on the other side of a channel. */
  lemma FirstClash(cases: seq<SelCase>) returns (k: nat)
    requires !OneSided(cases)
    ensures k < |cases| && OneSidedTo(cases, k) && !OneSidedTo(cases, k + 1)
  {
    k := 0;
    while OneSidedTo(cases, k + 1)
      invariant k < |cases| && OneSidedTo(cases, k)
      decreases |cases| - k
    {
      k := k + 1;
    }
  }

  predicate SendsOn(cases: seq<SelCase>, k: nat, c: nat)
    requires k <= |cases|
  {
    exists i :: 0 <= i < k && cases[i].SendCase? && cases[i].ch == c
  }

  predicate ReceivesOn(cases: seq<SelCase>, k: nat, c: nat)
    requires k <= |cases|
  {
    exists i :: 0 <= i < k && cases[i].RecvCase? && cases[i].ch == c
  }

  // ---------------------------------------------------------------- filling buffers

  lemma {:induction false} RunAppends(w: World, a: seq<Op>, b: seq<Op>)
    ensures Run(w, a + b) == Run(Run(w, a), b)
    decreases |b|
  {
    if b == [] {
      assert a + b == a;
    } else {
      var n := |b| - 1;
      assert (a + b)[..|a + b| - 1] == a + b[..n] && (a + b)[|a + b| - 1] == b[n];
      RunAppends(w, a, b[..n]);
    }
  }

  /** An open channel nobody waits at. */
  ghost predicate Still(ch: Chan) {
    ch.sends == [] && ch.receives == [] && ch.recValue.None? && !ch.closed && |ch.buffer| <= ch.size
  }

  /** `w` is an idle world whose buffers may hold something. */
  ghost predicate Filling(w0: World, w: World) {
    && w == w0.(chans := w.chans) && |w.chans| == |w0.chans| && Ready(w)
    && forall c :: 0 <= c < |w.chans| ==> Still(w.chans[c]) && w.chans[c].size == w0.chans[c].size
  }

  function Sends(c: nat, n: nat): seq<Op> { seq(n, i => SendAsync(c, 0)) }

  function Least(a: nat, b: nat): nat { if a < b then a else b }

  lemma FillOne(w0: World, w: World, c: nat)
    requires Filling(w0, w) && c < |w.chans| && c !in w.futures
    ensures Enabled(w, SendAsync(c, 0))
    ensures var w' := Step(w, SendAsync(c, 0));
            && Filling(w0, w') && (forall d :: 0 <= d < |w.chans| && d != c ==> w'.chans[d] == w.chans[d])
            && |w'.chans[c].buffer| == Least(w.chans[c].size, |w.chans[c].buffer| + 1)
  {
    assert Still(w.chans[c]);
  }

  lemma {:induction false} Fill(w0: World, w: World, c: nat, n: nat)
    requires Filling(w0, w) && c < |w.chans| && c !in w.futures
    ensures var w' := Run(w, Sends(c, n));
            && Filling(w0, w') && (forall d :: 0 <= d < |w.chans| && d != c ==> w'.chans[d] == w.chans[d])
            && |w'.chans[c].buffer| == Least(w.chans[c].size, |w.chans[c].buffer| + n)
  {
    if n == 0 {
      assert Sends(c, 0) == [] && Still(w.chans[c]);
    } else {
      Fill(w0, w, c, n - 1);
      assert Sends(c, n)[..n - 1] == Sends(c, n - 1);
      FillOne(w0, Run(w, Sends(c, n - 1)), c);
    }
  }

  /** Fill every channel that one of the first `k` cases sends to. */
  function FillAll(w: World, cases: seq<SelCase>, k: nat): seq<Op>
    requires k <= |cases| && CasesInRange(cases, |w.chans|)
  {
    if k == 0 then []
    else
      FillAll(w, cases, k - 1) +
      if cases[k - 1].SendCase? then Sends(cases[k - 1].ch, w.chans[cases[k - 1].ch].size) else []
  }

  /** Channels that are sent to are full, all others empty. */
  ghost predicate Full(w: World, cases: seq<SelCase>, k: nat)
    requires k <= |cases|
  {
    forall c :: 0 <= c < |w.chans| ==> |w.chans[c].buffer| == if SendsOn(cases, k, c) then w.chans[c].size else 0
  }

  lemma {:induction false} FillsAll(w: World, cases: seq<SelCase>, k: nat)
    requires Idle(w) && k <= |cases| && CasesInRange(cases, |w.chans|) && Typed(w.futures, cases)
    ensures var w' := Run(w, FillAll(w, cases, k)); Filling(w, w') && Full(w', cases, k)
  {
    if k == 0 {
    } else {
      FillsAll(w, cases, k - 1);
      var w1, ops := Run(w, FillAll(w, cases, k - 1)), FillAll(w, cases, k - 1);
      if cases[k - 1].SendCase? {
        var c := cases[k - 1].ch;
        Fill(w, w1, c, w.chans[c].size);
        RunAppends(w, ops, Sends(c, w.chans[c].size));
        FullAfter(w1, Run(w1, Sends(c, w.chans[c].size)), cases, k);
      } else {
        assert ops + [] == ops;
        forall c | 0 <= c < |w1.chans| ensures SendsOn(cases, k, c) <==> SendsOn(cases, k - 1, c) {
          SendsOnNext(cases, k, c);
        }
      }
    }
  }

  lemma SendsOnNext(cases: seq<SelCase>, k: nat, c: nat)
    requires 0 < k <= |cases|
    ensures SendsOn(cases, k, c) <==> SendsOn(cases, k - 1, c) || (cases[k - 1].SendCase? && cases[k - 1].ch == c)
    ensures ReceivesOn(cases, k, c) <==> ReceivesOn(cases, k - 1, c) || (cases[k - 1].RecvCase? && cases[k - 1].ch == c)
  {
  }

  lemma FullAfter(w: World, w': World, cases: seq<SelCase>, k: nat)
    requires 0 < k <= |cases| && cases[k - 1].SendCase? && Full(w, cases, k - 1) && |w'.chans| == |w.chans|
    requires var c := cases[k - 1].ch;
             && c < |w.chans| && w'.chans[c].size == w.chans[c].size && |w'.chans[c].buffer| == w.chans[c].size
             && (forall d :: 0 <= d < |w.chans| && d != c ==> w'.chans[d] == w.chans[d])
    ensures Full(w', cases, k)
  {
    forall d | 0 <= d < |w.chans| ensures |w'.chans[d].buffer| == if SendsOn(cases, k, d) then w'.chans[d].size else 0 {
      SendsOnNext(cases, k, d);
    }
  }

  // ---------------------------------------------------------------- the Select

  /** A channel when the first `m` of `k` cases have been tried and all of them wait. */
  ghost predicate Waits(cases: seq<SelCase>, k: nat, m: nat, c: nat, ch: Chan)
    requires m <= k <= |cases|
  {
    && ch.recValue.None? && !ch.closed
    && (if SendsOn(cases, k, c) then |ch.buffer| == ch.size && ch.receives == [] else ch.buffer == [] && ch.sends == [])
    && (forall o :: o in Owners(ch.sends) || o in ch.receives ==> KeyOf(o) == SelectCall(0))
    && (SendsOn(cases, m, c) ==> ch.sends != []) && (ReceivesOn(cases, m, c) ==> ch.receives != [])
  }

  ghost predicate Midway(w: World, cases: seq<SelCase>, k: nat, m: nat)
    requires m <= k <= |cases|
  {
    && Ready(w) && |w.desk.calls| == 1 && w.desk.calls[0].phase.Blocked? && CasesOf(w.desk, 0) == cases
    && w.reg == Registry(map[], []) && Typed(w.futures, cases) && OneSidedTo(cases, k)
    && forall c :: 0 <= c < |w.chans| ==> Waits(cases, k, m, c, w.chans[c])
  }

  /** Trying a case on its channel leaves a callback there. */
  lemma OneWaits(ch: Chan, cases: seq<SelCase>, k: nat, m: nat, reg: Registry)
    requires m < k <= |cases| && reg == Registry(map[], []) && OneSidedTo(cases, k)
    requires Waits(cases, k, m, cases[m].ch, ch)
    ensures var o := Case(0, m, cases[m].ch);
            match cases[m]
            case RecvCase(c) =>
              var r := ReceiveImpl(ch, reg, Some(o)); r.value.None? && r.reg == reg && Waits(cases, k, m + 1, c, r.ch)
            case SendCase(c, v) =>
              var r := SendImpl(ch, reg, v, Some(o)); !r.ok && r.reg == reg && Waits(cases, k, m + 1, c, r.ch)
            case FutureCase(c, _) =>
              !SendsOn(cases, k, c) ==>
              var r := ReceiveImpl(ch, reg, Some(o)); r.more && r.reg == reg && Waits(cases, k, m + 1, c, r.ch)
  {
    var c := cases[m].ch;
    SendsOnNext(cases, m + 1, c);
    var o := Case(0, m, c);
    if cases[m].SendCase? {
      assert SendsOn(cases, k, c);
      var s := SendCb(o, cases[m].value);
      assert Owners(ch.sends + [s]) == Owners(ch.sends) + [o];
    } else {
      if cases[m].RecvCase? { assert !SendsOn(cases, k, c); }
      if ch.sends == [] { assert Owners(ch.sends) == []; }
    }
  }

  lemma OthersWait(cases: seq<SelCase>, k: nat, m: nat, c: nat, ch: Chan)
    requires m < k <= |cases| && Waits(cases, k, m, c, ch) &&
             (cases[m].ch != c || (cases[m].FutureCase? && cases[m].spent))
    ensures Waits(cases, k, m + 1, c, ch)
  {
    SendsOnNext(cases, m + 1, c);
  }

  lemma FutureIsNotSentTo(futures: set<nat>, cases: seq<SelCase>, k: nat, c: nat)
    requires Typed(futures, cases) && k <= |cases| && c in futures
    ensures !SendsOn(cases, k, c)
  {
  }

  lemma TryLeavesWaiting(w: World, cases: seq<SelCase>, k: nat, m: nat)
    requires m < k <= |cases| && Midway(w, cases, k, m)
    ensures Midway(TryCase(w, 0, m), cases, k, m + 1)
  {
    var c, w' := cases[m].ch, TryCase(w, 0, m);
    assert CasesInRange(CasesOf(w.desk, 0), |w.chans|);
    OneWaits(w.chans[c], cases, k, m, w.reg);
    if cases[m].FutureCase? { FutureIsNotSentTo(w.futures, cases, k, c); }
    assert w'.desk == w.desk && w'.reg == w.reg && w'.futures == w.futures && |w'.chans| == |w.chans|;
    forall d | 0 <= d < |w'.chans| ensures Waits(cases, k, m + 1, d, w'.chans[d]) {
      if w'.chans[d] == w.chans[d] && (d != c || (cases[m].FutureCase? && cases[m].spent)) {
        OthersWait(cases, k, m, d, w.chans[d]);
      }
    }
  }

  /** The case that clashes finds a callback of its own call first. */
  lemma ClashMeetsItself(w: World, cases: seq<SelCase>, k: nat)
    requires k < |cases| && Midway(w, cases, k, k) && !OneSidedTo(cases, k + 1)
    ensures MeetsItself(w, 0, k)
  {
    var i, j :| 0 <= i <= k && 0 <= j <= k && cases[i].RecvCase? && cases[j].SendCase? && cases[i].ch == cases[j].ch;
    var c := cases[k].ch;
    assert CasesInRange(CasesOf(w.desk, 0), |w.chans|);
    var ch := w.chans[c];
    assert Waits(cases, k, k, c, ch);
    if i == k {
      assert SendsOn(cases, k, c) && Owners(ch.sends)[0] == ch.sends[0].owner;
      assert Owners(ch.sends)[0] in Owners(ch.sends);
    } else {
      assert ReceivesOn(cases, k, c) && ch.receives[0] in ch.receives;
    }
  }

  lemma {:induction false} SelectGetsThere(w: World, cases: seq<SelCase>, k: nat, m: nat)
    requires m <= k < |cases| && Midway(w, cases, k, m) && !OneSidedTo(cases, k + 1)
    ensures TryCases(w, 0, m).reg.order == [SelectCall(0), SelectCall(0)]
    decreases k - m
  {
    hide Waits, OneSidedTo, TryCase;
    if m < k {
      TryLeavesWaiting(w, cases, k, m);
      SelectGetsThere(TryCase(w, 0, m), cases, k, m + 1);
      TryCasesOn(w, 0, m, TryCase(w, 0, m));
    } else {
      ClashMeetsItself(w, cases, k);
      CommitsTwiceExactly(w, 0, k);
      assert [] + [SelectCall(0), SelectCall(0)] == [SelectCall(0), SelectCall(0)];
      CommitStops(w, k);
    }
  }

  /** A case that commits ends the pass over the cases. */
  lemma CommitStops(w: World, k: nat)
    requires Ready(w) && |w.desk.calls| == 1 && k < |CasesOf(w.desk, 0)| && w.desk.calls[0].phase.Blocked?
    requires w.reg.order == [] && |TryCase(w, 0, k).reg.order| == 2
    ensures TryCases(w, 0, k) == TryCase(w, 0, k)
  {
    CommitsOrKeepsDesk(w, k);
  }

  lemma CommitsOrKeepsDesk(w: World, k: nat)
    requires Ready(w) && |w.desk.calls| == 1 && k < |CasesOf(w.desk, 0)| && w.reg.order == []
    ensures |TryCase(w, 0, k).reg.order| == 2 ==> !TryCase(w, 0, k).desk.calls[0].phase.Blocked?
  {
    var c := CasesOf(w.desk, 0)[k].ch;
    assert CasesInRange(CasesOf(w.desk, 0), |w.chans|);
    ReceiveWakes(w.chans[c], w.reg, Some(Case(0, k, c)));
  }

  // ---------------------------------------------------------------- main results

  lemma ReadyToSelect(w0: World, w: World, s: nat, cases: seq<SelCase>, k: nat)
    requires Idle(w0) && Filling(w0, w) && s < |w0.desk.selectors| && cases == w0.desk.selectors[s]
    requires k <= |cases| && Full(w, cases, k) && OneSidedTo(cases, k)
    ensures Enabled(w, Select(s)) && Midway(AddCall(w, s), cases, k, 0)
  {
    forall c | 0 <= c < |w.chans| ensures Waits(cases, k, 0, c, w.chans[c]) {
      assert Still(w.chans[c]) && Owners(w.chans[c].sends) == [];
    }
  }

  /** A selector that sends to and receives from one channel can be made to commit twice. */
  lemma CanCommitTwice(w: World, s: nat) returns (ops: seq<Op>)
    requires Idle(w) && s < |w.desk.selectors| && !OneSided(w.desk.selectors[s])
    ensures Run(w, ops).reg.order == [SelectCall(0), SelectCall(0)]
  {
    var cases := w.desk.selectors[s];
    assert CasesInRange(cases, |w.chans|);
    var k := FirstClash(cases);
    ops := FillAll(w, cases, k);
    FillsAll(w, cases, k);
    var w1 := Run(w, ops);
    ReadyToSelect(w, w1, s, cases, k);
    SelectGetsThere(AddCall(w1, s), cases, k, 0);
    RunOne(w, ops, Select(s));
    ops := ops + [Select(s)];
  }

  /**
   From idle channels, no run lets anything fire twice for one call if and only if no selector has a
   channel in both a send and a receive case.
   */
  lemma SelectsCommitOnceExactly(w: World)
    requires Idle(w)
    ensures (forall ops :: NoRepeats(Run(w, ops).reg.order)) <==>
            (forall s :: 0 <= s < |w.desk.selectors| ==> OneSided(w.desk.selectors[s]))
  {
    StartIsIdle(w);
    if s :| 0 <= s < |w.desk.selectors| && !OneSided(w.desk.selectors[s]) {
      var ops := CanCommitTwice(w, s);
      var order := Run(w, ops).reg.order;
      assert order[0] == order[1];
    } else {
      StartInv(w);
      forall ops ensures NoRepeats(Run(w, ops).reg.order) { RunKeepsInv(w, ops); }
    }
  }
}
