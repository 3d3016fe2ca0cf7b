/**
 The channel and Select laws, for every run from open channels.
 */
module ChannelTheorems {
  import opened Common
  import opened Channels
  import opened ChannelLedger
  import opened Selectors
  import opened SelectInvariant
  import opened SelectRuns

  /** Open, empty channels and selectors nobody has called yet. */
  ghost predicate Start(w: World) {
    && (forall c :: 0 <= c < |w.chans| ==> w.chans[c] == Open(w.chans[c].size))
    && w.reg == Registry(map[], []) && w.desk.calls == [] && w.desk.next == 0 && w.ran == []
    && Ready(w) && SelectorsOK(w.futures, w.desk.selectors)
  }

  lemma OpenChanInv(c: nat, size: nat, reg: Registry)
    ensures ChanInv(c, Open(size), reg)
  {
    var ch := Open(size);
    assert Owners(ch.sends) == [] && Entries(ch.sends) == [] && Carried([], reg) == [];
    assert ch.book.base + Entries(ch.sends) == ch.book.log;
  }

  lemma StartInv(w: World)
    requires Start(w)
    ensures Inv(w)
  {
    forall c | 0 <= c < |w.chans| ensures ChanInv(c, w.chans[c], w.reg) && QueueOK(w.desk, w.chans[c]) {
      OpenChanInv(c, w.chans[c].size, w.reg);
    }
  }

  // ---------------------------------------------------------------- channels

  /** A buffer never exceeds its size, senders wait only at a full one, receivers only at an empty channel. */
  lemma WaitingIsJustified(w: World, ops: seq<Op>, c: nat)
    requires Start(w) && c < |Run(w, ops).chans|
    ensures Waiting(Run(w, ops).chans[c])
  {
    StartInv(w);
    RunKeepsInv(w, ops);
    var w' := Run(w, ops);
    assert ChanInv(c, w'.chans[c], w'.reg);
  }

  /** Values leave in the order they were sent, Selects or not. */
  lemma ValuesLeaveInSendOrder(w: World, ops: seq<Op>, c: nat)
    requires Start(w) && c < |Run(w, ops).chans|
    ensures var w' := Run(w, ops);
            var ch := w'.chans[c];
            Values(Standing(ch.book.log, w'.reg)) ==
                ch.book.out + ch.buffer + Values(Standing(Entries(ch.sends), w'.reg))
  {
    StartInv(w);
    RunKeepsInv(w, ops);
    var w' := Run(w, ops);
    assert ChanInv(c, w'.chans[c], w'.reg);
    OrderOfValues(w'.chans[c], w'.reg);
  }

  lemma OrderOfValues(ch: Chan, reg: Registry)
    requires InOrder(ch, reg)
    ensures Values(Standing(ch.book.log, reg)) == ch.book.out + ch.buffer + Values(Standing(Entries(ch.sends), reg))
  {
    StandingAppends(ch.book.base, Entries(ch.sends), reg);
    AllStanding(ch.book.base, reg);
    var waiting := Standing(Entries(ch.sends), reg);
    assert Values(ch.book.base + waiting) == Values(ch.book.base) + Values(waiting);
  }

  /** No value appears twice or disappears, but for prefetched values that were overwritten. */
  lemma ValuesAreConserved(w: World, ops: seq<Op>, c: nat)
    requires Start(w) && c < |Run(w, ops).chans|
    ensures var w' := Run(w, ops);
            var ch := w'.chans[c];
            && Airborne(ch.book.flying, w'.reg)
            && multiset(ch.book.out) ==
               multiset(ch.book.got) + multiset(ch.book.lost) +
               multiset(Carried(ch.book.flying, w'.reg)) + multiset(Slot(ch))
  {
    StartInv(w);
    RunKeepsInv(w, ops);
    var w' := Run(w, ops);
    assert ChanInv(c, w'.chans[c], w'.reg);
  }

  // ---------------------------------------------------------------- Select

  /** A Select accepts once, runs exactly the case that accepted, and leaves no callback behind. */
  lemma SelectCommitsOnce(w: World, ops: seq<Op>, t: nat)
    requires Start(w) && t < |Run(w, ops).desk.calls|
    ensures var w' := Run(w, ops);
            && NoRepeats(w'.reg.order)
            && RanFor(w'.ran, t) == Expected(w'.desk.calls[t], t)
            && (!w'.desk.calls[t].phase.Blocked? ==>
                  && SelectCall(t) in w'.reg.fired && w'.reg.fired[SelectCall(t)].owner.Case?
                  && w'.reg.fired[SelectCall(t)].owner.branch == w'.desk.calls[t].phase.branch)
            && (w'.desk.calls[t].phase.Returned? ==>
                  forall c, o ::
                    0 <= c < |w'.chans| && (o in Owners(w'.chans[c].sends) || o in w'.chans[c].receives) ==>
                    KeyOf(o) != SelectCall(t))
  {
    StartInv(w);
    RunKeepsInv(w, ops);
    var w' := Run(w, ops);
    assert CallOK(w'.desk, w'.chans, w'.reg, t);
    if w'.desk.calls[t].phase.Returned? {
      forall c, o | 0 <= c < |w'.chans| && (o in Owners(w'.chans[c].sends) || o in w'.chans[c].receives)
        ensures KeyOf(o) != SelectCall(t)
      {
        assert QueueOK(w'.desk, w'.chans[c]);
      }
    }
  }

  /** A future case runs at most once over the life of its selector. */
  lemma FutureCaseRunsOnce(w: World, ops: seq<Op>, a: nat, b: nat)
    requires Start(w) && a < b < |Run(w, ops).ran| && IsFuture(Run(w, ops).desk, Run(w, ops).ran[a])
    ensures var ran := Run(w, ops).ran; ran[a].selector != ran[b].selector || ran[a].branch != ran[b].branch
  {
    StartInv(w);
    RunKeepsInv(w, ops);
  }

  // ---------------------------------------------------------------- when a value is lost

  /** The one step that loses a value: a Select resumes while the prefetch slot is taken. */
  predicate Overwrites(w: World, op: Op, c: nat)
    requires c < |w.chans| && Enabled(w, op)
  {
    && op.Resume? && w.chans[c].recValue.Some?
    && var f := w.reg.fired[SelectCall(op.token)];
       && f.owner.Case? && f.value.Some? && f.owner.branch < |CasesOf(w.desk, op.token)|
       && CasesOf(w.desk, op.token)[f.owner.branch] == RecvCase(c)
  }

  ghost predicate SameLost(w: World, w': World) {
    |w'.chans| == |w.chans| && forall c :: 0 <= c < |w.chans| ==> w'.chans[c].book.lost == w.chans[c].book.lost
  }

  lemma ReceiveEmptiesSlot(ch: Chan, reg: Registry, callback: Option<Owner>)
    ensures ReceiveImpl(ch, reg, callback).ch.recValue.None?
    ensures ReceiveImpl(ch, reg, callback).ch.book.lost == ch.book.lost
  {
  }

  lemma TryCaseLosesNothing(w: World, t: nat, i: nat)
    requires Ready(w) && t < |w.desk.calls| && i < |CasesOf(w.desk, t)|
    ensures SameLost(w, TryCase(w, t, i))
  {
    hide Unblock, FirstAccepting, Fire;
    var c := CasesOf(w.desk, t)[i].ch;
    assert CasesInRange(CasesOf(w.desk, t), |w.chans|);
    ReceiveEmptiesSlot(w.chans[c], w.reg, Some(Case(t, i, c)));
  }

  lemma {:induction false} TryCasesLoseNothing(w: World, t: nat, i: nat)
    requires Ready(w) && t < |w.desk.calls| && i <= |CasesOf(w.desk, t)|
    ensures SameLost(w, TryCases(w, t, i))
    decreases |CasesOf(w.desk, t)| - i
  {
    if i < |CasesOf(w.desk, t)| {
      TryCaseLosesNothing(w, t, i);
      TryCaseDesk(w, t, i);
      var w' := TryCase(w, t, i);
      if w'.desk.calls[t].phase.Blocked? { TryCasesLoseNothing(w', t, i + 1); }
    }
  }

  lemma {:induction false} CleanupLosesNothing(w: World, t: nat, i: nat)
    requires Ready(w) && t < |w.desk.calls| && i <= |CasesOf(w.desk, t)|
    ensures SameLost(w, Cleanup(w, t, i))
    decreases |CasesOf(w.desk, t)| - i
  {
    if i < |CasesOf(w.desk, t)| {
      var c := CasesOf(w.desk, t)[i].ch;
      CleanupLosesNothing(SetChan(w, c, Withdraw(w.chans[c], Case(t, i, c)), w.reg), t, i + 1);
    }
  }

  /** A step loses a value exactly when it overwrites the prefetch slot. */
  lemma LostExactlyWhenOverwritten(w: World, op: Op, c: nat)
    requires Enabled(w, op) && c < |w.chans|
    ensures |Step(w, op).chans| == |w.chans|
    ensures Step(w, op).chans[c].book.lost ==
            w.chans[c].book.lost + if Overwrites(w, op, c) then [w.chans[c].recValue.value] else []
  {
    if op.Resume? {
    } else {
      OthersLoseNothing(w, op);
    }
  }

  lemma OthersLoseNothing(w: World, op: Op)
    requires Enabled(w, op) && !op.Resume?
    ensures SameLost(w, Step(w, op))
  {
    match op
    case Select(s) =>
      assert Ready(AddCall(w, s));
      TryCasesLoseNothing(AddCall(w, s), |w.desk.calls|, 0);
    case Return(t) => CleanupLosesNothing(w, t, 0);
    case Receive(d) => ReceiveEmptiesSlot(w.chans[d], w.reg, Some(Plain(w.desk.next, d)));
    case GetFuture(d) => ReceiveEmptiesSlot(w.chans[d], w.reg, Some(Plain(w.desk.next, d)));
    case ReceiveAsync(d) => ReceiveEmptiesSlot(w.chans[d], w.reg, None);
    case PeekSignals(d) => ReceiveEmptiesSlot(w.chans[d], w.reg, None);
    case Send(_, _) =>
    case SendAsync(_, _) =>
    case SetFuture(_) =>
  }
}
