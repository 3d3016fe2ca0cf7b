/**
 What holds in every interleaving of channel, future and Select operations: the channel
 laws on every channel, and that a Select commits exactly once.
 */
module SelectRuns {
  import opened Common
  import opened Channels
  import opened ChannelLedger
  import opened Selectors
  import opened SelectInvariant

  // ---------------------------------------------------------------- a case that is ready at once

  ghost predicate Offered(chans: seq<Chan>, o: Owner) {
    exists c :: 0 <= c < |chans| && o in Owners(chans[c].sends)
  }

  lemma FireNow(w: World, t: nat, i: nat)
    requires Inv(w) && Known(w.desk, t) && SelectCall(t) !in w.reg.fired && i < |CasesOf(w.desk, t)|
    requires !Offered(w.chans, Case(t, i, CasesOf(w.desk, t)[i].ch))
    ensures var w' := w.(reg := Fire(w.reg, Case(t, i, CasesOf(w.desk, t)[i].ch), None));
            Plumbing(w') && CallsOK(w', t) && History(w')
  {
    var o := Case(t, i, CasesOf(w.desk, t)[i].ch);
    var reg' := Fire(w.reg, o, None);
    FireReg(w.reg, w.desk, o, None);
    forall c | 0 <= c < |w.chans| ensures ChanInv(c, w.chans[c], reg') {
      assert ChanInv(c, w.chans[c], w.reg);
      FiredElsewhere(c, w.chans[c], w.reg, o, None);
    }
    forall u | 0 <= u < |w.desk.calls| && u != t ensures CallOK(w.desk, w.chans, reg', u) {
      assert CallOK(w.desk, w.chans, w.reg, u);
    }
  }

  lemma CommitNowKeepsInv(w: World, t: nat, i: nat)
    requires Inv(w) && Known(w.desk, t) && SelectCall(t) !in w.reg.fired && i < |CasesOf(w.desk, t)|
    requires w.desk.calls[t].phase.Blocked? && !Offered(w.chans, Case(t, i, CasesOf(w.desk, t)[i].ch))
    requires CasesOf(w.desk, t)[i].FutureCase? ==> !CasesOf(w.desk, t)[i].spent
    ensures Inv(CommitNow(w, t, i))
  {
    FireNow(w, t, i);
    RunCaseKeepsInv(w.(reg := Fire(w.reg, Case(t, i, CasesOf(w.desk, t)[i].ch), None)), t, i);
  }

  // ---------------------------------------------------------------- trying the cases

  /** No callback of call `t` for a case from `i` on is queued at this channel. */
  ghost predicate NoneQueued(ch: Chan, t: nat, i: nat) {
    && (forall o :: o in Owners(ch.sends) && o.Case? && o.token == t ==> o.branch < i)
    && (forall o :: o in ch.receives && o.Case? && o.token == t ==> o.branch < i)
  }

  ghost predicate AllClear(chans: seq<Chan>, t: nat, i: nat) {
    forall c :: 0 <= c < |chans| ==> NoneQueued(chans[c], t, i)
  }

  /** Call `t` is about to try case `i`. */
  ghost predicate Trying(w: World, t: nat, i: nat) {
    && Inv(w) && t < |w.desk.calls| && w.desk.calls[t].phase.Blocked? && SelectCall(t) !in w.reg.fired
    && i <= |CasesOf(w.desk, t)| && AllClear(w.chans, t, i)
  }

  lemma ClearAfter(chans: seq<Chan>, t: nat, i: nat, c: nat, ch: Chan)
    requires AllClear(chans, t, i) && c < |chans| && NoneQueued(ch, t, i + 1)
    ensures AllClear(chans[c := ch], t, i + 1)
  {
    assert forall d :: 0 <= d < |chans| ==> NoneQueued(chans[d], t, i);
  }

  /** A call's own callback on a channel is for a case of the same kind. */
  lemma NotItsOwn(w: World, t: nat, i: nat, o: Owner)
    requires Trying(w, t, i) && i < |CasesOf(w.desk, t)|
    requires var ch := w.chans[CasesOf(w.desk, t)[i].ch];
             match CasesOf(w.desk, t)[i]
             case RecvCase(_) => o in Owners(ch.sends)
             case SendCase(_, _) => o in ch.receives
             case FutureCase(_, _) => false
    ensures KeyOf(o) != SelectCall(t)
  {
    var c := CasesOf(w.desk, t)[i].ch;
    assert CasesInRange(CasesOf(w.desk, t), |w.chans|);
    assert QueueOK(w.desk, w.chans[c]) && ChanInv(c, w.chans[c], w.reg) && Proper(w.futures, CasesOf(w.desk, t));
  }

  lemma TryReceive(w: World, t: nat, i: nat)
    requires Trying(w, t, i) && i < |CasesOf(w.desk, t)| && CasesOf(w.desk, t)[i].RecvCase?
    ensures var w' := TryCase(w, t, i); Inv(w') && (w'.desk == w.desk ==> Trying(w', t, i + 1))
  {
    var c := CasesOf(w.desk, t)[i].ch;
    var o, ch := Case(t, i, c), w.chans[c];
    assert CasesInRange(CasesOf(w.desk, t), |w.chans|);
    assert NoneQueued(ch, t, i) && Proper(w.futures, CasesOf(w.desk, t)) && KindOK(w.futures, c, ch);
    var r, shot := ReceiveImpl(ch, w.reg, Some(o)), Released(ch, w.reg);
    ReceiveShifts(w, c, Some(o));
    ReceiveKind(w.futures, c, ch, w.reg, Some(o));
    assert ChanInv(c, ch, w.reg);
    ReceiveShape(ch, w.reg, Some(o));
    if shot.Some? { NotItsOwn(w, t, i, shot.value.owner); }
    if r.value.Some? {
      var ch' := Prefetch(r.ch, r.value.value);
      PrefetchKeeps(c, r.ch, r.reg, r.value.value);
      ShiftKeepsInv(w, c, ch', shot);
      assert NoneQueued(ch', t, i + 1);
      NotOfferedAfter(w.chans, t, i, c, ch');
      CommitNowKeepsInv(SetChan(w, c, ch', r.reg), t, i);
    } else {
      ShiftKeepsInv(w, c, r.ch, shot);
      ClearAfter(w.chans, t, i, c, r.ch);
    }
  }

  lemma NotOfferedAfter(chans: seq<Chan>, t: nat, i: nat, c: nat, ch: Chan)
    requires AllClear(chans, t, i) && c < |chans|
    requires forall o :: o in Owners(ch.sends) ==> o in Owners(chans[c].sends)
    ensures !Offered(chans[c := ch], Case(t, i, c))
  {
    assert forall d :: 0 <= d < |chans| ==> NoneQueued(chans[d], t, i);
  }

  lemma TrySend(w: World, t: nat, i: nat)
    requires Trying(w, t, i) && i < |CasesOf(w.desk, t)| && CasesOf(w.desk, t)[i].SendCase?
    ensures var w' := TryCase(w, t, i); Inv(w') && (w'.desk == w.desk ==> Trying(w', t, i + 1))
  {
    var c, v := CasesOf(w.desk, t)[i].ch, CasesOf(w.desk, t)[i].value;
    var o, ch := Case(t, i, c), w.chans[c];
    assert CasesInRange(CasesOf(w.desk, t), |w.chans|);
    assert NoneQueued(ch, t, i) && Proper(w.futures, CasesOf(w.desk, t)) && KindOK(w.futures, c, ch);
    var r, shot := SendImpl(ch, w.reg, v, Some(o)), Woken(ch, w.reg, v);
    SendShifts(w, c, v, Some(o));
    assert ChanInv(c, ch, w.reg);
    SendShape(c, ch, w.reg, v, Some(o));
    if shot.Some? { NotItsOwn(w, t, i, shot.value.owner); }
    ShiftKeepsInv(w, c, r.ch, shot);
    if r.ok {
      NotOfferedAfter(w.chans, t, i, c, r.ch);
      CommitNowKeepsInv(SetChan(w, c, r.ch, r.reg), t, i);
    } else {
      ClearAfter(w.chans, t, i, c, r.ch);
    }
  }

  lemma TryFuture(w: World, t: nat, i: nat)
    requires Trying(w, t, i) && i < |CasesOf(w.desk, t)| && CasesOf(w.desk, t)[i].FutureCase?
    ensures var w' := TryCase(w, t, i); Inv(w') && (w'.desk == w.desk ==> Trying(w', t, i + 1))
  {
    var c := CasesOf(w.desk, t)[i].ch;
    var o, ch := Case(t, i, c), w.chans[c];
    assert CasesInRange(CasesOf(w.desk, t), |w.chans|);
    assert NoneQueued(ch, t, i) && Proper(w.futures, CasesOf(w.desk, t)) && KindOK(w.futures, c, ch);
    if CasesOf(w.desk, t)[i].spent {
      assert forall d :: 0 <= d < |w.chans| ==> NoneQueued(w.chans[d], t, i);
    } else {
      var r := ReceiveImpl(ch, w.reg, Some(o));
      ReceiveShifts(w, c, Some(o));
      ReceiveKind(w.futures, c, ch, w.reg, Some(o));
      assert ChanInv(c, ch, w.reg);
      ReceiveShape(ch, w.reg, Some(o));
      ShiftKeepsInv(w, c, r.ch, None);
      if !r.more {
        NotOfferedAfter(w.chans, t, i, c, r.ch);
        CommitNowKeepsInv(SetChan(w, c, r.ch, r.reg), t, i);
      } else {
        ClearAfter(w.chans, t, i, c, r.ch);
      }
    }
  }

  /** A case that leaves its call blocked changes nothing but channels and the registry. */
  lemma TryCaseDesk(w: World, t: nat, i: nat)
    requires Ready(w) && t < |w.desk.calls| && i < |CasesOf(w.desk, t)|
    ensures |TryCase(w, t, i).desk.calls| == |w.desk.calls|
    ensures TryCase(w, t, i).desk.calls[t].phase.Blocked? ==> TryCase(w, t, i).desk == w.desk
  {
  }

  lemma TryOne(w: World, t: nat, i: nat)
    requires Trying(w, t, i) && i < |CasesOf(w.desk, t)|
    ensures var w' := TryCase(w, t, i);
            && Inv(w') && t < |w'.desk.calls|
            && (w'.desk.calls[t].phase.Blocked? ==> w'.desk == w.desk && Trying(w', t, i + 1))
  {
    TryCaseDesk(w, t, i);
    match CasesOf(w.desk, t)[i]
    case RecvCase(_) => TryReceive(w, t, i);
    case SendCase(_, _) => TrySend(w, t, i);
    case FutureCase(_, _) => TryFuture(w, t, i);
  }

  lemma {:induction false} TryCasesKeepsInv(w: World, t: nat, i: nat)
    requires Trying(w, t, i)
    ensures Inv(TryCases(w, t, i))
    decreases |CasesOf(w.desk, t)| - i
  {
    hide TryCase, CallsOK, History, RegOK, ChansOK, KindsOK, QueuesOK;
    if i < |CasesOf(w.desk, t)| {
      TryOne(w, t, i);
      var w' := TryCase(w, t, i);
      if w'.desk.calls[t].phase.Blocked? {
        TryCasesKeepsInv(w', t, i + 1);
        TryCasesOn(w, t, i, w');
      }
    }
  }

  lemma TryCasesOn(w: World, t: nat, i: nat, w': World)
    requires Ready(w) && t < |w.desk.calls| && i < |CasesOf(w.desk, t)| && w' == TryCase(w, t, i)
    requires t < |w'.desk.calls| && w'.desk.calls[t].phase.Blocked? && Ready(w') && i + 1 <= |CasesOf(w'.desk, t)|
    ensures TryCases(w, t, i) == TryCases(w', t, i + 1)
  {
  }

  lemma AddCallQueue(d: Desk, s: nat, ch: Chan)
    requires QueueOK(d, ch)
    ensures QueueOK(d.(calls := d.calls + [Call(s, Blocked)]), ch) && NoneQueued(ch, |d.calls|, 0)
  {
    var d' := d.(calls := d.calls + [Call(s, Blocked)]);
    forall o | o in Owners(ch.sends) ensures SenderOK(d', o) {
      assert SenderOK(d, o);
      assert o.Case? ==> CasesOf(d', o.token) == CasesOf(d, o.token);
    }
    forall o | o in ch.receives ensures ReceiverOK(d', o) {
      assert ReceiverOK(d, o);
      assert o.Case? ==> CasesOf(d', o.token) == CasesOf(d, o.token);
    }
    assert forall o :: o in Owners(ch.sends) && o.Case? ==> Listed(d, o);
    assert forall o :: o in ch.receives && o.Case? ==> Listed(d, o);
  }

  lemma AddCallCall(w: World, s: nat, t: nat)
    requires Known(w.desk, t) && CallOK(w.desk, w.chans, w.reg, t)
    requires SelectCall(t) in w.reg.fired ==> KeyOf(w.reg.fired[SelectCall(t)].owner) == SelectCall(t)
    ensures Known(AddCall(w, s).desk, t) && CallOK(AddCall(w, s).desk, w.chans, w.reg, t)
  {
    assert CasesOf(AddCall(w, s).desk, t) == CasesOf(w.desk, t);
  }

  lemma AddCallKeepsInv(w: World, s: nat)
    requires Inv(w) && Enabled(w, Select(s))
    ensures Trying(AddCall(w, s), |w.desk.calls|, 0)
  {
    var d', t := AddCall(w, s).desk, |w.desk.calls|;
    forall c | 0 <= c < |w.chans| ensures QueueOK(d', w.chans[c]) && NoneQueued(w.chans[c], t, 0) {
      assert QueueOK(w.desk, w.chans[c]);
      AddCallQueue(w.desk, s, w.chans[c]);
    }
    forall u | 0 <= u < |d'.calls| ensures Known(d', u) && CallOK(d', w.chans, w.reg, u) {
      if u < t { AddCallCall(w, s, u); }
    }
    AddCallHistory(w, s);
  }

  lemma AddCallHistory(w: World, s: nat)
    requires Inv(w) && Enabled(w, Select(s))
    ensures History(AddCall(w, s))
  {
    hide Plumbing, CallsOK, Ready, FuturesOnce;
    var d, d' := w.desk, AddCall(w, s).desk;
    NotYetRan(w.ran, |d.calls|);
    assert RanOK(w.ran, d'.calls);
    assert OneAtATime(d'.calls);
    FuturesOnceStays(d, d', w.ran);
  }

  lemma FuturesOnceStays(d: Desk, d': Desk, ran: seq<Ran>)
    requires FuturesOnce(d, ran) && d'.selectors == d.selectors
    ensures FuturesOnce(d', ran)
  {
    assert forall r :: IsFuture(d', r) <==> IsFuture(d, r);
  }

  lemma {:induction false} NotYetRan(ran: seq<Ran>, t: nat)
    requires forall r :: r in ran ==> r.token < t
    ensures RanFor(ran, t) == []
  {
    if ran != [] { NotYetRan(ran[..|ran| - 1], t); }
  }

  // ---------------------------------------------------------------- a future is set

  /** A callback waiting for a future fires when the future is set. */
  lemma FireWaiter(w: World, c: nat, o: Owner)
    requires Inv(w) && c < |w.chans| && c in w.futures && w.chans[c].closed && o in w.chans[c].receives
    requires KeyOf(o) !in w.reg.fired
    ensures Inv(w.(reg := Fire(w.reg, o, None)))
  {
    var reg' := Fire(w.reg, o, None);
    assert QueueOK(w.desk, w.chans[c]) && ChanInv(c, w.chans[c], w.reg) && KindOK(w.futures, c, w.chans[c]);
    FireReg(w.reg, w.desk, o, None);
    forall d | 0 <= d < |w.chans| ensures ChanInv(d, w.chans[d], reg') {
      assert ChanInv(d, w.chans[d], w.reg);
      FiredElsewhere(d, w.chans[d], w.reg, o, None);
    }
    forall u | 0 <= u < |w.desk.calls| ensures CallOK(w.desk, w.chans, reg', u) {
      assert CallOK(w.desk, w.chans, w.reg, u) && Proper(w.futures, CasesOf(w.desk, u));
      WaiterCommits(w, c, o, u);
    }
  }

  /** The call behind a callback that waited for a future has that future's case to run. */
  lemma WaiterCommits(w: World, c: nat, o: Owner, u: nat)
    requires Known(w.desk, u) && CallOK(w.desk, w.chans, w.reg, u) && Proper(w.futures, CasesOf(w.desk, u))
    requires ReceiverOK(w.desk, o) && o.ch == c && c in w.futures && KeyOf(o) !in w.reg.fired
    ensures CallOK(w.desk, w.chans, Fire(w.reg, o, None), u)
  {
  }

  lemma {:induction false} FireAllKeepsInv(w: World, c: nat, os: seq<Owner>)
    requires Inv(w) && c < |w.chans| && c in w.futures && w.chans[c].closed
    requires NoRepeats(os) && forall o :: o in os ==>
             o in w.chans[c].receives && (o.Plain? ==> KeyOf(o) !in w.reg.fired)
    ensures Inv(w.(reg := FireAll(w.reg, os)))
    decreases os
  {
    if os != [] {
      var o := os[0];
      assert o !in os[1..];
      if Accepts(w.reg, o) {
        FireWaiter(w, c, o);
        FireAllKeepsInv(w.(reg := Fire(w.reg, o, None)), c, os[1..]);
      } else {
        FireAllKeepsInv(w, c, os[1..]);
      }
    }
  }

  lemma SetFutureKeepsInv(w: World, c: nat)
    requires Inv(w) && Enabled(w, SetFuture(c))
    ensures Inv(Step(w, SetFuture(c)))
  {
    var ch, ch' := w.chans[c], w.chans[c].(closed := true);
    assert ChanInv(c, ch, w.reg) && KindOK(w.futures, c, ch) && QueueOK(w.desk, ch);
    assert ChanInv(c, ch', w.reg) by { assert Carried(ch'.book.flying, w.reg) == Carried(ch.book.flying, w.reg); }
    ShiftKeepsInv(w, c, ch', None);
    FireAllKeepsInv(SetChan(w, c, ch', w.reg), c, ch.receives);
  }

  // ---------------------------------------------------------------- resuming and returning

  /** A value that arrives is no longer on its way for this call, and still is for every other. */
  lemma LandedCalls(w: World, c: nat, ch: Chan, t: nat)
    requires CallsOK(w, |w.desk.calls|) && RegOK(w.reg, w.desk) && c < |w.chans|
    requires forall u :: u != t && u in w.chans[c].book.flying ==> u in ch.book.flying
    ensures CallsOK(SetChan(w, c, ch, w.reg), t)
  {
    var chans' := w.chans[c := ch];
    forall u | 0 <= u < |w.desk.calls| && u != t ensures CallOK(w.desk, chans', w.reg, u) {
      assert CallOK(w.desk, w.chans, w.reg, u);
      assert forall d :: Aloft(w.chans, d, u) ==> Aloft(chans', d, u);
    }
  }

  /** A Select that had to wait resumes with the value its callback accepted. */
  lemma ResumeReceive(w: World, t: nat, i: nat, c: nat, v: Value)
    requires Inv(w) && t < |w.desk.calls| && w.desk.calls[t].phase.Blocked? && Chose(w.desk, w.reg, t, i)
    requires CasesOf(w.desk, t)[i] == RecvCase(c) && Aloft(w.chans, c, t)
    requires w.reg.fired[SelectCall(t)].value == Some(v)
    ensures Inv(RunCase(SetChan(w, c, Land(w.chans[c], t, v), w.reg), t, i))
  {
    var was, ch := w.chans[c], Land(w.chans[c], t, v);
    assert ChanInv(c, was, w.reg) && KindOK(w.futures, c, was) && QueueOK(w.desk, was);
    assert Proper(w.futures, CasesOf(w.desk, t));
    LandKeeps(c, was, w.reg, t);
    LandPlumbing(w, c, ch);
    LandedCalls(w, c, ch, t);
    RunCaseKeepsInv(SetChan(w, c, ch, w.reg), t, i);
  }

  lemma ResumeKeepsInv(w: World, t: nat)
    requires Inv(w) && Enabled(w, Resume(t))
    ensures Inv(Step(w, Resume(t)))
  {
    hide ChansOK, KindsOK, QueuesOK, SelectorsOK, History;
    var f := w.reg.fired[SelectCall(t)];
    assert CallOK(w.desk, w.chans, w.reg, t) && KeyOf(f.owner) == SelectCall(t);
    var i := f.owner.branch;
    match CasesOf(w.desk, t)[i]
    case RecvCase(c) => ResumeReceive(w, t, i, c, f.value.value);
    case SendCase(_, _) => RunCaseKeepsInv(w, t, i);
    case FutureCase(_, _) => RunCaseKeepsInv(w, t, i);
  }

  lemma LandPlumbing(w: World, c: nat, ch: Chan)
    requires Plumbing(w) && c < |w.chans| && ChanInv(c, ch, w.reg) && KindOK(w.futures, c, ch) && QueueOK(w.desk, ch)
    ensures Plumbing(SetChan(w, c, ch, w.reg))
  {
    SetOne(w.futures, w.desk, w.chans, c, ch);
  }

  /** No callback of call `t` for a case before `i` is queued. */
  ghost predicate Swept(ch: Chan, t: nat, i: nat) {
    && (forall o :: o in Owners(ch.sends) && o.Case? && o.token == t ==> o.branch >= i)
    && (forall o :: o in ch.receives && o.Case? && o.token == t ==> o.branch >= i)
  }

  lemma WithdrawShape(ch: Chan, o: Owner)
    ensures forall x :: x in Owners(Withdraw(ch, o).sends) ==> x in Owners(ch.sends)
    ensures forall x :: x in Withdraw(ch, o).receives ==> x in ch.receives
  {
    RemoveSendIsRemoval(ch.sends, o);
  }

  lemma CleanupCase(w: World, t: nat, i: nat)
    requires Inv(w) && t < |w.desk.calls| && SelectCall(t) in w.reg.fired && i < |CasesOf(w.desk, t)|
    requires forall c :: 0 <= c < |w.chans| ==> Swept(w.chans[c], t, i)
    ensures var c := CasesOf(w.desk, t)[i].ch;
            && c < |w.chans|
            && var w' := SetChan(w, c, Withdraw(w.chans[c], Case(t, i, c)), w.reg);
               Inv(w') && forall d :: 0 <= d < |w'.chans| ==> Swept(w'.chans[d], t, i + 1)
  {
    assert CasesInRange(CasesOf(w.desk, t), |w.chans|);
    var c := CasesOf(w.desk, t)[i].ch;
    var o, ch := Case(t, i, c), w.chans[c];
    var ch' := Withdraw(ch, o);
    assert ChanInv(c, ch, w.reg) && KindOK(w.futures, c, ch) && QueueOK(w.desk, ch);
    WithdrawShape(ch, o);
    WithdrawKeeps(c, ch, w.reg, o);
    ShiftKeepsInv(w, c, ch', None);
    var chans' := w.chans[c := ch'];
    forall d | 0 <= d < |chans'| ensures Swept(chans'[d], t, i + 1) {
      assert Swept(w.chans[d], t, i) && ChanInv(d, w.chans[d], w.reg) && QueueOK(w.desk, w.chans[d]);
      SweptFurther(w.desk, t, i, d, w.chans[d], chans'[d]);
    }
  }

  /** The only callbacks for case `i` of a call are on that case's channel. */
  lemma SweptFurther(d: Desk, t: nat, i: nat, c: nat, ch: Chan, ch': Chan)
    requires Known(d, t) && i < |CasesOf(d, t)| && QueueOK(d, ch) && AtHome(c, ch) && Swept(ch, t, i)
    requires forall o :: o in Owners(ch'.sends) ==> o in Owners(ch.sends)
    requires forall o :: o in ch'.receives ==> o in ch.receives
    requires CasesOf(d, t)[i].ch == c ==> Case(t, i, c) !in Owners(ch'.sends) && Case(t, i, c) !in ch'.receives
    ensures Swept(ch', t, i + 1)
  {
    forall o | o in Owners(ch'.sends) && o.Case? && o.token == t ensures o.branch >= i + 1 {
      assert SenderOK(d, o) && o.ch == c;
    }
    forall o | o in ch'.receives && o.Case? && o.token == t ensures o.branch >= i + 1 {
      assert ReceiverOK(d, o) && o.ch == c;
    }
  }

  lemma {:induction false} CleanupKeepsInv(w: World, t: nat, i: nat)
    requires Inv(w) && t < |w.desk.calls| && SelectCall(t) in w.reg.fired && i <= |CasesOf(w.desk, t)|
    requires forall c :: 0 <= c < |w.chans| ==> Swept(w.chans[c], t, i)
    ensures Inv(Cleanup(w, t, i))
    ensures forall c :: 0 <= c < |w.chans| ==> Swept(Cleanup(w, t, i).chans[c], t, |CasesOf(w.desk, t)|)
    decreases |CasesOf(w.desk, t)| - i
  {
    if i < |CasesOf(w.desk, t)| {
      CleanupCase(w, t, i);
      var c := CasesOf(w.desk, t)[i].ch;
      CleanupKeepsInv(SetChan(w, c, Withdraw(w.chans[c], Case(t, i, c)), w.reg), t, i + 1);
    }
  }

  lemma ReturnedQueue(d: Desk, t: nat, phase: Phase, ch: Chan)
    requires Known(d, t) && QueueOK(d, ch) && Swept(ch, t, |CasesOf(d, t)|)
    ensures QueueOK(SetPhase(d, t, phase), ch)
  {
    var d' := SetPhase(d, t, phase);
    forall o | o in Owners(ch.sends) ensures SenderOK(d', o) {
      assert SenderOK(d, o);
      assert o.Case? ==> o.token != t && CasesOf(d', o.token) == CasesOf(d, o.token);
    }
    forall o | o in ch.receives ensures ReceiverOK(d', o) {
      assert ReceiverOK(d, o);
      assert o.Case? ==> o.token != t && CasesOf(d', o.token) == CasesOf(d, o.token);
    }
  }

  lemma ReturnCall(w: World, t: nat, u: nat)
    requires Known(w.desk, t) && w.desk.calls[t].phase.Running? && Known(w.desk, u) && CallOK(w.desk, w.chans, w.reg, u)
    requires SelectCall(u) in w.reg.fired ==> KeyOf(w.reg.fired[SelectCall(u)].owner) == SelectCall(u)
    ensures var d' := SetPhase(w.desk, t, Returned(w.desk.calls[t].phase.branch));
            Known(d', u) && CallOK(d', w.chans, w.reg, u)
  {
  }

  lemma ReturnHistory(w: World, t: nat)
    requires History(w) && t < |w.desk.calls| && w.desk.calls[t].phase.Running?
    ensures History(w.(desk := SetPhase(w.desk, t, Returned(w.desk.calls[t].phase.branch))))
  {
    FuturesOnceStays(w.desk, SetPhase(w.desk, t, Returned(w.desk.calls[t].phase.branch)), w.ran);
  }

  lemma ReturnSwept(w: World, t: nat)
    requires Inv(w) && t < |w.desk.calls| && w.desk.calls[t].phase.Running?
    requires forall c :: 0 <= c < |w.chans| ==> Swept(w.chans[c], t, |CasesOf(w.desk, t)|)
    ensures Inv(w.(desk := SetPhase(w.desk, t, Returned(w.desk.calls[t].phase.branch))))
  {
    var phase := Returned(w.desk.calls[t].phase.branch);
    var d' := SetPhase(w.desk, t, phase);
    forall c | 0 <= c < |w.chans| ensures QueueOK(d', w.chans[c]) {
      assert QueueOK(w.desk, w.chans[c]) && Swept(w.chans[c], t, |CasesOf(w.desk, t)|);
      ReturnedQueue(w.desk, t, phase, w.chans[c]);
    }
    forall u | 0 <= u < |d'.calls| ensures Known(d', u) && CallOK(d', w.chans, w.reg, u) {
      ReturnCall(w, t, u);
    }
    ReturnHistory(w, t);
  }

  lemma ReturnKeepsInv(w: World, t: nat)
    requires Inv(w) && Enabled(w, Return(t))
    ensures Inv(Step(w, Return(t)))
  {
    assert CallOK(w.desk, w.chans, w.reg, t);
    CleanupKeepsInv(w, t, 0);
    ReturnSwept(Cleanup(w, t, 0), t);
  }

  // ---------------------------------------------------------------- every run

  lemma StepKeepsInv(w: World, op: Op)
    requires Inv(w) && Enabled(w, op)
    ensures Inv(Step(w, op))
  {
    match op
    case Send(c, v) =>
      BumpKeepsInv(w);
      FreshPlain(w, c);
      SendByKeepsInv(Bump(w), c, v, Some(Plain(w.desk.next, c)));
    case SendAsync(c, v) => SendByKeepsInv(w, c, v, None);
    case Receive(c) =>
      BumpKeepsInv(w);
      FreshPlain(w, c);
      ReceiveByKeepsInv(Bump(w), c, Some(Plain(w.desk.next, c)));
    case ReceiveAsync(c) => ReceiveByKeepsInv(w, c, None);
    case PeekSignals(c) => PeekAtKeepsInv(w, c);
    case GetFuture(c) =>
      BumpKeepsInv(w);
      FreshPlain(w, c);
      ReceiveByKeepsInv(Bump(w), c, Some(Plain(w.desk.next, c)));
    case SetFuture(c) => SetFutureKeepsInv(w, c);
    case Select(s) =>
      AddCallKeepsInv(w, s);
      TryCasesKeepsInv(AddCall(w, s), |w.desk.calls|, 0);
    case Resume(t) => ResumeKeepsInv(w, t);
    case Return(t) => ReturnKeepsInv(w, t);
  }

  lemma {:induction false} RunKeepsInv(w: World, ops: seq<Op>)
    requires Inv(w)
    ensures Inv(Run(w, ops))
    decreases |ops|
  {
    if ops != [] {
      RunKeepsInv(w, ops[..|ops| - 1]);
      var w', op := Run(w, ops[..|ops| - 1]), ops[|ops| - 1];
      if Enabled(w', op) { StepKeepsInv(w', op); }
    }
  }
}
