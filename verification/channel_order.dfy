/**
 Channels used without Select: whatever the interleaving of sends, receives and peeks, the
 values received are the values sent, in order. And what goes wrong with Select.
 */
module ChannelOrder {
  import opened Common
  import opened Channels
  import opened ChannelLedger
  import opened Selectors
  import opened SelectInvariant
  import opened SelectRuns
  import opened ChannelTheorems

  /** The values sent to a channel in a run: every Send, and every SendAsync that was accepted. */
  function SentBy(w: World, op: Op, c: nat): seq<Value> {
    if !Enabled(w, op) then []
    else if op.Send? && op.c == c then [op.v]
    else if op.SendAsync? && op.c == c && SendImpl(w.chans[c], w.reg, op.v, None).ok then [op.v]
    else []
  }

  function SentTo(w: World, ops: seq<Op>, c: nat): seq<Value>
    decreases |ops|
  {
    if ops == [] then []
    else SentTo(w, ops[..|ops| - 1], c) + SentBy(Run(w, ops[..|ops| - 1]), ops[|ops| - 1], c)
  }

  ghost predicate AllPlain(ch: Chan) {
    && (forall o :: o in Owners(ch.sends) ==> o.Plain?)
    && (forall o :: o in ch.receives ==> o.Plain?)
    && (forall e :: e in ch.book.log && e.owner.Some? ==> e.owner.value.Plain?)
  }

  /** Without Selects, what left was handed over, or waits in the prefetch slot as the last to leave. */
  ghost predicate Straight(b: Book, slot: Option<Value>) {
    b.lost == [] && b.flying == [] && b.out == b.got + Taken(slot)
  }

  ghost predicate Calm(ch: Chan) {
    AllPlain(ch) && Straight(ch.book, ch.recValue) && (ch.receives != [] ==> ch.recValue.None?)
  }

  lemma UnblockPlain(ch: Chan, reg: Registry)
    requires AllPlain(ch)
    ensures AllPlain(Unblock(ch, reg).ch) && Unblock(ch, reg).ch.book.log == ch.book.log
    ensures Unblock(ch, reg).ch == ch.(sends := Unblock(ch, reg).ch.sends,
            book := ch.book.(base := Unblock(ch, reg).ch.book.base))
  {
    var i := FirstAccepting(Owners(ch.sends), reg);
    if i < |ch.sends| { OwnersDrop(ch.sends, i + 1); }
  }

  /** A receive keeps the log and takes the value that is next. */
  lemma ReceiveCalm(ch: Chan, reg: Registry, callback: Option<Owner>)
    requires Calm(ch) && Waiting(ch) && (callback.Some? ==> callback.value.Plain?)
    ensures var r := ReceiveImpl(ch, reg, callback);
            && AllPlain(r.ch) && r.ch.book.log == ch.book.log && r.ch.book.got == ch.book.got && r.ch.recValue.None?
            && r.ch.book.lost == [] && r.ch.book.flying == []
            && r.ch.book.out == ch.book.got + Taken(r.value)
            && (r.value.Some? ==> r.ch.receives == [])
  {
    UnblockPlain(ch, reg);
  }

  lemma ReceiveByCalm(ch: Chan, reg: Registry, callback: Option<Owner>)
    requires Calm(ch) && Waiting(ch) && (callback.Some? ==> callback.value.Plain?)
    ensures var r := ReceiveImpl(ch, reg, callback);
            var ch' := if r.value.Some? then HandOver(r.ch, r.value.value) else r.ch;
            Calm(ch') && ch'.book.log == ch.book.log
  {
    ReceiveCalm(ch, reg, callback);
  }

  lemma PeekCalm(ch: Chan, reg: Registry)
    requires Calm(ch) && Waiting(ch)
    ensures var r := ReceiveImpl(ch, reg, None);
            var ch' := if r.value.Some? then Prefetch(r.ch, r.value.value) else r.ch;
            Calm(ch') && ch'.book.log == ch.book.log
  {
    ReceiveCalm(ch, reg, None);
  }

  lemma SendCalm(ch: Chan, reg: Registry, v: Value, callback: Option<Owner>)
    requires Calm(ch) && (callback.Some? ==> callback.value.Plain?)
    ensures var r := SendImpl(ch, reg, v, callback);
            Calm(r.ch) && Values(r.ch.book.log) == Values(ch.book.log) + if r.ok || callback.Some? then [v] else []
  {
    var i, r := FirstAccepting(ch.receives, reg), SendImpl(ch, reg, v, callback);
    ValuesAppend(ch.book.log, Entry(None, v));
    if callback.Some? {
      ValuesAppend(ch.book.log, Entry(callback, v));
      assert Owners(ch.sends + [SendCb(callback.value, v)]) == Owners(ch.sends) + [callback.value];
    }
    if i < |ch.receives| {
      assert Straight(r.ch.book, r.ch.recValue);
    }
  }

  ghost predicate AllCalm(w: World) {
    w.desk.calls == [] && forall c :: 0 <= c < |w.chans| ==> Calm(w.chans[c])
  }

  predicate IsOn(op: Op, c: nat) {
    match op
    case Select(_) => false
    case Resume(_) => false
    case Return(_) => false
    case _ => op.c == c
  }

  /** The channel an operation works on is the only one it changes. */
  lemma StepElsewhere(w: World, op: Op, c: nat)
    requires w.desk.calls == [] && Enabled(w, op) && !op.Select? && c < |w.chans| && !IsOn(op, c)
    ensures c < |Step(w, op).chans| && Step(w, op).chans[c] == w.chans[c] && SentBy(w, op, c) == []
  {
  }

  lemma SendStepCalm(w: World, op: Op, c: nat)
    requires Enabled(w, op) && c < |w.chans| && IsOn(op, c) && (op.Send? || op.SendAsync?) && Calm(w.chans[c])
    ensures var w' := Step(w, op);
            c < |w'.chans| && Calm(w'.chans[c]) &&
                Values(w'.chans[c].book.log) == Values(w.chans[c].book.log) + SentBy(w, op, c)
  {
    SendCalm(w.chans[c], w.reg, op.v, if op.Send? then Some(Plain(w.desk.next, c)) else None);
  }

  lemma ReceiveStepCalm(w: World, op: Op, c: nat)
    requires Enabled(w, op) && c < |w.chans| && IsOn(op, c) && !op.Send? && !op.SendAsync?
    requires Calm(w.chans[c]) && Waiting(w.chans[c])
    ensures var w' := Step(w, op);
            c < |w'.chans| && Calm(w'.chans[c]) && w'.chans[c].book.log == w.chans[c].book.log && SentBy(w, op, c) == []
  {
    var ch, mine := w.chans[c], Some(Plain(w.desk.next, c));
    match op
    case Receive(_) => ReceiveByCalm(ch, w.reg, mine);
    case ReceiveAsync(_) => ReceiveByCalm(ch, w.reg, None);
    case PeekSignals(_) => PeekCalm(ch, w.reg);
    case GetFuture(_) => ReceiveByCalm(ch, w.reg, mine);
    case SetFuture(_) =>
  }

  /** One step of a run without Selects, seen from one channel. */
  lemma CalmStep(w: World, op: Op, c: nat)
    requires Inv(w) && AllCalm(w) && Enabled(w, op) && !op.Select? && c < |w.chans|
    ensures var w' := Step(w, op);
            && c < |w'.chans| && Calm(w'.chans[c])
            && Values(w'.chans[c].book.log) == Values(w.chans[c].book.log) + SentBy(w, op, c)
  {
    assert Calm(w.chans[c]) && Waiting(w.chans[c]) by { assert ChanInv(c, w.chans[c], w.reg); }
    if !IsOn(op, c) {
      StepElsewhere(w, op, c);
    } else if op.Send? || op.SendAsync? {
      SendStepCalm(w, op, c);
    } else {
      ReceiveStepCalm(w, op, c);
    }
  }

  lemma {:induction false} StaysCalm(w: World, ops: seq<Op>)
    requires Start(w) && forall op :: op in ops ==> !op.Select?
    ensures Inv(Run(w, ops)) && AllCalm(Run(w, ops)) && |Run(w, ops).chans| == |w.chans|
    decreases |ops|
  {
    StartInv(w);
    RunKeepsInv(w, ops);
    if ops == [] {
      assert forall c :: 0 <= c < |w.chans| ==> Owners(w.chans[c].sends) == [];
    } else {
      StaysCalm(w, ops[..|ops| - 1]);
      var w1, op := Run(w, ops[..|ops| - 1]), ops[|ops| - 1];
      if Enabled(w1, op) { AllCalmStep(w1, op); }
    }
  }

  lemma AllCalmStep(w: World, op: Op)
    requires Inv(w) && AllCalm(w) && Enabled(w, op) && !op.Select?
    ensures AllCalm(Step(w, op)) && |Step(w, op).chans| == |w.chans|
  {
    var w' := Step(w, op);
    StepSize(w, op);
    forall c | 0 <= c < |w.chans| ensures Calm(w'.chans[c]) { CalmStep(w, op, c); }
  }

  lemma StepSize(w: World, op: Op)
    requires Enabled(w, op) && w.desk.calls == [] && !op.Select?
    ensures |Step(w, op).chans| == |w.chans| && Step(w, op).desk.calls == []
  {
  }

  lemma {:induction false} LogIsSendOrder(w: World, ops: seq<Op>, c: nat)
    requires Start(w) && c < |w.chans| && forall op :: op in ops ==> !op.Select?
    ensures c < |Run(w, ops).chans| && Values(Run(w, ops).chans[c].book.log) == SentTo(w, ops, c)
    decreases |ops|
  {
    if ops != [] {
      LogIsSendOrder(w, ops[..|ops| - 1], c);
      StaysCalm(w, ops[..|ops| - 1]);
      var w1, op := Run(w, ops[..|ops| - 1]), ops[|ops| - 1];
      if Enabled(w1, op) { CalmStep(w1, op, c); }
    } else {
      assert w.chans[c].book.log == [];
    }
  }

  lemma {:induction false} PlainStands(es: seq<Entry>, reg: Registry)
    requires forall e :: e in es && e.owner.Some? ==> e.owner.value.Plain?
    requires forall k :: k in reg.fired ==> KeyOf(reg.fired[k].owner) == k
    ensures Standing(es, reg) == es
  {
    AllStanding(es, reg);
  }

  /**
   Delivered, prefetched, buffered and waiting values make up the send order: peeking at
   signals loses and reorders nothing.
   */
  lemma DeliveredInSendOrder(w: World, ops: seq<Op>, c: nat)
    requires Start(w) && c < |w.chans| && forall op :: op in ops ==> !op.Select?
    ensures c < |Run(w, ops).chans|
    ensures var ch := Run(w, ops).chans[c];
            ch.book.got + Slot(ch) + ch.buffer + Values(Entries(ch.sends)) == SentTo(w, ops, c)
  {
    StaysCalm(w, ops);
    LogIsSendOrder(w, ops, c);
    ValuesLeaveInSendOrder(w, ops, c);
    AllStand(Run(w, ops), c);
  }

  /** Plain sends always stand. */
  lemma AllStand(w: World, c: nat)
    requires RegOK(w.reg, w.desk) && c < |w.chans| && AllPlain(w.chans[c])
    ensures Standing(w.chans[c].book.log, w.reg) == w.chans[c].book.log
    ensures Standing(Entries(w.chans[c].sends), w.reg) == Entries(w.chans[c].sends)
  {
    var ch := w.chans[c];
    PlainStands(ch.book.log, w.reg);
    assert forall i :: 0 <= i < |ch.sends| ==> Owners(ch.sends)[i] == ch.sends[i].owner;
    PlainStands(Entries(ch.sends), w.reg);
  }

  // ---------------------------------------------------------------- with Select

  lemma RunOne(w: World, ops: seq<Op>, op: Op)
    requires Enabled(Run(w, ops), op)
    ensures Run(w, ops + [op]) == Step(Run(w, ops), op)
  {
    assert (ops + [op])[..|ops + [op]| - 1] == ops;
  }

  lemma RunFirst(w: World, op: Op)
    requires Enabled(w, op)
    ensures Run(w, [op]) == Step(w, op)
  {
    assert [op][..0] == [];
  }

  function OneChannel(ch: Chan, reg: Registry, cases: seq<SelCase>, calls: seq<Call>, ran: seq<Ran>): World {
    World([ch], {}, reg, Desk([cases], calls, 0), ran)
  }

  const SELECT := Case(0, 0, 0)

  /** A Select that waits on an empty channel. */
  function Waiter(): World {
    OneChannel(Open(2).(receives := [SELECT]), Registry(map[], []), [RecvCase(0)], [Call(0, Blocked)], [])
  }

  lemma SelectWaits(w: World)
    requires w == OneChannel(Open(2), Registry(map[], []), [RecvCase(0)], [], [])
    ensures Start(w) && Run(w, [Select(0)]) == Waiter()
  {
    RunFirst(w, Select(0));
    var w1, ch := AddCall(w, 0), Open(2);
    assert Owners(ch.sends) == [] && [] + [Call(0, Blocked)] == [Call(0, Blocked)] && [] + [SELECT] == [SELECT];
    assert ReceiveImpl(ch, w.reg, Some(SELECT)).ch == ch.(receives := [SELECT]);
    assert w1.chans[0 := ch.(receives := [SELECT])] == Waiter().chans;
    assert TryCase(w1, 0, 0) == Waiter();
    assert TryCases(w1, 0, 0) == TryCases(Waiter(), 0, 1) == Waiter();
  }

  /**
   The channel after it handed `a` to the Select and buffered `b`, and after a peek moved `b` to the
   prefetch slot.
   */
  function Accepted(a: Value): World {
    var e := Entry(None, a);
    OneChannel(Open(2).(book := Book([e], [e], [a], [], [], [0])),
               Registry(map[SelectCall(0) := Fired(SELECT, Some(a))], [SelectCall(0)]), [RecvCase(0)],
                   [Call(0, Blocked)], [])
  }

  function Buffered(a: Value, b: Value): World {
    var es := [Entry(None, a), Entry(None, b)];
    var ch := Open(2).(buffer := [b], book := Book(es, es, [a], [], [], [0]));
    Accepted(a).(chans := [ch])
  }

  function Peeked(a: Value, b: Value): World {
    var es := [Entry(None, a), Entry(None, b)];
    Accepted(a).(chans := [Open(2).(recValue := Some(b), book := Book(es, es, [a, b], [], [], [0]))])
  }

  lemma SelectAccepts(a: Value)
    ensures SendBy(Waiter(), 0, a, None) == Accepted(a)
  {
    var ch, e := Open(2).(receives := [SELECT]), Entry(None, a);
    var r := SendImpl(ch, Registry(map[], []), a, None);
    assert FirstAccepting([SELECT], Registry(map[], [])) == 0 && [SELECT][1..] == [];
    assert [] + [e] == [e] && [] + [a] == [a] && [] + [0] == [0] && [] + [SelectCall(0)] == [SelectCall(0)];
    assert r.ch == Accepted(a).chans[0] && r.reg == Accepted(a).reg;
    assert Waiter().chans[0 := r.ch] == [r.ch];
  }

  lemma SignalBuffers(a: Value, b: Value)
    ensures SendBy(Accepted(a), 0, b, None) == Buffered(a, b)
  {
    var ch, e := Accepted(a).chans[0], Entry(None, b);
    var r := SendImpl(ch, Accepted(a).reg, b, None);
    assert [Entry(None, a)] + [e] == [Entry(None, a), e] && [] + [b] == [b];
    assert r.ch == Buffered(a, b).chans[0];
    assert Accepted(a).chans[0 := r.ch] == [r.ch];
  }

  lemma PeekPrefetches(a: Value, b: Value)
    ensures PeekAt(Buffered(a, b), 0) == Peeked(a, b)
  {
    var ch := Buffered(a, b).chans[0];
    var r := ReceiveImpl(ch, Accepted(a).reg, None);
    assert Owners(ch.sends) == [] && [b][1..] + [] == [] && [a] + [b] == [a, b];
    assert Prefetch(r.ch, b) == Peeked(a, b).chans[0];
    assert Buffered(a, b).chans[0 := Prefetch(r.ch, b)] == [Prefetch(r.ch, b)];
  }

  lemma RunFour(w: World, a: Op, b: Op, c: Op, d: Op)
    requires Enabled(w, a) && Enabled(Step(w, a), b) && Enabled(Step(Step(w, a), b), c)
    requires Enabled(Step(Step(Step(w, a), b), c), d)
    ensures Run(w, [a, b, c, d]) == Step(Step(Step(Step(w, a), b), c), d)
  {
    RunFirst(w, a);
    RunOne(w, [a], b);
    assert [a] + [b] == [a, b];
    RunOne(w, [a, b], c);
    assert [a, b] + [c] == [a, b, c];
    RunOne(w, [a, b, c], d);
    assert [a, b, c] + [d] == [a, b, c, d];
  }

  /**
   A blocked Select accepts a signal, a second signal is buffered, a peek prefetches it, and
   the Select resumes: the second signal is gone.
   */
  lemma PeekBeforeResumeLosesASignal(w: World, a: Value, b: Value)
    requires w == Waiter()
    ensures var w' := Run(w, [SendAsync(0, a), SendAsync(0, b), PeekSignals(0), Resume(0)]);
            |w'.chans| == 1 && w'.chans[0].book.lost == [b] && w'.chans[0].recValue == Some(a) &&
                w'.chans[0].buffer == []
  {
    SelectAccepts(a);
    SignalBuffers(a, b);
    PeekPrefetches(a, b);
    RunFour(w, SendAsync(0, a), SendAsync(0, b), PeekSignals(0), Resume(0));
    assert Step(Peeked(a, b), Resume(0)).chans[0] == Land(Peeked(a, b).chans[0], 0, a);
  }

  /** The first case of such a Select leaves a sender behind. */
  lemma SelfSends(v: Value)
    ensures var r := SendImpl(Open(0), Registry(map[], []), v, Some(SELECT));
            !r.ok && r.reg == Registry(map[], []) && r.ch.sends == [SendCb(SELECT, v)] && r.ch.buffer == [] &&
                r.ch.recValue.None? &&
            !r.ch.closed
  {
    assert [] + [SendCb(SELECT, v)] == [SendCb(SELECT, v)];
  }

  /** The second case receives what the first one offers. */
  lemma SelfReceives(ch: Chan, v: Value, o: Owner)
    requires ch.sends == [SendCb(SELECT, v)] && ch.buffer == [] && ch.recValue.None? && !ch.closed
    ensures var r := ReceiveImpl(ch, Registry(map[], []), Some(o));
            r.value == Some(v) && r.reg.order == [SelectCall(0)]
  {
    assert Owners(ch.sends) == [SELECT];
    assert FirstAccepting([SELECT], Registry(map[], [])) == 0;
    assert [] + [SelectCall(0)] == [SelectCall(0)];
  }

  /** A Select that sends to and receives from one channel accepts its own value and commits twice. */
  lemma SelfSelectCommitsTwice(w: World, v: Value)
    requires w == OneChannel(Open(0), Registry(map[], []), [SendCase(0, v), RecvCase(0)], [], [])
    ensures Run(w, [Select(0)]).reg.order == [SelectCall(0), SelectCall(0)]
  {
    RunFirst(w, Select(0));
    var w1 := AddCall(w, 0);
    var w2 := TryCase(w1, 0, 0);
    SelfSends(v);
    assert w2.desk == w1.desk && w2.reg == w.reg;
    SelfReceives(w2.chans[0], v, Case(0, 1, 0));
    var w3 := TryCase(w2, 0, 1);
    assert w3.reg.order == [SelectCall(0)] + [SelectCall(0)];
    assert TryCases(w1, 0, 0) == TryCases(w2, 0, 1) == w3;
  }
}
