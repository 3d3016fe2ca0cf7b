/**
 Workflow channels: buffer, queues of blocked senders and receivers, and a prefetch slot.

 A blocked operation is a callback in a queue. A callback of a plain Send or Receive always
 accepts. A callback of a Select declines once that Select has committed to some case, so a
 queue may hold dead callbacks. The registry records which call a callback has fired for.
 */
module Channels {
  import opened Common

  type Value = int

  /** Whose callback it is, and on which channel it is queued. */
  datatype Owner = Plain(token: nat, ch: nat) | Case(token: nat, branch: nat, ch: nat)

  /** The blocked call behind a callback: the cases of one Select share theirs. */
  datatype Key = PlainCall(token: nat, ch: nat) | SelectCall(token: nat)

  function KeyOf(o: Owner): Key {
    match o
    case Plain(token, ch) => PlainCall(token, ch)
    case Case(token, _, _) => SelectCall(token)
  }

  /** A callback that accepted, with the value it was given if it was a receive callback. */
  datatype Fired = Fired(owner: Owner, value: Option<Value>)

  datatype Registry = Registry(fired: map<Key, Fired>, order: seq<Key>)

  function Fire(reg: Registry, o: Owner, v: Option<Value>): Registry {
    Registry(reg.fired[KeyOf(o) := Fired(o, v)], reg.order + [KeyOf(o)])
  }

  /** What the callback function returns when it is called. */
  predicate Accepts(reg: Registry, o: Owner) { o.Plain? || KeyOf(o) !in reg.fired }

  datatype SendCb = SendCb(owner: Owner, value: Value)

  /** A value sent: by whom, when the sender had to wait. */
  datatype Entry = Entry(owner: Option<Owner>, value: Value)

  /**
   The history of a channel.
   `log`: every value sent or offered, in order. `base`: those a sender is done with.
   `out`: values that left the queue. `got`: values handed to a receiver.
   `lost`: prefetched values overwritten. `flying`: Selects that accepted a value and have not resumed.
   */
  datatype Book = Book(
    log: seq<Entry>,
    base: seq<Entry>,
    out: seq<Value>,
    got: seq<Value>,
    lost: seq<Value>,
    flying: seq<nat>)

  datatype Chan = Chan(
    size: nat,
    closed: bool,
    recValue: Option<Value>,
    buffer: seq<Value>,
    sends: seq<SendCb>,
    receives: seq<Owner>,
    book: Book)

  function Open(size: nat): Chan { Chan(size, false, None, [], [], [], Book([], [], [], [], [], [])) }

  function Owners(sends: seq<SendCb>): seq<Owner> {
    seq(|sends|, i requires 0 <= i < |sends| => sends[i].owner)
  }

  /** The first callback that accepts; everything in front of it is popped and dropped. */
  function FirstAccepting(os: seq<Owner>, reg: Registry): (i: nat)
    ensures i <= |os|
    ensures forall j :: 0 <= j < i ==> !Accepts(reg, os[j])
    ensures i < |os| ==> Accepts(reg, os[i])
  {
    if os == [] || Accepts(reg, os[0]) then 0 else 1 + FirstAccepting(os[1..], reg)
  }

  datatype Unblocked = Unblocked(cb: Option<SendCb>, ch: Chan, reg: Registry)

  /** Pop blocked senders until one accepts. */
  function Unblock(ch: Chan, reg: Registry): Unblocked {
    var i := FirstAccepting(Owners(ch.sends), reg);
    if i < |ch.sends| then
      var s := ch.sends[i];
      var book := ch.book.(base := ch.book.base + [Entry(Some(s.owner), s.value)]);
      Unblocked(Some(s), ch.(sends := ch.sends[i + 1..], book := book), Fire(reg, s.owner, None))
    else
      Unblocked(None, ch.(sends := []), reg)
  }

  datatype Received = Received(value: Option<Value>, more: bool, ch: Chan, reg: Registry)

  function TakeOut(ch: Chan, v: Value): Chan { ch.(book := ch.book.(out := ch.book.out + [v])) }

  /** `receiveAsyncImpl`: prefetch slot, then buffer, then blocked senders, else wait. */
  function ReceiveImpl(ch: Chan, reg: Registry, callback: Option<Owner>): Received {
    if ch.recValue.Some? then
      Received(ch.recValue, true, ch.(recValue := None), reg)
    else if ch.buffer != [] then
      var u, v := Unblock(ch, reg), ch.buffer[0];
      var moved := if u.cb.Some? then [u.cb.value.value] else [];
      Received(Some(v), true, TakeOut(u.ch.(buffer := ch.buffer[1..] + moved), v), u.reg)
    else if ch.closed then
      Received(None, false, ch, reg)
    else
      var u := Unblock(ch, reg);
      if u.cb.Some? then
        Received(Some(u.cb.value.value), true, TakeOut(u.ch, u.cb.value.value), u.reg)
      else if callback.Some? then
        Received(None, true, u.ch.(receives := ch.receives + [callback.value]), u.reg)
      else
        Received(None, true, u.ch, u.reg)
  }

  datatype Sent = Sent(ok: bool, ch: Chan, reg: Registry)

  /** `sendAsyncImpl` on an open channel: blocked receivers, then buffer, else wait. */
  function SendImpl(ch: Chan, reg: Registry, v: Value, callback: Option<Owner>): Sent {
    var i := FirstAccepting(ch.receives, reg);
    var b, done := ch.book, Entry(None, v);
    if i < |ch.receives| then
      var o := ch.receives[i];
      var book := b.(log := b.log + [done], base := b.base + [done], out := b.out + [v]);
      var book' := if o.Plain? then book.(got := b.got + [v]) else book.(flying := b.flying + [o.token]);
      Sent(true, ch.(receives := ch.receives[i + 1..], book := book'), Fire(reg, o, Some(v)))
    else if |ch.buffer| < ch.size then
      var book := b.(log := b.log + [done], base := b.base + [done]);
      Sent(true, ch.(receives := [], buffer := ch.buffer + [v], book := book), reg)
    else if callback.Some? then
      var book := b.(log := b.log + [Entry(callback, v)]);
      Sent(false, ch.(receives := [], sends := ch.sends + [SendCb(callback.value, v)], book := book), reg)
    else
      Sent(false, ch.(receives := []), reg)
  }

  function HandOver(ch: Chan, v: Value): Chan { ch.(book := ch.book.(got := ch.book.got + [v])) }

  /** Put a value into the prefetch slot; one that is already there is gone. */
  function Prefetch(ch: Chan, v: Value): Chan {
    ch.(recValue := Some(v),
        book := ch.book.(lost := ch.book.lost + if ch.recValue.Some? then [ch.recValue.value] else []))
  }

  function RemoveFirst<T(==)>(s: seq<T>, x: T): (r: seq<T>)
    ensures forall y :: y in r ==> y in s
    ensures forall y :: y in s && y != x ==> y in r
    ensures |r| <= |s|
  {
    if s == [] then [] else if s[0] == x then s[1..] else [s[0]] + RemoveFirst(s[1..], x)
  }

  function RemoveSend(s: seq<SendCb>, o: Owner): (r: seq<SendCb>)
    ensures forall y :: y in r ==> y in s
    ensures forall y :: y in s && y.owner != o ==> y in r
  {
    if s == [] then [] else if s[0].owner == o then s[1..] else [s[0]] + RemoveSend(s[1..], o)
  }

  /** A Select resumes with the value its callback on this channel had accepted. */
  function Land(ch: Chan, t: nat, v: Value): Chan {
    Prefetch(ch, v).(book := Prefetch(ch, v).book.(flying := RemoveFirst(ch.book.flying, t)))
  }

  /** Take a Select's callback off the channel. */
  function Withdraw(ch: Chan, o: Owner): Chan {
    ch.(sends := RemoveSend(ch.sends, o), receives := RemoveFirst(ch.receives, o))
  }

  /** Call the callbacks in a queue, in order, without popping them: what closing a channel does. */
  function FireAll(reg: Registry, os: seq<Owner>): Registry
    decreases os
  {
    if os == [] then reg
    else FireAll(if Accepts(reg, os[0]) then Fire(reg, os[0], None) else reg, os[1..])
  }
}
