/**
 What every channel operation keeps, whatever Selects its callbacks belong to: the waiting
 discipline, first-in first-out order of the values that leave, and conservation of values.
 */
module ChannelLedger {
  import opened Common
  import opened Channels

  // ---------------------------------------------------------------- the send order

  /** A sent value stands unless its sender was a Select that committed to another case. */
  predicate Stands(e: Entry, reg: Registry) {
    e.owner.Some? && KeyOf(e.owner.value) in reg.fired ==> reg.fired[KeyOf(e.owner.value)].owner == e.owner.value
  }

  function Standing(es: seq<Entry>, reg: Registry): seq<Entry> {
    if es == [] then [] else (if Stands(es[0], reg) then [es[0]] else []) + Standing(es[1..], reg)
  }

  function Values(es: seq<Entry>): seq<Value> {
    seq(|es|, i requires 0 <= i < |es| => es[i].value)
  }

  function Entries(sends: seq<SendCb>): seq<Entry> {
    seq(|sends|, i requires 0 <= i < |sends| => Entry(Some(sends[i].owner), sends[i].value))
  }

  lemma {:induction false} StandingAppends(a: seq<Entry>, b: seq<Entry>, reg: Registry)
    ensures Standing(a + b, reg) == Standing(a, reg) + Standing(b, reg)
  {
    if a == [] {
      assert a + b == b;
    } else {
      assert (a + b)[1..] == a[1..] + b;
      StandingAppends(a[1..], b, reg);
    }
  }

  ghost predicate Extends(reg: Registry, reg': Registry) {
    forall k :: k in reg.fired ==> k in reg'.fired && reg'.fired[k] == reg.fired[k]
  }

  /** What stands later stood before. */
  lemma {:induction false} StandingNarrows(es: seq<Entry>, reg: Registry, reg': Registry)
    requires Extends(reg, reg')
    ensures Standing(es, reg') == Standing(Standing(es, reg), reg')
  {
    if es != [] {
      StandingNarrows(es[1..], reg, reg');
      if Stands(es[0], reg) {
        assert ([es[0]] + Standing(es[1..], reg))[1..] == Standing(es[1..], reg);
      } else {
        assert [] + Standing(es[1..], reg) == Standing(es[1..], reg);
      }
    }
  }

  lemma {:induction false} NoneStanding(es: seq<Entry>, reg: Registry)
    requires forall e :: e in es ==> !Stands(e, reg)
    ensures Standing(es, reg) == []
  {
    if es != [] { NoneStanding(es[1..], reg); }
  }

  lemma {:induction false} AllStanding(es: seq<Entry>, reg: Registry)
    requires forall e :: e in es ==> Stands(e, reg)
    ensures Standing(es, reg) == es
  {
    if es != [] { AllStanding(es[1..], reg); }
  }

  // ---------------------------------------------------------------- the invariant

  /** Who may wait: a sender only at a full buffer, a receiver only at an empty channel. */
  ghost predicate Waiting(ch: Chan) {
    && |ch.buffer| <= ch.size
    && (ch.sends != [] ==> |ch.buffer| == ch.size)
    && (ch.receives != [] ==> ch.buffer == [] && ch.sends == [])
  }

  ghost predicate NoRepeats<T(!new)>(s: seq<T>) { forall i, j :: 0 <= i < j < |s| ==> s[i] != s[j] }

  /** Callbacks sit on their own channel, once each. */
  ghost predicate AtHome(c: nat, ch: Chan) {
    && (forall o :: o in Owners(ch.sends) ==> o.ch == c)
    && (forall o :: o in ch.receives ==> o.ch == c)
    && NoRepeats(Owners(ch.sends)) && NoRepeats(ch.receives)
  }

  /** A queued callback has not fired; only a Select's can be dead. */
  ghost predicate Unfired(ch: Chan, reg: Registry) {
    && (forall o :: o in Owners(ch.sends) && KeyOf(o) in reg.fired ==> o.Case? && reg.fired[KeyOf(o)].owner != o)
    && (!ch.closed ==> forall o :: o in ch.receives && KeyOf(o) in reg.fired ==> o.Case?)
  }

  /** A value that is done with has a sender that committed to it. */
  ghost predicate Settled(es: seq<Entry>, reg: Registry) {
    forall e :: e in es && e.owner.Some? ==>
      KeyOf(e.owner.value) in reg.fired && reg.fired[KeyOf(e.owner.value)].owner == e.owner.value
  }

  /** The standing sends are the values that left, then the buffer, then the waiting senders. */
  ghost predicate InOrder(ch: Chan, reg: Registry) {
    && Standing(ch.book.log, reg) == Standing(ch.book.base + Entries(ch.sends), reg)
    && Settled(ch.book.base, reg)
    && Values(ch.book.base) == ch.book.out + ch.buffer
  }

  ghost predicate Airborne(ts: seq<nat>, reg: Registry) {
    forall t :: t in ts ==> SelectCall(t) in reg.fired && reg.fired[SelectCall(t)].value.Some?
  }

  function Carried(ts: seq<nat>, reg: Registry): seq<Value>
    requires Airborne(ts, reg)
  {
    seq(|ts|, i requires 0 <= i < |ts| => assert ts[i] in ts; reg.fired[SelectCall(ts[i])].value.value)
  }

  function Slot(ch: Chan): seq<Value> { if ch.recValue.Some? then [ch.recValue.value] else [] }

  /** Every value that left was handed over, lost, is with a Select about to resume, or is in `held`. */
  ghost predicate Balanced(b: Book, reg: Registry, held: seq<Value>) {
    && Airborne(b.flying, reg)
    && multiset(b.out) == multiset(b.got) + multiset(b.lost) + multiset(Carried(b.flying, reg)) + multiset(held)
  }

  ghost predicate Conserved(ch: Chan, reg: Registry) { Balanced(ch.book, reg, Slot(ch)) }

  ghost predicate ChanInv(c: nat, ch: Chan, reg: Registry) {
    Waiting(ch) && AtHome(c, ch) && Unfired(ch, reg) && InOrder(ch, reg) && Conserved(ch, reg)
  }

  // ---------------------------------------------------------------- a callback fires somewhere

  lemma BalancedExtends(b: Book, reg: Registry, reg': Registry, held: seq<Value>)
    requires Balanced(b, reg, held) && Extends(reg, reg')
    ensures Balanced(b, reg', held)
  {
    assert Carried(b.flying, reg') == Carried(b.flying, reg);
  }

  lemma InOrderExtends(ch: Chan, reg: Registry, reg': Registry)
    requires InOrder(ch, reg) && Extends(reg, reg')
    ensures InOrder(ch, reg')
  {
    StandingNarrows(ch.book.log, reg, reg');
    StandingNarrows(ch.book.base + Entries(ch.sends), reg, reg');
  }

  /** A callback that fires on another channel, or off every queue, leaves this channel in order. */
  lemma FiredElsewhere(c: nat, ch: Chan, reg: Registry, o: Owner, v: Option<Value>)
    requires ChanInv(c, ch, reg) && KeyOf(o) !in reg.fired
    requires o !in Owners(ch.sends) && (o.Plain? && !ch.closed ==> o !in ch.receives)
    ensures ChanInv(c, ch, Fire(reg, o, v))
  {
    InOrderExtends(ch, reg, Fire(reg, o, v));
    BalancedExtends(ch.book, reg, Fire(reg, o, v), Slot(ch));
  }

  // ---------------------------------------------------------------- a blocked sender gets through

  lemma ValuesAppend(es: seq<Entry>, e: Entry)
    ensures Values(es + [e]) == Values(es) + [e.value]
  {
  }

  /** Dead callbacks in front of a live one do not count as sends. */
  lemma PoppedInOrder(ch: Chan, reg: Registry, i: nat)
    requires Unfired(ch, reg) && i <= |ch.sends|
    requires forall j :: 0 <= j < i ==> !Accepts(reg, ch.sends[j].owner)
    ensures Standing(ch.book.base + Entries(ch.sends), reg) == Standing(ch.book.base + Entries(ch.sends[i..]), reg)
  {
    var dead, rest := Entries(ch.sends[..i]), Entries(ch.sends[i..]);
    assert Entries(ch.sends) == dead + rest;
    forall e | e in dead ensures !Stands(e, reg) {
      var j :| 0 <= j < i && e == dead[j];
      assert Owners(ch.sends)[j] == ch.sends[j].owner;
    }
    NoneStanding(dead, reg);
    StandingAppends(ch.book.base, Entries(ch.sends), reg);
    StandingAppends(dead, rest, reg);
    StandingAppends(ch.book.base, rest, reg);
  }

  lemma PassedInOrder(ch: Chan, reg: Registry, i: nat, reg': Registry)
    requires i < |ch.sends| && Extends(reg, reg')
    requires Standing(ch.book.log, reg) == Standing(ch.book.base + Entries(ch.sends[i..]), reg)
    ensures var base := ch.book.base + [Entry(Some(ch.sends[i].owner), ch.sends[i].value)];
            Standing(ch.book.log, reg') == Standing(base + Entries(ch.sends[i + 1..]), reg')
  {
    var e, rest := Entry(Some(ch.sends[i].owner), ch.sends[i].value), Entries(ch.sends[i + 1..]);
    assert Entries(ch.sends[i..]) == [e] + rest;
    Associative(ch.book.base, [e], rest);
    StandingNarrows(ch.book.log, reg, reg');
    StandingNarrows(ch.book.base + [e] + rest, reg, reg');
  }

  lemma UnblockInOrder(ch: Chan, reg: Registry)
    requires Unfired(ch, reg) && InOrder(ch, reg)
    ensures var u := Unblock(ch, reg);
            && Standing(u.ch.book.log, u.reg) == Standing(u.ch.book.base + Entries(u.ch.sends), u.reg)
            && Settled(u.ch.book.base, u.reg)
            && Values(u.ch.book.base) == ch.book.out + ch.buffer + (if u.cb.Some? then [u.cb.value.value] else [])
  {
    var i, u := FirstAccepting(Owners(ch.sends), reg), Unblock(ch, reg);
    assert forall j :: 0 <= j < i ==> Owners(ch.sends)[j] == ch.sends[j].owner;
    PoppedInOrder(ch, reg, i);
    if i < |ch.sends| {
      assert Owners(ch.sends)[i] == ch.sends[i].owner;
      PassedInOrder(ch, reg, i, u.reg);
      ValuesAppend(ch.book.base, Entry(Some(ch.sends[i].owner), ch.sends[i].value));
    } else {
      assert ch.sends[i..] == [];
    }
  }

  lemma OwnersDrop(sends: seq<SendCb>, i: nat)
    requires i <= |sends|
    ensures Owners(sends[i..]) == Owners(sends)[i..]
  {
  }

  lemma UnblockHome(c: nat, ch: Chan, reg: Registry)
    requires AtHome(c, ch) && Unfired(ch, reg) && (ch.sends != [] ==> ch.receives == [])
    ensures AtHome(c, Unblock(ch, reg).ch) && Unfired(Unblock(ch, reg).ch, Unblock(ch, reg).reg)
  {
    var i, u := FirstAccepting(Owners(ch.sends), reg), Unblock(ch, reg);
    if i < |ch.sends| {
      OwnersDrop(ch.sends, i + 1);
      var os := Owners(ch.sends);
      assert os[i] == ch.sends[i].owner;
      forall o | o in os[i + 1..] ensures o in os && o != os[i] {
      }
    }
  }

  // ---------------------------------------------------------------- receiving

  function Taken(v: Option<Value>): seq<Value> { if v.Some? then [v.value] else [] }

  lemma TakeOutBalanced(b: Book, reg: Registry, held: seq<Value>, v: Value)
    requires Balanced(b, reg, held)
    ensures Balanced(b.(out := b.out + [v]), reg, held + [v])
  {
  }

  lemma UnblockBalanced(ch: Chan, reg: Registry, held: seq<Value>)
    requires Balanced(ch.book, reg, held) && Unfired(ch, reg)
    ensures Balanced(Unblock(ch, reg).ch.book, Unblock(ch, reg).reg, held)
    ensures Extends(reg, Unblock(ch, reg).reg)
  {
    var i, u := FirstAccepting(Owners(ch.sends), reg), Unblock(ch, reg);
    if i < |ch.sends| { assert Owners(ch.sends)[i] == ch.sends[i].owner; }
    BalancedExtends(ch.book, reg, u.reg, held);
    assert u.ch.book.flying == ch.book.flying;
  }

  lemma ReceiveConserved(ch: Chan, reg: Registry, callback: Option<Owner>)
    requires Conserved(ch, reg) && Unfired(ch, reg)
    ensures var r := ReceiveImpl(ch, reg, callback); Balanced(r.ch.book, r.reg, Slot(r.ch) + Taken(r.value))
  {
    var r, u := ReceiveImpl(ch, reg, callback), Unblock(ch, reg);
    if ch.recValue.Some? {
      assert Slot(r.ch) + Taken(r.value) == Slot(ch);
    } else {
      UnblockBalanced(ch, reg, []);
      assert Slot(r.ch) == [];
      if r.value.Some? {
        TakeOutBalanced(u.ch.book, u.reg, [], r.value.value);
        assert [] + [r.value.value] == Slot(r.ch) + Taken(r.value);
        assert r.ch.book == u.ch.book.(out := u.ch.book.out + [r.value.value]) && r.reg == u.reg;
      } else {
        assert Slot(r.ch) + Taken(r.value) == [];
        assert (r.ch.book == u.ch.book && r.reg == u.reg) || (r.ch.book == ch.book && r.reg == reg);
      }
    }
  }

  lemma BufferTurns(out: seq<Value>, buffer: seq<Value>, moved: seq<Value>)
    requires buffer != []
    ensures out + buffer + moved == (out + [buffer[0]]) + (buffer[1..] + moved)
  {
  }

  lemma ReceiveInOrder(c: nat, ch: Chan, reg: Registry, callback: Option<Owner>)
    requires Waiting(ch) && Unfired(ch, reg) && InOrder(ch, reg)
    ensures var r := ReceiveImpl(ch, reg, callback); InOrder(r.ch, r.reg)
  {
    var r, u := ReceiveImpl(ch, reg, callback), Unblock(ch, reg);
    UnblockInOrder(ch, reg);
    if ch.recValue.None? && ch.buffer != [] {
      BufferTurns(ch.book.out, ch.buffer, if u.cb.Some? then [u.cb.value.value] else []);
    }
  }

  /** A call that may be queued: on its own channel, not there yet, not fired. */
  ghost predicate MayWait(c: nat, ch: Chan, reg: Registry, o: Owner) {
    o.ch == c && KeyOf(o) !in reg.fired && o !in Owners(ch.sends) && o !in ch.receives
  }

  lemma ReceiveHome(c: nat, ch: Chan, reg: Registry, callback: Option<Owner>)
    requires Waiting(ch) && AtHome(c, ch) && Unfired(ch, reg)
    requires callback.Some? ==> MayWait(c, ch, reg, callback.value)
    ensures var r := ReceiveImpl(ch, reg, callback); Waiting(r.ch) && AtHome(c, r.ch) && Unfired(r.ch, r.reg)
  {
    UnblockHome(c, ch, reg);
  }

  /** A receive keeps the channel, up to handing over the value it took. */
  ghost predicate KeptBut(c: nat, ch: Chan, reg: Registry, extra: seq<Value>) {
    Waiting(ch) && AtHome(c, ch) && Unfired(ch, reg) && InOrder(ch, reg) &&
    Balanced(ch.book, reg, Slot(ch) + extra)
  }

  lemma ReceiveKeeps(c: nat, ch: Chan, reg: Registry, callback: Option<Owner>)
    requires ChanInv(c, ch, reg) && (callback.Some? ==> MayWait(c, ch, reg, callback.value))
    ensures var r := ReceiveImpl(ch, reg, callback); KeptBut(c, r.ch, r.reg, Taken(r.value))
  {
    ReceiveConserved(ch, reg, callback);
    ReceiveInOrder(c, ch, reg, callback);
    ReceiveHome(c, ch, reg, callback);
  }

  lemma HandOverKeeps(c: nat, ch: Chan, reg: Registry, v: Value)
    requires KeptBut(c, ch, reg, [v])
    ensures ChanInv(c, HandOver(ch, v), reg)
  {
    assert Carried(HandOver(ch, v).book.flying, reg) == Carried(ch.book.flying, reg);
  }

  /** Overwriting a prefetched value is the one way to lose one. */
  lemma PrefetchKeeps(c: nat, ch: Chan, reg: Registry, v: Value)
    requires KeptBut(c, ch, reg, [v])
    ensures ChanInv(c, Prefetch(ch, v), reg)
  {
    assert Carried(Prefetch(ch, v).book.flying, reg) == Carried(ch.book.flying, reg);
  }

  // ---------------------------------------------------------------- sending

  lemma SendHome(c: nat, ch: Chan, reg: Registry, v: Value, callback: Option<Owner>)
    requires Waiting(ch) && AtHome(c, ch) && Unfired(ch, reg) && !ch.closed
    requires callback.Some? ==> MayWait(c, ch, reg, callback.value)
    ensures var r := SendImpl(ch, reg, v, callback); Waiting(r.ch) && AtHome(c, r.ch) && Unfired(r.ch, r.reg)
  {
    var i, r := FirstAccepting(ch.receives, reg), SendImpl(ch, reg, v, callback);
    if i < |ch.receives| {
      forall o | o in r.ch.receives ensures o in ch.receives && o != ch.receives[i] {
      }
    } else if |ch.buffer| >= ch.size && callback.Some? {
      assert Owners(r.ch.sends) == Owners(ch.sends) + [callback.value];
    }
  }

  /** A value that need not wait goes behind everything before it. */
  lemma DoneInOrder(ch: Chan, reg: Registry, v: Value)
    requires ch.sends == [] && InOrder(ch, reg)
    ensures Standing(ch.book.log + [Entry(None, v)], reg) ==
            Standing(ch.book.base + [Entry(None, v)] + Entries(ch.sends), reg)
    ensures Values(ch.book.base + [Entry(None, v)]) == ch.book.out + ch.buffer + [v]
  {
    var b, e := ch.book, Entry(None, v);
    assert b.base + Entries(ch.sends) == b.base && b.base + [e] + Entries(ch.sends) == b.base + [e];
    StandingAppends(b.log, [e], reg);
    StandingAppends(b.base, [e], reg);
    ValuesAppend(b.base, e);
  }

  lemma QueuedInOrder(ch: Chan, reg: Registry, o: Owner, v: Value)
    requires InOrder(ch, reg)
    ensures Standing(ch.book.log + [Entry(Some(o), v)], reg) ==
            Standing(ch.book.base + Entries(ch.sends + [SendCb(o, v)]), reg)
  {
    var b, e := ch.book, Entry(Some(o), v);
    StandingAppends(b.log, [e], reg);
    StandingAppends(b.base + Entries(ch.sends), [e], reg);
    assert Entries(ch.sends + [SendCb(o, v)]) == Entries(ch.sends) + [e];
    Associative(b.base, Entries(ch.sends), [e]);
  }

  lemma SendInOrder(ch: Chan, reg: Registry, v: Value, callback: Option<Owner>)
    requires Waiting(ch) && Unfired(ch, reg) && InOrder(ch, reg) && !ch.closed
    ensures var r := SendImpl(ch, reg, v, callback); InOrder(r.ch, r.reg)
  {
    var i, r := FirstAccepting(ch.receives, reg), SendImpl(ch, reg, v, callback);
    if i < |ch.receives| {
      InOrderExtends(ch, reg, r.reg);
      DoneInOrder(ch, r.reg, v);
      assert ch.book.out + [] + [v] == ch.book.out + [v] + [];
    } else if |ch.buffer| < ch.size {
      DoneInOrder(ch, reg, v);
      Associative(ch.book.out, ch.buffer, [v]);
    } else if callback.Some? {
      QueuedInOrder(ch, reg, callback.value, v);
    }
  }

  lemma HandOffBalanced(b: Book, reg: Registry, held: seq<Value>, v: Value)
    requires Balanced(b, reg, held)
    ensures Balanced(b.(out := b.out + [v], got := b.got + [v]), reg, held)
  {
  }

  lemma TakeOffBalanced(b: Book, reg: Registry, held: seq<Value>, o: Owner, v: Value)
    requires Balanced(b, reg, held) && o.Case? && KeyOf(o) !in reg.fired
    ensures Balanced(b.(out := b.out + [v], flying := b.flying + [o.token]), Fire(reg, o, Some(v)), held)
  {
    var reg' := Fire(reg, o, Some(v));
    BalancedExtends(b, reg, reg', held);
    assert Carried(b.flying + [o.token], reg') == Carried(b.flying, reg') + [v];
  }

  lemma SendConserved(ch: Chan, reg: Registry, v: Value, callback: Option<Owner>)
    requires Conserved(ch, reg) && Unfired(ch, reg) && !ch.closed
    ensures var r := SendImpl(ch, reg, v, callback); Conserved(r.ch, r.reg)
  {
    var i, r := FirstAccepting(ch.receives, reg), SendImpl(ch, reg, v, callback);
    if i < |ch.receives| {
      var o := ch.receives[i];
      if o.Case? {
        TakeOffBalanced(ch.book, reg, Slot(ch), o, v);
      } else {
        BalancedExtends(ch.book, reg, r.reg, Slot(ch));
        HandOffBalanced(ch.book, r.reg, Slot(ch), v);
      }
    }
  }

  lemma SendKeeps(c: nat, ch: Chan, reg: Registry, v: Value, callback: Option<Owner>)
    requires ChanInv(c, ch, reg) && !ch.closed && (callback.Some? ==> MayWait(c, ch, reg, callback.value))
    ensures var r := SendImpl(ch, reg, v, callback); ChanInv(c, r.ch, r.reg)
  {
    SendHome(c, ch, reg, v, callback);
    SendInOrder(ch, reg, v, callback);
    SendConserved(ch, reg, v, callback);
  }

  // ---------------------------------------------------------------- a Select resumes and withdraws

  lemma {:induction false} LandingCarried(ts: seq<nat>, t: nat, reg: Registry)
    requires Airborne(ts, reg) && t in ts
    ensures Airborne(RemoveFirst(ts, t), reg)
    ensures multiset(Carried(ts, reg)) ==
            multiset(Carried(RemoveFirst(ts, t), reg)) + multiset{reg.fired[SelectCall(t)].value.value}
  {
    assert Carried(ts, reg) == [Carried(ts, reg)[0]] + Carried(ts[1..], reg);
    if ts[0] != t {
      LandingCarried(ts[1..], t, reg);
      assert Carried([ts[0]] + RemoveFirst(ts[1..], t), reg) ==
          [Carried(ts, reg)[0]] + Carried(RemoveFirst(ts[1..], t), reg);
    }
  }

  lemma LandKeeps(c: nat, ch: Chan, reg: Registry, t: nat)
    requires ChanInv(c, ch, reg) && t in ch.book.flying
    ensures ChanInv(c, Land(ch, t, reg.fired[SelectCall(t)].value.value), reg)
  {
    LandingCarried(ch.book.flying, t, reg);
  }

  lemma {:induction false} RemoveFirstKeeps<T(!new)>(s: seq<T>, x: T)
    requires NoRepeats(s)
    ensures NoRepeats(RemoveFirst(s, x)) && x !in RemoveFirst(s, x)
  {
    if s != [] {
      if s[0] != x {
        RemoveFirstKeeps(s[1..], x);
        var r := RemoveFirst(s[1..], x);
        assert s[0] !in s[1..];
      }
    }
  }

  lemma {:induction false} RemoveSendIsRemoval(s: seq<SendCb>, o: Owner)
    ensures Owners(RemoveSend(s, o)) == RemoveFirst(Owners(s), o)
  {
    if s != [] {
      assert Owners(s)[0] == s[0].owner && Owners(s)[1..] == Owners(s[1..]);
      if s[0].owner != o {
        RemoveSendIsRemoval(s[1..], o);
        assert Owners([s[0]] + RemoveSend(s[1..], o)) == [s[0].owner] + Owners(RemoveSend(s[1..], o));
      }
    }
  }

  /** Withdrawing a dead sender does not disturb the order. */
  lemma {:induction false} DeadSendStands(s: seq<SendCb>, o: Owner, reg: Registry)
    requires KeyOf(o) in reg.fired && reg.fired[KeyOf(o)].owner != o
    ensures Standing(Entries(RemoveSend(s, o)), reg) == Standing(Entries(s), reg)
  {
    if s != [] {
      var e := Entry(Some(s[0].owner), s[0].value);
      assert Entries(s)[0] == e && Entries(s)[1..] == Entries(s[1..]);
      if s[0].owner != o {
        DeadSendStands(s[1..], o, reg);
        var r := RemoveSend(s[1..], o);
        assert Entries([s[0]] + r)[1..] == Entries(r);
      } else {
        assert !Stands(e, reg);
      }
    }
  }

  lemma WithdrawInOrder(ch: Chan, reg: Registry, o: Owner)
    requires InOrder(ch, reg) && Unfired(ch, reg) && KeyOf(o) in reg.fired
    ensures InOrder(Withdraw(ch, o), reg)
  {
    StandingAppends(ch.book.base, Entries(ch.sends), reg);
    StandingAppends(ch.book.base, Entries(RemoveSend(ch.sends, o)), reg);
    if o in Owners(ch.sends) {
      DeadSendStands(ch.sends, o, reg);
    } else {
      NothingToRemove(ch.sends, o);
    }
  }

  lemma {:induction false} NothingToRemove(s: seq<SendCb>, o: Owner)
    requires o !in Owners(s)
    ensures RemoveSend(s, o) == s
  {
    if s != [] {
      assert Owners(s)[0] == s[0].owner && Owners(s)[1..] == Owners(s[1..]);
      NothingToRemove(s[1..], o);
    }
  }

  lemma WithdrawKeeps(c: nat, ch: Chan, reg: Registry, o: Owner)
    requires ChanInv(c, ch, reg) && KeyOf(o) in reg.fired
    ensures ChanInv(c, Withdraw(ch, o), reg)
    ensures o !in Owners(Withdraw(ch, o).sends) && o !in Withdraw(ch, o).receives
  {
    WithdrawInOrder(ch, reg, o);
    RemoveSendIsRemoval(ch.sends, o);
    RemoveFirstKeeps(Owners(ch.sends), o);
    RemoveFirstKeeps(ch.receives, o);
    assert Carried(Withdraw(ch, o).book.flying, reg) == Carried(ch.book.flying, reg);
  }
}
