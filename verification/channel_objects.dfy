/**
 Channels and selectors as objects that are updated in place, and the proof that they do
 what the step system says.
 */
module ChannelObjects {
  import opened Common
  import opened Channels
  import opened ChannelLedger
  import opened Selectors

  /** The state the callback closures share: which calls a callback has fired for. */
  class Callbacks {
    var reg: Registry

    constructor ()
      ensures reg == Registry(map[], [])
    {
      reg := Registry(map[], []);
    }

    /** Call a callback: it accepts unless its Select has committed. */
    method Invoke(o: Owner, v: Option<Value>) returns (accepted: bool)
      modifies this
      ensures accepted == Accepts(old(reg), o)
      ensures reg == if accepted then Fire(old(reg), o, v) else old(reg)
    {
      accepted := o.Plain? || KeyOf(o) !in reg.fired;
      if accepted { reg := Fire(reg, o, v); }
    }
  }

  lemma FirstAcceptingDrops(os: seq<Owner>, reg: Registry)
    requires os != []
    ensures FirstAccepting(os, reg) == if Accepts(reg, os[0]) then 0 else 1 + FirstAccepting(os[1..], reg)
  {
  }

  lemma UnblockDrops(ch: Chan, reg: Registry)
    requires ch.sends != []
    ensures Unblock(ch, reg) ==
            var s := ch.sends[0];
            if Accepts(reg, s.owner) then
              Unblocked(Some(s), ch.(sends := ch.sends[1..],
                  book := ch.book.(base := ch.book.base + [Entry(Some(s.owner), s.value)])),
                        Fire(reg, s.owner, None))
            else Unblock(ch.(sends := ch.sends[1..]), reg)
  {
    OwnersDrop(ch.sends, 1);
    var i, j := FirstAccepting(Owners(ch.sends), reg), FirstAccepting(Owners(ch.sends[1..]), reg);
    FirstAcceptingDrops(Owners(ch.sends), reg);
    if !Accepts(reg, ch.sends[0].owner) && i < |ch.sends| {
      assert ch.sends[i] == ch.sends[1..][j] && ch.sends[i + 1..] == ch.sends[1..][j + 1..];
    }
  }

  lemma {:induction false} RemoveFirstAt(s: seq<Owner>, i: nat, o: Owner)
    requires i <= |s| && (forall j :: 0 <= j < i ==> s[j] != o) && (i < |s| ==> s[i] == o)
    ensures RemoveFirst(s, o) == if i < |s| then s[..i] + s[i + 1..] else s
  {
    if i > 0 {
      RemoveFirstAt(s[1..], i - 1, o);
      assert i < |s| ==> s[..i] + s[i + 1..] == [s[0]] + (s[1..][..i - 1] + s[1..][i..]);
    }
  }

  lemma {:induction false} RemoveSendAt(s: seq<SendCb>, i: nat, o: Owner)
    requires i <= |s| && (forall j :: 0 <= j < i ==> s[j].owner != o) && (i < |s| ==> s[i].owner == o)
    ensures RemoveSend(s, o) == if i < |s| then s[..i] + s[i + 1..] else s
  {
    if i > 0 {
      RemoveSendAt(s[1..], i - 1, o);
      assert i < |s| ==> s[..i] + s[i + 1..] == [s[0]] + (s[1..][..i - 1] + s[1..][i..]);
    }
  }

  class Channel {
    const size: nat
    var closed: bool
    var recValue: Option<Value>
    var buffer: seq<Value>
    var blockedSends: seq<SendCb>
    var blockedReceives: seq<Owner>
    ghost var book: Book

    ghost function View(): Chan
      reads this
    {
      Chan(size, closed, recValue, buffer, blockedSends, blockedReceives, book)
    }

    constructor (size: nat)
      ensures View() == Open(size)
    {
      this.size, closed, recValue, buffer, blockedSends, blockedReceives := size, false, None, [], [], [];
      book := Book([], [], [], [], [], []);
    }

    /** Pop blocked senders until one accepts. */
    method UnblockSender(callbacks: Callbacks) returns (b: Option<SendCb>)
      modifies this`blockedSends, this`book, callbacks
      ensures Unblocked(b, View(), callbacks.reg) == Unblock(old(View()), old(callbacks.reg))
    {
      ghost var ch := View();
      b := None;
      while blockedSends != []
        invariant callbacks.reg == old(callbacks.reg) && book == old(book)
        invariant Unblock(View(), callbacks.reg) == Unblock(ch, callbacks.reg)
        decreases |blockedSends|
      {
        UnblockDrops(View(), callbacks.reg);
        var s := blockedSends[0];
        blockedSends := blockedSends[1..];
        var accepted := callbacks.Invoke(s.owner, None);
        if accepted {
          book := book.(base := book.base + [Entry(Some(s.owner), s.value)]);
          return Some(s);
        }
      }
    }

    method ReceiveAsyncImpl(callbacks: Callbacks, callback: Option<Owner>) returns (v: Option<Value>, more: bool)
      modifies this, callbacks
      ensures Received(v, more, View(), callbacks.reg) == ReceiveImpl(old(View()), old(callbacks.reg), callback)
    {
      if recValue.Some? {
        v, more, recValue := recValue, true, None;
        return;
      }
      if |buffer| > 0 {
        v, more := Some(buffer[0]), true;
        buffer := buffer[1..];
        ghost var head, tail := v.value, buffer;
        var b := UnblockSender(callbacks);
        if b.Some? { buffer := buffer + [b.value.value]; } else { assert tail + [] == tail; }
        book := book.(out := book.out + [v.value]);
        return;
      }
      if closed {
        return None, false;
      }
      var b := UnblockSender(callbacks);
      if b.Some? {
        book := book.(out := book.out + [b.value.value]);
        return Some(b.value.value), true;
      }
      if callback.Some? {
        blockedReceives := blockedReceives + [callback.value];
      }
      v, more := None, true;
    }

    /** Requires an open channel: sending on a closed one panics. */
    method SendAsyncImpl(callbacks: Callbacks, v: Value, pair: Option<Owner>) returns (ok: bool)
      requires !closed
      modifies this, callbacks
      ensures Sent(ok, View(), callbacks.reg) == SendImpl(old(View()), old(callbacks.reg), v, pair)
    {
      ghost var ch, reg := View(), callbacks.reg;
      ghost var done := Entry(None, v);
      while blockedReceives != []
        invariant callbacks.reg == reg && View() == ch.(receives := blockedReceives)
        invariant |blockedReceives| <= |ch.receives| &&
                  blockedReceives == ch.receives[|ch.receives| - |blockedReceives|..]
        invariant FirstAccepting(ch.receives, reg) ==
                  |ch.receives| - |blockedReceives| + FirstAccepting(blockedReceives, reg)
        decreases |blockedReceives|
      {
        FirstAcceptingDrops(blockedReceives, reg);
        var o := blockedReceives[0];
        blockedReceives := blockedReceives[1..];
        var accepted := callbacks.Invoke(o, Some(v));
        if accepted {
          book := book.(log := book.log + [done], base := book.base + [done], out := book.out + [v]);
          book := if o.Plain? then book.(got := book.got + [v]) else book.(flying := book.flying + [o.token]);
          return true;
        }
      }
      if |buffer| < size {
        buffer := buffer + [v];
        book := book.(log := book.log + [done], base := book.base + [done]);
        return true;
      }
      if pair.Some? {
        blockedSends := blockedSends + [SendCb(pair.value, v)];
        book := book.(log := book.log + [Entry(pair, v)]);
      }
      ok := false;
    }

    method RemoveReceiveCallback(o: Owner)
      modifies this`blockedReceives
      ensures blockedReceives == RemoveFirst(old(blockedReceives), o)
    {
      var i := 0;
      while i < |blockedReceives| && blockedReceives[i] != o
        invariant i <= |blockedReceives| && forall j :: 0 <= j < i ==> blockedReceives[j] != o
      {
        i := i + 1;
      }
      RemoveFirstAt(blockedReceives, i, o);
      if i < |blockedReceives| { blockedReceives := blockedReceives[..i] + blockedReceives[i + 1..]; }
    }

    method RemoveSendCallback(o: Owner)
      modifies this`blockedSends
      ensures blockedSends == RemoveSend(old(blockedSends), o)
    {
      var i := 0;
      while i < |blockedSends| && blockedSends[i].owner != o
        invariant i <= |blockedSends| && forall j :: 0 <= j < i ==> blockedSends[j].owner != o
      {
        i := i + 1;
      }
      RemoveSendAt(blockedSends, i, o);
      if i < |blockedSends| { blockedSends := blockedSends[..i] + blockedSends[i + 1..]; }
    }

    /** Call every waiting receiver; none is taken off the queue. */
    method Close(callbacks: Callbacks)
      modifies this`closed, callbacks
      ensures View() == old(View()).(closed := true)
      ensures callbacks.reg == FireAll(old(callbacks.reg), blockedReceives)
    {
      closed := true;
      var copy := blockedReceives;
      var i := 0;
      while i < |copy|
        invariant 0 <= i <= |copy| && closed
        invariant FireAll(old(callbacks.reg), copy) == FireAll(callbacks.reg, copy[i..])
      {
        assert copy[i..][0] == copy[i] && copy[i..][1..] == copy[i + 1..];
        var _ := callbacks.Invoke(copy[i], None);
        i := i + 1;
      }
      assert copy[i..] == [];
    }
  }

  ghost function Views(channels: seq<Channel>): seq<Chan>
    reads channels
  {
    seq(|channels|, i requires 0 <= i < |channels| reads channels => channels[i].View())
  }

  /** Sending on a closed channel panics: no send case may name one. */
  ghost predicate CasesOpen(cases: seq<SelCase>, chans: seq<Chan>) {
    forall i :: 0 <= i < |cases| ==> cases[i].ch < |chans| && (cases[i].SendCase? ==> !chans[cases[i].ch].closed)
  }

  ghost predicate Workable(w: World) {
    Ready(w) && forall s :: 0 <= s < |w.desk.selectors| ==> CasesOpen(w.desk.selectors[s], w.chans)
  }

  lemma SetChanWorkable(w: World, c: nat, ch: Chan, reg: Registry)
    requires Workable(w) && c < |w.chans| && ch.closed == w.chans[c].closed
    ensures Workable(SetChan(w, c, ch, reg))
  {
    assert forall s :: 0 <= s < |w.desk.selectors| ==> CasesOpen(w.desk.selectors[s], w.chans);
  }

  lemma RunCaseWorkable(w: World, t: nat, i: nat)
    requires Workable(w) && t < |w.desk.calls| && i < |CasesOf(w.desk, t)|
    ensures Workable(RunCase(w, t, i))
  {
    var cases := CasesOf(w.desk, t);
    var cases' := cases[i := Spend(cases[i])];
    assert CasesOpen(cases, w.chans) && CasesInRange(cases, |w.chans|);
    assert forall j :: 0 <= j < |cases| ==> cases'[j] == if j == i then Spend(cases[j]) else cases[j];
    assert CasesOpen(cases', w.chans) && CasesInRange(cases', |w.chans|);
  }

  lemma ReceiveStaysOpen(ch: Chan, reg: Registry, callback: Option<Owner>)
    ensures ReceiveImpl(ch, reg, callback).ch.closed == ch.closed
  {
  }

  lemma TryCaseWorkable(w: World, t: nat, i: nat)
    requires Workable(w) && t < |w.desk.calls| && i < |CasesOf(w.desk, t)|
    ensures Workable(TryCase(w, t, i))
  {
    var k := CasesOf(w.desk, t)[i];
    var c, o := k.ch, Some(Case(t, i, k.ch));
    assert CasesInRange(CasesOf(w.desk, t), |w.chans|);
    var r := ReceiveImpl(w.chans[c], w.reg, o);
    ReceiveStaysOpen(w.chans[c], w.reg, o);
    match k {
      case RecvCase(_) =>
        if r.value.Some? {
          var ch := Prefetch(r.ch, r.value.value);
          SetChanWorkable(w, c, ch, Fire(r.reg, o.value, None));
          RunCaseWorkable(SetChan(w, c, ch, Fire(r.reg, o.value, None)), t, i);
        } else {
          SetChanWorkable(w, c, r.ch, r.reg);
        }
      case SendCase(_, v) =>
        var r := SendImpl(w.chans[c], w.reg, v, o);
        SetChanWorkable(w, c, r.ch, r.reg);
        SetChanWorkable(w, c, r.ch, Fire(r.reg, o.value, None));
        RunCaseWorkable(SetChan(w, c, r.ch, Fire(r.reg, o.value, None)), t, i);
      case FutureCase(_, _) =>
        SetChanWorkable(w, c, r.ch, r.reg);
        SetChanWorkable(w, c, r.ch, Fire(r.reg, o.value, None));
        RunCaseWorkable(SetChan(w, c, r.ch, Fire(r.reg, o.value, None)), t, i);
    }
  }

  /** A call has tried the cases before `i`, or committed to one of them. */
  ghost predicate Tried(start: World, w: World, t: nat, i: nat, committed: bool) {
    && Workable(start) && Workable(w) && t < |start.desk.calls| && t < |w.desk.calls| && i <= |CasesOf(start.desk, t)|
    && if committed then TryCases(start, t, 0) == w
       else w.desk == start.desk && w.desk.calls[t].phase.Blocked? && TryCases(start, t, 0) == TryCases(w, t, i)
  }

  lemma TriedNext(start: World, w: World, t: nat, i: nat)
    requires Tried(start, w, t, i, false) && i < |CasesOf(start.desk, t)|
    ensures var w' := TryCase(w, t, i);
            t < |w'.desk.calls| && Tried(start, w', t, i + 1, !w'.desk.calls[t].phase.Blocked?)
  {
    TryCaseWorkable(w, t, i);
  }

  /** The channels, futures and selectors of one workflow. */
  class Runtime {
    const channels: seq<Channel>
    const futures: set<nat>
    const callbacks: Callbacks
    var desk: Desk
    ghost var ran: seq<Ran>

    ghost function View(): World
      reads this, channels, callbacks
    {
      World(Views(channels), futures, callbacks.reg, desk, ran)
    }

    ghost predicate Apart() {
      forall i, j :: 0 <= i < j < |channels| ==> channels[i] != channels[j]
    }

    constructor (channels: seq<Channel>, futures: set<nat>, callbacks: Callbacks, selectors: seq<seq<SelCase>>)
      ensures this.channels == channels && this.callbacks == callbacks
      ensures View() == World(Views(channels), futures, callbacks.reg, Desk(selectors, [], 0), [])
    {
      this.channels, this.futures, this.callbacks := channels, futures, callbacks;
      desk, ran := Desk(selectors, [], 0), [];
    }

    /** One channel was updated and nothing else. */
    twostate lemma OnlyOne(c: nat)
      requires Apart() && c < |channels|
      requires forall i :: 0 <= i < |channels| && i != c ==> unchanged(channels[i])
      ensures Views(channels) == old(Views(channels))[c := channels[c].View()]
    {
    }

    method ReceiveFrom(c: nat, callback: Option<Owner>) returns (v: Option<Value>)
      requires Apart() && c < |channels|
      modifies channels[c], callbacks
      ensures View() == ReceiveBy(old(View()), c, callback)
      ensures v == ReceiveImpl(old(View()).chans[c], old(View()).reg, callback).value
    {
      var more;
      v, more := channels[c].ReceiveAsyncImpl(callbacks, callback);
      if v.Some? { channels[c].book := channels[c].book.(got := channels[c].book.got + [v.value]); }
      OnlyOne(c);
    }

    method SendTo(c: nat, v: Value, callback: Option<Owner>) returns (ok: bool)
      requires Apart() && c < |channels| && !channels[c].closed
      modifies channels[c], callbacks
      ensures View() == SendBy(old(View()), c, v, callback)
      ensures ok == SendImpl(old(View()).chans[c], old(View()).reg, v, callback).ok
    {
      ok := channels[c].SendAsyncImpl(callbacks, v, callback);
      OnlyOne(c);
    }

    /** `getUnhandledSignalNames`, for one signal channel. */
    method PeekSignals(c: nat) returns (unhandled: bool)
      requires Apart() && c < |channels|
      modifies channels[c], callbacks
      ensures View() == PeekAt(old(View()), c)
      ensures unhandled == ReceiveImpl(old(View()).chans[c], old(View()).reg, None).value.Some?
    {
      ghost var ch := channels[c].View();
      var v, more := channels[c].ReceiveAsyncImpl(callbacks, None);
      unhandled := v.Some?;
      if unhandled {
        ghost var r := channels[c].View();
        channels[c].book := Prefetch(r, v.value).book;
        channels[c].recValue := v;
      }
      OnlyOne(c);
    }

    /** Fill the prefetch slot on behalf of a Select. */
    method SetRecValue(c: nat, v: Value)
      requires Apart() && c < |channels|
      modifies channels[c]
      ensures View() == old(View()).(chans := old(View()).chans[c := Prefetch(old(View()).chans[c], v)])
    {
      channels[c].book := Prefetch(channels[c].View(), v).book;
      channels[c].recValue := Some(v);
      OnlyOne(c);
    }

    /** The case is ready: refuse every other one and run its function. */
    method Commit(t: nat, i: nat, ready: bool)
      requires Known(desk, t) && i < |CasesOf(desk, t)|
      modifies this, callbacks
      ensures View() ==
              var w := old(View());
              RunCase(if ready then w.(reg := Fire(w.reg, Case(t, i, CasesOf(w.desk, t)[i].ch), None)) else w, t, i)
    {
      if ready { callbacks.reg := Fire(callbacks.reg, Case(t, i, CasesOf(desk, t)[i].ch), None); }
      ran := ran + [Ran(t, desk.calls[t].selector, i)];
      desk := SetPhase(SpendCase(desk, t, i), t, Running(i));
    }

    /** Try one case of a Select, leaving a callback behind if it is not ready. */
    method TryOne(t: nat, i: nat) returns (committed: bool)
      requires Apart() && Workable(View()) && t < |desk.calls| && i < |CasesOf(desk, t)| && desk.calls[t].phase.Blocked?
      modifies this, channels, callbacks
      ensures View() == TryCase(old(View()), t, i)
      ensures t < |desk.calls| && committed == !desk.calls[t].phase.Blocked?
      ensures !committed ==> desk == old(desk)
    {
      var k := CasesOf(desk, t)[i];
      assert CasesOpen(CasesOf(desk, t), View().chans);
      committed := false;
      match k {
        case RecvCase(c) =>
          var v, more := channels[c].ReceiveAsyncImpl(callbacks, Some(Case(t, i, c)));
          OnlyOne(c);
          if v.Some? {
            committed := true;
            SetRecValue(c, v.value);
            Commit(t, i, true);
          }
        case SendCase(c, v) =>
          assert !View().chans[c].closed;
          committed := SendTo(c, v, Some(Case(t, i, c)));
          if committed { Commit(t, i, true); }
        case FutureCase(c, spent) =>
          if !spent {
            var v, more := channels[c].ReceiveAsyncImpl(callbacks, Some(Case(t, i, c)));
            OnlyOne(c);
            if !more {
              committed := true;
              Commit(t, i, true);
            }
          }
      }
    }

    /** Go through the cases until one is ready. */
    method TryAll(t: nat)
      requires Apart() && Workable(View()) && t < |desk.calls| && desk.calls[t].phase.Blocked?
      modifies this, channels, callbacks
      ensures View() == TryCases(old(View()), t, 0)
    {
      ghost var start := View();
      var n, i, committed := |CasesOf(desk, t)|, 0, false;
      while i < n && !committed
        invariant Tried(start, View(), t, i, committed) && n == |CasesOf(start.desk, t)|
      {
        TriedNext(start, View(), t, i);
        committed := TryOne(t, i);
        i := i + 1;
      }
    }

    /** The first half of Select. */
    method SelectCase(s: nat)
      requires Apart() && Workable(View()) && Enabled(View(), Select(s))
      modifies this, channels, callbacks
      ensures View() == Step(old(View()), Select(s))
    {
      var t := |desk.calls|;
      desk := desk.(calls := desk.calls + [Call(s, Blocked)]);
      TryAll(t);
    }

    /** The second half of a Select that had to wait: run the case whose callback accepted. */
    method ResumeSelect(t: nat)
      requires Apart() && Workable(View()) && Enabled(View(), Resume(t))
      requires var o := callbacks.reg.fired[SelectCall(t)].owner; o.Case? && o.branch < |CasesOf(desk, t)|
      modifies this, channels, callbacks
      ensures View() == Step(old(View()), Resume(t))
    {
      var f := callbacks.reg.fired[SelectCall(t)];
      var k := CasesOf(desk, t)[f.owner.branch];
      assert CasesOpen(CasesOf(desk, t), View().chans);
      if k.RecvCase? && f.value.Some? {
        channels[k.ch].book := Land(channels[k.ch].View(), t, f.value.value).book;
        channels[k.ch].recValue := Some(f.value.value);
        OnlyOne(k.ch);
      }
      Commit(t, f.owner.branch, false);
    }

    /** Take the callbacks off the queues when the case function has returned. */
    method ReturnFromSelect(t: nat)
      requires Apart() && Enabled(View(), Return(t))
      modifies this, channels
      ensures View() == Step(old(View()), Return(t))
    {
      var cases := CasesOf(desk, t);
      ghost var start := View();
      var i := 0;
      while i < |cases|
        invariant i <= |cases| && desk == start.desk && View() == start.(chans := View().chans) && Ready(View())
        invariant Cleanup(start, t, 0) == Cleanup(View(), t, i)
      {
        assert CasesInRange(cases, |channels|);
        var c := cases[i].ch;
        WithdrawFrom(c, Case(t, i, c));
        i := i + 1;
      }
      desk := SetPhase(desk, t, Returned(desk.calls[t].phase.branch));
    }

    method WithdrawFrom(c: nat, o: Owner)
      requires Apart() && c < |channels|
      modifies channels[c]
      ensures View() == SetChan(old(View()), c, Withdraw(old(View()).chans[c], o), old(View()).reg)
    {
      channels[c].RemoveReceiveCallback(o);
      channels[c].RemoveSendCallback(o);
      OnlyOne(c);
    }

    /** A future is set: its channel is closed. */
    method SetFuture(c: nat)
      requires Apart() && Enabled(View(), Op.SetFuture(c))
      modifies channels[c], callbacks
      ensures View() == Step(old(View()), Op.SetFuture(c))
    {
      channels[c].Close(callbacks);
      OnlyOne(c);
    }
  }
}
