/**
 What a send, a receive and a Select do at once, by what the channels hold when they are called.
 */
module ChannelAnswers {
  import opened Common
  import opened Channels
  import opened Selectors
  import opened SelectInvariant

  predicate LiveSender(ch: Chan, reg: Registry) {
    exists j :: 0 <= j < |ch.sends| && Accepts(reg, ch.sends[j].owner)
  }

  predicate LiveReceiver(ch: Chan, reg: Registry) {
    exists j :: 0 <= j < |ch.receives| && Accepts(reg, ch.receives[j])
  }

  /** There is a value to receive. */
  predicate Offers(ch: Chan, reg: Registry) {
    ch.recValue.Some? || ch.buffer != [] || (!ch.closed && LiveSender(ch, reg))
  }

  /** There is somebody to take a value, or room for it. */
  predicate Takes(ch: Chan, reg: Registry) { LiveReceiver(ch, reg) || |ch.buffer| < ch.size }

  /** `i` is the first callback in the queue that accepts, or the length of the queue. */
  predicate IsFirstLive(os: seq<Owner>, reg: Registry, i: nat) {
    && i <= |os| && (forall j :: 0 <= j < i ==> !Accepts(reg, os[j]))
    && (i < |os| ==> Accepts(reg, os[i]))
  }

  /**
   A receive gets a value exactly if there is one: the prefetched one, else the oldest buffered one, else that of
   the first sender that accepts. A sender is woken up when its value is taken or moves to the buffer.
   The receiver is queued exactly if it waits, and only a closed channel says that there is no more.
   */
  lemma ReceiveExactly(ch: Chan, reg: Registry, callback: Option<Owner>, i: nat)
    requires IsFirstLive(Owners(ch.sends), reg, i)
    ensures var r := ReceiveImpl(ch, reg, callback);
            && (r.value.Some? <==> Offers(ch, reg))
            && (ch.recValue.Some? ==> r.value == ch.recValue && r.ch == ch.(recValue := None) && r.reg == reg)
            && (ch.recValue.None? && ch.buffer != [] ==>
                  && r.value == Some(ch.buffer[0])
                  && r.ch.buffer == ch.buffer[1..] + if i < |ch.sends| then [ch.sends[i].value] else [])
            && (ch.recValue.None? && ch.buffer == [] && !ch.closed && i < |ch.sends| ==>
                  r.value == Some(ch.sends[i].value) && r.ch.buffer == [])
            && (r.value.None? ==> r.ch.buffer == [] && r.reg == reg)
            && (ch.recValue.None? && r.value.Some? ==>
                  if i == |ch.sends| then r.reg == reg && r.ch.sends == []
                  else r.reg == Fire(reg, ch.sends[i].owner, None) && r.ch.sends == ch.sends[i + 1..])
            && (r.more <==> r.value.Some? || !ch.closed)
            && r.ch.receives == ch.receives +
               (if r.value.None? && r.more && callback.Some? then [callback.value] else [])
            && r.ch.recValue.None? && r.ch.closed == ch.closed && r.ch.size == ch.size
  {
    assert FirstAccepting(Owners(ch.sends), reg) == i;
    assert LiveSender(ch, reg) <==> i < |ch.sends| by {
      if i < |ch.sends| { assert Accepts(reg, ch.sends[i].owner); }
      assert forall j :: 0 <= j < |ch.sends| ==> Owners(ch.sends)[j] == ch.sends[j].owner;
    }
  }

  /**
   A send succeeds exactly if there is a receiver that accepts, which then gets the value, or room in the buffer,
   where it goes last. Otherwise the sender is queued, if it can wait.
   */
  lemma SendExactly(ch: Chan, reg: Registry, v: Value, callback: Option<Owner>, i: nat)
    requires IsFirstLive(ch.receives, reg, i)
    ensures var r := SendImpl(ch, reg, v, callback);
            && (r.ok <==> Takes(ch, reg))
            && (i < |ch.receives| ==>
                  && r.reg == Fire(reg, ch.receives[i], Some(v)) && r.ch.receives == ch.receives[i + 1..]
                  && r.ch.buffer == ch.buffer)
            && (i == |ch.receives| ==>
                  r.reg == reg && r.ch.receives == [] && r.ch.buffer == ch.buffer + if r.ok then [v] else [])
            && r.ch.sends == ch.sends + (if r.ok || callback.None? then [] else [SendCb(callback.value, v)])
            && r.ch.recValue == ch.recValue && r.ch.closed == ch.closed && r.ch.size == ch.size
  {
    assert FirstAccepting(ch.receives, reg) == i;
  }

  /** A case that a Select need not wait for. */
  predicate ReadyNow(w: World, k: SelCase) {
    && k.ch < |w.chans|
    && match k
       case RecvCase(c) => Offers(w.chans[c], w.reg)
       case SendCase(c, _) => Takes(w.chans[c], w.reg)
       case FutureCase(c, spent) => !spent && w.chans[c].closed
  }

  /** What trying the cases of a call in turn relies on. */
  ghost predicate Trying(w: World, t: nat) {
    && Ready(w) && t < |w.desk.calls| && w.desk.calls[t].phase.Blocked?
    && KindsOK(w.futures, w.chans) && Proper(w.futures, CasesOf(w.desk, t))
  }

  ghost predicate SameReadiness(w: World, w': World, cases: seq<SelCase>) {
    forall j :: 0 <= j < |cases| ==> (ReadyNow(w, cases[j]) <==> ReadyNow(w', cases[j]))
  }

  lemma ReadyCaseCommits(w: World, t: nat, i: nat)
    requires Trying(w, t) && i < |CasesOf(w.desk, t)|
    requires ReadyNow(w, CasesOf(w.desk, t)[i])
    ensures TryCase(w, t, i).desk.calls == w.desk.calls[t := w.desk.calls[t].(phase := Running(i))]
  {
    var k := CasesOf(w.desk, t)[i];
    assert KindOK(w.futures, k.ch, w.chans[k.ch]);
    var ch, o := w.chans[k.ch], Case(t, i, k.ch);
    if k.SendCase? {
      SendExactly(ch, w.reg, k.value, Some(o), FirstAccepting(ch.receives, w.reg));
    } else {
      ReceiveExactly(ch, w.reg, Some(o), FirstAccepting(Owners(ch.sends), w.reg));
    }
  }

  /** A case that is not ready leaves a callback, which makes no other case of the same Select ready. */
  lemma UnreadyCaseWaits(w: World, t: nat, i: nat)
    requires Trying(w, t) && i < |CasesOf(w.desk, t)|
    requires !ReadyNow(w, CasesOf(w.desk, t)[i])
    ensures var w' := TryCase(w, t, i);
            && w'.desk == w.desk && |w'.chans| == |w.chans| && Trying(w', t)
            && SameReadiness(w, w', CasesOf(w.desk, t))
  {
    var cases := CasesOf(w.desk, t);
    var k, w' := cases[i], TryCase(w, t, i);
    assert KindOK(w.futures, k.ch, w.chans[k.ch]);
    var ch, o := w.chans[k.ch], Case(t, i, k.ch);
    if k.SendCase? {
      SendExactly(ch, w.reg, k.value, Some(o), FirstAccepting(ch.receives, w.reg));
    } else {
      ReceiveExactly(ch, w.reg, Some(o), FirstAccepting(Owners(ch.sends), w.reg));
    }
    assert w'.reg == w.reg && forall c :: 0 <= c < |w.chans| && c != k.ch ==> w'.chans[c] == w.chans[c];
    assert KindOK(w.futures, k.ch, w'.chans[k.ch]);
    forall j | 0 <= j < |cases| ensures ReadyNow(w, cases[j]) <==> ReadyNow(w', cases[j]) {
      if cases[j].ch == k.ch { SameChannel(w, cases, i, j); }
    }
  }

  /** Two cases of a Select on one channel are of one kind. */
  lemma SameChannel(w: World, cases: seq<SelCase>, i: nat, j: nat)
    requires Proper(w.futures, cases) && i < |cases| && j < |cases| && cases[i].ch == cases[j].ch < |w.chans|
    ensures cases[i].RecvCase? == cases[j].RecvCase? && cases[i].SendCase? == cases[j].SendCase?
  {
  }

  lemma {:induction false} TakesFirstReady(w: World, t: nat, i: nat, first: nat)
    requires Trying(w, t) && i <= first <= |CasesOf(w.desk, t)|
    requires forall j :: i <= j < first ==> !ReadyNow(w, CasesOf(w.desk, t)[j])
    requires first < |CasesOf(w.desk, t)| ==> ReadyNow(w, CasesOf(w.desk, t)[first])
    ensures var phase := if first < |CasesOf(w.desk, t)| then Running(first) else Blocked;
            TryCases(w, t, i).desk.calls == w.desk.calls[t := w.desk.calls[t].(phase := phase)]
    decreases first - i
  {
    hide TryCase, ReadyNow, Proper, KindsOK;
    if i < first {
      UnreadyCaseWaits(w, t, i);
      TakesFirstReady(TryCase(w, t, i), t, i + 1, first);
    } else if i < |CasesOf(w.desk, t)| {
      ReadyCaseCommits(w, t, i);
    }
  }

  /** A Select goes on with the first of its cases that is ready, and waits exactly if none is. */
  lemma SelectTakesFirstReady(w: World, s: nat, first: nat)
    requires Inv(w) && Enabled(w, Select(s)) && first <= |w.desk.selectors[s]|
    requires forall j :: 0 <= j < first ==> !ReadyNow(w, w.desk.selectors[s][j])
    requires first < |w.desk.selectors[s]| ==> ReadyNow(w, w.desk.selectors[s][first])
    ensures var t, w' := |w.desk.calls|, Step(w, Select(s));
            && t < |w'.desk.calls|
            && w'.desk.calls[t] == Call(s, if first < |w.desk.selectors[s]| then Running(first) else Blocked)
  {
    hide CallsOK, History, RegOK, ChansOK, QueuesOK, ReadyNow;
    var t, w1 := |w.desk.calls|, AddCall(w, s);
    assert Proper(w.futures, w.desk.selectors[s]);
    assert CasesOf(w1.desk, t) == w.desk.selectors[s];
    forall j | 0 <= j < |w.desk.selectors[s]|
      ensures ReadyNow(w1, w.desk.selectors[s][j]) <==> ReadyNow(w, w.desk.selectors[s][j])
    {
      AddCallKeepsReadiness(w, s, w.desk.selectors[s][j]);
    }
    TakesFirstReady(w1, t, 0, first);
  }

  lemma AddCallKeepsReadiness(w: World, s: nat, k: SelCase)
    ensures ReadyNow(AddCall(w, s), k) <==> ReadyNow(w, k)
  {
  }
}
