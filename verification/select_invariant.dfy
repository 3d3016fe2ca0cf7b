/**
 The invariant of channels, futures and Selects, and what single channel operations and
 running a case function do to it.
 */
module SelectInvariant {
  import opened Common
  import opened Channels
  import opened ChannelLedger
  import opened Selectors

  // ---------------------------------------------------------------- the invariant

  /** Nothing fires twice for one call. */
  ghost predicate RegOK(reg: Registry, d: Desk) {
    && NoRepeats(reg.order)
    && (forall k :: k in reg.fired <==> k in reg.order)
    && (forall k :: k in reg.fired ==> KeyOf(reg.fired[k].owner) == k)
    && (forall k :: k in reg.fired ==> if k.PlainCall? then k.token < d.next else k.token < |d.calls|)
  }

  ghost predicate ChansOK(chans: seq<Chan>, reg: Registry) {
    forall c :: 0 <= c < |chans| ==> ChanInv(c, chans[c], reg)
  }

  ghost predicate KindOK(futures: set<nat>, c: nat, ch: Chan) {
    if c in futures then ch.sends == [] && ch.buffer == [] && ch.recValue.None? && ch.book.flying == []
    else !ch.closed
  }

  ghost predicate KindsOK(futures: set<nat>, chans: seq<Chan>) {
    forall c :: 0 <= c < |chans| ==> KindOK(futures, c, chans[c])
  }

  ghost predicate Listed(d: Desk, o: Owner) {
    && o.Case? && Known(d, o.token) && !d.calls[o.token].phase.Returned?
    && o.branch < |CasesOf(d, o.token)| && CasesOf(d, o.token)[o.branch].ch == o.ch
  }

  ghost predicate SenderOK(d: Desk, o: Owner) {
    if o.Plain? then o.token < d.next else Listed(d, o) && CasesOf(d, o.token)[o.branch].SendCase?
  }

  ghost predicate ReceiverOK(d: Desk, o: Owner) {
    if o.Plain? then o.token < d.next
    else
      && Listed(d, o)
      && match CasesOf(d, o.token)[o.branch]
         case RecvCase(_) => true
         case SendCase(_, _) => false
         case FutureCase(_, spent) => d.calls[o.token].phase.Blocked? ==> !spent
  }

  ghost predicate QueueOK(d: Desk, ch: Chan) {
    (forall o :: o in Owners(ch.sends) ==> SenderOK(d, o)) && (forall o :: o in ch.receives ==> ReceiverOK(d, o))
  }

  ghost predicate QueuesOK(d: Desk, chans: seq<Chan>) {
    forall c :: 0 <= c < |chans| ==> QueueOK(d, chans[c])
  }

  ghost predicate Aloft(chans: seq<Chan>, c: nat, t: nat) { c < |chans| && t in chans[c].book.flying }

  /** A blocked call whose callback fired has a case to run; a value it accepted is on its way. */
  ghost predicate CommittedOK(d: Desk, chans: seq<Chan>, f: Fired) {
    && Listed(d, f.owner)
    && match CasesOf(d, f.owner.token)[f.owner.branch]
       case RecvCase(c) => f.value.Some? && Aloft(chans, c, f.owner.token)
       case SendCase(_, _) => true
       case FutureCase(_, spent) => !spent
  }

  /** The case that runs is the one that fired. */
  ghost predicate Chose(d: Desk, reg: Registry, t: nat, i: nat)
    requires Known(d, t)
  {
    && SelectCall(t) in reg.fired && reg.fired[SelectCall(t)].owner.Case?
    && reg.fired[SelectCall(t)].owner.branch == i < |CasesOf(d, t)|
  }

  ghost predicate CallOK(d: Desk, chans: seq<Chan>, reg: Registry, t: nat)
    requires Known(d, t)
  {
    match d.calls[t].phase
    case Blocked => SelectCall(t) in reg.fired ==> CommittedOK(d, chans, reg.fired[SelectCall(t)])
    case Running(i) => Chose(d, reg, t, i)
    case Returned(i) => Chose(d, reg, t, i)
  }

  /** Every call but `but` is in order. */
  ghost predicate CallsOK(w: World, but: nat) {
    forall t :: 0 <= t < |w.desk.calls| && t != but ==> Known(w.desk, t) && CallOK(w.desk, w.chans, w.reg, t)
  }

  /** The case functions run for one call. */
  function RanFor(ran: seq<Ran>, t: nat): seq<Ran> {
    if ran == [] then []
    else RanFor(ran[..|ran| - 1], t) + if ran[|ran| - 1].token == t then [ran[|ran| - 1]] else []
  }

  function Expected(call: Call, t: nat): seq<Ran> {
    match call.phase
    case Blocked => []
    case Running(i) => [Ran(t, call.selector, i)]
    case Returned(i) => [Ran(t, call.selector, i)]
  }

  ghost predicate RanOK(ran: seq<Ran>, calls: seq<Call>) {
    && (forall t :: 0 <= t < |calls| ==> RanFor(ran, t) == Expected(calls[t], t))
    && (forall r :: r in ran ==> r.token < |calls|)
  }

  /** One call of a selector at a time. */
  ghost predicate OneAtATime(calls: seq<Call>) {
    forall t, u :: 0 <= t < u < |calls| && calls[t].selector == calls[u].selector ==> calls[t].phase.Returned?
  }

  ghost predicate IsFuture(d: Desk, r: Ran) {
    r.selector < |d.selectors| && r.branch < |d.selectors[r.selector]| && d.selectors[r.selector][r.branch].FutureCase?
  }

  /** The future cases that ran are spent, and ran once. */
  ghost predicate FuturesOnce(d: Desk, ran: seq<Ran>) {
    && (forall r :: r in ran && IsFuture(d, r) ==> d.selectors[r.selector][r.branch].spent)
    && (forall a, b :: 0 <= a < b < |ran| && IsFuture(d, ran[a]) ==>
          ran[a].selector != ran[b].selector || ran[a].branch != ran[b].branch)
  }

  /** What a Select needs of its cases: futures are futures, and no channel is both sent to and received from. */
  ghost predicate Proper(futures: set<nat>, cases: seq<SelCase>) {
    && (forall i :: 0 <= i < |cases| ==> (cases[i].FutureCase? <==> cases[i].ch in futures))
    && (forall i, j :: 0 <= i < |cases| && 0 <= j < |cases| && cases[i].RecvCase? && cases[j].SendCase? ==>
          cases[i].ch != cases[j].ch)
  }

  ghost predicate SelectorsOK(futures: set<nat>, selectors: seq<seq<SelCase>>) {
    forall s :: 0 <= s < |selectors| ==> Proper(futures, selectors[s])
  }

  /** The part of the invariant that is about channels and their queues. */
  ghost predicate Plumbing(w: World) {
    && Ready(w) && SelectorsOK(w.futures, w.desk.selectors)
    && RegOK(w.reg, w.desk) && ChansOK(w.chans, w.reg) && KindsOK(w.futures, w.chans) && QueuesOK(w.desk, w.chans)
  }

  /** The part that is about which case functions ran. */
  ghost predicate History(w: World) {
    RanOK(w.ran, w.desk.calls) && OneAtATime(w.desk.calls) && FuturesOnce(w.desk, w.ran)
  }

  ghost predicate Inv(w: World) { Plumbing(w) && CallsOK(w, |w.desk.calls|) && History(w) }

  // ---------------------------------------------------------------- one channel moves

  function Shoot(reg: Registry, shot: Option<Fired>): Registry {
    if shot.None? then reg else Fire(reg, shot.value.owner, shot.value.value)
  }

  /** A callback in the queue of `ch` that may fire, and fires into `ch'`. */
  ghost predicate Shootable(future: bool, ch: Chan, ch': Chan, reg: Registry, f: Fired) {
    && KeyOf(f.owner) !in reg.fired
    && (f.owner in Owners(ch.sends) ||
        (f.owner in ch.receives && !future && f.value.Some? && (f.owner.Case? ==> f.owner.token in ch'.book.flying)))
  }

  /** What one receive or send may do to its channel: new callbacks, and at most one firing. */
  ghost predicate Shifted(w: World, c: nat, ch: Chan, shot: Option<Fired>)
    requires c < |w.chans|
  {
    && ChanInv(c, ch, Shoot(w.reg, shot)) && KindOK(w.futures, c, ch) && QueueOK(w.desk, ch)
    && (forall t :: t in w.chans[c].book.flying ==> t in ch.book.flying)
    && (shot.Some? ==> Shootable(c in w.futures, w.chans[c], ch, w.reg, shot.value))
  }

  lemma FireReg(reg: Registry, d: Desk, o: Owner, v: Option<Value>)
    requires RegOK(reg, d) && KeyOf(o) !in reg.fired
    requires if o.Plain? then o.token < d.next else o.token < |d.calls|
    ensures RegOK(Fire(reg, o, v), d)
  {
  }

  lemma ShiftReg(w: World, c: nat, ch: Chan, shot: Option<Fired>)
    requires Plumbing(w) && c < |w.chans| && Shifted(w, c, ch, shot)
    ensures RegOK(Shoot(w.reg, shot), w.desk)
  {
    if shot.Some? {
      assert QueueOK(w.desk, w.chans[c]);
      FireReg(w.reg, w.desk, shot.value.owner, shot.value.value);
    }
  }

  lemma ShiftChans(w: World, c: nat, ch: Chan, shot: Option<Fired>)
    requires ChansOK(w.chans, w.reg) && c < |w.chans| && Shifted(w, c, ch, shot)
    ensures ChansOK(w.chans[c := ch], Shoot(w.reg, shot))
  {
    var chans', reg' := w.chans[c := ch], Shoot(w.reg, shot);
    assert ChanInv(c, w.chans[c], w.reg);
    forall d | 0 <= d < |w.chans| ensures ChanInv(d, chans'[d], reg') {
      if d != c && shot.Some? {
        assert ChanInv(d, w.chans[d], w.reg);
        FiredElsewhere(d, w.chans[d], w.reg, shot.value.owner, shot.value.value);
      }
    }
  }

  lemma AloftStays(chans: seq<Chan>, c: nat, ch: Chan)
    requires c < |chans| && forall t :: t in chans[c].book.flying ==> t in ch.book.flying
    ensures forall d, t :: Aloft(chans, d, t) ==> Aloft(chans[c := ch], d, t)
  {
  }

  /** A callback fires: the call behind it has a case to run. */
  lemma ShotCommits(w: World, c: nat, ch: Chan, f: Fired)
    requires Plumbing(w) && c < |w.chans| && Shifted(w, c, ch, Some(f)) && f.owner.Case?
    requires Known(w.desk, f.owner.token) && w.desk.calls[f.owner.token].phase.Blocked?
    ensures CommittedOK(w.desk, w.chans[c := ch], f)
  {
    var o, ch0 := f.owner, w.chans[c];
    assert QueueOK(w.desk, ch0) && AtHome(c, ch0) by { assert ChanInv(c, ch0, w.reg); }
    assert o.ch == c;
    if o in Owners(ch0.sends) {
      assert SenderOK(w.desk, o);
    } else {
      assert ReceiverOK(w.desk, o);
      var cases := CasesOf(w.desk, o.token);
      assert Proper(w.futures, cases);
      assert cases[o.branch].RecvCase?;
    }
  }

  lemma ShiftCall(w: World, c: nat, ch: Chan, shot: Option<Fired>, t: nat)
    requires Plumbing(w) && c < |w.chans| && Shifted(w, c, ch, shot)
    requires Known(w.desk, t) && CallOK(w.desk, w.chans, w.reg, t)
    ensures CallOK(w.desk, w.chans[c := ch], Shoot(w.reg, shot), t)
  {
    AloftStays(w.chans, c, ch);
    if w.desk.calls[t].phase.Blocked? && SelectCall(t) !in w.reg.fired && SelectCall(t) in Shoot(w.reg, shot).fired {
      assert QueueOK(w.desk, w.chans[c]);
      ShotCommits(w, c, ch, shot.value);
    }
  }

  lemma ShiftCalls(w: World, c: nat, ch: Chan, shot: Option<Fired>)
    requires Plumbing(w) && c < |w.chans| && Shifted(w, c, ch, shot) && CallsOK(w, |w.desk.calls|)
    ensures CallsOK(SetChan(w, c, ch, Shoot(w.reg, shot)), |w.desk.calls|)
  {
    var chans', reg' := w.chans[c := ch], Shoot(w.reg, shot);
    forall t | 0 <= t < |w.desk.calls| ensures CallOK(w.desk, chans', reg', t) {
      ShiftCall(w, c, ch, shot, t);
    }
  }

  lemma ShiftPlumbing(w: World, c: nat, ch: Chan, shot: Option<Fired>)
    requires Plumbing(w) && c < |w.chans| && Shifted(w, c, ch, shot)
    ensures Plumbing(SetChan(w, c, ch, Shoot(w.reg, shot)))
  {
    ShiftReg(w, c, ch, shot);
    ShiftChans(w, c, ch, shot);
    SetOne(w.futures, w.desk, w.chans, c, ch);
  }

  lemma SetOne(futures: set<nat>, d: Desk, chans: seq<Chan>, c: nat, ch: Chan)
    requires KindsOK(futures, chans) && QueuesOK(d, chans) && c < |chans| && KindOK(futures, c, ch) && QueueOK(d, ch)
    ensures KindsOK(futures, chans[c := ch]) && QueuesOK(d, chans[c := ch])
  {
  }

  lemma ShiftKeepsInv(w: World, c: nat, ch: Chan, shot: Option<Fired>)
    requires Inv(w) && c < |w.chans| && Shifted(w, c, ch, shot)
    ensures Inv(SetChan(w, c, ch, Shoot(w.reg, shot)))
  {
    ShiftPlumbing(w, c, ch, shot);
    ShiftCalls(w, c, ch, shot);
  }

  // ---------------------------------------------------------------- receives and sends

  /** The callback a receive fires: the first blocked sender that accepts. */
  function Released(ch: Chan, reg: Registry): Option<Fired> {
    var i := FirstAccepting(Owners(ch.sends), reg);
    if ch.recValue.Some? || (ch.buffer == [] && ch.closed) || i == |ch.sends| then None
    else Some(Fired(ch.sends[i].owner, None))
  }

  lemma UnblockShape(ch: Chan, reg: Registry)
    requires Unfired(ch, reg)
    ensures var i, u := FirstAccepting(Owners(ch.sends), reg), Unblock(ch, reg);
            && u.reg == Shoot(reg, if i == |ch.sends| then None else Some(Fired(ch.sends[i].owner, None)))
            && u.ch == ch.(sends := u.ch.sends, book := ch.book.(base := u.ch.book.base))
            && (forall o :: o in Owners(u.ch.sends) ==> o in Owners(ch.sends))
            && (i < |ch.sends| ==> ch.sends[i].owner in Owners(ch.sends) && KeyOf(ch.sends[i].owner) !in reg.fired)
  {
    var i := FirstAccepting(Owners(ch.sends), reg);
    if i < |ch.sends| {
      assert Owners(ch.sends)[i] == ch.sends[i].owner;
      OwnersDrop(ch.sends, i + 1);
    }
  }

  lemma ReceiveShape(ch: Chan, reg: Registry, callback: Option<Owner>)
    requires Unfired(ch, reg)
    ensures var r := ReceiveImpl(ch, reg, callback);
            && r.reg == Shoot(reg, Released(ch, reg))
            && r.ch.closed == ch.closed && r.ch.book.flying == ch.book.flying
            && (forall o :: o in Owners(r.ch.sends) ==> o in Owners(ch.sends))
            && (forall o :: o in r.ch.receives ==> o in ch.receives || callback == Some(o))
    ensures Released(ch, reg).Some? ==>
              Released(ch, reg).value.owner in Owners(ch.sends) && KeyOf(Released(ch, reg).value.owner) !in reg.fired
  {
    UnblockShape(ch, reg);
  }

  /** The callback a send fires: the first blocked receiver that accepts. */
  function Woken(ch: Chan, reg: Registry, v: Value): Option<Fired> {
    var i := FirstAccepting(ch.receives, reg);
    if i == |ch.receives| then None else Some(Fired(ch.receives[i], Some(v)))
  }

  lemma SendShape(c: nat, ch: Chan, reg: Registry, v: Value, callback: Option<Owner>)
    requires ChanInv(c, ch, reg) && !ch.closed
    ensures var r := SendImpl(ch, reg, v, callback);
            && r.reg == Shoot(reg, Woken(ch, reg, v))
            && r.ch.closed == ch.closed && (forall t :: t in ch.book.flying ==> t in r.ch.book.flying)
            && (forall o :: o in Owners(r.ch.sends) ==> o in Owners(ch.sends) || callback == Some(o))
            && (forall o :: o in r.ch.receives ==> o in ch.receives)
            && (r.ok ==> r.ch.sends == ch.sends)
            && (Woken(ch, reg, v).Some? ==> Shootable(false, ch, r.ch, reg, Woken(ch, reg, v).value))
  {
    var i, r := FirstAccepting(ch.receives, reg), SendImpl(ch, reg, v, callback);
    if i == |ch.receives| && |ch.buffer| >= ch.size && callback.Some? {
      assert Owners(r.ch.sends) == Owners(ch.sends) + [callback.value];
    }
  }

  /** A fresh callback of a plain call or of a case being tried. */
  ghost predicate MayQueue(w: World, c: nat, o: Owner)
    requires c < |w.chans|
  {
    MayWait(c, w.chans[c], w.reg, o)
  }

  /** A future's channel holds no values; another one is never closed. */
  lemma ReceiveKind(futures: set<nat>, c: nat, ch: Chan, reg: Registry, callback: Option<Owner>)
    requires KindOK(futures, c, ch)
    ensures var r := ReceiveImpl(ch, reg, callback);
            if c in futures then KindOK(futures, c, r.ch) && r.value.None? && r.more == !ch.closed else r.more
  {
  }

  lemma ReceiveQueue(d: Desk, ch: Chan, reg: Registry, callback: Option<Owner>)
    requires QueueOK(d, ch) && Unfired(ch, reg) && (callback.Some? ==> ReceiverOK(d, callback.value))
    ensures QueueOK(d, ReceiveImpl(ch, reg, callback).ch)
  {
    ReceiveShape(ch, reg, callback);
  }

  /** A receive, before its value is passed on. */
  lemma ReceiveShifts(w: World, c: nat, callback: Option<Owner>)
    requires Plumbing(w) && c < |w.chans|
    requires callback.Some? ==> MayQueue(w, c, callback.value) && ReceiverOK(w.desk, callback.value)
    ensures var ch := w.chans[c];
            var r := ReceiveImpl(ch, w.reg, callback);
            && r.reg == Shoot(w.reg, Released(ch, w.reg))
            && KeptBut(c, r.ch, r.reg, Taken(r.value))
            && QueueOK(w.desk, r.ch) && r.ch.closed == ch.closed && r.ch.book.flying == ch.book.flying
            && (Released(ch, w.reg).Some? ==> Shootable(c in w.futures, ch, r.ch, w.reg, Released(ch, w.reg).value))
  {
    var ch := w.chans[c];
    assert ChanInv(c, ch, w.reg) && QueueOK(w.desk, ch);
    ReceiveQueue(w.desk, ch, w.reg, callback);
    ReceiveKeeps(c, ch, w.reg, callback);
    ReceiveShape(ch, w.reg, callback);
  }

  /** A receive that took a value, once the value has a place. */
  lemma PassedOn(w: World, c: nat, callback: Option<Owner>, ch: Chan)
    requires Inv(w) && c < |w.chans|
    requires callback.Some? ==> MayQueue(w, c, callback.value) && ReceiverOK(w.desk, callback.value)
    requires var r := ReceiveImpl(w.chans[c], w.reg, callback);
             && ChanInv(c, ch, r.reg) && KindOK(w.futures, c, ch)
             && ch.sends == r.ch.sends && ch.receives == r.ch.receives && ch.book.flying == r.ch.book.flying
    ensures Inv(SetChan(w, c, ch, ReceiveImpl(w.chans[c], w.reg, callback).reg))
  {
    ReceiveShifts(w, c, callback);
    ShiftKeepsInv(w, c, ch, Released(w.chans[c], w.reg));
  }

  lemma ReceiveByKeepsInv(w: World, c: nat, callback: Option<Owner>)
    requires Inv(w) && c < |w.chans|
    requires callback.Some? ==> MayQueue(w, c, callback.value) && ReceiverOK(w.desk, callback.value)
    ensures Inv(ReceiveBy(w, c, callback))
  {
    var r := ReceiveImpl(w.chans[c], w.reg, callback);
    ReceiveShifts(w, c, callback);
    ReceiveKind(w.futures, c, w.chans[c], w.reg, callback);
    assert KindOK(w.futures, c, w.chans[c]);
    if r.value.Some? {
      HandOverKeeps(c, r.ch, r.reg, r.value.value);
      PassedOn(w, c, callback, HandOver(r.ch, r.value.value));
      assert ReceiveBy(w, c, callback) == SetChan(w, c, HandOver(r.ch, r.value.value), r.reg);
    } else {
      assert Slot(r.ch) + Taken(r.value) == Slot(r.ch);
      PassedOn(w, c, callback, r.ch);
      assert ReceiveBy(w, c, callback) == SetChan(w, c, r.ch, r.reg);
    }
  }

  lemma PeekAtKeepsInv(w: World, c: nat)
    requires Inv(w) && c < |w.chans| && c !in w.futures
    ensures Inv(PeekAt(w, c))
  {
    var r := ReceiveImpl(w.chans[c], w.reg, None);
    ReceiveShifts(w, c, None);
    if r.value.Some? {
      PrefetchKeeps(c, r.ch, r.reg, r.value.value);
      PassedOn(w, c, None, Prefetch(r.ch, r.value.value));
    } else {
      assert Slot(r.ch) + Taken(r.value) == Slot(r.ch);
      PassedOn(w, c, None, r.ch);
    }
  }

  lemma SendShifts(w: World, c: nat, v: Value, callback: Option<Owner>)
    requires Plumbing(w) && c < |w.chans| && c !in w.futures
    requires callback.Some? ==> MayQueue(w, c, callback.value) && SenderOK(w.desk, callback.value)
    ensures var r := SendImpl(w.chans[c], w.reg, v, callback);
            && r.reg == Shoot(w.reg, Woken(w.chans[c], w.reg, v))
            && Shifted(w, c, r.ch, Woken(w.chans[c], w.reg, v))
  {
    assert ChanInv(c, w.chans[c], w.reg) && QueueOK(w.desk, w.chans[c]) && KindOK(w.futures, c, w.chans[c]);
    SendShape(c, w.chans[c], w.reg, v, callback);
    SendKeeps(c, w.chans[c], w.reg, v, callback);
  }

  lemma SendByKeepsInv(w: World, c: nat, v: Value, callback: Option<Owner>)
    requires Inv(w) && c < |w.chans| && c !in w.futures
    requires callback.Some? ==> MayQueue(w, c, callback.value) && SenderOK(w.desk, callback.value)
    ensures Inv(SendBy(w, c, v, callback))
  {
    var r := SendImpl(w.chans[c], w.reg, v, callback);
    SendShifts(w, c, v, callback);
    ShiftKeepsInv(w, c, r.ch, Woken(w.chans[c], w.reg, v));
  }

  lemma BumpKeepsInv(w: World)
    requires Inv(w)
    ensures Inv(Bump(w))
  {
    var d, d' := w.desk, Bump(w).desk;
    forall o | SenderOK(d, o) ensures SenderOK(d', o) { assert o.Case? ==> Listed(d', o); }
    forall o | ReceiverOK(d, o) ensures ReceiverOK(d', o) { assert o.Case? ==> Listed(d', o); }
    forall c | 0 <= c < |w.chans| ensures QueueOK(d', w.chans[c]) { assert QueueOK(d, w.chans[c]); }
    forall t | 0 <= t < |d.calls| ensures CallOK(d', w.chans, w.reg, t) { assert CallOK(d, w.chans, w.reg, t); }
  }

  /** A plain call's token is new. */
  lemma FreshPlain(w: World, c: nat)
    requires Inv(w) && c < |w.chans|
    ensures MayQueue(Bump(w), c, Plain(w.desk.next, c))
    ensures SenderOK(Bump(w).desk, Plain(w.desk.next, c)) && ReceiverOK(Bump(w).desk, Plain(w.desk.next, c))
  {
    assert QueueOK(w.desk, w.chans[c]);
  }

  // ---------------------------------------------------------------- a case function runs

  /** Two calls of one selector are never both under way. */
  lemma AloneInSelector(d: Desk, t: nat, u: nat)
    requires OneAtATime(d.calls) && t < |d.calls| && u < |d.calls| && t != u
    requires !d.calls[t].phase.Returned? && !d.calls[u].phase.Returned?
    ensures d.calls[t].selector != d.calls[u].selector
  {
  }

  /** What running a case leaves as it was for everybody else. */
  lemma RunCaseSpares(d: Desk, t: nat, i: nat, u: nat)
    requires Known(d, t) && i < |CasesOf(d, t)| && Known(d, u) && u != t
    ensures var d' := SetPhase(SpendCase(d, t, i), t, Running(i));
            && Known(d', u) && d'.calls[u] == d.calls[u] && |CasesOf(d', u)| == |CasesOf(d, u)|
            && (d.calls[u].selector != d.calls[t].selector ==> CasesOf(d', u) == CasesOf(d, u))
            && forall j :: 0 <= j < |CasesOf(d, u)| ==>
                 CasesOf(d', u)[j] == CasesOf(d, u)[j] || CasesOf(d', u)[j] == Spend(CasesOf(d, u)[j])
  {
  }

  lemma RunCaseQueue(d: Desk, t: nat, i: nat, ch: Chan)
    requires Known(d, t) && i < |CasesOf(d, t)| && d.calls[t].phase.Blocked? && OneAtATime(d.calls) && QueueOK(d, ch)
    ensures QueueOK(SetPhase(SpendCase(d, t, i), t, Running(i)), ch)
  {
    var d' := SetPhase(SpendCase(d, t, i), t, Running(i));
    forall o | o in Owners(ch.sends) ensures SenderOK(d', o) {
      assert SenderOK(d, o);
      if o.Case? && o.token != t { RunCaseSpares(d, t, i, o.token); }
    }
    forall o | o in ch.receives ensures ReceiverOK(d', o) {
      assert ReceiverOK(d, o);
      if o.Case? && o.token != t {
        RunCaseSpares(d, t, i, o.token);
        AloneInSelector(d, t, o.token);
      }
    }
  }

  lemma RunCaseCall(w: World, t: nat, i: nat, u: nat)
    requires Known(w.desk, t) && i < |CasesOf(w.desk, t)| && w.desk.calls[t].phase.Blocked? && OneAtATime(w.desk.calls)
    requires Known(w.desk, u) && u != t && CallOK(w.desk, w.chans, w.reg, u)
    requires SelectCall(u) in w.reg.fired ==> KeyOf(w.reg.fired[SelectCall(u)].owner) == SelectCall(u)
    ensures CallOK(SetPhase(SpendCase(w.desk, t, i), t, Running(i)), w.chans, w.reg, u)
  {
    RunCaseSpares(w.desk, t, i, u);
    if w.desk.calls[u].phase.Blocked? { AloneInSelector(w.desk, t, u); }
  }

  lemma RunCaseSelectors(d: Desk, t: nat, i: nat, n: nat, futures: set<nat>)
    requires Known(d, t) && i < |CasesOf(d, t)| && InRange(d, n) && SelectorsOK(futures, d.selectors)
    ensures InRange(SetPhase(SpendCase(d, t, i), t, Running(i)), n)
    ensures SelectorsOK(futures, SetPhase(SpendCase(d, t, i), t, Running(i)).selectors)
  {
    var s := d.calls[t].selector;
    var cases, cases' := d.selectors[s], d.selectors[s][i := Spend(d.selectors[s][i])];
    assert Proper(futures, cases) && CasesInRange(cases, n);
    assert forall j :: 0 <= j < |cases| ==> cases'[j] == if j == i then Spend(cases[j]) else cases[j];
    assert Proper(futures, cases') && CasesInRange(cases', n);
  }

  lemma RunCasePlumbing(w: World, t: nat, i: nat)
    requires Plumbing(w) && Known(w.desk, t) && i < |CasesOf(w.desk, t)| && w.desk.calls[t].phase.Blocked?
    requires OneAtATime(w.desk.calls)
    ensures Plumbing(RunCase(w, t, i))
  {
    var d' := RunCase(w, t, i).desk;
    RunCaseSelectors(w.desk, t, i, |w.chans|, w.futures);
    forall c | 0 <= c < |w.chans| ensures QueueOK(d', w.chans[c]) {
      RunCaseQueue(w.desk, t, i, w.chans[c]);
    }
  }

  lemma RunCaseHistory(w: World, t: nat, i: nat)
    requires History(w) && Known(w.desk, t) && i < |CasesOf(w.desk, t)| && w.desk.calls[t].phase.Blocked?
    requires CasesOf(w.desk, t)[i].FutureCase? ==> !CasesOf(w.desk, t)[i].spent
    ensures History(RunCase(w, t, i))
  {
    RunCaseRan(w, t, i);
    RunCaseOnce(w, t, i);
    RunCaseAlone(w.desk.calls, t, i);
  }

  lemma RunCaseAlone(calls: seq<Call>, t: nat, i: nat)
    requires OneAtATime(calls) && t < |calls| && !calls[t].phase.Returned?
    ensures OneAtATime(calls[t := calls[t].(phase := Running(i))])
  {
  }

  lemma RunCaseRan(w: World, t: nat, i: nat)
    requires RanOK(w.ran, w.desk.calls) && Known(w.desk, t) && i < |CasesOf(w.desk, t)| &&
             w.desk.calls[t].phase.Blocked?
    ensures RanOK(RunCase(w, t, i).ran, RunCase(w, t, i).desk.calls)
  {
    var w', entry := RunCase(w, t, i), Ran(t, w.desk.calls[t].selector, i);
    assert w'.ran[..|w'.ran| - 1] == w.ran;
    forall u | 0 <= u < |w.desk.calls| ensures RanFor(w'.ran, u) == Expected(w'.desk.calls[u], u) {
      assert RanFor(w'.ran, u) == RanFor(w.ran, u) + if u == t then [entry] else [];
    }
  }

  lemma RunCaseOnce(w: World, t: nat, i: nat)
    requires FuturesOnce(w.desk, w.ran) && Known(w.desk, t) && i < |CasesOf(w.desk, t)|
    requires CasesOf(w.desk, t)[i].FutureCase? ==> !CasesOf(w.desk, t)[i].spent
    ensures FuturesOnce(RunCase(w, t, i).desk, RunCase(w, t, i).ran)
  {
    var w', d, entry := RunCase(w, t, i), w.desk, Ran(t, w.desk.calls[t].selector, i);
    forall r ensures IsFuture(w'.desk, r) <==> IsFuture(d, r) {
    }
    forall r | r in w'.ran && IsFuture(w'.desk, r) ensures w'.desk.selectors[r.selector][r.branch].spent {
      assert r == entry || (r in w.ran && IsFuture(d, r));
    }
    forall a, b | 0 <= a < b < |w'.ran| && IsFuture(w'.desk, w'.ran[a])
      ensures w'.ran[a].selector != w'.ran[b].selector || w'.ran[a].branch != w'.ran[b].branch
    {
      assert w'.ran[a] == w.ran[a] && IsFuture(d, w.ran[a]);
      if b == |w.ran| { assert w'.ran[b] == entry; }
    }
  }

  lemma RunCaseKeepsInv(w: World, t: nat, i: nat)
    requires Plumbing(w) && CallsOK(w, t) && History(w)
    requires Known(w.desk, t) && w.desk.calls[t].phase.Blocked? && Chose(w.desk, w.reg, t, i)
    requires CasesOf(w.desk, t)[i].FutureCase? ==> !CasesOf(w.desk, t)[i].spent
    ensures Inv(RunCase(w, t, i))
  {
    RunCasePlumbing(w, t, i);
    RunCaseHistory(w, t, i);
    var w' := RunCase(w, t, i);
    forall u | 0 <= u < |w.desk.calls| ensures Known(w'.desk, u) && CallOK(w'.desk, w.chans, w.reg, u) {
      if u != t {
        assert Known(w.desk, u);
        RunCaseCall(w, t, i, u);
        RunCaseSpares(w.desk, t, i, u);
      }
    }
  }
}
