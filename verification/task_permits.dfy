/**
 The task permits of a worker: pollers acquire one before they poll, it travels with the
 task through the queue to the goroutine that processes it, and is released there.

 Every permit that was ever granted has a number, so that one can say where it is.
 */
module TaskPermits {
  import opened Common

  /** A poller, and the permit it has: waiting in its channel, taken, past the poller permit, or with a polled task. */
  datatype Poller = Idle | Offered(permit: nat) | Acquired(permit: nat) | Polling(permit: nat) | HasTask(permit: nat)

  /** A task in the queue. Local activity results go through it too, without a permit. */
  datatype Item = Polled(permit: nat) | LocalResult

  datatype Worker = Worker(
    pollers: seq<Poller>,
    queue: seq<Item>,
    inHand: seq<Item>,
    processing: seq<Item>,
    granted: nat,
    returned: seq<nat>,
    leaked: seq<nat>,
    quota: nat,
    peak: nat,
    shutdown: bool)

  datatype Op =
    | Grant(p: nat)
    | Take(p: nat)
    | AcquirePoller(p: nat, ok: bool)
    | Poll(p: nat, gotTask: bool)
    | Enqueue(p: nat)
    | GiveUp(p: nat)
    | PutLocalResult
    | Dispatch
    | StartTask
    | DropTask
    | Finish(i: nat, panicked: bool)
    | SetQuota(n: nat)
    | Shutdown

  /** Permits granted and not returned: what the semaphore counts. */
  function Held(w: Worker): int { w.granted - |w.returned| }

  function Hand(o: Item): seq<nat> { if o.Polled? then [o.permit] else [] }

  function Keeps(p: Poller): seq<nat> { if p.Idle? then [] else [p.permit] }

  predicate Enabled(w: Worker, op: Op) {
    match op
    case Grant(p) => p < |w.pollers| && w.pollers[p].Idle? && Held(w) < w.quota && !w.shutdown
    case Take(p) => p < |w.pollers| && w.pollers[p].Offered?
    case AcquirePoller(p, ok) => p < |w.pollers| && w.pollers[p].Acquired? && (ok || w.shutdown)
    case Poll(p, _) => p < |w.pollers| && w.pollers[p].Polling?
    case Enqueue(p) => p < |w.pollers| && w.pollers[p].HasTask?
    case GiveUp(p) => p < |w.pollers| && (w.pollers[p].HasTask? || w.pollers[p].Offered?) && w.shutdown
    case PutLocalResult => true
    case Dispatch => w.inHand == [] && w.queue != []
    case StartTask => w.inHand != []
    case DropTask => w.inHand != [] && w.inHand[0].Polled? && w.shutdown
    case Finish(i, _) => i < |w.processing|
    case SetQuota(_) => true
    case Shutdown => true
  }

  function SetPoller(w: Worker, p: nat, s: Poller): Worker
    requires p < |w.pollers|
  {
    w.(pollers := w.pollers[p := s])
  }

  function Release(w: Worker, ids: seq<nat>): Worker { w.(returned := w.returned + ids) }

  /** A panic in a task is recovered and the permit is released all the same. */
  function Step(w: Worker, op: Op): Worker
    requires Enabled(w, op)
  {
    match op
    case Grant(p) => SetPoller(w, p, Offered(w.granted)).(granted := w.granted + 1)
    case Take(p) => SetPoller(w, p, Acquired(w.pollers[p].permit))
    case AcquirePoller(p, ok) =>
      if ok then SetPoller(w, p, Polling(w.pollers[p].permit))
      else SetPoller(w, p, Idle).(leaked := w.leaked + Keeps(w.pollers[p]))
    case Poll(p, gotTask) =>
      if gotTask then SetPoller(w, p, HasTask(w.pollers[p].permit))
      else Release(SetPoller(w, p, Idle), Keeps(w.pollers[p]))
    case Enqueue(p) => SetPoller(w, p, Idle).(queue := w.queue + [Polled(w.pollers[p].permit)])
    case GiveUp(p) =>
      if w.pollers[p].Offered? then Release(SetPoller(w, p, Idle), Keeps(w.pollers[p]))
      else SetPoller(w, p, Idle).(leaked := w.leaked + Keeps(w.pollers[p]))
    case PutLocalResult => w.(queue := w.queue + [LocalResult])
    case Dispatch => w.(queue := w.queue[1..], inHand := [w.queue[0]])
    case StartTask => w.(inHand := w.inHand[1..], processing := w.processing + [w.inHand[0]])
    case DropTask => w.(inHand := w.inHand[1..], leaked := w.leaked + Hand(w.inHand[0]))
    case Finish(i, _) => Release(w.(processing := Without(w.processing, i)), Hand(w.processing[i]))
    case SetQuota(n) => w.(quota := n, peak := if n > w.peak then n else w.peak)
    case Shutdown => w.(shutdown := true)
  }

  function Start(pollers: nat, quota: nat): Worker {
    Worker(seq(pollers, i => Idle), [], [], [], 0, [], [], quota, quota, false)
  }

  function Run(w: Worker, ops: seq<Op>): Worker
    decreases |ops|
  {
    if ops == [] then w
    else
      var w' := Run(w, ops[..|ops| - 1]);
      if Enabled(w', ops[|ops| - 1]) then Step(w', ops[|ops| - 1]) else w'
  }

  // ---------------------------------------------------------------- where the permits are

  function OfPollers(ps: seq<Poller>): seq<nat> {
    if ps == [] then [] else Keeps(ps[0]) + OfPollers(ps[1..])
  }

  function OfItems(items: seq<Item>): seq<nat> {
    if items == [] then [] else Hand(items[0]) + OfItems(items[1..])
  }

  function Count(s: seq<nat>, k: nat): nat {
    if s == [] then 0 else (if s[0] == k then 1 else 0) + Count(s[1..], k)
  }

  /** How often a permit is with a poller, in the queue, with the dispatcher, or with a task being processed. */
  function Outstanding(w: Worker, k: nat): nat {
    Count(OfPollers(w.pollers), k) + Count(OfItems(w.queue), k) +
    Count(OfItems(w.inHand), k) + Count(OfItems(w.processing), k)
  }

  function OutstandingPermits(w: Worker): nat {
    |OfPollers(w.pollers)| + |OfItems(w.queue)| + |OfItems(w.inHand)| + |OfItems(w.processing)|
  }

  /** A permit that was granted is in exactly one place, any other in none. */
  ghost predicate Accounted(w: Worker, k: nat) {
    Outstanding(w, k) + Count(w.returned, k) + Count(w.leaked, k) == if k < w.granted then 1 else 0
  }

  ghost predicate Inv(w: Worker) {
    && (forall k: nat :: Accounted(w, k))
    && w.granted == OutstandingPermits(w) + |w.returned| + |w.leaked|
    && Held(w) <= w.peak && w.quota <= w.peak
    && (!w.shutdown ==> w.leaked == [])
  }

  lemma {:induction false} CountAppends(a: seq<nat>, b: seq<nat>, k: nat)
    ensures Count(a + b, k) == Count(a, k) + Count(b, k)
  {
    if a == [] {
      assert a + b == b;
    } else {
      assert (a + b)[1..] == a[1..] + b;
      CountAppends(a[1..], b, k);
    }
  }

  lemma {:induction false} PollerChanges(ps: seq<Poller>, p: nat, s: Poller, k: nat)
    requires p < |ps|
    ensures Count(OfPollers(ps[p := s]), k) + Count(Keeps(ps[p]), k) == Count(OfPollers(ps), k) + Count(Keeps(s), k)
    ensures |OfPollers(ps[p := s])| + |Keeps(ps[p])| == |OfPollers(ps)| + |Keeps(s)|
  {
    var ps' := ps[p := s];
    OfFirst(ps, k);
    OfFirst(ps', k);
    if p == 0 {
      assert ps'[1..] == ps[1..];
    } else {
      assert ps'[1..] == ps[1..][p - 1 := s];
      PollerChanges(ps[1..], p - 1, s, k);
    }
  }

  lemma OfFirst(ps: seq<Poller>, k: nat)
    requires ps != []
    ensures Count(OfPollers(ps), k) == Count(Keeps(ps[0]), k) + Count(OfPollers(ps[1..]), k)
    ensures |OfPollers(ps)| == |Keeps(ps[0])| + |OfPollers(ps[1..])|
  {
    CountAppends(Keeps(ps[0]), OfPollers(ps[1..]), k);
  }

  lemma {:induction false} ItemAdded(items: seq<Item>, x: Item, k: nat)
    ensures Count(OfItems(items + [x]), k) == Count(OfItems(items), k) + Count(Hand(x), k)
    ensures |OfItems(items + [x])| == |OfItems(items)| + |Hand(x)|
  {
    if items == [] {
      assert [] + [x] == [x] && [x][1..] == [] && Hand(x) + [] == Hand(x);
    } else {
      assert (items + [x])[0] == items[0] && (items + [x])[1..] == items[1..] + [x];
      ItemAdded(items[1..], x, k);
      CountAppends(Hand(items[0]), OfItems(items[1..]), k);
      CountAppends(Hand(items[0]), OfItems(items[1..] + [x]), k);
    }
  }

  lemma {:induction false} ItemRemoved(items: seq<Item>, i: nat, k: nat)
    requires i < |items|
    ensures Count(OfItems(items), k) == Count(OfItems(Without(items, i)), k) + Count(Hand(items[i]), k)
    ensures |OfItems(items)| == |OfItems(Without(items, i))| + |Hand(items[i])|
  {
    CountAppends(Hand(items[0]), OfItems(items[1..]), k);
    if i == 0 {
      assert Without(items, 0) == items[1..];
    } else {
      var rest := Without(items, i);
      assert rest[0] == items[0] && rest[1..] == Without(items[1..], i - 1);
      ItemRemoved(items[1..], i - 1, k);
      CountAppends(Hand(rest[0]), OfItems(rest[1..]), k);
    }
  }

  // ---------------------------------------------------------------- every step

  ghost predicate Sized(w: Worker) { w.granted == OutstandingPermits(w) + |w.returned| + |w.leaked| }

  predicate OfPoller(op: Op) { op.Grant? || op.Take? || op.AcquirePoller? || op.Poll? || op.GiveUp? }

  ghost predicate Fits(w: Worker, k: nat) { Accounted(w, k) && Sized(w) }

  /** A poller passes its permit on to its own next stage. */
  lemma PollerMoves(w: Worker, p: nat, s: Poller, k: nat)
    requires Fits(w, k) && p < |w.pollers| && Keeps(s) == Keeps(w.pollers[p])
    ensures Fits(SetPoller(w, p, s), k)
  {
    PollerChanges(w.pollers, p, s, k);
  }

  lemma PollerReleases(w: Worker, p: nat, k: nat)
    requires Fits(w, k) && p < |w.pollers|
    ensures Fits(Release(SetPoller(w, p, Idle), Keeps(w.pollers[p])), k)
  {
    PollerChanges(w.pollers, p, Idle, k);
    CountAppends(w.returned, Keeps(w.pollers[p]), k);
  }

  lemma PollerLeaks(w: Worker, p: nat, k: nat)
    requires Fits(w, k) && p < |w.pollers|
    ensures Fits(SetPoller(w, p, Idle).(leaked := w.leaked + Keeps(w.pollers[p])), k)
  {
    PollerChanges(w.pollers, p, Idle, k);
    CountAppends(w.leaked, Keeps(w.pollers[p]), k);
  }

  lemma PollerIsGranted(w: Worker, p: nat, k: nat)
    requires Fits(w, k) && p < |w.pollers| && w.pollers[p].Idle?
    ensures Fits(SetPoller(w, p, Offered(w.granted)).(granted := w.granted + 1), k)
  {
    PollerChanges(w.pollers, p, Offered(w.granted), k);
  }

  lemma StepPoller(w: Worker, op: Op, k: nat)
    requires Fits(w, k) && Enabled(w, op) && OfPoller(op)
    ensures Fits(Step(w, op), k)
  {
    match op
    case Grant(p) => PollerIsGranted(w, p, k);
    case Take(p) => PollerMoves(w, p, Acquired(w.pollers[p].permit), k);
    case AcquirePoller(p, ok) =>
      if ok { PollerMoves(w, p, Polling(w.pollers[p].permit), k); } else { PollerLeaks(w, p, k); }
    case Poll(p, gotTask) =>
      if gotTask { PollerMoves(w, p, HasTask(w.pollers[p].permit), k); } else { PollerReleases(w, p, k); }
    case GiveUp(p) =>
      if w.pollers[p].Offered? { PollerReleases(w, p, k); } else { PollerLeaks(w, p, k); }
  }

  lemma PollerEnqueues(w: Worker, p: nat, k: nat)
    requires Fits(w, k) && Enabled(w, Enqueue(p))
    ensures Fits(Step(w, Enqueue(p)), k)
  {
    PollerChanges(w.pollers, p, Idle, k);
    ItemAdded(w.queue, Polled(w.pollers[p].permit), k);
  }

  lemma FirstItem(items: seq<Item>, k: nat)
    requires items != []
    ensures Count(OfItems(items), k) == Count(OfItems(items[1..]), k) + Count(Hand(items[0]), k)
    ensures |OfItems(items)| == |OfItems(items[1..])| + |Hand(items[0])|
  {
    CountAppends(Hand(items[0]), OfItems(items[1..]), k);
  }

  lemma QueueMovesOn(w: Worker, k: nat)
    requires Fits(w, k) && Enabled(w, Dispatch)
    ensures Fits(Step(w, Dispatch), k)
  {
    FirstItem(w.queue, k);
    assert OfItems([w.queue[0]]) == Hand(w.queue[0]) + [] == Hand(w.queue[0]);
  }

  lemma HandMovesOn(w: Worker, k: nat)
    requires Fits(w, k) && Enabled(w, StartTask)
    ensures Fits(Step(w, StartTask), k)
  {
    FirstItem(w.inHand, k);
    ItemAdded(w.processing, w.inHand[0], k);
  }

  lemma HandDrops(w: Worker, k: nat)
    requires Fits(w, k) && Enabled(w, DropTask)
    ensures Fits(Step(w, DropTask), k)
  {
    FirstItem(w.inHand, k);
    CountAppends(w.leaked, Hand(w.inHand[0]), k);
  }

  lemma TaskFinishes(w: Worker, i: nat, panicked: bool, k: nat)
    requires Fits(w, k) && Enabled(w, Finish(i, panicked))
    ensures Fits(Step(w, Finish(i, panicked)), k)
  {
    ItemRemoved(w.processing, i, k);
    CountAppends(w.returned, Hand(w.processing[i]), k);
  }

  lemma StepTask(w: Worker, op: Op, k: nat)
    requires Fits(w, k) && Enabled(w, op) && !OfPoller(op)
    ensures Fits(Step(w, op), k)
  {
    match op
    case Enqueue(p) => PollerEnqueues(w, p, k);
    case PutLocalResult => ItemAdded(w.queue, LocalResult, k);
    case Dispatch => QueueMovesOn(w, k);
    case StartTask => HandMovesOn(w, k);
    case DropTask => HandDrops(w, k);
    case Finish(i, panicked) => TaskFinishes(w, i, panicked, k);
    case SetQuota(_) =>
    case Shutdown =>
  }

  lemma StepKeepsInv(w: Worker, op: Op)
    requires Inv(w) && Enabled(w, op)
    ensures Inv(Step(w, op))
  {
    var w' := Step(w, op);
    forall k: nat ensures Accounted(w', k) && Sized(w') {
      assert Accounted(w, k);
      if OfPoller(op) { StepPoller(w, op, k); } else { StepTask(w, op, k); }
    }
    assert Accounted(w', 0) && Sized(w');
    StepBounds(w, op);
  }

  lemma StepBounds(w: Worker, op: Op)
    requires Held(w) <= w.peak && w.quota <= w.peak && (!w.shutdown ==> w.leaked == []) && Enabled(w, op)
    ensures var w' := Step(w, op); Held(w') <= w'.peak && w'.quota <= w'.peak && (!w'.shutdown ==> w'.leaked == [])
  {
  }

  lemma {:induction false} NobodyHolds(n: nat)
    ensures OfPollers(seq(n, i => Idle)) == []
  {
    var ps := seq(n, i => Idle);
    if n > 0 {
      assert ps[1..] == seq(n - 1, i => Idle);
      NobodyHolds(n - 1);
    }
  }

  lemma {:induction false} RunKeepsInv(pollers: nat, quota: nat, ops: seq<Op>)
    ensures Inv(Run(Start(pollers, quota), ops))
    decreases |ops|
  {
    if ops == [] {
      NobodyHolds(pollers);
    } else {
      RunKeepsInv(pollers, quota, ops[..|ops| - 1]);
      var w := Run(Start(pollers, quota), ops[..|ops| - 1]);
      if Enabled(w, ops[|ops| - 1]) { StepKeepsInv(w, ops[|ops| - 1]); }
    }
  }

  // ---------------------------------------------------------------- every run

  /**
   Before shutdown the permits held are those of pollers past acquisition, queued polled tasks and
   polled tasks being processed; at any time, what is missing from that was lost to the shutdown.
   */
  lemma PermitsAreConserved(pollers: nat, quota: nat, ops: seq<Op>)
    ensures var w := Run(Start(pollers, quota), ops);
            && Held(w) == OutstandingPermits(w) + |w.leaked|
            && (!w.shutdown ==> |w.leaked| == 0)
  {
    RunKeepsInv(pollers, quota, ops);
  }

  /**
   No permit is returned twice, or returned while someone still has it; before shutdown every other one
   is with someone.
   */
  lemma PermitsAreReturnedOnce(pollers: nat, quota: nat, ops: seq<Op>, permit: nat)
    ensures var w := Run(Start(pollers, quota), ops);
            && Count(w.returned, permit) <= 1
            && (Count(w.returned, permit) == 1 ==> permit < w.granted && Outstanding(w, permit) == 0)
            && (permit < w.granted && !w.shutdown ==> Outstanding(w, permit) == 1 - Count(w.returned, permit))
  {
    RunKeepsInv(pollers, quota, ops);
    assert Accounted(Run(Start(pollers, quota), ops), permit);
  }

  /** The polled tasks being processed never outnumber the largest quota there has been. */
  lemma ProcessingIsBounded(pollers: nat, quota: nat, ops: seq<Op>)
    ensures |OfItems(Run(Start(pollers, quota), ops).processing)| <= Run(Start(pollers, quota), ops).peak
  {
    RunKeepsInv(pollers, quota, ops);
  }

  /** With a quota that stays as it is, that is the quota. */
  lemma {:induction false} FixedQuota(pollers: nat, quota: nat, ops: seq<Op>)
    requires forall op :: op in ops ==> !op.SetQuota?
    ensures Run(Start(pollers, quota), ops).peak == quota
    decreases |ops|
  {
    if ops != [] { FixedQuota(pollers, quota, ops[..|ops| - 1]); }
  }

  lemma {:induction false} NotShutDown(w: Worker, ops: seq<Op>)
    requires !w.shutdown && Shutdown !in ops
    ensures !Run(w, ops).shutdown
    decreases |ops|
  {
    if ops != [] { NotShutDown(w, ops[..|ops| - 1]); }
  }

  /**
   A permit that is held but with nobody is a leaked one, and leaked once; a run without a shutdown
   leaks none, so there every permit granted is with someone or was returned.
   */
  lemma MissingPermitsLeaked(pollers: nat, quota: nat, ops: seq<Op>, permit: nat)
    requires permit < Run(Start(pollers, quota), ops).granted
    ensures var w := Run(Start(pollers, quota), ops);
            && (permit in w.leaked <==> Outstanding(w, permit) == 0 && permit !in w.returned)
            && Count(w.leaked, permit) <= 1
            && (Shutdown !in ops ==> permit !in w.leaked)
  {
    var w := Run(Start(pollers, quota), ops);
    RunKeepsInv(pollers, quota, ops);
    assert Accounted(w, permit);
    CountIsMembership(w.leaked, permit);
    CountIsMembership(w.returned, permit);
    if Shutdown !in ops { NotShutDown(Start(pollers, quota), ops); }
  }

  lemma {:induction false} CountIsMembership(s: seq<nat>, k: nat)
    ensures Count(s, k) > 0 <==> k in s
  {
    if s != [] { CountIsMembership(s[1..], k); }
  }
}
