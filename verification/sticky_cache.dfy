/**
 The cached execution contexts of one workflow run.

 A task fetches a context from the cache, or makes one, and later locks and processes it;
 other tasks and evictions come in between. `Process` is everything done under the lock.
 */
module StickyCache {
  import opened Common

  /** `applied` lists the IDs of the events the event handler has processed; a destroyed context has no handler. */
  datatype Ctx = Ctx(alive: bool, previousStarted: nat, applied: seq<nat>)

  /** Events `first..last`; `first` is 0 for a history without events. */
  datatype Task = Task(query: bool, first: nat, last: nat)

  /**
   A decision task that a heartbeat brought while local activities kept the first one open, and how its
   processing goes.
   */
  datatype Beat = Beat(task: Task, resets: bool, processed: nat, stop: bool)

  /**
   How processing goes: which history resets succeed, how many events are applied, and whether it fails
   or completes.
   */
  datatype Outcome = Outcome(resets: bool, resetsAgain: bool, processed: nat, stop: bool, beats: seq<Beat>)

  function EventsFrom(first: nat, n: nat): (r: seq<nat>)
    ensures |r| == n && forall i :: 0 <= i < n ==> r[i] == first + i
  {
    seq(n, i => first + i)
  }

  const FRESH := Ctx(true, 0, [])
  const DESTROYED := Ctx(false, 0, [])

  predicate IsFullHistory(t: Task) { t.first == 1 }

  predicate Stale(c: Ctx, t: Task) { t.first != 0 && t.first != c.previousStarted + 1 }

  /** The context and the task's history as they go along. */
  datatype Stage = Stage(ctx: Ctx, task: Task, failed: bool)

  /** Fetch history from its first event unless it starts there already. */
  function ResetHistory(t: Task, ok: bool): Task { if ok then t.(first := 1) else t }

  /** A destroyed context starts over, from the beginning of history. */
  function ResetStateIfDestroyed(s: Stage, ok: bool): Stage {
    if s.ctx.alive then s
    else if IsFullHistory(s.task) then s.(ctx := FRESH)
    else Stage(FRESH, ResetHistory(s.task, ok), !ok)
  }

  function ResetIfStale(s: Stage, ok: bool): Stage {
    if Stale(s.ctx, s.task) then ResetStateIfDestroyed(s.(ctx := DESTROYED), ok) else s
  }

  /**
   On a cache hit a decision task, or a query with full history, first resets a stale context; a failure
   is ignored.
   */
  function EnterHit(s: Stage, ok: bool): Stage {
    if s.task.query && !IsFullHistory(s.task) then s else ResetIfStale(s, ok).(failed := false)
  }

  /** The checks before events are applied. */
  function Enter(c: Ctx, t: Task, hit: bool, o: Outcome): Stage {
    var s := if hit then EnterHit(Stage(c, t, false), o.resets) else Stage(c, t, false);
    var s' := ResetStateIfDestroyed(s, o.resets);
    if s'.failed then s' else ResetIfStale(s', o.resetsAgain)
  }

  function Pending(t: Task): nat { if t.first == 0 || t.last < t.first then 0 else t.last - t.first + 1 }

  function Min(a: nat, b: nat): nat { if a < b then a else b }

  /** Apply the events of a task; only a decision task moves the previous started event ID. */
  function Apply(c: Ctx, t: Task, n: nat): Ctx {
    var prev := if t.query then c.previousStarted else t.last;
    Ctx(true, prev, c.applied + EventsFrom(t.first, n))
  }

  /** How many events are applied. */
  function Progress(s: Stage, o: Outcome): nat { if s.failed then 0 else Min(o.processed, Pending(s.task)) }

  /** The first task, and whether processing ends there: by failing, or by completing the workflow. */
  function Begin(c: Ctx, t: Task, hit: bool, o: Outcome): (Ctx, bool) {
    var s := Enter(c, t, hit, o);
    if s.failed then (s.ctx, true)
    else (Apply(s.ctx, s.task, Progress(s, o)), o.stop || Progress(s, o) < Pending(s.task))
  }

  /** The task of a heartbeat, under the same lock. */
  function Go(c: Ctx, b: Beat): (Ctx, bool) {
    var s := ResetIfStale(Stage(c, b.task, false), b.resets);
    var n := Min(b.processed, Pending(s.task));
    if s.failed then (s.ctx, true) else (Apply(s.ctx, s.task, n), b.stop || n < Pending(s.task))
  }

  function GoOn(c: Ctx, beats: seq<Beat>): (Ctx, bool)
    decreases |beats|
  {
    if beats == [] then (c, false)
    else
      var r := Go(c, beats[0]);
      if r.1 then r else GoOn(r.0, beats[1..])
  }

  /** Work under the lock, before it is released. */
  function Work(c: Ctx, t: Task, hit: bool, o: Outcome): (Ctx, bool) {
    var r := Begin(c, t, hit, o);
    if r.1 then r else GoOn(r.0, o.beats)
  }

  // ---------------------------------------------------------------- the worker

  datatype Fetched = Fetched(task: Task, ctx: nat, hit: bool)

  /** `shared` are the contexts that were in the cache at some time: only these can be fetched by others. */
  datatype Worker = Worker(ctxs: seq<Ctx>, shared: set<nat>, cached: Option<nat>, fetched: seq<Fetched>)

  datatype Op =
    | Fetch(task: Task, resets: bool, sticky: bool)
    | Process(i: nat, outcome: Outcome)
    | Evict

  /** Removing a context from the cache clears it. */
  function EvictCached(w: Worker): Worker
    requires w.cached.Some? ==> w.cached.value < |w.ctxs|
  {
    if w.cached.None? then w else w.(ctxs := w.ctxs[w.cached.value := DESTROYED], cached := None)
  }

  /** `getOrCreateWorkflowContext` up to the lock. */
  function FetchTask(w: Worker, t: Task, resets: bool, sticky: bool): Worker {
    if (!t.query || !IsFullHistory(t)) && w.cached.Some? then
      w.(fetched := w.fetched + [Fetched(t, w.cached.value, true)])
    else if !IsFullHistory(t) && !resets then w
    else
      var c := |w.ctxs|;
      var keep := sticky && !t.query && w.cached.None?;
      Worker(w.ctxs + [FRESH], if keep then w.shared + {c} else w.shared, if keep then Some(c) else w.cached,
             w.fetched + [Fetched(t.(first := 1), c, false)])
  }

  function UnlockCtx(w: Worker, c: nat, stop: bool): Worker
    requires c < |w.ctxs| && (w.cached.Some? ==> w.cached.value < |w.ctxs|)
  {
    if w.cached.None? then w.(ctxs := w.ctxs[c := DESTROYED])
    else if stop then EvictCached(w)
    else w
  }

  predicate InRange(w: Worker) {
    && (w.cached.Some? ==> w.cached.value < |w.ctxs|)
    && (forall i :: 0 <= i < |w.fetched| ==> w.fetched[i].ctx < |w.ctxs|)
  }

  predicate Enabled(w: Worker, op: Op) {
    && InRange(w)
    && match op
       case Fetch(t, _, _) => if t.query then true else 1 <= t.first <= t.last
       case Process(i, o) =>
         && i < |w.fetched| && (w.fetched[i].task.query ==> o.beats == [])
         && forall b :: b in o.beats ==> !b.task.query && 1 <= b.task.first <= b.task.last
       case Evict => true
  }

  function Step(w: Worker, op: Op): Worker
    requires Enabled(w, op)
  {
    match op
    case Fetch(t, resets, sticky) => FetchTask(w, t, resets, sticky)
    case Process(i, o) =>
      var f := w.fetched[i];
      var r := Work(w.ctxs[f.ctx], f.task, f.hit, o);
      UnlockCtx(w.(ctxs := w.ctxs[f.ctx := r.0], fetched := Without(w.fetched, i)), f.ctx, r.1)
    case Evict => EvictCached(w)
  }

  // ---------------------------------------------------------------- the invariant

  /** Destroyed, or exactly the events up to the previous started one have been applied, once each and in order. */
  ghost predicate Good(c: Ctx) {
    if c.alive then c.applied == EventsFrom(1, c.previousStarted) else c == DESTROYED
  }

  /** Who has which context, whatever the tasks do to them. */
  ghost predicate Shape(w: Worker) {
    && InRange(w)
    && (w.cached.Some? ==> w.cached.value in w.shared)
    && (forall c :: c in w.shared ==> c < |w.ctxs|)
    && (forall i :: 0 <= i < |w.fetched| ==> FetchedOK(w, w.fetched[i]))
    && (forall i, j :: 0 <= i < j < |w.fetched| && w.fetched[i].ctx == w.fetched[j].ctx ==>
        w.fetched[i].ctx in w.shared)
  }

  ghost predicate Inv(w: Worker) { Shape(w) && forall c :: c in w.shared ==> Good(w.ctxs[c]) }

  /**
   A decision task has events. A hit gave a context from the cache, and never to a query with its full
   history; a query that made its context has it for itself.
   */
  ghost predicate FetchedOK(w: Worker, f: Fetched) {
    && (!f.task.query ==> 1 <= f.task.first <= f.task.last)
    && (f.hit ==> f.ctx in w.shared)
    && (f.hit && f.task.query ==> !IsFullHistory(f.task))
    && (!f.hit ==> IsFullHistory(f.task) && (f.task.query ==> f.ctx !in w.shared))
  }

  /** After the checks the context is consistent, and the task's first event is the next one. */
  lemma EnterIsConsistent(c: Ctx, t: Task, hit: bool, o: Outcome)
    requires Good(c)
    ensures var s := Enter(c, t, hit, o);
            && s.ctx.alive && Good(s.ctx) && s.task.query == t.query && s.task.last == t.last
            && (!s.failed && s.task.first != 0 ==> s.task.first == s.ctx.previousStarted + 1)
            && (t.first != 0 ==> s.task.first != 0)
  {
    assert EventsFrom(1, 0) == [];
  }

  lemma ApplyExtends(c: Ctx, t: Task, n: nat)
    requires Good(c) && c.alive && t.first == c.previousStarted + 1 && n <= Pending(t)
    ensures c.applied + EventsFrom(t.first, n) == EventsFrom(1, c.previousStarted + n)
  {
  }

  /** What is left of the first task decides whether the context is in order after it. */
  lemma BeginIsGoodExactly(c: Ctx, t: Task, hit: bool, o: Outcome)
    requires Good(c) && (!t.query ==> 1 <= t.first <= t.last)
    ensures var s := Enter(c, t, hit, o);
            Good(Begin(c, t, hit, o).0) <==>
            s.failed || if t.query then Progress(s, o) == 0 else Progress(s, o) == Pending(s.task)
  {
    var s := Enter(c, t, hit, o);
    EnterIsConsistent(c, t, hit, o);
    if !s.failed {
      var n := Progress(s, o);
      if s.task.first != 0 { ApplyExtends(s.ctx, s.task, n); }
      assert |EventsFrom(1, s.ctx.previousStarted)| == s.ctx.previousStarted;
      assert s.ctx.applied + [] == s.ctx.applied;
    }
  }

  /** A heartbeat's task that is processed to its end leaves the context in order. */
  lemma GoIsGood(c: Ctx, b: Beat)
    requires Good(c) && c.alive && !b.task.query && 1 <= b.task.first <= b.task.last && !Go(c, b).1
    ensures Good(Go(c, b).0) && Go(c, b).0.alive
  {
    var s := ResetIfStale(Stage(c, b.task, false), b.resets);
    assert EventsFrom(1, 0) == [];
    ApplyExtends(s.ctx, s.task, Pending(s.task));
  }

  lemma {:induction false} GoOnIsGood(c: Ctx, beats: seq<Beat>)
    requires Good(c) && c.alive && !GoOn(c, beats).1
    requires forall b :: b in beats ==> !b.task.query && 1 <= b.task.first <= b.task.last
    ensures Good(GoOn(c, beats).0)
    decreases |beats|
  {
    if beats != [] {
      GoIsGood(c, beats[0]);
      GoOnIsGood(Go(c, beats[0]).0, beats[1..]);
    }
  }

  /** Decision tasks that were processed to their ends, however many, leave the context in order. */
  lemma WorkIsGood(c: Ctx, t: Task, hit: bool, o: Outcome)
    requires Good(c) && !t.query && 1 <= t.first <= t.last && !Work(c, t, hit, o).1
    requires forall b :: b in o.beats ==> !b.task.query && 1 <= b.task.first <= b.task.last
    ensures Good(Work(c, t, hit, o).0)
  {
    BeginIsGoodExactly(c, t, hit, o);
    GoOnIsGood(Begin(c, t, hit, o).0, o.beats);
  }

  // ---------------------------------------------------------------- safe steps

  const ALL_WELL := Outcome(true, true, 0, false, [])

  /** The events a task has to apply once the checks are through. */
  function Due(c: Ctx, t: Task, hit: bool): nat { Pending(Enter(c, t, hit, ALL_WELL).task) }

  lemma DueIsPending(c: Ctx, t: Task, hit: bool, o: Outcome)
    ensures !Enter(c, t, hit, ALL_WELL).failed
    ensures !Enter(c, t, hit, o).failed && t.query ==> Pending(Enter(c, t, hit, o).task) == Due(c, t, hit)
  {
  }

  /**
   The task can be processed without risk: its context is its own; or nothing is cached, and unlocking
   clears it; or it is a query with nothing to apply, or a decision task on the cached context.
   */
  predicate Safe(w: Worker, i: nat)
    requires InRange(w) && i < |w.fetched|
  {
    var f := w.fetched[i];
    f.ctx in w.shared && w.cached.Some? ==>
      if f.task.query then Due(w.ctxs[f.ctx], f.task, f.hit) == 0 else w.cached == Some(f.ctx)
  }

  lemma WithoutShape(w: Worker, w': Worker, i: nat)
    requires Shape(w) && i < |w.fetched| && |w'.ctxs| == |w.ctxs| && w'.shared == w.shared
    requires w'.fetched == Without(w.fetched, i) && (w'.cached == w.cached || w'.cached.None?)
    ensures Shape(w')
  {
    forall j | 0 <= j < |w'.fetched| ensures w'.fetched[j].ctx < |w'.ctxs| && FetchedOK(w', w'.fetched[j]) {
      assert FetchedOK(w, w.fetched[if j < i then j else j + 1]);
    }
  }

  lemma UnlockKeepsInv(w: Worker, i: nat, r: (Ctx, bool))
    requires Inv(w) && i < |w.fetched|
    requires var c := w.fetched[i].ctx;
             c in w.shared ==> Good(r.0) || w.cached.None? || (r.1 && w.cached == Some(c))
    ensures var c := w.fetched[i].ctx;
            Inv(UnlockCtx(w.(ctxs := w.ctxs[c := r.0], fetched := Without(w.fetched, i)), c, r.1))
  {
    var c := w.fetched[i].ctx;
    var w' := UnlockCtx(w.(ctxs := w.ctxs[c := r.0], fetched := Without(w.fetched, i)), c, r.1);
    WithoutShape(w, w', i);
  }

  lemma SafeKeepsInv(w: Worker, i: nat, o: Outcome)
    requires Inv(w) && Enabled(w, Process(i, o)) && Safe(w, i)
    ensures Inv(Step(w, Process(i, o)))
  {
    var f := w.fetched[i];
    var c := w.ctxs[f.ctx];
    assert FetchedOK(w, f);
    if f.ctx in w.shared && w.cached.Some? {
      if f.task.query {
        DueIsPending(c, f.task, f.hit, o);
        BeginIsGoodExactly(c, f.task, f.hit, o);
      } else if !Work(c, f.task, f.hit, o).1 {
        WorkIsGood(c, f.task, f.hit, o);
      }
    }
    UnlockKeepsInv(w, i, Work(c, f.task, f.hit, o));
  }

  /** An outcome that spoils the context of a task that is not safe: a query applies events, a decision task fails. */
  function Unlucky(w: Worker, i: nat): Outcome
    requires InRange(w) && i < |w.fetched|
  {
    var f := w.fetched[i];
    if f.task.query then Outcome(true, true, Due(w.ctxs[f.ctx], f.task, f.hit), false, [])
        else Outcome(true, true, 0, true, [])
  }

  lemma UnsafeSpoils(w: Worker, i: nat)
    requires Inv(w) && i < |w.fetched| && !Safe(w, i)
    ensures Enabled(w, Process(i, Unlucky(w, i))) && !Inv(Step(w, Process(i, Unlucky(w, i))))
  {
    var f, o := w.fetched[i], Unlucky(w, i);
    var c := w.ctxs[f.ctx];
    assert FetchedOK(w, f);
    DueIsPending(c, f.task, f.hit, o);
    EnterIsConsistent(c, f.task, f.hit, o);
    BeginIsGoodExactly(c, f.task, f.hit, o);
    var w' := Step(w, Process(i, o));
    assert f.ctx in w'.shared && !Good(w'.ctxs[f.ctx]);
  }

  /** A task is safe to process exactly if every way it can go leaves the shared contexts in order. */
  lemma SafeExactly(w: Worker, i: nat)
    requires Inv(w) && i < |w.fetched|
    ensures Safe(w, i) <==> forall o :: Enabled(w, Process(i, o)) ==> Inv(Step(w, Process(i, o)))
  {
    if Safe(w, i) {
      forall o | Enabled(w, Process(i, o)) ensures Inv(Step(w, Process(i, o))) { SafeKeepsInv(w, i, o); }
    } else {
      UnsafeSpoils(w, i);
    }
  }

  // ---------------------------------------------------------------- runs

  function Run(w: Worker, ops: seq<Op>): Worker
    decreases |ops|
  {
    if ops == [] then w
    else
      var w' := Run(w, ops[..|ops| - 1]);
      if Enabled(w', ops[|ops| - 1]) then Step(w', ops[|ops| - 1]) else w'
  }

  const EMPTY := Worker([], {}, None, [])

  lemma FetchKeepsShape(w: Worker, t: Task, resets: bool, sticky: bool)
    requires Shape(w) && Enabled(w, Fetch(t, resets, sticky))
    ensures Shape(FetchTask(w, t, resets, sticky))
  {
    var w' := FetchTask(w, t, resets, sticky);
    forall j | 0 <= j < |w'.fetched| ensures w'.fetched[j].ctx < |w'.ctxs| && FetchedOK(w', w'.fetched[j]) {
      if j < |w.fetched| { assert FetchedOK(w, w.fetched[j]); }
    }
  }

  lemma StepKeepsShape(w: Worker, op: Op)
    requires Shape(w) && Enabled(w, op)
    ensures Shape(Step(w, op))
  {
    match op
    case Fetch(t, resets, sticky) => FetchKeepsShape(w, t, resets, sticky);
    case Evict =>
      forall j | 0 <= j < |w.fetched| ensures FetchedOK(Step(w, op), w.fetched[j]) {
        assert FetchedOK(w, w.fetched[j]);
      }
    case Process(i, o) => WithoutShape(w, Step(w, op), i);
  }

  lemma {:induction false} RunKeepsShape(ops: seq<Op>)
    ensures Shape(Run(EMPTY, ops))
    decreases |ops|
  {
    if ops != [] {
      RunKeepsShape(ops[..|ops| - 1]);
      var w', op := Run(EMPTY, ops[..|ops| - 1]), ops[|ops| - 1];
      if Enabled(w', op) { StepKeepsShape(w', op); }
    }
  }

  // ---------------------------------------------------------------- which context a task gets

  /** A decision task, or a query that came without its history from the start, takes what is cached, as it is. */
  lemma CachedIsTaken(w: Worker, t: Task, resets: bool, sticky: bool, c: nat)
    requires Enabled(w, Fetch(t, resets, sticky)) && w.cached == Some(c) && (t.query ==> t.first != 1)
    ensures Step(w, Fetch(t, resets, sticky)) == w.(fetched := w.fetched + [Fetched(t, c, true)])
  {
  }

  /**
   A query with its full history, whatever is cached, and any task when nothing is, gets a new context and
   all events from the first on, unless those cannot be fetched; the context goes into the cache exactly
   for a decision task on a worker that keeps contexts.
   */
  lemma OthersMakeOne(w: Worker, t: Task, resets: bool, sticky: bool)
    requires Enabled(w, Fetch(t, resets, sticky)) && (w.cached.None? || (t.query && t.first == 1))
    ensures var w' := Step(w, Fetch(t, resets, sticky));
            if t.first != 1 && !resets then w' == w
            else
              && w'.ctxs == w.ctxs + [Ctx(true, 0, [])]
              && w'.fetched == w.fetched + [Fetched(Task(t.query, 1, t.last), |w.ctxs|, false)]
              && (w'.cached == if sticky && !t.query then Some(|w.ctxs|) else w.cached)
              && (forall c :: c in w'.shared <==> c in w.shared || (c == |w.ctxs| && sticky && !t.query))
  {
  }

  /**
   In every run: a query that was fetched with its full history, or that had to fetch it, has a context
   that no other task has and that is not in the cache, so that it is always safe.
   */
  lemma FullQueryIsAlone(ops: seq<Op>, i: nat)
    requires i < |Run(EMPTY, ops).fetched| && Run(EMPTY, ops).fetched[i].task.query &&
             Run(EMPTY, ops).fetched[i].task.first == 1
    ensures var w := Run(EMPTY, ops);
            var c := w.fetched[i].ctx;
            && InRange(w) && c < |w.ctxs| && c !in w.shared && w.cached != Some(c)
            && (forall j :: 0 <= j < |w.fetched| && j != i ==> w.fetched[j].ctx != c)
            && Safe(w, i)
  {
    var w := Run(EMPTY, ops);
    RunKeepsShape(ops);
    assert FetchedOK(w, w.fetched[i]);
    forall j | 0 <= j < |w.fetched| && j != i ensures w.fetched[j].ctx != w.fetched[i].ctx {
      assert FetchedOK(w, w.fetched[j]);
    }
  }

  // ---------------------------------------------------------------- safe runs

  /** Every decision task, and every query that came to a cached context, was safe when it was processed. */
  ghost predicate SafeRun(w: Worker, ops: seq<Op>)
    decreases |ops|
  {
    ops != [] ==>
      && SafeRun(w, ops[..|ops| - 1])
      && var w', op := Run(w, ops[..|ops| - 1]), ops[|ops| - 1];
         Enabled(w', op) && op.Process? && !(w'.fetched[op.i].task.query && w'.fetched[op.i].task.first == 1) ==>
             Safe(w', op.i)
  }

  lemma StepKeepsInv(w: Worker, op: Op)
    requires Inv(w) && Enabled(w, op) && (op.Process? ==> Safe(w, op.i))
    ensures Inv(Step(w, op))
  {
    match op
    case Fetch(t, resets, sticky) =>
      FetchKeepsShape(w, t, resets, sticky);
      assert EventsFrom(1, 0) == [];
    case Evict => StepKeepsShape(w, op);
    case Process(i, o) => SafeKeepsInv(w, i, o);
  }

  lemma {:induction false} SafeRunKeepsInv(ops: seq<Op>)
    requires SafeRun(EMPTY, ops)
    ensures Inv(Run(EMPTY, ops))
    decreases |ops|
  {
    if ops != [] {
      var before := ops[..|ops| - 1];
      SafeRunKeepsInv(before);
      var w', op := Run(EMPTY, before), ops[|ops| - 1];
      if Enabled(w', op) {
        if op.Process? && w'.fetched[op.i].task.query && w'.fetched[op.i].task.first == 1 {
          FullQueryIsAlone(before, op.i);
        }
        StepKeepsInv(w', op);
      }
    }
  }

  /**
   In every such run, an unlocked context is destroyed or has applied exactly events 1 to its previous
   started one.
   */
  lemma CacheAgreesWithReplay(ops: seq<Op>, c: nat)
    requires SafeRun(EMPTY, ops) && c in Run(EMPTY, ops).shared
    ensures c < |Run(EMPTY, ops).ctxs|
    ensures var ctx := Run(EMPTY, ops).ctxs[c];
            if ctx.alive then ctx.applied == EventsFrom(1, ctx.previousStarted)
            else ctx.previousStarted == 0 && ctx.applied == []
  {
    SafeRunKeepsInv(ops);
  }

  // ---------------------------------------------------------------- what spoils a context

  lemma RunOne(w: Worker, ops: seq<Op>, op: Op)
    requires Enabled(Run(w, ops), op)
    ensures Run(w, ops + [op]) == Step(Run(w, ops), op)
  {
    assert (ops + [op])[..|ops + [op]| - 1] == ops;
  }

  /** Two tasks fetch one context, it is evicted, and a third task puts a new one into the cache. */
  function Overtaken(t: Task, n: nat): Worker {
    var d := Task(false, 1, n);
    Worker([DESTROYED, FRESH], {0, 1}, Some(1), [Fetched(d, 0, false), Fetched(t, 0, true), Fetched(d, 1, false)])
  }

  lemma OneFetches(n: nat)
    requires n >= 1
    ensures var task := Task(false, 1, n);
            Run(EMPTY, [Fetch(task, true, true)]) == Worker([FRESH], {0}, Some(0), [Fetched(task, 0, false)])
  {
    var task := Task(false, 1, n);
    var d := Fetch(task, true, true);
    RunOne(EMPTY, [], d);
    assert [] + [d] == [d] && [] + [FRESH] == [FRESH] && [] + [Fetched(task, 0, false)] == [Fetched(task, 0, false)];
  }

  lemma TwoFetch(t: Task, n: nat)
    requires n >= 1 && (t.query ==> t.first == 0) && (!t.query ==> 1 <= t.first <= t.last)
    ensures var task := Task(false, 1, n);
            Run(EMPTY, [Fetch(task, true, true)] + [Fetch(t, true, true)]) ==
            Worker([FRESH], {0}, Some(0), [Fetched(task, 0, false), Fetched(t, 0, true)])
  {
    OneFetches(n);
    RunOne(EMPTY, [Fetch(Task(false, 1, n), true, true)], Fetch(t, true, true));
  }

  lemma OvertakenHappens(t: Task, n: nat)
    requires n >= 1 && (t.query ==> t.first == 0) && (!t.query ==> 1 <= t.first <= t.last)
    ensures var d := Fetch(Task(false, 1, n), true, true);
            Run(EMPTY, [d] + [Fetch(t, true, true)] + [Evict] + [d]) == Overtaken(t, n)
  {
    var task := Task(false, 1, n);
    var d, q := Fetch(task, true, true), Fetch(t, true, true);
    var fs := [Fetched(task, 0, false), Fetched(t, 0, true)];
    TwoFetch(t, n);
    RunOne(EMPTY, [d] + [q], Evict);
    assert [FRESH][0 := DESTROYED] == [DESTROYED];
    assert Run(EMPTY, [d] + [q] + [Evict]) == Worker([DESTROYED], {0}, None, fs);
    RunOne(EMPTY, [d] + [q] + [Evict], d);
    assert [DESTROYED] + [FRESH] == [DESTROYED, FRESH] && {0} + {1} == {0, 1};
    assert fs + [Fetched(task, 1, false)] == Overtaken(t, n).fetched;
  }

  /** A query that rebuilds the evicted context leaves every event applied and a previous started event ID of 0. */
  lemma QueryRebuildSpoils(n: nat)
    requires n >= 1
    ensures var w := Overtaken(Task(true, 0, n), n);
            var op := Process(1, Outcome(true, true, n, false, []));
            Enabled(w, op) && Step(w, op).ctxs[0] == Ctx(true, 0, EventsFrom(1, n)) && 0 in Step(w, op).shared
  {
    assert [] + EventsFrom(1, n) == EventsFrom(1, n);
  }

  /** A decision task that fails half way on the evicted context destroys the new one and leaves its own half done. */
  lemma OvertakenFailureSpoils(n: nat, k: nat)
    requires k < n
    ensures var w := Overtaken(Task(false, 1, n), n);
            var op := Process(1, Outcome(true, true, k, true, []));
            Enabled(w, op) && Step(w, op).ctxs == [Ctx(true, n, EventsFrom(1, k)), DESTROYED]
  {
    var w := Overtaken(Task(false, 1, n), n);
    var c := Ctx(true, n, EventsFrom(1, k));
    assert [] + EventsFrom(1, k) == EventsFrom(1, k);
    assert Work(DESTROYED, Task(false, 1, n), true, Outcome(true, true, k, true, [])) == (c, true);
    assert w.ctxs[0 := c][1 := DESTROYED] == [c, DESTROYED];
  }
}
