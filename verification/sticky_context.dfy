/**
 One execution context as an object, worked on under its lock.
 */
module StickyContext {
  import opened Common
  import opened StickyCache

  class WorkflowContext {
    /** Whether there is an event handler. */
    var alive: bool
    var previousStartedEventID: nat
    /** The events its event handler has processed. */
    ghost var applied: seq<nat>
    /** The task under way; its history may be replaced by one from the first event on. */
    var task: Task

    ghost function View(): Ctx
      reads this
    {
      Ctx(alive, previousStartedEventID, applied)
    }

    ghost function At(failed: bool): Stage
      reads this
    {
      Stage(View(), task, failed)
    }

    constructor (task: Task)
      ensures View() == FRESH && this.task == task
    {
      alive, previousStartedEventID, applied, this.task := true, 0, [], task;
    }

    method ClearState()
      modifies this
      ensures View() == DESTROYED && task == old(task)
    {
      alive, previousStartedEventID, applied := false, 0, [];
    }

    method CreateEventHandler()
      modifies this
      ensures View() == FRESH && task == old(task)
    {
      ClearState();
      alive := true;
    }

    /** `resets` is whether the first page of history can be fetched. */
    method ResetStateIfDestroyed(resets: bool) returns (err: bool)
      modifies this
      ensures At(err) == StickyCache.ResetStateIfDestroyed(old(At(false)), resets)
    {
      err := false;
      if !alive {
        CreateEventHandler();
        if !IsFullHistory(task) {
          if resets { task := task.(first := 1); } else { err := true; }
        }
      }
    }

    method ResetIfStale(resets: bool) returns (err: bool)
      modifies this
      ensures At(err) == StickyCache.ResetIfStale(old(At(false)), resets)
    {
      err := false;
      if task.first != 0 && task.first != previousStartedEventID + 1 {
        ClearState();
        err := ResetStateIfDestroyed(resets);
      }
    }

    method SetCurrentTask()
      modifies this`previousStartedEventID
      ensures previousStartedEventID == if task.query then old(previousStartedEventID) else task.last
    {
      if !task.query { previousStartedEventID := task.last; }
    }

    /** The checks before events are applied. */
    method Prepare(hit: bool, o: Outcome) returns (err: bool)
      modifies this
      ensures At(err) == Enter(old(View()), old(task), hit, o)
    {
      if hit && !(task.query && !IsFullHistory(task)) {
        err := ResetIfStale(o.resets);
      }
      err := ResetStateIfDestroyed(o.resets);
      if !err { err := ResetIfStale(o.resetsAgain); }
    }

    method ProcessEvents(n: nat)
      requires alive
      modifies this
      ensures View() == Apply(old(View()), old(task), n) && task == old(task)
    {
      SetCurrentTask();
      var i := 0;
      while i < n
        invariant i <= n && task == old(task) && View() == Apply(old(View()), old(task), i)
      {
        applied := applied + [task.first + i];
        i := i + 1;
      }
    }

    /** One decision task of a heartbeat. */
    method ProcessWorkflowTask(b: Beat) returns (stop: bool)
      requires alive
      modifies this
      ensures (View(), stop) == Go(old(View()), b) && (!stop ==> alive)
    {
      task := b.task;
      var err := ResetIfStale(b.resets);
      if err { return true; }
      var n := Min(b.processed, Pending(task));
      ProcessEvents(n);
      stop := b.stop || n < Pending(task);
    }

    /** Everything from taking the lock to releasing it: the task, and those that heartbeats bring. */
    method Handle(t: Task, hit: bool, o: Outcome) returns (stop: bool)
      modifies this
      ensures (View(), stop) == Work(old(View()), t, hit, o)
    {
      EnterIsAlive(View(), t, hit, o);
      task := t;
      var err := Prepare(hit, o);
      if err { return true; }
      var n := Min(o.processed, Pending(task));
      ProcessEvents(n);
      stop := o.stop || n < Pending(task);
      if stop { return; }
      ghost var begun := View();
      var i := 0;
      while i < |o.beats|
        invariant i <= |o.beats| && alive && GoOn(begun, o.beats) == GoOn(View(), o.beats[i..])
      {
        assert o.beats[i..][0] == o.beats[i] && o.beats[i..][1..] == o.beats[i + 1..];
        stop := ProcessWorkflowTask(o.beats[i]);
        if stop { return; }
        i := i + 1;
      }
    }
  }

  lemma EnterIsAlive(c: Ctx, t: Task, hit: bool, o: Outcome)
    ensures Enter(c, t, hit, o).ctx.alive
  {
  }

  ghost function Views(cs: seq<WorkflowContext>): (vs: seq<Ctx>)
    reads cs
    ensures |vs| == |cs| && forall i :: 0 <= i < |cs| ==> vs[i] == cs[i].View()
  {
    seq(|cs|, i requires 0 <= i < |cs| reads cs => cs[i].View())
  }

  /** The cache slot of one run, with the contexts that tasks have got hold of. */
  class ContextCache {
    var ctxs: seq<WorkflowContext>
    var cached: Option<nat>
    var fetched: seq<Fetched>
    ghost var shared: set<nat>

    ghost function View(): Worker
      reads this, ctxs
    {
      Worker(Views(ctxs), shared, cached, fetched)
    }

    ghost predicate Apart()
      reads this
    {
      forall i, j :: 0 <= i < j < |ctxs| ==> ctxs[i] != ctxs[j]
    }

    constructor ()
      ensures View() == EMPTY && Apart()
    {
      ctxs, cached, fetched, shared := [], None, [], {};
    }

    /** Find the context of a task in the cache, or make one; the task locks it later. */
    method GetOrCreateWorkflowContext(t: Task, resets: bool, sticky: bool) returns (err: bool)
      requires Apart()
      modifies this
      ensures Apart() && View() == FetchTask(old(View()), t, resets, sticky)
      ensures var taken := old(cached).Some? && (t.query ==> t.first != 1);
              && (taken ==> !err && ctxs == old(ctxs) && cached == old(cached))
              && (taken ==> fetched == old(fetched) + [Fetched(t, cached.value, true)])
              && (!taken ==> err == (t.first != 1 && !resets))
              && (!taken && !err ==>
                  |ctxs| == |old(ctxs)| + 1 && ctxs[..|old(ctxs)|] == old(ctxs) && fresh(ctxs[|old(ctxs)|]))
              && (!taken && !err ==> ctxs[|old(ctxs)|].View() == FRESH)
              && (!taken && !err ==> fetched == old(fetched) + [Fetched(Task(t.query, 1, t.last), |old(ctxs)|, false)])
              && (!taken && !err ==> cached == if sticky && !t.query then Some(|old(ctxs)|) else old(cached))
      ensures err ==> View() == old(View())
    {
      if (!t.query || !IsFullHistory(t)) && cached.Some? {
        fetched := fetched + [Fetched(t, cached.value, true)];
        return false;
      }
      if !IsFullHistory(t) && !resets { return true; }
      var c := |ctxs|;
      var ctx := new WorkflowContext(t.(first := 1));
      ctxs := ctxs + [ctx];
      if sticky && !t.query && cached.None? {
        cached := Some(c);
        shared := shared + {c};
      }
      fetched := fetched + [Fetched(t.(first := 1), c, false)];
      err := false;
      assert Views(ctxs) == old(Views(ctxs)) + [FRESH];
    }

    /** Clear one context. */
    method Clear(c: nat)
      requires Apart() && c < |ctxs|
      modifies ctxs[c]
      ensures Views(ctxs) == old(Views(ctxs))[c := DESTROYED]
    {
      ctxs[c].ClearState();
    }

    /** Take the cached context out and clear it. */
    method RemoveWorkflowContext()
      requires Apart() && (cached.Some? ==> cached.value < |ctxs|)
      modifies this`cached, ctxs
      ensures Apart() && View() == EvictCached(old(View()))
    {
      if cached.Some? {
        Clear(cached.value);
        cached := None;
      }
    }

    /** After a failure or a completion whatever is cached goes; a context nobody caches is cleared in any case. */
    method Unlock(c: nat, stop: bool)
      requires Apart() && c < |ctxs| && (cached.Some? ==> cached.value < |ctxs|)
      modifies this`cached, ctxs
      ensures Apart() && View() == UnlockCtx(old(View()), c, stop)
    {
      var isCached, cleared := cached.Some?, false;
      if stop {
        if isCached { RemoveWorkflowContext(); } else { Clear(c); }
        cleared := true;
      }
      if !cleared && !isCached { Clear(c); }
    }

    /** A task that has its context locks it, is processed with all its heartbeats, and unlocks it. */
    method ProcessTask(i: nat, o: Outcome)
      requires Apart() && Enabled(View(), Process(i, o))
      modifies this`cached, this`fetched, ctxs
      ensures Apart() && View() == Step(old(View()), Process(i, o))
    {
      ghost var before := View();
      var f := fetched[i];
      fetched := Without(fetched, i);
      var stop := ctxs[f.ctx].Handle(f.task, f.hit, o);
      ghost var r := Work(before.ctxs[f.ctx], f.task, f.hit, o);
      assert Views(ctxs) == before.ctxs[f.ctx := r.0];
      Unlock(f.ctx, stop);
    }
  }
}
