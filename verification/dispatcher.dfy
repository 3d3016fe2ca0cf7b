/**
 The coroutine dispatcher. What a coroutine does when it is called is given by a script of
 outcomes, one per call, so every statement is about all programs.

 `Execute` describes passes over a queue. The dispatcher itself walks an index over a list
 from which it removes elements while new ones are appended.
 */
module Dispatchers {
  import opened Common

  /** What one call of a coroutine did. A coroutine that panicked is closed. */
  datatype Outcome = Outcome(closed: bool, panicked: bool, keptBlocked: bool, spawned: nat)

  /** The coroutines created when `n` more follow the first `sequence`. */
  function Created(sequence: nat, n: nat): (r: seq<nat>)
    ensures |r| == n && forall i :: 0 <= i < n ==> r[i] == sequence + 1 + i
  {
    seq(n, i => sequence + 1 + i)
  }

  // ---------------------------------------------------------------- passes over a queue

  /** A pass under way: those kept, those still to call, those called with what they did. */
  datatype Pass = Pass(
    start: seq<nat>,
    first: nat,
    kept: seq<nat>,
    todo: seq<nat>,
    sequence: nat,
    called: seq<nat>,
    outcomes: seq<Outcome>)

  function BeginPass(coroutines: seq<nat>, sequence: nat): Pass {
    Pass(coroutines, sequence, [], coroutines, sequence, [], [])
  }

  function CallNext(p: Pass, o: Outcome): Pass
    requires p.todo != []
  {
    p.(kept := p.kept + (if o.closed then [] else [p.todo[0]]),
       todo := p.todo[1..] + Created(p.sequence, o.spawned),
       sequence := p.sequence + o.spawned,
       called := p.called + [p.todo[0]],
       outcomes := p.outcomes + [o])
  }

  predicate Quiet(os: seq<Outcome>) {
    forall i :: 0 <= i < |os| ==> !os[i].closed && os[i].keptBlocked && os[i].spawned == 0
  }

  /** `Ran` when the pass called everybody, `Unfinished` when the script ended first. */
  datatype Status = Ran | Panicked | Unfinished

  datatype PassResult = PassResult(status: Status, pass: Pass, script: seq<Outcome>)

  function RunPass(p: Pass, script: seq<Outcome>): (r: PassResult)
    ensures |r.script| + |r.pass.called| == |script| + |p.called|
    decreases |script|
  {
    if p.todo == [] then PassResult(Ran, p, script)
    else if script == [] then PassResult(Unfinished, p, script)
    else if script[0].closed && script[0].panicked then PassResult(Panicked, CallNext(p, script[0]), script[1..])
    else RunPass(CallNext(p, script[0]), script[1..])
  }

  datatype Execution = Execution(status: Status, passes: seq<Pass>)

  /** Passes until one is quiet or nobody is left. */
  function Execute(coroutines: seq<nat>, sequence: nat, script: seq<Outcome>): Execution
    decreases |script|
  {
    var r := RunPass(BeginPass(coroutines, sequence), script);
    if !r.status.Ran? || r.pass.kept == [] || Quiet(r.pass.outcomes) then Execution(r.status, [r.pass])
    else
      QuietOrProgress(coroutines, sequence, script);
      var rest := Execute(r.pass.kept, r.pass.sequence, r.script);
      Execution(rest.status, [r.pass] + rest.passes)
  }

  lemma QuietOrProgress(coroutines: seq<nat>, sequence: nat, script: seq<Outcome>)
    ensures var r := RunPass(BeginPass(coroutines, sequence), script);
            r.status.Ran? && !Quiet(r.pass.outcomes) ==> |r.script| < |script|
  {
    PassKeepsBooks(BeginPass(coroutines, sequence), script);
  }

  // ---------------------------------------------------------------- what a pass does

  function Survivors(called: seq<nat>, os: seq<Outcome>): seq<nat>
    requires |called| == |os|
  {
    if called == [] then []
    else
      var n := |called| - 1;
      Survivors(called[..n], os[..n]) + if os[n].closed then [] else [called[n]]
  }

  function Spawned(os: seq<Outcome>): nat {
    if os == [] then 0 else Spawned(os[..|os| - 1]) + os[|os| - 1].spawned
  }

  /** Called and waiting together are the starters followed by the newcomers. */
  ghost predicate Books(p: Pass) {
    && |p.called| == |p.outcomes|
    && p.sequence == p.first + Spawned(p.outcomes)
    && p.called + p.todo == p.start + Created(p.first, p.sequence - p.first)
    && p.kept == Survivors(p.called, p.outcomes)
  }

  lemma CreatedSplits(sequence: nat, a: nat, b: nat)
    ensures Created(sequence, a) + Created(sequence + a, b) == Created(sequence, a + b)
  {
  }

  lemma CallNextKeepsBooks(p: Pass, o: Outcome)
    requires Books(p) && p.todo != []
    ensures Books(CallNext(p, o))
  {
    var p', n := CallNext(p, o), |p.called|;
    assert p'.called[..n] == p.called && p'.outcomes[..n] == p.outcomes;
    CreatedSplits(p.first, p.sequence - p.first, o.spawned);
    var newcomers := Created(p.sequence, o.spawned);
    assert p'.called + p'.todo == (p.called + p.todo) + newcomers;
    Associative(p.start, Created(p.first, p.sequence - p.first), newcomers);
  }

  lemma {:induction false} PassKeepsBooks(p: Pass, script: seq<Outcome>)
    requires Books(p)
    ensures Books(RunPass(p, script).pass)
    ensures RunPass(p, script).status.Ran? ==> RunPass(p, script).pass.todo == []
    ensures RunPass(p, script).pass.start == p.start && RunPass(p, script).pass.first == p.first
    decreases |script|
  {
    if p.todo != [] && script != [] {
      CallNextKeepsBooks(p, script[0]);
      if !(script[0].closed && script[0].panicked) { PassKeepsBooks(CallNext(p, script[0]), script[1..]); }
    }
  }

  /** A complete pass called the starters and then everybody created during it, each once. */
  ghost predicate CalledAll(p: Pass) {
    && |p.called| == |p.outcomes| && p.called == p.start + Created(p.first, Spawned(p.outcomes))
    && p.kept == Survivors(p.called, p.outcomes) && p.sequence == p.first + Spawned(p.outcomes)
  }

  /** In creation order: increasing, and all created before `sequence` ran on. */
  ghost predicate InOrder(ids: seq<nat>, sequence: nat) {
    && (forall i, j :: 0 <= i < j < |ids| ==> ids[i] < ids[j])
    && (forall i :: 0 <= i < |ids| ==> ids[i] <= sequence)
  }

  lemma {:induction false} SurvivorsInOrder(called: seq<nat>, os: seq<Outcome>, sequence: nat)
    requires |called| == |os| && InOrder(called, sequence)
    ensures InOrder(Survivors(called, os), sequence)
    ensures forall x :: x in Survivors(called, os) ==> x in called
  {
    if called != [] {
      var n := |called| - 1;
      SurvivorsInOrder(called[..n], os[..n], sequence);
      AppendInOrder(Survivors(called[..n], os[..n]), called[n], sequence);
    }
  }

  lemma AppendInOrder(ids: seq<nat>, x: nat, sequence: nat)
    requires InOrder(ids, sequence) && (forall y :: y in ids ==> y < x) && x <= sequence
    ensures InOrder(ids + [x], sequence)
  {
    assert forall i :: 0 <= i < |ids| ==> ids[i] in ids;
  }

  lemma CalledInOrder(p: Pass)
    requires CalledAll(p) && InOrder(p.start, p.first)
    ensures InOrder(p.called, p.sequence) && InOrder(p.kept, p.sequence)
  {
    SurvivorsInOrder(p.called, p.outcomes, p.sequence);
  }

  ghost predicate Linked(p: Pass, q: Pass) { q.start == p.kept && q.first == p.sequence }

  /** Every pass of an execution but the last is complete, made progress, and hands on who is left. */
  ghost predicate Chained(passes: seq<Pass>) {
    forall k :: 0 <= k < |passes| - 1 ==>
      CalledAll(passes[k]) && !Quiet(passes[k].outcomes) && passes[k].kept != [] && Linked(passes[k], passes[k + 1])
  }

  lemma FirstPass(coroutines: seq<nat>, sequence: nat, script: seq<Outcome>)
    ensures var r := RunPass(BeginPass(coroutines, sequence), script);
            r.pass.start == coroutines && r.pass.first == sequence && (r.status.Ran? ==> CalledAll(r.pass))
  {
    var p := BeginPass(coroutines, sequence);
    var r := RunPass(p, script);
    assert Created(sequence, 0) == [] && coroutines + [] == coroutines && [] + coroutines == coroutines;
    PassKeepsBooks(p, script);
    assert r.pass.called + [] == r.pass.called;
  }

  lemma ChainExtends(p: Pass, rest: seq<Pass>)
    requires rest != [] && Chained(rest) && CalledAll(p) && !Quiet(p.outcomes) && p.kept != [] && Linked(p, rest[0])
    ensures Chained([p] + rest) && ([p] + rest)[|rest|] == rest[|rest| - 1]
  {
    var passes := [p] + rest;
    assert forall k :: 1 <= k < |passes| ==> passes[k] == rest[k - 1];
  }

  lemma {:induction false} ExecuteIsChained(coroutines: seq<nat>, sequence: nat, script: seq<Outcome>)
    ensures var e := Execute(coroutines, sequence, script);
            && e.passes != [] && e.passes[0].start == coroutines && e.passes[0].first == sequence && Chained(e.passes)
            && (e.status.Ran? ==> CalledAll(e.passes[|e.passes| - 1]))
    decreases |script|
  {
    var r := RunPass(BeginPass(coroutines, sequence), script);
    FirstPass(coroutines, sequence, script);
    if r.status.Ran? {
      if r.pass.kept != [] && !Quiet(r.pass.outcomes) {
        QuietOrProgress(coroutines, sequence, script);
        ExecuteIsChained(r.pass.kept, r.pass.sequence, r.script);
        ChainExtends(r.pass, Execute(r.pass.kept, r.pass.sequence, r.script).passes);
      }
    }
  }

  /** Every completed pass calls each live coroutine exactly once, in creation order, newcomers included. */
  lemma {:induction false} PassesCallInCreationOrder(coroutines: seq<nat>, sequence: nat, script: seq<Outcome>, k: nat)
    requires InOrder(coroutines, sequence) && k < |Execute(coroutines, sequence, script).passes|
    ensures var e := Execute(coroutines, sequence, script);
            && InOrder(e.passes[k].start, e.passes[k].first)
            && (k < |e.passes| - 1 || e.status.Ran? ==>
                  CalledAll(e.passes[k]) && InOrder(e.passes[k].called, e.passes[k].sequence))
  {
    var e := Execute(coroutines, sequence, script);
    ExecuteIsChained(coroutines, sequence, script);
    if k > 0 {
      PassesCallInCreationOrder(coroutines, sequence, script, k - 1);
      assert Linked(e.passes[k - 1], e.passes[k]);
      CalledInOrder(e.passes[k - 1]);
    }
    if k < |e.passes| - 1 || e.status.Ran? { CalledInOrder(e.passes[k]); }
  }

  /** A normal return leaves nobody, or comes right after a pass in which nobody moved; no earlier pass was one. */
  lemma {:induction false} ReturnsWhenAllBlocked(coroutines: seq<nat>, sequence: nat, script: seq<Outcome>)
    requires Execute(coroutines, sequence, script).status.Ran?
    ensures var e := Execute(coroutines, sequence, script);
            var last := e.passes[|e.passes| - 1];
            && e.passes != []
            && (last.kept == [] || Quiet(last.outcomes))
            && (forall k :: 0 <= k < |e.passes| - 1 ==> e.passes[k].kept != [] && !Quiet(e.passes[k].outcomes))
    decreases |script|
  {
    ExecuteIsChained(coroutines, sequence, script);
    var r := RunPass(BeginPass(coroutines, sequence), script);
    if r.status.Ran? && r.pass.kept != [] && !Quiet(r.pass.outcomes) {
      QuietOrProgress(coroutines, sequence, script);
      ReturnsWhenAllBlocked(r.pass.kept, r.pass.sequence, r.script);
    }
  }

  // ---------------------------------------------------------------- the dispatcher

  /** Coroutines are named by creation number; the flags one sets while it runs come back from its call. */
  class Dispatcher {
    var coroutines: seq<nat>
    var sequence: nat
    /** What the coroutines will do, call by call. */
    var script: seq<Outcome>

    constructor (script: seq<Outcome>)
      ensures coroutines == [1] && sequence == 1 && this.script == script
    {
      coroutines, sequence, this.script := [1], 1, script;
    }

    /** Create a coroutine at the end of the list. */
    method NewState()
      modifies this`coroutines, this`sequence
      ensures sequence == old(sequence) + 1 && coroutines == old(coroutines) + [sequence]
    {
      sequence := sequence + 1;
      coroutines := coroutines + [sequence];
    }

    /** Let a coroutine run until it blocks or ends; it may create others. */
    method Call() returns (o: Outcome)
      requires script != []
      modifies this
      ensures o == old(script)[0] && script == old(script)[1..]
      ensures sequence == old(sequence) + o.spawned
      ensures coroutines == old(coroutines) + Created(old(sequence), o.spawned)
    {
      o := script[0];
      script := script[1..];
      var n := 0;
      while n < o.spawned
        invariant n <= o.spawned && sequence == old(sequence) + n && script == old(script)[1..]
        invariant coroutines == old(coroutines) + Created(old(sequence), n)
      {
        NewState();
        n := n + 1;
      }
    }

    /** The list is those kept so far followed by those still to call. */
    ghost predicate InPass(p: Pass, i: nat)
      reads this
    {
      i <= |coroutines| && coroutines[..i] == p.kept && coroutines[i..] == p.todo && sequence == p.sequence
    }

    /** Call the coroutine at `i` and remove it if it ended; the index of the next one comes back. */
    method Visit(i: nat, ghost p: Pass) returns (next: nat, o: Outcome)
      requires InPass(p, i) && i < |coroutines| && script != []
      modifies this
      ensures o == old(script)[0] && script == old(script)[1..] && InPass(CallNext(p, o), next)
    {
      ghost var c, tail := coroutines[i], coroutines[i + 1..];
      o := Call();
      assert coroutines == p.kept + [c] + (tail + Created(old(sequence), o.spawned));
      if o.closed {
        coroutines := coroutines[..i] + coroutines[i + 1..];
        next := i;
        assert coroutines == p.kept + (tail + Created(old(sequence), o.spawned));
      } else {
        next := i + 1;
      }
    }

    /** One pass: every coroutine gets its turn. */
    method GiveTurns() returns (status: Status, allBlocked: bool, ghost p: Pass)
      modifies this
      ensures PassResult(status, p, script) == RunPass(BeginPass(old(coroutines), old(sequence)), old(script))
      ensures status.Ran? ==> coroutines == p.kept && sequence == p.sequence && allBlocked == Quiet(p.outcomes)
      decreases |script|
    {
      p := BeginPass(coroutines, sequence);
      ghost var start, first := p, script;
      var lastSequence := sequence;
      allBlocked := true;
      var i: nat := 0;
      while i < |coroutines|
        invariant InPass(p, i) && RunPass(start, first) == RunPass(p, script)
        invariant lastSequence <= sequence
        invariant allBlocked && sequence == lastSequence <==> Quiet(p.outcomes)
        decreases |script|
      {
        assert p.todo[0] == coroutines[i];
        if script == [] { return Unfinished, false, p; }
        var o;
        ghost var q := p;
        i, o := Visit(i, p);
        p := CallNext(p, o);
        QuietGrows(q.outcomes, o);
        if o.closed {
          if o.panicked { return Panicked, false, p; }
          allBlocked := false;
        } else {
          allBlocked := allBlocked && o.keptBlocked;
        }
      }
      status, allBlocked := Ran, allBlocked && lastSequence == sequence;
    }

    /** Keep executing until nobody makes progress. */
    method ExecuteUntilAllBlocked() returns (status: Status, ghost passes: seq<Pass>)
      modifies this
      ensures Execution(status, passes) == Execute(old(coroutines), old(sequence), old(script))
    {
      passes := [];
      ghost var all := Execute(coroutines, sequence, script);
      while true
        invariant all == Execution(all.status, passes + Execute(coroutines, sequence, script).passes)
        invariant all.status == Execute(coroutines, sequence, script).status
        decreases |script|
      {
        var allBlocked;
        ghost var p;
        ghost var rest := Execute(coroutines, sequence, script).passes;
        QuietOrProgress(coroutines, sequence, script);
        status, allBlocked, p := GiveTurns();
        if !status.Ran? || |coroutines| == 0 || allBlocked {
          passes := passes + [p];
          return;
        }
        Associative(passes, [p], Execute(coroutines, sequence, script).passes);
        passes := passes + [p];
      }
    }
  }

  lemma QuietGrows(os: seq<Outcome>, o: Outcome)
    ensures Quiet(os + [o]) <==> Quiet(os) && !o.closed && o.keptBlocked && o.spawned == 0
  {
    assert (os + [o])[|os|] == o;
    if Quiet(os + [o]) {
      forall i | 0 <= i < |os| ensures !os[i].closed && os[i].keptBlocked && os[i].spawned == 0 {
        assert os[i] == (os + [o])[i];
      }
    }
  }
}
