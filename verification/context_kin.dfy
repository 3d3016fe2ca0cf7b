/**
 Who is cancelled, read off the operations alone: each context has its kin, the contexts whose
 cancellation it hears of, and its error is the reason of the first cancellation among them.
 */
module ContextKin {
  import opened Common
  import opened ContextTree
  import opened ContextRuns

  /** The kin of every context, in creation order. The background context hears of nothing. */
  function Kin(ops: seq<Op>): seq<set<nat>> {
    if ops == [] then [{}]
    else
      var kin := Kin(ops[..|ops| - 1]);
      match ops[|ops| - 1]
      case WithCancel(p) => kin + [{|kin|} + KinOf(kin, p)]
      case NewDisconnectedContext(_) => kin + [{|kin|}]
      case WithValue(p, _, _) => kin + [KinOf(kin, p)]
      case Cancel(_, _) => kin
  }

  function KinOf(kin: seq<set<nat>>, x: nat): set<nat> { if x < |kin| then kin[x] else {} }

  /** The reason of the first cancellation of one of these contexts. */
  function FirstReason(ops: seq<Op>, kin: set<nat>): Option<Reason> {
    if ops == [] then None
    else
      var before, op := FirstReason(ops[..|ops| - 1], kin), ops[|ops| - 1];
      if before.Some? then before
      else if op.Cancel? && op.c in kin then Some(op.reason)
      else None
  }

  lemma {:induction false} FirstReasonExactly(ops: seq<Op>, kin: set<nat>)
    ensures FirstReason(ops, kin).Some? <==> exists k :: 0 <= k < |ops| && ops[k].Cancel? && ops[k].c in kin
  {
    if ops != [] {
      var n := |ops| - 1;
      FirstReasonExactly(ops[..n], kin);
      if FirstReason(ops[..n], kin).Some? {
        var k :| 0 <= k < n && ops[..n][k].Cancel? && ops[..n][k].c in kin;
        assert ops[k].Cancel?;
      }
      forall k | 0 <= k < |ops| && ops[k].Cancel? && ops[k].c in kin ensures FirstReason(ops, kin).Some? {
        if k < n { assert ops[..n][k].Cancel?; }
      }
    }
  }

  lemma {:induction false} FirstReasonOf(ops: seq<Op>, kin: set<nat>, kin': set<nat>, size: nat)
    requires forall k :: 0 <= k < |ops| && ops[k].Cancel? ==> ops[k].c < size
    requires forall c :: c < size ==> (c in kin <==> c in kin')
    ensures FirstReason(ops, kin) == FirstReason(ops, kin')
  {
    if ops != [] { FirstReasonOf(ops[..|ops| - 1], kin, kin', size); }
  }

  // ---------------------------------------------------------------- the kin are what a context is derived from

  lemma SameCoreErr(a: seq<Node>, b: seq<Node>, x: nat)
    requires Ordered(a) && SameCore(a, b) && x < |a|
    ensures Ordered(b) && Err(b, x) == Err(a, x)
  {
    CoreShape(a, b);
    ShapeNearest(a, b, x);
    ErrOfNearest(a, x);
    ErrOfNearest(b, x);
    if Nearest(a, x).Some? { assert CoreOf(a[Nearest(a, x).value]) == CoreOf(b[Nearest(a, x).value]); }
  }

  /** One operation, seen on what contexts are derived from. */
  lemma StepDerived(states: seq<seq<Node>>, ops: seq<Op>, n: nat, x: nat, c: nat)
    requires Execution(states, ops) && n < |ops| && x < |states[n + 1]|
    ensures Tree(states[n]) && Tree(states[n + 1])
    ensures |states[n + 1]| == |states[n]| + if ops[n].Cancel? then 0 else 1
    ensures x < |states[n]| ==> (DerivedFrom(states[n + 1], x, c) <==> DerivedFrom(states[n], x, c))
    ensures x == |states[n]| ==> (DerivedFrom(states[n + 1], x, c) <==> Hears(states[n], ops[n], c))
  {
    var ns, ns', op := states[n], states[n + 1], ops[n];
    ExecutionKeepsTree(states, ops, n);
    ExecutionKeepsTree(states, ops, n + 1);
    var made := Effect(ns, op);
    EffectKeepsTree(ns, op);
    CoreShape(made, ns');
    ShapeDerived(made, ns', x, c);
    if op.Cancel? {
      CancelShape(ns, op.c, op.reason);
      ShapeDerived(ns, made, x, c);
    } else {
      MadeIsDerivedFrom(ns, op, c);
    }
  }

  lemma CancelShape(ns: seq<Node>, c: nat, e: Reason)
    requires Tree(ns) && Enabled(ns, Cancel(c, e))
    ensures SameShape(ns, Effect(ns, Cancel(c, e)))
  {
    hide Sub;
    MarkShape(ns, Sub(ns, c), e);
  }

  lemma {:induction false} KinIsDerivation(states: seq<seq<Node>>, ops: seq<Op>, n: nat, x: nat, c: nat)
    requires Execution(states, ops) && n < |states| && x < |states[n]|
    ensures Tree(states[n]) && |Kin(ops[..n])| == |states[n]|
    ensures c in Kin(ops[..n])[x] <==> DerivedFrom(states[n], x, c)
    decreases n
  {
    ExecutionKeepsTree(states, ops, n);
    if n > 0 {
      StepDerived(states, ops, n - 1, x, c);
      assert ops[..n][..n - 1] == ops[..n - 1];
      var y := if x < |states[n - 1]| then x else ops[n - 1].parent;
      KinIsDerivation(states, ops, n - 1, y, c);
    }
  }

  // ---------------------------------------------------------------- errors

  /** One operation, seen on the error of a context. */
  lemma StepErr(states: seq<seq<Node>>, ops: seq<Op>, n: nat, x: nat)
    requires Execution(states, ops) && n < |ops| && x < |states[n + 1]|
    ensures Tree(states[n]) && Tree(states[n + 1])
    ensures x < |states[n]| ==>
              Err(states[n + 1], x) ==
              if Err(states[n], x).None? && ops[n].Cancel? && DerivedFrom(states[n], x, ops[n].c)
              then Some(ops[n].reason) else Err(states[n], x)
    ensures x == |states[n]| ==>
              !ops[n].Cancel? &&
              Err(states[n + 1], x) == if ops[n].NewDisconnectedContext? then None else Err(states[n], ops[n].parent)
  {
    var ns, ns', op := states[n], states[n + 1], ops[n];
    ExecutionKeepsTree(states, ops, n);
    ExecutionKeepsTree(states, ops, n + 1);
    var made := Effect(ns, op);
    EffectKeepsTree(ns, op);
    SameCoreErr(made, ns', x);
    if x < |ns| {
      EffectErr(ns, op, x);
    } else {
      MadeErr(ns, op);
    }
  }

  lemma EffectErr(ns: seq<Node>, op: Op, x: nat)
    requires Tree(ns) && Enabled(ns, op) && x < |ns|
    ensures Tree(Effect(ns, op)) && x < |Effect(ns, op)|
    ensures Err(Effect(ns, op), x) ==
            if Err(ns, x).None? && op.Cancel? && DerivedFrom(ns, x, op.c) then Some(op.reason) else Err(ns, x)
  {
    var ns' := Effect(ns, op);
    EffectKeepsTree(ns, op);
    if op.Cancel? {
      CancelShape(ns, op.c, op.reason);
      ShapeNearest(ns, ns', x);
    } else {
      MadeGrows(ns, op);
      GrownNearest(ns, ns', x);
    }
    ErrOfNearest(ns, x);
    ErrOfNearest(ns', x);
    if Nearest(ns, x).Some? { EffectFate(ns, op, Nearest(ns, x).value); }
  }

  lemma MadeErr(ns: seq<Node>, op: Op)
    requires Tree(ns) && Enabled(ns, op) && !op.Cancel?
    ensures var ns' := Effect(ns, op);
            && Tree(ns') && |ns'| == |ns| + 1
            && Err(ns', |ns|) == if op.NewDisconnectedContext? then None else Err(ns, op.parent)
  {
    EffectKeepsTree(ns, op);
    ErrOfNearest(ns, op.parent);
    if op.WithValue? { EffectErr(ns, op, op.parent); }
  }

  lemma Lengths(states: seq<seq<Node>>, ops: seq<Op>)
    requires Execution(states, ops)
    ensures |states| == |ops| + 1 && states[0] == [EmptyCtx]
  {
  }

  lemma ParentIsThere(states: seq<seq<Node>>, ops: seq<Op>, n: nat)
    requires Execution(states, ops) && n < |ops|
    ensures !ops[n].Cancel? ==> ops[n].parent < |states[n]|
  {
  }

  lemma StepSize(states: seq<seq<Node>>, ops: seq<Op>, n: nat)
    requires Execution(states, ops) && n < |ops|
    ensures |states[n]| <= |states[n + 1]|
  {
    ExecutionKeepsTree(states, ops, n);
    if ops[n].Cancel? { CancelShape(states[n], ops[n].c, ops[n].reason); } else { MadeGrows(states[n], ops[n]); }
  }

  lemma {:induction false} SizesGrow(states: seq<seq<Node>>, ops: seq<Op>, k: nat, n: nat)
    requires Execution(states, ops) && k <= n < |states|
    ensures |states[k]| <= |states[n]|
    decreases n
  {
    hide Execution;
    Lengths(states, ops);
    if k < n {
      SizesGrow(states, ops, k, n - 1);
      StepSize(states, ops, n - 1);
    }
  }

  /** Cancellations so far are of contexts made so far. */
  lemma CancelledWereThere(states: seq<seq<Node>>, ops: seq<Op>, n: nat)
    requires Execution(states, ops) && n < |states|
    ensures forall k :: 0 <= k < n && ops[k].Cancel? ==> ops[k].c < |states[n]|
  {
    forall k | 0 <= k < n && ops[k].Cancel? ensures ops[k].c < |states[n]| { SizesGrow(states, ops, k, n); }
  }

  lemma TreeIsOrdered(ns: seq<Node>)
    requires Tree(ns)
    ensures Ordered(ns)
  {
  }

  /** The last operation, on the reasons and the kin. */
  lemma LastOf(ops: seq<Op>, n: nat, kin: set<nat>)
    requires 0 < n <= |ops|
    ensures var before, op := FirstReason(ops[..n - 1], kin), ops[n - 1];
            FirstReason(ops[..n], kin) ==
            if before.Some? then before else if op.Cancel? && op.c in kin then Some(op.reason) else None
    ensures Kin(ops[..n - 1]) <= Kin(ops[..n])
  {
    assert ops[..n][..n - 1] == ops[..n - 1];
  }

  /** The kin of a context that was just made. */
  lemma NewKin(ops: seq<Op>, n: nat)
    requires 0 < n <= |ops| && !ops[n - 1].Cancel? && ops[n - 1].parent < |Kin(ops[..n - 1])|
    ensures var kin, op := Kin(ops[..n - 1]), ops[n - 1];
            && |Kin(ops[..n])| == |kin| + 1
            && Kin(ops[..n])[|kin|] ==
               match op
               case WithCancel(p) => {|kin|} + kin[p]
               case NewDisconnectedContext(_) => {|kin|}
               case WithValue(p, _, _) => kin[p]
  {
    assert ops[..n][..n - 1] == ops[..n - 1];
  }

  lemma {:induction false} NoKinNoReason(ops: seq<Op>)
    ensures FirstReason(ops, {}).None?
  {
    if ops != [] { NoKinNoReason(ops[..|ops| - 1]); }
  }

  lemma {:induction false} NewContextErr(states: seq<seq<Node>>, ops: seq<Op>, n: nat)
    requires Execution(states, ops) && 0 < n < |states| && !ops[n - 1].Cancel?
    requires |Kin(ops[..n - 1])| == |states[n - 1]|
    requires var p := ops[n - 1].parent;
             && Ordered(states[n - 1]) && p < |states[n - 1]|
             && Err(states[n - 1], p) == FirstReason(ops[..n - 1], Kin(ops[..n - 1])[p])
    ensures var x := |states[n - 1]|;
            && Ordered(states[n]) && x < |states[n]| && x < |Kin(ops[..n])|
            && Err(states[n], x) == FirstReason(ops[..n], Kin(ops[..n])[x])
  {
    var x, op, before := |states[n - 1]|, ops[n - 1], ops[..n - 1];
    StepDerived(states, ops, n - 1, 0, 0);
    StepErr(states, ops, n - 1, x);
    NewKin(ops, n);
    LastOf(ops, n, Kin(ops[..n])[x]);
    CancelledWereThere(states, ops, n - 1);
    NoKinNoReason(before);
    var kin := if op.NewDisconnectedContext? then {} else Kin(before)[op.parent];
    FirstReasonOf(before, Kin(ops[..n])[x], kin, x);
  }

  /** The error of a context is the reason of the first cancellation among its kin, and there is none without one. */
  lemma {:induction false} ErrIsFirstCancellation(states: seq<seq<Node>>, ops: seq<Op>, n: nat, x: nat)
    requires Execution(states, ops) && n < |states| && x < |states[n]|
    ensures Ordered(states[n]) && x < |Kin(ops[..n])|
    ensures Err(states[n], x) == FirstReason(ops[..n], Kin(ops[..n])[x])
    decreases n
  {
    hide Execution, Tree;
    Lengths(states, ops);
    KinIsDerivation(states, ops, n, x, 0);
    if n > 0 {
      ParentIsThere(states, ops, n - 1);
      SizesGrow(states, ops, 0, n - 1);
      TreeIsOrdered(states[n]);
      KinIsDerivation(states, ops, n - 1, 0, 0);
      if x < |states[n - 1]| {
        ErrIsFirstCancellation(states, ops, n - 1, x);
        StepErr(states, ops, n - 1, x);
        LastOf(ops, n, Kin(ops[..n])[x]);
        if ops[n - 1].Cancel? { KinIsDerivation(states, ops, n - 1, x, ops[n - 1].c); }
      } else {
        StepDerived(states, ops, n - 1, x, 0);
        ErrIsFirstCancellation(states, ops, n - 1, ops[n - 1].parent);
        NewContextErr(states, ops, n);
      }
    }
  }

  /**
   A context made with WithCancel from `p` has an error after a cancellation, before or after it was made, of
   anything that `p` was derived from.
   */
  lemma ChildHearsCancellation(states: seq<seq<Node>>, ops: seq<Op>, i: nat, k: nat, n: nat)
    requires Execution(states, ops) && i < n < |states| && k < n && ops[i].WithCancel? && ops[k].Cancel?
    requires Ordered(states[i]) && DerivedFrom(states[i], ops[i].parent, ops[k].c)
    ensures Ordered(states[n]) && |states[i]| < |states[n]| && Err(states[n], |states[i]|).Some?
  {
    var x, c := |states[i]|, ops[k].c;
    StepDerived(states, ops, i, 0, 0);
    SizesGrow(states, ops, i + 1, n);
    StepDerived(states, ops, i, x, c);
    KinIsDerivation(states, ops, i + 1, x, c);
    KinStays(ops, i + 1, n);
    ErrIsFirstCancellation(states, ops, n, x);
    FirstReasonExactly(ops[..n], Kin(ops[..n])[x]);
    assert ops[..n][k].Cancel?;
  }

  lemma {:induction false} KinStays(ops: seq<Op>, i: nat, n: nat)
    requires i <= n <= |ops|
    ensures Kin(ops[..i]) <= Kin(ops[..n])
    decreases n
  {
    if i < n {
      KinStays(ops, i, n - 1);
      LastOf(ops, n, {});
    }
  }
}
