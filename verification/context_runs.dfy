/**
 Every sequence of context operations keeps the tree, so a cancellation has always reached
 exactly the contexts that follow the cancelled one.
 */
module ContextRuns {
  import opened Common
  import opened ContextTree

  datatype Op =
    | WithCancel(parent: nat)
    | NewDisconnectedContext(parent: nat)
    | WithValue(parent: nat, key: string, val: string)
    | Cancel(c: nat, reason: Reason)

  predicate Enabled(ns: seq<Node>, op: Op) {
    match op
    case WithCancel(p) => p < |ns|
    case NewDisconnectedContext(p) => p < |ns|
    case WithValue(p, _, _) => p < |ns|
    case Cancel(c, _) => c < |ns| && ns[c].CancelCtx?
  }

  function NewCancelCtx(parent: nat, attached: bool): Node { CancelCtx(parent, attached, false, None, 0, []) }

  /** A follower joins: cancelled at once with its leader's error, or put on its leader's list. */
  function Join(ns: seq<Node>, parent: nat): seq<Node>
    requires Ordered(ns) && parent < |ns|
  {
    var n := NewCancelCtx(parent, true);
    match Nearest(ns, parent)
    case None => ns + [n]
    case Some(p) =>
      if ns[p].err.Some? then ns + [Cancelled(n, ns[p].err.value)]
      else ns[p := ns[p].(children := ns[p].children + [|ns|])] + [n]
  }

  /** Take a context off the list of the nearest context above it. */
  function Leave(ns: seq<Node>, parent: nat, c: nat): seq<Node>
    requires Ordered(ns) && parent < |ns|
  {
    match Nearest(ns, parent)
    case None => ns
    case Some(p) => ns[p := ns[p].(children := Shifted(ns[p].children, c))]
  }

  /** What an operation does; a repeated cancel does nothing. */
  function Effect(ns: seq<Node>, op: Op): seq<Node>
    requires Ordered(ns) && Enabled(ns, op)
  {
    match op
    case WithCancel(p) => Join(ns, p)
    case NewDisconnectedContext(p) => ns + [NewCancelCtx(p, false)]
    case WithValue(p, k, v) => ns + [ValueCtx(p, k, v)]
    case Cancel(c, e) => if ns[c].canceled then ns else Leave(Mark(ns, Sub(ns, c), e), ns[c].parent, c)
  }

  // ---------------------------------------------------------------- adding a context

  /** `b` has the contexts of `a` and one more. */
  ghost predicate Grown(a: seq<Node>, b: seq<Node>) {
    |b| == |a| + 1 && SameShape(a, b[..|a|]) && Ordered(a) && Ordered(b)
  }

  lemma {:induction false} GrownNearest(a: seq<Node>, b: seq<Node>, x: nat)
    requires Grown(a, b) && x < |a|
    ensures Nearest(b, x) == Nearest(a, x)
  {
    assert b[..|a|][x] == b[x];
    if a[x].ValueCtx? { GrownNearest(a, b, a[x].parent); }
  }

  lemma GrownLeader(a: seq<Node>, b: seq<Node>, x: nat)
    requires Grown(a, b) && x < |a|
    ensures Leader(b, x) == Leader(a, x)
  {
    assert b[..|a|][x] == b[x];
    if a[x].CancelCtx? { GrownNearest(a, b, a[x].parent); }
  }

  /** A new context that follows nobody, or whose leader is cancelled and so is it. */
  lemma AppendKeepsTree(ns: seq<Node>, n: Node)
    requires Tree(ns) && ClosedOnce(n) && (!n.EmptyCtx? ==> n.parent < |ns|)
    requires n.CancelCtx? && n.attached && n.err.None? ==> Nearest(ns, n.parent) == None
    requires n.CancelCtx? ==> n.children == []
    ensures Tree(ns + [n])
  {
    var ns' := ns + [n];
    assert ns'[..|ns|] == ns;
    forall x: nat | x < |ns'| ensures Followed(ns', x) {
      if x < |ns| {
        GrownLeader(ns, ns', x);
        assert Followed(ns, x);
      } else if n.CancelCtx? {
        GrownNearest(ns, ns', n.parent);
      }
    }
    forall p: nat, k: nat | Live(ns', p) && k in ns'[p].children ensures ChildOf(ns', k, p) {
      assert ChildOf(ns, k, p);
      GrownLeader(ns, ns', k);
    }
  }

  /** A new follower of a live leader. */
  lemma JoinLiveKeepsTree(ns: seq<Node>, parent: nat, p: nat)
    requires Tree(ns) && parent < |ns| && Nearest(ns, parent) == Some(p) && ns[p].err.None?
    ensures Tree(Join(ns, parent))
  {
    var ns' := Join(ns, parent);
    assert SameShape(ns, ns'[..|ns|]);
    GrownNearest(ns, ns', parent);
    forall x: nat | x < |ns'| ensures Followed(ns', x) {
      if x < |ns| {
        GrownLeader(ns, ns', x);
        assert Followed(ns, x);
      }
    }
    forall q: nat, k: nat | Live(ns', q) && k in ns'[q].children ensures ChildOf(ns', k, q) {
      if k < |ns| {
        assert ChildOf(ns, k, q);
        GrownLeader(ns, ns', k);
      }
    }
  }

  lemma JoinKeepsTree(ns: seq<Node>, parent: nat)
    requires Tree(ns) && parent < |ns|
    ensures Tree(Join(ns, parent))
  {
    match Nearest(ns, parent)
    case None => AppendKeepsTree(ns, NewCancelCtx(parent, true));
    case Some(p) =>
      if ns[p].err.Some? {
        AppendKeepsTree(ns, Cancelled(NewCancelCtx(parent, true), ns[p].err.value));
      } else {
        JoinLiveKeepsTree(ns, parent, p);
      }
  }

  lemma EffectKeepsTree(ns: seq<Node>, op: Op)
    requires Tree(ns) && Enabled(ns, op)
    ensures Tree(Effect(ns, op))
  {
    match op
    case WithCancel(p) => JoinKeepsTree(ns, p);
    case NewDisconnectedContext(p) => AppendKeepsTree(ns, NewCancelCtx(p, false));
    case WithValue(p, k, v) => AppendKeepsTree(ns, ValueCtx(p, k, v));
    case Cancel(c, e) =>
      var ns' := Mark(ns, Sub(ns, c), e);
      assert ClosedOnce(ns[c]);
      MarkKeepsTree(ns, c, e);
      assert c in Sub(ns, c) && !Live(ns', c);
      if Nearest(ns', ns[c].parent).Some? { ShiftKeepsTree(ns', Nearest(ns', ns[c].parent).value, c); }
  }

  // ---------------------------------------------------------------- runs

  /** The states a sequence of operations goes through, from a lone background context. */
  ghost predicate Execution(states: seq<seq<Node>>, ops: seq<Op>) {
    && |states| == |ops| + 1 && states[0] == [EmptyCtx]
    && forall i :: 0 <= i < |ops| ==>
         Ordered(states[i]) && Enabled(states[i], ops[i]) && SameCore(Effect(states[i], ops[i]), states[i + 1])
  }

  lemma {:induction false} ExecutionKeepsTree(states: seq<seq<Node>>, ops: seq<Op>, i: nat)
    requires Execution(states, ops) && i < |states|
    ensures Tree(states[i])
  {
    if i > 0 {
      ExecutionKeepsTree(states, ops, i - 1);
      EffectKeepsTree(states[i - 1], ops[i - 1]);
      CoreKeepsTree(Effect(states[i - 1], ops[i - 1]), states[i]);
    }
  }

  lemma {:induction false} ErrOfNearest(ns: seq<Node>, x: nat)
    requires Ordered(ns) && x < |ns|
    ensures HasDone(ns, x) <==> Nearest(ns, x).Some?
    ensures Err(ns, x) == if Nearest(ns, x).Some? then ns[Nearest(ns, x).value].err else None
  {
    if ns[x].ValueCtx? { ErrOfNearest(ns, ns[x].parent); }
  }

  /** A context derived from `c` without a disconnected context in between. */
  predicate DerivedFrom(ns: seq<Node>, x: nat, c: nat)
    requires Ordered(ns) && x < |ns|
  {
    Nearest(ns, x).Some? && Below(ns, Nearest(ns, x).value, c)
  }

  /**
   At every point of every run: whatever is derived from a cancelled context, attached before or
   after, has an error, and a done channel was closed once if and only if its context has one.
   */
  lemma CancellationReachesSubtree(states: seq<seq<Node>>, ops: seq<Op>, i: nat, c: nat, x: nat)
    requires Execution(states, ops) && i < |states| && c < |states[i]| && x < |states[i]|
    requires Ordered(states[i]) && Err(states[i], c).Some? && states[i][c].CancelCtx? && DerivedFrom(states[i], x, c)
    ensures Err(states[i], x).Some?
    ensures states[i][Nearest(states[i], x).value].closes == 1
  {
    var ns := states[i];
    ExecutionKeepsTree(states, ops, i);
    ErrOfNearest(ns, x);
    var q := Nearest(ns, x).value;
    if Live(ns, q) { CancelledBelow(ns, q, c); }
    assert ClosedOnce(ns[q]);
  }

  /** The cancellation state of a context: everything but its child list. */
  function Fate(n: Node): Node { if n.CancelCtx? then n.(children := []) else n }

  lemma EffectFate(ns: seq<Node>, op: Op, x: nat)
    requires Tree(ns) && Enabled(ns, op) && x < |ns|
    ensures x < |Effect(ns, op)|
    ensures Fate(Effect(ns, op)[x]) ==
            if op.Cancel? && Live(ns, x) && Below(ns, x, op.c) then Cancelled(ns[x], op.reason) else Fate(ns[x])
  {
    if op.Cancel? { CancelFate(ns, op.c, op.reason, x); }
  }

  lemma CancelFate(ns: seq<Node>, c: nat, e: Reason, x: nat)
    requires Tree(ns) && Enabled(ns, Cancel(c, e)) && x < |ns|
    ensures x < |Effect(ns, Cancel(c, e))|
    ensures Fate(Effect(ns, Cancel(c, e))[x]) ==
            if Live(ns, x) && Below(ns, x, c) then Cancelled(ns[x], e) else Fate(ns[x])
  {
    assert ClosedOnce(ns[c]);
    if Live(ns, x) && Below(ns, x, c) { CancelledBelow(ns, x, c); }
    var ns' := Mark(ns, Sub(ns, c), e);
    MarkShape(ns, Sub(ns, c), e);
    assert Ordered(ns');
    LeaveFate(ns', ns[c].parent, c, x);
    assert x in Sub(ns, c) <==> Below(ns, x, c);
  }

  lemma LeaveFate(ns: seq<Node>, parent: nat, c: nat, x: nat)
    requires Ordered(ns) && parent < |ns| && x < |ns|
    ensures |Leave(ns, parent, c)| == |ns| && Fate(Leave(ns, parent, c)[x]) == Fate(ns[x])
  {
  }

  /** One operation: a cancel reaches exactly the live followers, and nothing else changes any context's fate. */
  lemma OneStep(states: seq<seq<Node>>, ops: seq<Op>, i: nat, x: nat)
    requires Execution(states, ops) && i < |ops| && x < |states[i]|
    ensures Ordered(states[i]) && x < |states[i + 1]|
    ensures Fate(states[i + 1][x]) ==
            if ops[i].Cancel? && Live(states[i], x) && Below(states[i], x, ops[i].c)
            then Cancelled(states[i][x], ops[i].reason) else Fate(states[i][x])
  {
    ExecutionKeepsTree(states, ops, i);
    EffectFate(states[i], ops[i], x);
    assert CoreOf(Effect(states[i], ops[i])[x]) == CoreOf(states[i + 1][x]);
  }

  /** A child attached to a cancelled context is cancelled at once, with its leader's error. */
  lemma LateChildIsCancelled(ns: seq<Node>, parent: nat)
    requires Tree(ns) && parent < |ns| && Err(ns, parent).Some?
    ensures Err(Join(ns, parent), |ns|) == Err(ns, parent)
    ensures Join(ns, parent)[|ns|].closes == 1
  {
    ErrOfNearest(ns, parent);
  }

  // ---------------------------------------------------------------- who hears of a cancellation

  lemma {:induction false} GrownBelow(a: seq<Node>, b: seq<Node>, x: nat, c: nat)
    requires Grown(a, b) && x < |a|
    ensures Below(b, x, c) <==> Below(a, x, c)
    decreases x
  {
    GrownLeader(a, b, x);
    if Leader(a, x).Some? { GrownBelow(a, b, Leader(a, x).value, c); }
  }

  lemma GrownDerived(a: seq<Node>, b: seq<Node>, x: nat, c: nat)
    requires Grown(a, b) && x < |a|
    ensures DerivedFrom(b, x, c) <==> DerivedFrom(a, x, c)
  {
    GrownNearest(a, b, x);
    if Nearest(a, x).Some? { GrownBelow(a, b, Nearest(a, x).value, c); }
  }

  /**
   What the operation made, if it made a context: which cancellations it hears of, next to what its
   parent heard of.
   */
  predicate Hears(ns: seq<Node>, op: Op, c: nat)
    requires Ordered(ns) && Enabled(ns, op) && !op.Cancel?
  {
    match op
    case WithCancel(p) => c == |ns| || DerivedFrom(ns, p, c)
    case NewDisconnectedContext(_) => c == |ns|
    case WithValue(p, _, _) => DerivedFrom(ns, p, c)
  }

  lemma MadeGrows(ns: seq<Node>, op: Op)
    requires Tree(ns) && Enabled(ns, op) && !op.Cancel?
    ensures Grown(ns, Effect(ns, op))
  {
    EffectKeepsTree(ns, op);
    var ns' := Effect(ns, op);
    assert SameShape(ns, ns'[..|ns|]);
  }

  /**
   A child made with WithCancel is derived from itself and from what its parent is derived from, a
   disconnected one from itself alone, one with a value from what its parent is derived from; and what the
   contexts before it are derived from does not change.
   */
  lemma MadeIsDerivedFrom(ns: seq<Node>, op: Op, c: nat)
    requires Tree(ns) && Enabled(ns, op) && !op.Cancel?
    ensures var ns' := Effect(ns, op);
            && Tree(ns') && |ns'| == |ns| + 1
            && (DerivedFrom(ns', |ns|, c) <==> Hears(ns, op, c))
            && (forall x :: 0 <= x < |ns| ==> (DerivedFrom(ns', x, c) <==> DerivedFrom(ns, x, c)))
  {
    var ns' := Effect(ns, op);
    EffectKeepsTree(ns, op);
    MadeGrows(ns, op);
    forall x | 0 <= x < |ns| ensures DerivedFrom(ns', x, c) <==> DerivedFrom(ns, x, c) {
      GrownDerived(ns, ns', x, c);
    }
    GrownNearest(ns, ns', op.parent);
    if op.WithCancel? && Nearest(ns, op.parent).Some? { GrownBelow(ns, ns', Nearest(ns, op.parent).value, c); }
  }

  /** The value of a key, as the new context sees it. */
  lemma {:induction false} GrownLookup(a: seq<Node>, b: seq<Node>, x: nat, key: string)
    requires Grown(a, b) && x < |a|
    ensures Lookup(b, x, key) == Lookup(a, x, key)
  {
    assert b[..|a|][x] == b[x];
    if !a[x].EmptyCtx? { GrownLookup(a, b, a[x].parent, key); }
  }

  /** Only WithValue changes what a key means, and only that key. */
  lemma MadeLooksUp(ns: seq<Node>, op: Op, key: string)
    requires Tree(ns) && Enabled(ns, op) && !op.Cancel?
    ensures var ns' := Effect(ns, op);
            && Ordered(ns') && |ns'| == |ns| + 1
            && Lookup(ns', |ns|, key) ==
               (if op.WithValue? && op.key == key then Some(op.val) else Lookup(ns, op.parent, key))
            && (forall x :: 0 <= x < |ns| ==> Lookup(ns', x, key) == Lookup(ns, x, key))
  {
    var ns' := Effect(ns, op);
    MadeGrows(ns, op);
    forall x | 0 <= x < |ns| ensures Lookup(ns', x, key) == Lookup(ns, x, key) { GrownLookup(ns, ns', x, key); }
  }

  /** A cancellation changes nobody's derivation. */
  lemma ShapeDerived(a: seq<Node>, b: seq<Node>, x: nat, c: nat)
    requires Ordered(a) && SameShape(a, b) && x < |a|
    ensures Ordered(b) && (DerivedFrom(b, x, c) <==> DerivedFrom(a, x, c))
  {
    ShapeNearest(a, b, x);
    if Nearest(a, x).Some? { ShapeBelow(a, b, Nearest(a, x).value, c); }
  }
}
