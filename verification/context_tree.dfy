/**
 The cancellation tree of workflow contexts.

 Contexts are named by their position in creation order, so a context's parent comes before
 it. `Below` says by parent links alone which contexts hear of a cancellation; the child
 lists, which the code edits in place, are proved to agree with it.
 */
module ContextTree {
  import opened Common

  type Reason = string

  datatype Node =
    | EmptyCtx
    | ValueCtx(parent: nat, key: string, val: string)
    | CancelCtx(parent: nat, attached: bool, canceled: bool, err: Option<Reason>, closes: nat, children: seq<nat>)

  predicate Ordered(ns: seq<Node>) {
    forall x :: 0 <= x < |ns| && !ns[x].EmptyCtx? ==> ns[x].parent < x
  }

  /** `parentCancelCtx`: the nearest context, from `x` up, that can be cancelled. */
  function Nearest(ns: seq<Node>, x: nat): (r: Option<nat>)
    requires Ordered(ns) && x < |ns|
    ensures r.Some? ==> r.value <= x && ns[r.value].CancelCtx?
  {
    match ns[x]
    case EmptyCtx => None
    case ValueCtx(p, _, _) => Nearest(ns, p)
    case CancelCtx(_, _, _, _, _, _) => Some(x)
  }

  /** The context whose cancellation `x` was made to follow. */
  function Leader(ns: seq<Node>, x: nat): Option<nat>
    requires Ordered(ns) && x < |ns|
  {
    if ns[x].CancelCtx? && ns[x].attached then Nearest(ns, ns[x].parent) else None
  }

  /** `x` follows `c`, directly or through others: no disconnected context in between. */
  predicate Below(ns: seq<Node>, x: nat, c: nat)
    requires Ordered(ns) && x < |ns|
    decreases x
  {
    x == c || (Leader(ns, x).Some? && Below(ns, Leader(ns, x).value, c))
  }

  function Sub(ns: seq<Node>, c: nat): set<nat>
    requires Ordered(ns)
  {
    set x: nat | x < |ns| && Below(ns, x, c)
  }

  /** `Err` of a context; a value context asks its parent. */
  function Err(ns: seq<Node>, x: nat): Option<Reason>
    requires Ordered(ns) && x < |ns|
  {
    match ns[x]
    case EmptyCtx => None
    case ValueCtx(p, _, _) => Err(ns, p)
    case CancelCtx(_, _, _, err, _, _) => err
  }

  /** Whether `Done` gives a channel. */
  predicate HasDone(ns: seq<Node>, x: nat)
    requires Ordered(ns) && x < |ns|
  {
    match ns[x]
    case EmptyCtx => false
    case ValueCtx(p, _, _) => HasDone(ns, p)
    case CancelCtx(_, _, _, _, _, _) => true
  }

  /** The nearest value for a key, from `x` up. */
  function Lookup(ns: seq<Node>, x: nat, key: string): Option<string>
    requires Ordered(ns) && x < |ns|
  {
    match ns[x]
    case EmptyCtx => None
    case ValueCtx(p, k, v) => if k == key then Some(v) else Lookup(ns, p, key)
    case CancelCtx(p, _, _, _, _, _) => Lookup(ns, p, key)
  }

  predicate Live(ns: seq<Node>, x: nat) { x < |ns| && ns[x].CancelCtx? && ns[x].err.None? }

  // ---------------------------------------------------------------- the invariant

  /** The done channel is closed once, with the error. */
  ghost predicate ClosedOnce(n: Node) {
    n.CancelCtx? ==> n.canceled == n.err.Some? && n.closes == if n.err.Some? then 1 else 0
  }

  /** A cancelled leader has cancelled followers; a live follower is in its leader's list. */
  ghost predicate Followed(ns: seq<Node>, x: nat)
    requires Ordered(ns) && x < |ns|
  {
    Leader(ns, x).Some? && Live(ns, x) ==> Live(ns, Leader(ns, x).value) && x in ns[Leader(ns, x).value].children
  }

  ghost predicate ChildOf(ns: seq<Node>, k: nat, p: nat)
    requires Ordered(ns)
  {
    k < |ns| && Leader(ns, k) == Some(p)
  }

  ghost predicate Tree(ns: seq<Node>) {
    && Ordered(ns)
    && (forall x :: 0 <= x < |ns| ==> ClosedOnce(ns[x]))
    && (forall x :: 0 <= x < |ns| ==> Followed(ns, x))
    && (forall p: nat, k: nat :: Live(ns, p) && k in ns[p].children ==> ChildOf(ns, k, p))
  }

  // ---------------------------------------------------------------- cancelling a set of contexts

  function Cancelled(n: Node, e: Reason): Node
    requires n.CancelCtx?
  {
    n.(canceled := true, err := Some(e), closes := n.closes + 1, children := [])
  }

  /** The tree with the live contexts of a set cancelled. */
  function Mark(ns: seq<Node>, s: set<nat>, e: Reason): (r: seq<Node>)
    ensures |r| == |ns|
    ensures forall x :: 0 <= x < |ns| ==> r[x] == if x in s && Live(ns, x) then Cancelled(ns[x], e) else ns[x]
  {
    seq(|ns|, x requires 0 <= x < |ns| => if x in s && Live(ns, x) then Cancelled(ns[x], e) else ns[x])
  }

  /** The child list of a cancelled context does not matter any more. */
  function CoreOf(n: Node): Node { if n.CancelCtx? && n.err.Some? then n.(children := []) else n }

  ghost predicate SameCore(a: seq<Node>, b: seq<Node>) {
    |a| == |b| && forall x :: 0 <= x < |a| ==> CoreOf(a[x]) == CoreOf(b[x])
  }

  /** Same parents, same kinds. */
  ghost predicate SameShape(a: seq<Node>, b: seq<Node>) {
    && |a| == |b|
    && forall x :: 0 <= x < |a| ==>
         match a[x]
         case EmptyCtx => b[x].EmptyCtx?
         case ValueCtx(_, _, _) => b[x] == a[x]
         case CancelCtx(p, t, _, _, _, _) => b[x].CancelCtx? && b[x].parent == p && b[x].attached == t
  }

  lemma {:induction false} ShapeNearest(a: seq<Node>, b: seq<Node>, x: nat)
    requires Ordered(a) && SameShape(a, b) && x < |a|
    ensures Ordered(b) && Nearest(b, x) == Nearest(a, x)
  {
    if a[x].ValueCtx? { ShapeNearest(a, b, a[x].parent); }
  }

  lemma ShapeLeader(a: seq<Node>, b: seq<Node>, x: nat)
    requires Ordered(a) && SameShape(a, b) && x < |a|
    ensures Ordered(b) && Leader(b, x) == Leader(a, x)
  {
    if a[x].CancelCtx? { ShapeNearest(a, b, a[x].parent); }
  }

  lemma {:induction false} ShapeBelow(a: seq<Node>, b: seq<Node>, x: nat, c: nat)
    requires Ordered(a) && SameShape(a, b) && x < |a|
    ensures Ordered(b) && Below(b, x, c) == Below(a, x, c)
    decreases x
  {
    ShapeLeader(a, b, x);
    if Leader(a, x).Some? { ShapeBelow(a, b, Leader(a, x).value, c); }
  }

  lemma {:induction false} BelowTransitive(ns: seq<Node>, x: nat, y: nat, c: nat)
    requires Ordered(ns) && x < |ns| && y < |ns| && Below(ns, x, y) && Below(ns, y, c)
    ensures Below(ns, x, c)
    decreases x
  {
    if x != y { BelowTransitive(ns, Leader(ns, x).value, y, c); }
  }

  lemma {:induction false} BelowIsLater(ns: seq<Node>, x: nat, c: nat)
    requires Ordered(ns) && x < |ns| && Below(ns, x, c)
    ensures c <= x
    decreases x
  {
    if x != c { BelowIsLater(ns, Leader(ns, x).value, c); }
  }

  /** Whoever follows a cancelled context is cancelled. */
  lemma {:induction false} CancelledBelow(ns: seq<Node>, x: nat, c: nat)
    requires Tree(ns) && x < |ns| && c < |ns| && Below(ns, x, c) && Live(ns, x)
    ensures Live(ns, c)
    decreases x
  {
    if x != c {
      assert Followed(ns, x);
      CancelledBelow(ns, Leader(ns, x).value, c);
    }
  }

  /** A live follower of `c`, other than `c`, is below one of the contexts in its child list. */
  lemma {:induction false} BelowAChild(ns: seq<Node>, x: nat, c: nat) returns (d: nat)
    requires Tree(ns) && x < |ns| && c < |ns| && Below(ns, x, c) && Live(ns, x) && x != c
    ensures Live(ns, c) && d in ns[c].children && d < |ns| && Below(ns, x, d)
    decreases x
  {
    assert Followed(ns, x);
    var p := Leader(ns, x).value;
    if p == c {
      d := x;
    } else {
      d := BelowAChild(ns, p, c);
      assert Below(ns, x, p);
      BelowTransitive(ns, x, p, d);
    }
  }

  // ---------------------------------------------------------------- the tree after a cancellation

  lemma MarkShape(ns: seq<Node>, s: set<nat>, e: Reason)
    ensures SameShape(ns, Mark(ns, s, e))
  {
  }

  lemma CoreShape(a: seq<Node>, b: seq<Node>)
    requires SameCore(a, b)
    ensures SameShape(a, b)
    ensures forall x: nat :: Live(a, x) <==> Live(b, x)
    ensures forall x: nat :: Live(a, x) ==> a[x] == b[x]
  {
    assert forall x: nat :: x < |a| ==> CoreOf(a[x]) == CoreOf(b[x]);
  }

  /** Cancelling a whole subtree leaves a tree. */
  lemma MarkKeepsTree(ns: seq<Node>, c: nat, e: Reason)
    requires Tree(ns) && c < |ns|
    ensures Tree(Mark(ns, Sub(ns, c), e))
  {
    var ns' := Mark(ns, Sub(ns, c), e);
    MarkShape(ns, Sub(ns, c), e);
    forall x | 0 <= x < |ns| ensures Ordered(ns') && Followed(ns', x) {
      ShapeLeader(ns, ns', x);
      assert Followed(ns, x);
    }
    forall p: nat, k: nat | Live(ns', p) && k in ns'[p].children ensures ChildOf(ns', k, p) {
      assert Live(ns, p) && ns'[p] == ns[p];
      ShapeLeader(ns, ns', k);
    }
  }

  /** The list of a live context loses one element and repeats its last: what removing in place leaves behind. */
  function Shifted(s: seq<nat>, x: nat): (r: seq<nat>)
    ensures |r| == |s|
    ensures forall y :: y in s && y != x ==> y in r
    ensures forall y :: y in r ==> y in s
  {
    if s == [] || x !in s then s
    else if s[0] == x then s[1..] + [s[|s| - 1]]
    else [s[0]] + Shifted(s[1..], x)
  }

  /** Dropping a cancelled context from its leader's list leaves a tree. */
  lemma ShiftKeepsTree(ns: seq<Node>, p: nat, c: nat)
    requires Tree(ns) && p < |ns| && ns[p].CancelCtx? && !Live(ns, c)
    ensures Tree(ns[p := ns[p].(children := Shifted(ns[p].children, c))])
  {
    var ns' := ns[p := ns[p].(children := Shifted(ns[p].children, c))];
    assert SameShape(ns, ns');
    forall x | 0 <= x < |ns| ensures Ordered(ns') && Followed(ns', x) {
      ShapeLeader(ns, ns', x);
      assert Followed(ns, x);
    }
    forall q: nat, k: nat | Live(ns', q) && k in ns'[q].children ensures ChildOf(ns', k, q) {
      assert Live(ns, q) && k in ns[q].children;
      ShapeLeader(ns, ns', k);
    }
  }

  lemma CoreKeepsTree(a: seq<Node>, b: seq<Node>)
    requires Tree(a) && SameCore(a, b)
    ensures Tree(b)
  {
    CoreShape(a, b);
    assert forall x: nat :: x < |a| ==> CoreOf(a[x]) == CoreOf(b[x]);
    forall x | 0 <= x < |a| ensures Ordered(b) && Followed(b, x) && ClosedOnce(b[x]) {
      ShapeLeader(a, b, x);
      assert Followed(a, x) && ClosedOnce(a[x]);
    }
    forall p: nat, k: nat | Live(b, p) && k in b[p].children ensures ChildOf(b, k, p) {
      assert Live(a, p) && a[p] == b[p];
      ShapeLeader(a, b, k);
    }
  }

  // ---------------------------------------------------------------- cancelling step by step

  /** Whatever of `s` comes at or after `c` is there with its whole subtree. */
  ghost predicate ClosedFrom(ns: seq<Node>, s: set<nat>, c: nat)
    requires Ordered(ns)
  {
    forall y :: y in s && y >= c ==> Sub(ns, y) <= s
  }

  function SubAll(ns: seq<Node>, ks: seq<nat>): set<nat>
    requires Ordered(ns)
  {
    if ks == [] then {} else SubAll(ns, ks[..|ks| - 1]) + Sub(ns, ks[|ks| - 1])
  }

  lemma {:induction false} SubAllMember(ns: seq<Node>, ks: seq<nat>, k: nat, x: nat)
    requires Ordered(ns) && k in ks && x in Sub(ns, k)
    ensures x in SubAll(ns, ks)
  {
    if ks[|ks| - 1] != k { SubAllMember(ns, ks[..|ks| - 1], k, x); }
  }

  lemma {:induction false} SubAllOrigin(ns: seq<Node>, ks: seq<nat>, x: nat) returns (k: nat)
    requires Ordered(ns) && x in SubAll(ns, ks)
    ensures k in ks && x in Sub(ns, k)
  {
    if x in Sub(ns, ks[|ks| - 1]) {
      k := ks[|ks| - 1];
    } else {
      k := SubAllOrigin(ns, ks[..|ks| - 1], x);
    }
  }

  lemma SubNests(ns: seq<Node>, y: nat, c: nat)
    requires Ordered(ns) && y in Sub(ns, c)
    ensures Sub(ns, y) <= Sub(ns, c)
  {
    forall x | x in Sub(ns, y) ensures x in Sub(ns, c) { BelowTransitive(ns, x, y, c); }
  }

  /** A context that is cancelled already has nothing left to cancel below it. */
  lemma NothingToMark(ns: seq<Node>, s: set<nat>, c: nat, e: Reason)
    requires Tree(ns) && c < |ns| && ns[c].CancelCtx? && ClosedFrom(ns, s, c) && !Live(Mark(ns, s, e), c)
    ensures Mark(ns, s + Sub(ns, c), e) == Mark(ns, s, e)
  {
    if c !in s {
      forall x | x in Sub(ns, c) ensures !Live(ns, x) {
        if Live(ns, x) { CancelledBelow(ns, x, c); }
      }
    }
  }

  /** While the children of `c` are cancelled one after another, each call starts from a closed set. */
  lemma ClosedForChild(ns: seq<Node>, s: set<nat>, c: nat, ks: seq<nat>, d: nat)
    requires Tree(ns) && c < d && ClosedFrom(ns, s, c)
    ensures ClosedFrom(ns, s + {c} + SubAll(ns, ks), d)
  {
    var t := s + {c} + SubAll(ns, ks);
    forall y | y in t && y >= d ensures Sub(ns, y) <= t {
      if y !in s {
        var k := SubAllOrigin(ns, ks, y);
        SubNests(ns, y, k);
        forall x | x in Sub(ns, y) ensures x in t { SubAllMember(ns, ks, k, x); }
      }
    }
  }

  /** The children's subtrees and `c` itself make up the live part of the subtree of `c`. */
  lemma ChildrenCoverSubtree(ns: seq<Node>, s: set<nat>, c: nat, e: Reason)
    requires Tree(ns) && Live(ns, c)
    ensures Mark(ns, s + {c} + SubAll(ns, ns[c].children), e) == Mark(ns, s + Sub(ns, c), e)
  {
    forall x: nat | x < |ns| && Live(ns, x)
      ensures x in {c} + SubAll(ns, ns[c].children) <==> x in Sub(ns, c)
    {
      if x in Sub(ns, c) && x != c {
        var d := BelowAChild(ns, x, c);
        SubAllMember(ns, ns[c].children, d, x);
      }
      if x in SubAll(ns, ns[c].children) {
        var k := SubAllOrigin(ns, ns[c].children, x);
        assert ChildOf(ns, k, c);
        assert Below(ns, k, c);
        SubNests(ns, k, c);
      }
    }
  }
}
