/**
 The context operations as they run: a recursive cancel over a copy of the child list, and
 removal from a list in place.
 */
module ContextObjects {
  import opened Common
  import opened ContextTree
  import opened ContextRuns
  import opened ContextKin

  class Contexts {
    var nodes: seq<Node>

    constructor ()
      ensures nodes == [EmptyCtx] && Tree(nodes)
    {
      nodes := [EmptyCtx];
    }

    /** Walk up to the first context that can be cancelled. */
    method ParentCancelCtx(parent: nat) returns (p: Option<nat>)
      requires Ordered(nodes) && parent < |nodes|
      ensures p == Nearest(nodes, parent)
      ensures p.Some? <==> HasDone(nodes, parent)
    {
      ErrOfNearest(nodes, parent);
      var x: nat := parent;
      while !nodes[x].CancelCtx?
        invariant x < |nodes| && Nearest(nodes, x) == Nearest(nodes, parent)
        decreases x
      {
        if nodes[x].EmptyCtx? { return None; }
        x := nodes[x].parent;
      }
      p := Some(x);
    }

    /** The slice is shifted over the removed element; its length, which the caller keeps, does not change. */
    method RemoveChildFromSlice(p: nat, child: nat)
      requires p < |nodes| && nodes[p].CancelCtx?
      modifies this
      ensures nodes == old(nodes)[p := old(nodes)[p].(children := Shifted(old(nodes)[p].children, child))]
    {
      var children := nodes[p].children;
      var found := 0;
      while found < |children| && children[found] != child
        invariant found <= |children| && child !in children[..found]
      {
        found := found + 1;
      }
      ShiftedAt(children, found, child);
      if found < |children| {
        children := children[..found] + children[found + 1..] + [children[|children| - 1]];
      }
      nodes := nodes[p := nodes[p].(children := children)];
    }

    method RemoveChild(parent: nat, child: nat)
      requires Ordered(nodes) && parent < |nodes|
      modifies this
      ensures nodes == Leave(old(nodes), parent, child)
    {
      var p := ParentCancelCtx(parent);
      if p.Some? { RemoveChildFromSlice(p.value, child); }
    }

    /**
     Cancel a context and its children. `base` is the tree before the outermost call and `s` the
     contexts cancelled since.
     */
    method CancelTree(c: nat, e: Reason, ghost base: seq<Node>, ghost s: set<nat>)
      requires Tree(base) && c < |base| && base[c].CancelCtx? && ClosedFrom(base, s, c)
      requires SameCore(Mark(base, s, e), nodes)
      modifies this
      ensures SameCore(Mark(base, s + Sub(base, c), e), nodes)
      decreases |base| - c
    {
      assert CoreOf(Mark(base, s, e)[c]) == CoreOf(nodes[c]) && ClosedOnce(base[c]);
      if nodes[c].canceled {
        NothingToMark(base, s, c, e);
        return;
      }
      assert nodes[c] == base[c];
      nodes := nodes[c := nodes[c].(canceled := true, err := Some(e), closes := nodes[c].closes + 1)];
      CoreOfMarked(base, s, c, e, old(nodes), nodes);
      CancelChildren(c, nodes[c].children, e, base, s);
      ChildrenCoverSubtree(base, s, c, e);
      assert CoreOf(Mark(base, s + Sub(base, c), e)[c]) == CoreOf(nodes[c]);
      nodes := nodes[c := nodes[c].(children := [])];
    }

    /** Cancel the contexts of a copy of the child list, in order. */
    method CancelChildren(c: nat, children: seq<nat>, e: Reason, ghost base: seq<Node>, ghost s: set<nat>)
      requires Tree(base) && Live(base, c) && children == base[c].children && ClosedFrom(base, s, c)
      requires SameCore(Mark(base, s + {c} + SubAll(base, []), e), nodes)
      modifies this
      ensures SameCore(Mark(base, s + {c} + SubAll(base, children), e), nodes)
      decreases |base| - c, 0
    {
      var i := 0;
      while i < |children|
        invariant i <= |children|
        invariant SameCore(Mark(base, s + {c} + SubAll(base, children[..i]), e), nodes)
      {
        var child := children[i];
        ghost var t := s + {c} + SubAll(base, children[..i]);
        assert ChildOf(base, child, c);
        ClosedForChild(base, s, c, children[..i], child);
        CancelTree(child, e, base, t);
        assert children[..i + 1][..i] == children[..i];
        assert t + Sub(base, child) == s + {c} + SubAll(base, children[..i + 1]);
        i := i + 1;
      }
      assert children[..i] == children;
    }

    /** The function that `WithCancel` returns with its context. */
    method CancelFunc(c: nat, e: Reason)
      requires Tree(nodes) && Enabled(nodes, Cancel(c, e))
      modifies this
      ensures SameCore(Effect(old(nodes), Cancel(c, e)), nodes) && Tree(nodes)
    {
      ghost var base := nodes;
      assert ClosedOnce(nodes[c]);
      if nodes[c].canceled { return; }
      assert Mark(base, {}, e) == base && {} + Sub(base, c) == Sub(base, c);
      CancelTree(c, e, base, {});
      ghost var ns := Mark(base, Sub(base, c), e);
      MarkKeepsTree(base, c, e);
      CoreKeepsTree(ns, nodes);
      assert CoreOf(ns[c]) == CoreOf(nodes[c]);
      LeaveSameCore(ns, nodes, ns[c].parent, c);
      RemoveChild(nodes[c].parent, c);
      EffectKeepsTree(base, Cancel(c, e));
      CoreKeepsTree(Effect(base, Cancel(c, e)), nodes);
    }

    /** A new context that is cancelled with its parent. */
    method WithCancel(parent: nat) returns (c: nat)
      requires Tree(nodes) && parent < |nodes|
      modifies this
      ensures nodes == Effect(old(nodes), Op.WithCancel(parent)) && Tree(nodes) && c == |old(nodes)| < |nodes|
      ensures forall d :: DerivedFrom(nodes, c, d) <==> d == c || DerivedFrom(old(nodes), parent, d)
      ensures Err(nodes, c) == Err(old(nodes), parent)
    {
      MadeErr(nodes, Op.WithCancel(parent));
      forall d ensures DerivedFrom(Effect(nodes, Op.WithCancel(parent)), |nodes|, d) <==>
          d == |nodes| || DerivedFrom(nodes, parent, d) {
        MadeIsDerivedFrom(nodes, Op.WithCancel(parent), d);
      }
      EffectKeepsTree(nodes, Op.WithCancel(parent));
      c := |nodes|;
      var p := ParentCancelCtx(parent);
      var n := NewCancelCtx(parent, true);
      if p.None? {
        nodes := nodes + [n];
      } else if nodes[p.value].err.Some? {
        nodes := nodes + [Cancelled(n, nodes[p.value].err.value)];
      } else {
        nodes := nodes[p.value := nodes[p.value].(children := nodes[p.value].children + [c])] + [n];
      }
    }

    /** A new context that its parent's cancellation does not reach. */
    method NewDisconnectedContext(parent: nat) returns (c: nat)
      requires Tree(nodes) && parent < |nodes|
      modifies this
      ensures nodes == Effect(old(nodes), Op.NewDisconnectedContext(parent)) && Tree(nodes) &&
              c == |old(nodes)| < |nodes|
      ensures forall d :: DerivedFrom(nodes, c, d) <==> d == c
      ensures Err(nodes, c).None?
    {
      MadeErr(nodes, Op.NewDisconnectedContext(parent));
      EffectKeepsTree(nodes, Op.NewDisconnectedContext(parent));
      c := |nodes|;
      nodes := nodes + [NewCancelCtx(parent, false)];
    }

    method WithValue(parent: nat, key: string, val: string) returns (c: nat)
      requires Tree(nodes) && parent < |nodes|
      modifies this
      ensures nodes == Effect(old(nodes), Op.WithValue(parent, key, val)) && Tree(nodes) && c == |old(nodes)| < |nodes|
      ensures forall d :: DerivedFrom(nodes, c, d) <==> DerivedFrom(old(nodes), parent, d)
      ensures forall k :: Lookup(nodes, c, k) == if k == key then Some(val) else Lookup(old(nodes), parent, k)
      ensures Err(nodes, c) == Err(old(nodes), parent)
    {
      MadeErr(nodes, Op.WithValue(parent, key, val));
      forall d ensures DerivedFrom(Effect(nodes, Op.WithValue(parent, key, val)), |nodes|, d) <==>
          DerivedFrom(nodes, parent, d) {
        MadeIsDerivedFrom(nodes, Op.WithValue(parent, key, val), d);
      }
      forall k ensures Lookup(Effect(nodes, Op.WithValue(parent, key, val)), |nodes|, k) ==
                       if k == key then Some(val) else Lookup(nodes, parent, k) {
        MadeLooksUp(nodes, Op.WithValue(parent, key, val), k);
      }
      EffectKeepsTree(nodes, Op.WithValue(parent, key, val));
      c := |nodes|;
      nodes := nodes + [ValueCtx(parent, key, val)];
    }
  }

  lemma LeaveSameCore(a: seq<Node>, b: seq<Node>, parent: nat, c: nat)
    requires Ordered(a) && parent < |a| && SameCore(a, b)
    ensures Ordered(b) && SameCore(Leave(a, parent, c), Leave(b, parent, c))
  {
    CoreShape(a, b);
    ShapeNearest(a, b, parent);
    var a', b' := Leave(a, parent, c), Leave(b, parent, c);
    forall x | 0 <= x < |a| ensures CoreOf(a'[x]) == CoreOf(b'[x]) {
      assert CoreOf(a[x]) == CoreOf(b[x]);
    }
  }

  lemma {:induction false} ShiftedAt(s: seq<nat>, i: nat, x: nat)
    requires i <= |s| && x !in s[..i] && (i < |s| ==> s[i] == x)
    ensures Shifted(s, x) == if i < |s| then s[..i] + s[i + 1..] + [s[|s| - 1]] else s
  {
    if i == |s| {
      assert s[..i] == s;
    } else if i > 0 {
      assert s[0] == s[..i][0];
      assert s[1..][..i - 1] == s[..i][1..];
      ShiftedAt(s[1..], i - 1, x);
      assert s[..i] == [s[0]] + s[1..][..i - 1];
    } else {
      assert s[..0] + s[1..] == s[1..];
    }
  }

  lemma CoreOfMarked(base: seq<Node>, s: set<nat>, c: nat, e: Reason, was: seq<Node>, now: seq<Node>)
    requires Ordered(base) && Live(base, c) && c !in s && SameCore(Mark(base, s, e), was) && was[c] == base[c]
    requires now == was[c := was[c].(canceled := true, err := Some(e), closes := was[c].closes + 1)]
    ensures SameCore(Mark(base, s + {c} + SubAll(base, []), e), now)
  {
    var m, m' := Mark(base, s, e), Mark(base, s + {c}, e);
    assert s + {c} + SubAll(base, []) == s + {c};
    forall x | 0 <= x < |base| ensures CoreOf(m'[x]) == CoreOf(now[x]) {
      assert CoreOf(m[x]) == CoreOf(was[x]);
      assert x != c ==> m'[x] == m[x] && now[x] == was[x];
    }
  }
}
