/**
 What the batches of a stream are, by the kinds of its events: which events are handed on,
 and where one batch ends and the next begins.
 */
module HistoryMeaning {
  import opened Common
  import opened HistoryBatches
  import opened HistoryPaging

  /** Everything but scheduled, timed out and failed decisions, and starts that the next event takes back. */
  predicate HandedOn(s: seq<Event>, i: nat)
    requires i < |s|
  {
    match s[i].kind
    case DecisionTaskScheduled => false
    case DecisionTaskTimedOut => false
    case DecisionTaskFailed => false
    case DecisionTaskStarted =>
      i + 1 == |s| || (s[i + 1].kind != DecisionTaskTimedOut && s[i + 1].kind != DecisionTaskFailed)
    case DecisionTaskCompleted(_) => true
    case MarkerRecorded => true
    case OtherEvent(_) => true
  }

  ghost predicate Ascending(s: seq<Event>) {
    forall i, j :: 0 <= i < j < |s| ==> s[i].id < s[j].id
  }

  lemma {:induction false} VisibleInOrder(s: seq<Event>, first: int)
    requires Contiguous(s, first)
    ensures Ascending(Visible(s)) && forall e :: e in Visible(s) ==> e in s && e.id >= first
  {
    if s != [] { VisibleInOrder(s[1..], first + 1); }
  }

  lemma {:induction false} VisibleAt(s: seq<Event>, first: int, i: nat)
    requires Contiguous(s, first) && i < |s|
    ensures s[i] in Visible(s) <==> HandedOn(s, i)
  {
    VisibleInOrder(s[1..], first + 1);
    if i > 0 {
      VisibleAt(s[1..], first + 1, i - 1);
      assert s[1..][i - 1] == s[i] && (HandedOn(s[1..], i - 1) <==> HandedOn(s, i));
    }
  }

  /** Exactly these events of a stream are handed on, and in their order. */
  lemma VisibleExactly(s: seq<Event>, first: int)
    requires Contiguous(s, first)
    ensures forall e :: e in Visible(s) ==> e in s
    ensures forall i :: 0 <= i < |s| ==> (s[i] in Visible(s) <==> HandedOn(s, i))
    ensures Ascending(Visible(s))
  {
    VisibleInOrder(s, first);
    forall i | 0 <= i < |s| ensures s[i] in Visible(s) <==> HandedOn(s, i) { VisibleAt(s, first, i); }
  }

  /** Up to the first cut there is no other start that is handed on. */
  lemma {:induction false} OneStart(s: seq<Event>)
    requires s != []
    ensures var v := Visible(s[..FirstCut(s)]);
            && (forall i :: 0 <= i < |v| - 1 ==> v[i].kind != DecisionTaskStarted)
            && (FirstCut(s) < |s| ==> v != [] && v[|v| - 1].kind == DecisionTaskStarted)
  {
    SegmentStep(s);
    if !CutAt(s, 0) && |s| > 1 { OneStart(s[1..]); }
  }

  /** A batch ends with the decision that it is for, its only one; the last batch may have none. */
  lemma {:induction false} BatchIsOneDecision(s: seq<Event>, k: nat)
    requires k < |SpecBatches(s)|
    ensures var b := SpecBatches(s)[k];
            && b != []
            && (forall i :: 0 <= i < |b| - 1 ==> b[i].kind != DecisionTaskStarted)
            && (k + 1 < |SpecBatches(s)| ==> b[|b| - 1].kind == DecisionTaskStarted)
    decreases |s|
  {
    var n := FirstCut(s);
    OneStart(s);
    var v := Visible(s[..n]);
    if v == [] {
      OnlyTheEndIsInvisible(s);
    } else if k > 0 {
      BatchIsOneDecision(s[n..], k - 1);
    } else if n == |s| {
      assert SpecBatches(s[n..]) == [];
    }
  }
}
