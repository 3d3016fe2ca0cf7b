/**
 The history iterator that a task pages through, and where it cuts history off.

 A query task must not see events past its last one, however the server cuts pages. For a
 decision task the same code insists that the cut is at a completed decision.
 */
module HistoryTruncation {
  import opened Common
  import opened HistoryBatches

  datatype PageResult =
    | PageOK(events: seq<Event>, more: bool)
    | NotCompleted
    | OutOfRange

  predicate ShouldTruncate(page: seq<Event>, maxEventID: int) {
    |page| > 0 && maxEventID > 0 && page[|page| - 1].id > maxEventID
  }

  predicate IsQueryTask(startedEventID: int) { startedEventID == 0 }

  /** Cutting a page off; `OutOfRange` is a slice or index that panics. */
  function CutPage(page: seq<Event>, last: int, needsCompleted: bool): PageResult
    requires page != []
  {
    var n := last - page[0].id + 1;
    if n < 0 || n > |page| then OutOfRange
    else if !needsCompleted then PageOK(page[..n], false)
    else if n == 0 then OutOfRange
    else if !page[n - 1].kind.DecisionTaskCompleted? then NotCompleted
    else PageOK(page[..n], false)
  }

  /** `more` is whether the server has given a token for another page. */
  function GetPage(page: seq<Event>, more: bool, startedEventID: int, maxEventID: int): PageResult {
    if ShouldTruncate(page, startedEventID) then CutPage(page, startedEventID, true)
    else if ShouldTruncate(page, maxEventID) && IsQueryTask(startedEventID) then CutPage(page, maxEventID, false)
    else PageOK(page, more)
  }

  /** All events from page `k` on; `None` on an error or a panic. */
  function DrainFrom(pages: seq<seq<Event>>, k: nat, startedEventID: int, maxEventID: int): Option<seq<Event>>
    requires k < |pages|
    decreases |pages| - k
  {
    match GetPage(pages[k], k + 1 < |pages|, startedEventID, maxEventID)
    case NotCompleted => None
    case OutOfRange => None
    case PageOK(events, more) =>
      if !more || k + 1 == |pages| then Some(events)
      else
        match DrainFrom(pages, k + 1, startedEventID, maxEventID)
        case None => None
        case Some(rest) => Some(events + rest)
  }

  function With(events: seq<Event>, rest: Option<seq<Event>>): Option<seq<Event>> {
    if rest.None? then None else Some(events + rest.value)
  }

  /** A page that is not cut is followed by the rest. */
  lemma DrainOn(pages: seq<seq<Event>>, k: nat, startedEventID: int, maxEventID: int)
    requires k < |pages| && GetPage(pages[k], k + 1 < |pages|, startedEventID, maxEventID) ==
             PageOK(pages[k], k + 1 < |pages|)
    ensures DrainFrom(pages, k, startedEventID, maxEventID) ==
            if k + 1 == |pages| then Some(pages[k])
                else With(pages[k], DrainFrom(pages, k + 1, startedEventID, maxEventID))
  {
  }

  // ---------------------------------------------------------------- the reference

  /** The events with an ID of at most `max`. */
  function UpTo(s: seq<Event>, max: int): seq<Event> {
    if s == [] then [] else (if s[0].id <= max then [s[0]] else []) + UpTo(s[1..], max)
  }

  lemma {:induction false} UpToIsPrefix(s: seq<Event>, first: int, max: int)
    requires Contiguous(s, first)
    ensures UpTo(s, max) == if max < first then [] else if max - first + 1 >= |s| then s else s[..max - first + 1]
  {
    if s != [] {
      assert Contiguous(s[1..], first + 1) by { assert forall i :: 0 <= i < |s| - 1 ==> s[1..][i] == s[i + 1]; }
      UpToIsPrefix(s[1..], first + 1, max);
      assert s == [s[0]] + s[1..];
    }
  }

  lemma {:induction false} UpToAppends(a: seq<Event>, b: seq<Event>, max: int)
    ensures UpTo(a + b, max) == UpTo(a, max) + UpTo(b, max)
  {
    if a == [] {
      assert a + b == b;
    } else {
      assert (a + b)[0] == a[0] && (a + b)[1..] == a[1..] + b;
      UpToAppends(a[1..], b, max);
      Associative(if a[0].id <= max then [a[0]] else [], UpTo(a[1..], max), UpTo(b, max));
    }
  }

  lemma {:induction false} UpToNothing(s: seq<Event>, max: int)
    requires forall i :: 0 <= i < |s| ==> s[i].id > max
    ensures UpTo(s, max) == []
  {
    if s != [] { UpToNothing(s[1..], max); }
  }

  lemma FlattenFrom(pages: seq<seq<Event>>, k: nat)
    requires k < |pages|
    ensures Flatten(pages[k..]) == pages[k] + Flatten(pages[k + 1..])
  {
    assert pages[k..][0] == pages[k] && pages[k..][1..] == pages[k + 1..];
  }

  /** Splitting a contiguous stream at a page. */
  lemma ContiguousSplits(a: seq<Event>, b: seq<Event>, first: int)
    requires Contiguous(a + b, first)
    ensures Contiguous(a, first) && Contiguous(b, first + |a|)
  {
    assert forall i :: 0 <= i < |a| ==> (a + b)[i] == a[i];
    assert forall i :: 0 <= i < |b| ==> (a + b)[|a| + i] == b[i];
  }

  // ---------------------------------------------------------------- query tasks

  /** Where a page of a contiguous stream is cut. */
  lemma PageUpTo(page: seq<Event>, first: int, last: int)
    requires Contiguous(page, first) && 0 < last && first <= last + 1
    ensures ShouldTruncate(page, last) <==> first + |page| - 1 > last
    ensures UpTo(page, last) == if ShouldTruncate(page, last) then page[..last - first + 1] else page
    ensures page != [] ==> page[0].id == first
  {
    UpToIsPrefix(page, first, last);
    if page != [] { assert page[|page| - 1].id == first + |page| - 1; }
  }

  /** What a stream gives up to `last`, page by page. */
  lemma StreamUpTo(pages: seq<seq<Event>>, k: nat, first: int, last: int)
    requires k < |pages| && Contiguous(Flatten(pages[k..]), first) && 0 < last && first <= last + 1
    ensures Contiguous(pages[k], first) && Contiguous(Flatten(pages[k + 1..]), first + |pages[k]|)
    ensures UpTo(Flatten(pages[k..]), last) ==
            if ShouldTruncate(pages[k], last) then pages[k][..last - first + 1]
                else pages[k] + UpTo(Flatten(pages[k + 1..]), last)
  {
    var page, rest := pages[k], Flatten(pages[k + 1..]);
    FlattenFrom(pages, k);
    ContiguousSplits(page, rest, first);
    UpToAppends(page, rest, last);
    PageUpTo(page, first, last);
    if ShouldTruncate(page, last) {
      UpToNothing(rest, last);
      assert page[..last - first + 1] + [] == page[..last - first + 1];
    }
  }

  lemma {:induction false} QueryDrainFrom(pages: seq<seq<Event>>, k: nat, first: int, max: int)
    requires k < |pages| && Contiguous(Flatten(pages[k..]), first) && 0 < max && first <= max + 1
    ensures DrainFrom(pages, k, 0, max) == Some(UpTo(Flatten(pages[k..]), max))
    decreases |pages| - k
  {
    StreamUpTo(pages, k, first, max);
    PageUpTo(pages[k], first, max);
    if !ShouldTruncate(pages[k], max) {
      if k + 1 < |pages| {
        QueryDrainFrom(pages, k + 1, first + |pages[k]|, max);
      } else {
        assert pages[k + 1..] == [] && pages[k] + [] == pages[k];
      }
    }
  }

  /** A query sees exactly the events up to its last one, once each and in order, however pages are cut. */
  lemma QuerySeesUpToMax(pages: seq<seq<Event>>, max: int)
    requires pages != [] && Contiguous(Flatten(pages), 1) && max > 0
    ensures DrainFrom(pages, 0, 0, max) == Some(UpTo(Flatten(pages), max))
  {
    assert pages[0..] == pages;
    QueryDrainFrom(pages, 0, 1, max);
  }

  lemma PageCutsDoNotMatter(pages: seq<seq<Event>>, pages': seq<seq<Event>>, max: int)
    requires pages != [] && pages' != [] && Flatten(pages) == Flatten(pages') && Contiguous(Flatten(pages), 1) &&
             max > 0
    ensures DrainFrom(pages, 0, 0, max) == DrainFrom(pages', 0, 0, max)
  {
    QuerySeesUpToMax(pages, max);
    QuerySeesUpToMax(pages', max);
  }

  // ---------------------------------------------------------------- decision tasks

  /** Whether the event after `started`, if there is one, is on the same page as the event `started` itself. */
  predicate SamePage(pages: seq<seq<Event>>, k: nat, first: int, started: int)
    requires k <= |pages|
    decreases |pages| - k
  {
    k < |pages| &&
    if started < first + |pages[k]| - 1 then first <= started else SamePage(pages, k + 1, first + |pages[k]|, started)
  }

  /**
   A decision task's history can be read if and only if nothing follows its start, or the cut is at a
   completed decision inside a page.
   */
  ghost predicate Readable(pages: seq<seq<Event>>, k: nat, first: int, started: int)
    requires k <= |pages|
  {
    var s := Flatten(pages[k..]);
    || first + |s| - 1 <= started
    || (SamePage(pages, k, first, started) && first <= started < first + |s| &&
        s[started - first].kind.DecisionTaskCompleted?)
  }

  lemma LastPage(pages: seq<seq<Event>>, k: nat, first: int, started: int)
    requires k + 1 == |pages| && first + |pages[k]| - 1 <= started
    ensures Readable(pages, k, first, started) && pages[k] + UpTo(Flatten(pages[k + 1..]), started) == pages[k]
  {
    FlattenFrom(pages, k);
    assert pages[k + 1..] == [];
  }

  /** The page that goes past the start settles it. */
  lemma CutDecides(pages: seq<seq<Event>>, k: nat, first: int, started: int, max: int)
    requires k < |pages| && 0 < started && first <= started + 1 && ShouldTruncate(pages[k], started)
    requires pages[k][0].id == first && first + |pages[k]| - 1 > started
    ensures DrainFrom(pages, k, started, max).Some? <==> Readable(pages, k, first, started)
    ensures DrainFrom(pages, k, started, max).Some? ==>
              DrainFrom(pages, k, started, max).value == pages[k][..started - first + 1]
  {
    FlattenFrom(pages, k);
    var page, s, n := pages[k], Flatten(pages[k..]), started - first + 1;
    assert GetPage(page, k + 1 < |pages|, started, max) == CutPage(page, started, true);
    assert SamePage(pages, k, first, started) <==> first <= started;
    assert n > 0 ==> s[started - first] == page[n - 1];
  }

  lemma {:induction false} DecisionDrainFrom(pages: seq<seq<Event>>, k: nat, first: int, started: int, max: int)
    requires k < |pages| && Contiguous(Flatten(pages[k..]), first) && 0 < started && first <= started + 1
    ensures DrainFrom(pages, k, started, max).Some? <==> Readable(pages, k, first, started)
    ensures DrainFrom(pages, k, started, max).Some? ==>
              DrainFrom(pages, k, started, max).value == UpTo(Flatten(pages[k..]), started)
    decreases |pages| - k
  {
    var page := pages[k];
    StreamUpTo(pages, k, first, started);
    PageUpTo(page, first, started);
    if ShouldTruncate(page, started) {
      CutDecides(pages, k, first, started, max);
    } else {
      DrainOn(pages, k, started, max);
      if k + 1 < |pages| {
        DecisionDrainFrom(pages, k + 1, first + |page|, started, max);
        ReadableOn(pages, k, first, started);
      } else {
        LastPage(pages, k, first, started);
      }
    }
  }

  /** A page that ends by `started` leaves the question to the pages after it. */
  lemma ReadableOn(pages: seq<seq<Event>>, k: nat, first: int, started: int)
    requires k + 1 < |pages| && first + |pages[k]| - 1 <= started
    ensures Readable(pages, k, first, started) <==> Readable(pages, k + 1, first + |pages[k]|, started)
  {
    FlattenFrom(pages, k);
    var s, rest := Flatten(pages[k..]), Flatten(pages[k + 1..]);
    if SamePage(pages, k + 1, first + |pages[k]|, started) {
      SamePageIsWithin(pages, k + 1, first + |pages[k]|, started);
    }
    assert first + |pages[k]| <= started < first + |s| ==> s[started - first] == rest[started - first - |pages[k]|];
  }

  lemma {:induction false} SamePageIsWithin(pages: seq<seq<Event>>, k: nat, first: int, started: int)
    requires k <= |pages| && SamePage(pages, k, first, started)
    ensures first <= started < first + |Flatten(pages[k..])| - 1
    decreases |pages| - k
  {
    FlattenFrom(pages, k);
    if started >= first + |pages[k]| - 1 { SamePageIsWithin(pages, k + 1, first + |pages[k]|, started); }
  }

  lemma DecisionReadsUpToStarted(pages: seq<seq<Event>>, started: int, max: int)
    requires pages != [] && Contiguous(Flatten(pages), 1) && started > 0
    ensures DrainFrom(pages, 0, started, max).Some? <==> Readable(pages, 0, 1, started)
    ensures DrainFrom(pages, 0, started, max).Some? ==>
              DrainFrom(pages, 0, started, max).value == UpTo(Flatten(pages), started)
  {
    assert pages[0..] == pages;
    DecisionDrainFrom(pages, 0, 1, started, max);
  }

  /** The event a decision task starts with is not a completed decision: history that goes on past it cannot be read. */
  lemma StartedDecisionCannotBeCut(pages: seq<seq<Event>>, started: int, max: int)
    requires pages != [] && Contiguous(Flatten(pages), 1) && 0 < started < |Flatten(pages)|
    requires Flatten(pages)[started - 1].kind.DecisionTaskStarted?
    ensures DrainFrom(pages, 0, started, max) == None
  {
    assert pages[0..] == pages;
    DecisionReadsUpToStarted(pages, started, max);
  }

  // ---------------------------------------------------------------- the iterator

  class HistoryIterator {
    /** What the server has, page by page; a token is the number of a page. */
    const pages: seq<seq<Event>>
    const startedEventID: int
    const maxEventID: int
    var nextPageToken: Option<nat>

    constructor (pages: seq<seq<Event>>, startedEventID: int, nextEventID: int, token: Option<nat>)
      requires pages != [] && (token.Some? ==> token.value < |pages|)
      ensures this.pages == pages && this.startedEventID == startedEventID && nextPageToken == token
      ensures startedEventID == 0 ==> maxEventID == nextEventID - 1
    {
      var next := nextEventID;
      if nextEventID != 0 && startedEventID != 0 &&
          (nextEventID - 1 == startedEventID || nextEventID + 1 == startedEventID) {
        next := startedEventID + 1;
      }
      this.pages, this.startedEventID, this.maxEventID, nextPageToken := pages, startedEventID, next - 1, token;
    }

    ghost predicate Valid()
      reads this
    {
      pages != [] && (nextPageToken.Some? ==> nextPageToken.value < |pages|)
    }

    /** No token asks for the first page. */
    ghost function Current(): nat
      reads this
    {
      if nextPageToken.Some? then nextPageToken.value else 0
    }

    /** What the pages from the current one on will give. */
    ghost function Rest(): Option<seq<Event>>
      requires Valid()
      reads this
    {
      DrainFrom(pages, Current(), startedEventID, maxEventID)
    }

    predicate HasNextPage()
      reads this
    {
      nextPageToken.Some?
    }

    method Reset()
      modifies this
      ensures nextPageToken == None
    {
      nextPageToken := None;
    }

    method GetNextPage() returns (r: PageResult)
      requires Valid()
      modifies this
      ensures Valid()
      ensures r == GetPage(pages[old(Current())], old(Current()) + 1 < |pages|, startedEventID, maxEventID)
      ensures r.PageOK? ==> nextPageToken == if r.more then Some(old(Current()) + 1) else None
      ensures !r.PageOK? ==> nextPageToken == old(nextPageToken)
      ensures r.PageOK? && r.more ==> old(Current()) + 1 < |pages|
    {
      var k := if nextPageToken.Some? then nextPageToken.value else 0;
      var page := pages[k];
      if |page| > 0 && startedEventID > 0 && page[|page| - 1].id > startedEventID {
        r := CutPage(page, startedEventID, true);
      } else if |page| > 0 && maxEventID > 0 && page[|page| - 1].id > maxEventID && startedEventID == 0 {
        r := CutPage(page, maxEventID, false);
      } else {
        r := PageOK(page, k + 1 < |pages|);
      }
      if r.PageOK? { nextPageToken := if r.more then Some(k + 1) else None; }
    }

    /** Start over and read to the end, as rebuilding a workflow does. */
    method ResetAndDrain() returns (r: Option<seq<Event>>)
      requires Valid()
      modifies this
      ensures r == DrainFrom(pages, 0, startedEventID, maxEventID)
    {
      Reset();
      var page := GetNextPage();
      if !page.PageOK? { return None; }
      var events := page.events;
      while HasNextPage()
        invariant Valid()
        invariant nextPageToken.Some? ==> DrainFrom(pages, 0, startedEventID, maxEventID) == With(events, Rest())
        invariant nextPageToken.None? ==> DrainFrom(pages, 0, startedEventID, maxEventID) == Some(events)
        decreases if nextPageToken.Some? then |pages| - nextPageToken.value else 0
      {
        page := GetNextPage();
        if !page.PageOK? { return None; }
        if nextPageToken.Some? && Rest().Some? { Associative(events, page.events, Rest().value); }
        events := events + page.events;
      }
      r := Some(events);
    }
  }
}
