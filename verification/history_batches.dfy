/**
 How a paged stream of history events is regrouped into the batches that one decision
 task each sees.

 `Scan` follows the cursor over its pages, with its one-page lookahead. `Segments` and
 `Visible` define the batches from the concatenated stream alone. The two agree exactly
 when no page boundary hides a failed decision from the lookahead.
 */
module HistoryBatches {
  import opened Common

  datatype EventKind =
    | DecisionTaskScheduled
    | DecisionTaskStarted
    | DecisionTaskCompleted(checksum: Option<string>)
    | DecisionTaskTimedOut
    | DecisionTaskFailed
    | MarkerRecorded
    | OtherEvent(name: string)

  datatype Event = Event(id: int, kind: EventKind)

  /** What asking the history iterator for its next page gives. */
  datatype Page = Fetched(events: seq<Event>) | FetchFailed

  /** The cursor: events loaded but not consumed, pages to come, and the ID bookkeeping. */
  datatype Cursor = Cursor(
    loaded: seq<Event>,
    pages: seq<Page>,
    nextID: int,
    lastID: int,
    checksum: Option<string>)

  datatype ScanResult = Batch(events: seq<Event>, cursor: Cursor) | ScanFailed

  predicate Fails(e: Event) { e.kind.DecisionTaskTimedOut? || e.kind.DecisionTaskFailed? }

  predicate Skipped(e: Event) { e.kind.DecisionTaskScheduled? || Fails(e) }

  /** Append the next page; the first event ever loaded sets the expected ID. */
  function Load(c: Cursor): Cursor
    requires c.pages != [] && c.pages[0].Fetched?
  {
    var loaded := c.loaded + c.pages[0].events;
    c.(loaded := loaded, pages := c.pages[1..],
       nextID := if c.nextID == 0 && loaded != [] then loaded[0].id else c.nextID)
  }

  /** `verifyAllEventsProcessed`: the stream ended before the last expected event. */
  predicate Premature(c: Cursor) { c.lastID > 0 && c.nextID <= c.lastID }

  function ChecksumOf(events: seq<Event>): Option<string> {
    if events != [] && events[0].kind.DecisionTaskCompleted? then events[0].kind.checksum else None
  }

  /** The cursor just past its first event. */
  function Advance(c: Cursor): Cursor
    requires c.loaded != []
  {
    c.(loaded := c.loaded[1..], nextID := c.nextID + 1)
  }

  /** Make the next event visible if one page can: `IsNextDecisionFailed` loads at most one. */
  function Peek(c: Cursor): (r: Option<Cursor>)
    ensures r.Some? ==> r.value == c || |r.value.pages| < |c.pages|
  {
    if c.loaded == [] && c.pages != [] then
      if c.pages[0].FetchFailed? then None else Some(Load(c))
    else Some(c)
  }

  /** One batch, as the cursor collects it after `acc`. */
  function Scan(c: Cursor, acc: seq<Event>): ScanResult
    decreases |c.pages|, |c.loaded|
  {
    if c.loaded == [] then
      if c.pages == [] then (if Premature(c) then ScanFailed else Batch(acc, c))
      else if c.pages[0].FetchFailed? then ScanFailed
      else Scan(Load(c), acc)
    else
      var e := c.loaded[0];
      if e.id != c.nextID then ScanFailed
      else if !e.kind.DecisionTaskStarted? then Scan(Advance(c), if Skipped(e) then acc else acc + [e])
      else
        match Peek(Advance(c))
        case None => ScanFailed
        case Some(c') =>
          if c'.loaded != [] && Fails(c'.loaded[0]) then Scan(c', acc)
          else Batch(acc + [e], c'.(checksum := ChecksumOf(c'.loaded)))
  }

  // ---------------------------------------------------------------- the stream

  function FlatPages(pages: seq<Page>): seq<Event> {
    if pages == [] then []
    else (if pages[0].Fetched? then pages[0].events else []) + FlatPages(pages[1..])
  }

  function Flat(c: Cursor): seq<Event> { c.loaded + FlatPages(c.pages) }

  ghost predicate AllFetched(pages: seq<Page>) {
    forall i :: 0 <= i < |pages| ==> pages[i].Fetched?
  }

  // ---------------------------------------------------------------- the reference

  /** A decision that started and did not fail ends a segment. */
  predicate CutAt(s: seq<Event>, i: nat)
    requires i < |s|
  {
    s[i].kind.DecisionTaskStarted? && !(i + 1 < |s| && Fails(s[i + 1]))
  }

  /** The length of the first segment of a stream. */
  function FirstCut(s: seq<Event>): (n: nat)
    ensures n <= |s| && (s != [] ==> n > 0)
  {
    if s == [] then 0 else if CutAt(s, 0) then 1 else 1 + FirstCut(s[1..])
  }

  /** The events of a segment that are handed on: no scheduling noise and no failed starts. */
  function Visible(s: seq<Event>): seq<Event> {
    if s == [] then []
    else (if Skipped(s[0]) || (s[0].kind.DecisionTaskStarted? && !CutAt(s, 0)) then [] else [s[0]]) + Visible(s[1..])
  }

  /** The batches of a stream: the non-empty visible segments, in order. */
  function SpecBatches(s: seq<Event>): seq<seq<Event>>
    decreases |s|
  {
    if s == [] then []
    else
      var n := FirstCut(s);
      var v := Visible(s[..n]);
      (if v == [] then [] else [v]) + SpecBatches(s[n..])
  }

  predicate Contiguous(s: seq<Event>, first: int) {
    forall i :: 0 <= i < |s| ==> s[i].id == first + i
  }

  /** 1 if the lookahead past `e` misses a failure behind an empty page. */
  function MissedFailure(e: Event, pages: seq<Page>): nat {
    if e.kind.DecisionTaskStarted? && pages != [] && pages[0] == Fetched([]) &&
       FlatPages(pages) != [] && Fails(FlatPages(pages)[0]) then 1 else 0
  }

  /** How often the lookahead is blinded by an empty page between a started decision and its failure. */
  function BlindSpots(loaded: seq<Event>, pages: seq<Page>): nat
    decreases |pages|
  {
    if pages == [] then 0
    else
      (if loaded == [] then 0 else MissedFailure(loaded[|loaded| - 1], pages)) +
      BlindSpots(if pages[0].Fetched? then pages[0].events else [], pages[1..])
  }

  // ---------------------------------------------------------------- all batches

  datatype Turn = Turn(events: seq<Event>, checksum: Option<string>)

  /** The events consumed by a scan cover what it returns. */
  lemma {:induction false} ScanConsumes(c: Cursor, acc: seq<Event>)
    requires Scan(c, acc).Batch?
    ensures |Flat(Scan(c, acc).cursor)| + |Scan(c, acc).events| <= |Flat(c)| + |acc|
    decreases |c.pages|, |c.loaded|
  {
    if c.loaded == [] {
      if c.pages != [] { ScanConsumes(Load(c), acc); }
    } else {
      var e, c1 := c.loaded[0], Advance(c);
      if e.kind.DecisionTaskStarted? {
        var c2 := Peek(c1).value;
        if c2.loaded != [] && Fails(c2.loaded[0]) { ScanConsumes(c2, acc); }
      } else {
        ScanConsumes(c1, if Skipped(e) then acc else acc + [e]);
      }
    }
  }

  /** Every batch the cursor yields until an empty one; `None` when a scan fails. */
  function AllBatches(c: Cursor): Option<seq<Turn>>
    decreases |Flat(c)|
  {
    match Scan(c, [])
    case ScanFailed => None
    case Batch(events, c') =>
      if events == [] then Some([])
      else
        ScanConsumes(c, []);
        match AllBatches(c')
        case None => None
        case Some(rest) => Some([Turn(events, c'.checksum)] + rest)
  }
}
