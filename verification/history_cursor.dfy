/**
 The history cursor as it is written: an index into a growing list of loaded events, one
 batch of lookahead, and markers handed out one batch early.
 */
module HistoryCursor {
  import opened Common
  import opened HistoryBatches
  import opened HistoryPaging

  function Markers(events: seq<Event>): seq<Event> {
    if events == [] then []
    else (if events[0].kind.MarkerRecorded? then [events[0]] else []) + Markers(events[1..])
  }

  lemma {:induction false} MarkersAppend(events: seq<Event>, e: Event)
    ensures Markers(events + [e]) == Markers(events) + if e.kind.MarkerRecorded? then [e] else []
  {
    if events == [] {
      assert [] + [e] == [e];
    } else {
      assert (events + [e])[0] == events[0] && (events + [e])[1..] == events[1..] + [e];
      MarkersAppend(events[1..], e);
      Associative(if events[0].kind.MarkerRecorded? then [events[0]] else [], Markers(events[1..]),
                  if e.kind.MarkerRecorded? then [e] else []);
    }
  }

  /** What one call hands to the decision task processing loop. */
  datatype Delivery = Delivery(events: seq<Event>, markers: seq<Event>, checksum: Option<string>)

  /** Each batch goes out with the markers of the batch after it. */
  function Deliveries(turns: seq<Turn>): seq<Delivery> {
    if turns == [] then []
    else
      var markers := if |turns| > 1 then Markers(turns[1].events) else [];
      [Delivery(turns[0].events, markers, turns[0].checksum)] + Deliveries(turns[1..])
  }

  lemma {:induction false} DeliveriesAt(turns: seq<Turn>, k: nat)
    requires k < |turns|
    ensures |Deliveries(turns)| == |turns|
    ensures Deliveries(turns)[k] ==
            Delivery(turns[k].events, if k + 1 < |turns| then Markers(turns[k + 1].events) else [], turns[k].checksum)
  {
    if k > 0 {
      DeliveriesAt(turns[1..], k - 1);
    } else if |turns| > 1 {
      DeliveriesAt(turns[1..], 0);
    }
  }

  function Held(next: Option<seq<Event>>): seq<Event> { if next.Some? then next.value else [] }

  /** The batch the next call returns: the one held back, or the next one of the stream. */
  function Upcoming(next: Option<seq<Event>>, c: Cursor): ScanResult {
    if next.Some? then Batch(next.value, c) else Scan(c, [])
  }

  /** All batches still to be returned, the held one included. */
  function Rest(next: Option<seq<Event>>, c: Cursor): Option<seq<Turn>> {
    if next.None? then AllBatches(c)
    else if next.value == [] then Some([])
    else
      match AllBatches(c)
      case None => None
      case Some(turns) => Some([Turn(next.value, c.checksum)] + turns)
  }

  /** One call of the lookahead: the head of what is left, with the markers of the batch behind it. */
  lemma LookaheadStep(next: Option<seq<Event>>, c: Cursor, next': Option<seq<Event>>, c': Cursor)
    requires Upcoming(next, c).Batch? && Upcoming(next, c).events != []
    requires Scan(Upcoming(next, c).cursor, []) == Batch(Held(next'), c')
    ensures Rest(next, c).Some? <==> Rest(next', c').Some?
    ensures Rest(next, c).Some? ==>
              var u, turns := Upcoming(next, c), Rest(next, c).value;
              && turns != [] && turns[1..] == Rest(next', c').value
              && Deliveries(turns)[0] == Delivery(u.events, Markers(Held(next')), u.cursor.checksum)
  {
    var u := Upcoming(next, c);
    assert Rest(next, c).Some? <==> AllBatches(u.cursor).Some?;
    if Held(next') == [] {
      EmptyBatchIsTheEnd(u.cursor, []);
      assert Scan(c', []) == Batch([], c');
    }
    assert AllBatches(u.cursor) == Rest(next', c');
    if Rest(next, c).Some? {
      var turns, rest := Rest(next, c).value, Rest(next', c').value;
      assert turns == [Turn(u.events, u.cursor.checksum)] + rest;
      assert rest != [] ==> rest[0].events == Held(next');
    }
  }

  lemma DropAppend(a: seq<Event>, k: nat, b: seq<Event>)
    requires k <= |a|
    ensures (a + b)[k..] == a[k..] + b
  {
  }

  lemma PositivePages(pages: seq<Page>)
    requires pages != [] && Positive(FlatPages(pages))
    ensures Positive(FlatPages(pages[1..])) && (pages[0].Fetched? ==> Positive(pages[0].events))
  {
    assert forall e :: e in FlatPages(pages[1..]) ==> e in FlatPages(pages);
    assert forall e :: pages[0].Fetched? && e in pages[0].events ==> e in FlatPages(pages);
  }

  class History {
    var loadedEvents: seq<Event>
    var currentIndex: nat
    var nextEventID: int
    const lastEventID: int
    var next: Option<seq<Event>>
    var binaryChecksum: Option<string>
    /** What the history iterator has yet to give. */
    var pages: seq<Page>

    /** The cursor as it stands, with its first `skip` unread events taken as read. */
    ghost function View(skip: nat): Cursor
      requires currentIndex + skip <= |loadedEvents|
      reads this
    {
      Cursor(loadedEvents[currentIndex + skip..], pages, nextEventID, lastEventID, binaryChecksum)
    }

    ghost predicate Valid()
      reads this
    {
      && currentIndex <= |loadedEvents|
      && nextEventID >= 0 && (nextEventID == 0 ==> loadedEvents == [])
      && Positive(loadedEvents) && Positive(FlatPages(pages))
    }

    /** The events not yet handed out. */
    ghost function Remaining(): nat
      requires Valid()
      reads this
    {
      |Held(next)| + |Flat(View(0))|
    }

    constructor (events: seq<Event>, startedEventID: int, pages: seq<Page>)
      requires Positive(events) && Positive(FlatPages(pages))
      ensures Valid() && next == None
      ensures View(0) == Cursor(events, pages, if events == [] then 0 else events[0].id, startedEventID, None)
    {
      loadedEvents, currentIndex, lastEventID := events, 0, startedEventID;
      nextEventID := if events == [] then 0 else events[0].id;
      next, binaryChecksum, this.pages := None, None, pages;
    }

    predicate HasMoreEvents()
      reads this
    {
      pages != []
    }

    predicate AllEventsProcessed()
      reads this
    {
      !(lastEventID > 0 && nextEventID <= lastEventID)
    }

    method LoadMoreEvents(ghost skip: nat) returns (ok: bool)
      requires Valid() && currentIndex + skip <= |loadedEvents| && pages != []
      modifies this`loadedEvents, this`nextEventID, this`pages
      ensures Valid() && pages == old(pages)[1..] && |loadedEvents| >= old(|loadedEvents|)
      ensures ok == old(pages)[0].Fetched?
      ensures ok ==> View(skip) == Load(old(View(skip)))
    {
      var page := pages[0];
      pages := pages[1..];
      PositivePages(old(pages));
      if page.FetchFailed? {
        return false;
      }
      DropAppend(loadedEvents, currentIndex + skip, page.events);
      loadedEvents := loadedEvents + page.events;
      if nextEventID == 0 && loadedEvents != [] {
        nextEventID := loadedEvents[0].id;
      }
      ok := true;
    }

    /** Look one event past the current one, loading at most one page for it. */
    method IsNextDecisionFailed() returns (ok: bool, isFailed: bool, checksum: Option<string>)
      requires Valid() && currentIndex < |loadedEvents|
      modifies this`loadedEvents, this`nextEventID, this`pages
      ensures Valid() && |loadedEvents| >= old(|loadedEvents|)
      ensures |pages| < old(|pages|) || (pages == old(pages) && loadedEvents == old(loadedEvents))
      ensures ok == Peek(old(View(1))).Some?
      ensures ok ==> View(1) == Peek(old(View(1))).value
      ensures ok ==> isFailed == (View(1).loaded != [] && Fails(View(1).loaded[0]))
      ensures ok ==> checksum == ChecksumOf(View(1).loaded)
    {
      isFailed, checksum := false, None;
      var nextIndex := currentIndex + 1;
      if nextIndex >= |loadedEvents| && HasMoreEvents() {
        ok := LoadMoreEvents(1);
        if !ok { return; }
      }
      ok := true;
      if nextIndex < |loadedEvents| {
        var nextEvent := loadedEvents[nextIndex];
        isFailed := nextEvent.kind.DecisionTaskTimedOut? || nextEvent.kind.DecisionTaskFailed?;
        if nextEvent.kind.DecisionTaskCompleted? { checksum := nextEvent.kind.checksum; }
      }
    }

    /** Let go of the events already read. */
    method DropRead()
      requires Valid()
      modifies this`loadedEvents, this`currentIndex
      ensures Valid() && currentIndex == 0 && View(0) == old(View(0))
    {
      ghost var c := View(0);
      loadedEvents := loadedEvents[currentIndex..];
      currentIndex := 0;
      assert View(0) == c;
    }

    /** Go past a started decision, whose ID has been counted; `done` unless it failed. */
    method TakeStarted() returns (ok: bool, done: bool)
      requires Valid() && currentIndex < |loadedEvents|
      modifies this`loadedEvents, this`nextEventID, this`pages, this`currentIndex, this`binaryChecksum
      ensures Valid() && ok == Peek(old(View(1))).Some?
      ensures !ok ==> !done && currentIndex == old(currentIndex)
      ensures ok ==> var c := Peek(old(View(1))).value;
                && done == !(c.loaded != [] && Fails(c.loaded[0]))
                && View(0) == if done then c.(checksum := ChecksumOf(c.loaded)) else c
      ensures |pages| < old(|pages|) ||
              (pages == old(pages) && loadedEvents == old(loadedEvents) &&
               currentIndex == old(currentIndex) + if ok then 1 else 0)
    {
      var isFailed, checksum;
      ok, isFailed, checksum := IsNextDecisionFailed();
      done := ok && !isFailed;
      if done { binaryChecksum := checksum; }
      if ok { currentIndex := currentIndex + 1; }
    }

    /** Read the current event into the batch; `done` when it ends the batch. */
    method TakeEvent(found: seq<Event>, markers: seq<Event>)
      returns (ok: bool, done: bool, found': seq<Event>, markers': seq<Event>)
      requires Valid() && currentIndex < |loadedEvents| && markers == Markers(found)
      modifies this`loadedEvents, this`nextEventID, this`pages, this`currentIndex, this`binaryChecksum
      ensures Valid()
      ensures ok ==> markers' == Markers(found')
      ensures !ok ==> Scan(old(View(0)), found) == ScanFailed
      ensures ok && done ==> Scan(old(View(0)), found) == Batch(found', View(0))
      ensures ok && !done ==> Scan(old(View(0)), found) == Scan(View(0), found')
      ensures |pages| < old(|pages|) ||
              (pages == old(pages) && |loadedEvents| - currentIndex <= old(|loadedEvents| - currentIndex) &&
               (ok && !done ==> |loadedEvents| - currentIndex < old(|loadedEvents| - currentIndex)))
    {
      ghost var c := View(0);
      var event := loadedEvents[currentIndex];
      done, found', markers' := false, found, markers;
      if event.id != nextEventID { return false, done, found', markers'; }
      nextEventID := nextEventID + 1;
      assert View(1) == Advance(c);
      if event.kind.DecisionTaskStarted? {
        MarkersAppend(found, event);
        ok, done := TakeStarted();
        if done { found' := found + [event]; }
        return;
      } else if !event.kind.DecisionTaskScheduled? && !event.kind.DecisionTaskTimedOut? &&
          !event.kind.DecisionTaskFailed? {
        if event.kind.MarkerRecorded? { markers' := markers + [event]; }
        MarkersAppend(found, event);
        found' := found + [event];
      }
      currentIndex := currentIndex + 1;
      ok := true;
    }

    /** Collect one batch; `None` is the nil slice of a loop that found nothing. */
    method CollectBatch() returns (ok: bool, events: Option<seq<Event>>, markers: seq<Event>)
      requires Valid()
      modifies this`loadedEvents, this`nextEventID, this`pages, this`currentIndex, this`binaryChecksum
      ensures Valid()
      ensures ok == Scan(old(View(0)), []).Batch?
      ensures ok ==> Scan(old(View(0)), []) == Batch(Held(events), View(0)) && markers == Markers(Held(events))
    {
      ghost var start := View(0);
      events, markers := None, [];
      if currentIndex == |loadedEvents| && !HasMoreEvents() {
        ok := AllEventsProcessed();
        return ok, Some([]), [];
      }
      var found: seq<Event> := [];
      while true
        invariant Valid()
        invariant Scan(start, []) == Scan(View(0), found)
        invariant markers == Markers(found)
        decreases |pages|, |loadedEvents| - currentIndex
      {
        if currentIndex == |loadedEvents| {
          if !HasMoreEvents() {
            if !AllEventsProcessed() { return false, None, []; }
            break;
          }
          ok := LoadMoreEvents(0);
          if !ok { return false, None, []; }
        } else {
          var done;
          ok, done, found, markers := TakeEvent(found, markers);
          if !ok { return false, None, []; }
          if done { break; }
        }
      }
      DropRead();
      ok, events := true, if found == [] then None else Some(found);
    }

    /** The next batch, with the markers of the batch after it. */
    method NextDecisionEvents() returns (ok: bool, d: Delivery)
      requires Valid()
      modifies this
      ensures Valid()
      ensures !ok ==> Rest(old(next), old(View(0))).None?
      ensures ok && Rest(old(next), old(View(0))) == Some([]) ==> d.events == []
      ensures ok && Rest(old(next), old(View(0))) != Some([]) ==>
                && d.events != []
                && (Rest(old(next), old(View(0))).Some? <==> Rest(next, View(0)).Some?)
      ensures ok && Rest(next, View(0)).Some? && d.events != [] ==>
                && Rest(old(next), old(View(0))).value != []
                && d == Deliveries(Rest(old(next), old(View(0))).value)[0]
                && Rest(next, View(0)).value == Rest(old(next), old(View(0))).value[1..]
      ensures ok && d.events != [] ==> Remaining() < old(Remaining())
    {
      d := Delivery([], [], None);
      ghost var was, start := next, View(0);
      var markers;
      if next.None? {
        ScanConsumesIfAny(start);
        ok, next, markers := CollectBatch();
        if !ok { return; }
      }
      ok, d := true, Delivery(Held(next), [], binaryChecksum);
      if d.events != [] {
        ghost var c := View(0);
        assert Upcoming(was, start) == Batch(d.events, c);
        ScanConsumesIfAny(c);
        ok, next, markers := CollectBatch();
        d := d.(markers := markers);
        if ok {
          LookaheadStep(was, start, next, View(0));
        } else {
          assert AllBatches(c) == None;
        }
      }
    }

    /** Run the cursor to its end, as the decision task processing loop does. */
    method ReadAll() returns (ok: bool, deliveries: seq<Delivery>)
      requires Valid()
      modifies this
      ensures ok == Rest(old(next), old(View(0))).Some?
      ensures ok ==> deliveries == Deliveries(Rest(old(next), old(View(0))).value)
    {
      ghost var was, start := next, View(0);
      ghost var turns := Rest(was, start);
      deliveries := [];
      while true
        invariant Valid()
        invariant turns.Some? <==> Rest(next, View(0)).Some?
        invariant turns.Some? ==>
                    Deliveries(turns.value) == deliveries + Deliveries(Rest(next, View(0)).value)
        decreases Remaining()
      {
        ghost var rest := Rest(next, View(0));
        var d;
        ok, d := NextDecisionEvents();
        if !ok { return; }
        if d.events == [] { return; }
        if turns.Some? { Associative(deliveries, [d], Deliveries(rest.value[1..])); }
        deliveries := deliveries + [d];
      }
    }
  }

  /** A scan that succeeds uses up at least the events it returns. */
  lemma ScanConsumesIfAny(c: Cursor)
    ensures Scan(c, []).Batch? ==> |Flat(Scan(c, []).cursor)| + |Scan(c, []).events| <= |Flat(c)|
  {
    if Scan(c, []).Batch? { ScanConsumes(c, []); }
  }
}
