/**
 Batching does not depend on paging. The cursor's batches are those of the concatenated
 stream if and only if no empty page blinds its lookahead, and a run succeeds if and only
 if the event IDs are contiguous and reach the last expected one.
 */
module HistoryPaging {
  import opened Common
  import opened HistoryBatches

  // ---------------------------------------------------------------- moving along the stream

  lemma LoadKeepsStream(c: Cursor)
    requires c.loaded == [] && c.pages != [] && c.pages[0].Fetched?
    ensures Flat(Load(c)) == Flat(c)
    ensures BlindSpots(Load(c).loaded, Load(c).pages) == BlindSpots(c.loaded, c.pages)
    ensures AllFetched(c.pages) ==> AllFetched(Load(c).pages)
  {
  }

  lemma AdvanceStream(c: Cursor)
    requires c.loaded != []
    ensures Flat(c) != [] && Flat(c)[0] == c.loaded[0] && Flat(c)[1..] == Flat(Advance(c))
  {
  }

  /** Consuming an event loses a blind spot exactly when it was the started decision in front of one. */
  lemma AdvanceBlindSpots(c: Cursor)
    requires c.loaded != []
    ensures BlindSpots(c.loaded, c.pages) ==
            (if |c.loaded| == 1 then MissedFailure(c.loaded[0], c.pages) else 0) + BlindSpots(c.loaded[1..], c.pages)
  {
  }

  /** What the reference says about the head of a stream. */
  lemma SegmentStep(s: seq<Event>)
    requires s != []
    ensures FirstCut(s) == if CutAt(s, 0) then 1 else 1 + FirstCut(s[1..])
    ensures Visible(s[..FirstCut(s)]) ==
            (if Skipped(s[0]) || (s[0].kind.DecisionTaskStarted? && !CutAt(s, 0)) then [] else [s[0]]) +
            (if CutAt(s, 0) then [] else Visible(s[1..][..FirstCut(s[1..])]))
    ensures s[FirstCut(s)..] == if CutAt(s, 0) then s[1..] else s[1..][FirstCut(s[1..])..]
  {
    var n, head := FirstCut(s), s[..FirstCut(s)];
    assert head[1..] == s[1..][..n - 1];
    assert head[0] == s[0];
    assert |s| > 1 && !CutAt(s, 0) ==> n > 1 && head[1] == s[1];
  }

  /** At a started decision the lookahead sees what the stream says, unless an empty page is in the way. */
  lemma PeekStream(c: Cursor, e: Event)
    requires AllFetched(c.pages) && e.kind.DecisionTaskStarted?
    ensures Peek(c).Some?
    ensures var c' := Peek(c).value;
            && Flat(c') == Flat(c) && AllFetched(c'.pages)
            && BlindSpots(c'.loaded, c'.pages) == BlindSpots(c.loaded, c.pages)
            && (c'.loaded != [] && Fails(c'.loaded[0]) <==>
                Flat(c) != [] && Fails(Flat(c)[0]) && !(c.loaded == [] && MissedFailure(e, c.pages) == 1))
  {
    if c.loaded == [] && c.pages != [] { LoadKeepsStream(c); }
  }

  // ---------------------------------------------------------------- one batch

  /** With a clear view, a scan returns the visible part of the first segment and stops behind it. */
  ghost predicate Sees(c: Cursor, acc: seq<Event>, r: ScanResult) {
    r.Batch? ==>
      && r.events == acc + Visible(Flat(c)[..FirstCut(Flat(c))])
      && Flat(r.cursor) == Flat(c)[FirstCut(Flat(c))..]
      && AllFetched(r.cursor.pages) && BlindSpots(r.cursor.loaded, r.cursor.pages) == 0
  }

  lemma {:induction false} ScanIsFirstSegment(c: Cursor, acc: seq<Event>)
    requires AllFetched(c.pages) && BlindSpots(c.loaded, c.pages) == 0
    ensures Sees(c, acc, Scan(c, acc))
    decreases |c.pages|, |c.loaded|
  {
    if c.loaded == [] {
      if c.pages != [] {
        LoadKeepsStream(c);
        ScanIsFirstSegment(Load(c), acc);
      }
    } else {
      AdvanceBlindSpots(c);
      if c.loaded[0].id == c.nextID && c.loaded[0].kind.DecisionTaskStarted? {
        StartedIsFirstSegment(c, acc);
      } else if c.loaded[0].id == c.nextID {
        var acc' := if Skipped(c.loaded[0]) then acc else acc + [c.loaded[0]];
        ScanIsFirstSegment(Advance(c), acc');
        ReadIsFirstSegment(c, acc, acc');
      }
    }
  }

  /** Reading an event that is not a started decision. */
  lemma ReadIsFirstSegment(c: Cursor, acc: seq<Event>, acc': seq<Event>)
    requires c.loaded != [] && c.loaded[0].id == c.nextID && !c.loaded[0].kind.DecisionTaskStarted?
    requires acc' == if Skipped(c.loaded[0]) then acc else acc + [c.loaded[0]]
    requires Sees(Advance(c), acc', Scan(Advance(c), acc'))
    ensures Sees(c, acc, Scan(c, acc))
  {
    var s := Flat(c);
    AdvanceStream(c);
    SegmentStep(s);
    var v, v' := Visible(s[..FirstCut(s)]), Visible(s[1..][..FirstCut(s[1..])]);
    assert Scan(c, acc) == Scan(Advance(c), acc');
    assert acc' + v' == acc + v by {
      if Skipped(s[0]) {
        assert [] + v' == v';
      } else {
        Associative(acc, [s[0]], v');
      }
    }
  }

  lemma {:induction false} StartedIsFirstSegment(c: Cursor, acc: seq<Event>)
    requires AllFetched(c.pages) && c.loaded != [] && c.loaded[0].kind.DecisionTaskStarted? &&
             c.loaded[0].id == c.nextID
    requires BlindSpots(c.loaded, c.pages) == 0 && BlindSpots(c.loaded[1..], c.pages) == 0
    requires |c.loaded| == 1 ==> MissedFailure(c.loaded[0], c.pages) == 0
    ensures Sees(c, acc, Scan(c, acc))
    decreases |c.pages|, |c.loaded|, 0
  {
    AdvanceStream(c);
    SegmentStep(Flat(c));
    PeekStream(Advance(c), c.loaded[0]);
    var s, c2 := Flat(c), Peek(Advance(c)).value;
    assert CutAt(s, 0) <==> !(Flat(c2) != [] && Fails(Flat(c2)[0]));
    if CutAt(s, 0) {
      var c3 := c2.(checksum := ChecksumOf(c2.loaded));
      assert Scan(c, acc) == Batch(acc + [s[0]], c3);
      assert Flat(c3) == s[1..] && Visible(s[..FirstCut(s)]) == [s[0]];
    } else {
      assert Scan(c, acc) == Scan(c2, acc);
      assert Visible(s[..FirstCut(s)]) == Visible(s[1..][..FirstCut(s[1..])]);
      ScanIsFirstSegment(c2, acc);
    }
  }

  /** Blind spots are the only difference: each one lets a failed start through. */
  lemma {:induction false} ScanCounts(c: Cursor, acc: seq<Event>)
    requires AllFetched(c.pages) && Scan(c, acc).Batch?
    ensures var c' := Scan(c, acc).cursor;
            && AllFetched(c'.pages)
            && |Scan(c, acc).events| + |Visible(Flat(c'))| + BlindSpots(c'.loaded, c'.pages) ==
               |acc| + |Visible(Flat(c))| + BlindSpots(c.loaded, c.pages)
    decreases |c.pages|, |c.loaded|
  {
    if c.loaded == [] {
      if c.pages != [] {
        LoadKeepsStream(c);
        ScanCounts(Load(c), acc);
      }
    } else {
      var e, c1 := c.loaded[0], Advance(c);
      AdvanceStream(c);
      AdvanceBlindSpots(c);
      if !e.kind.DecisionTaskStarted? {
        ScanCounts(c1, if Skipped(e) then acc else acc + [e]);
      } else {
        PeekStream(c1, e);
        var c2 := Peek(c1).value;
        if c2.loaded != [] && Fails(c2.loaded[0]) { ScanCounts(c2, acc); }
      }
    }
  }

  // ---------------------------------------------------------------- event IDs

  ghost predicate Positive(s: seq<Event>) {
    forall e :: e in s ==> e.id > 0
  }

  /** An unset expected ID means that nothing has been loaded yet. */
  ghost predicate Expecting(c: Cursor) {
    c.nextID >= 0 && (c.nextID == 0 ==> c.loaded == [])
  }

  /** The ID the stream has to start with. */
  function StartID(c: Cursor): int {
    if c.nextID == 0 && Flat(c) != [] then Flat(c)[0].id else c.nextID
  }

  /** The IDs are the contiguous ones from `first` and reach the last expected event. */
  ghost predicate Complete(s: seq<Event>, first: int, lastID: int) {
    Contiguous(s, first) && (lastID > 0 ==> first + |s| > lastID)
  }

  lemma LoadKeepsExpecting(c: Cursor)
    requires c.loaded == [] && c.pages != [] && c.pages[0].Fetched? && Positive(Flat(c)) && Expecting(c)
    ensures Expecting(Load(c)) && StartID(Load(c)) == StartID(c) && Load(c).lastID == c.lastID
  {
    LoadKeepsStream(c);
    assert Load(c).loaded != [] ==> Load(c).loaded[0] == Flat(c)[0];
  }

  lemma AdvanceKeepsExpecting(c: Cursor)
    requires c.loaded != [] && Positive(Flat(c)) && Expecting(c)
    ensures StartID(c) == c.nextID > 0 && Flat(c)[0] == c.loaded[0]
    ensures var c1 := Advance(c);
            Expecting(c1) && StartID(c1) == c.nextID + 1 && c1.lastID == c.lastID && Positive(Flat(c1))
    ensures Complete(Flat(c), StartID(c), c.lastID) <==>
            c.loaded[0].id == c.nextID && Complete(Flat(Advance(c)), c.nextID + 1, c.lastID)
  {
    var s, s1 := Flat(c), Flat(Advance(c));
    AdvanceStream(c);
    assert forall i :: 0 <= i < |s1| ==> s[i + 1] == s1[i];
    if c.loaded[0].id == c.nextID && Contiguous(s1, c.nextID + 1) {
      forall i | 0 <= i < |s| ensures s[i].id == c.nextID + i {
        if i > 0 { assert s[i] == s1[i - 1]; }
      }
    }
    if Contiguous(s, c.nextID) {
      forall i | 0 <= i < |s1| ensures s1[i].id == c.nextID + 1 + i { assert s1[i] == s[i + 1]; }
    }
  }

  lemma PeekKeepsExpecting(c: Cursor)
    requires AllFetched(c.pages) && Positive(Flat(c)) && Expecting(c)
    ensures Peek(c).Some?
    ensures var c' := Peek(c).value;
            && Expecting(c') && StartID(c') == StartID(c) && c'.lastID == c.lastID && Flat(c') == Flat(c)
            && AllFetched(c'.pages)
  {
    if c.loaded == [] && c.pages != [] {
      LoadKeepsStream(c);
      LoadKeepsExpecting(c);
    }
  }

  ghost predicate Ready(c: Cursor) {
    AllFetched(c.pages) && Positive(Flat(c)) && Expecting(c)
  }

  ghost predicate Reaches(c: Cursor) { Complete(Flat(c), StartID(c), c.lastID) }

  /** A scan fails only on an incomplete stream; one that succeeds leaves the question to the rest. */
  ghost predicate Checked(c: Cursor, r: ScanResult) {
    match r
    case ScanFailed => !Reaches(c)
    case Batch(events, c') =>
      && Ready(c') && (Reaches(c) <==> Reaches(c'))
      && (events == [] ==> Flat(c') == [] && !Premature(c'))
  }

  lemma {:induction false} ScanChecksIDs(c: Cursor, acc: seq<Event>)
    requires Ready(c)
    ensures Checked(c, Scan(c, acc))
    decreases |c.pages|, |c.loaded|
  {
    if c.loaded == [] {
      if c.pages != [] {
        LoadKeepsStream(c);
        LoadKeepsExpecting(c);
        ScanChecksIDs(Load(c), acc);
      }
    } else {
      AdvanceKeepsExpecting(c);
      if c.loaded[0].id == c.nextID {
        if c.loaded[0].kind.DecisionTaskStarted? {
          ScanChecksStarted(c, acc);
        } else {
          ScanChecksIDs(Advance(c), if Skipped(c.loaded[0]) then acc else acc + [c.loaded[0]]);
        }
      }
    }
  }

  lemma {:induction false} ScanChecksStarted(c: Cursor, acc: seq<Event>)
    requires Ready(c) && c.loaded != [] && c.loaded[0].id == c.nextID && c.loaded[0].kind.DecisionTaskStarted?
    requires Ready(Advance(c)) && (Reaches(c) <==> Reaches(Advance(c)))
    ensures Checked(c, Scan(c, acc))
    decreases |c.pages|, |c.loaded|, 0
  {
    PeekKeepsExpecting(Advance(c));
    var c2 := Peek(Advance(c)).value;
    if c2.loaded != [] && Fails(c2.loaded[0]) {
      ScanChecksIDs(c2, acc);
    } else {
      var c3 := c2.(checksum := ChecksumOf(c2.loaded));
      assert Flat(c3) == Flat(c2) && StartID(c3) == StartID(c2);
    }
  }

  /** The whole run succeeds if and only if the IDs are contiguous and reach the last expected event. */
  lemma {:induction false} RunSucceedsIffComplete(c: Cursor)
    requires Ready(c)
    ensures AllBatches(c).Some? <==> Reaches(c)
    decreases |Flat(c)|
  {
    ScanChecksIDs(c, []);
    if Scan(c, []).Batch? && Scan(c, []).events != [] {
      ScanConsumes(c, []);
      RunSucceedsIffComplete(Scan(c, []).cursor);
    }
  }

  // ---------------------------------------------------------------- all batches

  function EventsOf(turns: seq<Turn>): seq<seq<Event>> {
    if turns == [] then [] else [turns[0].events] + EventsOf(turns[1..])
  }

  lemma EventsOfCons(t: Turn, turns: seq<Turn>)
    ensures EventsOf([t] + turns) == [t.events] + EventsOf(turns)
  {
    assert ([t] + turns)[1..] == turns;
  }

  lemma {:induction false} SightedBatches(c: Cursor)
    requires AllFetched(c.pages) && AllBatches(c).Some? && BlindSpots(c.loaded, c.pages) == 0
    ensures EventsOf(AllBatches(c).value) == SpecBatches(Flat(c))
    decreases |Flat(c)|
  {
    var s, c' := Flat(c), Scan(c, []).cursor;
    ScanIsFirstSegment(c, []);
    var v := Visible(s[..FirstCut(s)]);
    assert [] + v == v;
    if v != [] {
      ScanConsumes(c, []);
      SightedBatches(c');
      EventsOfCons(Turn(v, c'.checksum), AllBatches(c').value);
    } else {
      OnlyTheEndIsInvisible(s);
    }
  }

  /** Only the last segment of a stream can be entirely invisible. */
  lemma {:induction false} OnlyTheEndIsInvisible(s: seq<Event>)
    requires Visible(s[..FirstCut(s)]) == []
    ensures FirstCut(s) == |s| && SpecBatches(s) == []
  {
    if s != [] {
      SegmentStep(s);
      OnlyTheEndIsInvisible(s[1..]);
      assert s[|s|..] == [];
    }
  }

  lemma {:induction false} BatchesCount(c: Cursor)
    requires AllFetched(c.pages) && AllBatches(c).Some?
    ensures |Flatten(EventsOf(AllBatches(c).value))| == |Visible(Flat(c))| + BlindSpots(c.loaded, c.pages)
    decreases |Flat(c)|
  {
    ScanCounts(c, []);
    var events, c' := Scan(c, []).events, Scan(c, []).cursor;
    if events != [] {
      ScanConsumes(c, []);
      BatchesCount(c');
      var rest := AllBatches(c').value;
      EventsOfCons(Turn(events, c'.checksum), rest);
      assert ([events] + EventsOf(rest))[1..] == EventsOf(rest);
    } else {
      EmptyBatchIsTheEnd(c, []);
    }
  }

  lemma {:induction false} EmptyBatchIsTheEnd(c: Cursor, acc: seq<Event>)
    requires Scan(c, acc).Batch? && Scan(c, acc).events == []
    ensures var c' := Scan(c, acc).cursor; c'.loaded == [] && c'.pages == [] && !Premature(c')
    decreases |c.pages|, |c.loaded|
  {
    if c.loaded == [] {
      if c.pages != [] { EmptyBatchIsTheEnd(Load(c), acc); }
    } else {
      var e, c1 := c.loaded[0], Advance(c);
      if !e.kind.DecisionTaskStarted? {
        EmptyBatchIsTheEnd(c1, if Skipped(e) then acc else acc + [e]);
      } else {
        EmptyBatchIsTheEnd(Peek(c1).value, acc);
      }
    }
  }

  /** The batches, put together, are the visible events of the stream. */
  lemma {:induction false} BatchesFlatten(s: seq<Event>)
    ensures Flatten(SpecBatches(s)) == Visible(s)
    decreases |s|
  {
    if s != [] {
      var n := FirstCut(s);
      BatchesFlatten(s[n..]);
      VisibleSplits(s);
      var v, rest := Visible(s[..n]), SpecBatches(s[n..]);
      if v != [] { assert ([v] + rest)[1..] == rest; } else { assert [] + rest == rest; }
    }
  }

  lemma {:induction false} VisibleSplits(s: seq<Event>)
    ensures Visible(s) == Visible(s[..FirstCut(s)]) + Visible(s[FirstCut(s)..])
  {
    if s != [] {
      SegmentStep(s);
      if !CutAt(s, 0) { VisibleSplits(s[1..]); }
    }
  }

  /** The batches are those of the concatenated stream exactly when nothing blinds the lookahead. */
  lemma BatchesExactlyWhenSighted(c: Cursor)
    requires AllFetched(c.pages) && AllBatches(c).Some?
    ensures EventsOf(AllBatches(c).value) == SpecBatches(Flat(c)) <==> BlindSpots(c.loaded, c.pages) == 0
  {
    BatchesCount(c);
    BatchesFlatten(Flat(c));
    if BlindSpots(c.loaded, c.pages) == 0 { SightedBatches(c); }
  }

  // ---------------------------------------------------------------- checksums

  /** No empty page is followed by another page. */
  ghost predicate NoEmptyMiddle(pages: seq<Page>) {
    forall i :: 0 <= i < |pages| - 1 ==> pages[i] != Fetched([])
  }

  /** Whether the first segment ends in a started decision, rather than at the end of the stream. */
  predicate EndsInStart(s: seq<Event>) {
    s != [] && (CutAt(s, 0) || EndsInStart(s[1..]))
  }

  /** The batches with the checksum of the decision each one leads to. */
  function SpecTurns(s: seq<Event>, checksum: Option<string>): seq<Turn>
    decreases |s|
  {
    if s == [] then []
    else
      var n := FirstCut(s);
      var v := Visible(s[..n]);
      var sum := if EndsInStart(s) then ChecksumOf(s[n..]) else checksum;
      (if v == [] then [] else [Turn(v, sum)]) + SpecTurns(s[n..], sum)
  }

  lemma {:induction false} NoEmptyMiddleIsSighted(loaded: seq<Event>, pages: seq<Page>)
    requires NoEmptyMiddle(pages)
    ensures BlindSpots(loaded, pages) == 0
    decreases |pages|
  {
    if pages != [] {
      var rest := pages[1..];
      assert forall i :: 0 <= i < |rest| - 1 ==> rest[i] == pages[i + 1];
      NoEmptyMiddleIsSighted(if pages[0].Fetched? then pages[0].events else [], rest);
      if |pages| > 1 { assert pages[0] != Fetched([]); }
      assert |pages| == 1 ==> FlatPages(rest) == [];
    }
  }

  lemma PeekSeesTheNext(c: Cursor)
    requires AllFetched(c.pages) && NoEmptyMiddle(c.pages)
    ensures var c' := Peek(c).value;
            NoEmptyMiddle(c'.pages) && ChecksumOf(c'.loaded) == ChecksumOf(Flat(c)) && c'.checksum == c.checksum
  {
    var c' := Peek(c).value;
    assert forall i :: 0 <= i < |c.pages| - 1 ==> c.pages[1..][i] == c.pages[i + 1];
    if c.loaded == [] && c.pages != [] {
      if |c.pages| > 1 { assert c.pages[0] != Fetched([]); }
      assert |c.pages| == 1 ==> FlatPages(c.pages[1..]) == [];
    }
  }

  ghost predicate Sums(c: Cursor, r: ScanResult) {
    r.Batch? ==>
      && NoEmptyMiddle(r.cursor.pages)
      && r.cursor.checksum == if EndsInStart(Flat(c)) then ChecksumOf(Flat(c)[FirstCut(Flat(c))..]) else c.checksum
  }

  lemma {:induction false} ScanSums(c: Cursor, acc: seq<Event>)
    requires AllFetched(c.pages) && NoEmptyMiddle(c.pages)
    ensures Sums(c, Scan(c, acc))
    decreases |c.pages|, |c.loaded|
  {
    if c.loaded == [] {
      if c.pages != [] {
        LoadKeepsStream(c);
        assert forall i :: 0 <= i < |c.pages| - 1 ==> c.pages[1..][i] == c.pages[i + 1];
        ScanSums(Load(c), acc);
      }
    } else if c.loaded[0].id == c.nextID {
      AdvanceStream(c);
      SegmentStep(Flat(c));
      if c.loaded[0].kind.DecisionTaskStarted? {
        StartedSums(c, acc);
      } else {
        ScanSums(Advance(c), if Skipped(c.loaded[0]) then acc else acc + [c.loaded[0]]);
      }
    }
  }

  lemma {:induction false} StartedSums(c: Cursor, acc: seq<Event>)
    requires AllFetched(c.pages) && NoEmptyMiddle(c.pages)
    requires c.loaded != [] && c.loaded[0].kind.DecisionTaskStarted? && c.loaded[0].id == c.nextID
    ensures Sums(c, Scan(c, acc))
    decreases |c.pages|, |c.loaded|, 0
  {
    var s, c1 := Flat(c), Advance(c);
    AdvanceStream(c);
    SegmentStep(s);
    PeekStream(c1, c.loaded[0]);
    PeekSeesTheNext(c1);
    NoEmptyMiddleIsSighted(c.loaded, c.pages);
    AdvanceBlindSpots(c);
    var c2 := Peek(c1).value;
    assert CutAt(s, 0) <==> !(Flat(c2) != [] && Fails(Flat(c2)[0]));
    if CutAt(s, 0) {
      assert Scan(c, acc) == Batch(acc + [s[0]], c2.(checksum := ChecksumOf(c2.loaded)));
    } else {
      assert Scan(c, acc) == Scan(c2, acc);
      ScanSums(c2, acc);
    }
  }

  /** Without an empty page in the middle, the cursor yields exactly the batches and checksums of the stream. */
  lemma {:induction false} BatchesDoNotDependOnPaging(c: Cursor)
    requires AllFetched(c.pages) && NoEmptyMiddle(c.pages) && AllBatches(c).Some?
    ensures AllBatches(c).value == SpecTurns(Flat(c), c.checksum)
    decreases |Flat(c)|
  {
    var s, c' := Flat(c), Scan(c, []).cursor;
    NoEmptyMiddleIsSighted(c.loaded, c.pages);
    ScanIsFirstSegment(c, []);
    ScanSums(c, []);
    var v := Visible(s[..FirstCut(s)]);
    assert [] + v == v;
    if v != [] {
      ScanConsumes(c, []);
      BatchesDoNotDependOnPaging(c');
    } else {
      OnlyTheEndIsInvisible(s);
      NothingLeft(s, c.checksum);
    }
  }

  lemma NothingLeft(s: seq<Event>, checksum: Option<string>)
    requires FirstCut(s) == |s| && Visible(s[..FirstCut(s)]) == []
    ensures SpecTurns(s, checksum) == []
  {
    assert s[|s|..] == [];
  }

  /** Two pagings of one stream give one sequence of batches. */
  lemma PagingDoesNotMatter(c: Cursor, d: Cursor)
    requires Ready(c) && Ready(d) && NoEmptyMiddle(c.pages) && NoEmptyMiddle(d.pages)
    requires Flat(c) == Flat(d) && StartID(c) == StartID(d) && c.lastID == d.lastID && c.checksum == d.checksum
    ensures AllBatches(c) == AllBatches(d)
  {
    RunSucceedsIffComplete(c);
    RunSucceedsIffComplete(d);
    if AllBatches(c).Some? {
      BatchesDoNotDependOnPaging(c);
      BatchesDoNotDependOnPaging(d);
    }
  }

  function BlindCursor(e: Event, f: Event): Cursor {
    Cursor([e], [Fetched([]), Fetched([f])], 1, 0, None)
  }

  /** An empty page in front of the failure of a decision: the failed start is handed on as if it had succeeded. */
  lemma EmptyPageHidesFailure(e: Event, f: Event)
    requires e == Event(1, DecisionTaskStarted) && f.id == 2 && Fails(f)
    ensures AllBatches(BlindCursor(e, f)) == Some([Turn([e], None)]) && SpecBatches(Flat(BlindCursor(e, f))) == []
  {
    var c, c1, end := BlindCursor(e, f), Cursor([], [Fetched([f])], 2, 0, None), Cursor([], [], 3, 0, None);
    assert c.pages[1..] == [Fetched([f])];
    assert Scan(c, []) == Batch([e], c1);
    LastPage(c1, f, end);
    assert [Turn([e], None)] + [] == [Turn([e], None)];
    FailedStream(e, f);
  }

  lemma LastPage(c: Cursor, f: Event, end: Cursor)
    requires c == Cursor([], [Fetched([f])], 2, 0, None) && end == Cursor([], [], 3, 0, None) && f.id == 2 && Fails(f)
    ensures AllBatches(c) == Some([])
  {
    assert Load(c) == Cursor([f], [], 2, 0, None);
    assert Advance(Load(c)) == end;
    assert Scan(end, []) == Batch([], end);
    assert Scan(Load(c), []) == Scan(end, []);
  }

  lemma FailedStream(e: Event, f: Event)
    requires e.kind.DecisionTaskStarted? && Fails(f)
    ensures SpecBatches(Flat(BlindCursor(e, f))) == []
  {
    var pages := BlindCursor(e, f).pages;
    assert pages[1..] == [Fetched([f])] && pages[1..][1..] == [];
    assert FlatPages([Fetched([f])]) == [f];
    assert Flat(BlindCursor(e, f)) == [e, f];
    assert [e, f][1..] == [f] && [e, f][..2] == [e, f] && [e, f][2..] == [];
    assert FirstCut([f]) == 1 && FirstCut([e, f]) == 2;
    assert Visible([f]) == [];
  }
}
