/**
 Batching of activity heartbeats: the first beat is sent and opens a window, beats inside
 the window are held back, and a goroutine waits for the end of the window to report them.
 Whether a beat gets through is decided by the server, one flag per send.
 */
module Heartbeats {
  import opened Common

  type Details = string

  /** A batched call made while a window is open. */
  datatype Beat = Batched(details: Details) | InBackground

  /**
   `open`: there is a window timer. `waiting`: goroutines waiting for its end. `sent`: every beat sent.
   */
  datatype Invoker = Invoker(
    open: bool,
    detailsToReport: Option<Details>,
    lastDetailsReported: Option<Details>,
    closed: bool,
    waiting: nat,
    sent: seq<Details>)

  datatype Op =
    | Heartbeat(details: Details)
    | BatchHeartbeat(details: Details, accepted: bool)
    | BackgroundHeartbeat(accepted: bool)
    | WindowEnd(accepted: bool)
    | Exit
    | Close(flush: bool)

  function Send(i: Invoker, d: Details): Invoker { i.(sent := i.sent + [d]) }

  /** `accepted` covers a beat that got through and one that came back with a cancellation. */
  function HeartbeatAndScheduleNextRun(i: Invoker, d: Details, accepted: bool): Invoker {
    var s := Send(i, d);
    if accepted then s.(open := true, lastDetailsReported := Some(d), detailsToReport := None, waiting := i.waiting + 1)
    else s
  }

  function Or(a: Option<Details>, b: Option<Details>): Option<Details> { if a.Some? then a else b }

  predicate Enabled(i: Invoker, op: Op) {
    match op
    case WindowEnd(_) => i.waiting > 0
    case Exit => i.waiting > 0 && i.closed
    case Close(_) => !i.closed
    case _ => true
  }

  function Step(i: Invoker, op: Op): Invoker
    requires Enabled(i, op)
  {
    match op
    case Heartbeat(d) => Send(i, d)
    case BatchHeartbeat(d, accepted) =>
      if i.open then i.(detailsToReport := Some(d))
      else HeartbeatAndScheduleNextRun(i, d, accepted)
    case BackgroundHeartbeat(accepted) =>
      if i.open then i.(detailsToReport := Or(i.detailsToReport, i.lastDetailsReported))
      else
        var d := Or(i.detailsToReport, i.lastDetailsReported);
        HeartbeatAndScheduleNextRun(i, if d.Some? then d.value else "", accepted)
    case WindowEnd(accepted) =>
      var i' := i.(open := false, waiting := i.waiting - 1);
      if i.detailsToReport.Some? then HeartbeatAndScheduleNextRun(i', i.detailsToReport.value, accepted) else i'
    case Exit => i.(waiting := i.waiting - 1)
    case Close(flush) =>
      var i' := i.(closed := true);
      if i.open && flush && i.detailsToReport.Some? then
        Send(i', i.detailsToReport.value).(lastDetailsReported := i.detailsToReport, detailsToReport := None)
      else i'
  }

  function Run(i: Invoker, ops: seq<Op>): Invoker
    decreases |ops|
  {
    if ops == [] then i
    else
      var i' := Run(i, ops[..|ops| - 1]);
      if Enabled(i', ops[|ops| - 1]) then Step(i', ops[|ops| - 1]) else i'
  }

  const FRESH := Invoker(false, None, None, false, 0, [])

  // ---------------------------------------------------------------- read off the operations

  /** The values an operation sends. */
  function Sends(i: Invoker, op: Op): seq<Details>
    requires Enabled(i, op)
  {
    Step(i, op).sent[|i.sent|..]
  }

  /** Whether what an operation sends counts as reported: the server took it, or it is the flush of a close. */
  predicate Taken(op: Op) {
    match op
    case BatchHeartbeat(_, accepted) => accepted
    case BackgroundHeartbeat(accepted) => accepted
    case WindowEnd(accepted) => accepted
    case Close(_) => true
    case _ => false
  }

  /** The values reported in a run, in order. */
  function Reports(ops: seq<Op>): seq<Details>
    decreases |ops|
  {
    if ops == [] then []
    else
      var before, op := ops[..|ops| - 1], ops[|ops| - 1];
      var i := Run(FRESH, before);
      Reports(before) + if Enabled(i, op) && Taken(op) then Sends(i, op) else []
  }

  function Last(s: seq<Details>): Option<Details> { if s == [] then None else Some(s[|s| - 1]) }

  /** The batched calls that were held back and not reported since, in order. */
  function Beats(ops: seq<Op>): seq<Beat>
    decreases |ops|
  {
    if ops == [] then []
    else
      var before, op := ops[..|ops| - 1], ops[|ops| - 1];
      var i := Run(FRESH, before);
      if !Enabled(i, op) then Beats(before)
      else if i.open && op.BatchHeartbeat? then Beats(before) + [Batched(op.details)]
      else if i.open && op.BackgroundHeartbeat? then Beats(before) + [InBackground]
      else if Taken(op) && Sends(i, op) != [] then []
      else Beats(before)
  }

  // ---------------------------------------------------------------- what a window owes

  /** The last batched value of the window; failing that, the last reported value if there was a background beat. */
  function Owed(held: seq<Beat>, last: Option<Details>): Option<Details> {
    if held == [] then None
    else
      match held[|held| - 1]
      case Batched(d) => Some(d)
      case InBackground => Or(Owed(held[..|held| - 1], last), last)
  }

  /** One window, one goroutine; and the fields are what was reported and what the window owes. */
  ghost predicate Inv(i: Invoker, held: seq<Beat>, reports: seq<Details>) {
    && i.waiting <= 1
    && (i.waiting == 1 ==> i.open)
    && (i.open && !i.closed ==> i.waiting == 1)
    && (i.open ==> reports != [])
    && i.lastDetailsReported == Last(reports)
    && i.detailsToReport == Owed(held, Last(reports))
  }

  lemma OwedNext(held: seq<Beat>, b: Beat, last: Option<Details>)
    ensures Owed(held + [b], last) ==
            match b
            case Batched(d) => Some(d)
            case InBackground => Or(Owed(held, last), last)
  {
    assert (held + [b])[..|held + [b]| - 1] == held;
  }

  /** One more operation of a run. */
  lemma NextOf(ops: seq<Op>, op: Op)
    requires Enabled(Run(FRESH, ops), op)
    ensures var i := Run(FRESH, ops);
            && Run(FRESH, ops + [op]) == Step(i, op)
            && Reports(ops + [op]) == Reports(ops) + (if Taken(op) then Sends(i, op) else [])
            && Beats(ops + [op]) ==
               if i.open && op.BatchHeartbeat? then Beats(ops) + [Batched(op.details)]
               else if i.open && op.BackgroundHeartbeat? then Beats(ops) + [InBackground]
               else if Taken(op) && Sends(i, op) != [] then []
               else Beats(ops)
  {
    assert (ops + [op])[..|ops + [op]| - 1] == ops;
  }

  lemma StepKeepsInv(ops: seq<Op>, op: Op)
    requires Inv(Run(FRESH, ops), Beats(ops), Reports(ops)) && Enabled(Run(FRESH, ops), op)
    ensures Inv(Run(FRESH, ops + [op]), Beats(ops + [op]), Reports(ops + [op]))
  {
    var i, held, last := Run(FRESH, ops), Beats(ops), Last(Reports(ops));
    NextOf(ops, op);
    match op {
      case BatchHeartbeat(d, _) => OwedNext(held, Batched(d), last);
      case BackgroundHeartbeat(_) => OwedNext(held, InBackground, last);
      case _ =>
    }
    if Taken(op) && Sends(i, op) != [] {
      var v := Sends(i, op)[0];
      assert Sends(i, op) == [v] && Last(Reports(ops) + [v]) == Some(v);
    } else {
      assert Reports(ops) + [] == Reports(ops);
    }
  }

  lemma {:induction false} RunKeepsInv(ops: seq<Op>)
    ensures Inv(Run(FRESH, ops), Beats(ops), Reports(ops))
    decreases |ops|
  {
    if ops != [] {
      var before, op := ops[..|ops| - 1], ops[|ops| - 1];
      RunKeepsInv(before);
      assert ops == before + [op];
      if Enabled(Run(FRESH, before), op) {
        StepKeepsInv(before, op);
      } else {
        assert Reports(before) + [] == Reports(before);
      }
    }
  }

  /** In plain words: the value of the last `Batched` beat, if there is one. */
  lemma {:induction false} OwedIsLastBatched(held: seq<Beat>, k: nat, last: Option<Details>)
    requires k < |held| && held[k].Batched? && forall j :: k < j < |held| ==> held[j].InBackground?
    ensures Owed(held, last) == Some(held[k].details)
  {
    if k < |held| - 1 {
      assert held[..|held| - 1][k] == held[k];
      OwedIsLastBatched(held[..|held| - 1], k, last);
    }
  }

  lemma {:induction false} OwedWithoutBatched(held: seq<Beat>, last: Option<Details>)
    requires forall j :: 0 <= j < |held| ==> held[j].InBackground?
    ensures Owed(held, last) == if held == [] then None else last
  {
    if |held| > 1 { OwedWithoutBatched(held[..|held| - 1], last); }
  }

  // ---------------------------------------------------------------- every run

  /** At most one window is open, with one goroutine waiting for its end unless the invoker was closed. */
  lemma OneWindowAtATime(ops: seq<Op>)
    ensures var i := Run(FRESH, ops);
            i.waiting <= 1 && (i.waiting == 1 ==> i.open) && (i.open && i.waiting == 0 ==> i.closed)
  {
    RunKeepsInv(ops);
  }

  /** What the invoker has in its fields is what the run reported last, and what it still owes. */
  lemma FieldsAreTheHistory(ops: seq<Op>)
    ensures Run(FRESH, ops).lastDetailsReported == Last(Reports(ops))
    ensures Run(FRESH, ops).detailsToReport == Owed(Beats(ops), Last(Reports(ops)))
  {
    RunKeepsInv(ops);
  }

  /**
   Inside a window batched calls send nothing; its end, or a flush, sends exactly what it owes. The window
   stays open until its end, and another one follows exactly if something was sent then and accepted.
   */
  lemma WindowSendsWhatItOwes(ops: seq<Op>, op: Op)
    requires Enabled(Run(FRESH, ops), op) && Run(FRESH, ops).open
    ensures var owed := Owed(Beats(ops), Last(Reports(ops)));
            var due := if owed.Some? then [owed.value] else [];
            && Run(FRESH, ops + [op]).sent == Run(FRESH, ops).sent +
                 (match op
                  case Heartbeat(d) => [d]
                  case BatchHeartbeat(_, _) => []
                  case BackgroundHeartbeat(_) => []
                  case WindowEnd(_) => due
                  case Exit => []
                  case Close(flush) => if flush then due else [])
            && Run(FRESH, ops + [op]).open == (op.WindowEnd? ==> op.accepted && due != [])
  {
    RunKeepsInv(ops);
    NextOf(ops, op);
  }

  /**
   Outside a window a batched value is sent as it is, and a background beat repeats the value that is due;
   a window opens exactly if the beat was accepted.
   */
  lemma SendsOutsideAWindow(ops: seq<Op>, op: Op)
    requires Enabled(Run(FRESH, ops), op) && !Run(FRESH, ops).open
    ensures var last := Last(Reports(ops));
            var due := Or(Owed(Beats(ops), last), last);
            && Run(FRESH, ops + [op]).sent == Run(FRESH, ops).sent +
                 (match op
                  case Heartbeat(d) => [d]
                  case BatchHeartbeat(d, _) => [d]
                  case BackgroundHeartbeat(_) => [if due.Some? then due.value else ""]
                  case _ => [])
            && Run(FRESH, ops + [op]).open == ((op.BatchHeartbeat? || op.BackgroundHeartbeat?) && op.accepted)
  {
    RunKeepsInv(ops);
    NextOf(ops, op);
  }

  /** A value the server did not take stays due: it is what the next background beat sends. */
  lemma UnsentValueStaysDue(ops: seq<Op>)
    requires Run(FRESH, ops).waiting > 0 && Owed(Beats(ops), Last(Reports(ops))).Some?
    ensures var i, v := Run(FRESH, ops), Owed(Beats(ops), Last(Reports(ops))).value;
            var i' := Step(i, WindowEnd(false));
            !i'.open && Step(i', BackgroundHeartbeat(true)).sent == i.sent + [v, v]
  {
    RunKeepsInv(ops);
  }

  // ---------------------------------------------------------------- the invoker

  class CadenceInvoker {
    /** The window timer, when there is one. */
    var hbBatchEndTimer: bool
    var detailsToReport: Option<Details>
    var lastDetailsReported: Option<Details>
    var closed: bool
    ghost var waiting: nat
    ghost var sent: seq<Details>

    ghost function View(): Invoker
      reads this
    {
      Invoker(hbBatchEndTimer, detailsToReport, lastDetailsReported, closed, waiting, sent)
    }

    constructor ()
      ensures View() == FRESH
    {
      hbBatchEndTimer, detailsToReport, lastDetailsReported, closed := false, None, None, false;
      waiting, sent := 0, [];
    }

    method InternalHeartBeat(d: Details)
      modifies this`sent
      ensures sent == old(sent) + [d]
    {
      sent := sent + [d];
    }

    method SendAndScheduleNextRun(d: Details, accepted: bool)
      modifies this
      ensures View() == HeartbeatAndScheduleNextRun(old(View()), d, accepted)
      ensures sent == old(sent) + [d]
      ensures accepted ==> hbBatchEndTimer && lastDetailsReported == Some(d) && detailsToReport.None?
      ensures !accepted ==> unchanged(`hbBatchEndTimer, `lastDetailsReported, `detailsToReport)
    {
      InternalHeartBeat(d);
      if accepted {
        lastDetailsReported, detailsToReport := Some(d), None;
        hbBatchEndTimer := true;
        waiting := waiting + 1;
      }
    }

    method BatchBeat(d: Details, accepted: bool)
      modifies this
      ensures View() == Step(old(View()), BatchHeartbeat(d, accepted))
    {
      if hbBatchEndTimer {
        detailsToReport := Some(d);
        return;
      }
      SendAndScheduleNextRun(d, accepted);
    }

    method BackgroundBeat(accepted: bool)
      modifies this
      ensures View() == Step(old(View()), BackgroundHeartbeat(accepted))
    {
      if hbBatchEndTimer {
        if detailsToReport.None? { detailsToReport := lastDetailsReported; }
        return;
      }
      var d := "";
      if detailsToReport.Some? {
        d := detailsToReport.value;
      } else if lastDetailsReported.Some? {
        d := lastDetailsReported.value;
      }
      SendAndScheduleNextRun(d, accepted);
    }

    /** What the waiting goroutine does when the window ends. */
    method EndWindow(accepted: bool)
      requires waiting > 0
      modifies this
      ensures View() == Step(old(View()), WindowEnd(accepted))
    {
      var due := detailsToReport;
      hbBatchEndTimer := false;
      waiting := waiting - 1;
      if due.Some? { SendAndScheduleNextRun(due.value, accepted); }
    }

    method CloseInvoker(flush: bool)
      requires !closed
      modifies this
      ensures View() == Step(old(View()), Close(flush))
    {
      closed := true;
      if hbBatchEndTimer && flush && detailsToReport.Some? {
        InternalHeartBeat(detailsToReport.value);
        lastDetailsReported, detailsToReport := detailsToReport, None;
      }
    }
  }
}
