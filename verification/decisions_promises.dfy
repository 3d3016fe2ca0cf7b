/**
 What the helper promises over every run: a machine that nobody cancelled gets its start
 decision out, and a cancellation that can be requested is requested, both at the latest
 with the next drain.
 */
module DecisionsPromises {
  import opened Common
  import opened DecisionMachine
  import opened DecisionMeaning
  import opened DecisionsState
  import opened DecisionsRuns

  lemma {:induction false} OutputsContain(ms: seq<MachineView>, m: MachineView)
    requires m in ms
    ensures forall out :: out in OutputOf(m) ==> out in Outputs(ms)
  {
    if m != ms[0] {
      assert m in ms[1..];
      OutputsContain(ms[1..], m);
    }
  }

  /** A machine that has something to say is in the list, and says it in the next drain. */
  lemma SaysInNextDrain(h: HelperState, s: nat) returns (id: DecisionID)
    requires Inv(h) && s < |h.kinds|
    requires Replay(h.kinds[s], Trace(h.log, s)).Some? &&
             Emits(h.kinds[s], Replay(h.kinds[s], Trace(h.log, s)).value).Some?
    ensures id in h.index && h.index[id] == s
    ensures (id, Emits(h.kinds[s], Replay(h.kinds[s], Trace(h.log, s)).value).value) in Outputs(h.ordered)
  {
    assert !Gone(h.ordered, s);
    var m :| m in h.ordered && m.serial == s;
    assert Good(h, m);
    id := m.id;
    OutputsContain(h.ordered, m);
  }

  lemma TraceIsLegal(ops: seq<Op>, s: nat)
    requires s < |Run(ops).kinds|
    ensures Inv(Run(ops)) && Replay(Run(ops).kinds[s], Trace(Run(ops).log, s)).Some?
  {
    var h := Run(ops);
    RunKeepsInv(ops);
    if !Gone(h.ordered, s) {
      var m :| m in h.ordered && m.serial == s;
      assert Good(h, m);
    }
  }

  /** In every run, a cancel request that is wanted has been sent, or the next drain hands it out. */
  lemma WantedCancelIsSent(ops: seq<Op>, s: nat, i: nat)
    requires s < |Run(ops).kinds| && Cancelable(Run(ops).kinds[s])
    requires CancelIsWanted(Run(ops).kinds[s], Trace(Run(ops).log, s), i)
    ensures var h := Run(ops);
            || Emit(RequestCancel) in Trace(h.log, s)[i + 1..]
            || exists id :: id in h.index && h.index[id] == s && (id, RequestCancel) in Outputs(h.ordered)
  {
    var h := Run(ops);
    TraceIsLegal(ops, s);
    CancelGoesOut(h.kinds[s], Trace(h.log, s), i);
    if Emit(RequestCancel) !in Trace(h.log, s)[i + 1..] {
      var id := SaysInNextDrain(h, s);
    }
  }

  /** And a start decision, unless the machine was cancelled before it went out. */
  lemma StartIsSent(ops: seq<Op>, s: nat)
    requires s < |Run(ops).kinds|
    ensures var h := Run(ops);
            || Emit(Start) in Trace(h.log, s)
            || Fire(OnCancel) in Trace(h.log, s)
            || exists id :: id in h.index && h.index[id] == s && (id, Start) in Outputs(h.ordered)
  {
    var h := Run(ops);
    TraceIsLegal(ops, s);
    StartGoesOut(h.kinds[s], Trace(h.log, s));
    if Emit(Start) !in Trace(h.log, s) && Fire(OnCancel) !in Trace(h.log, s) {
      var id := SaysInNextDrain(h, s);
    }
  }
}
