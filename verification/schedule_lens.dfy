/**
 Updating a schedule: describe it, let the caller mutate a copy, send the top-level fields
 that changed, and let the server merge them.

 A nil slice or map is `None`; an empty one is `Some` of an empty value. The two are
 different to the comparison that decides what is sent.
 */
module ScheduleLens {
  import opened Common

  type Bytes = seq<bv8>
  type Fields = map<string, Option<Bytes>>

  datatype Overlap =
    | OverlapUnspecified | SkipNew | Buffer | Concurrent | CancelPrevious | TerminatePrevious | OtherOverlap(n: int)
  datatype CatchUp = CatchUpUnspecified | Skip | One | All | OtherCatchUp(n: int)

  /** Durations and times are in nanoseconds; `None` is the zero time. */
  datatype Spec = Spec(cron: string, startTime: Option<int>, endTime: Option<int>, jitter: int)
  datatype Retry = Retry(
    initial: int, coefficient: real, maximum: int, expiration: int, maximumAttempts: int,
        nonRetriable: Option<seq<string>>)
  datatype StartWorkflow = StartWorkflow(
    workflowType: string, taskList: string, input: Option<Bytes>, idPrefix: string, executionTimeout: int,
    decisionTimeout: int, retry: Option<Retry>, memo: Option<Fields>, searchAttributes: Option<Fields>)
  datatype ActionDescription = ActionDescription(startWorkflow: Option<StartWorkflow>)
  datatype Policies = Policies(
    overlap: Overlap, catchUp: CatchUp, catchUpWindow: int, pauseOnFailure: bool, bufferLimit: int,
        concurrencyLimit: int)

  /** What a describe returns and what the caller mutates. */
  datatype View = View(
    spec: Option<Spec>, action: Option<ActionDescription>, policies: Option<Policies>, searchAttributes: Option<Fields>)

  // ---------------------------------------------------------------- the wire

  datatype WireOverlap =
    | WireSkipNew | WireBuffer | WireConcurrent | WireCancelPrevious | WireTerminatePrevious | InvalidOverlap
  datatype WireCatchUp = WireSkip | WireOne | WireAll | InvalidCatchUp
  datatype WireSpec = WireSpec(cron: Option<string>, startNano: Option<int>, endNano: Option<int>, jitter: Option<int>)
  datatype WireRetry = WireRetry(
    initial: Option<int>, coefficient: Option<real>, maximum: Option<int>, expiration: Option<int>,
    maximumAttempts: Option<int>, nonRetriable: Option<seq<string>>)
  datatype WireStart = WireStart(
    workflowType: Option<string>, taskList: Option<string>, input: Option<Bytes>, idPrefix: Option<string>,
    executionTimeout: Option<int>, decisionTimeout: Option<int>, retry: Option<WireRetry>,
    memo: Option<Option<Fields>>, searchAttributes: Option<Option<Fields>>)
  datatype WireAction = WireAction(startWorkflow: Option<WireStart>)
  datatype WirePolicies = WirePolicies(
    overlap: Option<WireOverlap>, catchUp: Option<WireCatchUp>, catchUpWindow: Option<int>,
        pauseOnFailure: Option<bool>,
    bufferLimit: Option<int>, concurrencyLimit: Option<int>)

  /** A schedule on the server; an update request has the same fields. */
  datatype Wire = Wire(
    spec: Option<WireSpec>, action: Option<WireAction>, policies: Option<WirePolicies>,
        searchAttributes: Option<Option<Fields>>)

  const SECOND := 1_000_000_000
  const DEFAULT_COEFFICIENT := 2.0
  const DEFAULT_DECISION_TIMEOUT := 10 * SECOND

  function Get<T>(o: Option<T>, zero: T): T { if o.Some? then o.value else zero }

  predicate InInt32(n: int) { -0x8000_0000 <= n <= 0x7FFF_FFFF }

  function CeilSeconds(d: int): int { (d + SECOND - 1) / SECOND }

  /** Converting a number of seconds to an int32; what an overflow gives is up to the platform. */
  type Narrow = f: int -> int | forall n :: (InInt32(n) ==> f(n) == n) && InInt32(f(n))
    witness (n: int) => if InInt32(n) then n else 0

  function SecondsTo(d: int, narrow: Narrow): Option<int> { if d == 0 then None else Some(narrow(CeilSeconds(d))) }

  function SecondsFrom(n: Option<int>): int { Get(n, 0) * SECOND }

  function OverlapTo(p: Overlap): Option<WireOverlap> {
    match p
    case OverlapUnspecified => None
    case SkipNew => Some(WireSkipNew)
    case Buffer => Some(WireBuffer)
    case Concurrent => Some(WireConcurrent)
    case CancelPrevious => Some(WireCancelPrevious)
    case TerminatePrevious => Some(WireTerminatePrevious)
    case OtherOverlap(_) => Some(InvalidOverlap)
  }

  function OverlapFrom(p: Option<WireOverlap>): Overlap {
    match p
    case None => OverlapUnspecified
    case Some(WireSkipNew) => SkipNew
    case Some(WireBuffer) => Buffer
    case Some(WireConcurrent) => Concurrent
    case Some(WireCancelPrevious) => CancelPrevious
    case Some(WireTerminatePrevious) => TerminatePrevious
    case Some(InvalidOverlap) => OverlapUnspecified
  }

  function CatchUpTo(p: CatchUp): Option<WireCatchUp> {
    match p
    case CatchUpUnspecified => None
    case Skip => Some(WireSkip)
    case One => Some(WireOne)
    case All => Some(WireAll)
    case OtherCatchUp(_) => Some(InvalidCatchUp)
  }

  function CatchUpFrom(p: Option<WireCatchUp>): CatchUp {
    match p
    case None => CatchUpUnspecified
    case Some(WireSkip) => Skip
    case Some(WireOne) => One
    case Some(WireAll) => All
    case Some(InvalidCatchUp) => CatchUpUnspecified
  }

  function SpecTo(s: Spec, narrow: Narrow): WireSpec {
    WireSpec(Some(s.cron), s.startTime, s.endTime, SecondsTo(s.jitter, narrow))
  }

  function SpecFrom(s: WireSpec): Spec {
    Spec(Get(s.cron, ""), s.startNano, s.endNano, SecondsFrom(s.jitter))
  }

  function RetryTo(p: Retry, narrow: Narrow): WireRetry {
    WireRetry(SecondsTo(p.initial, narrow), Some(if p.coefficient == 0.0 then DEFAULT_COEFFICIENT else p.coefficient),
              SecondsTo(p.maximum, narrow), SecondsTo(p.expiration, narrow), Some(p.maximumAttempts), p.nonRetriable)
  }

  function RetryFrom(p: WireRetry): Retry {
    Retry(SecondsFrom(p.initial), Get(p.coefficient, 0.0), SecondsFrom(p.maximum), SecondsFrom(p.expiration),
          Get(p.maximumAttempts, 0), p.nonRetriable)
  }

  function NonEmpty(b: Option<Bytes>): Option<Bytes> { if b.Some? && |b.value| > 0 then b else None }

  function FieldsTo(m: Option<Fields>): Option<Option<Fields>> { if m.Some? && |m.value| > 0 then Some(m) else None }

  function FieldsFrom(m: Option<Option<Fields>>): Option<Fields> { Get(m, None) }

  datatype Error =
    | WorkflowTypeRequired | TaskListRequired | ExecutionTimeoutRequired | NegativeDecisionTimeout
    | StartWorkflowRequired | CronExpressionRequired

  datatype Converted = Converted(wire: WireStart) | Rejected(error: Error)

  function StartTo(a: StartWorkflow, narrow: Narrow): Converted {
    if a.workflowType == "" then Rejected(WorkflowTypeRequired)
    else if a.taskList == "" then Rejected(TaskListRequired)
    else if a.executionTimeout <= 0 then Rejected(ExecutionTimeoutRequired)
    else if a.decisionTimeout < 0 then Rejected(NegativeDecisionTimeout)
    else
      var decision := if a.decisionTimeout == 0 then DEFAULT_DECISION_TIMEOUT else a.decisionTimeout;
      Converted(WireStart(
        Some(a.workflowType), Some(a.taskList), NonEmpty(a.input), Some(a.idPrefix),
            SecondsTo(a.executionTimeout, narrow),
        SecondsTo(decision, narrow), if a.retry.Some? then Some(RetryTo(a.retry.value, narrow)) else None,
        FieldsTo(a.memo), FieldsTo(a.searchAttributes)))
  }

  function StartFrom(a: WireStart): StartWorkflow {
    StartWorkflow(
      Get(a.workflowType, ""), Get(a.taskList, ""), a.input, Get(a.idPrefix, ""), SecondsFrom(a.executionTimeout),
      SecondsFrom(a.decisionTimeout), if a.retry.Some? then Some(RetryFrom(a.retry.value)) else None,
      FieldsFrom(a.memo), FieldsFrom(a.searchAttributes))
  }

  function PoliciesTo(p: Policies, narrow: Narrow): WirePolicies {
    WirePolicies(OverlapTo(p.overlap), CatchUpTo(p.catchUp), SecondsTo(p.catchUpWindow, narrow), Some(p.pauseOnFailure),
                 Some(p.bufferLimit), Some(p.concurrencyLimit))
  }

  function PoliciesFrom(p: WirePolicies): Policies {
    Policies(OverlapFrom(p.overlap), CatchUpFrom(p.catchUp), SecondsFrom(p.catchUpWindow), Get(p.pauseOnFailure, false),
             Get(p.bufferLimit, 0), Get(p.concurrencyLimit, 0))
  }

  function ActionFrom(a: WireAction): ActionDescription {
    ActionDescription(if a.startWorkflow.Some? then Some(StartFrom(a.startWorkflow.value)) else None)
  }

  /** What the server has, as the caller sees it. */
  function Describe(w: Wire): View {
    View(if w.spec.Some? then Some(SpecFrom(w.spec.value)) else None,
         if w.action.Some? then Some(ActionFrom(w.action.value)) else None,
         if w.policies.Some? then Some(PoliciesFrom(w.policies.value)) else None,
         FieldsFrom(w.searchAttributes))
  }

  // ---------------------------------------------------------------- the update

  /** What the callback is given: a copy, without an action that starts nothing. */
  function UpdateFrom(d: View): View {
    d.(action := if d.action.Some? && d.action.value.startWorkflow.Some? then d.action else None)
  }

  datatype Request = NothingToSend | Send(wire: Wire) | Refused(error: Error)

  /** A field is sent when it is there and differs from the baseline. */
  function MakeRequest(desc: View, cur: View, narrow: Narrow): Request {
    var sendSpec := cur.spec.Some? && cur.spec != desc.spec;
    var sendAction := cur.action.Some? && cur.action != desc.action;
    var sendPolicies := cur.policies.Some? && cur.policies != desc.policies;
    var sendSearch := cur.searchAttributes.Some? && |cur.searchAttributes.value| > 0 &&
        cur.searchAttributes != desc.searchAttributes;
    if sendSpec && cur.spec.value.cron == "" then Refused(CronExpressionRequired)
    else if sendAction && cur.action.value.startWorkflow.None? then Refused(StartWorkflowRequired)
    else if sendAction && StartTo(cur.action.value.startWorkflow.value, narrow).Rejected? then
      Refused(StartTo(cur.action.value.startWorkflow.value, narrow).error)
    else if !sendSpec && !sendAction && !sendPolicies && !sendSearch then NothingToSend
    else
      Send(Wire(
        if sendSpec then Some(SpecTo(cur.spec.value, narrow)) else None,
        if sendAction then Some(WireAction(Some(StartTo(cur.action.value.startWorkflow.value, narrow).wire))) else None,
        if sendPolicies then Some(PoliciesTo(cur.policies.value, narrow)) else None,
        if sendSearch then Some(cur.searchAttributes) else None))
  }

  function Or<T>(a: Option<T>, b: Option<T>): Option<T> { if a.Some? then a else b }

  /** The server keeps every top-level field that a request leaves out. */
  function Merge(w: Wire, req: Wire): Wire {
    Wire(Or(req.spec, w.spec), Or(req.action, w.action), Or(req.policies, w.policies),
        Or(req.searchAttributes, w.searchAttributes))
  }

  // ---------------------------------------------------------------- what survives the wire

  predicate WholeSeconds(d: int) { d % SECOND == 0 && InInt32(d / SECOND) }

  predicate CanonicalSpec(s: Spec) { WholeSeconds(s.jitter) }

  predicate CanonicalRetry(p: Retry) {
    WholeSeconds(p.initial) && WholeSeconds(p.maximum) && WholeSeconds(p.expiration) && p.coefficient != 0.0
  }

  predicate CanonicalStart(a: StartWorkflow) {
    && a.input != Some([]) && a.memo != Some(map[]) && a.searchAttributes != Some(map[])
    && WholeSeconds(a.executionTimeout) && WholeSeconds(a.decisionTimeout) && a.decisionTimeout != 0
    && (a.retry.Some? ==> CanonicalRetry(a.retry.value))
  }

  predicate CanonicalPolicies(p: Policies) {
    WholeSeconds(p.catchUpWindow) && !p.overlap.OtherOverlap? && !p.catchUp.OtherCatchUp?
  }

  /** A duration survives exactly when it is a whole number of seconds that fits. */
  lemma SecondsRoundTrip(d: int, narrow: Narrow)
    ensures SecondsFrom(SecondsTo(d, narrow)) == d <==> WholeSeconds(d)
  {
    var n := CeilSeconds(d);
    if d % SECOND == 0 {
      assert d == d / SECOND * SECOND && n == d / SECOND;
    }
    if SecondsFrom(SecondsTo(d, narrow)) == d && d != 0 {
      assert d == narrow(n) * SECOND;
      assert d % SECOND == 0 && d / SECOND == narrow(n);
    }
  }

  lemma SpecRoundTrip(s: Spec, narrow: Narrow)
    ensures SpecFrom(SpecTo(s, narrow)) == s <==> CanonicalSpec(s)
  {
    SecondsRoundTrip(s.jitter, narrow);
  }

  lemma RetryRoundTrip(p: Retry, narrow: Narrow)
    ensures RetryFrom(RetryTo(p, narrow)) == p <==> CanonicalRetry(p)
  {
    SecondsRoundTrip(p.initial, narrow);
    SecondsRoundTrip(p.maximum, narrow);
    SecondsRoundTrip(p.expiration, narrow);
  }

  lemma PoliciesRoundTrip(p: Policies, narrow: Narrow)
    ensures PoliciesFrom(PoliciesTo(p, narrow)) == p <==> CanonicalPolicies(p)
  {
    SecondsRoundTrip(p.catchUpWindow, narrow);
  }

  lemma FieldsRoundTrip(m: Option<Fields>)
    ensures FieldsFrom(FieldsTo(m)) == m <==> m != Some(map[])
  {
  }

  lemma StartRoundTrip(a: StartWorkflow, narrow: Narrow)
    requires StartTo(a, narrow).Converted?
    ensures StartFrom(StartTo(a, narrow).wire) == a <==> CanonicalStart(a)
  {
    SecondsRoundTrip(a.executionTimeout, narrow);
    SecondsRoundTrip(a.decisionTimeout, narrow);
    FieldsRoundTrip(a.memo);
    FieldsRoundTrip(a.searchAttributes);
    if a.retry.Some? { RetryRoundTrip(a.retry.value, narrow); }
    if a.decisionTimeout == 0 {
      SecondsRoundTrip(DEFAULT_DECISION_TIMEOUT, narrow);
      assert SecondsFrom(SecondsTo(DEFAULT_DECISION_TIMEOUT, narrow)) == DEFAULT_DECISION_TIMEOUT;
    }
  }

  // ---------------------------------------------------------------- the lens laws

  /** A callback that changes nothing sends nothing, whatever the schedule. */
  lemma UnchangedSendsNothing(desc: View, narrow: Narrow)
    ensures MakeRequest(desc, UpdateFrom(desc), narrow) == NothingToSend
  {
  }

  /** Each field is as it was, or was set to something that survives the wire. */
  predicate Expressible(desc: View, cur: View) {
    && (cur.spec != desc.spec ==> cur.spec.Some? && CanonicalSpec(cur.spec.value))
    && (cur.action != desc.action ==>
          cur.action.Some? && cur.action.value.startWorkflow.Some? &&
              CanonicalStart(cur.action.value.startWorkflow.value))
    && (cur.policies != desc.policies ==> cur.policies.Some? && CanonicalPolicies(cur.policies.value))
    && (cur.searchAttributes != desc.searchAttributes ==>
        cur.searchAttributes.Some? && |cur.searchAttributes.value| > 0)
  }

  lemma SpecLens(w: Wire, cur: View, req: Wire, narrow: Narrow)
    requires MakeRequest(Describe(w), cur, narrow) == Send(req)
    ensures Describe(Merge(w, req)).spec == cur.spec <==>
            (cur.spec != Describe(w).spec ==> cur.spec.Some? && CanonicalSpec(cur.spec.value))
  {
    if cur.spec.Some? { SpecRoundTrip(cur.spec.value, narrow); }
  }

  lemma ActionLens(w: Wire, cur: View, req: Wire, narrow: Narrow)
    requires MakeRequest(Describe(w), cur, narrow) == Send(req)
    ensures Describe(Merge(w, req)).action == cur.action <==>
            (cur.action != Describe(w).action ==>
               cur.action.Some? && cur.action.value.startWorkflow.Some? &&
                   CanonicalStart(cur.action.value.startWorkflow.value))
  {
    if cur.action.Some? && cur.action != Describe(w).action {
      StartRoundTrip(cur.action.value.startWorkflow.value, narrow);
    }
  }

  lemma PoliciesLens(w: Wire, cur: View, req: Wire, narrow: Narrow)
    requires MakeRequest(Describe(w), cur, narrow) == Send(req)
    ensures Describe(Merge(w, req)).policies == cur.policies <==>
            (cur.policies != Describe(w).policies ==> cur.policies.Some? && CanonicalPolicies(cur.policies.value))
  {
    if cur.policies.Some? { PoliciesRoundTrip(cur.policies.value, narrow); }
  }

  /** What the server has after an update that was not refused. */
  function After(w: Wire, r: Request): Wire
    requires !r.Refused?
  {
    if r.Send? then Merge(w, r.wire) else w
  }

  /** The next describe returns exactly what the callback made, if and only if that can be expressed. */
  lemma UpdateThenDescribe(w: Wire, cur: View, narrow: Narrow)
    requires !MakeRequest(Describe(w), cur, narrow).Refused?
    ensures Describe(After(w, MakeRequest(Describe(w), cur, narrow))) == cur <==> Expressible(Describe(w), cur)
  {
    var r := MakeRequest(Describe(w), cur, narrow);
    if r.Send? {
      SpecLens(w, cur, r.wire, narrow);
      ActionLens(w, cur, r.wire, narrow);
      PoliciesLens(w, cur, r.wire, narrow);
    } else {
      NothingSentExactly(Describe(w), cur, narrow);
    }
  }

  // ---------------------------------------------------------------- what is sent

  /** A top-level field that has a value other than the one it had; to clear one is not to change it. */
  predicate Changed<T(==)>(was: Option<T>, now: Option<T>) { now.Some? && now != was }

  predicate SearchChanged(was: Option<Fields>, now: Option<Fields>) { Changed(was, now) && now != Some(map[]) }

  /** Nothing is sent exactly when every field is as it was or was cleared. */
  lemma NothingSentExactly(desc: View, cur: View, narrow: Narrow)
    ensures MakeRequest(desc, cur, narrow) == NothingToSend <==>
            && (cur.spec == desc.spec || cur.spec.None?)
            && (cur.action == desc.action || cur.action.None?)
            && (cur.policies == desc.policies || cur.policies.None?)
            && (cur.searchAttributes == desc.searchAttributes || cur.searchAttributes in {None, Some(map[])})
  {
    if cur.searchAttributes.Some? && |cur.searchAttributes.value| == 0 { assert cur.searchAttributes.value == map[]; }
  }

  /** The checks on an action, in their order: the first one that fails. */
  predicate Fails(a: StartWorkflow, e: Error) {
    match e
    case WorkflowTypeRequired => a.workflowType == ""
    case TaskListRequired => a.workflowType != "" && a.taskList == ""
    case ExecutionTimeoutRequired => a.workflowType != "" && a.taskList != "" && a.executionTimeout <= 0
    case NegativeDecisionTimeout =>
      a.workflowType != "" && a.taskList != "" && a.executionTimeout > 0 && a.decisionTimeout < 0
    case _ => false
  }

  /** An update is refused exactly for a new spec without a cron expression or a new action that fails a check. */
  lemma RefusedExactly(desc: View, cur: View, narrow: Narrow, e: Error)
    ensures MakeRequest(desc, cur, narrow) == Refused(e) <==>
            if Changed(desc.spec, cur.spec) && cur.spec.value.cron == "" then e == CronExpressionRequired
            else
              && Changed(desc.action, cur.action)
              && match cur.action.value.startWorkflow
                 case None => e == StartWorkflowRequired
                 case Some(a) => Fails(a, e)
  {
  }

  /** A request has exactly the fields that changed; the server keeps all others as they are on the wire. */
  lemma OnlyChangesAreSent(w: Wire, cur: View, narrow: Narrow)
    requires !MakeRequest(Describe(w), cur, narrow).Refused?
    ensures var d, r := Describe(w), MakeRequest(Describe(w), cur, narrow);
            && (r.Send? ==>
                  && (r.wire.spec.Some? <==> Changed(d.spec, cur.spec))
                  && (r.wire.action.Some? <==> Changed(d.action, cur.action))
                  && (r.wire.policies.Some? <==> Changed(d.policies, cur.policies))
                  && (r.wire.searchAttributes.Some? <==> SearchChanged(d.searchAttributes, cur.searchAttributes)))
            && (!Changed(d.spec, cur.spec) ==> After(w, r).spec == w.spec)
            && (!Changed(d.action, cur.action) ==> After(w, r).action == w.action)
            && (!Changed(d.policies, cur.policies) ==> After(w, r).policies == w.policies)
            && (!SearchChanged(d.searchAttributes, cur.searchAttributes) ==>
                After(w, r).searchAttributes == w.searchAttributes)
  {
    if cur.searchAttributes.Some? && |cur.searchAttributes.value| == 0 { assert cur.searchAttributes.value == map[]; }
  }

  // ---------------------------------------------------------------- what the server is told

  /** A duration goes out as the smallest number of seconds that is not less, and as nothing when it is zero. */
  predicate RoundsUp(d: int, n: Option<int>) {
    && (d == 0 <==> n.None?)
    && (d != 0 && -0x8000_0000 * SECOND <= d <= 0x7FFF_FFFF * SECOND ==> (n.value - 1) * SECOND < d <= n.value * SECOND)
  }

  lemma SecondsRoundUp(d: int, narrow: Narrow)
    ensures RoundsUp(d, SecondsTo(d, narrow))
  {
  }

  lemma SpecIsSent(desc: View, cur: View, narrow: Narrow)
    requires MakeRequest(desc, cur, narrow).Send? && Changed(desc.spec, cur.spec)
    ensures var wire, s := MakeRequest(desc, cur, narrow).wire.spec, cur.spec.value;
            && wire.Some? && wire.value.cron == Some(s.cron) && wire.value.startNano == s.startTime
            && wire.value.endNano == s.endTime && RoundsUp(s.jitter, wire.value.jitter)
  {
    SecondsRoundUp(cur.spec.value.jitter, narrow);
  }

  lemma ActionIsSent(desc: View, cur: View, narrow: Narrow)
    requires MakeRequest(desc, cur, narrow).Send? && Changed(desc.action, cur.action)
    ensures var action := MakeRequest(desc, cur, narrow).wire.action;
            && action.Some? && action.value.startWorkflow.Some? && cur.action.value.startWorkflow.Some?
            && var wire, a := action.value.startWorkflow.value, cur.action.value.startWorkflow.value;
               && wire.workflowType == Some(a.workflowType) && wire.taskList == Some(a.taskList)
               && wire.idPrefix == Some(a.idPrefix) && wire.input == (if a.input == Some([]) then None else a.input)
               && RoundsUp(a.executionTimeout, wire.executionTimeout)
               && RoundsUp(if a.decisionTimeout == 0 then 10 * SECOND else a.decisionTimeout, wire.decisionTimeout)
               && wire.memo == (if a.memo in {None, Some(map[])} then None else Some(a.memo))
               && wire.searchAttributes ==
                   (if a.searchAttributes in {None, Some(map[])} then None else Some(a.searchAttributes))
               && (wire.retry.Some? <==> a.retry.Some?)
               && (a.retry.Some? ==> RetryIsSent(a.retry.value, wire.retry.value))
  {
    var a := cur.action.value.startWorkflow.value;
    SecondsRoundUp(a.executionTimeout, narrow);
    SecondsRoundUp(if a.decisionTimeout == 0 then DEFAULT_DECISION_TIMEOUT else a.decisionTimeout, narrow);
    if a.memo.Some? && |a.memo.value| == 0 { assert a.memo.value == map[]; }
    if a.searchAttributes.Some? && |a.searchAttributes.value| == 0 { assert a.searchAttributes.value == map[]; }
    if a.retry.Some? {
      SecondsRoundUp(a.retry.value.initial, narrow);
      SecondsRoundUp(a.retry.value.maximum, narrow);
      SecondsRoundUp(a.retry.value.expiration, narrow);
    }
  }

  ghost predicate RetryIsSent(p: Retry, wire: WireRetry) {
    && RoundsUp(p.initial, wire.initial) && RoundsUp(p.maximum, wire.maximum) && RoundsUp(p.expiration, wire.expiration)
    && wire.coefficient == Some(if p.coefficient == 0.0 then 2.0 else p.coefficient)
    && wire.maximumAttempts == Some(p.maximumAttempts) && wire.nonRetriable == p.nonRetriable
  }

  lemma PoliciesAreSent(desc: View, cur: View, narrow: Narrow)
    requires MakeRequest(desc, cur, narrow).Send? && Changed(desc.policies, cur.policies)
    ensures var wire, p := MakeRequest(desc, cur, narrow).wire.policies, cur.policies.value;
            && wire.Some? && RoundsUp(p.catchUpWindow, wire.value.catchUpWindow)
            && wire.value.pauseOnFailure == Some(p.pauseOnFailure) && wire.value.bufferLimit == Some(p.bufferLimit)
            && wire.value.concurrencyLimit == Some(p.concurrencyLimit)
            && (wire.value.overlap.None? <==> p.overlap.OverlapUnspecified?)
            && (wire.value.overlap == Some(WireSkipNew) <==> p.overlap.SkipNew?)
            && (wire.value.overlap == Some(WireBuffer) <==> p.overlap.Buffer?)
            && (wire.value.overlap == Some(WireConcurrent) <==> p.overlap.Concurrent?)
            && (wire.value.overlap == Some(WireCancelPrevious) <==> p.overlap.CancelPrevious?)
            && (wire.value.overlap == Some(WireTerminatePrevious) <==> p.overlap.TerminatePrevious?)
            && (wire.value.catchUp.None? <==> p.catchUp.CatchUpUnspecified?)
            && (wire.value.catchUp == Some(WireSkip) <==> p.catchUp.Skip?)
            && (wire.value.catchUp == Some(WireOne) <==> p.catchUp.One?)
            && (wire.value.catchUp == Some(WireAll) <==> p.catchUp.All?)
  {
    SecondsRoundUp(cur.policies.value.catchUpWindow, narrow);
  }

  // ---------------------------------------------------------------- what cannot be said

  /** Whatever else the callback changed, a top-level field that it cleared is still there afterwards. */
  lemma ClearingIsIgnored(w: Wire, cur: View, narrow: Narrow)
    requires !MakeRequest(Describe(w), cur, narrow).Refused?
    ensures var was, now := Describe(w), Describe(After(w, MakeRequest(Describe(w), cur, narrow)));
            && (cur.spec.None? ==> now.spec == was.spec)
            && (cur.action.None? ==> now.action == was.action)
            && (cur.policies.None? ==> now.policies == was.policies)
            && (cur.searchAttributes.None? || cur.searchAttributes == Some(map[]) ==>
                now.searchAttributes == was.searchAttributes)
  {
  }
}
