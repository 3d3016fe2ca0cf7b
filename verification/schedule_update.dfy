/**
 The schedule update as it runs: request fields set branch by branch, and copies that share
 no memory with what they were made from.
 */
module ScheduleUpdates {
  import opened Common
  import opened ScheduleLens

  /** Build the request for what the callback changed. */
  method BuildRequest(desc: View, cur: View, narrow: Narrow) returns (r: Request)
    ensures r == MakeRequest(desc, cur, narrow)
  {
    var req, changed := Wire(None, None, None, None), false;
    if cur.spec.Some? && cur.spec != desc.spec {
      if cur.spec.value.cron == "" { return Refused(CronExpressionRequired); }
      req, changed := req.(spec := Some(SpecTo(cur.spec.value, narrow))), true;
    }
    if cur.action.Some? && cur.action != desc.action {
      if cur.action.value.startWorkflow.None? { return Refused(StartWorkflowRequired); }
      var action := StartTo(cur.action.value.startWorkflow.value, narrow);
      if action.Rejected? { return Refused(action.error); }
      req, changed := req.(action := Some(WireAction(Some(action.wire)))), true;
    }
    if cur.policies.Some? && cur.policies != desc.policies {
      req, changed := req.(policies := Some(PoliciesTo(cur.policies.value, narrow))), true;
    }
    if cur.searchAttributes.Some? && |cur.searchAttributes.value| > 0 && cur.searchAttributes != desc.searchAttributes {
      req, changed := req.(searchAttributes := Some(cur.searchAttributes)), true;
    }
    r := if changed then Send(req) else NothingToSend;
  }

  // ---------------------------------------------------------------- schedules in memory

  type Slice = array?<bv8>

  function Read(b: Slice): Option<Bytes>
    reads b
  {
    if b == null then None else Some(b[..])
  }

  function ReadAll(s: array?<string>): Option<seq<string>>
    reads s
  {
    if s == null then None else Some(s[..])
  }

  /** A map of byte slices. Nil slices among them hold no memory. */
  class ByteMap {
    var entries: map<string, Slice>

    constructor ()
      ensures entries == map[]
    {
      entries := map[];
    }

    ghost function Slices(): set<object>
      reads this
    {
      set k | k in entries && entries[k] != null :: entries[k]
    }

    function Contents(): Fields
      reads this, Slices()
    {
      map k | k in entries :: Read(entries[k])
    }
  }

  ghost function MapRepr(m: ByteMap?): set<object>
    reads m
  {
    if m == null then {} else {m} + m.Slices()
  }

  function MapContents(m: ByteMap?): Option<Fields>
    reads m, MapRepr(m)
  {
    if m == null then None else Some(m.Contents())
  }

  class RetryPolicy {
    var flat: Retry
    var nonRetriable: array?<string>

    constructor (flat: Retry, nonRetriable: array?<string>)
      ensures this.flat == flat && this.nonRetriable == nonRetriable
    {
      this.flat, this.nonRetriable := flat, nonRetriable;
    }
  }

  ghost function RetryRepr(p: RetryPolicy?): set<object>
    reads p
  {
    if p == null then {} else {p} + if p.nonRetriable == null then {} else {p.nonRetriable}
  }

  function RetryContents(p: RetryPolicy?): Option<Retry>
    reads p, RetryRepr(p)
  {
    if p == null then None else Some(p.flat.(nonRetriable := ReadAll(p.nonRetriable)))
  }

  /** `flat` holds the fields that are values; what the others point to is beside it. */
  class StartAction {
    var flat: StartWorkflow
    var input: Slice
    var retry: RetryPolicy?
    var memo: ByteMap?
    var searchAttributes: ByteMap?

    constructor (flat: StartWorkflow, input: Slice, retry: RetryPolicy?, memo: ByteMap?, searchAttributes: ByteMap?)
      ensures this.flat == flat && this.input == input && this.retry == retry && this.memo == memo
      ensures this.searchAttributes == searchAttributes
    {
      this.flat, this.input, this.retry, this.memo, this.searchAttributes := flat, input, retry, memo, searchAttributes;
    }

    /** The objects whose fields say what else there is. */
    ghost function Beside(): set<object>
      reads this
    {
      {this} + (if retry == null then {} else {retry}) + (if memo == null then {} else {memo}) +
      if searchAttributes == null then {} else {searchAttributes}
    }

    ghost function Repr(): set<object>
      reads Beside()
    {
      {this} + (if input == null then {} else {input}) + RetryRepr(retry) + MapRepr(memo) + MapRepr(searchAttributes)
    }

    function Contents(): StartWorkflow
      reads this, Beside(), Repr()
    {
      flat.(input := Read(input), retry := RetryContents(retry), memo := MapContents(memo),
            searchAttributes := MapContents(searchAttributes))
    }
  }

  class Box<T> {
    var value: T

    constructor (value: T)
      ensures this.value == value
    {
      this.value := value;
    }
  }

  /** What an action starts, if there is such a thing. */
  function Started(a: Box?<StartAction?>): StartAction?
    reads a
  {
    if a == null then null else a.value
  }

  ghost function ActionInner(a: Box?<StartAction?>): set<object>
    reads a
  {
    (if a == null then {} else {a}) + if Started(a) == null then {} else {Started(a)}
  }

  ghost function ActionDeep(a: Box?<StartAction?>): set<object>
    reads ActionInner(a)
  {
    ActionInner(a) + if Started(a) == null then {} else Started(a).Beside()
  }

  ghost function ActionRepr(a: Box?<StartAction?>): set<object>
    reads ActionDeep(a)
  {
    ActionDeep(a) + if Started(a) == null then {} else Started(a).Repr()
  }

  function ActionContents(a: Box?<StartAction?>): Option<ActionDescription>
    reads ActionRepr(a)
  {
    if a == null then None
    else Some(ActionDescription(if a.value == null then None else Some(a.value.Contents())))
  }

  /** A schedule as a describe returns it and as the callback gets it: pointers to parts, which may be nil. */
  class Schedule {
    var spec: Box?<Spec>
    var action: Box?<StartAction?>
    var policies: Box?<Policies>
    var searchAttributes: ByteMap?

    constructor (spec: Box?<Spec>, action: Box?<StartAction?>, policies: Box?<Policies>, searchAttributes: ByteMap?)
      ensures this.spec == spec && this.action == action && this.policies == policies
      ensures this.searchAttributes == searchAttributes
    {
      this.spec, this.action, this.policies, this.searchAttributes := spec, action, policies, searchAttributes;
    }

    /** All memory that can be reached from here. */
    ghost function Repr(): set<object>
      reads this, searchAttributes, action, ActionDeep(action)
    {
      {this} + (if spec == null then {} else {spec}) + (if policies == null then {} else {policies}) +
      ActionRepr(action) + MapRepr(searchAttributes)
    }

    function Contents(): View
      reads this, searchAttributes, action, ActionDeep(action), Repr()
    {
      View(if spec == null then None else Some(spec.value), ActionContents(action),
           if policies == null then None else Some(policies.value), MapContents(searchAttributes))
    }
  }

  // ---------------------------------------------------------------- copies

  /** A nil slice stays nil; any other is copied, an empty one too. */
  method CopyBytes(b: Slice) returns (out: Slice)
    ensures Read(out) == old(Read(b)) && (out != null ==> fresh(out))
  {
    if b == null { return null; }
    out := new bv8[b.Length];
    for i := 0 to b.Length
      invariant fresh(out) && out.Length == b.Length && out[..i] == b[..i]
    {
      out[i] := b[i];
    }
    assert b[..b.Length] == b[..] && out[..b.Length] == out[..];
  }

  method CopyStrings(s: array?<string>) returns (out: array?<string>)
    ensures ReadAll(out) == old(ReadAll(s)) && (out != null ==> fresh(out))
  {
    if s == null { return null; }
    out := new string[s.Length];
    for i := 0 to s.Length
      invariant fresh(out) && out.Length == s.Length && out[..i] == s[..i]
    {
      out[i] := s[i];
    }
    assert s[..s.Length] == s[..] && out[..s.Length] == out[..];
  }

  /** A nil map stays nil; any other is copied with its slices, an empty one too. */
  method CopyByteMap(m: ByteMap?) returns (out: ByteMap?)
    ensures MapContents(out) == old(MapContents(m)) && fresh(MapRepr(out))
  {
    if m == null { return null; }
    out := new ByteMap();
    var todo := m.entries.Keys;
    while todo != {}
      invariant fresh(out) && todo <= m.entries.Keys && out.entries.Keys == m.entries.Keys - todo
      invariant forall k :: k in out.entries ==> Read(out.entries[k]) == old(Read(m.entries[k]))
      invariant forall k :: k in out.entries && out.entries[k] != null ==> fresh(out.entries[k])
      decreases |todo|
    {
      var k :| k in todo;
      var copied := CopyBytes(m.entries[k]);
      out.entries := out.entries[k := copied];
      todo := todo - {k};
    }
    assert out.Contents() == old(m.Contents());
  }

  method CopyRetry(p: RetryPolicy?) returns (out: RetryPolicy?)
    ensures RetryContents(out) == old(RetryContents(p)) && fresh(RetryRepr(out))
  {
    if p == null { return null; }
    var reasons := CopyStrings(p.nonRetriable);
    out := new RetryPolicy(p.flat, reasons);
  }

  lemma MapIsThere(m: ByteMap?)
    ensures forall o :: o in MapRepr(m) ==> allocated(o)
  {
  }

  lemma RetryIsThere(p: RetryPolicy?)
    ensures forall o :: o in RetryRepr(p) ==> allocated(o)
  {
  }

  method CopyStart(a: StartAction) returns (out: StartAction)
    ensures out.Contents() == old(a.Contents()) && fresh(out.Repr())
  {
    hide MapContents, MapRepr, RetryContents, RetryRepr;
    RetryIsThere(a.retry);
    MapIsThere(a.memo);
    MapIsThere(a.searchAttributes);
    var input := CopyBytes(a.input);
    assert RetryContents(a.retry) == old(RetryContents(a.retry));
    var retry := CopyRetry(a.retry);
    RetryIsThere(retry);
    assert MapContents(a.memo) == old(MapContents(a.memo));
    var memo := CopyByteMap(a.memo);
    MapIsThere(memo);
    assert MapContents(a.searchAttributes) == old(MapContents(a.searchAttributes));
    var searchAttributes := CopyByteMap(a.searchAttributes);
    MapIsThere(searchAttributes);
    out := new StartAction(a.flat, input, retry, memo, searchAttributes);
  }

  lemma StartIsThere(a: StartAction)
    ensures forall o :: o in a.Repr() ==> allocated(o)
  {
  }

  lemma ActionIsThere(a: Box?<StartAction?>)
    ensures ActionDeep(a) <= ActionRepr(a) && forall o :: o in ActionRepr(a) ==> allocated(o)
  {
    hide StartAction.Repr;
    if Started(a) != null { StartIsThere(Started(a)); }
  }

  /** An action that starts nothing is left out. */
  method CopyAction(a: Box?<StartAction?>) returns (out: Box?<StartAction?>)
    ensures fresh(ActionRepr(out))
    ensures var d := old(ActionContents(a));
            ActionContents(out) == if d.Some? && d.value.startWorkflow.Some? then d else None
  {
    hide StartAction.Contents, StartAction.Repr, StartAction.Beside;
    if a == null || a.value == null { return null; }
    var start := CopyStart(a.value);
    StartIsThere(start);
    BesideIsInside(start);
    out := new Box<StartAction?>(start);
  }

  lemma BesideIsInside(a: StartAction)
    ensures a in a.Repr() && a.Beside() <= a.Repr()
  {
  }

  lemma ScheduleIsThere(s: Schedule)
    ensures forall o :: o in s.Repr() ==> allocated(o)
  {
    hide ActionRepr, MapRepr;
    MapIsThere(s.searchAttributes);
    ActionIsThere(s.action);
  }

  method CopyBox<T>(b: Box?<T>) returns (out: Box?<T>)
    ensures if b == null then out == null else out != null && fresh(out) && out.value == b.value
  {
    if b == null { return null; }
    out := new Box<T>(b.value);
  }

  /** What the callback is given holds what the update starts from, in memory of its own throughout. */
  method UpdateFromDescribe(desc: Schedule) returns (u: Schedule)
    ensures u.Contents() == UpdateFrom(old(desc.Contents())) && fresh(u.Repr())
  {
    hide MapContents, MapRepr, ActionContents, ActionRepr, ActionDeep;
    MapIsThere(desc.searchAttributes);
    ActionIsThere(desc.action);
    var searchAttributes := CopyByteMap(desc.searchAttributes);
    MapIsThere(searchAttributes);
    assert ActionContents(desc.action) == old(ActionContents(desc.action));
    var action := CopyAction(desc.action);
    ActionIsThere(action);
    var spec := CopyBox(desc.spec);
    var policies := CopyBox(desc.policies);
    u := new Schedule(spec, action, policies, searchAttributes);
  }

  /**
   The update up to the call of the server. The callback may write to anything it can reach; the
   request is made from what it left there and from the description as it was.
   */
  method Update(desc: Schedule, narrow: Narrow) returns (r: Request, made: View)
    ensures desc.Contents() == old(desc.Contents())
    ensures r == MakeRequest(old(desc.Contents()), made, narrow)
  {
    hide Schedule.Repr, Schedule.Contents, ActionDeep, ActionRepr, MakeRequest;
    ScheduleIsThere(desc);
    ActionIsThere(desc.action);
    var cur := UpdateFromDescribe(desc);
    modify cur.Repr();
    made := cur.Contents();
    r := BuildRequest(desc.Contents(), made, narrow);
  }
}
