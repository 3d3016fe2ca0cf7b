/**
 Replay agrees with live: for every workflow, every split into decision tasks and every
 outcome of its side effects, replaying the recorded history shows the workflow exactly
 what the live run showed it.
 */
module ReplayAgrees {
  import opened Common
  import opened Calls
  import opened HelperAgreement
  import opened DecisionsState
  import opened DecisionsRuns
  import opened DecisionMachine
  import opened Replays

  // ---------------------------------------------------------------- what a live run records

  /** Version markers recorded so far are the versions in force. */
  ghost predicate Behind(l: Env) {
    forall c, v :: VersionMarker(c, v) in l.markers ==> c in l.versions && l.versions[c] == v
  }

  /** The machine of a side effect's marker. */
  function EffectMachine(n: nat): DecisionID { DecisionID(Kind.Marker, "SideEffect_" + Decimal(ID(n))) }

  /** The side effects of the decision have different IDs: each has its marker machine until the drain. */
  ghost predicate Guarded(l: Env) {
    && (forall i :: 0 <= i < |l.markers| && l.markers[i].SideEffectMarker? ==>
          EffectMachine(l.markers[i].n) in l.calls.helper.index)
    && Distinct(l.markers)
  }

  /** No later marker of the decision overwrites a side effect. */
  ghost predicate Distinct(ms: seq<Marker>) {
    forall i, j :: 0 <= i < j < |ms| && ms[i].SideEffectMarker? && ms[j].SideEffectMarker? ==>
      ID(ms[i].n) != ID(ms[j].n)
  }

  /** Markers still to come name changes that have no version yet. */
  ghost predicate Ahead(l: Env, ms: seq<Marker>) {
    && l.markers <= ms
    && forall i :: |l.markers| <= i < |ms| && ms[i].VersionMarker? ==> ms[i].changeID !in l.versions
  }

  /** What live actions leave alone and what they may record. */
  ghost predicate Grows(l: Env, l': Env) {
    && l.markers <= l'.markers && l.counter <= l'.counter
    && (forall c :: c in l.versions ==> c in l'.versions && l'.versions[c] == l.versions[c])
    && (forall i :: |l.markers| <= i < |l'.markers| && l'.markers[i].VersionMarker? ==>
        l'.markers[i].changeID !in l.versions)
  }

  lemma GrowsChains(a: Env, b: Env, c: Env)
    requires Grows(a, b) && Grows(b, c)
    ensures Grows(a, c)
  {
    assert forall i :: 0 <= i < |b.markers| ==> c.markers[i] == b.markers[i];
  }

  lemma GrowsAhead(l: Env, l': Env, ms: seq<Marker>)
    requires Grows(l, l') && Ahead(l', ms)
    ensures Ahead(l, ms)
  {
    assert forall i :: 0 <= i < |l'.markers| ==> ms[i] == l'.markers[i];
  }

  /** Grows without recording a local activity. */
  ghost predicate Progress(l: Env, l': Env) {
    Grows(l, l') && forall i :: |l.markers| <= i < |l'.markers| ==> !l'.markers[i].LocalActivityMarker?
  }

  /** Nothing that replay needs is recorded or forgotten. */
  ghost predicate Spared(e: Env, e': Env) {
    && e'.run == e.run && e'.versions == e.versions && e'.effects == e.effects && e'.markers == e.markers &&
        e'.fx == e.fx
    && e'.decided == e.decided && e.counter <= e'.counter
  }

  lemma SimpleSpares(e: Env, a: Action)
    requires Simple(e, a).Some?
    ensures Spared(e, Simple(e, a).value)
  {
  }

  lemma PlainSpares(e: Env, a: Action)
    requires Plain(e, a).Some?
    ensures Spared(e, Plain(e, a).value)
  {
    if Requested(e.run, a).None? && Recalled(a).None? { SimpleSpares(e, a); }
  }

  lemma AnnounceSpares(e: Env, changeID: string, version: int)
    requires Announce(e, changeID, version).Some?
    ensures var e' := Announce(e, changeID, version).value;
            && Spared(e, e'.(markers := e.markers)) && e'.markers == e.markers + [VersionMarker(changeID, version)]
            && e'.obs == e.obs && e'.now == e.now && e'.pending == e.pending && e'.stopped == e.stopped
            && e'.counter == e.counter
  {
  }

  /** Whether live or in replay, and whatever it upserts, GetVersion takes no sequence number. */
  lemma VersionTakesNoID(e: Env, replay: bool, a: Action)
    requires a.GetVersion? && AnswerVersion(e, replay, a).Some?
    ensures AnswerVersion(e, replay, a).value.counter == e.counter
  {
    if a.changeID !in e.versions {
      var v := ChooseVersion(replay, a);
      if !replay && v != DEFAULT_VERSION { AnnounceSpares(e, a.changeID, v); }
    }
  }

  lemma AnswerProgress(l: Env, a: Action, world: Oracle)
    requires Answer(l, false, a, world).Some?
    ensures Progress(l, Answer(l, false, a, world).value)
  {
    if a.GetVersion? {
      VersionTakesNoID(l, false, a);
      var v := ChooseVersion(false, a);
      if a.changeID !in l.versions && v != DEFAULT_VERSION { AnnounceSpares(l, a.changeID, v); }
    } else if !a.SideEffect? {
      PlainSpares(l, a);
    }
  }

  lemma ProgressChains(a: Env, b: Env, c: Env)
    requires Progress(a, b) && Progress(b, c)
    ensures Progress(a, c)
  {
    assert forall i :: 0 <= i < |b.markers| ==> c.markers[i] == b.markers[i];
  }

  lemma SegmentNext(e: Env, replay: bool, prog: Program, world: Oracle, fuel: nat, a: Action)
    requires a == prog(e.obs, e.now) && !a.Block? && fuel > 0
    ensures Segment(e, replay, prog, world, fuel).Some? ==> Answer(e, replay, a, world).Some?
    ensures Answer(e, replay, a, world).Some? ==>
              Segment(e, replay, prog, world, fuel) ==
                  Segment(Answer(e, replay, a, world).value, replay, prog, world, fuel - 1)
  {
  }

  lemma {:induction false} SegmentProgress(l: Env, prog: Program, world: Oracle, fuel: nat)
    requires Segment(l, false, prog, world, fuel).Some?
    ensures Progress(l, Segment(l, false, prog, world, fuel).value)
    decreases fuel
  {
    hide Answer;
    var a := prog(l.obs, l.now);
    if !a.Block? {
      SegmentNext(l, false, prog, world, fuel, a);
      var l' := Answer(l, false, a, world).value;
      AnswerProgress(l, a, world);
      SegmentProgress(l', prog, world, fuel - 1);
      ProgressChains(l, l', Segment(l', false, prog, world, fuel - 1).value);
    }
  }

  /** The books a live run keeps within a decision. */
  ghost predicate Kept(l: Env) { Behind(l) && Guarded(l) }

  /** Live calls only ever add marker machines; the drain at the end of the decision takes them away. */
  ghost predicate MarkersStay(l: Env, l': Env) {
    forall id: DecisionID :: OneShot(id.kind) && id in l.calls.helper.index ==> id in l'.calls.helper.index
  }

  lemma CancelKeepsMarkers(c: Calls, id: DecisionID)
    requires !OneShot(id.kind) && CancelCall(c, id).Some?
    ensures forall x: DecisionID :: OneShot(x.kind) && x in c.helper.index ==>
              x in CancelCall(c, id).value.0.helper.index
  {
    hide LookUpAndDeliver;
    ServeSparesOneShots(c.helper, id, OnCancel);
    assert Step(c.helper, Handle(id, OnCancel)) == LookUpAndDeliver(c.helper, id, OnCancel);
  }

  lemma PlainKeepsMarkers(l: Env, a: Action)
    requires Plain(l, a).Some?
    ensures MarkersStay(l, Plain(l, a).value)
  {
    hide CancelCall;
    if Requested(l.run, a).None? && Recalled(a).Some? { CancelKeepsMarkers(l.calls, Recalled(a).value); }
  }

  /** A counter that has wrapped around to the ID of an earlier side effect finds its marker machine in the way. */
  lemma RepeatedEffectPanics(l: Env, world: Oracle)
    requires Guarded(l) && AnswerSideEffect(l, false, world).Some?
    ensures forall i :: 0 <= i < |l.markers| && l.markers[i].SideEffectMarker? ==> ID(l.markers[i].n) != ID(l.counter)
  {
  }

  lemma SideEffectKept(l: Env, world: Oracle)
    requires Kept(l) && AnswerSideEffect(l, false, world).Some?
    ensures Kept(AnswerSideEffect(l, false, world).value)
  {
    RepeatedEffectPanics(l, world);
  }

  lemma VersionKept(l: Env, a: Action)
    requires Kept(l) && a.GetVersion? && AnswerVersion(l, false, a).Some?
    ensures Kept(AnswerVersion(l, false, a).value)
  {
    var v := ChooseVersion(false, a);
    if a.changeID !in l.versions && v != DEFAULT_VERSION { AnnounceSpares(l, a.changeID, v); }
  }

  lemma AnswerKept(l: Env, a: Action, world: Oracle)
    requires Kept(l) && Answer(l, false, a, world).Some?
    ensures Kept(Answer(l, false, a, world).value)
  {
    hide AnswerVersion, AnswerSideEffect, Plain;
    if a.GetVersion? {
      VersionKept(l, a);
    } else if a.SideEffect? {
      SideEffectKept(l, world);
    } else {
      PlainSpares(l, a);
      PlainKeepsMarkers(l, a);
    }
  }

  lemma {:induction false} SegmentKept(l: Env, prog: Program, world: Oracle, fuel: nat)
    requires Kept(l) && Segment(l, false, prog, world, fuel).Some?
    ensures Kept(Segment(l, false, prog, world, fuel).value)
    decreases fuel
  {
    hide Answer, Behind, Guarded;
    var a := prog(l.obs, l.now);
    if !a.Block? {
      SegmentNext(l, false, prog, world, fuel, a);
      AnswerKept(l, a, world);
      SegmentKept(Answer(l, false, a, world).value, prog, world, fuel - 1);
    }
  }

  // ---------------------------------------------------------------- the simulation

  /** What the workflow can tell apart. */
  ghost predicate SameView(l: Env, r: Env) {
    && l.run == r.run && l.counter == r.counter && l.pending == r.pending && l.stopped == r.stopped
    && l.obs == r.obs && l.now == r.now && l.decided == r.decided
  }

  /** The same view, with calls that differ in markers and upserts only. */
  ghost predicate SameCalls(l: Env, r: Env) { SameView(l, r) && CallsAgree(l.calls, r.calls) }

  /** Replay knows the versions in force and, beyond them, exactly those the decision will record. */
  ghost predicate SameVersions(l: Env, r: Env, ms: seq<Marker>) {
    && (forall c :: c in l.versions ==> c in r.versions && r.versions[c] == l.versions[c])
    && (forall c, v :: VersionMarker(c, v) in ms ==> c in r.versions && r.versions[c] == v)
    && (forall c :: c in r.versions && c !in l.versions ==> VersionMarker(c, r.versions[c]) in ms)
  }

  ghost predicate SameEffects(r: Env, ms: seq<Marker>) {
    forall n, v :: SideEffectMarker(n, v) in ms ==> ID(n) in r.effects && r.effects[ID(n)] == v
  }

  ghost predicate Sim(l: Env, r: Env, ms: seq<Marker>) {
    SameCalls(l, r) && SameVersions(l, r, ms) && SameEffects(r, ms)
  }

  /** A change that was given the default version is never marked. */
  lemma NoMarkerFor(l: Env, l': Env, ms: seq<Marker>, c: string)
    requires Behind(l) && l'.markers == l.markers && Ahead(l', ms) && c !in l.versions && c in l'.versions
    ensures forall v :: VersionMarker(c, v) !in ms
  {
    forall i | 0 <= i < |ms| ensures ms[i].VersionMarker? ==> ms[i].changeID != c {
      if i < |l.markers| && ms[i].VersionMarker? {
        assert l.markers[i] == VersionMarker(ms[i].changeID, ms[i].version);
      }
    }
  }

  lemma AnnounceAgrees(l: Env, r: Env, changeID: string, version: int)
    requires CallsAgree(l.calls, r.calls) && Announce(l, changeID, version).Some?
    ensures CallsAgree(Announce(l, changeID, version).value.calls, r.calls)
  {
    var marker, upsert := DecisionID(Kind.Marker, "Version_" + changeID), changeID + "-" + Decimal(version);
    RecordLiveAgrees(l.calls, r.calls, marker);
    var l' := RecordIn(l, marker).value;
    RecordLiveAgrees(l'.calls, r.calls, DecisionID(Kind.UpsertSearchAttributes, upsert));
  }

  lemma VersionSim(l: Env, r: Env, ms: seq<Marker>, a: Action)
    requires a.GetVersion? && Sim(l, r, ms) && Behind(l) && AnswerVersion(l, false, a).Some?
    requires Ahead(AnswerVersion(l, false, a).value, ms)
    ensures AnswerVersion(r, true, a).Some? &&
            Sim(AnswerVersion(l, false, a).value, AnswerVersion(r, true, a).value, ms)
  {
    var l' := AnswerVersion(l, false, a).value;
    if a.changeID !in l.versions {
      var v := l'.versions[a.changeID];
      if v != DEFAULT_VERSION {
        AnnounceSpares(l, a.changeID, v);
        AnnounceAgrees(l, r, a.changeID, v);
        assert ms[|l.markers|] == l'.markers[|l.markers|] == VersionMarker(a.changeID, v);
        assert VersionMarker(a.changeID, v) in ms;
      } else {
        NoMarkerFor(l, l', ms, a.changeID);
      }
    }
  }

  lemma SideEffectSim(l: Env, r: Env, ms: seq<Marker>, world: Oracle)
    requires Sim(l, r, ms) && AnswerSideEffect(l, false, world).Some? &&
             Ahead(AnswerSideEffect(l, false, world).value, ms)
    ensures AnswerSideEffect(r, true, world).Some?
    ensures Sim(AnswerSideEffect(l, false, world).value, AnswerSideEffect(r, true, world).value, ms)
  {
    var v := world(l.fx);
    assert ms[|l.markers|] == SideEffectMarker(l.counter, v);
    assert SideEffectMarker(l.counter, v) in ms;
    RecordAgrees(l.calls, r.calls, DecisionID(Kind.Marker, "SideEffect_" + NewID(l)));
  }

  lemma ExecuteAgrees(l: Env, r: Env, q: Request)
    requires SameCalls(l, r) && Execute(l, q).Some?
    ensures Execute(r, q).Some? && SameCalls(Execute(l, q).value, Execute(r, q).value)
  {
    var id := if q.given == "" then q.prefix + NewID(l) else q.given;
    RegisterAgrees(l.calls, r.calls, DecisionID(q.kind, id), q.wait);
  }

  lemma TakeBackAgrees(l: Env, r: Env, id: DecisionID)
    requires SameCalls(l, r) && !OneShot(id.kind) && TakeBack(l, id).Some?
    ensures TakeBack(r, id).Some? && SameCalls(TakeBack(l, id).value, TakeBack(r, id).value)
  {
    CancelCallAgrees(l.calls, r.calls, id);
  }

  lemma UpsertAgrees(l: Env, r: Env, change: Option<string>)
    requires SameCalls(l, r) && Upsert(l, change).Some?
    ensures Upsert(r, change).Some? && SameCalls(Upsert(l, change).value, Upsert(r, change).value)
  {
    var id := if change.Some? then change.value else NewID(l);
    RecordAgrees(l.calls, r.calls, DecisionID(Kind.UpsertSearchAttributes, id));
  }

  lemma SimpleAgrees(l: Env, r: Env, a: Action)
    requires SameCalls(l, r) && Simple(l, a).Some?
    ensures Simple(r, a).Some? && SameCalls(Simple(l, a).value, Simple(r, a).value)
  {
    hide CallsAgree, Upsert;
    if a.UpsertSearchAttributes? && Upsert(l, a.changeVersion).Some? { UpsertAgrees(l, r, a.changeVersion); }
  }

  /** The other actions are answered alike. */
  lemma PlainAgrees(l: Env, r: Env, a: Action)
    requires SameCalls(l, r) && Plain(l, a).Some?
    ensures Plain(r, a).Some? && SameCalls(Plain(l, a).value, Plain(r, a).value)
  {
    var q, id := Requested(l.run, a), Recalled(a);
    if q.Some? { ExecuteAgrees(l, r, q.value); }
    else if id.Some? { TakeBackAgrees(l, r, id.value); }
    else { SimpleAgrees(l, r, a); }
  }

  lemma PlainSim(l: Env, r: Env, ms: seq<Marker>, a: Action)
    requires Sim(l, r, ms) && Plain(l, a).Some?
    ensures Plain(r, a).Some? && Sim(Plain(l, a).value, Plain(r, a).value, ms)
  {
    PlainAgrees(l, r, a);
    PlainSpares(l, a);
    PlainSpares(r, a);
  }

  lemma AnswerSim(l: Env, r: Env, ms: seq<Marker>, a: Action, world: Oracle)
    requires Sim(l, r, ms) && Behind(l) && Answer(l, false, a, world).Some? &&
             Ahead(Answer(l, false, a, world).value, ms)
    ensures Answer(r, true, a, world).Some?
    ensures Sim(Answer(l, false, a, world).value, Answer(r, true, a, world).value, ms)
  {
    if a.GetVersion? {
      VersionSim(l, r, ms, a);
    } else if a.SideEffect? {
      SideEffectSim(l, r, ms, world);
    } else {
      PlainSim(l, r, ms, a);
    }
  }

  /** One action on both sides. */
  lemma ActionSim(l: Env, r: Env, ms: seq<Marker>, prog: Program, world: Oracle, fuel: nat)
      returns (l': Env, r': Env)
    requires Sim(l, r, ms) && Kept(l) && fuel > 0 && !prog(l.obs, l.now).Block?
    requires Segment(l, false, prog, world, fuel).Some? && Ahead(Segment(l, false, prog, world, fuel).value, ms)
    ensures Segment(l, false, prog, world, fuel) == Segment(l', false, prog, world, fuel - 1)
    ensures Segment(r, true, prog, world, fuel) == Segment(r', true, prog, world, fuel - 1)
    ensures Sim(l', r', ms) && Kept(l')
  {
    hide CallsAgree, SameVersions, SameEffects, Answer;
    var a := prog(l.obs, l.now);
    SegmentNext(l, false, prog, world, fuel, a);
    l' := Answer(l, false, a, world).value;
    SegmentProgress(l', prog, world, fuel - 1);
    GrowsAhead(l', Segment(l', false, prog, world, fuel - 1).value, ms);
    AnswerSim(l, r, ms, a, world);
    AnswerKept(l, a, world);
    SegmentNext(r, true, prog, world, fuel, a);
    r' := Answer(r, true, a, world).value;
  }

  lemma {:induction false} SegmentSim(l: Env, r: Env, ms: seq<Marker>, prog: Program, world: Oracle, fuel: nat)
    requires Sim(l, r, ms) && Kept(l) && Segment(l, false, prog, world, fuel).Some?
    requires Ahead(Segment(l, false, prog, world, fuel).value, ms)
    ensures Segment(r, true, prog, world, fuel).Some?
    ensures Sim(Segment(l, false, prog, world, fuel).value, Segment(r, true, prog, world, fuel).value, ms)
    decreases fuel
  {
    hide CallsAgree, SameVersions, SameEffects, Answer, Kept;
    if !prog(l.obs, l.now).Block? {
      var l', r' := ActionSim(l, r, ms, prog, world, fuel);
      SegmentSim(l', r', ms, prog, world, fuel - 1);
    }
  }

  // ---------------------------------------------------------------- local activities

  /** The state after a live local activity result has been marked and delivered. */
  function Marked(l: Env, d: Local): Option<Env> { DeliverLocal(Mark(l, d), d) }

  lemma MarkedGrows(l: Env, d: Local)
    requires Marked(l, d).Some? && Kept(l)
    ensures var l' := Marked(l, d).value;
            && Kept(l') && Grows(l, l') && |l'.markers| == |l.markers| + 1
            && l'.markers[|l.markers|] == LocalActivityMarker(d.activityID, d.result, d.time)
  {
  }

  lemma LocalsNext(l: Env, locals: seq<Local>, prog: Program, world: Oracle, fuel: nat) returns (l1: Env, l2: Env)
    requires locals != [] && locals[0].activityID in l.pending && LiveLocals(l, locals, prog, world, fuel).Some?
    ensures Marked(l, locals[0]) == Some(l1) && Segment(l1, false, prog, world, fuel) == Some(l2)
    ensures LiveLocals(l, locals, prog, world, fuel) == LiveLocals(l2, locals[1..], prog, world, fuel)
  {
    l1 := Marked(l, locals[0]).value;
    l2 := Segment(l1, false, prog, world, fuel).value;
  }

  lemma {:induction false} LocalsGrow(l: Env, locals: seq<Local>, prog: Program, world: Oracle, fuel: nat)
    requires Kept(l) && LiveLocals(l, locals, prog, world, fuel).Some?
    ensures Grows(l, LiveLocals(l, locals, prog, world, fuel).value)
    ensures Kept(LiveLocals(l, locals, prog, world, fuel).value)
    decreases |locals|
  {
    if locals != [] {
      if locals[0].activityID !in l.pending {
        LocalsGrow(l, locals[1..], prog, world, fuel);
      } else {
        var l1, l2 := LocalsNext(l, locals, prog, world, fuel);
        MarkedGrows(l, locals[0]);
        SegmentKept(l1, prog, world, fuel);
        SegmentProgress(l1, prog, world, fuel);
        LocalsGrow(l2, locals[1..], prog, world, fuel);
        GrowsChains(l, l1, l2);
        GrowsChains(l, l2, LiveLocals(l2, locals[1..], prog, world, fuel).value);
      }
    }
  }

  /** Markers of other kinds are passed over. */
  lemma {:induction false} SkipOthers(r: Env, ms: seq<Marker>, k: nat, prog: Program, world: Oracle, fuel: nat)
    requires k <= |ms| && forall i :: 0 <= i < k ==> !ms[i].LocalActivityMarker?
    ensures ReplayLocals(r, ms, prog, world, fuel) == ReplayLocals(r, ms[k..], prog, world, fuel)
    decreases k
  {
    if k > 0 {
      SkipOthers(r, ms[1..], k - 1, prog, world, fuel);
      assert ms[1..][k - 1..] == ms[k..];
    } else {
      assert ms[0..] == ms;
    }
  }

  lemma SkipSegment(r: Env, ms: seq<Marker>, k: nat, l: Env, prog: Program, world: Oracle, fuel: nat)
    requires k <= |l.markers| && l.markers <= ms && forall i :: k <= i < |l.markers| ==>
             !l.markers[i].LocalActivityMarker?
    ensures ReplayLocals(r, ms[k..], prog, world, fuel) == ReplayLocals(r, ms[|l.markers|..], prog, world, fuel)
  {
    var n := |l.markers| - k;
    forall i | 0 <= i < n ensures !ms[k..][i].LocalActivityMarker? {
      assert ms[k..][i] == ms[k + i] == l.markers[k + i];
    }
    SkipOthers(r, ms[k..], n, prog, world, fuel);
    assert ms[k..][n..] == ms[|l.markers|..];
  }

  /** From a point between two segments on, replay applies what the live run recorded from there on. */
  lemma {:induction false} LocalsSim(l: Env, r: Env, ms: seq<Marker>, locals: seq<Local>, prog: Program,
      world: Oracle, fuel: nat)
    requires Sim(l, r, ms) && Kept(l) && LiveLocals(l, locals, prog, world, fuel).Some?
    requires LiveLocals(l, locals, prog, world, fuel).value.markers == ms
    ensures |l.markers| <= |ms| && ReplayLocals(r, ms[|l.markers|..], prog, world, fuel).Some?
    ensures Sim(LiveLocals(l, locals, prog, world, fuel).value,
            ReplayLocals(r, ms[|l.markers|..], prog, world, fuel).value, ms)
    decreases |locals|
  {
    LocalsGrow(l, locals, prog, world, fuel);
    if locals == [] {
      assert ms[|l.markers|..] == [];
    } else if locals[0].activityID !in l.pending {
      LocalsSim(l, r, ms, locals[1..], prog, world, fuel);
    } else {
      LocalSim(l, r, ms, locals, prog, world, fuel);
    }
  }

  lemma {:induction false} LocalSim(l: Env, r: Env, ms: seq<Marker>, locals: seq<Local>, prog: Program, world: Oracle,
      fuel: nat)
    requires Sim(l, r, ms) && Kept(l) && locals != [] && locals[0].activityID in l.pending
    requires LiveLocals(l, locals, prog, world, fuel).Some?
    requires LiveLocals(l, locals, prog, world, fuel).value.markers == ms && Ahead(l, ms)
    ensures ReplayLocals(r, ms[|l.markers|..], prog, world, fuel).Some?
    ensures Sim(LiveLocals(l, locals, prog, world, fuel).value,
            ReplayLocals(r, ms[|l.markers|..], prog, world, fuel).value, ms)
    decreases |locals|, 0
  {
    hide CallsAgree, SameVersions, SameEffects, DeliverLocal, Segment;
    var d, k := locals[0], |l.markers|;
    var l1, l2 := LocalsNext(l, locals, prog, world, fuel);
    MarkedGrows(l, d);
    SegmentKept(l1, prog, world, fuel);
    SegmentProgress(l1, prog, world, fuel);
    LocalsGrow(l2, locals[1..], prog, world, fuel);
    GrowsAhead(l2, LiveLocals(l2, locals[1..], prog, world, fuel).value, ms);
    assert ms[k] == l2.markers[k] == l1.markers[k];
    DeliverSim(l, r, ms, d);
    var r1 := DeliverLocal(r, d).value;
    SegmentSim(l1, r1, ms, prog, world, fuel);
    var r2 := Segment(r1, true, prog, world, fuel).value;
    ReplayLocalsNext(r, ms, k, prog, world, fuel);
    SkipSegment(r2, ms, k + 1, l2, prog, world, fuel);
    LocalsSim(l2, r2, ms, locals[1..], prog, world, fuel);
  }

  lemma DeliverSim(l: Env, r: Env, ms: seq<Marker>, d: Local)
    requires Sim(l, r, ms) && Marked(l, d).Some?
    ensures DeliverLocal(r, d).Some? && Sim(Marked(l, d).value, DeliverLocal(r, d).value, ms)
  {
    RecordAgrees(l.calls, r.calls, DecisionID(Kind.Marker, "LocalActivity_" + d.activityID));
  }

  lemma ReplayLocalsNext(r: Env, ms: seq<Marker>, k: nat, prog: Program, world: Oracle, fuel: nat)
    requires k < |ms| && ms[k].LocalActivityMarker? && ms[k].activityID in r.pending
    requires DeliverLocal(r, LocalOf(ms[k])).Some?
    requires Segment(DeliverLocal(r, LocalOf(ms[k])).value, true, prog, world, fuel).Some?
    ensures ReplayLocals(r, ms[k..], prog, world, fuel) ==
            ReplayLocals(Segment(DeliverLocal(r, LocalOf(ms[k])).value, true, prog, world, fuel).value, ms[k + 1..],
                prog, world, fuel)
  {
    assert ms[k..][0] == ms[k] && ms[k..][1..] == ms[k + 1..];
  }

  // ---------------------------------------------------------------- loading the markers

  lemma {:induction false} PreloadView(r: Env, ms: seq<Marker>)
    ensures SameView(r, Preload(r, ms)) && Preload(r, ms).calls == r.calls
  {
    if ms != [] { PreloadView(r, ms[..|ms| - 1]); }
  }

  lemma {:induction false} PreloadEffects(r: Env, ms: seq<Marker>)
    requires Distinct(ms)
    ensures SameEffects(Preload(r, ms), ms)
  {
    if ms != [] {
      var k := |ms| - 1;
      PreloadEffects(r, ms[..k]);
      forall n, v | SideEffectMarker(n, v) in ms
        ensures ID(n) in Preload(r, ms).effects && Preload(r, ms).effects[ID(n)] == v
      {
        if SideEffectMarker(n, v) != ms[k] {
          assert SideEffectMarker(n, v) in ms[..k];
        }
      }
    }
  }

  /** The version markers of a decision agree with each other. */
  ghost predicate Functional(ms: seq<Marker>) {
    forall c, v, w :: VersionMarker(c, v) in ms && VersionMarker(c, w) in ms ==> v == w
  }

  lemma {:induction false} PreloadVersions(l: Env, r: Env, ms: seq<Marker>)
    requires r.versions == l.versions && Functional(ms)
    requires forall c, v :: VersionMarker(c, v) in ms ==> c !in l.versions
    ensures SameVersions(l, Preload(r, ms), ms)
  {
    if ms != [] {
      var k := |ms| - 1;
      assert forall m :: m in ms[..k] ==> m in ms;
      PreloadVersions(l, r, ms[..k]);
      assert forall m :: m in ms <==> m in ms[..k] || m == ms[k];
    }
  }

  // ---------------------------------------------------------------- hearing events

  lemma {:induction false} ReceivesSpares(e: Env, events: seq<HistoryEvent>)
    requires Receives(e, events).Some?
    ensures Spared(e, Receives(e, events).value) && Receives(e, events).value.counter == e.counter
    decreases |events|
  {
    if events != [] {
      var r := Receive(e.calls, events[0]).value;
      ReceivesSpares(e.(calls := r.0, obs := e.obs + Notices(r.1)), events[1..]);
    }
  }

  /** Every event finds the same machine on both sides and fires the same callback. */
  lemma {:induction false} ReceivesAgree(l: Env, r: Env, events: seq<HistoryEvent>)
    requires SameCalls(l, r)
    ensures Receives(l, events).Some? <==> Receives(r, events).Some?
    ensures Receives(l, events).Some? ==> SameCalls(Receives(l, events).value, Receives(r, events).value)
    decreases |events|
  {
    hide CallsAgree, Receive;
    if events != [] {
      ReceiveAgrees(l.calls, r.calls, events[0]);
      if Receive(l.calls, events[0]).Some? {
        var a, b := Receive(l.calls, events[0]).value, Receive(r.calls, events[0]).value;
        ReceivesAgree(l.(calls := a.0, obs := l.obs + Notices(a.1)), r.(calls := b.0, obs := r.obs + Notices(b.1)),
            events[1..]);
      }
    }
  }

  lemma HearSim(l: Env, r: Env, events: seq<HistoryEvent>, time: int, ms: seq<Marker>)
    requires Sim(l, r, ms) && Hear(l, events, time).Some?
    ensures Hear(r, events, time).Some? && Sim(Hear(l, events, time).value, Hear(r, events, time).value, ms)
  {
    hide CallsAgree, Receives;
    ReceivesAgree(l, r, events);
    ReceivesSpares(l, events);
    ReceivesSpares(r, events);
  }

  // ---------------------------------------------------------------- a whole decision

  /**
   The two environments differ in nothing that matters later: the same observations, decisions, counter,
   versions, callback data, and decision machines in the same states and order.
   */
  ghost predicate Same(l: Env, r: Env) {
    SameView(l, r) && l.versions == r.versions && CallsAgree(l.calls, r.calls) && CallsAgree(r.calls, l.calls)
  }

  lemma HearKept(l: Env, d: Input)
    requires Hear(l.(markers := []), d.events, d.time).Some?
    ensures var l0 := Hear(l.(markers := []), d.events, d.time).value;
            Kept(l0) && l0.versions == l.versions && l0.counter == l.counter && l0.markers == []
  {
    ReceivesSpares(l.(markers := []), d.events);
  }

  /** The stages of a live decision. */
  lemma Stages(l: Env, d: Input, prog: Program, world: Oracle, fuel: nat) returns (l0: Env, l1: Env, l2: Env)
    requires LiveDecision(l, d, prog, world, fuel).Some?
    ensures Hear(l.(markers := []), d.events, d.time) == Some(l0) && Segment(l0, false, prog, world, fuel) == Some(l1)
    ensures LiveLocals(l1, d.locals, prog, world, fuel) == Some(l2) &&
            LiveDecision(l, d, prog, world, fuel) == Some(Close(l2))
    ensures Kept(l0) && Progress(l0, l1) && Kept(l1) && Grows(l1, l2) && Kept(l2)
    ensures l0.versions == l.versions && l0.counter == l.counter && l0.markers == []
  {
    l0 := Hear(l.(markers := []), d.events, d.time).value;
    HearKept(l, d);
    l1 := Segment(l0, false, prog, world, fuel).value;
    SegmentKept(l0, prog, world, fuel);
    SegmentProgress(l0, prog, world, fuel);
    l2 := LiveLocals(l1, d.locals, prog, world, fuel).value;
    LocalsGrow(l1, d.locals, prog, world, fuel);
  }

  lemma LoadedSim(l: Env, r: Env, ms: seq<Marker>, l2: Env)
    requires Same(l, r) && Kept(l2) && l2.markers == ms
    requires Grows(l.(markers := []), l2)
    ensures Sim(l.(markers := []), Preload(r, ms), ms)
  {
    hide CallsAgree;
    PreloadView(r, ms);
    PreloadEffects(r, ms);
    forall c, v | VersionMarker(c, v) in ms ensures c !in l.versions {
      var i :| 0 <= i < |ms| && ms[i] == VersionMarker(c, v);
    }
    PreloadVersions(l, r, ms);
  }

  /** Replaying a decision ends where the live one did. */
  lemma DecisionAgrees(l: Env, r: Env, d: Input, prog: Program, world: Oracle, fuel: nat)
    requires Same(l, r) && LiveDecision(l, d, prog, world, fuel).Some?
    ensures var l' := LiveDecision(l, d, prog, world, fuel).value;
            var r' := ReplayDecision(r, Recorded(d.events, d.time, l'.markers), prog, world, fuel);
            r'.Some? && Same(l', r'.value)
  {
    hide CallsAgree, SameVersions, SameEffects, Hear, Segment, LiveLocals, ReplayLocals;
    var l0, l1, l2 := Stages(l, d, prog, world, fuel);
    var ms := l2.markers;
    GrowsChains(l0, l1, l2);
    LoadedSim(l, r, ms, l2);
    HearSim(l.(markers := []), Preload(r, ms), d.events, d.time, ms);
    var r0 := Hear(Preload(r, ms), d.events, d.time).value;
    GrowsAhead(l1, l2, ms);
    SegmentSim(l0, r0, ms, prog, world, fuel);
    var r1 := Segment(r0, true, prog, world, fuel).value;
    LocalsSim(l1, r1, ms, d.locals, prog, world, fuel);
    assert forall i :: 0 <= i < |l1.markers| ==> ms[i] == l1.markers[i];
    SkipOthers(r1, ms, |l1.markers|, prog, world, fuel);
    SimAtEnd(l2, ReplayLocals(r1, ms, prog, world, fuel).value);
  }

  /** When nothing is left to record, replay knows exactly the versions in force; the drain takes the markers away. */
  lemma SimAtEnd(l: Env, r: Env)
    requires Sim(l, r, l.markers) && Behind(l)
    ensures Same(Close(l), Close(r))
  {
    assert forall c :: c in r.versions ==> c in l.versions;
    assert l.versions == r.versions;
    CloseAgrees(l, r);
  }

  lemma CloseAgrees(l: Env, r: Env)
    requires SameCalls(l, r)
    ensures SameCalls(Close(l), Close(r)) && CallsAgree(Close(r).calls, Close(l).calls)
  {
    DrainAgrees(l.calls.helper, r.calls.helper);
  }

  // ---------------------------------------------------------------- whole runs

  /**
   Whatever decision tasks the run is split into, replaying what was recorded gives the workflow the
   same observations in the same order (side effect values, versions, generated IDs, answers to calls,
   cancelled ones included), hands out the same decisions but for markers and upserts, and leaves the
   same counter, versions, decision machines and callbacks.
   */
  lemma {:induction false} ReplayAgreesWithLive(l: Env, r: Env, ds: seq<Input>, prog: Program, world: Oracle, fuel: nat)
    requires Same(l, r) && LiveRun(l, ds, prog, world, fuel).Some?
    ensures var live := LiveRun(l, ds, prog, world, fuel).value;
            var r' := ReplayRun(r, live.history, prog, world, fuel);
            r'.Some? && Same(live.env, r'.value)
    decreases |ds|
  {
    if ds != [] {
      var l' := LiveDecision(l, ds[0], prog, world, fuel).value;
      var first := Recorded(ds[0].events, ds[0].time, l'.markers);
      DecisionAgrees(l, r, ds[0], prog, world, fuel);
      var r' := ReplayDecision(r, first, prog, world, fuel).value;
      ReplayAgreesWithLive(l', r', ds[1..], prog, world, fuel);
      var rest := LiveRun(l', ds[1..], prog, world, fuel).value.history;
      assert ([first] + rest)[1..] == rest;
    }
  }

  // ---------------------------------------------------------------- losing the cache

  /** An environment a live run cannot tell from another: it does not look at loaded side effects. */
  ghost predicate Like(l: Env, r: Env) {
    SameCalls(l, r) && l.versions == r.versions && l.fx == r.fx && l.markers == r.markers
  }

  /** What works on the left works on the right, with the same result. */
  ghost predicate Follows(l: Option<Env>, r: Option<Env>) { l.Some? ==> r.Some? && Like(l.value, r.value) }

  lemma AnnounceFollows(l: Env, r: Env, changeID: string, version: int)
    requires Like(l, r) && Announce(l, changeID, version).Some?
    ensures Announce(r, changeID, version).Some? &&
            Like(Announce(l, changeID, version).value, Announce(r, changeID, version).value)
  {
    var marker, upsert := DecisionID(Kind.Marker, "Version_" + changeID), changeID + "-" + Decimal(version);
    RecordAgrees(l.calls, r.calls, marker);
    RecordAgrees(RecordIn(l, marker).value.calls, RecordIn(r, marker).value.calls,
                 DecisionID(Kind.UpsertSearchAttributes, upsert));
  }

  lemma VersionFollows(l: Env, r: Env, a: Action)
    requires Like(l, r) && a.GetVersion?
    ensures Follows(AnswerVersion(l, false, a), AnswerVersion(r, false, a))
  {
    hide CallsAgree;
    var v := ChooseVersion(false, a);
    if a.changeID !in l.versions && v != DEFAULT_VERSION && Announce(l, a.changeID, v).Some? {
      AnnounceFollows(l, r, a.changeID, v);
    }
  }

  lemma SideEffectFollows(l: Env, r: Env, world: Oracle)
    requires Like(l, r)
    ensures Follows(AnswerSideEffect(l, false, world), AnswerSideEffect(r, false, world))
  {
    if AnswerSideEffect(l, false, world).Some? {
      RecordAgrees(l.calls, r.calls, DecisionID(Kind.Marker, "SideEffect_" + NewID(l)));
    }
  }

  lemma AnswerFollows(l: Env, r: Env, a: Action, world: Oracle)
    requires Like(l, r)
    ensures Follows(Answer(l, false, a, world), Answer(r, false, a, world))
  {
    hide CallsAgree, Plain, AnswerVersion, AnswerSideEffect;
    if a.GetVersion? {
      VersionFollows(l, r, a);
    } else if a.SideEffect? {
      SideEffectFollows(l, r, world);
    } else if Plain(l, a).Some? {
      PlainAgrees(l, r, a);
      PlainSpares(l, a);
      PlainSpares(r, a);
    }
  }

  lemma {:induction false} SegmentFollows(l: Env, r: Env, prog: Program, world: Oracle, fuel: nat)
    requires Like(l, r)
    ensures Follows(Segment(l, false, prog, world, fuel), Segment(r, false, prog, world, fuel))
    decreases fuel
  {
    hide CallsAgree, Answer;
    if fuel > 0 && !prog(l.obs, l.now).Block? {
      var a := prog(l.obs, l.now);
      AnswerFollows(l, r, a, world);
      if Answer(l, false, a, world).Some? {
        SegmentFollows(Answer(l, false, a, world).value, Answer(r, false, a, world).value, prog, world, fuel - 1);
      }
    }
  }

  lemma MarkedFollows(l: Env, r: Env, d: Local)
    requires Like(l, r)
    ensures Follows(Marked(l, d), Marked(r, d))
  {
    if Marked(l, d).Some? {
      RecordAgrees(l.calls, r.calls, DecisionID(Kind.Marker, "LocalActivity_" + d.activityID));
    }
  }

  lemma {:induction false} LocalsFollow(l: Env, r: Env, locals: seq<Local>, prog: Program, world: Oracle, fuel: nat)
    requires Like(l, r)
    ensures Follows(LiveLocals(l, locals, prog, world, fuel), LiveLocals(r, locals, prog, world, fuel))
    decreases |locals|
  {
    hide CallsAgree, Segment, DeliverLocal;
    if locals != [] {
      if locals[0].activityID !in l.pending {
        LocalsFollow(l, r, locals[1..], prog, world, fuel);
      } else {
        MarkedFollows(l, r, locals[0]);
        if Marked(l, locals[0]).Some? {
          var l1, r1 := Marked(l, locals[0]).value, Marked(r, locals[0]).value;
          SegmentFollows(l1, r1, prog, world, fuel);
          if Segment(l1, false, prog, world, fuel).Some? {
            LocalsFollow(Segment(l1, false, prog, world, fuel).value, Segment(r1, false, prog, world, fuel).value,
                         locals[1..], prog, world, fuel);
          }
        }
      }
    }
  }

  lemma HearFollows(l: Env, r: Env, d: Input)
    requires Like(l, r)
    ensures Follows(Hear(l, d.events, d.time), Hear(r, d.events, d.time))
  {
    hide CallsAgree, Receives;
    ReceivesAgree(l, r, d.events);
    if Receives(l, d.events).Some? {
      ReceivesSpares(l, d.events);
      ReceivesSpares(r, d.events);
    }
  }

  lemma DecisionFollows(l: Env, r: Env, d: Input, prog: Program, world: Oracle, fuel: nat)
    requires Like(l.(markers := []), r.(markers := []))
    ensures Follows(LiveDecision(l, d, prog, world, fuel), LiveDecision(r, d, prog, world, fuel))
  {
    hide CallsAgree, Hear, Segment, LiveLocals, Close;
    HearFollows(l.(markers := []), r.(markers := []), d);
    if LiveDecision(l, d, prog, world, fuel).Some? {
      var l0, r0 := Hear(l.(markers := []), d.events, d.time).value, Hear(r.(markers := []), d.events, d.time).value;
      SegmentFollows(l0, r0, prog, world, fuel);
      var l1, r1 := Segment(l0, false, prog, world, fuel).value, Segment(r0, false, prog, world, fuel).value;
      LocalsFollow(l1, r1, d.locals, prog, world, fuel);
      CloseFollows(LiveLocals(l1, d.locals, prog, world, fuel).value,
          LiveLocals(r1, d.locals, prog, world, fuel).value);
    }
  }

  lemma CloseFollows(l: Env, r: Env)
    requires Like(l, r)
    ensures Like(Close(l), Close(r))
  {
    CloseAgrees(l, r);
  }

  lemma {:induction false} RunFollows(l: Env, r: Env, ds: seq<Input>, prog: Program, world: Oracle, fuel: nat)
    requires Like(l.(markers := []), r.(markers := []))
    ensures var a, b := LiveRun(l, ds, prog, world, fuel), LiveRun(r, ds, prog, world, fuel);
            a.Some? ==> b.Some? && SameView(a.value.env, b.value.env) && a.value.history == b.value.history
    decreases |ds|
  {
    hide CallsAgree, LiveDecision;
    if ds != [] {
      DecisionFollows(l, r, ds[0], prog, world, fuel);
      if LiveDecision(l, ds[0], prog, world, fuel).Some? {
        RunFollows(LiveDecision(l, ds[0], prog, world, fuel).value, LiveDecision(r, ds[0], prog, world, fuel).value,
                   ds[1..], prog, world, fuel);
      }
    }
  }

  /**
   A worker that lost the workflow after any number of decisions and rebuilt it by replay goes on to
   the same observations and decisions, and records the same history, as one that never lost it.
   */
  lemma CacheLossIsInvisible(e: Env, before: seq<Input>, after: seq<Input>, prog: Program, world: Oracle, fuel: nat)
    requires Inv(e.calls.helper) && LiveRun(e, before, prog, world, fuel).Some?
    ensures var live := LiveRun(e, before, prog, world, fuel).value;
            && ReplayRun(e, live.history, prog, world, fuel).Some?
            && var rebuilt := ReplayRun(e, live.history, prog, world, fuel).value.(fx := live.env.fx);
               var a, b := LiveRun(live.env, after, prog, world, fuel), LiveRun(rebuilt, after, prog, world, fuel);
               && (a.Some? <==> b.Some?)
               && (a.Some? ==> SameView(a.value.env, b.value.env) && a.value.history == b.value.history)
  {
    hide CallsAgree, LiveRun, ReplayRun;
    ItselfSame(e);
    ReplayAgreesWithLive(e, e, before, prog, world, fuel);
    var live := LiveRun(e, before, prog, world, fuel).value;
    var rebuilt := ReplayRun(e, live.history, prog, world, fuel).value.(fx := live.env.fx);
    RunFollows(live.env, rebuilt, after, prog, world, fuel);
    RunFollows(rebuilt, live.env, after, prog, world, fuel);
  }

  lemma ItselfSame(e: Env)
    requires Inv(e.calls.helper)
    ensures Same(e, e)
  {
  }
}
