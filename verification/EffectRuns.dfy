/** Effect requests, execution claims and signed results over every run. */
module EffectRuns {
  import opened Models
  import opened Authorization
  import opened Ledger
  import opened Writers
  import opened System

  /** The effect's claims in the order they were made. */
  function ClaimsOf(dispatches: seq<Dispatch>, effect: EffectId): seq<Dispatch> {
    if dispatches == [] then []
    else
      var last := dispatches[|dispatches| - 1];
      ClaimsOf(dispatches[..|dispatches| - 1], effect) + (if last.effect == effect then [last] else [])
  }

  lemma ClaimsAppend(dispatches: seq<Dispatch>, d: Dispatch, effect: EffectId)
    ensures ClaimsOf(dispatches + [d], effect) == ClaimsOf(dispatches, effect) + (if d.effect == effect then [d] else [])
  {
    assert (dispatches + [d])[..|dispatches|] == dispatches;
  }

  lemma {:induction false} ClaimsExact(dispatches: seq<Dispatch>, effect: EffectId)
    ensures forall d :: d in ClaimsOf(dispatches, effect) <==> d in dispatches && d.effect == effect
  {
    if dispatches != [] {
      var n := |dispatches| - 1;
      ClaimsExact(dispatches[..n], effect);
      assert dispatches == dispatches[..n] + [dispatches[n]];
    }
  }

  ghost predicate Numbered(claims: seq<Dispatch>) {
    forall i :: 0 <= i < |claims| ==> claims[i].attempt == i + 1
  }

  lemma NumberedPrefix(before: seq<Dispatch>, claims: seq<Dispatch>)
    requires Numbered(claims) && before <= claims
    ensures Numbered(before)
  {
    assert forall i :: 0 <= i < |before| ==> before[i] == claims[i];
  }

  /** `ORDER BY attempt_number DESC LIMIT 1` is the last claim made. */
  lemma {:induction false} LatestIsLast(dispatches: seq<Dispatch>, effect: EffectId)
    requires Numbered(ClaimsOf(dispatches, effect))
    ensures var claims := ClaimsOf(dispatches, effect);
      LatestDispatch(dispatches, effect) == if claims == [] then None else Some(claims[|claims| - 1])
  {
    if dispatches != [] {
      var n := |dispatches| - 1;
      var claims, before := ClaimsOf(dispatches, effect), ClaimsOf(dispatches[..n], effect);
      NumberedPrefix(before, claims);
      LatestIsLast(dispatches[..n], effect);
    }
  }

  /** The query finds a claim of the effect with the highest attempt, in any table. */
  lemma {:induction false} LatestIsHighest(dispatches: seq<Dispatch>, effect: EffectId)
    ensures var d := LatestDispatch(dispatches, effect);
      if d.Some? then
        d.value in dispatches && d.value.effect == effect
        && forall other :: other in dispatches && other.effect == effect ==> other.attempt <= d.value.attempt
      else forall other :: other in dispatches ==> other.effect != effect
  {
    if dispatches != [] {
      var n := |dispatches| - 1;
      LatestIsHighest(dispatches[..n], effect);
      assert dispatches == dispatches[..n] + [dispatches[n]];
    }
  }

  // ---------------------------------------------------------------- at most once

  /** The claim ended in a signed failure that permits a retry. */
  predicate RetrySafe(results: map<DispatchId, ResultRow>, d: Dispatch) {
    && d.id in results
    && results[d.id].proof.envelope.outcome == EffectFailed && results[d.id].proof.envelope.retryPermitted
  }

  predicate RetriedAfter(results: map<DispatchId, ResultRow>, earlier: Dispatch, later: Dispatch) {
    RetrySafe(results, earlier) && earlier.event < results[earlier.id].event < later.event
  }

  /** Claims are numbered 1..n, and each was made only after the one before it had, in the
      chain, a retry-permitted failure. */
  ghost predicate SafelyRetried(claims: seq<Dispatch>, results: map<DispatchId, ResultRow>) {
    && Numbered(claims)
    && forall i, j :: 0 <= i < |claims| && j == i + 1 < |claims| ==> RetriedAfter(results, claims[i], claims[j])
  }

  predicate MayHaveOccurred(results: map<DispatchId, ResultRow>, d: Dispatch) {
    d.id in results && results[d.id].proof.envelope.mayHaveOccurred
  }

  ghost predicate AtMostOnce(dispatches: seq<Dispatch>, results: map<DispatchId, ResultRow>, effect: EffectId) {
    var claims := ClaimsOf(dispatches, effect);
    && SafelyRetried(claims, results)
    && (forall i :: 0 <= i < |claims| && claims[i].id !in results ==> i == |claims| - 1)
    && (forall i :: 0 <= i < |claims| && MayHaveOccurred(results, claims[i]) ==> i == |claims| - 1)
  }

  /** Only the last claim can be unresolved or may have had its effect. */
  lemma SafeRetriesAreAtMostOnce(dispatches: seq<Dispatch>, results: map<DispatchId, ResultRow>, effect: EffectId)
    requires SafelyRetried(ClaimsOf(dispatches, effect), results)
    requires forall id :: id in results ==> ValidResult(results[id].proof.envelope)
    ensures AtMostOnce(dispatches, results, effect)
  {
    var claims := ClaimsOf(dispatches, effect);
    forall i | 0 <= i < |claims| - 1
      ensures claims[i].id in results && !MayHaveOccurred(results, claims[i])
    {
      var j := i + 1;
      assert RetriedAfter(results, claims[i], claims[j]);
    }
  }

  // ---------------------------------------------------------------- the invariant

  ghost predicate DistinctRequests(requests: seq<EffectRequest>) {
    forall i, j :: 0 <= i < j < |requests| ==>
      requests[i].effect != requests[j].effect && requests[i].packet != requests[j].packet
  }

  ghost predicate DistinctClaims(dispatches: seq<Dispatch>) {
    forall i, j :: 0 <= i < j < |dispatches| ==> dispatches[i].id != dispatches[j].id
  }

  /** The release event carries the authority, the approval and the grant the request names. */
  predicate ReleaseGives(s: Store, r: EffectRequest) {
    && Recorded(s, r.release) && r.packet in s.packets && IsRelease(At(s, r.release), r.packet)
    && var e, row := At(s, r.release), s.packets[r.packet];
       && r.candidate == row.candidate && r.manifest == row.manifest && row.scope == Some(r.scope)
       && e.authentication.Verified? && e.authentication.proof.envelope.principal == r.principal
       && e.authorization.Some? && e.authorization.value.status == Allowed && e.authorization.value.capability == PacketRelease
       && e.authorization.value.grant == Some(r.grant)
       && e.identifiers.PacketIdentifiers? && e.identifiers.approval == r.approval && e.identifiers.approvalEvent == Some(r.approvalEvent)
       && ApprovalNamed(s, r.packet, r.approval, Some(r.approvalEvent))
       && GrantSupports(s, r.grant, r.release, e, Some(r.scope))
  }

  /** The destination comes from the one binding of the packet's scope. */
  predicate BindingGives(s: Store, r: EffectRequest, event: Sequence) {
    exists b :: b in s.bindings && b.id == r.binding && b.scope == r.scope && b.target == r.target && b.credential == r.credential && b.event < event
  }

  predicate RequestKeyed(r: EffectRequest) {
    r.effect == EffectId(r.release, r.binding) && r.key == IdempotencyKey(r.effect, r.release)
  }

  ghost predicate RequestSound(s: Store, r: EffectRequest) {
    && Recorded(s, r.event) && At(s, r.event) == EffectEvent(r) && r.release < r.event
    && RequestKeyed(r) && ReleaseGives(s, r) && BindingGives(s, r, r.event)
  }

  /** Registered once: ids, scopes and targets are all distinct. */
  ghost predicate BindingsDistinct(bindings: seq<Binding>) {
    forall i, j :: 0 <= i < j < |bindings| ==>
      bindings[i].id != bindings[j].id && bindings[i].scope != bindings[j].scope && bindings[i].target != bindings[j].target
  }

  ghost predicate BindingsRecorded(s: Store) {
    forall b :: b in s.bindings ==> Recorded(s, b.event)
  }

  ghost predicate ClaimSound(s: Store, d: Dispatch) {
    && Recorded(s, d.event) && At(s, d.event) == ClaimEvent(d)
    && exists r :: r in s.requests && r.effect == d.effect && RequestHash(r) == d.hash && r.event < d.event
  }

  ghost predicate ResultSound(s: Store, id: DispatchId)
    requires id in s.results
  {
    var row := s.results[id];
    var e := row.proof.envelope;
    && Recorded(s, row.event) && At(s, row.event) == ResultEvent(row.proof)
    && ValidResult(e) && e.dispatch == id
    && e.executor in s.executors && s.executors[e.executor].key == e.executorKey && s.executors[e.executor].event < row.event
    && row.proof.signer == e.executorKey && row.proof.signed == e
    && exists d, r :: d in s.dispatches && d.id == id && d.event < row.event && r in s.requests && ResultBound(e, r, d)
  }

  ghost predicate ExecutorsRecorded(s: Store) {
    forall x :: x in s.executors ==> Recorded(s, s.executors[x].event)
  }

  ghost predicate ExecutorKeysDistinct(executors: map<ExecutorId, Executor>) {
    forall x, y :: x in executors && y in executors && executors[x].key == executors[y].key ==> x == y
  }

  /** No two claims share a result id or a signed result. */
  ghost predicate ResultsDistinct(results: map<DispatchId, ResultRow>) {
    forall a, b :: a in results && b in results && Collides(results[a].proof, results[b].proof) ==> a == b
  }

  ghost predicate EffectInv(s: Store) {
    && DistinctRequests(s.requests) && DistinctClaims(s.dispatches) && ExecutorsRecorded(s)
    && BindingsDistinct(s.bindings) && BindingsRecorded(s) && ExecutorKeysDistinct(s.executors) && ResultsDistinct(s.results)
    && (forall r :: r in s.requests ==> RequestSound(s, r))
    && (forall d :: d in s.dispatches ==> ClaimSound(s, d))
    && (forall id :: id in s.results ==> ResultSound(s, id))
    && (forall effect :: SafelyRetried(ClaimsOf(s.dispatches, effect), s.results))
  }

  // ---------------------------------------------------------------- rows stay sound

  lemma {:induction false} GrantByIdStable(early: seq<GrantRow>, late: seq<GrantRow>, id: GrantId)
    requires early <= late && GrantById(early, id).Some?
    ensures GrantById(late, id) == GrantById(early, id)
  {
    if early[0].id != id { GrantByIdStable(early[1..], late[1..], id); }
  }

  lemma ReleaseGivesStable(s: Store, t: Store, r: EffectRequest)
    requires ReleaseGives(s, r) && Grows(s, t)
    ensures ReleaseGives(t, r)
  {
    hide IsRelease, GrantById;
    assert At(t, r.release) == At(s, r.release);
    GrantByIdStable(s.grants, t.grants, r.grant);
    ApprovalNamedStable(s, t, r.packet, r.approval, Some(r.approvalEvent));
  }

  lemma ApprovalNamedStable(s: Store, t: Store, packet: PacketId, approval: ApprovalId, event: Option<Sequence>)
    requires ApprovalNamed(s, packet, approval, event) && s.approvals <= t.approvals
    ensures ApprovalNamed(t, packet, approval, event)
  {
    var a :| a in s.approvals && a.id == approval && a.packet == packet && a.decision == DecisionApproved && a.event == event.value;
    assert a in t.approvals;
  }

  lemma BindingGivesStable(s: Store, t: Store, r: EffectRequest, event: Sequence)
    requires BindingGives(s, r, event) && s.bindings <= t.bindings
    ensures BindingGives(t, r, event)
  {
    var b :| b in s.bindings && b.id == r.binding && b.scope == r.scope && b.target == r.target && b.credential == r.credential && b.event < event;
    assert b in t.bindings;
  }

  lemma RequestSoundStable(s: Store, t: Store, r: EffectRequest)
    requires RequestSound(s, r) && Grows(s, t)
    ensures RequestSound(t, r)
  {
    hide PolicyRowsLater, ReleaseGives, BindingGives;
    assert At(t, r.event) == At(s, r.event);
    ReleaseGivesStable(s, t, r);
    BindingGivesStable(s, t, r, r.event);
  }

  lemma ClaimSoundStable(s: Store, t: Store, d: Dispatch)
    requires ClaimSound(s, d) && s.log <= t.log && s.requests <= t.requests
    ensures ClaimSound(t, d)
  {
    assert At(t, d.event) == At(s, d.event);
    var r :| r in s.requests && r.effect == d.effect && RequestHash(r) == d.hash && r.event < d.event;
    assert r in t.requests;
  }

  lemma ResultSoundStable(s: Store, t: Store, id: DispatchId)
    requires id in s.results && id in t.results && s.results[id] == t.results[id] && ResultSound(s, id)
    requires s.log <= t.log && s.requests <= t.requests && s.dispatches <= t.dispatches && MapGrows(s.executors, t.executors)
    ensures ResultSound(t, id)
  {
    hide ValidResult, ResultBound;
    var row := s.results[id];
    assert At(t, row.event) == At(s, row.event);
    var d, r :| d in s.dispatches && d.id == id && d.event < row.event && r in s.requests && ResultBound(row.proof.envelope, r, d);
    assert d in t.dispatches && r in t.requests;
  }

  lemma OldEffectsSound(s: Store, t: Store)
    requires EffectInv(s) && Grows(s, t)
    ensures forall r :: r in s.requests ==> RequestSound(t, r)
    ensures forall d :: d in s.dispatches ==> ClaimSound(t, d)
    ensures forall id :: id in s.results ==> id in t.results && ResultSound(t, id)
  {
    hide RequestSound, ClaimSound, ResultSound, PolicyRowsLater;
    forall r | r in s.requests ensures RequestSound(t, r) { RequestSoundStable(s, t, r); }
    forall d | d in s.dispatches ensures ClaimSound(t, d) { ClaimSoundStable(s, t, d); }
    forall id | id in s.results ensures id in t.results && ResultSound(t, id) { ResultSoundStable(s, t, id); }
  }

  lemma SafelyRetriedStable(claims: seq<Dispatch>, results: map<DispatchId, ResultRow>, more: map<DispatchId, ResultRow>)
    requires SafelyRetried(claims, results) && MapGrows(results, more)
    ensures SafelyRetried(claims, more)
  {
    forall i, j | 0 <= i < |claims| && j == i + 1 < |claims|
      ensures RetriedAfter(more, claims[i], claims[j])
    {
      assert RetriedAfter(results, claims[i], claims[j]);
    }
  }

  lemma FrameKeepsEffects(s: Store, t: Store)
    requires EffectInv(s) && Grows(s, t) && SameEffects(s, t)
    ensures EffectInv(t)
  {
    hide RequestSound, ClaimSound, ResultSound, SafelyRetried, DistinctRequests, DistinctClaims;
    OldEffectsSound(s, t);
  }

  // ---------------------------------------------------------------- each transaction

  lemma BindingAdded(s: Store, t: Store, b: Binding)
    requires BindingsDistinct(s.bindings) && BindingsRecorded(s) && s.log <= t.log && |s.log| < |t.log|
    requires t.bindings == s.bindings + [b] && b.event == NextSequence(s)
    requires forall other :: other in s.bindings ==> other.id != b.id && other.scope != b.scope && other.target != b.target
    ensures BindingsDistinct(t.bindings) && BindingsRecorded(t)
  {
    forall i | 0 <= i < |s.bindings| ensures s.bindings[i] in s.bindings {}
  }

  lemma ManagementRows(s: Store, t: Store, proof: SignedOperation)
    requires EffectInv(s)
    requires proof.envelope.BindingEnvelope? || proof.envelope.ExecutorEnvelope?
    requires CommitManagement(s, proof) == Some(t)
    ensures BindingsDistinct(t.bindings) && BindingsRecorded(t) && ExecutorsRecorded(t) && ExecutorKeysDistinct(t.executors)
    ensures t.requests == s.requests && t.dispatches == s.dispatches && t.results == s.results
  {
    hide RequestSound, ClaimSound, ResultSound, SafelyRetried, DistinctRequests, DistinctClaims, BindingsDistinct, ResultsDistinct,
         ManagementDecision, Consumable, ManagementEvent, BindingsRecorded, ExecutorsRecorded, ExecutorKeysDistinct, AlreadyRegistered;
    var v := proof.envelope;
    if ManagementDecision(s, v).status == Allowed { NotRegistered(s, v); }
    if t.bindings != s.bindings {
      BindingAdded(s, t, t.bindings[|s.bindings|]);
    } else {
      RecordedLater(s, t);
    }
    if t.executors != s.executors { ExecutorAdded(s, t, v.executor, t.executors[v.executor]); } else { ExecutorsLater(s, t); }
  }

  lemma NotRegistered(s: Store, v: Envelope)
    requires v.BindingEnvelope? || v.ExecutorEnvelope?
    requires ManagementDecision(s, v).status == Allowed
    ensures v.BindingEnvelope? ==> forall b :: b in s.bindings ==> b.scope != v.bindingScope && b.target != v.target
    ensures v.ExecutorEnvelope? ==> v.executor !in s.executors && forall x :: x in s.executors ==> s.executors[x].key != v.executorKey
  {
    hide Evaluate;
  }

  lemma RecordedLater(s: Store, t: Store)
    requires BindingsRecorded(s) && t.bindings == s.bindings && |s.log| <= |t.log|
    ensures BindingsRecorded(t)
  {
  }

  lemma ExecutorsLater(s: Store, t: Store)
    requires ExecutorsRecorded(s) && t.executors == s.executors && |s.log| <= |t.log|
    ensures ExecutorsRecorded(t)
  {
  }

  lemma ExecutorAdded(s: Store, t: Store, id: ExecutorId, x: Executor)
    requires ExecutorsRecorded(s) && ExecutorKeysDistinct(s.executors) && |s.log| <= |t.log|
    requires id !in s.executors && t.executors == s.executors[id := x] && Recorded(t, x.event)
    requires forall y :: y in s.executors ==> s.executors[y].key != x.key
    ensures ExecutorsRecorded(t) && ExecutorKeysDistinct(t.executors)
  {
  }

  lemma ManagementKeepsEffects(s: Store, t: Store, proof: SignedOperation)
    requires EffectInv(s) && Grows(s, t)
    requires proof.envelope.BindingEnvelope? || proof.envelope.ExecutorEnvelope?
    requires CommitManagement(s, proof) == Some(t)
    ensures EffectInv(t)
  {
    hide RequestSound, ClaimSound, ResultSound, SafelyRetried, DistinctRequests, DistinctClaims, BindingsDistinct, BindingsRecorded,
         ExecutorsRecorded, ExecutorKeysDistinct, ResultsDistinct, CommitManagement, Grows;
    ManagementRows(s, t, proof);
    OldEffectsSound(s, t);
  }

  lemma {:induction false} RequestOfNone(requests: seq<EffectRequest>, packet: PacketId)
    ensures RequestOf(requests, packet).None? ==> forall r :: r in requests ==> r.packet != packet
    ensures var r := RequestOf(requests, packet); r.Some? ==> r.value in requests && r.value.packet == packet
  {
    if requests != [] {
      var n := |requests| - 1;
      RequestOfNone(requests[..n], packet);
      assert requests == requests[..n] + [requests[n]];
    }
  }

  lemma {:induction false} RequestByIdFinds(requests: seq<EffectRequest>, effect: EffectId)
    ensures var r := RequestById(requests, effect); r.Some? ==> r.value in requests && r.value.effect == effect
  {
    if requests != [] && requests[0].effect != effect { RequestByIdFinds(requests[1..], effect); }
  }

  lemma {:induction false} DispatchByIdFinds(dispatches: seq<Dispatch>, id: DispatchId)
    ensures var d := DispatchById(dispatches, id);
      if d.Some? then d.value in dispatches && d.value.id == id else forall other :: other in dispatches ==> other.id != id
  {
    if dispatches != [] && dispatches[0].id != id { DispatchByIdFinds(dispatches[1..], id); }
  }

  /** The query finds the packet's last accepted release event, if it has one. */
  lemma {:induction false} LatestReleaseExact(log: seq<Event>, packet: PacketId)
    ensures var r := LatestRelease(log, packet);
      && r <= |log| && (r > 0 ==> IsRelease(log[r - 1], packet))
      && forall i :: 0 <= i < |log| && IsRelease(log[i], packet) ==> i < r
  {
    if log != [] {
      var n := |log| - 1;
      LatestReleaseExact(log[..n], packet);
      assert forall i :: 0 <= i < n ==> log[..n][i] == log[i];
    }
  }

  lemma {:induction false} BindingOfFinds(bindings: seq<Binding>, scope: Scope)
    ensures var b := BindingOf(bindings, scope);
      if b.Some? then b.value in bindings && b.value.scope == scope else forall other :: other in bindings ==> other.scope != scope
  {
    if bindings != [] && bindings[0].scope != scope { BindingOfFinds(bindings[1..], scope); }
  }

  /** What creating a request finds true of its packet. */
  predicate Requestable(s: Store, r: EffectRequest) {
    && RequestInsertable(s, r) && r.event == NextSequence(s)
    && RequestKeyed(r) && ReleaseGives(s, r) && BindingGives(s, r, r.event)
  }

  lemma CreationGuard(s: Store, packet: PacketId, row: Packet, first: Artifacts)
    requires EffectInv(s) && packet in s.packets && s.packets[packet] == row && first.manifest == row.manifest
    requires DeriveEffect(s, packet, row, first).Created?
    ensures var out := DeriveEffect(s, packet, row, first);
      out.store == RequestedStore(s, out.request) && out.request.packet == packet && Requestable(s, out.request)
  {
    hide GrantSupports, RequestInsertable, BindingOf, EffectEvent, IsRelease, LatestRelease, RequestSound, ClaimSound, ResultSound,
         SafelyRetried, DistinctRequests, DistinctClaims, BindingsDistinct, ExecutorsRecorded;
    LatestReleaseExact(s.log, packet);
    var r := DeriveEffect(s, packet, row, first).request;
    BindingOfFinds(s.bindings, row.scope.value);
    assert ReleaseGives(s, r);
    assert BindingGives(s, r, r.event);
  }

  lemma CreationKeepsEffects(s: Store, r: EffectRequest)
    requires EffectInv(s) && Requestable(s, r) && (forall other :: other in s.requests ==> other.packet != r.packet)
    requires Grows(s, RequestedStore(s, r))
    ensures EffectInv(RequestedStore(s, r))
  {
    hide RequestSound, ClaimSound, ResultSound, SafelyRetried, DistinctClaims, Grows, EffectEvent, IsRelease, ReleaseGives, BindingGives,
         BindingsDistinct;
    var t := RequestedStore(s, r);
    OldEffectsSound(s, t);
    assert RequestSound(t, r) by { NewRequestSound(s, r); }
  }

  lemma NewRequestSound(s: Store, r: EffectRequest)
    requires Requestable(s, r) && Grows(s, RequestedStore(s, r))
    ensures RequestSound(RequestedStore(s, r), r)
  {
    hide RequestInsertable, ReleaseGives, BindingGives, Grows;
    var t := RequestedStore(s, r);
    ReleaseGivesStable(s, t, r);
    BindingGivesStable(s, t, r, r.event);
    ReleaseEarlier(s, r);
    assert At(t, r.event) == EffectEvent(r);
  }

  lemma ReleaseEarlier(s: Store, r: EffectRequest)
    requires ReleaseGives(s, r)
    ensures r.release <= |s.log|
  {
  }

  /** What a claim finds true of its effect. */
  ghost predicate Claimable(s: Store, d: Dispatch, r: EffectRequest) {
    && d.hash == RequestHash(r) && d.event == NextSequence(s) && r in s.requests && r.effect == d.effect
    && var claims := ClaimsOf(s.dispatches, d.effect);
       d.attempt == |claims| + 1 && (claims != [] ==> RetrySafe(s.results, claims[|claims| - 1]))
  }

  lemma ClaimGuard(s: Store, effect: EffectId, id: DispatchId)
    requires EffectInv(s) && ClaimExternalEffect(s, effect, id).Some?
    ensures exists d, r :: ClaimExternalEffect(s, effect, id) == Some(ClaimedStore(s, d)) && d.id == id && Claimable(s, d, r)
    ensures forall other :: other in s.dispatches ==> other.id != id
  {
    hide RequestSound, ClaimSound, ResultSound, DistinctRequests, DistinctClaims, ClaimedStore, ExecutorsRecorded;
    assert Numbered(ClaimsOf(s.dispatches, effect)) by { assert SafelyRetried(ClaimsOf(s.dispatches, effect), s.results); }
    LatestIsLast(s.dispatches, effect);
    RequestByIdFinds(s.requests, effect);
    DispatchByIdFinds(s.dispatches, id);
    var r := RequestById(s.requests, effect).value;
    var d := NewDispatch(s, r, LatestDispatch(s.dispatches, effect), id);
    assert ClaimExternalEffect(s, effect, id) == Some(ClaimedStore(s, d)) && d.id == id && Claimable(s, d, r);
  }

  lemma ClaimKeepsRetries(s: Store, d: Dispatch, effect: EffectId)
    requires EffectInv(s) && d.event == NextSequence(s)
    requires var claims := ClaimsOf(s.dispatches, d.effect);
      d.attempt == |claims| + 1 && (claims != [] ==> RetrySafe(s.results, claims[|claims| - 1]))
    ensures SafelyRetried(ClaimsOf(ClaimedStore(s, d).dispatches, effect), s.results)
  {
    hide RequestSound, ClaimSound, DistinctRequests, DistinctClaims, ExecutorsRecorded, ClaimsOf;
    ClaimsAppend(s.dispatches, d, effect);
    assert SafelyRetried(ClaimsOf(s.dispatches, effect), s.results);
    if d.effect == effect && ClaimsOf(s.dispatches, effect) != [] {
      var claims := ClaimsOf(s.dispatches, effect);
      var last := claims[|claims| - 1];
      ClaimsExact(s.dispatches, effect);
      assert last in claims;
      ResolvedClaim(s, last);
    }
  }

  /** A resolved claim was made before its result, and both are in the log. */
  lemma ResolvedClaim(s: Store, d: Dispatch)
    requires EffectInv(s) && d in s.dispatches && d.id in s.results
    ensures d.event < s.results[d.id].event <= |s.log|
    ensures s.results[d.id].proof.envelope.effect == d.effect
  {
    hide RequestSound, ClaimSound, DistinctRequests, SafelyRetried, ValidResult;
    assert ResultSound(s, d.id);
    var other, r :| other in s.dispatches && other.id == d.id && other.event < s.results[d.id].event && r in s.requests
      && ResultBound(s.results[d.id].proof.envelope, r, other);
    assert other == d;
  }

  lemma NewClaimSound(s: Store, d: Dispatch, r: EffectRequest)
    requires EffectInv(s) && r in s.requests && r.effect == d.effect && d.hash == RequestHash(r) && d.event == NextSequence(s)
    ensures ClaimSound(ClaimedStore(s, d), d)
  {
    hide ClaimSound, ResultSound, SafelyRetried;
    assert RequestSound(s, r);
    ClaimRowSound(ClaimedStore(s, d), d, r);
  }

  lemma ClaimRowSound(t: Store, d: Dispatch, r: EffectRequest)
    requires Recorded(t, d.event) && At(t, d.event) == ClaimEvent(d)
    requires r in t.requests && r.effect == d.effect && d.hash == RequestHash(r) && r.event < d.event
    ensures ClaimSound(t, d)
  {
  }

  lemma ClaimKeepsEffects(s: Store, effect: EffectId, id: DispatchId)
    requires EffectInv(s) && ClaimExternalEffect(s, effect, id).Some?
    requires Grows(s, ClaimExternalEffect(s, effect, id).value)
    ensures EffectInv(ClaimExternalEffect(s, effect, id).value)
  {
    hide RequestSound, ClaimSound, ResultSound, SafelyRetried, DistinctRequests, Grows, ClaimExternalEffect, RetrySafe;
    ClaimGuard(s, effect, id);
    var d, r :| ClaimExternalEffect(s, effect, id) == Some(ClaimedStore(s, d)) && d.id == id && Claimable(s, d, r);
    var t := ClaimedStore(s, d);
    OldEffectsSound(s, t);
    NewClaimSound(s, d, r);
    forall other ensures SafelyRetried(ClaimsOf(t.dispatches, other), t.results) { ClaimKeepsRetries(s, d, other); }
  }

  lemma NewResultSound(s: Store, proof: SignedResult)
    requires EffectInv(s) && RecordExecutorResult(s, proof).Some? && proof.envelope.dispatch !in s.results
    ensures ResultSound(RecordedStore(s, proof), proof.envelope.dispatch)
  {
    hide RequestSound, ResultSound, SafelyRetried, ValidResult, ResultBound, ResultEvent, DistinctRequests, DistinctClaims;
    var e := proof.envelope;
    DispatchByIdFinds(s.dispatches, e.dispatch);
    RequestByIdFinds(s.requests, e.effect);
    var d, r := DispatchById(s.dispatches, e.dispatch).value, RequestById(s.requests, e.effect).value;
    assert ClaimSound(s, d);
    ResultRowSound(RecordedStore(s, proof), proof, d, r);
  }

  lemma ResultRowSound(t: Store, proof: SignedResult, d: Dispatch, r: EffectRequest)
    requires var e := proof.envelope;
      && e.dispatch in t.results && t.results[e.dispatch] == ResultRow(proof, |t.log|) && |t.log| > 0
      && t.log[|t.log| - 1] == ResultEvent(proof) && ValidResult(e)
      && e.executor in t.executors && t.executors[e.executor].key == e.executorKey && t.executors[e.executor].event < |t.log|
      && proof.signer == e.executorKey && proof.signed == e
      && d in t.dispatches && d.id == e.dispatch && d.event < |t.log| && r in t.requests && ResultBound(e, r, d)
    ensures ResultSound(t, proof.envelope.dispatch)
  {
  }

  lemma ResultAdded(s: Store, proof: SignedResult)
    requires ResultsDistinct(s.results) && RecordExecutorResult(s, proof).Some? && proof.envelope.dispatch !in s.results
    ensures ResultsDistinct(RecordedStore(s, proof).results)
  {
    hide ResultBound, ValidResult, DispatchById, RequestById, ResultEvent;
  }

  lemma ResultKeepsEffects(s: Store, proof: SignedResult)
    requires EffectInv(s) && RecordExecutorResult(s, proof).Some?
    requires Grows(s, RecordExecutorResult(s, proof).value)
    ensures EffectInv(RecordExecutorResult(s, proof).value)
  {
    hide RequestSound, ClaimSound, ResultSound, SafelyRetried, DistinctRequests, DistinctClaims, Grows, ValidResult, ResultBound, Collides,
         ResultsDistinct, BindingsDistinct, ExecutorKeysDistinct;
    if proof.envelope.dispatch !in s.results {
      var t := RecordedStore(s, proof);
      OldEffectsSound(s, t);
      NewResultSound(s, proof);
      ResultAdded(s, proof);
      forall effect
        ensures SafelyRetried(ClaimsOf(t.dispatches, effect), t.results)
      {
        SafelyRetriedStable(ClaimsOf(s.dispatches, effect), s.results, t.results);
      }
    }
  }

  /** Submitting a recorded result again changes nothing, and no other result of the same claim
      is ever accepted. */
  lemma ResubmissionIdempotent(s: Store, proof: SignedResult, t: Store, other: SignedResult)
    requires RecordExecutorResult(s, proof) == Some(t) && other.envelope.dispatch == proof.envelope.dispatch
    ensures RecordExecutorResult(t, proof) == Some(t)
    ensures other != proof ==> RecordExecutorResult(t, other).None?
  {
    hide ValidResult, ResultBound, Collides, DispatchById, RequestById;
  }

  /** Every committed transaction keeps the effect invariant. */
  lemma EffectsKept(s: Store, files: Files, p: Pending)
    requires EffectInv(s) && Typed(p)
    ensures EffectInv(Outcome(s, files, p))
  {
    hide EffectInv, CommitAuthority, CommitCandidate, CommitPacketStep, CommitPolicy, CommitManagement, CommitRejection,
         CommitPolicyBindingRejection, DeriveEffect, ClaimExternalEffect, RecordExecutorResult, Grows;
    var t := Outcome(s, files, p);
    CommitShape(s, files, p);
    match p
    case ManagementCommit(proof) => if CommitManagement(s, proof).Some? { ManagementKeepsEffects(s, t, proof); }
    case EffectCreation(packet, first) =>
      if CreateExternalEffect(s, files, packet, first).Created? {
        CreationGuard(s, packet, s.packets[packet], first);
        RequestOfNone(s.requests, packet);
        CreationKeepsEffects(s, CreateExternalEffect(s, files, packet, first).request);
      }
    case ClaimCommit(effect, dispatch) => if ClaimExternalEffect(s, effect, dispatch).Some? { ClaimKeepsEffects(s, effect, dispatch); }
    case ResultCommit(result) => if RecordExecutorResult(s, result).Some? { ResultKeepsEffects(s, result); }
    case _ => FrameKeepsEffects(s, t);
  }
}
