/** When effect requests, claims and results are granted, for every reachable store, and what the
    transaction then adds (external_effects.py). */
module EffectProgress {
  import opened Models
  import opened Authorization
  import opened Ledger
  import opened Writers
  import opened System
  import opened EffectRuns
  import opened EffectCreations
  import opened EffectExecutor
  import opened Runs
  import PolicyRuns

  /** The transaction appended this one event and changed nothing else but what is listed. */
  predicate AppendsAccepted(s: Store, t: Store, command: Command, request: EffectRequest, identifiers: Identifiers) {
    && |t.log| == |s.log| + 1 && s.log <= t.log
    && var e := t.log[|s.log|];
       e.accepted && e.command == command && e.governed == Request(RequestHash(request)) && e.identifiers == identifiers
       && e.authentication.Unauthenticated? && e.authorization.None?
  }

  // ---------------------------------------------------------------- requests

  predicate NoRequest(s: Store, packet: PacketId) {
    forall r :: r in s.requests ==> r.packet != packet
  }

  lemma RequestLooks(s: Store, packet: PacketId)
    ensures RequestOf(s.requests, packet).None? <==> NoRequest(s, packet)
  {
    hide RequestOf;
    RequestOfNone(s.requests, packet);
  }

  /** A packet that is not released gets no request. */
  lemma UnreleasedRefused(s: Store, files: Files, packet: PacketId, first: Artifacts)
    ensures CreateExternalEffect(s, files, packet, first) == NotReleased <==>
      packet !in s.packets || s.packets[packet].state != WorkflowState.Released
  {
    hide DeriveEffect, Recompute, RequestOf;
    if packet in s.packets { DerivationReleased(s, packet, s.packets[packet], first); }
  }

  lemma DerivationReleased(s: Store, packet: PacketId, row: Packet, first: Artifacts)
    ensures var out := DeriveEffect(s, packet, row, first); out != NotReleased && out != ArtifactsChanged && !out.Existing?
  {
    hide LatestRelease, GrantSupports, ApprovalNamed, BindingOf, RequestInsertable;
  }

  /** Files that change before the transaction are noticed: in any store, a released packet without
      a request ends with its artifacts changed iff the directory the transaction finds does not
      hold, intact, what was recomputed before it, or that is not the packet's manifest. */
  lemma ChangedFilesRefused(s: Store, files: Files, packet: PacketId, first: Artifacts)
    requires packet in s.packets && s.packets[packet].state == WorkflowState.Released && NoRequest(s, packet)
    ensures CreateExternalEffect(s, files, packet, first) == ArtifactsChanged <==>
      !IntactFiles(files, packet, s.packets[packet], first) || first.manifest != s.packets[packet].manifest
  {
    hide DeriveEffect, Recompute, RequestOf;
    RequestLooks(s, packet);
    RecomputeExact(files, packet, s.packets[packet]);
    DerivationReleased(s, packet, s.packets[packet], first);
  }

  /** The packet's latest request row. */
  predicate LatestRequest(s: Store, packet: PacketId, i: int) {
    && 0 <= i < |s.requests| && s.requests[i].packet == packet
    && forall j :: i < j < |s.requests| ==> s.requests[j].packet != packet
  }

  lemma {:induction false} RequestOfLatest(requests: seq<EffectRequest>, packet: PacketId)
    ensures var r := RequestOf(requests, packet);
      r.Some? ==> exists i :: 0 <= i < |requests| && requests[i] == r.value && r.value.packet == packet
                    && forall j :: i < j < |requests| ==> requests[j].packet != packet
  {
    if requests != [] {
      var n := |requests| - 1;
      RequestOfLatest(requests[..n], packet);
      if requests[n].packet != packet && RequestOf(requests[..n], packet).Some? {
        var i :| 0 <= i < n && requests[..n][i] == RequestOf(requests[..n], packet).value
          && forall j :: i < j < n ==> requests[..n][j].packet != packet;
        assert forall j :: i < j < |requests| && j < n ==> requests[j] == requests[..n][j];
      }
    }
  }

  /** An existing request is returned, in any store, iff it names what was recomputed and the
      packet's manifest; otherwise the artifacts have changed. Nothing is added either way. */
  lemma ExistingReturned(s: Store, files: Files, packet: PacketId, first: Artifacts, i: int)
    requires packet in s.packets && s.packets[packet].state == WorkflowState.Released && LatestRequest(s, packet, i)
    ensures var r := s.requests[i];
      CreateExternalEffect(s, files, packet, first) ==
      if first == Artifacts(r.manifest, r.receipt) && r.manifest == s.packets[packet].manifest then Existing(r) else ArtifactsChanged
  {
    hide DeriveEffect, Recompute, RequestOf;
    RequestOfLatest(s.requests, packet);
    RequestOfNone(s.requests, packet);
    assert s.requests[i] in s.requests;
  }

  /** Every request names the files its own transaction found: whichever commit of whichever
      system adds a request, the packet's directory was intact then, with the request's manifest
      and packet receipt, and the manifest was the released packet's. */
  lemma RequestsNameTheirFiles(y: System, w: WriterId, files: Files)
    requires Next(y, CommitStep(w, files)).store.requests != y.store.requests
    ensures exists r :: Next(y, CommitStep(w, files)).store.requests == y.store.requests + [r] && MadeFrom(y.store, files, r)
  {
    hide CommitAuthority, CommitRejection, CommitPolicy, CommitPolicyBindingRejection, CommitManagement, CommitCandidate, CommitPacketStep,
         CreateExternalEffect, ClaimExternalEffect, RecordExecutorResult, Grows, MadeFrom, Typed;
    var p := y.pending[w];
    OnlyCreationRequests(y.store, files, p);
    CreatedFrom(y.store, files, p.packet, p.first);
    var out := CreateExternalEffect(y.store, files, p.packet, p.first);
    assert out.store.requests == y.store.requests + [out.request];
  }

  lemma OnlyCreationRequests(s: Store, files: Files, p: Pending)
    ensures !p.EffectCreation? ==> Outcome(s, files, p).requests == s.requests
  {
    hide CommitAuthority, CommitRejection, CommitPolicy, CommitPolicyBindingRejection, CommitCandidate, CommitPacketStep, CommitManagement,
         CreateExternalEffect, ClaimExternalEffect, RecordExecutorResult, Grows;
    if Typed(p) {
      CommitShape(s, files, p);
      match p
      case ManagementCommit(proof) => RegistrationRequestsNothing(s, proof);
      case ClaimCommit(effect, dispatch) => ClaimRequestsNothing(s, effect, dispatch);
      case ResultCommit(result) => ResultRequestsNothing(s, result);
      case _ =>
    }
  }

  lemma RegistrationRequestsNothing(s: Store, proof: SignedOperation)
    requires proof.envelope.BindingEnvelope? || proof.envelope.ExecutorEnvelope?
    ensures var t := CommitManagement(s, proof); t.Some? ==> t.value.requests == s.requests
  {
    hide ManagementDecision, Consumable, ManagementEvent;
  }

  lemma ClaimRequestsNothing(s: Store, effect: EffectId, id: DispatchId)
    ensures var t := ClaimExternalEffect(s, effect, id); t.Some? ==> t.value.requests == s.requests
  {
    hide LatestDispatch, RequestById, DispatchById, ClaimEvent;
  }

  lemma ResultRequestsNothing(s: Store, proof: SignedResult)
    ensures var t := RecordExecutorResult(s, proof); t.Some? ==> t.value.requests == s.requests
  {
    hide ResultEvent, ResultBound, ValidResult, RequestById, DispatchById, Collides;
  }

  predicate MadeFrom(s: Store, files: Files, r: EffectRequest) {
    && r.packet in s.packets && s.packets[r.packet].state == WorkflowState.Released && s.packets[r.packet].manifest == r.manifest
    && IntactFiles(files, r.packet, s.packets[r.packet], Artifacts(r.manifest, r.receipt))
  }

  lemma CreatedFrom(s: Store, files: Files, packet: PacketId, first: Artifacts)
    ensures var out := CreateExternalEffect(s, files, packet, first);
      out.Created? ==> out.store.requests == s.requests + [out.request] && MadeFrom(s, files, out.request)
  {
    hide DeriveEffect, Recompute, RequestOf;
    if packet in s.packets {
      RecomputeExact(files, packet, s.packets[packet]);
      DerivationReleased(s, packet, s.packets[packet], first);
      DerivedFrom(s, packet, s.packets[packet], first);
    }
  }

  lemma DerivedFrom(s: Store, packet: PacketId, row: Packet, first: Artifacts)
    ensures var out := DeriveEffect(s, packet, row, first);
      out.Created? ==> out.store.requests == s.requests + [out.request] && out.request.packet == packet
                       && out.request.manifest == first.manifest && out.request.receipt == first.receipt
  {
    hide LatestRelease, GrantSupports, ApprovalNamed, BindingOf, RequestInsertable;
  }

  /** The event is the packet's last accepted release. */
  predicate LastRelease(log: seq<Event>, packet: PacketId, k: Sequence) {
    && 1 <= k <= |log| && ReleaseOf(log[k - 1], packet)
    && forall j :: k <= j < |log| ==> !ReleaseOf(log[j], packet)
  }

  predicate ReleaseOf(e: Event, packet: PacketId) {
    e.accepted && e.command == Authority(Release) && e.packet == Some(packet) && e.resulting == Some(WorkflowState.Released)
  }

  /** Everything a new request rests on: its packet's last release, allowed under a grant for its
      exact scope and states, made before it and not revoked by then, the approved decision the
      release names, and a binding of the scope. */
  predicate Supported(s: Store, r: EffectRequest)
    requires r.packet in s.packets
  {
    && LastRelease(s.log, r.packet, r.release) && s.packets[r.packet].scope == Some(r.scope) && s.packets[r.packet].candidate == r.candidate
    && var e := s.log[r.release - 1];
       && e.authorization.Some? && e.authorization.value.status == Allowed && e.authorization.value.capability == PacketRelease
       && e.authorization.value.grant == Some(r.grant)
       && e.authentication.Verified? && e.authentication.proof.envelope.principal == r.principal
       && e.identifiers.PacketIdentifiers? && e.identifiers.approval == r.approval && e.identifiers.approvalEvent == Some(r.approvalEvent)
  }

  predicate Evidenced(s: Store, r: EffectRequest) {
    && (exists a :: a in s.approvals && a.id == r.approval && a.packet == r.packet && a.decision == DecisionApproved && a.event == r.approvalEvent)
    && (exists g :: g in s.grants && g.id == r.grant && g.subject == r.principal && g.capability == PacketRelease
          && g.prior == Some(WorkflowState.Approved) && g.requested == Some(WorkflowState.Released) && g.scope == Exact(r.scope) && g.event < r.release)
    && (r.grant in s.revocations ==> s.revocations[r.grant].event > r.release)
    && (exists b :: b in s.bindings && b.id == r.binding && b.scope == r.scope && b.target == r.target && b.credential == r.credential)
  }

  /** No request has its effect, its release, its key, or its hash. */
  predicate Unique(s: Store, r: EffectRequest) {
    forall other :: other in s.requests ==> other.effect != r.effect && other.release != r.release && other.key != r.key && other != r
  }

  lemma LatestIsLastRelease(log: seq<Event>, packet: PacketId)
    ensures var k := LatestRelease(log, packet); 1 <= k <= |log| ==> LastRelease(log, packet, k)
  {
    hide LatestRelease;
    LatestReleaseExact(log, packet);
    forall j | 0 <= j < |log| ensures ReleaseOf(log[j], packet) <==> IsRelease(log[j], packet) {}
  }

  /** In any tables, a request is created only on complete evidence, only once, and names exactly
      what it rests on; its own row and event are all it adds. */
  lemma CreatedOnEvidence(s: Store, files: Files, packet: PacketId, first: Artifacts)
    ensures var out := CreateExternalEffect(s, files, packet, first);
      out.Created? ==>
        var r := out.request;
        && r.packet == packet && packet in s.packets && Supported(s, r) && Evidenced(s, r) && Unique(s, r)
        && r.effect == EffectId(r.release, r.binding) && r.key == IdempotencyKey(r.effect, r.release) && r.event == |s.log| + 1
        && out.store == s.(log := out.store.log, requests := s.requests + [r])
        && AppendsAccepted(s, out.store, CreateEffect, r, EffectIdentifiers(r))
  {
    hide DeriveEffect, Recompute, RequestOf, Supported, Evidenced, Unique;
    if packet in s.packets {
      DerivationReleased(s, packet, s.packets[packet], first);
      DerivedOnEvidence(s, packet, s.packets[packet], first);
    }
  }

  lemma DerivedOnEvidence(s: Store, packet: PacketId, row: Packet, first: Artifacts)
    requires packet in s.packets && s.packets[packet] == row
    ensures var out := DeriveEffect(s, packet, row, first);
      out.Created? ==>
        var r := out.request;
        && r.packet == packet && Supported(s, r) && Evidenced(s, r) && Unique(s, r)
        && r.effect == EffectId(r.release, r.binding) && r.key == IdempotencyKey(r.effect, r.release) && r.event == |s.log| + 1
        && out.store == s.(log := out.store.log, requests := s.requests + [r])
        && AppendsAccepted(s, out.store, CreateEffect, r, EffectIdentifiers(r))
  {
    hide LatestRelease, BindingOf, GrantById, IsRelease;
    LatestIsLastRelease(s.log, packet);
    var out := DeriveEffect(s, packet, row, first);
    if out.Created? {
      PolicyRuns.GrantByIdFinds(s.grants, out.request.grant);
      BindingOfFinds(s.bindings, row.scope.value);
    }
  }

  // ---------------------------------------------------------------- claims

  predicate HasRequest(s: Store, effect: EffectId) {
    exists r :: r in s.requests && r.effect == effect
  }

  predicate UnusedClaim(s: Store, id: DispatchId) {
    forall d :: d in s.dispatches ==> d.id != id
  }

  /** The effect has no claim yet, or its last one ended in a failure that permits a retry. */
  predicate ClaimDue(s: Store, effect: EffectId) {
    var claims := ClaimsOf(s.dispatches, effect);
    claims != [] ==>
      var last := claims[|claims| - 1];
      && last.id in s.results
      && var e := s.results[last.id].proof.envelope; e.outcome == EffectFailed && e.retryPermitted
  }

  /** One claim more, numbered next, of exactly this request. */
  predicate ClaimAdded(s: Store, t: Store, r: EffectRequest, id: DispatchId) {
    var attempt := |ClaimsOf(s.dispatches, r.effect)| + 1;
    && t == s.(log := t.log, dispatches := s.dispatches + [Dispatch(id, r.effect, RequestHash(r), attempt, |s.log| + 1)])
    && AppendsAccepted(s, t, ClaimEffect, r, DispatchIdentifiers(r.effect, id, attempt))
  }

  lemma ClaimLooks(s: Store, effect: EffectId, id: DispatchId)
    requires EffectInv(s)
    ensures RequestById(s.requests, effect).Some? <==> HasRequest(s, effect)
    ensures var r := RequestById(s.requests, effect); r.Some? ==> r.value in s.requests && r.value.effect == effect
    ensures DispatchById(s.dispatches, id).None? <==> UnusedClaim(s, id)
    ensures var claims := ClaimsOf(s.dispatches, effect);
      LatestDispatch(s.dispatches, effect) == if claims == [] then None else Some(claims[|claims| - 1])
    ensures Numbered(ClaimsOf(s.dispatches, effect))
  {
    hide RequestSound, ClaimSound, ResultSound, DistinctRequests, DistinctClaims, ClaimsOf, LatestDispatch, Numbered, RequestById, DispatchById;
    assert SafelyRetried(ClaimsOf(s.dispatches, effect), s.results);
    LatestIsLast(s.dispatches, effect);
    RequestByIdFinds(s.requests, effect);
    RequestByIdMisses(s.requests, effect);
    DispatchByIdFinds(s.dispatches, id);
  }

  lemma {:induction false} RequestByIdMisses(requests: seq<EffectRequest>, effect: EffectId)
    ensures RequestById(requests, effect).None? ==> forall r :: r in requests ==> r.effect != effect
  {
    if requests != [] && requests[0].effect != effect { RequestByIdMisses(requests[1..], effect); }
  }

  lemma LastNumber(claims: seq<Dispatch>)
    requires Numbered(claims) && claims != []
    ensures claims[|claims| - 1].attempt == |claims|
  {
  }

  lemma ClaimExact(s: Store, effect: EffectId, id: DispatchId)
    requires EffectInv(s)
    ensures var t := ClaimExternalEffect(s, effect, id);
      && (t.Some? <==> HasRequest(s, effect) && UnusedClaim(s, id) && ClaimDue(s, effect))
      && (t.Some? ==> exists r :: r in s.requests && r.effect == effect && ClaimAdded(s, t.value, r, id))
  {
    hide EffectInv, RequestById, DispatchById, LatestDispatch, ClaimsOf, HasRequest, UnusedClaim, Numbered;
    ClaimLooks(s, effect, id);
    var claims := ClaimsOf(s.dispatches, effect);
    if claims != [] { LastNumber(claims); }
    var t := ClaimExternalEffect(s, effect, id);
    if t.Some? {
      var r := RequestById(s.requests, effect).value;
      assert ClaimAdded(s, t.value, r, id);
    }
  }

  /** Claims are granted: in every reachable store an effect is claimed iff it has a request, the
      claim id is unused, and it has no claim or its last one ended in a failure that permits a
      retry; the new claim is numbered one more than the claims before it. */
  lemma ClaimGranted(steps: seq<Step>, effect: EffectId, id: DispatchId)
    ensures var s := Run(START, steps).store; var t := ClaimExternalEffect(s, effect, id);
      && (t.Some? <==> HasRequest(s, effect) && UnusedClaim(s, id) && ClaimDue(s, effect))
      && (t.Some? ==> exists r :: r in s.requests && r.effect == effect && ClaimAdded(s, t.value, r, id))
  {
    hide Run, StoreInv, EffectInv, ClaimExternalEffect, ClaimDue, ClaimAdded, HasRequest, UnusedClaim;
    var s := Reached(steps);
    StoreEffects(s);
    ClaimExact(s, effect, id);
  }

  // ---------------------------------------------------------------- results

  /** What a result may claim: a success had its effect and says what came back, a failure had none,
      an unknown outcome may have had it; only a failure may permit a retry. */
  predicate Coherent(e: ResultEnvelope) {
    && (e.outcome == Succeeded ==> e.mayHaveOccurred && !e.retryPermitted && e.remote.Some? && e.response.Some? && e.error.None?)
    && (e.outcome == EffectFailed ==> !e.mayHaveOccurred && e.remote.None? && e.response.None? && e.error.Some?)
    && (e.outcome == Unknown ==> e.mayHaveOccurred && !e.retryPermitted && e.error.Some?)
  }

  lemma CoherentIff(e: ResultEnvelope)
    ensures ValidResult(e) <==> Coherent(e)
  {
  }

  /** Signed by its registered executor, over exactly its envelope, with coherent semantics. */
  predicate SignedByExecutor(s: Store, proof: SignedResult) {
    var e := proof.envelope;
    && Coherent(e) && e.executor in s.executors
    && s.executors[e.executor].key == e.executorKey == proof.signer && proof.signed == e
  }

  /** The result repeats this claim and this request, field by field. */
  predicate Repeats(e: ResultEnvelope, d: Dispatch, r: EffectRequest) {
    && e.dispatch == d.id && e.effect == d.effect == r.effect && e.hash == d.hash == RequestHash(r)
    && e.scope == r.scope && e.binding == r.binding && e.artifact == r.manifest && e.key == r.key
  }

  ghost predicate OfClaim(s: Store, e: ResultEnvelope) {
    exists d, r :: d in s.dispatches && r in s.requests && Repeats(e, d, r)
  }

  predicate UnusedResult(s: Store, id: ResultId) {
    forall d :: d in s.results ==> s.results[d].proof.envelope.id != id
  }

  /** The claim's one result, in place of none. */
  predicate ResultAdded(s: Store, t: Store, proof: SignedResult) {
    var e := proof.envelope;
    && t == s.(log := t.log, results := s.results[e.dispatch := ResultRow(proof, |s.log| + 1)])
    && AppendsAccepted(s, t, RecordResult, e.hash.of, ResultIdentifiers(proof))
  }

  lemma ResultLooks(s: Store, proof: SignedResult)
    requires EffectInv(s)
    ensures var e := proof.envelope; var d, r := DispatchById(s.dispatches, e.dispatch), RequestById(s.requests, e.effect);
      d.Some? && r.Some? && ResultBound(e, r.value, d.value) <==> OfClaim(s, e)
  {
    hide RequestSound, ClaimSound, ResultSound, SafelyRetried, RequestById, DispatchById;
    var e := proof.envelope;
    var d, r := DispatchById(s.dispatches, e.dispatch), RequestById(s.requests, e.effect);
    DispatchByIdFinds(s.dispatches, e.dispatch);
    RequestByIdFinds(s.requests, e.effect);
    RequestByIdMisses(s.requests, e.effect);
    if d.Some? && r.Some? && ResultBound(e, r.value, d.value) { assert Repeats(e, d.value, r.value); }
    if OfClaim(s, e) {
      var claim, request :| claim in s.dispatches && request in s.requests && Repeats(e, claim, request);
      assert d.value == claim && r.value == request;
    }
  }

  lemma RecordedOfClaim(s: Store, id: DispatchId)
    requires EffectInv(s) && id in s.results
    ensures OfClaim(s, s.results[id].proof.envelope) && s.results[id].proof.envelope.dispatch == id
  {
    hide RequestSound, ClaimSound, SafelyRetried, DistinctRequests, DistinctClaims, ResultsDistinct, ValidResult;
    assert ResultSound(s, id);
    var e := s.results[id].proof.envelope;
    var d, r :| d in s.dispatches && d.id == id && d.event < s.results[id].event && r in s.requests && ResultBound(e, r, d);
    assert Repeats(e, d, r);
  }

  lemma FreshResult(s: Store, proof: SignedResult)
    ensures (exists other :: other in s.results && Collides(s.results[other].proof, proof)) <==> !UnusedResult(s, proof.envelope.id)
  {
    if !UnusedResult(s, proof.envelope.id) {
      var other :| other in s.results && s.results[other].proof.envelope.id == proof.envelope.id;
      assert Collides(s.results[other].proof, proof);
    }
  }

  lemma ResultExact(s: Store, proof: SignedResult)
    requires EffectInv(s)
    ensures var e := proof.envelope; var t := RecordExecutorResult(s, proof); var known := e.dispatch in s.results;
      && (t.Some? <==> SignedByExecutor(s, proof) && OfClaim(s, e)
                       && if known then s.results[e.dispatch].proof == proof else UnusedResult(s, e.id))
      && (t.Some? ==> if known then t.value == s else ResultAdded(s, t.value, proof))
  {
    hide EffectInv, RequestById, DispatchById, ValidResult, Coherent, ResultBound, Collides, OfClaim, UnusedResult;
    CoherentIff(proof.envelope);
    ResultLooks(s, proof);
    FreshResult(s, proof);
    if proof.envelope.dispatch in s.results { RecordedOfClaim(s, proof.envelope.dispatch); ClaimFound(s, proof.envelope); }
  }

  lemma ClaimFound(s: Store, e: ResultEnvelope)
    requires EffectInv(s)
    ensures OfClaim(s, e) ==> DispatchById(s.dispatches, e.dispatch).Some? && RequestById(s.requests, e.effect).Some?
  {
    hide EffectInv, RequestById, DispatchById;
    DispatchByIdFinds(s.dispatches, e.dispatch);
    RequestByIdMisses(s.requests, e.effect);
  }

  /** Results are recorded: in every reachable store a result is accepted iff its registered
      executor signed exactly it and it repeats some claim and that claim's request field by
      field, and the claim has this result already, or none and the result id is unused; the
      first is recorded, the second changes nothing. */
  lemma ResultGranted(steps: seq<Step>, proof: SignedResult)
    ensures var s := Run(START, steps).store; var e := proof.envelope; var t := RecordExecutorResult(s, proof);
      var known := e.dispatch in s.results;
      && (t.Some? <==> SignedByExecutor(s, proof) && OfClaim(s, e)
                       && if known then s.results[e.dispatch].proof == proof else UnusedResult(s, e.id))
      && (t.Some? ==> if known then t.value == s else ResultAdded(s, t.value, proof))
  {
    hide Run, StoreInv, EffectInv, RecordExecutorResult, SignedByExecutor, OfClaim, UnusedResult, ResultAdded;
    var s := Reached(steps);
    StoreEffects(s);
    ResultExact(s, proof);
  }

  // ---------------------------------------------------------------- from execution to the next claim

  /** The execution is of this claim, by a registered executor, and the claim has no result yet. */
  predicate ExecutesClaim(s: Store, x: Execution) {
    && x.effect in s.requests && x.dispatch in s.dispatches && x.dispatch.effect == x.effect.effect && x.dispatch.hash == RequestHash(x.effect)
    && x.dispatch.id !in s.results && x.executor in s.executors && s.executors[x.executor].key == x.key
    && UnusedResult(s, x.result)
  }

  lemma ExecutedResult(s: Store, directory: Directory, x: Execution)
    requires ExecutesClaim(s, x) && Execute(directory, x).1.Signed?
    ensures var e := Execute(directory, x).1.envelope; var proof := SignedResult(e, x.key, e);
      && SignedByExecutor(s, proof) && OfClaim(s, e) && e.dispatch == x.dispatch.id && e.id == x.result
  {
    hide UnusedResult;
    var e := Execute(directory, x).1.envelope;
    assert Repeats(e, x.dispatch, x.effect);
  }

  /** The round closes: whatever an execution of an open claim signs is recorded, and the effect's
      next claim is then granted iff the execution reported a failure and the claim was the last. */
  lemma RoundCloses(steps: seq<Step>, directory: Directory, x: Execution, next: DispatchId)
    requires ExecutesClaim(Run(START, steps).store, x) && Execute(directory, x).1.Signed?
    requires UnusedClaim(Run(START, steps).store, next)
    ensures var s := Run(START, steps).store; var e := Execute(directory, x).1.envelope;
      var t := RecordExecutorResult(s, SignedResult(e, x.key, e));
      && t.Some? && ResultAdded(s, t.value, SignedResult(e, x.key, e))
      && (ClaimExternalEffect(t.value, x.effect.effect, next).Some? <==> ReportsFailure(Execute(directory, x).1))
  {
    hide Run, StoreInv, EffectInv, RecordExecutorResult, SignedByExecutor, OfClaim, UnusedResult, Execute, ClaimExternalEffect;
    var s := Reached(steps);
    StoreEffects(s);
    var ending := Execute(directory, x).1;
    var e := ending.envelope;
    var proof := SignedResult(e, x.key, e);
    ExecutedResult(s, directory, x);
    ResultExact(s, proof);
    var t := RecordExecutorResult(s, proof).value;
    CommitKeeps(s, map[], ResultCommit(proof));
    StoreEffects(t);
    ClaimExact(t, x.effect.effect, next);
    OpenIsLast(s, x.dispatch);
    ExecutionSafe(directory, x);
  }

  /** A claim without a result is its effect's last. */
  lemma OpenIsLast(s: Store, d: Dispatch)
    requires EffectInv(s) && d in s.dispatches && d.id !in s.results
    ensures var claims := ClaimsOf(s.dispatches, d.effect); claims != [] && claims[|claims| - 1] == d
  {
    hide RequestSound, ClaimSound, ResultSound, DistinctRequests, ResultsDistinct, ClaimsOf;
    var claims := ClaimsOf(s.dispatches, d.effect);
    ClaimsExact(s.dispatches, d.effect);
    var i :| 0 <= i < |claims| && claims[i] == d;
    assert SafelyRetried(claims, s.results);
    if i + 1 < |claims| { ResolvedBefore(claims, s.results, i); }
  }

  lemma ResolvedBefore(claims: seq<Dispatch>, results: map<DispatchId, ResultRow>, i: nat)
    requires SafelyRetried(claims, results) && i + 1 < |claims|
    ensures claims[i].id in results
  {
    var j := i + 1;
    assert RetriedAfter(results, claims[i], claims[j]);
  }
}
