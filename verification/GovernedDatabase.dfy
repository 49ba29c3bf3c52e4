/** The store as the program keeps it: tables written row by row inside a transaction that is
    rolled back on any error (database.py, external_effects.py, transition_mediator.py). Every
    transaction is proved to be its function of Ledger. */
module GovernedDatabase {
  import opened Models
  import opened Authorization
  import opened Ledger
  import opened Writers

  /** The transaction either committed the given store or left the old one. */
  predicate Atomic(before: Store, after: Store, ok: bool, outcome: Option<Store>) {
    match outcome
    case Some(t) => ok && after == t
    case None => !ok && after == before
  }

  class Database {
    var principals: map<PrincipalId, KeyId>
    var candidates: map<CandidateId, WorkflowState>
    var packets: map<PacketId, Packet>
    var approvals: seq<ApprovalRow>
    var log: seq<Event>
    var operations: map<OperationId, ConsumedOperation>
    var grants: seq<GrantRow>
    var revocations: map<GrantId, Revocation>
    var policy: Option<PolicyState>
    var bindings: seq<Binding>
    var executors: map<ExecutorId, Executor>
    var requests: seq<EffectRequest>
    var dispatches: seq<Dispatch>
    var results: map<DispatchId, ResultRow>

    constructor ()
      ensures State() == EMPTY
    {
      principals, candidates, packets, approvals, log, operations := map[], map[], map[], [], [], map[];
      grants, revocations, policy, bindings, executors := [], map[], None, [], map[];
      requests, dispatches, results := [], [], map[];
    }

    function State(): Store
      reads this
    {
      Store(principals, candidates, packets, approvals, log, operations, grants, revocations, policy, bindings, executors,
            requests, dispatches, results)
    }

    method RollbackWorkflow(snapshot: Store)
      modifies this`principals, this`candidates, this`packets, this`approvals, this`log
      ensures principals == snapshot.principals && candidates == snapshot.candidates && packets == snapshot.packets
      ensures approvals == snapshot.approvals && log == snapshot.log
    {
      principals, candidates, packets := snapshot.principals, snapshot.candidates, snapshot.packets;
      approvals, log := snapshot.approvals, snapshot.log;
    }

    method RollbackPolicy(snapshot: Store)
      modifies this`operations, this`grants, this`revocations, this`policy
      ensures operations == snapshot.operations && grants == snapshot.grants && revocations == snapshot.revocations && policy == snapshot.policy
    {
      operations, grants, revocations, policy := snapshot.operations, snapshot.grants, snapshot.revocations, snapshot.policy;
    }

    method RollbackEffects(snapshot: Store)
      modifies this`bindings, this`executors, this`requests, this`dispatches, this`results
      ensures bindings == snapshot.bindings && executors == snapshot.executors && requests == snapshot.requests
      ensures dispatches == snapshot.dispatches && results == snapshot.results
    {
      bindings, executors, requests, dispatches := snapshot.bindings, snapshot.executors, snapshot.requests, snapshot.dispatches;
      results := snapshot.results;
    }

    /** Leaving a transaction by an exception. */
    method Rollback(snapshot: Store)
      modifies this
      ensures State() == snapshot
    {
      RollbackWorkflow(snapshot);
      RollbackPolicy(snapshot);
      RollbackEffects(snapshot);
    }

    method InsertTransitionEvent(e: Event)
      modifies this`log
      ensures State() == Append(old(State()), e)
    {
      log := log + [e];
    }

    /** `insert_authenticated_operation`, adjudicated by the event just appended. */
    method InsertAuthenticatedOperation(proof: SignedOperation, accepted: bool) returns (ok: bool)
      modifies this`operations
      ensures ok <==> Consumable(old(State()), proof)
      ensures State() == if ok then old(State()).(operations := old(operations)[proof.envelope.id := ConsumedOperation(proof, |log|, accepted)])
                         else old(State())
    {
      if !Consumable(State(), proof) { return false; }
      operations := operations[proof.envelope.id := ConsumedOperation(proof, |log|, accepted)];
      return true;
    }

    /** The adjudication event, then the proof it consumes. */
    method Adjudicate(e: Event, proof: SignedOperation) returns (ok: bool)
      modifies this`log, this`operations
      ensures ok <==> Consumable(old(State()), proof)
      ensures ok ==> State() == Ledger.Adjudicate(old(State()), e, proof)
      ensures !ok ==> State() == Append(old(State()), e)
    {
      InsertTransitionEvent(e);
      ok := InsertAuthenticatedOperation(proof, e.accepted);
    }

    // -------------------------------------------------------------- packet authority

    /** `_commit_authority_transition`. */
    method CommitAuthorityTransition(proof: SignedOperation, receipt: FileHash) returns (ok: bool)
      requires proof.envelope.PacketEnvelope?
      modifies this
      ensures Atomic(old(State()), State(), ok, CommitAuthority(old(State()), proof, receipt))
    {
      hide Consumable, TransactionDecision, ReleaseApproved, AuthoritySensitive, PacketEvent, NewApproval, ApprovalTaken;
      var e := proof.envelope;
      if !AuthoritySensitive(e.expectedPrior, e.requested) { return false; }
      var snapshot := State();
      if e.packet !in packets || e.candidate !in candidates { return false; }
      var row := packets[e.packet];
      if row.candidate != e.candidate || candidates[e.candidate] != row.state { return false; }
      var decision := TransactionDecision(snapshot, e, row.state, row);
      if decision.status != Allowed {
        ok := Adjudicate(PacketEvent(proof, decision, false, row.state, e.manifest, Some(receipt)), proof);
        if !ok { Rollback(snapshot); }
        return;
      }
      if row.state != e.expectedPrior || row.manifest != e.manifest { return false; }
      if e.operation.Release? && !ReleaseApproved(snapshot, e, row) { return false; }
      packets := packets[e.packet := row.(state := e.requested)];
      candidates := candidates[e.candidate := e.requested];
      var event := PacketEvent(proof, decision, true, row.state, e.manifest, Some(receipt));
      InsertTransitionEvent(event);
      if !e.operation.Release? {
        if ApprovalTaken(snapshot, e.approval) {
          Rollback(snapshot);
          return false;
        }
        approvals := approvals + [NewApproval(snapshot, e)];
      }
      ok := ConsumeAfter(snapshot, proof, event.accepted);
    }

    /** Consumes the proof last in a transaction whose other rows are written. */
    method ConsumeAfter(snapshot: Store, proof: SignedOperation, accepted: bool) returns (ok: bool)
      requires snapshot.principals == principals && snapshot.operations == operations
      modifies this
      ensures ok <==> Consumable(snapshot, proof)
      ensures ok ==> State() == old(State()).(operations := snapshot.operations[proof.envelope.id := ConsumedOperation(proof, |old(log)|, accepted)])
      ensures !ok ==> State() == snapshot
    {
      ok := InsertAuthenticatedOperation(proof, accepted);
      if !ok { Rollback(snapshot); }
    }

    /** `record_authenticated_authorization_rejection`. */
    method RecordAuthorizationRejection(proof: SignedOperation, prior: WorkflowState, governed: FileHash, read: Option<FileHash>)
      returns (ok: bool)
      requires proof.envelope.PacketEnvelope?
      modifies this
      ensures Atomic(old(State()), State(), ok, CommitRejection(old(State()), proof, prior, governed, read))
    {
      hide Consumable, TransactionDecision, PacketEvent;
      var e := proof.envelope;
      var snapshot := State();
      var row := if e.packet in packets then packets[e.packet] else Packet(e.candidate, e.manifest, None, prior);
      var decision := TransactionDecision(snapshot, e, prior, row);
      ok := Adjudicate(PacketEvent(proof, decision, false, prior, governed, read), proof);
      if !ok { Rollback(snapshot); }
    }

    // -------------------------------------------------------------- capability policy

    /** `_commit_capability_policy_operation`: the decision is reassigned check by check. */
    method DecidePolicy(e: Envelope) returns (decision: Decision)
      requires e.PolicyEnvelope?
      ensures decision == PolicyDecision(State(), e)
    {
      hide Evaluate, RemainingAdmin, GrantById;
      var q := PolicyQuery(e.principal, PolicyManageCapabilities);
      var accepted := true;
      if e.policy.Bootstrap? {
        if policy.Some? || grants != [] || revocations != map[] {
          decision, accepted := Deny(q, PolicyAlreadyBootstrapped), false;
        } else if principals.Keys != {e.principal} {
          decision, accepted := Deny(q, RequestBindingRejected), false;
        } else {
          decision := BootstrapDecision(e.principal);
        }
      } else {
        decision := Evaluate(View(State()), q);
        accepted := decision.status == Allowed;
      }
      if accepted && !e.policy.Revoke? && e.columns.Unversioned? {
        decision, accepted := Deny(q, ScopeRequired), false;
      }
      if accepted && e.policy.Grant? {
        if e.subject !in principals {
          decision, accepted := Deny(q, UnknownSubjectPrincipal), false;
        } else if PacketScoped(e.capability) && !e.columns.Exact? {
          decision, accepted := Deny(q, ScopeRequired), false;
        }
      }
      if accepted && e.policy.Revoke? {
        var target := GrantById(grants, e.grantId);
        if target.None? {
          decision, accepted := Deny(q, UnknownGrant), false;
        } else {
          var g := target.value;
          if (g.subject, g.capability, g.prior, g.requested, g.scope)
             != (e.subject, e.capability, e.grantPrior, e.grantRequested, e.columns) {
            decision, accepted := Deny(q, GrantBindingMismatch), false;
          } else if e.grantId in revocations {
            decision, accepted := Deny(q, GrantAlreadyRevoked), false;
          } else if e.capability == PolicyManageCapabilities && !RemainingAdmin(State(), e.grantId) {
            decision, accepted := Deny(q, LastPolicyAdmin), false;
          }
        }
      }
    }

    method CommitCapabilityPolicyOperation(proof: SignedOperation) returns (ok: bool)
      requires proof.envelope.PolicyEnvelope?
      modifies this
      ensures Atomic(old(State()), State(), ok, CommitPolicy(old(State()), proof))
    {
      hide Consumable, PolicyDecision, GrantInsertable, RevocationTaken, PolicyEvent, NewGrant;
      var e := proof.envelope;
      var snapshot := State();
      var decision := DecidePolicy(e);
      ok := Adjudicate(PolicyEvent(proof, decision, decision.status == Allowed), proof);
      if !ok { Rollback(snapshot); return; }
      if decision.status != Allowed { return; }
      if e.policy.Revoke? {
        if e.revocation.None? || RevocationTaken(snapshot, e.revocation.value) { Rollback(snapshot); return false; }
        revocations := revocations[e.grantId := Revocation(e.revocation.value, e.principal, e.id, |log|)];
      } else {
        if !GrantInsertable(snapshot, NewGrant(snapshot, e)) { Rollback(snapshot); return false; }
        grants := grants + [NewGrant(snapshot, e)];
        if e.policy.Bootstrap? { policy := Some(PolicyState(e.principal, e.grantId, e.id, |log|)); }
      }
    }

    // -------------------------------------------------------------- execution management

    /** `mediate_execution_management` from its transaction on. */
    method CommitExecutionManagement(proof: SignedOperation) returns (ok: bool)
      requires proof.envelope.BindingEnvelope? || proof.envelope.ExecutorEnvelope?
      modifies this
      ensures Atomic(old(State()), State(), ok, CommitManagement(old(State()), proof))
    {
      hide Consumable, Evaluate, AlreadyRegistered, ManagementEvent;
      var e := proof.envelope;
      var snapshot := State();
      var q := PolicyQuery(e.principal, EffectManageBindings);
      var decision := Evaluate(View(snapshot), q);
      var accepted := decision.status == Allowed;
      if accepted && AlreadyRegistered(snapshot, e) { decision, accepted := Deny(q, RequestBindingRejected), false; }
      ok := Adjudicate(ManagementEvent(proof, Verified(proof), accepted, decision), proof);
      if !ok { Rollback(snapshot); return; }
      if accepted && e.BindingEnvelope? {
        if exists b :: b in bindings && b.id == e.binding { Rollback(snapshot); return false; }
        bindings := bindings + [Binding(e.binding, e.bindingScope, e.target, e.credential, e.principal, e.id, |log|)];
      } else if accepted {
        executors := executors[e.executor := Executor(e.executorKey, e.principal, e.id, |log|)];
      }
    }

    // -------------------------------------------------------------- workflow steps

    /** `apply_candidate_transition`: the packet, the guarded state update, then the event. */
    method ApplyCandidateTransition(candidate: CandidateId, prior: WorkflowState, requested: WorkflowState, generated: Option<NewPacket>)
      returns (ok: bool)
      modifies this
      ensures Atomic(old(State()), State(), ok, CommitCandidate(old(State()), candidate, prior, requested, generated))
    {
      hide AuthoritySensitive, WorkflowEvent;
      if AuthoritySensitive(prior, requested) { return false; }
      var snapshot := State();
      if generated.Some? {
        var g := generated.value;
        if g.id in packets { return false; }
        packets := packets[g.id := Packet(candidate, g.manifest, g.scope, requested)];
      }
      if candidate !in candidates || candidates[candidate] != prior { Rollback(snapshot); return false; }
      candidates := candidates[candidate := requested];
      match generated {
        case None => InsertTransitionEvent(WorkflowEvent(Some(candidate), None, prior, requested, true, Ungoverned, None, None, Unauthenticated));
        case Some(g) => InsertTransitionEvent(WorkflowEvent(Some(candidate), Some(g.id), prior, requested, true, Manifest(g.manifest), None, g.scope, Unauthenticated));
      }
      return true;
    }

    /** `apply_packet_transition`. */
    method ApplyPacketTransition(packet: PacketId, candidate: CandidateId, prior: WorkflowState, requested: WorkflowState, receipt: FileHash)
      returns (ok: bool)
      modifies this
      ensures Atomic(old(State()), State(), ok, CommitPacketStep(old(State()), packet, candidate, prior, requested, receipt))
    {
      hide AuthoritySensitive, WorkflowEvent;
      if AuthoritySensitive(prior, requested) { return false; }
      if packet !in packets || candidate !in candidates { return false; }
      var row := packets[packet];
      if row.candidate != candidate || row.state != prior || candidates[candidate] != prior { return false; }
      packets := packets[packet := row.(state := requested)];
      candidates := candidates[candidate := requested];
      InsertTransitionEvent(WorkflowEvent(Some(candidate), Some(packet), prior, requested, true, Manifest(row.manifest), Some(receipt), row.scope, Unauthenticated));
      return true;
    }

    // -------------------------------------------------------------- external effects

    /** `create_external_effect_request`; `first` is what it recomputed before its transaction. */
    method CreateExternalEffectRequest(files: Files, packet: PacketId, first: Artifacts) returns (out: EffectCreation)
      modifies this
      ensures out == CreateExternalEffect(old(State()), files, packet, first)
      ensures State() == if out.Created? then out.store else old(State())
    {
      hide DeriveEffect, Recompute;
      if packet !in packets || packets[packet].state != Released { return NotReleased; }
      var row := packets[packet];
      var existing := RequestOf(requests, packet);
      if existing.Some? {
        if first.manifest != existing.value.manifest || first.receipt != existing.value.receipt || first.manifest != row.manifest {
          return ArtifactsChanged;
        }
        return Existing(existing.value);
      }
      if Recompute(files, packet, row) != Some(first) || first.manifest != row.manifest { return ArtifactsChanged; }
      out := DeriveFromRelease(packet, row, first);
    }

    /** The release's grant: its subject, capability, states, scope and place in the chain. */
    method VerifyReleaseGrant(id: GrantId, release: Sequence, event: Event, scope: Option<Scope>) returns (ok: bool)
      requires event.authentication.Verified?
      ensures ok <==> GrantSupports(State(), id, release, event, scope)
    {
      hide GrantById;
      var grant := GrantById(grants, id);
      if grant.None? { return false; }
      var g := grant.value;
      if g.subject != event.authentication.proof.envelope.principal || g.capability != PacketRelease { return false; }
      if g.prior != Some(Approved) || g.requested != Some(Released) || g.scope != ColumnsOf(scope) { return false; }
      if g.event >= release { return false; }
      ok := id in revocations ==> revocations[id].event > release;
    }

    /** Inserts the request and its event, or neither. */
    method InsertEffectRequest(request: EffectRequest) returns (out: EffectCreation)
      modifies this
      ensures var s := old(State()); out == if RequestInsertable(s, request) then Created(RequestedStore(s, request), request) else ConstraintFailed
      ensures State() == if out.Created? then out.store else old(State())
    {
      hide EffectEvent;
      var snapshot := State();
      InsertTransitionEvent(EffectEvent(request));
      if exists other :: other in requests
           && (other.effect == request.effect || other.release == request.release || other.key == request.key
               || RequestHash(other) == RequestHash(request))
      {
        Rollback(snapshot);
        return ConstraintFailed;
      }
      requests := requests + [request];
      return Created(State(), request);
    }

    /** The release, approval, grant and binding evidence, and the request derived from it. */
    method DeriveFromRelease(packet: PacketId, row: Packet, artifacts: Artifacts) returns (out: EffectCreation)
      modifies this
      ensures out == DeriveEffect(old(State()), packet, row, artifacts)
      ensures State() == if out.Created? then out.store else old(State())
    {
      hide LatestRelease, BindingOf, GrantSupports, RequestInsertable, RequestedStore;
      var release := LatestRelease(log, packet);
      if release == 0 || release > |log| { return NoReleaseEvent; }
      var event := log[release - 1];
      if event.authorization.None? { return NoReleaseAuthority; }
      var d := event.authorization.value;
      if d.status != Allowed || d.capability != PacketRelease || d.grant.None? { return NoReleaseAuthority; }
      if !event.authentication.Verified? || !event.identifiers.PacketIdentifiers? { return NoReleaseAuthority; }
      var approval, approvalEvent := event.identifiers.approval, event.identifiers.approvalEvent;
      if approvalEvent.None? { return NoApproval; }
      if !exists a :: a in approvals && a.id == approval && a.packet == packet && a.decision == DecisionApproved && a.event == approvalEvent.value {
        return NoApproval;
      }
      if row.scope.None? { return GrantInconsistent; }
      var supported := VerifyReleaseGrant(d.grant.value, release, event, row.scope);
      if !supported { return GrantInconsistent; }
      var binding := BindingOf(bindings, row.scope.value);
      if binding.None? { return NoBinding; }
      var b, effect := binding.value, EffectId(release, binding.value.id);
      var request := EffectRequest(effect, release, packet, row.candidate, approval, approvalEvent.value,
                                   event.authentication.proof.envelope.principal, d.grant.value, row.scope.value,
                                   b.id, b.target, b.credential, artifacts.manifest, artifacts.receipt,
                                   IdempotencyKey(effect, release), |log| + 1);
      out := InsertEffectRequest(request);
    }

    /** `claim_external_effect`. */
    method ClaimEffect(effect: EffectId, id: DispatchId) returns (ok: bool)
      modifies this
      ensures Atomic(old(State()), State(), ok, ClaimExternalEffect(old(State()), effect, id))
    {
      hide LatestDispatch, RequestById, DispatchById, ClaimEvent;
      var request := RequestById(requests, effect);
      if request.None? { return false; }
      var latest := LatestDispatch(dispatches, effect);
      var attempt := 1;
      if latest.Some? {
        if latest.value.id !in results { return false; }
        var e := results[latest.value.id].proof.envelope;
        if e.outcome != EffectFailed || !e.retryPermitted { return false; }
        attempt := latest.value.attempt + 1;
      }
      var snapshot := State();
      var d := Dispatch(id, request.value.effect, RequestHash(request.value), attempt, |log| + 1);
      InsertTransitionEvent(ClaimEvent(d));
      if DispatchById(dispatches, id).Some? { Rollback(snapshot); return false; }
      dispatches := dispatches + [d];
      return true;
    }

    /** `record_signed_executor_result`. */
    method RecordSignedResult(proof: SignedResult) returns (ok: bool)
      modifies this
      ensures Atomic(old(State()), State(), ok, RecordExecutorResult(old(State()), proof))
    {
      hide RequestById, DispatchById, ResultEvent, ResultBound, ValidResult, Collides;
      var e := proof.envelope;
      if !ValidResult(e) || e.executor !in executors { return false; }
      if executors[e.executor].key != e.executorKey || proof.signer != e.executorKey || proof.signed != e { return false; }
      var d, r := DispatchById(dispatches, e.dispatch), RequestById(requests, e.effect);
      if d.None? || r.None? { return false; }
      if e.dispatch in results { return results[e.dispatch].proof == proof; }
      if !ResultBound(e, r.value, d.value) { return false; }
      var snapshot := State();
      InsertTransitionEvent(ResultEvent(proof));
      if exists other :: other in results && Collides(results[other].proof, proof) { Rollback(snapshot); return false; }
      results := results[e.dispatch := ResultRow(proof, |log|)];
      return true;
    }

    // -------------------------------------------------------------- mediation

    /** `_mediate_authenticated`: mismatch lists, each of which ends mediation when not empty. */
    method MediateAuthenticated(files: Files, proof: SignedOperation, c: AdapterConstraints) returns (p: Pending)
      requires proof.envelope.PacketEnvelope?
      ensures p == MediatePacket(State(), files, proof, c)
    {
      hide Recompute, ReleaseApprovalMatches;
      var e := proof.envelope;
      var adapter: seq<string> := [];
      if c.operation.Some? && c.operation.value != e.operation { adapter := adapter + ["operation"]; }
      if c.packet.Some? && c.packet.value != e.packet { adapter := adapter + ["packet_id"]; }
      if !c.reasonMatches { adapter := adapter + ["reason"]; }
      var prior := if e.packet in packets then packets[e.packet].state else e.expectedPrior;
      if adapter != [] { return AuthorityRejection(proof, prior, e.manifest, None); }
      var semantic: seq<string> := [];
      if e.expectedPrior != PriorOf(e.operation) { semantic := semantic + ["expected_prior_state"]; }
      if e.requested != RequestedOf(e.operation) { semantic := semantic + ["requested_state"]; }
      if e.decision != DecisionOf(e.operation) { semantic := semantic + ["approval_decision"]; }
      if !e.operation.Release? && e.approvalEvent.Some? { semantic := semantic + ["approval_transition_event_id"]; }
      if semantic != [] { return AuthorityRejection(proof, prior, e.manifest, None); }
      if e.packet !in packets { return AuthorityRejection(proof, prior, e.manifest, None); }
      var row := packets[e.packet];
      var identity: seq<string> := [];
      if row.candidate != e.candidate { identity := identity + ["candidate_id"]; }
      if e.candidate !in candidates {
        identity := identity + ["candidate_missing"];
      } else if candidates[e.candidate] != prior {
        identity := identity + ["candidate_state"];
      }
      if identity != [] { return AuthorityRejection(proof, prior, e.manifest, None); }
      if prior != e.expectedPrior || e.requested !in Successors(prior) { return AuthorityRejection(proof, prior, e.manifest, None); }
      p := VerifyArtifacts(State(), files, proof, row);
    }
  }
}
