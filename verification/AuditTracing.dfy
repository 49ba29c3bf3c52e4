/** What the audit's acceptance means for tables of any origin: every row it accepts is traced to
    the event that made it, and every allowed decision to a grant in force (integrity.py). */
module AuditTracing {
  import opened Models
  import opened Authorization
  import opened Ledger
  import opened Writers
  import opened System
  import opened EffectRuns
  import opened PolicyRuns
  import opened PolicyAudit
  import opened EffectAudit

  // ---------------------------------------------------------------- operations

  /** The consumed proof is the one its event verified, under its own id, with the event's
      outcome, command and identifiers, by a registered principal. */
  predicate OperationTraced(s: Store, o: OperationId)
    requires o in s.operations
  {
    var c := s.operations[o];
    var v := c.proof.envelope;
    && v.id == o && v.principal in s.principals && 1 <= c.event <= |s.log|
    && var e := s.log[c.event - 1];
       && e.authentication == Verified(c.proof) && e.accepted == c.accepted
       && match v
          case PacketEnvelope(_, _, _, _, _, operation, packet, candidate, _, _, _, _, decision, approval, approvalEvent, scope) =>
            e.command == Authority(operation)
            && e.identifiers == PacketIdentifiers(packet, candidate, o, approval, decision, scope, approvalEvent)
          case PolicyEnvelope(_, _, _, _, _, policy, grant, revocation, subject, capability, prior, requested, columns) =>
            e.command == Policy(policy)
            && e.identifiers == PolicyIdentifiers(o, grant, revocation, subject, capability, prior, requested, columns)
          case BindingEnvelope(_, _, _, _, _, binding, scope, target, credential) =>
            e.command == RegisterBinding && e.identifiers == BindingIdentifiers(o, binding, scope, target, credential)
          case ExecutorEnvelope(_, _, _, _, _, executor, key) =>
            e.command == RegisterExecutor && e.identifiers == ExecutorIdentifiers(o, executor, key)
  }

  /** Accepted operations are traced, and no event is consumed by two of them. */
  lemma AcceptedOperations(s: Store)
    requires forall o :: o in s.operations ==> OperationHolds(s, o)
    ensures forall o :: o in s.operations ==> OperationTraced(s, o)
    ensures forall o, p :: o in s.operations && p in s.operations && s.operations[o].event == s.operations[p].event ==> o == p
  {
    forall o | o in s.operations ensures OperationTraced(s, o) { assert OperationHolds(s, o); }
  }

  // ---------------------------------------------------------------- grants and revocations

  /** The grant is what the signed envelope of its accepted, allowed event says, granted by the
      signer, and its subject and granter are registered. */
  predicate GrantTraced(s: Store, g: GrantRow) {
    && 1 <= g.event <= |s.log| && g.subject in s.principals && g.grantedBy in s.principals
    && (g.prior, g.requested) == StatePair(g.capability)
    && (g.scope.Exact? ==> PacketScoped(g.capability)) && (g.scope.Versioned? ==> !PacketScoped(g.capability))
    && g.operation in s.operations && s.operations[g.operation].event == g.event
    && var e := s.log[g.event - 1];
       && e.accepted && e.authorization.Some? && e.authorization.value.status == Allowed
       && e.authentication.Verified?
       && var v := e.authentication.proof.envelope;
          && v.PolicyEnvelope? && (v.policy == Bootstrap || v.policy == Grant) && e.command == Policy(v.policy)
          && g == GrantRow(v.grantId, v.subject, v.capability, v.grantPrior, v.grantRequested, v.columns, v.principal, v.id, g.event)
  }

  lemma AcceptedGrant(s: Store, g: GrantRow)
    requires GrantHolds(s, g) && (forall o :: o in s.operations ==> OperationHolds(s, o))
    ensures GrantTraced(s, g)
  {
    hide OperationHolds;
    AcceptedOperations(s);
    assert OperationTraced(s, g.operation);
  }

  /** The revocation is what the signed envelope of its later, accepted, allowed event says of a
      grant in the table. */
  predicate RevocationTraced(s: Store, id: GrantId)
    requires id in s.revocations
  {
    var r := s.revocations[id];
    && 1 <= r.event <= |s.log| && r.actor in s.principals
    && r.operation in s.operations && s.operations[r.operation].event == r.event
    && var e := s.log[r.event - 1];
       && e.accepted && e.authorization.Some? && e.authorization.value.status == Allowed
       && e.command == Policy(Revoke) && e.authentication.Verified?
       && var v := e.authentication.proof.envelope;
          && v.PolicyEnvelope? && v.revocation == Some(r.id) && v.principal == r.actor && v.id == r.operation && v.grantId == id
          && exists g :: g in s.grants && g.id == id && g.event < r.event
               && (g.subject, g.capability, g.prior, g.requested, g.scope)
                  == (v.subject, v.capability, v.grantPrior, v.grantRequested, v.columns)
  }

  lemma AcceptedRevocation(s: Store, id: GrantId)
    requires id in s.revocations && RevocationHolds(s, id) && (forall o :: o in s.operations ==> OperationHolds(s, o))
    ensures RevocationTraced(s, id)
  {
    hide OperationHolds;
    AcceptedOperations(s);
    GrantByIdFinds(s.grants, id);
    assert OperationTraced(s, s.revocations[id].operation);
  }

  /** Without a bootstrap there are no grants; with one, its row names the administrator's grant
      its own event made, and some grant of policy management is not revoked. */
  predicate StateTraced(s: Store) {
    match s.policy
    case None => s.grants == []
    case Some(p) =>
      && 1 <= p.event <= |s.log| && s.log[p.event - 1].command == Policy(Bootstrap)
      && p.principal in s.principals && p.operation in s.operations
      && (exists g :: g in s.grants && g.id == p.grant && g.capability == PolicyManageCapabilities && g.subject == p.principal
            && g.event == p.event && g.operation == p.operation)
      && (exists g :: g in s.grants && g.capability == PolicyManageCapabilities && g.id !in s.revocations)
  }

  lemma AcceptedState(s: Store)
    requires StateHolds(s)
    ensures StateTraced(s)
  {
    if s.policy.Some? { GrantByIdFinds(s.grants, s.policy.value.grant); }
  }

  // ---------------------------------------------------------------- authorization evidence

  /** What a command is decided under. */
  predicate DecidedUnder(command: Command, d: Decision) {
    match command
    case Authority(Approve) => d.capability == PacketApprove && d.prior == Some(AwaitingApproval) && d.requested == Some(WorkflowState.Approved)
    case Authority(Reject) => d.capability == PacketReject && d.prior == Some(AwaitingApproval) && d.requested == Some(WorkflowState.Rejected)
    case Authority(Release) => d.capability == PacketRelease && d.prior == Some(WorkflowState.Approved) && d.requested == Some(WorkflowState.Released)
    case Policy(_) => d.capability == PolicyManageCapabilities && d.prior.None? && d.requested.None?
    case RegisterBinding => d.capability == EffectManageBindings && d.prior.None? && d.requested.None?
    case RegisterExecutor => d.capability == EffectManageBindings && d.prior.None? && d.requested.None?
    case _ => false
  }

  /** A recorded decision is of the command's own capability and states, on the signer, with a
      reason of its status; packet decisions name an exact scope unless they are denied for want
      of one. */
  predicate EvidenceTraced(s: Store, k: Sequence)
    requires Recorded(s, k)
  {
    var e := s.log[k - 1];
    match e.authorization
    case None =>
      // After the bootstrap, every verified or replayed governed request has its decision.
      !(s.policy.Some? && 1 <= s.policy.value.event <= |s.log| && s.policy.value.event <= k
        && (e.authentication.Verified? || e.authentication.Replayed?)
        && (e.command.Authority? || e.command.Policy? || e.command.RegisterBinding? || e.command.RegisterExecutor?))
    case Some(d) =>
      && DecidedUnder(e.command, d)
      && (e.authentication.Verified? || e.authentication.Replayed?)
      && d.principal == e.authentication.proof.envelope.principal
      && (d.status == Allowed ==> d.reason == ActiveGrant || d.reason == BootstrapAllowed)
      && (d.status == NotEvaluated ==> d.reason == ReplayRejectedReason || d.reason == RequestBindingRejected)
      && (d.status == Denied ==> d.reason !in {ActiveGrant, BootstrapAllowed, ReplayRejectedReason, RequestBindingRejected})
      && (d.capability in {PacketApprove, PacketReject, PacketRelease} && d.scope.Versioned? ==> d.reason == ScopeRequired)
      && (d.status == Allowed && d.reason != BootstrapAllowed ==> d.grant.Some?)
  }

  lemma AcceptedEvidence(s: Store, k: Sequence)
    requires Recorded(s, k) && EventHolds(s, k)
    ensures EvidenceTraced(s, k)
  {
    hide GrantInForce;
  }

  /** An allowed decision on anything but the bootstrap. */
  predicate GrantedDecision(e: Event) {
    e.authorization.Some? && e.authorization.value.status == Allowed && e.authorization.value.reason != BootstrapAllowed
  }

  /** The decision names a grant, made for exactly what was decided by an earlier accepted event
      and not revoked before it. */
  ghost predicate Supported(s: Store, k: Sequence, d: Decision) {
    exists g :: g in s.grants && d.grant == Some(g.id) && g.event < k && GrantTraced(s, g)
      && g.subject == d.principal && g.capability == d.capability && g.prior == d.prior && g.requested == d.requested
      && (d.capability in {PacketApprove, PacketReject, PacketRelease} ==> g.scope == d.scope)
      && (g.id in s.revocations ==> s.revocations[g.id].event >= k)
  }

  lemma AcceptedDecision(s: Store, k: Sequence)
    requires PolicyAuditHolds(s) && Recorded(s, k)
    ensures var e := s.log[k - 1];
      e.authorization.Some? && e.authorization.value.status == Allowed && e.authorization.value.grant.Some? ==> Supported(s, k, e.authorization.value)
  {
    hide OperationHolds, StateHolds, GrantHolds, RevocationHolds, GrantTraced, ReasonHolds, EvidenceMissing, ScopeOf, PrincipalAgrees;
    var e := s.log[k - 1];
    assert EventHolds(s, k);
    if e.authorization.Some? && e.authorization.value.status == Allowed && e.authorization.value.grant.Some? {
      var d := e.authorization.value;
      assert GrantInForce(s, k, d);
      GrantByIdFinds(s.grants, d.grant.value);
      AcceptedGrant(s, GrantById(s.grants, d.grant.value).value);
    }
  }

  /** Policy audit soundness: whatever wrote the tables, if the loops accept them then consumed
      operations, grants, revocations and the bootstrap row are traced to the events that made
      them, decisions to their commands and signers, and every allowed decision but the bootstrap
      to a grant for exactly it, made by an earlier accepted event and not revoked before it. */
  lemma PolicyAuditSound(s: Store)
    requires PolicyAuditHolds(s)
    ensures StateTraced(s)
    ensures forall o :: o in s.operations ==> OperationTraced(s, o)
    ensures forall g :: g in s.grants ==> GrantTraced(s, g)
    ensures forall id :: id in s.revocations ==> RevocationTraced(s, id)
    ensures forall k :: Recorded(s, k) ==> EvidenceTraced(s, k)
    ensures forall k :: Recorded(s, k) && GrantedDecision(s.log[k - 1]) ==> Supported(s, k, s.log[k - 1].authorization.value)
  {
    hide OperationHolds, StateHolds, GrantHolds, RevocationHolds, EventHolds, StateTraced, OperationTraced, GrantTraced, RevocationTraced,
         Supported, EvidenceTraced;
    AcceptedState(s);
    AcceptedOperations(s);
    forall g | g in s.grants ensures GrantTraced(s, g) { AcceptedGrant(s, g); }
    forall id | id in s.revocations ensures RevocationTraced(s, id) { AcceptedRevocation(s, id); }
    forall k: Sequence | Recorded(s, k)
      ensures EvidenceTraced(s, k)
      ensures GrantedDecision(s.log[k - 1]) ==> Supported(s, k, s.log[k - 1].authorization.value)
    {
      AcceptedEvidence(s, k);
      AcceptedDecision(s, k);
      EvidenceNamesGrant(s, k);
    }
  }

  lemma EvidenceNamesGrant(s: Store, k: Sequence)
    requires Recorded(s, k) && EvidenceTraced(s, k)
    ensures GrantedDecision(s.log[k - 1]) ==> s.log[k - 1].authorization.value.grant.Some?
  {
  }

  // ---------------------------------------------------------------- effects

  /** The event at k is the accepted record of this command, request and identifiers. */
  predicate EffectRecorded(s: Store, k: Sequence, command: Command, request: RequestHash, identifiers: Identifiers) {
    && 1 <= k <= |s.log|
    && var e := s.log[k - 1]; e.accepted && e.command == command && e.governed == Request(request) && e.identifiers == identifiers
  }

  /** The release a request names, by the principal and under the grant that authorized it. */
  predicate ReleaseTraced(s: Store, r: EffectRequest) {
    && 1 <= r.release < r.event && r.release <= |s.log|
    && var e := s.log[r.release - 1];
       && e.accepted && e.command == Authority(Release) && e.packet == Some(r.packet) && e.resulting == Some(WorkflowState.Released)
       && e.authentication.Verified? && e.authentication.proof.envelope.principal == r.principal
       && e.authorization.Some? && e.authorization.value.capability == PacketRelease && e.authorization.value.grant == Some(r.grant)
  }

  /** The request names an earlier accepted release of its packet, by the principal and grant that
      authorized it, an approval of the packet, a grant for its exact scope made before the release
      and not revoked by then, a binding of its scope made before the request, and the released
      packet's manifest. */
  predicate RequestTraced(s: Store, r: EffectRequest) {
    && EffectRecorded(s, r.event, CreateEffect, RequestHash(r), EffectIdentifiers(r))
    && ReleaseTraced(s, r) && r.key == IdempotencyKey(r.effect, r.release)
    && (exists a :: a in s.approvals && a.id == r.approval && a.packet == r.packet && a.event == r.approvalEvent)
    && (exists g :: g in s.grants && g.id == r.grant && g.subject == r.principal && g.capability == PacketRelease && g.scope == Exact(r.scope)
          && g.event < r.release)
    && (r.grant in s.revocations ==> s.revocations[r.grant].event > r.release)
    && (exists b :: b in s.bindings && b.id == r.binding && b.scope == r.scope && b.target == r.target && b.credential == r.credential
          && b.event < r.event)
    && r.packet in s.packets && s.packets[r.packet].state == WorkflowState.Released
    && s.packets[r.packet].candidate == r.candidate && s.packets[r.packet].manifest == r.manifest
  }

  /** The request loop accepts a request only with everything it was derived from, and only while
      its packet's directory holds, intact, the artifacts it names. */
  lemma AcceptedRequest(s: Store, files: Files, r: EffectRequest)
    requires RequestHolds(s, files, r)
    ensures RequestTraced(s, r) && IntactFiles(files, r.packet, s.packets[r.packet], Artifacts(r.manifest, r.receipt))
  {
    hide Recompute, GrantById;
    GrantByIdFinds(s.grants, r.grant);
    RecomputeExact(files, r.packet, s.packets[r.packet]);
  }

  /** The claim is of an earlier request in the table, with its hash, and its event records it. */
  predicate ClaimTraced(s: Store, d: Dispatch) {
    && EffectRecorded(s, d.event, ClaimEffect, d.hash, DispatchIdentifiers(d.effect, d.id, d.attempt))
    && exists r :: r in s.requests && r.effect == d.effect && d.hash == RequestHash(r) && r.event < d.event
  }

  /** The result of a claim in the table, signed by a registered executor's key over exactly its
      envelope, after both were recorded, with coherent semantics; its event records it. */
  predicate ResultTraced(s: Store, rows: seq<Dispatch>, id: DispatchId)
    requires id in s.results
  {
    var row := s.results[id];
    var e := row.proof.envelope;
    && EffectRecorded(s, row.event, RecordResult, e.hash, ResultIdentifiers(row.proof))
    && e.dispatch == id && (exists d :: d in rows && d.id == id && d.event < row.event)
    && (exists r :: r in s.requests && r.effect == e.effect)
    && e.executor in s.executors && s.executors[e.executor].event < row.event
    && row.proof.signer == s.executors[e.executor].key == e.executorKey && row.proof.signed == e
    && (e.outcome == Succeeded ==> e.mayHaveOccurred && !e.retryPermitted && e.remote.Some? && e.response.Some? && e.error.None?)
    && (e.outcome == EffectFailed ==> !e.mayHaveOccurred && e.remote.None? && e.response.None? && e.error.Some?)
    && (e.outcome == Unknown ==> e.mayHaveOccurred && !e.retryPermitted && e.error.Some?)
  }

  lemma AcceptedClaim(s: Store, d: Dispatch)
    requires ClaimLinked(s, d)
    ensures ClaimTraced(s, d)
  {
    hide RequestById;
    RequestByIdFinds(s.requests, d.effect);
  }

  lemma AcceptedResult(s: Store, rows: seq<Dispatch>, id: DispatchId)
    requires id in s.results && ResultHolds(s, rows, id)
    ensures ResultTraced(s, rows, id)
  {
    hide RequestById, DispatchById;
    RequestByIdFinds(s.requests, s.results[id].proof.envelope.effect);
    DispatchByIdFinds(rows, id);
  }

  /** Every retry follows the result of the attempt before it. */
  predicate RetryTraced(s: Store, rows: seq<Dispatch>, d: Dispatch) {
    d.attempt > 1 ==>
      exists prior :: prior in rows && prior.effect == d.effect && prior.attempt == d.attempt - 1 && prior.id in s.results
        && s.results[prior.id].proof.envelope.outcome == EffectFailed && s.results[prior.id].proof.envelope.retryPermitted
        && s.results[prior.id].event < d.event
  }

  lemma AcceptedRetry(s: Store, rows: seq<Dispatch>, d: Dispatch)
    requires RetryHolds(s, rows, d)
    ensures RetryTraced(s, rows, d)
  {
    hide ClaimNumbered;
    ClaimNumberedExact(rows, d.effect, d.attempt - 1);
  }

  /** Effect audit tracing: whatever wrote the tables, if the loops accept them then every claim
      is of a request, every retry follows a failure that permits it, and every result is of a
      claim and signed by its registered executor over exactly what it says. */
  lemma EffectAuditTraces(s: Store, rows: seq<Dispatch>)
    requires EffectAuditHolds(s, rows)
    ensures forall d :: d in rows ==> ClaimTraced(s, d) && RetryTraced(s, rows, d)
    ensures forall id :: id in s.results ==> ResultTraced(s, rows, id)
  {
    hide ClaimLinked, RetryHolds, ResultHolds, AllNumbered, ClaimTraced, RetryTraced, ResultTraced;
    forall d | d in rows ensures ClaimTraced(s, d) && RetryTraced(s, rows, d) { AcceptedClaim(s, d); AcceptedRetry(s, rows, d); }
    forall id | id in s.results ensures ResultTraced(s, rows, id) { AcceptedResult(s, rows, id); }
  }
}
