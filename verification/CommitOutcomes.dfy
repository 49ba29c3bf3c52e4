/** How every signed transaction ends on a store the invariants hold of: when it accepts, when it
    denies, when it rolls back, and everything the store then holds (database.py,
    external_effects.py). */
module CommitOutcomes {
  import opened Models
  import opened Authorization
  import opened Ledger
  import opened Writers
  import opened System
  import opened Consumption
  import opened PolicyRuns
  import opened PacketRuns
  import opened Runs
  import opened ReadOutcomes

  /** Some unrevoked grant is for exactly this. */
  predicate GrantedFor(s: Store, principal: PrincipalId, capability: Capability, prior: Option<WorkflowState>,
                       requested: Option<WorkflowState>, scope: Option<Scope>) {
    && s.policy.Some?
    && exists g :: g in s.grants && g.id !in s.revocations && g.subject == principal && g.capability == capability
         && g.prior == prior && g.requested == requested && (scope.Some? ==> g.scope == Exact(scope.value))
  }

  /** The principal may manage the policy, or the bindings. */
  predicate Manages(s: Store, principal: PrincipalId, capability: Capability) {
    GrantedFor(s, principal, capability, None, None, None)
  }

  lemma AllowedIff(s: Store, q: Query)
    requires PolicyInv(s) && ScopeFits(q)
    ensures Evaluate(View(s), q).status == Allowed <==> GrantedFor(s, q.principal, q.capability, q.prior, q.requested, q.scope)
  {
    hide Evaluate, GrantSound, RevocationSound, BootstrapSound, HasAdmin, AcceptedBootstrap, Ordered;
    EvaluatorExact(View(s), q);
    if GrantedFor(s, q.principal, q.capability, q.prior, q.requested, q.scope) {
      var g :| g in s.grants && g.id !in s.revocations && g.subject == q.principal && g.capability == q.capability
        && g.prior == q.prior && g.requested == q.requested && (q.scope.Some? ==> g.scope == Exact(q.scope.value));
      assert Authorizes(View(s), q, g);
    }
    if Evaluate(View(s), q).status == Allowed {
      var g :| Authorizes(View(s), q, g);
    }
  }

  /** A proof can be consumed iff its operation id has not been. */
  lemma ConsumableIff(s: Store, proof: SignedOperation)
    requires ConsumptionInv(s) && Trusted(s, proof)
    ensures Consumable(s, proof) <==> proof.envelope.id !in s.operations
  {
    if !Consumable(s, proof) && proof.envelope.id !in s.operations {
      assert Consumed(s, proof);
      ConsumedById(s, proof);
    }
  }

  /** No proof is consumed under two operations, and every consumed proof is a registered principal's. */
  ghost predicate ProofsDistinct(s: Store) {
    && (forall o, p :: o in s.operations && p in s.operations && s.operations[o].proof == s.operations[p].proof ==> o == p)
    && (forall o :: o in s.operations ==> s.operations[o].proof.envelope.principal in s.principals)
  }

  /** In any tables, consuming a proof that can be consumed overwrites none and keeps them so. */
  lemma ConsumingKeepsDistinct(s: Store, e: Event, proof: SignedOperation)
    requires ProofsDistinct(s) && Consumable(s, proof)
    ensures ProofsDistinct(Adjudicate(s, e, proof)) && proof.envelope.id !in s.operations
  {
  }

  /** One event more, which consumes this proof. */
  predicate Adjudication(s: Store, t: Store, proof: SignedOperation, accepted: bool) {
    && |t.log| == |s.log| + 1 && s.log <= t.log
    && t.log[|s.log|].authentication == Verified(proof) && t.log[|s.log|].accepted == accepted
    && t.operations == s.operations[proof.envelope.id := ConsumedOperation(proof, |s.log| + 1, accepted)]
  }

  /** The decision a denial records: on the request, naming no grant. */
  function DenialOf(principal: PrincipalId, capability: Capability, prior: Option<WorkflowState>, requested: Option<WorkflowState>,
                    scope: Option<Scope>, reason: AuthorizationReason): Decision {
    Decision(Denied, principal, capability, prior, requested, if scope.Some? then Exact(scope.value) else Versioned, None, reason)
  }

  /** The decision an acceptance records: on the request, naming a grant unless it is the bootstrap. */
  predicate AllowedOn(d: Decision, principal: PrincipalId, capability: Capability, prior: Option<WorkflowState>,
                      requested: Option<WorkflowState>, scope: Option<Scope>, bootstrap: bool) {
    && d.status == Allowed && d.principal == principal && d.capability == capability && d.prior == prior && d.requested == requested
    && d.scope == (if scope.Some? then Exact(scope.value) else Versioned)
    && if bootstrap then d.grant.None? && d.reason == BootstrapAllowed else d.grant.Some? && d.reason == ActiveGrant
  }

  /** A denial changes the log and the consumed proofs only, and records this decision. */
  predicate DeniedFor(s: Store, t: Store, proof: SignedOperation, d: Decision) {
    t == s.(log := t.log, operations := t.operations) && Adjudication(s, t, proof, false) && t.log[|s.log|].authorization == Some(d)
  }

  lemma EvaluationSays(v: PolicyView, q: Query)
    requires ScopeFits(q)
    ensures var d := Evaluate(v, q);
      if d.status == Allowed then AllowedOn(d, q.principal, q.capability, q.prior, q.requested, q.scope, false)
      else d == DenialOf(q.principal, q.capability, q.prior, q.requested, q.scope, d.reason)
  {
    hide Select;
  }

  // ---------------------------------------------------------------- packet authority

  /** The event a packet request is recorded as. */
  predicate PacketSays(e: Event, v: Envelope, accepted: bool, prior: WorkflowState, governed: FileHash, receipt: Option<FileHash>)
    requires v.PacketEnvelope?
  {
    && e.command == Authority(v.operation) && e.packet == Some(v.packet) && e.candidate == Some(v.candidate)
    && e.prior == Some(prior) && e.requested == Some(v.requested) && e.resulting == Some(if accepted then v.requested else prior)
    && e.accepted == accepted && e.governed == Manifest(governed) && e.receipt == receipt
    && e.identifiers == PacketIdentifiers(v.packet, v.candidate, v.id, v.approval, v.decision, v.scope, v.approvalEvent)
  }

  /** The packet and its candidate are the request's, together in one state. */
  predicate AtPacket(s: Store, v: Envelope)
    requires v.PacketEnvelope?
  {
    v.packet in s.packets && s.packets[v.packet].candidate == v.candidate
  }

  /** The request has the packet's scope, and its principal a grant for moving it from where it is. */
  predicate Authorized(s: Store, v: Envelope)
    requires v.PacketEnvelope? && v.packet in s.packets
  {
    var row := s.packets[v.packet];
    && row.scope.Some? && v.scope == row.scope
    && GrantedFor(s, v.principal, RequiredCapability(v.operation), Some(row.state), Some(v.requested), row.scope)
  }

  /** The packet's manifest, and its approval: named, for a release, and new otherwise. */
  predicate Evidenced(s: Store, v: Envelope)
    requires v.PacketEnvelope? && v.packet in s.packets
  {
    var row := s.packets[v.packet];
    && row.manifest == v.manifest
    && if v.operation.Release? then
         exists a :: a in s.approvals && a.packet == v.packet && a.id == v.approval && a.decision == DecisionApproved
           && a.manifest == v.manifest && Some(a.event) == v.approvalEvent && a.scope == row.scope
       else forall a :: a in s.approvals ==> a.id != v.approval
  }

  /** The accepted operation: its event, both states moved, and its approval row unless a release. */
  predicate Moved(s: Store, t: Store, proof: SignedOperation, receipt: FileHash, d: Decision)
    requires proof.envelope.PacketEnvelope? && proof.envelope.packet in s.packets
  {
    var v := proof.envelope;
    var row := s.packets[v.packet];
    && Adjudication(s, t, proof, true)
    && PacketSays(t.log[|s.log|], v, true, row.state, v.manifest, Some(receipt)) && t.log[|s.log|].authorization == Some(d)
    && t.packets == s.packets[v.packet := Packet(row.candidate, row.manifest, row.scope, v.requested)]
    && t.candidates == s.candidates[v.candidate := v.requested]
    && (if v.operation.Release? then t.approvals == s.approvals
        else t.approvals == s.approvals + [ApprovalRow(v.approval, v.packet, v.decision, v.manifest, |s.log| + 1, v.principal, v.id, v.scope)])
    && t == s.(log := t.log, operations := t.operations, packets := t.packets, candidates := t.candidates, approvals := t.approvals)
  }

  lemma CandidatePaired(s: Store, packet: PacketId)
    requires PacketInv(s) && packet in s.packets
    ensures s.packets[packet].candidate in s.candidates && s.candidates[s.packets[packet].candidate] == s.packets[packet].state
  {
    hide HistoriesBounded, OnePacketEach, TrailsOk;
  }

  /** Why a packet request is denied: for want of a scope, for another scope than the packet's, or
      for the evaluator's reason. */
  function WhyNotAuthorize(s: Store, v: Envelope): AuthorizationReason
    requires v.PacketEnvelope? && v.packet in s.packets
  {
    var row := s.packets[v.packet];
    if row.scope.None? || v.scope.None? then ScopeRequired
    else if v.scope != row.scope then RequestScopeMismatch
    else Evaluate(View(s), Query(v.principal, RequiredCapability(v.operation), Some(row.state), Some(v.requested), row.scope)).reason
  }

  lemma TransactionSays(s: Store, v: Envelope)
    requires PolicyInv(s) && v.PacketEnvelope? && v.packet in s.packets
    ensures var row := s.packets[v.packet]; var d := TransactionDecision(s, v, row.state, row);
      && (d.status == Allowed <==> Authorized(s, v))
      && if d.status == Allowed then
           AllowedOn(d, v.principal, RequiredCapability(v.operation), Some(row.state), Some(v.requested), row.scope, false)
         else
           d == DenialOf(v.principal, RequiredCapability(v.operation), Some(row.state), Some(v.requested), row.scope, WhyNotAuthorize(s, v))
  {
    hide PolicyInv, Evaluate;
    var row := s.packets[v.packet];
    var q := Query(v.principal, RequiredCapability(v.operation), Some(row.state), Some(v.requested), row.scope);
    if row.scope.Some? {
      EvaluationSays(View(s), q);
      AllowedIff(s, q);
    }
  }

  /** The denial of a packet request at its packet's state. */
  predicate PacketDenied(s: Store, t: Store, proof: SignedOperation, receipt: FileHash)
    requires proof.envelope.PacketEnvelope? && proof.envelope.packet in s.packets
  {
    var v := proof.envelope;
    var row := s.packets[v.packet];
    && DeniedFor(s, t, proof, DenialOf(v.principal, RequiredCapability(v.operation), Some(row.state), Some(v.requested), row.scope, WhyNotAuthorize(s, v)))
    && PacketSays(t.log[|s.log|], v, false, row.state, v.manifest, Some(receipt))
  }

  /** How an authority commit ends, given its decision. */
  lemma AuthoritySteps(s: Store, proof: SignedOperation, receipt: FileHash)
    requires proof.envelope.PacketEnvelope?
    requires AtPacket(s, proof.envelope) ==> var v := proof.envelope; v.candidate in s.candidates && s.candidates[v.candidate] == s.packets[v.packet].state
    ensures var v := proof.envelope; var t := CommitAuthority(s, proof, receipt);
      if !NeedsAuthority(v.expectedPrior, v.requested) || !AtPacket(s, v) || !Consumable(s, proof) then t.None?
      else
        var row := s.packets[v.packet];
        var d := TransactionDecision(s, v, row.state, row);
        if d.status != Allowed then
          && t.Some? && DeniedFor(s, t.value, proof, d)
          && PacketSays(t.value.log[|s.log|], v, false, row.state, v.manifest, Some(receipt))
        else if row.state != v.expectedPrior || !Evidenced(s, v) then t.None?
        else t.Some? && Moved(s, t.value, proof, receipt, d)
  {
    hide TransactionDecision, Consumable;
  }

  /** How an authority commit ends: it rolls back iff its operation was consumed, it asks for no
      step that needs authority, its packet is not its candidate's, or it is authorized but lacks
      its evidence; otherwise it is accepted, and the packet moves, iff its principal holds a grant
      for exactly that, and it is denied iff not. */
  lemma AuthorityOutcome(s: Store, proof: SignedOperation, receipt: FileHash)
    requires StoreInv(s) && Trusted(s, proof) && proof.envelope.PacketEnvelope?
    ensures var v := proof.envelope; var t := CommitAuthority(s, proof, receipt);
      if v.id in s.operations || !NeedsAuthority(v.expectedPrior, v.requested) || !AtPacket(s, v) then t.None?
      else if !Authorized(s, v) then t.Some? && PacketDenied(s, t.value, proof, receipt)
      else if s.packets[v.packet].state != v.expectedPrior || !Evidenced(s, v) then t.None?
      else
        && t.Some? && |t.value.log| > |s.log| && t.value.log[|s.log|].authorization.Some?
        && var d := t.value.log[|s.log|].authorization.value; var row := s.packets[v.packet];
           && Moved(s, t.value, proof, receipt, d)
           && AllowedOn(d, v.principal, RequiredCapability(v.operation), Some(row.state), Some(v.requested), row.scope, false)
  {
    hide StoreInv, TransactionDecision, CommitAuthority, Consumable, PacketSays, Authorized, Evidenced, Evaluate, Trusted,
         ConsumptionInv, PolicyInv, PacketInv, EffectRuns.EffectInv, WhyNotAuthorize, NeedsAuthority;
    var v := proof.envelope;
    InvParts(s);
    ConsumableIff(s, proof);
    if AtPacket(s, v) {
      CandidatePaired(s, v.packet);
      TransactionSays(s, v);
    }
    AuthoritySteps(s, proof, receipt);
  }

  lemma InvParts(s: Store)
    requires StoreInv(s)
    ensures ConsumptionInv(s) && PolicyInv(s) && PacketInv(s) && EffectRuns.EffectInv(s)
  {
  }

  /** The rejection of a packet request, with the decision of the moment. */
  predicate RejectedAt(s: Store, t: Store, proof: SignedOperation, prior: WorkflowState, governed: FileHash, read: Option<FileHash>)
    requires proof.envelope.PacketEnvelope?
  {
    && t == s.(log := t.log, operations := t.operations) && Adjudication(s, t, proof, false)
    && PacketSays(t.log[|s.log|], proof.envelope, false, prior, governed, read) && t.log[|s.log|].authorization.Some?
  }

  lemma RejectionSteps(s: Store, proof: SignedOperation, prior: WorkflowState, governed: FileHash, read: Option<FileHash>)
    requires proof.envelope.PacketEnvelope?
    ensures var t := CommitRejection(s, proof, prior, governed, read);
      if Consumable(s, proof) then t.Some? && RejectedAt(s, t.value, proof, prior, governed, read) else t.None?
  {
    hide TransactionDecision, Consumable;
  }

  /** A rejection is recorded, at the state the request met, iff its operation was not consumed. */
  lemma RejectionOutcome(s: Store, proof: SignedOperation, prior: WorkflowState, governed: FileHash, read: Option<FileHash>)
    requires StoreInv(s) && Trusted(s, proof) && proof.envelope.PacketEnvelope?
    ensures var t := CommitRejection(s, proof, prior, governed, read);
      if proof.envelope.id in s.operations then t.None? else t.Some? && RejectedAt(s, t.value, proof, prior, governed, read)
  {
    hide StoreInv, CommitRejection, Consumable, RejectedAt, ConsumptionInv, PolicyInv, PacketInv, EffectRuns.EffectInv;
    InvParts(s);
    ConsumableIff(s, proof);
    RejectionSteps(s, proof, prior, governed, read);
  }

  // ---------------------------------------------------------------- capability policy

  /** The event a policy request is recorded as. */
  predicate PolicySays(e: Event, v: Envelope, accepted: bool)
    requires v.PolicyEnvelope?
  {
    && e.command == Policy(v.policy) && e.accepted == accepted && e.packet.None? && e.candidate.None?
    && e.prior.None? && e.requested.None? && e.resulting.None? && e.governed == Ungoverned && e.receipt.None?
    && e.identifiers == PolicyIdentifiers(v.id, v.grantId, v.revocation, v.subject, v.capability, v.grantPrior, v.grantRequested, v.columns)
    && e.authorization.Some? && (accepted ==>
         AllowedOn(e.authorization.value, v.principal, PolicyManageCapabilities, None, None, None, v.policy.Bootstrap?))
  }

  function PolicyDenial(v: Envelope, reason: AuthorizationReason): Decision {
    DenialOf(v.principal, PolicyManageCapabilities, None, None, None, reason)
  }

  /** The denial of a policy request for this reason. */
  predicate PolicyDenied(s: Store, t: Store, proof: SignedOperation, reason: AuthorizationReason)
    requires proof.envelope.PolicyEnvelope?
  {
    DeniedFor(s, t, proof, PolicyDenial(proof.envelope, reason)) && PolicySays(t.log[|s.log|], proof.envelope, false)
  }

  /** One grant more, of what the envelope says, with the bootstrap row if it is the bootstrap. */
  predicate Granted(s: Store, t: Store, proof: SignedOperation)
    requires proof.envelope.PolicyEnvelope?
  {
    var v := proof.envelope;
    var n := |s.log| + 1;
    && Adjudication(s, t, proof, true) && PolicySays(t.log[|s.log|], v, true)
    && t.grants == s.grants + [GrantRow(v.grantId, v.subject, v.capability, v.grantPrior, v.grantRequested, v.columns, v.principal, v.id, n)]
    && t.policy == (if v.policy.Bootstrap? then Some(PolicyState(v.principal, v.grantId, v.id, n)) else s.policy)
    && t == s.(log := t.log, operations := t.operations, grants := t.grants, policy := t.policy)
  }

  predicate UnusedGrant(s: Store, id: GrantId) {
    forall g :: g in s.grants ==> g.id != id
  }

  predicate Revoked(s: Store, t: Store, proof: SignedOperation)
    requires proof.envelope.PolicyEnvelope? && proof.envelope.revocation.Some?
  {
    var v := proof.envelope;
    && Adjudication(s, t, proof, true) && PolicySays(t.log[|s.log|], v, true)
    && t.revocations == s.revocations[v.grantId := Revocation(v.revocation.value, v.principal, v.id, |s.log| + 1)]
    && t == s.(log := t.log, operations := t.operations, revocations := t.revocations)
  }

  predicate UnusedRevocation(s: Store, id: RevocationId) {
    forall g :: g in s.revocations ==> s.revocations[g].id != id
  }

  lemma GrantedStoreIs(s: Store, proof: SignedOperation, d: Decision)
    requires proof.envelope.PolicyEnvelope?
    requires AllowedOn(d, proof.envelope.principal, PolicyManageCapabilities, None, None, None, proof.envelope.policy.Bootstrap?)
    ensures Granted(s, GrantedStore(s, proof, d), proof)
  {
    hide AllowedOn;
  }

  lemma RevokedStoreIs(s: Store, proof: SignedOperation, d: Decision)
    requires proof.envelope.PolicyEnvelope? && proof.envelope.policy.Revoke? && proof.envelope.revocation.Some?
    requires AllowedOn(d, proof.envelope.principal, PolicyManageCapabilities, None, None, None, false)
    ensures Revoked(s, RevokedStore(s, proof, d), proof)
  {
    hide AllowedOn;
  }

  lemma PolicyDenialIs(s: Store, proof: SignedOperation, reason: AuthorizationReason)
    requires proof.envelope.PolicyEnvelope?
    ensures PolicyDenied(s, Adjudicate(s, PolicyEvent(proof, PolicyDenial(proof.envelope, reason), false), proof), proof, reason)
  {
  }

  /** What a policy decision records. */
  lemma PolicyDecisionSays(s: Store, v: Envelope)
    requires v.PolicyEnvelope?
    ensures var d := PolicyDecision(s, v);
      if d.status == Allowed then AllowedOn(d, v.principal, PolicyManageCapabilities, None, None, None, v.policy.Bootstrap?)
      else d == PolicyDenial(v, d.reason)
  {
    hide Evaluate, GrantById, RemainingAdmin;
    EvaluationSays(View(s), PolicyQuery(v.principal, PolicyManageCapabilities));
  }

  /** The new grant is unused, for a registered subject, canonical in its states and its scope. */
  predicate Grantable(s: Store, v: Envelope)
    requires v.PolicyEnvelope?
  {
    && UnusedGrant(s, v.grantId) && v.subject in s.principals && (v.grantPrior, v.grantRequested) == StatePair(v.capability)
    && (v.columns.Exact? ==> PacketScoped(v.capability)) && (v.columns.Versioned? ==> !PacketScoped(v.capability))
  }

  /** How a policy commit ends, given its decision. */
  lemma PolicySteps(s: Store, proof: SignedOperation)
    requires proof.envelope.PolicyEnvelope?
    ensures var v := proof.envelope; var t := CommitPolicy(s, proof); var d := PolicyDecision(s, v);
      if !Consumable(s, proof) then t.None?
      else if d.status != Allowed then t.Some? && PolicyDenied(s, t.value, proof, d.reason)
      else if v.policy.Revoke? then
        if v.revocation.Some? && UnusedRevocation(s, v.revocation.value) then t.Some? && Revoked(s, t.value, proof) else t.None?
      else if Grantable(s, v) then t.Some? && Granted(s, t.value, proof)
      else t.None?
  {
    hide PolicyDecision, Consumable, GrantedStore, RevokedStore, Adjudicate, Granted, Revoked, PolicyEvent, AllowedOn, PolicyDenied, StatePair;
    var v := proof.envelope;
    var d := PolicyDecision(s, v);
    PolicyDecisionSays(s, v);
    if d.status != Allowed { PolicyDenialIs(s, proof, d.reason); }
    else if !v.policy.Revoke? { GrantedStoreIs(s, proof, d); }
    else if v.revocation.Some? { RevokedStoreIs(s, proof, d); }
    GrantableIff(s, v);
  }

  lemma GrantableIff(s: Store, v: Envelope)
    requires v.PolicyEnvelope?
    ensures GrantInsertable(s, NewGrant(s, v)) <==> Grantable(s, v)
  {
    hide StatePair, PacketScoped;
  }

  /** Who does not manage the policy is denied for the evaluator's reason. */
  function WhyNotManage(s: Store, principal: PrincipalId, capability: Capability): AuthorizationReason {
    Evaluate(View(s), PolicyQuery(principal, capability)).reason
  }

  /** The registry is the requester alone, and nothing has been bootstrapped. */
  predicate MayBootstrap(s: Store, v: Envelope)
    requires v.PolicyEnvelope?
  {
    s.policy.None? && s.principals.Keys == {v.principal} && v.columns != Unversioned
  }

  lemma NothingBeforeBootstrap(s: Store)
    requires PolicyInv(s)
    ensures s.policy.None? ==> s.grants == [] && s.revocations == map[]
  {
    hide GrantSound, HasAdmin, AcceptedBootstrap, Ordered, BootstrapSound;
    if s.policy.None? {
      forall id ensures id !in s.revocations { if id in s.revocations { RevocationNeedsGrant(s, id); } }
    }
  }

  lemma RevocationNeedsGrant(s: Store, id: GrantId)
    requires PolicyInv(s) && id in s.revocations
    ensures s.grants != []
  {
    hide GrantSound, HasAdmin, AcceptedBootstrap, Ordered, BootstrapSound;
    assert RevocationSound(s, id);
  }

  lemma BootstrapDecisionIs(s: Store, v: Envelope)
    requires v.PolicyEnvelope? && v.policy.Bootstrap? && (s.policy.None? ==> s.grants == [] && s.revocations == map[])
    ensures var d := PolicyDecision(s, v);
      && (d.status == Allowed <==> MayBootstrap(s, v))
      && (d.status != Allowed ==> d.reason == if s.policy.Some? then PolicyAlreadyBootstrapped
                                              else if s.principals.Keys != {v.principal} then RequestBindingRejected else ScopeRequired)
  {
  }

  /** Why a bootstrap is denied. */
  function WhyNotBootstrap(s: Store, v: Envelope): AuthorizationReason {
    if s.policy.Some? then PolicyAlreadyBootstrapped
    else if s.principals.Keys != {v.principal} then RequestBindingRejected else ScopeRequired
  }

  /** The bootstrap is accepted iff no policy exists, the registry is its principal alone and the
      grant is versioned; a grant that is not canonical then rolls back. */
  lemma BootstrapOutcome(s: Store, proof: SignedOperation)
    requires StoreInv(s) && Trusted(s, proof) && proof.envelope.PolicyEnvelope? && proof.envelope.policy.Bootstrap?
    ensures var v := proof.envelope; var t := CommitPolicy(s, proof);
      if v.id in s.operations then t.None?
      else if !MayBootstrap(s, v) then t.Some? && PolicyDenied(s, t.value, proof, WhyNotBootstrap(s, v))
      else if Grantable(s, v) then t.Some? && Granted(s, t.value, proof)
      else t.None?
  {
    hide StoreInv, Consumable, PolicyInv, ConsumptionInv, PacketInv, EffectRuns.EffectInv, CommitPolicy, PolicyDecision, Granted, PolicyDenied,
         Trusted, Grantable;
    var v := proof.envelope;
    InvParts(s);
    ConsumableIff(s, proof);
    NothingBeforeBootstrap(s);
    BootstrapDecisionIs(s, v);
    PolicySteps(s, proof);
  }

  lemma ManagerAllowed(s: Store, principal: PrincipalId, capability: Capability)
    requires PolicyInv(s) && !PacketScoped(capability)
    ensures var d := Evaluate(View(s), PolicyQuery(principal, capability));
      && (d.status == Allowed <==> Manages(s, principal, capability)) && d.principal == principal && d.capability == capability
      && d.status != NotEvaluated && d.reason != ScopeRequired && d.reason != RequestBindingRejected
  {
    hide PolicyInv, Evaluate;
    var q := PolicyQuery(principal, capability);
    AllowedIff(s, q);
    EvaluationForm(View(s), q);
    NoScopeAsked(View(s), q);
  }

  lemma NoScopeAsked(v: PolicyView, q: Query)
    requires !PacketScoped(q.capability) && q.scope.None?
    ensures Evaluate(v, q).reason != ScopeRequired
  {
    hide Select;
  }

  /** The principal manages the policy, and the new grant is for a registered subject, with a scope
      if it is for packets and a scope version in any case. */
  predicate MayGrant(s: Store, v: Envelope)
    requires v.PolicyEnvelope?
  {
    && Manages(s, v.principal, PolicyManageCapabilities) && v.subject in s.principals
    && v.columns != Unversioned && (PacketScoped(v.capability) ==> v.columns.Exact?)
  }

  function WhyNotGrant(s: Store, v: Envelope): AuthorizationReason
    requires v.PolicyEnvelope?
  {
    if !Manages(s, v.principal, PolicyManageCapabilities) then WhyNotManage(s, v.principal, PolicyManageCapabilities)
    else if v.columns != Unversioned && v.subject !in s.principals then UnknownSubjectPrincipal
    else ScopeRequired
  }

  lemma GrantDecisionIs(s: Store, v: Envelope)
    requires PolicyInv(s) && v.PolicyEnvelope? && v.policy.Grant?
    ensures var d := PolicyDecision(s, v);
      && (d.status == Allowed <==> MayGrant(s, v))
      && (d.status != Allowed ==> d.reason == WhyNotGrant(s, v))
  {
    hide PolicyInv, Evaluate, Manages;
    ManagerAllowed(s, v.principal, PolicyManageCapabilities);
  }

  /** A grant is accepted iff its principal manages the policy, its subject is registered and its
      scope is what its capability needs; a used id or a noncanonical grant then rolls back. */
  lemma GrantOutcome(s: Store, proof: SignedOperation)
    requires StoreInv(s) && Trusted(s, proof) && proof.envelope.PolicyEnvelope? && proof.envelope.policy.Grant?
    ensures var v := proof.envelope; var t := CommitPolicy(s, proof);
      if v.id in s.operations then t.None?
      else if !MayGrant(s, v) then t.Some? && PolicyDenied(s, t.value, proof, WhyNotGrant(s, v))
      else if Grantable(s, v) then t.Some? && Granted(s, t.value, proof)
      else t.None?
  {
    hide StoreInv, Consumable, PolicyInv, ConsumptionInv, PacketInv, EffectRuns.EffectInv, CommitPolicy, PolicyDecision, Granted, PolicyDenied,
         Trusted, Manages, Grantable, WhyNotGrant;
    InvParts(s);
    ConsumableIff(s, proof);
    GrantDecisionIs(s, proof.envelope);
    PolicySteps(s, proof);
  }

  /** The grant the envelope names is in the table and is what the envelope says it is. */
  predicate NamesGrant(s: Store, v: Envelope)
    requires v.PolicyEnvelope?
  {
    exists g :: g in s.grants && g.id == v.grantId
      && (g.subject, g.capability, g.prior, g.requested, g.scope) == (v.subject, v.capability, v.grantPrior, v.grantRequested, v.columns)
  }

  /** Revoking it leaves some unrevoked grant of policy management. */
  predicate LeavesAdmin(s: Store, v: Envelope)
    requires v.PolicyEnvelope?
  {
    v.capability == PolicyManageCapabilities ==>
      exists g :: g in s.grants && g.capability == PolicyManageCapabilities && g.id !in s.revocations && g.id != v.grantId
  }

  predicate MayRevoke(s: Store, v: Envelope)
    requires v.PolicyEnvelope?
  {
    Manages(s, v.principal, PolicyManageCapabilities) && NamesGrant(s, v) && v.grantId !in s.revocations && LeavesAdmin(s, v)
  }

  /** The first thing wrong with a revocation. */
  function WhyNotRevoke(s: Store, v: Envelope): AuthorizationReason
    requires v.PolicyEnvelope?
  {
    if !Manages(s, v.principal, PolicyManageCapabilities) then WhyNotManage(s, v.principal, PolicyManageCapabilities)
    else if UnusedGrant(s, v.grantId) then UnknownGrant
    else if !NamesGrant(s, v) then GrantBindingMismatch
    else if v.grantId in s.revocations then GrantAlreadyRevoked
    else LastPolicyAdmin
  }

  lemma RevocationDecided(s: Store, v: Envelope, allowed: Decision)
    requires PolicyInv(s) && v.PolicyEnvelope? && allowed.status == Allowed
    ensures var d := RevokeDecision(s, v, allowed);
      && (d.status == Allowed <==> NamesGrant(s, v) && v.grantId !in s.revocations && LeavesAdmin(s, v))
      && (d.status != Allowed && Manages(s, v.principal, PolicyManageCapabilities) ==> d.reason == WhyNotRevoke(s, v))
  {
    hide Manages, GrantById, GrantSound, RevocationSound, BootstrapSound, HasAdmin, AcceptedBootstrap, Ordered;
    GrantByIdFinds(s.grants, v.grantId);
  }

  lemma RevokeDecisionIs(s: Store, v: Envelope)
    requires PolicyInv(s) && v.PolicyEnvelope? && v.policy.Revoke?
    ensures var d := PolicyDecision(s, v);
      && (d.status == Allowed <==> MayRevoke(s, v))
      && (d.status != Allowed ==> d.reason == WhyNotRevoke(s, v))
  {
    hide PolicyInv, Evaluate, Manages, RevokeDecision, NamesGrant, LeavesAdmin, UnusedGrant;
    ManagerAllowed(s, v.principal, PolicyManageCapabilities);
    var d := Evaluate(View(s), PolicyQuery(v.principal, PolicyManageCapabilities));
    if d.status == Allowed { RevocationDecided(s, v, d); }
  }

  /** A revocation is accepted iff its principal manages the policy, it names a grant as it is, not
      yet revoked, and an administrator remains; without an unused revocation id it then rolls
      back, and it is otherwise denied for the first of these that fails. */
  lemma RevocationOutcome(s: Store, proof: SignedOperation)
    requires StoreInv(s) && Trusted(s, proof) && proof.envelope.PolicyEnvelope? && proof.envelope.policy.Revoke?
    ensures var v := proof.envelope; var t := CommitPolicy(s, proof);
      if v.id in s.operations then t.None?
      else if !MayRevoke(s, v) then t.Some? && PolicyDenied(s, t.value, proof, WhyNotRevoke(s, v))
      else if v.revocation.Some? && UnusedRevocation(s, v.revocation.value) then t.Some? && Revoked(s, t.value, proof)
      else t.None?
  {
    hide StoreInv, Consumable, PolicyInv, ConsumptionInv, PacketInv, EffectRuns.EffectInv, CommitPolicy, PolicyDecision, Revoked, PolicyDenied,
         UnusedRevocation, Trusted, MayRevoke, WhyNotRevoke;
    InvParts(s);
    ConsumableIff(s, proof);
    RevokeDecisionIs(s, proof.envelope);
    PolicySteps(s, proof);
  }

  /** The proof is consumed by an event that evaluates nothing. */
  predicate Misdirected(s: Store, t: Store, proof: SignedOperation)
    requires proof.envelope.PolicyEnvelope?
  {
    && t == s.(log := t.log, operations := t.operations) && Adjudication(s, t, proof, false)
    && PolicySays(t.log[|s.log|], proof.envelope, false)
    && t.log[|s.log|].authorization
       == Some(Decision(NotEvaluated, proof.envelope.principal, PolicyManageCapabilities, None, None, Versioned, None, RequestBindingRejected))
  }

  lemma BindingRejectionSteps(s: Store, proof: SignedOperation)
    requires proof.envelope.PolicyEnvelope?
    ensures var t := CommitPolicyBindingRejection(s, proof);
      if Consumable(s, proof) then t.Some? && Misdirected(s, t.value, proof) else t.None?
  {
    hide Consumable;
  }

  /** A policy request whose kind is not the asserted one only consumes its proof. */
  lemma BindingRejectionOutcome(s: Store, proof: SignedOperation)
    requires StoreInv(s) && Trusted(s, proof) && proof.envelope.PolicyEnvelope?
    ensures var t := CommitPolicyBindingRejection(s, proof);
      if proof.envelope.id in s.operations then t.None? else t.Some? && Misdirected(s, t.value, proof)
  {
    hide StoreInv, CommitPolicyBindingRejection, Consumable, Misdirected, ConsumptionInv, PolicyInv, PacketInv, EffectRuns.EffectInv;
    InvParts(s);
    ConsumableIff(s, proof);
    BindingRejectionSteps(s, proof);
  }

  // ---------------------------------------------------------------- bindings and executors

  /** The event a registration is recorded as. */
  predicate ManagementSays(e: Event, v: Envelope, accepted: bool)
    requires ManagementEnvelope(v)
  {
    && e.accepted == accepted && e.packet.None? && e.candidate.None? && e.prior.None? && e.requested.None? && e.resulting.None?
    && e.governed == Ungoverned && e.receipt.None?
    && e.command == (if v.BindingEnvelope? then RegisterBinding else RegisterExecutor)
    && e.identifiers == (if v.BindingEnvelope? then BindingIdentifiers(v.id, v.binding, v.bindingScope, v.target, v.credential)
                         else ExecutorIdentifiers(v.id, v.executor, v.executorKey))
    && e.authorization.Some? && (accepted ==> AllowedOn(e.authorization.value, v.principal, EffectManageBindings, None, None, None, false))
  }

  /** Neither the scope nor the target of a binding, nor the id or key of an executor, is taken. */
  predicate Unregistered(s: Store, v: Envelope)
    requires ManagementEnvelope(v)
  {
    && (v.BindingEnvelope? ==> forall b :: b in s.bindings ==> b.scope != v.bindingScope && b.target != v.target)
    && (v.ExecutorEnvelope? ==> v.executor !in s.executors && forall x :: x in s.executors ==> s.executors[x].key != v.executorKey)
  }

  predicate UnusedBinding(s: Store, v: Envelope)
    requires ManagementEnvelope(v)
  {
    v.BindingEnvelope? ==> forall b :: b in s.bindings ==> b.id != v.binding
  }

  predicate RegistrationDenied(s: Store, t: Store, proof: SignedOperation, reason: AuthorizationReason)
    requires ManagementEnvelope(proof.envelope)
  {
    && DeniedFor(s, t, proof, DenialOf(proof.envelope.principal, EffectManageBindings, None, None, None, reason))
    && ManagementSays(t.log[|s.log|], proof.envelope, false)
  }

  predicate Registered(s: Store, t: Store, proof: SignedOperation)
    requires ManagementEnvelope(proof.envelope)
  {
    var v := proof.envelope;
    var n := |s.log| + 1;
    && Adjudication(s, t, proof, true) && ManagementSays(t.log[|s.log|], v, true)
    && t == s.(log := t.log, operations := t.operations, bindings := t.bindings, executors := t.executors)
    && t.bindings == (if v.ExecutorEnvelope? then s.bindings
                      else s.bindings + [Binding(v.binding, v.bindingScope, v.target, v.credential, v.principal, v.id, n)])
    && t.executors == (if v.BindingEnvelope? then s.executors
                       else s.executors[v.executor := Executor(v.executorKey, v.principal, v.id, n)])
  }

  lemma RegisteredIff(s: Store, v: Envelope)
    requires ManagementEnvelope(v)
    ensures AlreadyRegistered(s, v) <==> !Unregistered(s, v)
  {
  }

  function WhyNotRegister(s: Store, v: Envelope): AuthorizationReason {
    if Manages(s, v.principal, EffectManageBindings) then RequestBindingRejected else WhyNotManage(s, v.principal, EffectManageBindings)
  }

  lemma RegistrationDecisionIs(s: Store, v: Envelope)
    requires PolicyInv(s) && ManagementEnvelope(v)
    ensures var d := ManagementDecision(s, v);
      if Manages(s, v.principal, EffectManageBindings) && Unregistered(s, v) then
        AllowedOn(d, v.principal, EffectManageBindings, None, None, None, false)
      else d == DenialOf(v.principal, EffectManageBindings, None, None, None, WhyNotRegister(s, v))
  {
    hide PolicyInv, Evaluate, Manages, AlreadyRegistered, Unregistered;
    ManagerAllowed(s, v.principal, EffectManageBindings);
    EvaluationSays(View(s), PolicyQuery(v.principal, EffectManageBindings));
    RegisteredIff(s, v);
  }

  /** How a registration's commit ends, given its decision. */
  lemma ManagementSteps(s: Store, proof: SignedOperation, reason: AuthorizationReason)
    requires ManagementEnvelope(proof.envelope)
    requires var d := ManagementDecision(s, proof.envelope); var principal := proof.envelope.principal;
      || AllowedOn(d, principal, EffectManageBindings, None, None, None, false)
      || d == DenialOf(principal, EffectManageBindings, None, None, None, reason)
    ensures var v := proof.envelope; var t := CommitManagement(s, proof); var d := ManagementDecision(s, v);
      if !Consumable(s, proof) then t.None?
      else if d.status != Allowed then t.Some? && RegistrationDenied(s, t.value, proof, reason)
      else if UnusedBinding(s, v) then t.Some? && Registered(s, t.value, proof)
      else t.None?
  {
    hide ManagementDecision, Consumable;
  }

  /** A registration is accepted iff its principal manages bindings and nothing it names is taken;
      with a used binding id it then rolls back; a manager is denied for the binding, anyone else
      by the evaluator. */
  lemma RegistrationOutcome(s: Store, proof: SignedOperation)
    requires StoreInv(s) && Trusted(s, proof) && ManagementEnvelope(proof.envelope)
    ensures var v := proof.envelope; var t := CommitManagement(s, proof);
      if v.id in s.operations then t.None?
      else if !(Manages(s, v.principal, EffectManageBindings) && Unregistered(s, v)) then
        t.Some? && RegistrationDenied(s, t.value, proof, WhyNotRegister(s, v))
      else if UnusedBinding(s, v) then t.Some? && Registered(s, t.value, proof)
      else t.None?
  {
    hide StoreInv, Consumable, PolicyInv, ConsumptionInv, PacketInv, EffectRuns.EffectInv, CommitManagement, ManagementDecision, Manages,
         Unregistered, UnusedBinding, Registered, RegistrationDenied, Trusted, WhyNotRegister;
    InvParts(s);
    ConsumableIff(s, proof);
    RegistrationDecisionIs(s, proof.envelope);
    ManagementSteps(s, proof, WhyNotRegister(s, proof.envelope));
  }
}
