/** The governed store and every transaction that changes it, as functions from the store a
    transaction sees to the store it leaves, or None when it aborts
    (database.py, external_effects.py, transition_mediator.py, authentication.py). */
module Ledger {
  import opened Models
  import opened Authorization

  // ---------------------------------------------------------------- signed requests

  /** The four signed envelopes; a CapabilityPolicyOperationEnvelope carries scope columns,
      a packet envelope a whole scope or none. */
  datatype Envelope =
    | PacketEnvelope(
        id: OperationId, principal: PrincipalId, key: KeyId, issued: int, expires: int,
        operation: AuthorityOperation, packet: PacketId, candidate: CandidateId,
        expectedPrior: WorkflowState, requested: WorkflowState, manifest: FileHash, receipt: FileHash,
        decision: ApprovalDecision, approval: ApprovalId, approvalEvent: Option<Sequence>,
        scope: Option<Scope>)
    | PolicyEnvelope(
        id: OperationId, principal: PrincipalId, key: KeyId, issued: int, expires: int,
        policy: PolicyOperation, grantId: GrantId, revocation: Option<RevocationId>,
        subject: PrincipalId, capability: Capability,
        grantPrior: Option<WorkflowState>, grantRequested: Option<WorkflowState>, columns: ScopeColumns)
    | BindingEnvelope(
        id: OperationId, principal: PrincipalId, key: KeyId, issued: int, expires: int,
        binding: BindingId, bindingScope: Scope, target: TargetRef, credential: CredentialRef)
    | ExecutorEnvelope(
        id: OperationId, principal: PrincipalId, key: KeyId, issued: int, expires: int,
        executor: ExecutorId, executorKey: KeyId)

  /** An Ed25519 signature is a term naming the signing key and the signed envelope; the proof
      hash of a signed operation is the whole term. */
  datatype SignedOperation = SignedOperation(envelope: Envelope, signer: KeyId, signed: Envelope)

  /** Scope rules of `CapabilityPolicyOperationEnvelope.require_canonical_policy_semantics`. */
  predicate CanonicalColumns(capability: Capability, columns: ScopeColumns, revoking: bool) {
    match columns
    case Unversioned => true
    case Versioned => !PacketScoped(capability) || revoking
    case Exact(_) => PacketScoped(capability)
  }

  predicate CanonicalPolicyEnvelope(e: Envelope)
    requires e.PolicyEnvelope?
  {
    && (e.grantPrior, e.grantRequested) == StatePair(e.capability)
    && CanonicalColumns(e.capability, e.columns, e.policy.Revoke?)
    && (e.policy.Revoke? <==> e.revocation.Some?)
    && (e.policy.Bootstrap? ==> e.principal == e.subject && e.capability == PolicyManageCapabilities)
  }

  // ---------------------------------------------------------------- rows

  datatype Packet = Packet(candidate: CandidateId, manifest: FileHash, scope: Option<Scope>, state: WorkflowState)

  datatype ApprovalRow = ApprovalRow(
    id: ApprovalId, packet: PacketId, decision: ApprovalDecision, manifest: FileHash,
    event: Sequence, principal: PrincipalId, operation: OperationId, scope: Option<Scope>)

  datatype Revocation = Revocation(id: RevocationId, actor: PrincipalId, operation: OperationId, event: Sequence)

  datatype PolicyState = PolicyState(principal: PrincipalId, grant: GrantId, operation: OperationId, event: Sequence)

  datatype ConsumedOperation = ConsumedOperation(proof: SignedOperation, event: Sequence, accepted: bool)

  datatype Binding = Binding(
    id: BindingId, scope: Scope, target: TargetRef, credential: CredentialRef,
    actor: PrincipalId, operation: OperationId, event: Sequence)

  datatype Executor = Executor(key: KeyId, actor: PrincipalId, operation: OperationId, event: Sequence)

  /** `effect_<digest>` of the release event and the binding; the digest is injective. */
  datatype EffectId = EffectId(release: Sequence, binding: BindingId)

  datatype IdempotencyKey = IdempotencyKey(effect: EffectId, release: Sequence)

  datatype EffectRequest = EffectRequest(
    effect: EffectId, release: Sequence, packet: PacketId, candidate: CandidateId,
    approval: ApprovalId, approvalEvent: Sequence, principal: PrincipalId, grant: GrantId,
    scope: Scope, binding: BindingId, target: TargetRef, credential: CredentialRef,
    manifest: FileHash, receipt: FileHash, key: IdempotencyKey, event: Sequence)

  /** `calculate_effect_request_hash`. */
  datatype RequestHash = RequestHash(of: EffectRequest)

  datatype Dispatch = Dispatch(id: DispatchId, effect: EffectId, hash: RequestHash, attempt: nat, event: Sequence)

  datatype EffectOutcome = Succeeded | EffectFailed | Unknown

  datatype ResultEnvelope = ResultEnvelope(
    id: ResultId, executor: ExecutorId, executorKey: KeyId, effect: EffectId, dispatch: DispatchId,
    hash: RequestHash, scope: Scope, binding: BindingId, artifact: FileHash, key: IdempotencyKey,
    outcome: EffectOutcome, mayHaveOccurred: bool, retryPermitted: bool,
    remote: Option<nat>, response: Option<nat>, error: Option<nat>)

  datatype SignedResult = SignedResult(envelope: ResultEnvelope, signer: KeyId, signed: ResultEnvelope)

  datatype ResultRow = ResultRow(proof: SignedResult, event: Sequence)

  /** `ExecutorResultEnvelope.require_result_semantics`. */
  predicate ValidResult(e: ResultEnvelope) {
    match e.outcome
    case Succeeded => e.remote.Some? && e.response.Some? && e.error.None? && e.mayHaveOccurred && !e.retryPermitted
    case EffectFailed => e.error.Some? && e.remote.None? && e.response.None? && !e.mayHaveOccurred
    case Unknown => e.error.Some? && !e.retryPermitted && e.mayHaveOccurred
  }

  // ---------------------------------------------------------------- events

  datatype Command =
    | Authority(operation: AuthorityOperation)
    | Policy(policy: PolicyOperation)
    | RegisterBinding | RegisterExecutor
    | Workflow | AuthenticateCommand
    | CreateEffect | ClaimEffect | RecordResult

  datatype Authentication =
    | Unauthenticated
    | FailedAuthentication
    | Verified(proof: SignedOperation)
    | Replayed(proof: SignedOperation)

  /** `input_identifiers` by kind of event. */
  datatype Identifiers =
    | PacketIdentifiers(
        packet: PacketId, candidate: CandidateId, operation: OperationId, approval: ApprovalId,
        decision: ApprovalDecision, scope: Option<Scope>, approvalEvent: Option<Sequence>)
    | PlainIdentifiers(candidateOf: Option<CandidateId>, packetOf: Option<PacketId>, scope: Option<Scope>)
    | PolicyIdentifiers(
        operation: OperationId, grantId: GrantId, revocation: Option<RevocationId>, subject: PrincipalId,
        capability: Capability, prior: Option<WorkflowState>, requested: Option<WorkflowState>, columns: ScopeColumns)
    | BindingIdentifiers(operation: OperationId, binding: BindingId, bindingScope: Scope, target: TargetRef, credential: CredentialRef)
    | ExecutorIdentifiers(operation: OperationId, executor: ExecutorId, executorKey: KeyId)
    | EffectIdentifiers(request: EffectRequest)
    | DispatchIdentifiers(effect: EffectId, dispatch: DispatchId, attempt: nat)
    | ResultIdentifiers(proof: SignedResult)

  datatype Governed = Ungoverned | Manifest(hash: FileHash) | Request(request: RequestHash)

  datatype Event = Event(
    command: Command, packet: Option<PacketId>, candidate: Option<CandidateId>,
    prior: Option<WorkflowState>, requested: Option<WorkflowState>, resulting: Option<WorkflowState>,
    accepted: bool, governed: Governed, receipt: Option<FileHash>,
    identifiers: Identifiers, authentication: Authentication, authorization: Option<Decision>)

  // ---------------------------------------------------------------- the store

  /** Every table; rows that are never reordered are sequences in insertion order. */
  datatype Store = Store(
    principals: map<PrincipalId, KeyId>,
    candidates: map<CandidateId, WorkflowState>,
    packets: map<PacketId, Packet>,
    approvals: seq<ApprovalRow>,
    log: seq<Event>,
    operations: map<OperationId, ConsumedOperation>,
    grants: seq<GrantRow>,
    revocations: map<GrantId, Revocation>,
    policy: Option<PolicyState>,
    bindings: seq<Binding>,
    executors: map<ExecutorId, Executor>,
    requests: seq<EffectRequest>,
    dispatches: seq<Dispatch>,
    results: map<DispatchId, ResultRow>)

  const EMPTY := Store(map[], map[], map[], [], [], map[], [], map[], None, [], map[], [], [], map[])

  function View(s: Store): PolicyView {
    PolicyView(s.policy.Some?, s.grants, s.revocations.Keys)
  }

  predicate Recorded(s: Store, k: Sequence) {
    1 <= k <= |s.log|
  }

  function At(s: Store, k: Sequence): Event
    requires Recorded(s, k)
  {
    s.log[k - 1]
  }

  function NextSequence(s: Store): Sequence {
    |s.log| + 1
  }

  // ---------------------------------------------------------------- packet files

  /** What `recompute_packet_manifest` reads of a packet directory. */
  datatype PacketFiles = PacketFiles(
    manifest: FileHash, receipt: FileHash, sourcesScope: Option<Scope>,
    receiptPacket: PacketId, receiptCandidate: CandidateId, receiptManifest: FileHash, receiptScope: Option<Scope>)

  type Files = map<PacketId, PacketFiles>

  datatype Artifacts = Artifacts(manifest: FileHash, receipt: FileHash)

  /** `recompute_packet_manifest`: None stands for PacketIntegrityError. */
  function Recompute(files: Files, id: PacketId, row: Packet): Option<Artifacts> {
    if id !in files then None
    else
      var f := files[id];
      if f.sourcesScope != row.scope || f.receiptPacket != id || f.receiptCandidate != row.candidate
         || f.receiptManifest != f.manifest || f.receiptScope != row.scope then None
      else Some(Artifacts(f.manifest, f.receipt))
  }

  /** The packet's directory is intact and holds these artifacts: its sources and its receipt
      have the packet's scope, and its receipt names this packet, its candidate and the manifest
      the directory has. */
  predicate IntactFiles(files: Files, id: PacketId, row: Packet, a: Artifacts) {
    && id in files
    && var f := files[id];
       && f.manifest == a.manifest == f.receiptManifest && f.receipt == a.receipt
       && f.receiptPacket == id && f.receiptCandidate == row.candidate
       && f.sourcesScope == row.scope == f.receiptScope
  }

  lemma RecomputeExact(files: Files, id: PacketId, row: Packet)
    ensures forall a :: Recompute(files, id, row) == Some(a) <==> IntactFiles(files, id, row, a)
  {
  }

  // ---------------------------------------------------------------- consuming a proof

  /** PRIMARY KEY, UNIQUE proof and FOREIGN KEY of `authenticated_operations`. */
  predicate Consumable(s: Store, proof: SignedOperation) {
    && proof.envelope.id !in s.operations
    && (forall o :: o in s.operations ==> s.operations[o].proof != proof)
    && proof.envelope.principal in s.principals
  }

  function Append(s: Store, e: Event): Store {
    s.(log := s.log + [e])
  }

  /** Appends the adjudication event and consumes the proof it adjudicates. */
  function Adjudicate(s: Store, e: Event, proof: SignedOperation): Store {
    s.(log := s.log + [e],
       operations := s.operations[proof.envelope.id := ConsumedOperation(proof, NextSequence(s), e.accepted)])
  }

  // ---------------------------------------------------------------- capability policy

  function PolicyQuery(principal: PrincipalId, capability: Capability): Query {
    Query(principal, capability, None, None, None)
  }

  function BootstrapDecision(principal: PrincipalId): Decision {
    Decision(Allowed, principal, PolicyManageCapabilities, None, None, Versioned, None, BootstrapAllowed)
  }

  function GrantById(grants: seq<GrantRow>, id: GrantId): Option<GrantRow> {
    if grants == [] then None
    else if grants[0].id == id then Some(grants[0])
    else GrantById(grants[1..], id)
  }

  predicate RemainingAdmin(s: Store, id: GrantId) {
    exists g :: g in s.grants && g.capability == PolicyManageCapabilities && g.id !in s.revocations && g.id != id
  }

  function RevokeDecision(s: Store, e: Envelope, allowed: Decision): Decision
    requires e.PolicyEnvelope?
  {
    var q := PolicyQuery(e.principal, PolicyManageCapabilities);
    var target := GrantById(s.grants, e.grantId);
    if target.None? then Deny(q, UnknownGrant)
    else
      var g := target.value;
      if (g.subject, g.capability, g.prior, g.requested, g.scope)
         != (e.subject, e.capability, e.grantPrior, e.grantRequested, e.columns) then Deny(q, GrantBindingMismatch)
      else if e.grantId in s.revocations then Deny(q, GrantAlreadyRevoked)
      else if e.capability == PolicyManageCapabilities && !RemainingAdmin(s, e.grantId) then Deny(q, LastPolicyAdmin)
      else allowed
  }

  /** The in-transaction decision of `_commit_capability_policy_operation`. */
  function PolicyDecision(s: Store, e: Envelope): Decision
    requires e.PolicyEnvelope?
  {
    var q := PolicyQuery(e.principal, PolicyManageCapabilities);
    var first :=
      if e.policy.Bootstrap? then
        if s.policy.Some? || s.grants != [] || s.revocations != map[] then Deny(q, PolicyAlreadyBootstrapped)
        else if s.principals.Keys != {e.principal} then Deny(q, RequestBindingRejected)
        else BootstrapDecision(e.principal)
      else Evaluate(View(s), q);
    if first.status != Allowed then first
    else if !e.policy.Revoke? && e.columns.Unversioned? then Deny(q, ScopeRequired)
    else if e.policy.Grant? && e.subject !in s.principals then Deny(q, UnknownSubjectPrincipal)
    else if e.policy.Grant? && PacketScoped(e.capability) && !e.columns.Exact? then Deny(q, ScopeRequired)
    else if e.policy.Revoke? then RevokeDecision(s, e, first)
    else first
  }

  function PolicyIdentifiersOf(e: Envelope): Identifiers
    requires e.PolicyEnvelope?
  {
    PolicyIdentifiers(e.id, e.grantId, e.revocation, e.subject, e.capability, e.grantPrior, e.grantRequested, e.columns)
  }

  function PolicyEvent(proof: SignedOperation, d: Decision, accepted: bool): Event
    requires proof.envelope.PolicyEnvelope?
  {
    var e := proof.envelope;
    Event(Policy(e.policy), None, None, None, None, None, accepted, Ungoverned, None,
          PolicyIdentifiersOf(e), Verified(proof), Some(d))
  }

  function NewGrant(s: Store, e: Envelope): GrantRow
    requires e.PolicyEnvelope?
  {
    GrantRow(e.grantId, e.subject, e.capability, e.grantPrior, e.grantRequested, e.columns,
             e.principal, e.id, NextSequence(s))
  }

  /** PRIMARY KEY, FOREIGN KEY and CHECK constraints of `capability_grants`. */
  predicate GrantInsertable(s: Store, g: GrantRow) {
    && (forall other :: other in s.grants ==> other.id != g.id)
    && g.subject in s.principals
    && (g.prior, g.requested) == StatePair(g.capability)
    && CanonicalColumns(g.capability, g.scope, false)
  }

  /** The accepted event, its consumed proof and the grant, with the bootstrap row if it is one. */
  function GrantedStore(s: Store, proof: SignedOperation, d: Decision): Store
    requires proof.envelope.PolicyEnvelope?
  {
    var e := proof.envelope;
    Adjudicate(s, PolicyEvent(proof, d, true), proof).(
      grants := s.grants + [NewGrant(s, e)],
      policy := if e.policy.Bootstrap? then Some(PolicyState(e.principal, e.grantId, e.id, NextSequence(s))) else s.policy)
  }

  function RevokedStore(s: Store, proof: SignedOperation, d: Decision): Store
    requires proof.envelope.PolicyEnvelope? && proof.envelope.revocation.Some?
  {
    var e := proof.envelope;
    Adjudicate(s, PolicyEvent(proof, d, true), proof).(
      revocations := s.revocations[e.grantId := Revocation(e.revocation.value, e.principal, e.id, NextSequence(s))])
  }

  predicate RevocationTaken(s: Store, id: RevocationId) {
    exists g :: g in s.revocations && s.revocations[g].id == id
  }

  /** `_commit_capability_policy_operation`. */
  function CommitPolicy(s: Store, proof: SignedOperation): Option<Store>
    requires proof.envelope.PolicyEnvelope?
  {
    var e := proof.envelope;
    var d := PolicyDecision(s, e);
    if !Consumable(s, proof) then None
    else if d.status != Allowed then Some(Adjudicate(s, PolicyEvent(proof, d, false), proof))
    else if e.policy.Revoke? then
      if e.revocation.None? || RevocationTaken(s, e.revocation.value) then None else Some(RevokedStore(s, proof, d))
    else if !GrantInsertable(s, NewGrant(s, e)) then None
    else Some(GrantedStore(s, proof, d))
  }

  // ---------------------------------------------------------------- packet authority

  function PacketIdentifiersOf(e: Envelope): Identifiers
    requires e.PacketEnvelope?
  {
    PacketIdentifiers(e.packet, e.candidate, e.id, e.approval, e.decision, e.scope, e.approvalEvent)
  }

  function PacketEvent(proof: SignedOperation, d: Decision, accepted: bool, prior: WorkflowState,
                       governed: FileHash, receipt: Option<FileHash>): Event
    requires proof.envelope.PacketEnvelope?
  {
    var e := proof.envelope;
    Event(Authority(e.operation), Some(e.packet), Some(e.candidate),
          Some(prior), Some(e.requested), Some(if accepted then e.requested else prior),
          accepted, Manifest(governed), receipt, PacketIdentifiersOf(e), Verified(proof), Some(d))
  }

  /** `_evaluate_transaction_authorization`. */
  function TransactionDecision(s: Store, e: Envelope, prior: WorkflowState, row: Packet): Decision
    requires e.PacketEnvelope?
  {
    var q := Query(e.principal, RequiredCapability(e.operation), Some(prior), Some(e.requested), row.scope);
    if row.scope.None? then Deny(q, ScopeRequired)
    else if e.scope.None? then Deny(q, ScopeRequired)
    else if e.scope != row.scope then Deny(q, RequestScopeMismatch)
    else Evaluate(View(s), q)
  }

  /** The approval row a release must name. */
  predicate ReleaseApproved(s: Store, e: Envelope, row: Packet)
    requires e.PacketEnvelope?
  {
    exists a :: a in s.approvals && a.packet == e.packet && a.id == e.approval && a.decision == DecisionApproved
      && a.manifest == e.manifest && e.approvalEvent == Some(a.event) && a.scope == row.scope
  }

  /** PRIMARY KEY of `approvals`. */
  predicate ApprovalTaken(s: Store, id: ApprovalId) {
    exists a :: a in s.approvals && a.id == id
  }

  function NewApproval(s: Store, e: Envelope): ApprovalRow
    requires e.PacketEnvelope?
  {
    ApprovalRow(e.approval, e.packet, e.decision, e.manifest, NextSequence(s), e.principal, e.id, e.scope)
  }

  /** The accepted event, its consumed proof, the paired states and, unless it is a release, the
      approval row. */
  function AuthorizedStore(s: Store, proof: SignedOperation, d: Decision, receipt: FileHash): Store
    requires proof.envelope.PacketEnvelope? && proof.envelope.packet in s.packets
  {
    var e := proof.envelope;
    var row := s.packets[e.packet];
    Adjudicate(s, PacketEvent(proof, d, true, row.state, e.manifest, Some(receipt)), proof).(
      packets := s.packets[e.packet := row.(state := e.requested)],
      candidates := s.candidates[e.candidate := e.requested],
      approvals := if e.operation.Release? then s.approvals else s.approvals + [NewApproval(s, e)])
  }

  /** `_commit_authority_transition`; `receipt` is the packet-receipt hash mediation computed. */
  function CommitAuthority(s: Store, proof: SignedOperation, receipt: FileHash): Option<Store>
    requires proof.envelope.PacketEnvelope?
  {
    var e := proof.envelope;
    if !AuthoritySensitive(e.expectedPrior, e.requested) then None
    else if e.packet !in s.packets || e.candidate !in s.candidates then None
    else
      var row := s.packets[e.packet];
      if row.candidate != e.candidate || s.candidates[e.candidate] != row.state then None
      else
        var d := TransactionDecision(s, e, row.state, row);
        if !Consumable(s, proof) then None
        else if d.status != Allowed then
          Some(Adjudicate(s, PacketEvent(proof, d, false, row.state, e.manifest, Some(receipt)), proof))
        else if row.state != e.expectedPrior || row.manifest != e.manifest then None
        else if e.operation.Release? && !ReleaseApproved(s, e, row) then None
        else if !e.operation.Release? && ApprovalTaken(s, e.approval) then None
        else Some(AuthorizedStore(s, proof, d, receipt))
  }

  /** `record_authenticated_authorization_rejection`: the prior state was read earlier. */
  function CommitRejection(s: Store, proof: SignedOperation, prior: WorkflowState,
                           governed: FileHash, receipt: Option<FileHash>): Option<Store>
    requires proof.envelope.PacketEnvelope?
  {
    var e := proof.envelope;
    var row := if e.packet in s.packets then s.packets[e.packet] else Packet(e.candidate, e.manifest, None, prior);
    var d := TransactionDecision(s, e, prior, row);
    if !Consumable(s, proof) then None
    else Some(Adjudicate(s, PacketEvent(proof, d, false, prior, governed, receipt), proof))
  }

  // ---------------------------------------------------------------- rejections without policy effect

  /** `not_evaluated_decision`. */
  function NotEvaluatedDecision(q: Query, reason: AuthorizationReason): Decision {
    Decision(NotEvaluated, q.principal, q.capability, q.prior, q.requested, ColumnsOf(q.scope), None, reason)
  }

  /** `_record_policy_binding_rejection`: consumes the proof. */
  function CommitPolicyBindingRejection(s: Store, proof: SignedOperation): Option<Store>
    requires proof.envelope.PolicyEnvelope?
  {
    var d := NotEvaluatedDecision(PolicyQuery(proof.envelope.principal, PolicyManageCapabilities), RequestBindingRejected);
    if !Consumable(s, proof) then None
    else Some(Adjudicate(s, PolicyEvent(proof, d, false), proof))
  }

  /** The event of a replayed packet proof. Its command is the adapter's operation when the
      adapter asserts one, its prior state the packet's current state. */
  function PacketReplayEvent(proof: SignedOperation, operation: AuthorityOperation, row: Packet): Event
    requires proof.envelope.PacketEnvelope?
  {
    var e := proof.envelope;
    var q := Query(e.principal, RequiredCapability(e.operation), Some(row.state), Some(e.requested), e.scope);
    Event(Authority(operation), Some(e.packet), Some(row.candidate), Some(row.state), Some(e.requested), Some(row.state),
          false, Ungoverned, None,
          PacketIdentifiers(e.packet, row.candidate, e.id, e.approval, e.decision, e.scope, e.approvalEvent),
          Replayed(proof), Some(NotEvaluatedDecision(q, ReplayRejectedReason)))
  }

  function PolicyReplayEvent(proof: SignedOperation): Event
    requires proof.envelope.PolicyEnvelope?
  {
    var e := proof.envelope;
    Event(Policy(e.policy), None, None, None, None, None, false, Ungoverned, None, PolicyIdentifiersOf(e), Replayed(proof),
          Some(NotEvaluatedDecision(PolicyQuery(e.principal, PolicyManageCapabilities), ReplayRejectedReason)))
  }

  function ManagementReplayEvent(proof: SignedOperation): Event
    requires proof.envelope.BindingEnvelope? || proof.envelope.ExecutorEnvelope?
  {
    ManagementEvent(proof, Replayed(proof), false,
      NotEvaluatedDecision(PolicyQuery(proof.envelope.principal, EffectManageBindings), ReplayRejectedReason))
  }

  // ---------------------------------------------------------------- execution management

  function ManagementEvent(proof: SignedOperation, authentication: Authentication, accepted: bool, d: Decision): Event
    requires proof.envelope.BindingEnvelope? || proof.envelope.ExecutorEnvelope?
  {
    var e := proof.envelope;
    if e.BindingEnvelope? then
      Event(RegisterBinding, None, None, None, None, None, accepted, Ungoverned, None,
            BindingIdentifiers(e.id, e.binding, e.bindingScope, e.target, e.credential), authentication, Some(d))
    else
      Event(RegisterExecutor, None, None, None, None, None, accepted, Ungoverned, None,
            ExecutorIdentifiers(e.id, e.executor, e.executorKey), authentication, Some(d))
  }

  /** An existing binding of the scope or the target, or an executor of the id or the key. */
  predicate AlreadyRegistered(s: Store, e: Envelope)
    requires e.BindingEnvelope? || e.ExecutorEnvelope?
  {
    if e.BindingEnvelope? then
      exists b :: b in s.bindings && (b.scope == e.bindingScope || b.target == e.target)
    else
      e.executor in s.executors || exists x :: x in s.executors && s.executors[x].key == e.executorKey
  }

  function ManagementDecision(s: Store, e: Envelope): Decision
    requires e.BindingEnvelope? || e.ExecutorEnvelope?
  {
    var q := PolicyQuery(e.principal, EffectManageBindings);
    var d := Evaluate(View(s), q);
    if d.status == Allowed && AlreadyRegistered(s, e) then Deny(q, RequestBindingRejected) else d
  }

  /** `mediate_execution_management` from its transaction on. */
  function CommitManagement(s: Store, proof: SignedOperation): Option<Store>
    requires proof.envelope.BindingEnvelope? || proof.envelope.ExecutorEnvelope?
  {
    var e := proof.envelope;
    var d := ManagementDecision(s, e);
    var t := Adjudicate(s, ManagementEvent(proof, Verified(proof), d.status == Allowed, d), proof);
    if !Consumable(s, proof) then None
    else if d.status != Allowed then Some(t)
    else if e.BindingEnvelope? then
      if exists b :: b in s.bindings && b.id == e.binding then None
      else Some(t.(bindings := s.bindings + [
                   Binding(e.binding, e.bindingScope, e.target, e.credential, e.principal, e.id, NextSequence(s))]))
    else
      Some(t.(executors := s.executors[e.executor := Executor(e.executorKey, e.principal, e.id, NextSequence(s))]))
  }

  // ---------------------------------------------------------------- workflow steps

  /** TRANSITIONS. */
  function Successors(state: WorkflowState): set<WorkflowState> {
    match state
    case Discovered => {EvidencePreserved, Failed}
    case EvidencePreserved => {Normalized, Failed}
    case Normalized => {DuplicateChecked, Suppressed, Failed}
    case DuplicateChecked => {Qualified, Suppressed, Failed}
    case Qualified => {PacketGenerated, Failed}
    case PacketGenerated => {AwaitingApproval, Failed}
    case AwaitingApproval => {Approved, Rejected, Failed}
    case Approved => {Released, Failed}
    case _ => {}
  }

  /** The states shipped callers of `transition_candidate` request. */
  predicate ShippedCandidateStep(prior: WorkflowState, requested: WorkflowState) {
    requested in Successors(prior)
    && requested in {EvidencePreserved, Normalized, DuplicateChecked, Suppressed, Qualified, PacketGenerated}
  }

  datatype NewPacket = NewPacket(id: PacketId, manifest: FileHash, scope: Option<Scope>)

  function WorkflowEvent(candidate: Option<CandidateId>, packet: Option<PacketId>, prior: WorkflowState,
                         requested: WorkflowState, accepted: bool, governed: Governed, receipt: Option<FileHash>,
                         scope: Option<Scope>, authentication: Authentication): Event {
    Event(Workflow, packet, candidate, Some(prior), Some(requested),
          Some(if accepted then requested else prior), accepted, governed, receipt,
          PlainIdentifiers(candidate, packet, scope), authentication, None)
  }

  /** `apply_candidate_transition`: guarded update, with the generated packet if there is one. */
  function CommitCandidate(s: Store, candidate: CandidateId, prior: WorkflowState, requested: WorkflowState,
                           packet: Option<NewPacket>): Option<Store> {
    if AuthoritySensitive(prior, requested) then None
    else if packet.Some? && packet.value.id in s.packets then None
    else if candidate !in s.candidates || s.candidates[candidate] != prior then None
    else match packet
      case None =>
        var e := WorkflowEvent(Some(candidate), None, prior, requested, true, Ungoverned, None, None, Unauthenticated);
        Some(Append(s, e).(candidates := s.candidates[candidate := requested]))
      case Some(p) =>
        var e := WorkflowEvent(Some(candidate), Some(p.id), prior, requested, true, Manifest(p.manifest), None, p.scope, Unauthenticated);
        Some(Append(s, e).(
          candidates := s.candidates[candidate := requested],
          packets := s.packets[p.id := Packet(candidate, p.manifest, p.scope, requested)]))
  }

  /** `apply_packet_transition`. */
  function CommitPacketStep(s: Store, packet: PacketId, candidate: CandidateId, prior: WorkflowState,
                            requested: WorkflowState, receipt: FileHash): Option<Store> {
    if AuthoritySensitive(prior, requested) then None
    else if packet !in s.packets || candidate !in s.candidates then None
    else
      var row := s.packets[packet];
      if row.candidate != candidate || row.state != prior || s.candidates[candidate] != prior then None
      else
        var e := WorkflowEvent(Some(candidate), Some(packet), prior, requested, true, Manifest(row.manifest), Some(receipt),
                               row.scope, Unauthenticated);
        Some(Append(s, e).(
          packets := s.packets[packet := row.(state := requested)],
          candidates := s.candidates[candidate := requested]))
  }

  // ---------------------------------------------------------------- external effects

  predicate IsRelease(e: Event, packet: PacketId) {
    e.packet == Some(packet) && e.command == Authority(Release) && e.accepted && e.resulting == Some(Released)
  }

  /** `ORDER BY event_sequence DESC LIMIT 1` over the packet's accepted release events. */
  function LatestRelease(log: seq<Event>, packet: PacketId): Sequence {
    if log == [] then 0
    else if IsRelease(log[|log| - 1], packet) then |log|
    else LatestRelease(log[..|log| - 1], packet)
  }

  function RequestOf(requests: seq<EffectRequest>, packet: PacketId): Option<EffectRequest> {
    if requests == [] then None
    else if requests[|requests| - 1].packet == packet then Some(requests[|requests| - 1])
    else RequestOf(requests[..|requests| - 1], packet)
  }

  function BindingOf(bindings: seq<Binding>, scope: Scope): Option<Binding> {
    if bindings == [] then None
    else if bindings[0].scope == scope then Some(bindings[0])
    else BindingOf(bindings[1..], scope)
  }

  /** How `create_external_effect_request` ends. */
  datatype EffectCreation =
    | Created(store: Store, request: EffectRequest)
    | Existing(request: EffectRequest)
    | NotReleased | ArtifactsChanged | NoReleaseEvent | NoReleaseAuthority | NoApproval | GrantInconsistent
    | NoBinding | ConstraintFailed

  /** The release grant as the request sees it, however late the request comes. */
  predicate GrantSupports(s: Store, grant: GrantId, release: Sequence, e: Event, scope: Option<Scope>)
    requires e.authentication.Verified?
  {
    var g := GrantById(s.grants, grant);
    && g.Some?
    && g.value.subject == e.authentication.proof.envelope.principal
    && g.value.capability == PacketRelease
    && g.value.prior == Some(Approved) && g.value.requested == Some(Released)
    && g.value.scope == ColumnsOf(scope)
    && g.value.event < release
    && (grant in s.revocations ==> s.revocations[grant].event > release)
  }

  predicate ApprovalNamed(s: Store, packet: PacketId, approval: ApprovalId, event: Option<Sequence>) {
    event.Some?
    && (exists a :: a in s.approvals && a.id == approval && a.packet == packet
                    && a.decision == DecisionApproved && a.event == event.value)
  }

  function NewRequest(s: Store, packet: PacketId, row: Packet, release: Sequence, e: Event, grant: GrantId, b: Binding,
                      artifacts: Artifacts): EffectRequest
    requires e.identifiers.PacketIdentifiers? && e.identifiers.approvalEvent.Some? && e.authentication.Verified?
    requires row.scope.Some?
  {
    var effect := EffectId(release, b.id);
    EffectRequest(effect, release, packet, row.candidate, e.identifiers.approval, e.identifiers.approvalEvent.value,
                  e.authentication.proof.envelope.principal, grant, row.scope.value, b.id, b.target, b.credential,
                  artifacts.manifest, artifacts.receipt, IdempotencyKey(effect, release), NextSequence(s))
  }

  function EffectEvent(r: EffectRequest): Event {
    Event(CreateEffect, Some(r.packet), Some(r.candidate), None, None, None, true, Request(RequestHash(r)), Some(r.receipt),
          EffectIdentifiers(r), Unauthenticated, None)
  }

  /** UNIQUE constraints of `external_effect_requests`. */
  predicate RequestInsertable(s: Store, r: EffectRequest) {
    forall other :: other in s.requests ==>
      other.effect != r.effect && other.release != r.release && other.key != r.key && RequestHash(other) != RequestHash(r)
  }

  function RequestedStore(s: Store, r: EffectRequest): Store {
    Append(s, EffectEvent(r)).(requests := s.requests + [r])
  }

  /** `create_external_effect_request`; `first` is what it recomputed before its transaction. */
  function CreateExternalEffect(s: Store, files: Files, packet: PacketId, first: Artifacts): EffectCreation {
    if packet !in s.packets || s.packets[packet].state != Released then NotReleased
    else
      var row := s.packets[packet];
      var existing := RequestOf(s.requests, packet);
      if existing.Some? then
        if first.manifest != existing.value.manifest || first.receipt != existing.value.receipt || first.manifest != row.manifest
        then ArtifactsChanged else Existing(existing.value)
      else if Recompute(files, packet, row) != Some(first) || first.manifest != row.manifest then ArtifactsChanged
      else DeriveEffect(s, packet, row, first)
  }

  function DeriveEffect(s: Store, packet: PacketId, row: Packet, artifacts: Artifacts): EffectCreation {
    var release := LatestRelease(s.log, packet);
    if release == 0 || release > |s.log| then NoReleaseEvent
    else
      var e := At(s, release);
      if e.authorization.None? || e.authorization.value.status != Allowed || e.authorization.value.capability != PacketRelease
         || e.authorization.value.grant.None? || !e.authentication.Verified? || !e.identifiers.PacketIdentifiers?
      then NoReleaseAuthority
      else
        var grant := e.authorization.value.grant.value;
        if !ApprovalNamed(s, packet, e.identifiers.approval, e.identifiers.approvalEvent) then NoApproval
        else if row.scope.None? || !GrantSupports(s, grant, release, e, row.scope) then GrantInconsistent
        else
          var b := BindingOf(s.bindings, row.scope.value);
          if b.None? then NoBinding
          else
            var r := NewRequest(s, packet, row, release, e, grant, b.value, artifacts);
            if !RequestInsertable(s, r) then ConstraintFailed
            else Created(RequestedStore(s, r), r)
  }

  /** The dispatch with the highest attempt of an effect. */
  function LatestDispatch(dispatches: seq<Dispatch>, effect: EffectId): Option<Dispatch> {
    if dispatches == [] then None
    else
      var last := dispatches[|dispatches| - 1];
      var rest := LatestDispatch(dispatches[..|dispatches| - 1], effect);
      if last.effect == effect && (rest.None? || rest.value.attempt < last.attempt) then Some(last) else rest
  }

  function RequestById(requests: seq<EffectRequest>, effect: EffectId): Option<EffectRequest> {
    if requests == [] then None
    else if requests[0].effect == effect then Some(requests[0])
    else RequestById(requests[1..], effect)
  }

  function DispatchById(dispatches: seq<Dispatch>, id: DispatchId): Option<Dispatch> {
    if dispatches == [] then None
    else if dispatches[0].id == id then Some(dispatches[0])
    else DispatchById(dispatches[1..], id)
  }

  function ClaimEvent(d: Dispatch): Event {
    Event(ClaimEffect, None, None, None, None, None, true, Request(d.hash), None,
          DispatchIdentifiers(d.effect, d.id, d.attempt), Unauthenticated, None)
  }

  function NewDispatch(s: Store, r: EffectRequest, latest: Option<Dispatch>, id: DispatchId): Dispatch {
    Dispatch(id, r.effect, RequestHash(r), if latest.None? then 1 else latest.value.attempt + 1, NextSequence(s))
  }

  function ClaimedStore(s: Store, d: Dispatch): Store {
    Append(s, ClaimEvent(d)).(dispatches := s.dispatches + [d])
  }

  /** `claim_external_effect`. */
  function ClaimExternalEffect(s: Store, effect: EffectId, id: DispatchId): Option<Store> {
    var request := RequestById(s.requests, effect);
    if request.None? then None
    else
      var latest := LatestDispatch(s.dispatches, effect);
      if latest.Some? && latest.value.id !in s.results then None
      else if latest.Some? && var e := s.results[latest.value.id].proof.envelope;
              e.outcome != EffectFailed || !e.retryPermitted then None
      else if DispatchById(s.dispatches, id).Some? then None
      else
        Some(ClaimedStore(s, NewDispatch(s, request.value, latest, id)))
  }

  /** The envelope repeats the dispatched request exactly. */
  predicate ResultBound(e: ResultEnvelope, r: EffectRequest, d: Dispatch) {
    && e.effect == r.effect && e.hash == RequestHash(r) && e.scope == r.scope && e.binding == r.binding
    && e.artifact == r.manifest && e.key == r.key
    && d.effect == e.effect && d.hash == e.hash
  }

  /** UNIQUE proof and PRIMARY KEY of `external_effect_results`. */
  predicate Collides(a: SignedResult, b: SignedResult) {
    a == b || a.envelope.id == b.envelope.id
  }

  function ResultEvent(proof: SignedResult): Event {
    Event(RecordResult, None, None, None, None, None, true, Request(proof.envelope.hash), None,
          ResultIdentifiers(proof), Unauthenticated, None)
  }

  function RecordedStore(s: Store, proof: SignedResult): Store {
    Append(s, ResultEvent(proof)).(results := s.results[proof.envelope.dispatch := ResultRow(proof, NextSequence(s))])
  }

  /** `record_signed_executor_result`: None covers its errors; a repeated submission of the
      recorded result leaves the store as it is. */
  function RecordExecutorResult(s: Store, proof: SignedResult): Option<Store> {
    var e := proof.envelope;
    if !ValidResult(e) then None
    else if e.executor !in s.executors then None
    else if s.executors[e.executor].key != e.executorKey || proof.signer != e.executorKey || proof.signed != e then None
    else
      var d, r := DispatchById(s.dispatches, e.dispatch), RequestById(s.requests, e.effect);
      if d.None? || r.None? then None
      else if e.dispatch in s.results then
        if s.results[e.dispatch].proof == proof then Some(s) else None
      else if !ResultBound(e, r.value, d.value) then None
      else if (exists other :: other in s.results && Collides(s.results[other].proof, proof)) then None
      else Some(RecordedStore(s, proof))
  }
}
