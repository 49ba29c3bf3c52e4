/** The out-of-transaction half of every writer: authentication and mediation read the store,
    decide what to attempt, and leave a pending attempt for a later transaction
    (authentication.py, transition_mediator.py, external_effects.py, state_machine.py). */
module Writers {
  import opened Models
  import opened Authorization
  import opened Ledger

  const DEFAULT_OPERATION_LIFETIME_SECONDS := 300
  const MAX_OPERATION_LIFETIME_SECONDS := 600
  const MAX_CLOCK_SKEW_SECONDS := 30

  // ---------------------------------------------------------------- authentication

  datatype AuthenticationOutcome = Authenticated | ReplayDetected | AuthenticationFailed

  /** `find_consumed_authenticated_operation`: by operation id or by proof. */
  predicate Consumed(s: Store, proof: SignedOperation) {
    || proof.envelope.id in s.operations
    || exists o :: o in s.operations && s.operations[o].proof == proof
  }

  predicate Trusted(s: Store, proof: SignedOperation) {
    var e := proof.envelope;
    e.principal in s.principals && s.principals[e.principal] == e.key && proof.signer == e.key && proof.signed == e
  }

  predicate InWindow(e: Envelope, now: int) {
    && e.issued < e.expires <= e.issued + MAX_OPERATION_LIFETIME_SECONDS
    && e.issued <= now + MAX_CLOCK_SKEW_SECONDS
    && now < e.expires
  }

  /** `authenticate_authority_request`. */
  function Authenticate(s: Store, now: int, proof: SignedOperation): AuthenticationOutcome {
    if !Trusted(s, proof) || !InWindow(proof.envelope, now) then AuthenticationFailed
    else if Consumed(s, proof) then ReplayDetected
    else Authenticated
  }

  // ---------------------------------------------------------------- requests and attempts

  /** What an application adapter asserts about the signed request it forwards. */
  datatype AdapterConstraints = AdapterConstraints(
    operation: Option<AuthorityOperation>, packet: Option<PacketId>, reasonMatches: bool)

  datatype Request =
    | TransitionRequest(signed: Option<SignedOperation>, constraints: AdapterConstraints)
    | PolicyRequest(signed: Option<SignedOperation>, expected: Option<PolicyOperation>)
    | ManagementRequest(operation: SignedOperation)
    | CandidateRequest(candidate: CandidateId, requested: WorkflowState, generated: Option<NewPacket>)
    | UnreadyReport(candidate: CandidateId)
    | PacketRequest(packet: PacketId, requested: WorkflowState, receipt: FileHash)
    | EffectCreationRequest(packet: PacketId)
    | EffectClaim(effect: EffectId, dispatch: DispatchId)
    | ResultSubmission(result: SignedResult)

  /** What a writer carries from its reads into its transaction. */
  datatype Pending =
    | AuthorityCommit(proof: SignedOperation, receipt: FileHash)
    | AuthorityRejection(proof: SignedOperation, prior: WorkflowState, governed: FileHash, read: Option<FileHash>)
    | PolicyCommit(proof: SignedOperation)
    | PolicyBindingRejection(proof: SignedOperation)
    | ManagementCommit(proof: SignedOperation)
    | EventRecord(event: Event)
    | CandidateCommit(candidate: CandidateId, prior: WorkflowState, requested: WorkflowState, generated: Option<NewPacket>)
    | PacketCommit(packet: PacketId, candidate: CandidateId, prior: WorkflowState, requested: WorkflowState, receipt: FileHash)
    | EffectCreation(packet: PacketId, first: Artifacts)
    | ClaimCommit(effect: EffectId, dispatch: DispatchId)
    | ResultCommit(result: SignedResult)

  // ---------------------------------------------------------------- packet mediation

  predicate AdapterMismatch(e: Envelope, c: AdapterConstraints)
    requires e.PacketEnvelope?
  {
    || (c.operation.Some? && c.operation.value != e.operation)
    || (c.packet.Some? && c.packet.value != e.packet)
    || !c.reasonMatches
  }

  /** The request's states, decision and approval reference are its operation's. */
  predicate CanonicalSemantics(e: Envelope)
    requires e.PacketEnvelope?
  {
    && e.expectedPrior == PriorOf(e.operation)
    && e.requested == RequestedOf(e.operation)
    && e.decision == DecisionOf(e.operation)
    && (!e.operation.Release? ==> e.approvalEvent.None?)
  }

  /** `get_approved_approval`: the packet's latest approved decision. */
  function ApprovedApproval(approvals: seq<ApprovalRow>, packet: PacketId): Option<ApprovalRow> {
    if approvals == [] then None
    else
      var last := approvals[|approvals| - 1];
      if last.packet == packet && last.decision == DecisionApproved then Some(last)
      else ApprovedApproval(approvals[..|approvals| - 1], packet)
  }

  /** `_verify_release_approval` finds no mismatch. */
  predicate ReleaseApprovalMatches(s: Store, e: Envelope, receipt: FileHash)
    requires e.PacketEnvelope?
  {
    var found := ApprovedApproval(s.approvals, e.packet);
    && found.Some?
    && var a := found.value;
       && a.id == e.approval && Some(a.event) == e.approvalEvent && a.manifest == e.manifest
       && Recorded(s, a.event) && At(s, a.event).receipt == Some(receipt)
  }

  /** `_mediate_authenticated`, `_verify_artifacts` and `_verify_release_approval`. */
  function MediatePacket(s: Store, files: Files, proof: SignedOperation, c: AdapterConstraints): Pending
    requires proof.envelope.PacketEnvelope?
  {
    var e := proof.envelope;
    var prior := if e.packet in s.packets then s.packets[e.packet].state else e.expectedPrior;
    var rejected := AuthorityRejection(proof, prior, e.manifest, None);
    if AdapterMismatch(e, c) || !CanonicalSemantics(e) || e.packet !in s.packets then rejected
    else
      var row := s.packets[e.packet];
      if row.candidate != e.candidate || e.candidate !in s.candidates || s.candidates[e.candidate] != prior then rejected
      else if prior != e.expectedPrior || e.requested !in Successors(prior) then rejected
      else VerifyArtifacts(s, files, proof, row)
  }

  function VerifyArtifacts(s: Store, files: Files, proof: SignedOperation, row: Packet): Pending
    requires proof.envelope.PacketEnvelope?
  {
    var e := proof.envelope;
    match Recompute(files, e.packet, row)
    case None =>
      var manifest := if e.packet in files then files[e.packet].manifest else e.manifest;
      AuthorityRejection(proof, row.state, manifest, None)
    case Some(a) =>
      if a.manifest != row.manifest || e.manifest != a.manifest || e.receipt != a.receipt then
        AuthorityRejection(proof, row.state, a.manifest, Some(a.receipt))
      else if e.operation.Release? && !ReleaseApprovalMatches(s, e, a.receipt) then
        AuthorityRejection(proof, row.state, e.manifest, Some(a.receipt))
      else AuthorityCommit(proof, a.receipt)
  }

  // ---------------------------------------------------------------- rejected attempts

  function FailedPacketEvent(command: Command, packet: PacketId, row: Packet, requested: WorkflowState,
                             scope: Option<Scope>): Event {
    Event(command, Some(packet), Some(row.candidate), Some(row.state), Some(requested), Some(row.state), false, Ungoverned, None,
          PlainIdentifiers(Some(row.candidate), Some(packet), scope), FailedAuthentication, None)
  }

  /** `TransitionMediator._record_authentication_rejection`. */
  function PacketAuthenticationFailure(s: Store, signed: Option<SignedOperation>, replay: bool, c: AdapterConstraints): Option<Pending> {
    if signed.Some? && !signed.value.envelope.PacketEnvelope? then None
    else if signed.None? then
      if c.packet.None? || c.packet.value !in s.packets then None
      else
        var command := if c.operation.Some? then Authority(c.operation.value) else AuthenticateCommand;
        var requested := if c.operation.Some? then RequestedOf(c.operation.value) else Approved;
        Some(EventRecord(FailedPacketEvent(command, c.packet.value, s.packets[c.packet.value], requested, None)))
    else
      var proof := signed.value;
      var e := proof.envelope;
      var packet := if replay || c.packet.None? then e.packet else c.packet.value;
      if packet !in s.packets then None
      else
        var row := s.packets[packet];
        var operation := if c.operation.Some? then c.operation.value else e.operation;
        if replay then Some(EventRecord(PacketReplayEvent(proof, operation, row)))
        else Some(EventRecord(FailedPacketEvent(Authority(operation), packet, row, e.requested, None)))
  }

  /** `CapabilityPolicyMediator._record_authentication_rejection`. */
  function PolicyAuthenticationFailure(signed: Option<SignedOperation>, replay: bool): Option<Pending> {
    if signed.None? || !signed.value.envelope.PolicyEnvelope? then None
    else if replay then Some(EventRecord(PolicyReplayEvent(signed.value)))
    else
      var e := signed.value.envelope;
      Some(EventRecord(Event(Policy(e.policy), None, None, None, None, None, false, Ungoverned, None,
                             PolicyIdentifiersOf(e), FailedAuthentication, None)))
  }

  // ---------------------------------------------------------------- the read phase

  /** Envelope models refuse any other policy envelope before it can be signed or loaded. */
  predicate WellFormed(proof: SignedOperation) {
    proof.envelope.PolicyEnvelope? ==> CanonicalPolicyEnvelope(proof.envelope)
  }

  function ReadTransition(s: Store, files: Files, now: int, signed: Option<SignedOperation>, c: AdapterConstraints): Option<Pending> {
    if signed.None? then PacketAuthenticationFailure(s, signed, false, c)
    else
      var proof := signed.value;
      match Authenticate(s, now, proof)
      case AuthenticationFailed => PacketAuthenticationFailure(s, signed, false, c)
      case ReplayDetected => PacketAuthenticationFailure(s, signed, true, c)
      case Authenticated =>
        if proof.envelope.PolicyEnvelope? then Some(PolicyBindingRejection(proof))
        else if proof.envelope.PacketEnvelope? then Some(MediatePacket(s, files, proof, c))
        else None
  }

  function ReadPolicy(s: Store, now: int, signed: Option<SignedOperation>, expected: Option<PolicyOperation>): Option<Pending> {
    if signed.None? then None
    else
      var proof := signed.value;
      var e := proof.envelope;
      match Authenticate(s, now, proof)
      case AuthenticationFailed => PolicyAuthenticationFailure(signed, false)
      case ReplayDetected => PolicyAuthenticationFailure(signed, true)
      case Authenticated =>
        if e.PacketEnvelope? then
          var prior := if e.packet in s.packets then s.packets[e.packet].state else e.expectedPrior;
          Some(AuthorityRejection(proof, prior, e.manifest, None))
        else if !e.PolicyEnvelope? then None
        else if expected.Some? && expected.value != e.policy then Some(PolicyBindingRejection(proof))
        else Some(PolicyCommit(proof))
  }

  function ReadManagement(s: Store, now: int, proof: SignedOperation): Option<Pending> {
    var management := proof.envelope.BindingEnvelope? || proof.envelope.ExecutorEnvelope?;
    match Authenticate(s, now, proof)
    case AuthenticationFailed => None
    case ReplayDetected => if management then Some(EventRecord(ManagementReplayEvent(proof))) else None
    case Authenticated => if management then Some(ManagementCommit(proof)) else None
  }

  /** `transition_candidate`, for the steps shipped callers issue. */
  function ReadCandidate(s: Store, candidate: CandidateId, requested: WorkflowState, generated: Option<NewPacket>): Option<Pending> {
    if candidate !in s.candidates then None
    else if requested !in {EvidencePreserved, Normalized, DuplicateChecked, Suppressed, Qualified, PacketGenerated} then None
    else if generated.Some? <==> requested != PacketGenerated then None
    else
      var prior := s.candidates[candidate];
      if requested in Successors(prior) then Some(CandidateCommit(candidate, prior, requested, generated))
      else Some(EventRecord(WorkflowEvent(Some(candidate), None, prior, requested, false, Ungoverned, None, None, Unauthenticated)))
  }

  /** `transition_packet`. */
  function ReadPacket(s: Store, packet: PacketId, requested: WorkflowState, receipt: FileHash): Option<Pending> {
    if packet !in s.packets then None
    else
      var row := s.packets[packet];
      if AuthoritySensitive(row.state, requested) then
        Some(EventRecord(FailedPacketEvent(Workflow, packet, row, requested, row.scope)))
      else if requested !in Successors(row.state) then
        Some(EventRecord(WorkflowEvent(None, Some(packet), row.state, requested, false, Manifest(row.manifest),
                                       Some(receipt), row.scope, Unauthenticated)))
      else if requested == Failed then None
      else Some(PacketCommit(packet, row.candidate, row.state, requested, receipt))
  }

  /** Everything a writer reads before its transaction; None when it stops without one. */
  function Read(s: Store, files: Files, now: int, r: Request): Option<Pending> {
    match r
    case TransitionRequest(signed, c) =>
      if signed.Some? && !WellFormed(signed.value) then None else ReadTransition(s, files, now, signed, c)
    case PolicyRequest(signed, expected) =>
      if signed.Some? && !WellFormed(signed.value) then None else ReadPolicy(s, now, signed, expected)
    case ManagementRequest(operation) => ReadManagement(s, now, operation)
    case CandidateRequest(candidate, requested, generated) => ReadCandidate(s, candidate, requested, generated)
    case UnreadyReport(candidate) =>
      if candidate !in s.candidates then None
      else Some(EventRecord(WorkflowEvent(Some(candidate), None, s.candidates[candidate], Qualified, false, Ungoverned, None, None, Unauthenticated)))
    case PacketRequest(packet, requested, receipt) => ReadPacket(s, packet, requested, receipt)
    case EffectCreationRequest(packet) =>
      if packet !in s.packets then None
      else match Recompute(files, packet, s.packets[packet]) { case None => None case Some(a) => Some(EffectCreation(packet, a)) }
    case EffectClaim(effect, dispatch) => Some(ClaimCommit(effect, dispatch))
    case ResultSubmission(result) => Some(ResultCommit(result))
  }

  // ---------------------------------------------------------------- the commit phase

  /** The attempt carries the kind of envelope its transaction is written for. */
  predicate Typed(p: Pending) {
    match p
    case AuthorityCommit(proof, _) => proof.envelope.PacketEnvelope?
    case AuthorityRejection(proof, _, _, _) => proof.envelope.PacketEnvelope?
    case PolicyCommit(proof) => proof.envelope.PolicyEnvelope?
    case PolicyBindingRejection(proof) => proof.envelope.PolicyEnvelope?
    case ManagementCommit(proof) => proof.envelope.BindingEnvelope? || proof.envelope.ExecutorEnvelope?
    case _ => true
  }

  /** One immediate transaction: None when it rolls back. */
  function Commit(s: Store, files: Files, p: Pending): Option<Store>
    requires Typed(p)
  {
    match p
    case AuthorityCommit(proof, receipt) => CommitAuthority(s, proof, receipt)
    case AuthorityRejection(proof, prior, governed, read) => CommitRejection(s, proof, prior, governed, read)
    case PolicyCommit(proof) => CommitPolicy(s, proof)
    case PolicyBindingRejection(proof) => CommitPolicyBindingRejection(s, proof)
    case ManagementCommit(proof) => CommitManagement(s, proof)
    case EventRecord(event) => Some(Append(s, event))
    case CandidateCommit(candidate, prior, requested, generated) => CommitCandidate(s, candidate, prior, requested, generated)
    case PacketCommit(packet, candidate, prior, requested, receipt) => CommitPacketStep(s, packet, candidate, prior, requested, receipt)
    case EffectCreation(packet, first) =>
      (match CreateExternalEffect(s, files, packet, first)
       case Created(store, _) => Some(store)
       case Existing(_) => Some(s)
       case _ => None)
    case ClaimCommit(effect, dispatch) => ClaimExternalEffect(s, effect, dispatch)
    case ResultCommit(result) => RecordExecutorResult(s, result)
  }
}
