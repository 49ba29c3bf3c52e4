/** Records crossing the governed workflow boundary (models.py). */
module Models {
  datatype Option<+T> = None | Some(value: T)

  // Opaque identifiers: only equality matters to the program.
  type PrincipalId = nat
  type KeyId = nat
  type OperationId = nat
  type GrantId = nat
  type RevocationId = nat
  type CandidateId = nat
  type PacketId = nat
  type ApprovalId = nat
  type BindingId = nat
  type ExecutorId = nat
  type DispatchId = nat
  type ResultId = nat
  type TargetRef = nat
  type CredentialRef = nat
  /** A SHA-256 digest of packet files. */
  type FileHash = nat
  /** An event, named by its chain sequence; the first native event is 1. */
  type Sequence = nat

  datatype WorkflowState =
    | Discovered | EvidencePreserved | Normalized | DuplicateChecked | Qualified
    | PacketGenerated | AwaitingApproval | Approved | Released
    | Suppressed | Rejected | Failed

  datatype AuthorityOperation = Approve | Reject | Release

  datatype ApprovalDecision = DecisionApproved | DecisionRejected

  datatype Capability = PacketApprove | PacketReject | PacketRelease | PolicyManageCapabilities | EffectManageBindings

  datatype PolicyOperation = Bootstrap | Grant | Revoke

  datatype AuthorizationStatus = Allowed | Denied | NotEvaluated

  datatype AuthorizationReason =
    | ActiveGrant | BootstrapAllowed | NoActiveGrant | CapabilityMismatch | StateScopeMismatch
    | GrantRevoked | PolicyNotBootstrapped | PolicyAlreadyBootstrapped
    | UnknownSubjectPrincipal | UnknownGrant | GrantBindingMismatch | GrantAlreadyRevoked
    | LastPolicyAdmin | RequestBindingRejected | ReplayRejectedReason | ScopeRequired
    | RequestScopeMismatch | BrandScopeMismatch | ChannelScopeMismatch
    | DestinationScopeMismatch | LegacyUnscopedGrant

  datatype Scope = Scope(brand: nat, channel: nat, destination: nat)

  /** `scope_version` with the three scope columns; the CHECK constraints admit no other
      combination than none at all, a bare version, and a version with an exact scope. */
  datatype ScopeColumns = Unversioned | Versioned | Exact(scope: Scope)

  /** Required capability of a packet operation. */
  function RequiredCapability(operation: AuthorityOperation): Capability {
    match operation
    case Approve => PacketApprove
    case Reject => PacketReject
    case Release => PacketRelease
  }

  /** OPERATION_SEMANTICS: prior state, requested state and decision of each operation. */
  function PriorOf(operation: AuthorityOperation): WorkflowState {
    if operation.Release? then Approved else AwaitingApproval
  }

  function RequestedOf(operation: AuthorityOperation): WorkflowState {
    match operation
    case Approve => Approved
    case Reject => Rejected
    case Release => Released
  }

  function DecisionOf(operation: AuthorityOperation): ApprovalDecision {
    if operation.Reject? then DecisionRejected else DecisionApproved
  }

  predicate PacketScoped(capability: Capability) {
    capability in {PacketApprove, PacketReject, PacketRelease}
  }

  /** CAPABILITY_STATE_SCOPES. */
  function StatePair(capability: Capability): (Option<WorkflowState>, Option<WorkflowState>) {
    match capability
    case PacketApprove => (Some(AwaitingApproval), Some(Approved))
    case PacketReject => (Some(AwaitingApproval), Some(Rejected))
    case PacketRelease => (Some(Approved), Some(Released))
    case PolicyManageCapabilities => (None, None)
    case EffectManageBindings => (None, None)
  }

  /** AUTHORITY_SENSITIVE_STATE_PAIRS. */
  predicate AuthoritySensitive(prior: WorkflowState, requested: WorkflowState) {
    || (prior == AwaitingApproval && requested in {Approved, Rejected})
    || (prior == Approved && requested == Released)
  }

  datatype Decision = Decision(
    status: AuthorizationStatus, principal: PrincipalId, capability: Capability,
    prior: Option<WorkflowState>, requested: Option<WorkflowState>,
    scope: ScopeColumns, grant: Option<GrantId>, reason: AuthorizationReason)
}
