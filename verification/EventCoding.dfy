/** Ledger events as values of the chain layer: a code from which the event can be told, so that
    rows that carry it lose nothing of the ledger. Fields are pushed one by one, a variant's tag
    last. */
module EventCoding {
  import opened Models
  import opened Ledger
  import C = Canonical

  function PushInt(acc: C.Value, n: int): C.Value {
    C.Json(acc, if n >= 0 then 2 * n else -2 * n - 1)
  }

  function Push2(acc: C.Value, a: int, b: int): C.Value {
    PushInt(PushInt(acc, a), b)
  }

  function Push3(acc: C.Value, a: int, b: int, c: int): C.Value {
    PushInt(Push2(acc, a, b), c)
  }

  function Push4(acc: C.Value, a: int, b: int, c: int, d: int): C.Value {
    PushInt(Push3(acc, a, b, c), d)
  }

  // ---------------------------------------------------------------- enumerations and options

  function BoolCode(b: bool): nat {
    if b then 1 else 0
  }

  function OptionCode(o: Option<nat>): nat {
    match o case None => 0 case Some(n) => n + 1
  }

  function StateCode(state: WorkflowState): nat {
    match state
    case Discovered => 0 case EvidencePreserved => 1 case Normalized => 2 case DuplicateChecked => 3
    case Qualified => 4 case PacketGenerated => 5 case AwaitingApproval => 6 case Approved => 7
    case Released => 8 case Suppressed => 9 case Rejected => 10 case Failed => 11
  }

  function OptionalStateCode(o: Option<WorkflowState>): nat {
    match o case None => 0 case Some(state) => StateCode(state) + 1
  }

  function OperationCode(operation: AuthorityOperation): nat {
    match operation case Approve => 0 case Reject => 1 case Release => 2
  }

  function PolicyCode(policy: PolicyOperation): nat {
    match policy case Bootstrap => 0 case Grant => 1 case Revoke => 2
  }

  function DecisionCode(decision: ApprovalDecision): nat {
    match decision case DecisionApproved => 0 case DecisionRejected => 1
  }

  function CapabilityCode(capability: Capability): nat {
    match capability
    case PacketApprove => 0 case PacketReject => 1 case PacketRelease => 2
    case PolicyManageCapabilities => 3 case EffectManageBindings => 4
  }

  function StatusCode(status: AuthorizationStatus): nat {
    match status case Allowed => 0 case Denied => 1 case NotEvaluated => 2
  }

  function ReasonCode(reason: AuthorizationReason): nat {
    match reason
    case ActiveGrant => 0 case BootstrapAllowed => 1 case NoActiveGrant => 2 case CapabilityMismatch => 3
    case StateScopeMismatch => 4 case GrantRevoked => 5 case PolicyNotBootstrapped => 6 case PolicyAlreadyBootstrapped => 7
    case UnknownSubjectPrincipal => 8 case UnknownGrant => 9 case GrantBindingMismatch => 10 case GrantAlreadyRevoked => 11
    case LastPolicyAdmin => 12 case RequestBindingRejected => 13 case ReplayRejectedReason => 14 case ScopeRequired => 15
    case RequestScopeMismatch => 16 case BrandScopeMismatch => 17 case ChannelScopeMismatch => 18
    case DestinationScopeMismatch => 19 case LegacyUnscopedGrant => 20
  }

  function OutcomeCode(outcome: EffectOutcome): nat {
    match outcome case Succeeded => 0 case EffectFailed => 1 case Unknown => 2
  }

  function CommandCode(command: Command): nat {
    match command
    case Authority(operation) => OperationCode(operation)
    case Policy(policy) => 3 + PolicyCode(policy)
    case RegisterBinding => 6 case RegisterExecutor => 7 case Workflow => 8 case AuthenticateCommand => 9
    case CreateEffect => 10 case ClaimEffect => 11 case RecordResult => 12
  }

  lemma StatesTold(a: Option<WorkflowState>, b: Option<WorkflowState>)
    ensures OptionalStateCode(a) == OptionalStateCode(b) ==> a == b
  {
  }

  lemma CommandsTold(a: Command, b: Command)
    ensures CommandCode(a) == CommandCode(b) ==> a == b
  {
  }

  lemma ReasonsTold(a: AuthorizationReason, b: AuthorizationReason)
    ensures ReasonCode(a) == ReasonCode(b) ==> a == b
  {
  }

  lemma CapabilitiesTold(a: Capability, b: Capability)
    ensures CapabilityCode(a) == CapabilityCode(b) ==> a == b
  {
  }

  // ---------------------------------------------------------------- scopes and decisions

  function PushScope(acc: C.Value, scope: Option<Scope>): C.Value {
    match scope
    case None => PushInt(acc, 0)
    case Some(s) => PushInt(Push3(acc, s.brand, s.channel, s.destination), 1)
  }

  function PushColumns(acc: C.Value, columns: ScopeColumns): C.Value {
    match columns
    case Unversioned => PushInt(acc, 0)
    case Versioned => PushInt(acc, 1)
    case Exact(s) => PushInt(Push3(acc, s.brand, s.channel, s.destination), 2)
  }

  function PushDecision(acc: C.Value, decision: Option<Decision>): C.Value {
    match decision
    case None => PushInt(acc, 0)
    case Some(d) =>
      var scoped := PushColumns(acc, d.scope);
      var asked := Push4(scoped, d.principal, CapabilityCode(d.capability), OptionalStateCode(d.prior), OptionalStateCode(d.requested));
      PushInt(Push3(asked, StatusCode(d.status), OptionCode(d.grant), ReasonCode(d.reason)), 1)
  }

  lemma ColumnsTold(a: C.Value, x: ScopeColumns, b: C.Value, y: ScopeColumns)
    requires PushColumns(a, x) == PushColumns(b, y)
    ensures a == b && x == y
  {
  }

  lemma DecisionsTold(a: C.Value, x: Option<Decision>, b: C.Value, y: Option<Decision>)
    requires PushDecision(a, x) == PushDecision(b, y)
    ensures a == b && x == y
  {
    hide PushColumns, ReasonCode, OptionalStateCode, CapabilityCode;
    if x.Some? && y.Some? {
      ColumnsTold(a, x.value.scope, b, y.value.scope);
      ReasonsTold(x.value.reason, y.value.reason);
      StatesTold(x.value.prior, y.value.prior);
      StatesTold(x.value.requested, y.value.requested);
      CapabilitiesTold(x.value.capability, y.value.capability);
    }
  }

  // ---------------------------------------------------------------- effects

  function PushRequest(acc: C.Value, r: EffectRequest): C.Value {
    var named := Push4(Push3(acc, r.effect.release, r.effect.binding, r.release), r.packet, r.candidate, r.approval, r.approvalEvent);
    var scoped := Push3(Push2(named, r.principal, r.grant), r.scope.brand, r.scope.channel, r.scope.destination);
    var bound := Push3(Push2(scoped, r.binding, r.target), r.credential, r.manifest, r.receipt);
    Push4(bound, r.key.effect.release, r.key.effect.binding, r.key.release, r.event)
  }

  lemma RequestsTold(a: C.Value, x: EffectRequest, b: C.Value, y: EffectRequest)
    requires PushRequest(a, x) == PushRequest(b, y)
    ensures a == b && x == y
  {
  }

  function PushResultEnvelope(acc: C.Value, e: ResultEnvelope): C.Value {
    var hashed := PushRequest(acc, e.hash.of);
    var named := Push3(Push3(hashed, e.id, e.executor, e.executorKey), e.effect.release, e.effect.binding, e.dispatch);
    var scoped := Push2(Push3(named, e.scope.brand, e.scope.channel, e.scope.destination), e.binding, e.artifact);
    var keyed := Push3(scoped, e.key.effect.release, e.key.effect.binding, e.key.release);
    var ended := Push3(keyed, OutcomeCode(e.outcome), BoolCode(e.mayHaveOccurred), BoolCode(e.retryPermitted));
    Push3(ended, OptionCode(e.remote), OptionCode(e.response), OptionCode(e.error))
  }

  lemma ResultEnvelopesTold(a: C.Value, x: ResultEnvelope, b: C.Value, y: ResultEnvelope)
    requires PushResultEnvelope(a, x) == PushResultEnvelope(b, y)
    ensures a == b && x == y
  {
    hide PushRequest;
    RequestsTold(a, x.hash.of, b, y.hash.of);
  }

  function PushResult(acc: C.Value, r: SignedResult): C.Value {
    PushInt(PushResultEnvelope(PushResultEnvelope(acc, r.envelope), r.signed), r.signer)
  }

  lemma ResultsTold(a: C.Value, x: SignedResult, b: C.Value, y: SignedResult)
    requires PushResult(a, x) == PushResult(b, y)
    ensures a == b && x == y
  {
    hide PushResultEnvelope;
    ResultEnvelopesTold(PushResultEnvelope(a, x.envelope), x.signed, PushResultEnvelope(b, y.envelope), y.signed);
    ResultEnvelopesTold(a, x.envelope, b, y.envelope);
  }

  // ---------------------------------------------------------------- signed operations

  function PushEnvelope(acc: C.Value, e: Envelope): C.Value {
    var signed := Push3(Push2(acc, e.id, e.principal), e.key, e.issued, e.expires);
    match e
    case PacketEnvelope(_, _, _, _, _, operation, packet, candidate, prior, requested, manifest, receipt, decision, approval, event, scope) =>
      var moved := Push4(PushScope(signed, scope), packet, candidate, StateCode(prior), StateCode(requested));
      var hashed := Push4(moved, manifest, receipt, approval, OptionCode(event));
      PushInt(Push2(hashed, OperationCode(operation), DecisionCode(decision)), 0)
    case PolicyEnvelope(_, _, _, _, _, policy, grant, revocation, subject, capability, prior, requested, columns) =>
      var granted := Push3(PushColumns(signed, columns), grant, OptionCode(revocation), subject);
      PushInt(Push4(granted, PolicyCode(policy), CapabilityCode(capability), OptionalStateCode(prior), OptionalStateCode(requested)), 1)
    case BindingEnvelope(_, _, _, _, _, binding, scope, target, credential) =>
      PushInt(Push3(Push3(signed, scope.brand, scope.channel, scope.destination), binding, target, credential), 2)
    case ExecutorEnvelope(_, _, _, _, _, executor, key) =>
      PushInt(Push2(signed, executor, key), 3)
  }

  lemma ScopesTold(a: C.Value, x: Option<Scope>, b: C.Value, y: Option<Scope>)
    requires PushScope(a, x) == PushScope(b, y)
    ensures a == b && x == y
  {
  }

  lemma StateTold(a: WorkflowState, b: WorkflowState)
    ensures StateCode(a) == StateCode(b) ==> a == b
  {
  }

  lemma EnvelopesTold(a: C.Value, x: Envelope, b: C.Value, y: Envelope)
    requires PushEnvelope(a, x) == PushEnvelope(b, y)
    ensures a == b && x == y
  {
    hide PushScope, PushColumns, StateCode, OptionalStateCode, CapabilityCode;
    var u, v := Push3(Push2(a, x.id, x.principal), x.key, x.issued, x.expires), Push3(Push2(b, y.id, y.principal), y.key, y.issued, y.expires);
    if x.PacketEnvelope? && y.PacketEnvelope? {
      ScopesTold(u, x.scope, v, y.scope);
      StateTold(x.expectedPrior, y.expectedPrior);
      StateTold(x.requested, y.requested);
    }
    if x.PolicyEnvelope? && y.PolicyEnvelope? {
      ColumnsTold(u, x.columns, v, y.columns);
      CapabilitiesTold(x.capability, y.capability);
      StatesTold(x.grantPrior, y.grantPrior);
      StatesTold(x.grantRequested, y.grantRequested);
    }
  }

  function PushOperation(acc: C.Value, o: SignedOperation): C.Value {
    PushInt(PushEnvelope(PushEnvelope(acc, o.envelope), o.signed), o.signer)
  }

  lemma OperationsTold(a: C.Value, x: SignedOperation, b: C.Value, y: SignedOperation)
    requires PushOperation(a, x) == PushOperation(b, y)
    ensures a == b && x == y
  {
    hide PushEnvelope;
    EnvelopesTold(PushEnvelope(a, x.envelope), x.signed, PushEnvelope(b, y.envelope), y.signed);
    EnvelopesTold(a, x.envelope, b, y.envelope);
  }

  function PushAuthentication(acc: C.Value, authentication: Authentication): C.Value {
    match authentication
    case Unauthenticated => PushInt(acc, 0)
    case FailedAuthentication => PushInt(acc, 1)
    case Verified(proof) => PushInt(PushOperation(acc, proof), 2)
    case Replayed(proof) => PushInt(PushOperation(acc, proof), 3)
  }

  lemma AuthenticationsTold(a: C.Value, x: Authentication, b: C.Value, y: Authentication)
    requires PushAuthentication(a, x) == PushAuthentication(b, y)
    ensures a == b && x == y
  {
    hide PushOperation;
    if x.Verified? && y.Verified? { OperationsTold(a, x.proof, b, y.proof); }
    if x.Replayed? && y.Replayed? { OperationsTold(a, x.proof, b, y.proof); }
  }

  // ---------------------------------------------------------------- events

  function PushGoverned(acc: C.Value, governed: Governed): C.Value {
    match governed
    case Ungoverned => PushInt(acc, 0)
    case Manifest(hash) => PushInt(PushInt(acc, hash), 1)
    case Request(request) => PushInt(PushRequest(acc, request.of), 2)
  }

  lemma GovernedTold(a: C.Value, x: Governed, b: C.Value, y: Governed)
    requires PushGoverned(a, x) == PushGoverned(b, y)
    ensures a == b && x == y
  {
    hide PushRequest;
    if x.Request? && y.Request? { RequestsTold(a, x.request.of, b, y.request.of); }
  }

  function PushIdentifiers(acc: C.Value, i: Identifiers): C.Value {
    match i
    case PacketIdentifiers(packet, candidate, operation, approval, decision, scope, event) =>
      PushInt(Push2(Push4(PushScope(acc, scope), packet, candidate, operation, approval), DecisionCode(decision), OptionCode(event)), 0)
    case PlainIdentifiers(candidate, packet, scope) =>
      PushInt(Push2(PushScope(acc, scope), OptionCode(candidate), OptionCode(packet)), 1)
    case PolicyIdentifiers(operation, grant, revocation, subject, capability, prior, requested, columns) =>
      var granted := Push4(PushColumns(acc, columns), operation, grant, OptionCode(revocation), subject);
      PushInt(Push3(granted, CapabilityCode(capability), OptionalStateCode(prior), OptionalStateCode(requested)), 2)
    case BindingIdentifiers(operation, binding, scope, target, credential) =>
      PushInt(Push4(Push3(acc, scope.brand, scope.channel, scope.destination), operation, binding, target, credential), 3)
    case ExecutorIdentifiers(operation, executor, key) => PushInt(Push3(acc, operation, executor, key), 4)
    case EffectIdentifiers(request) => PushInt(PushRequest(acc, request), 5)
    case DispatchIdentifiers(effect, dispatch, attempt) => PushInt(Push4(acc, effect.release, effect.binding, dispatch, attempt), 6)
    case ResultIdentifiers(proof) => PushInt(PushResult(acc, proof), 7)
  }

  lemma IdentifiersTold(a: C.Value, x: Identifiers, b: C.Value, y: Identifiers)
    requires PushIdentifiers(a, x) == PushIdentifiers(b, y)
    ensures a == b && x == y
  {
    hide PushScope, PushColumns, PushRequest, PushResult, OptionalStateCode, CapabilityCode;
    if x.PacketIdentifiers? && y.PacketIdentifiers? { ScopesTold(a, x.scope, b, y.scope); }
    if x.PlainIdentifiers? && y.PlainIdentifiers? { ScopesTold(a, x.scope, b, y.scope); }
    if x.PolicyIdentifiers? && y.PolicyIdentifiers? {
      ColumnsTold(a, x.columns, b, y.columns);
      CapabilitiesTold(x.capability, y.capability);
      StatesTold(x.prior, y.prior);
      StatesTold(x.requested, y.requested);
    }
    if x.EffectIdentifiers? && y.EffectIdentifiers? { RequestsTold(a, x.request, b, y.request); }
    if x.ResultIdentifiers? && y.ResultIdentifiers? { ResultsTold(a, x.proof, b, y.proof); }
  }

  function PushEvent(acc: C.Value, e: Event): C.Value {
    var decided := PushDecision(PushAuthentication(acc, e.authentication), e.authorization);
    var named := PushIdentifiers(PushGoverned(decided, e.governed), e.identifiers);
    var moved := Push4(named, CommandCode(e.command), OptionalStateCode(e.prior), OptionalStateCode(e.requested), OptionalStateCode(e.resulting));
    Push4(moved, OptionCode(e.packet), OptionCode(e.candidate), OptionCode(e.receipt), BoolCode(e.accepted))
  }

  function EventCode(e: Event): C.Value {
    PushEvent(C.Null, e)
  }

  /** An event can be told from its code. */
  lemma EventsTold(x: Event, y: Event)
    requires EventCode(x) == EventCode(y)
    ensures x == y
  {
    hide PushAuthentication, PushDecision, PushGoverned, PushIdentifiers, CommandCode, OptionalStateCode;
    var a, b := PushAuthentication(C.Null, x.authentication), PushAuthentication(C.Null, y.authentication);
    var c, d := PushDecision(a, x.authorization), PushDecision(b, y.authorization);
    IdentifiersTold(PushGoverned(c, x.governed), x.identifiers, PushGoverned(d, y.governed), y.identifiers);
    GovernedTold(c, x.governed, d, y.governed);
    DecisionsTold(a, x.authorization, b, y.authorization);
    AuthenticationsTold(C.Null, x.authentication, C.Null, y.authentication);
    CommandsTold(x.command, y.command);
    StatesTold(x.prior, y.prior);
    StatesTold(x.requested, y.requested);
    StatesTold(x.resulting, y.resulting);
  }
}
