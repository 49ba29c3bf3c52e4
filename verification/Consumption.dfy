/** Signed proofs and the events that adjudicate them, over every run. */
module Consumption {
  import opened Models
  import opened Authorization
  import opened Ledger
  import opened Writers
  import opened System

  // ---------------------------------------------------------------- what a pending attempt may carry

  predicate ManagementEnvelope(e: Envelope) {
    e.BindingEnvelope? || e.ExecutorEnvelope?
  }

  /** The replay event of a proof: of a packet proof, under any adapter operation and for any
      state its packet has had. */
  ghost predicate ReplayForm(e: Event, proof: SignedOperation) {
    match proof.envelope
    case PacketEnvelope(_, _, _, _, _, _, _, _, _, _, _, _, _, _, _, _) =>
      exists operation, row :: e == PacketReplayEvent(proof, operation, row)
    case PolicyEnvelope(_, _, _, _, _, _, _, _, _, _, _, _, _) => e == PolicyReplayEvent(proof)
    case _ => e == ManagementReplayEvent(proof)
  }

  /** Events recorded without consuming a proof. */
  ghost predicate UnprovenForm(s: Store, e: Event) {
    && !e.accepted
    && match e.authentication
       case Verified(_) => false
       case Replayed(proof) => Trusted(s, proof) && Consumed(s, proof) && ReplayForm(e, proof)
       case FailedAuthentication => e.authorization.None?
       case Unauthenticated => e.authorization.None? && e.command == Workflow
  }

  /** The approving event carries the packet receipt the release found on disk. */
  predicate ApprovedReceipt(s: Store, approvalEvent: Option<Sequence>, receipt: FileHash) {
    approvalEvent.Some? && Recorded(s, approvalEvent.value) && At(s, approvalEvent.value).receipt == Some(receipt)
  }

  /** What reading guarantees about an attempt, however much later it commits. */
  ghost predicate PendingOk(s: Store, p: Pending) {
    && Typed(p)
    && match p
       case AuthorityCommit(proof, receipt) =>
         && Trusted(s, proof) && CanonicalSemantics(proof.envelope) && receipt == proof.envelope.receipt
         && (proof.envelope.operation.Release? ==> ApprovedReceipt(s, proof.envelope.approvalEvent, receipt))
       case AuthorityRejection(proof, _, _, _) => Trusted(s, proof)
       case PolicyCommit(proof) => Trusted(s, proof) && CanonicalPolicyEnvelope(proof.envelope)
       case PolicyBindingRejection(proof) => Trusted(s, proof) && CanonicalPolicyEnvelope(proof.envelope)
       case ManagementCommit(proof) => Trusted(s, proof)
       case EventRecord(event) => UnprovenForm(s, event)
       case CandidateCommit(_, prior, requested, generated) =>
         ShippedCandidateStep(prior, requested) && (generated.Some? <==> requested == PacketGenerated)
       case PacketCommit(_, _, prior, requested, _) =>
         requested in Successors(prior) && requested != Failed && !AuthoritySensitive(prior, requested)
       case _ => true
  }

  lemma PendingStable(s: Store, t: Store, p: Pending)
    requires PendingOk(s, p) && MapGrows(s.operations, t.operations) && MapGrows(s.principals, t.principals) && s.log <= t.log
    ensures PendingOk(t, p)
  {
    if p.EventRecord? && p.event.authentication.Replayed? {
      var proof := p.event.authentication.proof;
      if proof.envelope.id !in s.operations {
        var o :| o in s.operations && s.operations[o].proof == proof;
        assert o in t.operations && t.operations[o].proof == proof;
      }
    }
  }

  lemma FailureOk(s: Store, signed: Option<SignedOperation>, replay: bool, c: AdapterConstraints)
    requires replay ==> signed.Some? && Trusted(s, signed.value) && Consumed(s, signed.value)
    requires signed.Some? ==> WellFormed(signed.value)
    ensures var r := PacketAuthenticationFailure(s, signed, replay, c); r.Some? ==> PendingOk(s, r.value)
    ensures var r := PolicyAuthenticationFailure(signed, replay); r.Some? ==> PendingOk(s, r.value)
  {
    hide Consumed, Trusted;
  }

  /** Mediation hands an attempt to the commit service only with the operation's own semantics. */
  lemma MediationOk(s: Store, files: Files, proof: SignedOperation, c: AdapterConstraints)
    requires proof.envelope.PacketEnvelope? && Trusted(s, proof)
    ensures PendingOk(s, MediatePacket(s, files, proof, c))
    ensures MediatePacket(s, files, proof, c).AuthorityCommit? || MediatePacket(s, files, proof, c).AuthorityRejection?
  {
    hide Trusted, Recompute, AdapterMismatch, CanonicalSemantics, ApprovedApproval;
  }

  lemma ReadOk(s: Store, files: Files, now: int, r: Request)
    ensures var p := Read(s, files, now, r); p.Some? ==> PendingOk(s, p.value)
  {
    hide Trusted, InWindow, Consumed, MediatePacket, PacketAuthenticationFailure, PolicyAuthenticationFailure, Recompute,
         UnprovenForm;
    match r
    case TransitionRequest(signed, c) =>
      if signed.Some? && WellFormed(signed.value) {
        FailureOk(s, signed, false, c);
        if Trusted(s, signed.value) && Consumed(s, signed.value) { FailureOk(s, signed, true, c); }
        if Trusted(s, signed.value) && signed.value.envelope.PacketEnvelope? { MediationOk(s, files, signed.value, c); }
      } else if signed.None? { FailureOk(s, signed, false, c); }
    case PolicyRequest(signed, _) =>
      var c := AdapterConstraints(None, None, true);
      if signed.Some? && WellFormed(signed.value) {
        FailureOk(s, signed, false, c);
        if Trusted(s, signed.value) && Consumed(s, signed.value) { FailureOk(s, signed, true, c); }
      }
    case ManagementRequest(operation) => if ManagementEnvelope(operation.envelope) { ReplayOk(s, operation); }
    case CandidateRequest(candidate, requested, _) => AttemptsOk(s);
    case UnreadyReport(candidate) => AttemptsOk(s);
    case PacketRequest(packet, requested, receipt) => AttemptsOk(s);
    case _ =>
  }

  lemma ReplayOk(s: Store, proof: SignedOperation)
    requires ManagementEnvelope(proof.envelope)
    ensures Trusted(s, proof) && Consumed(s, proof) ==> UnprovenForm(s, ManagementReplayEvent(proof))
  {
    hide Consumed, Trusted;
  }

  lemma AttemptsOk(s: Store)
    ensures forall e: Event :: !e.accepted && e.authorization.None? && e.authentication.FailedAuthentication? ==> UnprovenForm(s, e)
    ensures forall e: Event :: !e.accepted && e.authorization.None? && e.authentication.Unauthenticated? && e.command == Workflow ==>
              UnprovenForm(s, e)
  {
  }

  // ---------------------------------------------------------------- how one transaction moves the log

  /** The query whose evaluation authorizes an accepted event. */
  function QueryOf(e: Event): Query
    requires e.authentication.Verified?
  {
    var v := e.authentication.proof.envelope;
    match e.command
    case Authority(operation) =>
      Query(v.principal, RequiredCapability(operation), e.prior, e.requested, if v.PacketEnvelope? then v.scope else None)
    case RegisterBinding => PolicyQuery(v.principal, EffectManageBindings)
    case RegisterExecutor => PolicyQuery(v.principal, EffectManageBindings)
    case _ => PolicyQuery(v.principal, PolicyManageCapabilities)
  }

  /** An accepted event's decision is the evaluator's on exactly this view, or the bootstrap of
      an empty policy. */
  predicate AuthorizedOn(v: PolicyView, e: Event)
    requires e.authentication.Verified?
  {
    && e.authorization.Some? && e.authorization.value.status == Allowed
    && if e.command == Policy(Bootstrap) then
         v == PolicyView(false, [], {}) && e.authorization == Some(BootstrapDecision(e.authentication.proof.envelope.principal))
       else e.authorization == Some(Evaluate(v, QueryOf(e)))
  }

  /** The event says what its proof says. */
  ghost predicate VerifiedForm(e: Event, proof: SignedOperation) {
    match proof.envelope
    case PacketEnvelope(_, _, _, _, _, operation, packet, candidate, _, requested, _, _, _, _, _, _) =>
      && e.command == Authority(operation) && e.packet == Some(packet) && e.candidate == Some(candidate)
      && e.requested == Some(requested) && e.prior.Some?
      && e.resulting == (if e.accepted then e.requested else e.prior)
      && e.identifiers == PacketIdentifiersOf(proof.envelope)
      && (e.accepted ==> CanonicalSemantics(proof.envelope) && e.prior == Some(proof.envelope.expectedPrior)
                         && e.governed == Manifest(proof.envelope.manifest) && e.receipt == Some(proof.envelope.receipt))
    case PolicyEnvelope(_, _, _, _, _, policy, _, _, _, _, _, _, _) =>
      && CanonicalPolicyEnvelope(proof.envelope)
      && exists d, accepted :: e == PolicyEvent(proof, d, accepted)
    case _ => exists d, accepted :: e == ManagementEvent(proof, Verified(proof), accepted, d)
  }

  function CapabilityOf(v: Envelope): Capability {
    match v
    case PacketEnvelope(_, _, _, _, _, operation, _, _, _, _, _, _, _, _, _, _) => RequiredCapability(operation)
    case PolicyEnvelope(_, _, _, _, _, _, _, _, _, _, _, _, _) => PolicyManageCapabilities
    case _ => EffectManageBindings
  }

  /** Status, grant and reason of a decision belong together; only policy and management
      requests are ever denied for their binding. */
  predicate ReasonForm(d: Decision, packet: bool) {
    match d.status
    case Allowed => d.reason in {ActiveGrant, BootstrapAllowed} && (d.reason == ActiveGrant <==> d.grant.Some?)
    case Denied => d.grant.None? && d.reason !in {ActiveGrant, BootstrapAllowed, ReplayRejectedReason}
                   && (packet ==> d.reason != RequestBindingRejected)
    case NotEvaluated => d.grant.None? && d.reason == RequestBindingRejected
  }

  /** The recorded decision answers the request the event records. */
  predicate DecisionForm(e: Event, v: Envelope) {
    && e.authorization.Some?
    && var d := e.authorization.value;
       && d.principal == v.principal && d.capability == CapabilityOf(v) && ReasonForm(d, v.PacketEnvelope?)
       && if v.PacketEnvelope? then
            d.prior == e.prior && d.requested == e.requested && (d.scope.Exact? || (d.scope.Versioned? && d.reason == ScopeRequired))
          else d.prior.None? && d.requested.None? && d.scope.Versioned?
  }

  ghost predicate Adjudicates(s: Store, t: Store, e: Event, proof: SignedOperation) {
    && e.authentication == Verified(proof) && Trusted(s, proof) && Consumable(s, proof)
    && VerifiedForm(e, proof) && DecisionForm(e, proof.envelope)
    && t.operations == s.operations[proof.envelope.id := ConsumedOperation(proof, NextSequence(s), e.accepted)]
    && (e.accepted ==> e.authorization.value.status == Allowed)
    && (e.authorization.value.status == Allowed ==> AuthorizedOn(View(s), e))
  }

  lemma EvaluationForm(v: PolicyView, q: Query)
    ensures var d := Evaluate(v, q);
      && d.principal == q.principal && d.capability == q.capability && d.prior == q.prior && d.requested == q.requested
      && d.status != NotEvaluated && ReasonForm(d, true) && d.reason != BootstrapAllowed
      && (PacketScoped(q.capability) && q.scope.Some? ==> d.scope == Exact(q.scope.value))
      && (!PacketScoped(q.capability) ==> d.scope == Versioned)
  {
    hide Select;
  }

  ghost predicate Unproven(s: Store, t: Store, e: Event) {
    && t.operations == s.operations
    && if e.accepted then
         e.authentication.Unauthenticated? && e.authorization.None? && e.command in {Workflow, CreateEffect, ClaimEffect, RecordResult}
       else UnprovenForm(s, e)
  }

  /** A committed transaction leaves the log and the consumed proofs alone, or appends one
      event and consumes the one proof the event adjudicates, if any. */
  ghost predicate LogStep(s: Store, t: Store) {
    || (t.log == s.log && t.operations == s.operations)
    || (exists e :: t.log == s.log + [e]
          && (Unproven(s, t, e) || (e.authentication.Verified? && Adjudicates(s, t, e, e.authentication.proof))))
  }

  lemma AdjudicationStep(s: Store, t: Store, e: Event, proof: SignedOperation)
    requires t.log == s.log + [e] && Adjudicates(s, t, e, proof)
    ensures LogStep(s, t)
  {
    hide VerifiedForm, Consumable, Trusted, AuthorizedOn, DecisionForm;
  }

  lemma UnprovenStep(s: Store, t: Store, e: Event)
    requires t.log == s.log + [e] && Unproven(s, t, e)
    ensures LogStep(s, t)
  {
    hide UnprovenForm;
  }

  lemma TransactionForm(s: Store, v: Envelope, prior: WorkflowState, row: Packet, e: Event)
    requires v.PacketEnvelope? && e.authorization == Some(TransactionDecision(s, v, prior, row))
    requires e.prior == Some(prior) && e.requested == Some(v.requested)
    requires e.command == Authority(v.operation) && e.authentication.Verified? && e.authentication.proof.envelope == v
    ensures DecisionForm(e, v)
    ensures e.authorization.value.status == Allowed ==> AuthorizedOn(View(s), e)
  {
    hide Evaluate;
    EvaluationForm(View(s), Query(v.principal, RequiredCapability(v.operation), Some(prior), Some(v.requested), row.scope));
  }

  lemma AuthorityLogStep(s: Store, proof: SignedOperation, receipt: FileHash)
    requires PendingOk(s, AuthorityCommit(proof, receipt)) && CommitAuthority(s, proof, receipt).Some?
    ensures LogStep(s, CommitAuthority(s, proof, receipt).value)
  {
    hide Consumable, Trusted, ReleaseApproved, NewApproval, CanonicalSemantics, LogStep, TransactionDecision, DecisionForm,
         AuthorizedOn, VerifiedForm, PacketEvent, ApprovedReceipt, AuthoritySensitive;
    var t := CommitAuthority(s, proof, receipt).value;
    var v := proof.envelope;
    var row := s.packets[v.packet];
    var d := TransactionDecision(s, v, row.state, row);
    var e := PacketEvent(proof, d, d.status == Allowed, row.state, v.manifest, Some(receipt));
    AuthorityEventForm(proof, receipt, row, d);
    TransactionForm(s, v, row.state, row, e);
    AdjudicationStep(s, t, e, proof);
  }

  lemma AuthorityEventForm(proof: SignedOperation, receipt: FileHash, row: Packet, d: Decision)
    requires proof.envelope.PacketEnvelope? && CanonicalSemantics(proof.envelope) && receipt == proof.envelope.receipt
    requires d.status == Allowed ==> row.state == proof.envelope.expectedPrior
    ensures var v := proof.envelope; var e := PacketEvent(proof, d, d.status == Allowed, row.state, v.manifest, Some(receipt));
      && VerifiedForm(e, proof) && e.authentication == Verified(proof) && e.accepted == (d.status == Allowed)
      && e.authorization == Some(d) && e.prior == Some(row.state) && e.requested == Some(v.requested) && e.command == Authority(v.operation)
  {
    hide CanonicalSemantics;
  }

  lemma RejectionLogStep(s: Store, proof: SignedOperation, prior: WorkflowState, governed: FileHash, read: Option<FileHash>)
    requires PendingOk(s, AuthorityRejection(proof, prior, governed, read)) && CommitRejection(s, proof, prior, governed, read).Some?
    ensures LogStep(s, CommitRejection(s, proof, prior, governed, read).value)
  {
    hide Consumable, Trusted, CanonicalSemantics, LogStep, TransactionDecision, AuthorizedOn, DecisionForm;
    var v := proof.envelope;
    var t := CommitRejection(s, proof, prior, governed, read).value;
    var e := t.log[|s.log|];
    var row := if v.packet in s.packets then s.packets[v.packet] else Packet(v.candidate, v.manifest, None, prior);
    TransactionForm(s, v, prior, row, e);
    AdjudicationStep(s, t, e, proof);
  }

  lemma PolicyAuthorized(s: Store, proof: SignedOperation, accepted: bool)
    requires proof.envelope.PolicyEnvelope?
    ensures var d := PolicyDecision(s, proof.envelope); var e := PolicyEvent(proof, d, accepted);
      (d.status == Allowed ==> AuthorizedOn(View(s), e)) && DecisionForm(e, proof.envelope)
  {
    hide Evaluate, RemainingAdmin, GrantById;
    EvaluationForm(View(s), PolicyQuery(proof.envelope.principal, PolicyManageCapabilities));
  }

  lemma PolicyLogStep(s: Store, proof: SignedOperation)
    requires PendingOk(s, PolicyCommit(proof)) && CommitPolicy(s, proof).Some?
    ensures LogStep(s, CommitPolicy(s, proof).value)
  {
    hide Consumable, Trusted, LogStep, PolicyDecision, AuthorizedOn, CanonicalPolicyEnvelope, GrantInsertable, NewGrant, DecisionForm;
    var t := CommitPolicy(s, proof).value;
    var d := PolicyDecision(s, proof.envelope);
    var e := PolicyEvent(proof, d, d.status == Allowed);
    PolicyAuthorized(s, proof, d.status == Allowed);
    assert VerifiedForm(e, proof);
    AdjudicationStep(s, t, e, proof);
  }

  lemma BindingRejectionLogStep(s: Store, proof: SignedOperation)
    requires PendingOk(s, PolicyBindingRejection(proof)) && CommitPolicyBindingRejection(s, proof).Some?
    ensures LogStep(s, CommitPolicyBindingRejection(s, proof).value)
  {
    hide Consumable, Trusted, LogStep, AuthorizedOn, CanonicalPolicyEnvelope;
    var t := CommitPolicyBindingRejection(s, proof).value;
    var e := t.log[|s.log|];
    assert VerifiedForm(e, proof);
    AdjudicationStep(s, t, e, proof);
  }

  lemma ManagementAuthorized(s: Store, proof: SignedOperation, accepted: bool)
    requires ManagementEnvelope(proof.envelope)
    ensures var d := ManagementDecision(s, proof.envelope); var e := ManagementEvent(proof, Verified(proof), accepted, d);
      (d.status == Allowed ==> AuthorizedOn(View(s), e)) && DecisionForm(e, proof.envelope)
  {
    hide Evaluate, AlreadyRegistered;
    EvaluationForm(View(s), PolicyQuery(proof.envelope.principal, EffectManageBindings));
  }

  lemma ManagementLogStep(s: Store, proof: SignedOperation)
    requires PendingOk(s, ManagementCommit(proof)) && CommitManagement(s, proof).Some?
    ensures LogStep(s, CommitManagement(s, proof).value)
  {
    hide Consumable, Trusted, LogStep, AlreadyRegistered, ManagementDecision, AuthorizedOn, DecisionForm;
    var t := CommitManagement(s, proof).value;
    var d := ManagementDecision(s, proof.envelope);
    var e := ManagementEvent(proof, Verified(proof), d.status == Allowed, d);
    ManagementAuthorized(s, proof, d.status == Allowed);
    assert VerifiedForm(e, proof);
    AdjudicationStep(s, t, e, proof);
  }

  lemma CandidateLogStep(s: Store, candidate: CandidateId, prior: WorkflowState, requested: WorkflowState, generated: Option<NewPacket>)
    requires CommitCandidate(s, candidate, prior, requested, generated).Some?
    ensures LogStep(s, CommitCandidate(s, candidate, prior, requested, generated).value)
  {
    hide LogStep, AuthoritySensitive, UnprovenForm;
    var t := CommitCandidate(s, candidate, prior, requested, generated).value;
    UnprovenStep(s, t, t.log[|s.log|]);
  }

  lemma PacketLogStep(s: Store, packet: PacketId, candidate: CandidateId, prior: WorkflowState, requested: WorkflowState, receipt: FileHash)
    requires CommitPacketStep(s, packet, candidate, prior, requested, receipt).Some?
    ensures LogStep(s, CommitPacketStep(s, packet, candidate, prior, requested, receipt).value)
  {
    hide LogStep, AuthoritySensitive, UnprovenForm;
    var t := CommitPacketStep(s, packet, candidate, prior, requested, receipt).value;
    UnprovenStep(s, t, t.log[|s.log|]);
  }

  lemma CreationLogStep(s: Store, packet: PacketId, row: Packet, first: Artifacts)
    requires DeriveEffect(s, packet, row, first).Created?
    ensures LogStep(s, DeriveEffect(s, packet, row, first).store)
  {
    hide LogStep, UnprovenForm, NewRequest, GrantSupports, ApprovalNamed, RequestInsertable, LatestRelease, BindingOf;
    var t := DeriveEffect(s, packet, row, first).store;
    UnprovenStep(s, t, t.log[|s.log|]);
  }

  lemma ClaimLogStep(s: Store, effect: EffectId, id: DispatchId)
    requires ClaimExternalEffect(s, effect, id).Some?
    ensures LogStep(s, ClaimExternalEffect(s, effect, id).value)
  {
    hide LogStep, UnprovenForm, LatestDispatch, DispatchById, RequestById;
    var t := ClaimExternalEffect(s, effect, id).value;
    UnprovenStep(s, t, t.log[|s.log|]);
  }

  lemma ResultLogStep(s: Store, proof: SignedResult)
    requires RecordExecutorResult(s, proof).Some?
    ensures LogStep(s, RecordExecutorResult(s, proof).value)
  {
    hide LogStep, UnprovenForm, DispatchById, RequestById, ResultBound, Collides, ValidResult;
    var t := RecordExecutorResult(s, proof).value;
    if t == s { UnchangedStep(s); } else { UnprovenStep(s, t, t.log[|s.log|]); }
  }

  lemma CommitLogStep(s: Store, files: Files, p: Pending)
    requires PendingOk(s, p)
    ensures LogStep(s, Outcome(s, files, p))
  {
    hide LogStep, CommitAuthority, CommitRejection, CommitPolicy, CommitPolicyBindingRejection, CommitManagement, CommitCandidate,
         CommitPacketStep, DeriveEffect, ClaimExternalEffect, RecordExecutorResult;
    if Commit(s, files, p).Some? {
      match p
      case AuthorityCommit(proof, receipt) => AuthorityLogStep(s, proof, receipt);
      case AuthorityRejection(proof, prior, governed, read) => RejectionLogStep(s, proof, prior, governed, read);
      case PolicyCommit(proof) => PolicyLogStep(s, proof);
      case PolicyBindingRejection(proof) => BindingRejectionLogStep(s, proof);
      case ManagementCommit(proof) => ManagementLogStep(s, proof);
      case EventRecord(event) => UnprovenStep(s, Append(s, event), event);
      case CandidateCommit(candidate, prior, requested, generated) =>
        CandidateLogStep(s, candidate, prior, requested, generated);
      case PacketCommit(packet, candidate, prior, requested, receipt) =>
        PacketLogStep(s, packet, candidate, prior, requested, receipt);
      case EffectCreation(packet, first) =>
        if CreateExternalEffect(s, files, packet, first).Created? { CreationLogStep(s, packet, s.packets[packet], first); }
      case ClaimCommit(effect, dispatch) => ClaimLogStep(s, effect, dispatch);
      case ResultCommit(result) => ResultLogStep(s, result);
    }
    UnchangedStep(s);
  }

  lemma UnchangedStep(s: Store)
    ensures LogStep(s, s)
  {
  }

  // ---------------------------------------------------------------- proofs and events, one to one

  ghost predicate OperationSound(s: Store, o: OperationId)
    requires o in s.operations
  {
    var c := s.operations[o];
    && c.proof.envelope.id == o && c.proof.envelope.principal in s.principals && Recorded(s, c.event)
    && At(s, c.event).authentication == Verified(c.proof) && At(s, c.event).accepted == c.accepted
  }

  /** The proof's operation id was consumed strictly before k. */
  predicate ConsumedBefore(s: Store, proof: SignedOperation, k: Sequence) {
    proof.envelope.id in s.operations && s.operations[proof.envelope.id].event < k
  }

  ghost predicate EventSound(s: Store, k: Sequence)
    requires Recorded(s, k)
  {
    var e := At(s, k);
    match e.authentication
    case Verified(proof) =>
      && Trusted(s, proof)
      && proof.envelope.id in s.operations && s.operations[proof.envelope.id] == ConsumedOperation(proof, k, e.accepted)
    case Replayed(proof) => !e.accepted && Trusted(s, proof) && ConsumedBefore(s, proof, k)
    case FailedAuthentication => !e.accepted
    case Unauthenticated => true
  }

  ghost predicate ConsumptionInv(s: Store) {
    && (forall o :: o in s.operations ==> OperationSound(s, o))
    && (forall k :: Recorded(s, k) ==> EventSound(s, k))
  }

  lemma OldEventsSound(s: Store, t: Store, k: Sequence)
    requires Recorded(s, k) && EventSound(s, k) && s.log <= t.log && MapGrows(s.operations, t.operations) && MapGrows(s.principals, t.principals)
    ensures EventSound(t, k)
  {
    assert At(t, k) == At(s, k);
  }

  /** A replayed proof always repeats the id of a consumed operation. */
  lemma ConsumedById(s: Store, proof: SignedOperation)
    requires ConsumptionInv(s) && Consumed(s, proof)
    ensures ConsumedBefore(s, proof, NextSequence(s))
  {
    forall o | o in s.operations && s.operations[o].proof == proof
      ensures o == proof.envelope.id
    {
      assert OperationSound(s, o);
    }
    assert OperationSound(s, proof.envelope.id);
  }

  lemma NewEventSound(s: Store, t: Store, e: Event)
    requires ConsumptionInv(s) && t.log == s.log + [e] && MapGrows(s.principals, t.principals)
    requires Unproven(s, t, e) || (e.authentication.Verified? && Adjudicates(s, t, e, e.authentication.proof))
    ensures EventSound(t, |t.log|)
  {
    hide VerifiedForm, AuthorizedOn, ReplayForm, DecisionForm;
    if e.authentication.Replayed? {
      ConsumedById(s, e.authentication.proof);
    }
  }

  // ---------------------------------------------------------------- what events look like

  /** Every event says who asked for what, and what was decided, in the form its kind of writer uses. */
  ghost predicate EventForm(e: Event) {
    match e.authentication
    case Verified(proof) => VerifiedForm(e, proof) && DecisionForm(e, proof.envelope)
    case Replayed(proof) => !e.accepted && ReplayForm(e, proof)
    case FailedAuthentication => !e.accepted && e.authorization.None?
    case Unauthenticated => e.authorization.None? && e.command in {Workflow, CreateEffect, ClaimEffect, RecordResult}
  }

  ghost predicate FormsInv(s: Store) {
    forall k :: Recorded(s, k) ==> EventForm(At(s, k))
  }

  lemma FormsKept(s: Store, t: Store)
    requires FormsInv(s) && LogStep(s, t)
    ensures FormsInv(t)
  {
    hide VerifiedForm, DecisionForm, ReplayForm, Consumed, AuthorizedOn, Consumable;
    forall k: Sequence | Recorded(t, k)
      ensures EventForm(At(t, k))
    {
      if k <= |s.log| { assert At(t, k) == At(s, k); }
    }
  }

  lemma ConsumptionStep(s: Store, t: Store)
    requires ConsumptionInv(s) && LogStep(s, t) && Grows(s, t)
    ensures ConsumptionInv(t)
  {
    hide VerifiedForm, UnprovenForm, AuthorizedOn, EventSound, DecisionForm;
    if t.log == s.log && t.operations == s.operations {
      forall k: Sequence | Recorded(t, k) ensures EventSound(t, k) { OldEventsSound(s, t, k); }
    } else {
      var e :| t.log == s.log + [e]
        && (Unproven(s, t, e) || (e.authentication.Verified? && Adjudicates(s, t, e, e.authentication.proof)));
      forall k: Sequence | Recorded(t, k)
        ensures EventSound(t, k)
      {
        if k <= |s.log| { OldEventsSound(s, t, k); } else { NewEventSound(s, t, e); }
      }
      forall o | o in t.operations
        ensures OperationSound(t, o)
      {
        if o in s.operations { assert OperationSound(s, o); assert At(t, s.operations[o].event) == At(s, s.operations[o].event); }
      }
    }
  }
}
