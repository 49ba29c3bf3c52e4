/** What every request comes to before its transaction, and how the unsigned workflow steps end
    (transition_mediator.py, external_effects.py, state_machine.py, database.py). */
module ReadOutcomes {
  import opened Models
  import opened Authorization
  import opened Ledger
  import opened Writers
  import opened System
  import opened Consumption
  import opened Runs

  // ---------------------------------------------------------------- what is recorded of a refused request

  /** A refused request is recorded at its packet, where the packet is. */
  predicate RefusedAt(e: Event, command: Command, packet: PacketId, row: Packet, requested: WorkflowState) {
    && e.command == command && e.packet == Some(packet) && e.candidate == Some(row.candidate)
    && e.prior == Some(row.state) && e.requested == Some(requested) && e.resulting == Some(row.state)
    && !e.accepted && e.governed == Ungoverned && e.receipt.None?
  }

  /** Without authentication nothing is said of who asked or under what authority. */
  predicate FailedSays(e: Event, command: Command, packet: PacketId, row: Packet, requested: WorkflowState) {
    && RefusedAt(e, command, packet, row, requested) && e.authentication.FailedAuthentication? && e.authorization.None?
    && e.identifiers == PlainIdentifiers(Some(row.candidate), Some(packet), None)
  }

  /** A replay names its proof, and that nothing was evaluated. */
  predicate ReplaySays(e: Event, proof: SignedOperation, command: Command, row: Packet)
    requires proof.envelope.PacketEnvelope?
  {
    var v := proof.envelope;
    && RefusedAt(e, command, v.packet, row, v.requested) && e.authentication == Replayed(proof)
    && e.identifiers == PacketIdentifiers(v.packet, row.candidate, v.id, v.approval, v.decision, v.scope, v.approvalEvent)
    && e.authorization == Some(Decision(NotEvaluated, v.principal, RequiredCapability(v.operation), Some(row.state), Some(v.requested),
                                        (if v.scope.None? then Versioned else Exact(v.scope.value)), None, ReplayRejectedReason))
  }

  /** A refused policy request is recorded with what it asked for. */
  predicate PolicyRefused(e: Event, v: Envelope)
    requires v.PolicyEnvelope?
  {
    && e.command == Policy(v.policy) && !e.accepted && e.packet.None? && e.candidate.None?
    && e.prior.None? && e.requested.None? && e.resulting.None? && e.governed == Ungoverned && e.receipt.None?
    && e.identifiers == PolicyIdentifiers(v.id, v.grantId, v.revocation, v.subject, v.capability, v.grantPrior, v.grantRequested, v.columns)
  }

  predicate Unevaluated(e: Event, proof: SignedOperation, capability: Capability) {
    && e.authentication == Replayed(proof)
    && e.authorization == Some(Decision(NotEvaluated, proof.envelope.principal, capability, None, None, Versioned, None, ReplayRejectedReason))
  }

  predicate Records(p: Option<Pending>) {
    p.Some? && p.value.EventRecord?
  }

  /** The command an adapter's record is filed under. */
  function Filed(c: AdapterConstraints, v: Envelope): Command
    requires v.PacketEnvelope?
  {
    if c.operation.Some? then Authority(c.operation.value) else Authority(v.operation)
  }

  // ---------------------------------------------------------------- signed packet requests

  lemma AuthenticatedIff(s: Store, now: int, proof: SignedOperation)
    requires StoreInv(s)
    ensures Authenticate(s, now, proof) ==
      if !ValidNow(s, now, proof) then AuthenticationFailed
      else if proof.envelope.id in s.operations then ReplayDetected else Authenticated
  {
    hide FormsInv, PolicyRuns.PolicyInv, Temporal.CommitTimeInv, PacketRuns.PacketInv, EffectRuns.EffectInv;
    if Consumed(s, proof) { ConsumedById(s, proof); }
  }

  /** A signed packet request: fresh and valid it is mediated; valid but used it is recorded as a
      replay at its own packet; invalid it is recorded, without trusting it, at the packet the
      adapter asserts or else its own; for an unknown packet nothing is recorded. */
  lemma PacketIntake(s: Store, files: Files, now: int, proof: SignedOperation, c: AdapterConstraints)
    requires StoreInv(s) && proof.envelope.PacketEnvelope?
    ensures var v := proof.envelope; var p := Read(s, files, now, TransitionRequest(Some(proof), c));
      if ValidNow(s, now, proof) && v.id !in s.operations then p == Some(MediatePacket(s, files, proof, c))
      else if ValidNow(s, now, proof) then
        if v.packet !in s.packets then p.None?
        else Records(p) && ReplaySays(p.value.event, proof, Filed(c, v), s.packets[v.packet])
      else
        var packet := if c.packet.Some? then c.packet.value else v.packet;
        if packet !in s.packets then p.None?
        else Records(p) && FailedSays(p.value.event, Filed(c, v), packet, s.packets[packet], v.requested)
  {
    hide StoreInv, Authenticate, ValidNow, MediatePacket;
    AuthenticatedIff(s, now, proof);
  }

  /** A request that carries no signed operation is recorded only at a packet the adapter asserts. */
  lemma UnsignedIntake(s: Store, files: Files, now: int, c: AdapterConstraints)
    ensures var p := Read(s, files, now, TransitionRequest(None, c));
      if c.packet.None? || c.packet.value !in s.packets then p.None?
      else
        Records(p) && FailedSays(p.value.event, if c.operation.Some? then Authority(c.operation.value) else AuthenticateCommand,
                                 c.packet.value, s.packets[c.packet.value],
                                 if c.operation.Some? then RequestedOf(c.operation.value) else WorkflowState.Approved)
    ensures Read(s, files, now, PolicyRequest(None, None)).None?
  {
  }

  // ---------------------------------------------------------------- signed policy and registration requests

  /** What a policy envelope must be: its capability's own states; a scope exactly if it is for
      packets, which only a legacy or revoking envelope may leave out; a revocation id exactly if it
      revokes; and, for the bootstrap, policy management for oneself. */
  predicate WellAsked(v: Envelope)
    requires v.PolicyEnvelope?
  {
    && (match v.capability
        case PacketApprove => v.grantPrior == Some(AwaitingApproval) && v.grantRequested == Some(WorkflowState.Approved)
        case PacketReject => v.grantPrior == Some(AwaitingApproval) && v.grantRequested == Some(Rejected)
        case PacketRelease => v.grantPrior == Some(WorkflowState.Approved) && v.grantRequested == Some(WorkflowState.Released)
        case PolicyManageCapabilities => v.grantPrior.None? && v.grantRequested.None?
        case EffectManageBindings => v.grantPrior.None? && v.grantRequested.None?)
    && (match v.columns
        case Unversioned => true
        case Versioned => v.policy == Revoke || v.capability in {PolicyManageCapabilities, EffectManageBindings}
        case Exact(_) => v.capability in {PacketApprove, PacketReject, PacketRelease})
    && (v.revocation.Some? <==> v.policy == Revoke)
    && (v.policy == Bootstrap ==> v.principal == v.subject && v.capability == PolicyManageCapabilities)
  }

  lemma WellAskedIff(v: Envelope)
    requires v.PolicyEnvelope?
    ensures CanonicalPolicyEnvelope(v) <==> WellAsked(v)
  {
  }

  /** A signed policy request: fresh and valid it goes to its commit, or, if the adapter asserts
      another operation, only has its proof consumed; otherwise its refusal is recorded, with its
      proof iff it is a replay. An envelope no model admits goes nowhere. */
  lemma PolicyIntake(s: Store, files: Files, now: int, proof: SignedOperation, expected: Option<PolicyOperation>)
    requires StoreInv(s) && proof.envelope.PolicyEnvelope?
    ensures var v := proof.envelope; var p := Read(s, files, now, PolicyRequest(Some(proof), expected));
      if !WellAsked(v) then p.None?
      else if ValidNow(s, now, proof) && v.id !in s.operations then
        p == Some(if expected.Some? && expected.value != v.policy then PolicyBindingRejection(proof) else PolicyCommit(proof))
      else
        && Records(p) && PolicyRefused(p.value.event, v)
        && if ValidNow(s, now, proof) then Unevaluated(p.value.event, proof, PolicyManageCapabilities)
           else p.value.event.authentication.FailedAuthentication? && p.value.event.authorization.None?
  {
    hide StoreInv, Authenticate, ValidNow, CanonicalPolicyEnvelope, WellAsked;
    AuthenticatedIff(s, now, proof);
    WellAskedIff(proof.envelope);
  }

  /** A request sent to the other mediator has its proof consumed if it is fresh and valid, and
      otherwise leaves no trace. */
  lemma MisdirectedIntake(s: Store, files: Files, now: int, proof: SignedOperation, c: AdapterConstraints, expected: Option<PolicyOperation>)
    requires StoreInv(s)
    ensures var v := proof.envelope; var unused := ValidNow(s, now, proof) && v.id !in s.operations;
      && (v.PolicyEnvelope? ==>
            var p := Read(s, files, now, TransitionRequest(Some(proof), c));
            if WellAsked(v) && unused then p == Some(PolicyBindingRejection(proof)) else p.None?)
      && (v.PacketEnvelope? ==>
            var p := Read(s, files, now, PolicyRequest(Some(proof), expected));
            var prior := if v.packet in s.packets then s.packets[v.packet].state else v.expectedPrior;
            if unused then p == Some(AuthorityRejection(proof, prior, v.manifest, None)) else p.None?)
      && (v.BindingEnvelope? || v.ExecutorEnvelope? ==>
            Read(s, files, now, TransitionRequest(Some(proof), c)).None? && Read(s, files, now, PolicyRequest(Some(proof), expected)).None?)
      && (v.PacketEnvelope? || v.PolicyEnvelope? ==> Read(s, files, now, ManagementRequest(proof)).None?)
  {
    hide StoreInv, Authenticate, ValidNow, CanonicalPolicyEnvelope, WellAsked;
    AuthenticatedIff(s, now, proof);
    if proof.envelope.PolicyEnvelope? { WellAskedIff(proof.envelope); }
  }

  /** A signed registration goes to its commit, is recorded as a replay, or leaves no trace. */
  lemma RegistrationIntake(s: Store, files: Files, now: int, proof: SignedOperation)
    requires StoreInv(s) && ManagementEnvelope(proof.envelope)
    ensures var v := proof.envelope; var p := Read(s, files, now, ManagementRequest(proof));
      if !ValidNow(s, now, proof) then p.None?
      else if v.id !in s.operations then p == Some(ManagementCommit(proof))
      else
        && Records(p) && !p.value.event.accepted && Unevaluated(p.value.event, proof, EffectManageBindings)
        && p.value.event.command == (if v.BindingEnvelope? then RegisterBinding else RegisterExecutor)
        && p.value.event.identifiers == (if v.BindingEnvelope? then BindingIdentifiers(v.id, v.binding, v.bindingScope, v.target, v.credential)
                                         else ExecutorIdentifiers(v.id, v.executor, v.executorKey))
  {
    hide StoreInv, Authenticate, ValidNow;
    AuthenticatedIff(s, now, proof);
  }

  // ---------------------------------------------------------------- unsigned workflow steps

  /** The workflow graph, less failure. */
  predicate Follows(prior: WorkflowState, requested: WorkflowState) {
    match prior
    case Discovered => requested == EvidencePreserved
    case EvidencePreserved => requested == Normalized
    case Normalized => requested == DuplicateChecked || requested == Suppressed
    case DuplicateChecked => requested == Qualified || requested == Suppressed
    case Qualified => requested == PacketGenerated
    case PacketGenerated => requested == AwaitingApproval
    case AwaitingApproval => requested == WorkflowState.Approved || requested == Rejected
    case Approved => requested == WorkflowState.Released
    case _ => false
  }

  /** A workflow step is recorded without authentication or authorization. */
  predicate WorkflowSays(e: Event, candidate: Option<CandidateId>, packet: Option<PacketId>, prior: WorkflowState,
                         requested: WorkflowState, accepted: bool) {
    && e.command == Workflow && e.candidate == candidate && e.packet == packet && e.prior == Some(prior) && e.requested == Some(requested)
    && e.resulting == Some(if accepted then requested else prior) && e.accepted == accepted
    && e.authentication.Unauthenticated? && e.authorization.None?
  }

  /** A candidate step goes to its commit iff it follows the candidate's state; otherwise its
      refusal is recorded at that state. */
  lemma CandidateIntake(s: Store, files: Files, now: int, candidate: CandidateId, requested: WorkflowState, generated: Option<NewPacket>)
    requires candidate in s.candidates && (generated.Some? <==> requested == PacketGenerated)
    requires requested in {EvidencePreserved, Normalized, DuplicateChecked, Suppressed, Qualified, PacketGenerated}
    ensures var p := Read(s, files, now, CandidateRequest(candidate, requested, generated)); var prior := s.candidates[candidate];
      if Follows(prior, requested) then p == Some(CandidateCommit(candidate, prior, requested, generated))
      else Records(p) && WorkflowSays(p.value.event, Some(candidate), None, prior, requested, false)
  {
  }

  /** A packet step that needs authority is refused and recorded as unauthenticated authority; one
      that follows the packet's state, short of failure, goes to its commit; any other is refused. */
  lemma PacketStepIntake(s: Store, files: Files, now: int, packet: PacketId, requested: WorkflowState, receipt: FileHash)
    requires packet in s.packets && requested != Failed
    ensures var p := Read(s, files, now, PacketRequest(packet, requested, receipt)); var row := s.packets[packet];
      if NeedsAuthority(row.state, requested) then
        Records(p) && RefusedAt(p.value.event, Workflow, packet, row, requested) && p.value.event.authentication.FailedAuthentication?
      else if Follows(row.state, requested) then p == Some(PacketCommit(packet, row.candidate, row.state, requested, receipt))
      else Records(p) && WorkflowSays(p.value.event, None, Some(packet), row.state, requested, false)
  {
  }

  /** Requests on rows that do not exist go nowhere; an unready candidate is recorded where it is;
      an effect request carries on with what its packet's directory, if intact, holds; claims and
      results go straight to their transactions. */
  lemma OtherIntake(s: Store, files: Files, now: int, candidate: CandidateId, packet: PacketId, requested: WorkflowState, receipt: FileHash,
                    generated: Option<NewPacket>, effect: EffectId, dispatch: DispatchId, result: SignedResult)
    ensures candidate !in s.candidates ==> Read(s, files, now, CandidateRequest(candidate, requested, generated)).None?
    ensures packet !in s.packets ==> Read(s, files, now, PacketRequest(packet, requested, receipt)).None?
    ensures var p := Read(s, files, now, UnreadyReport(candidate));
      if candidate !in s.candidates then p.None?
      else Records(p) && WorkflowSays(p.value.event, Some(candidate), None, s.candidates[candidate], Qualified, false)
    ensures var p := Read(s, files, now, EffectCreationRequest(packet));
      if packet !in s.packets || forall a :: !IntactFiles(files, packet, s.packets[packet], a) then p.None?
      else p.Some? && p.value.EffectCreation? && p.value.packet == packet && IntactFiles(files, packet, s.packets[packet], p.value.first)
    ensures Read(s, files, now, EffectClaim(effect, dispatch)) == Some(ClaimCommit(effect, dispatch))
    ensures Read(s, files, now, ResultSubmission(result)) == Some(ResultCommit(result))
  {
    hide Recompute, IntactFiles, Successors;
    if packet in s.packets { RecomputeExact(files, packet, s.packets[packet]); }
  }

  /** The step's event, and both states moved. */
  predicate Stepped(s: Store, t: Store, candidate: CandidateId, packet: Option<PacketId>, prior: WorkflowState, requested: WorkflowState) {
    && |t.log| == |s.log| + 1 && s.log <= t.log && WorkflowSays(t.log[|s.log|], Some(candidate), packet, prior, requested, true)
    && t.candidates == s.candidates[candidate := requested]
    && t == s.(log := t.log, candidates := t.candidates, packets := t.packets)
  }

  /** The state pairs that need authority. */
  predicate NeedsAuthority(prior: WorkflowState, requested: WorkflowState) {
    || (prior == AwaitingApproval && (requested == WorkflowState.Approved || requested == Rejected))
    || (prior == WorkflowState.Approved && requested == WorkflowState.Released)
  }

  /** A candidate step commits iff it needs no authority, the candidate is still where it was read
      and a new packet's id is unused; the candidate moves, and the packet is there in the same
      state. */
  lemma CandidateOutcome(s: Store, candidate: CandidateId, prior: WorkflowState, requested: WorkflowState, generated: Option<NewPacket>)
    ensures var t := CommitCandidate(s, candidate, prior, requested, generated);
      && (t.Some? <==> !NeedsAuthority(prior, requested) && candidate in s.candidates && s.candidates[candidate] == prior && (generated.Some? ==> generated.value.id !in s.packets))
      && (t.Some? ==>
            var packet := if generated.Some? then Some(generated.value.id) else None;
            && Stepped(s, t.value, candidate, packet, prior, requested)
            && t.value.packets == match generated case None => s.packets
                 case Some(g) => s.packets[g.id := Packet(candidate, g.manifest, g.scope, requested)])
  {
  }

  /** A packet step commits iff it needs no authority and packet and candidate are still where the
      packet was read; both move. */
  lemma PacketStepOutcome(s: Store, packet: PacketId, candidate: CandidateId, prior: WorkflowState, requested: WorkflowState, receipt: FileHash)
    ensures var t := CommitPacketStep(s, packet, candidate, prior, requested, receipt);
      && (t.Some? <==> !NeedsAuthority(prior, requested) && packet in s.packets && candidate in s.candidates && s.packets[packet].candidate == candidate
                       && s.packets[packet].state == prior && s.candidates[candidate] == prior)
      && (t.Some? ==>
            && Stepped(s, t.value, candidate, Some(packet), prior, requested)
            && t.value.log[|s.log|].receipt == Some(receipt) && t.value.log[|s.log|].governed == Manifest(s.packets[packet].manifest)
            && t.value.packets == s.packets[packet := Packet(candidate, s.packets[packet].manifest, s.packets[packet].scope, requested)])
  {
  }
}
