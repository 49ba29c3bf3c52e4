/** Ordinary requests whose recorded events the policy audit rejects, and runs that record them. */
module PolicyAuditRejections {
  import opened Models
  import opened Authorization
  import opened Ledger
  import opened Writers
  import opened System
  import opened Consumption
  import opened PacketRuns
  import opened Runs
  import opened PolicyAudit
  import opened PolicyAuditRuns
  import opened PolicyAuditSteps

  /** Some run ends in this store with no attempt outstanding. */
  ghost predicate Attained(s: Store) {
    Reachable(System(s, map[]))
  }

  lemma AttainedInv(s: Store)
    requires Attained(s)
    ensures StoreInv(s)
  {
    hide StoreInv;
    var steps :| System(s, map[]) == Run(START, steps);
    var r := Reached(steps);
  }

  lemma ReachableNext(y: System, step: Step)
    requires Reachable(y)
    ensures Reachable(Next(y, step))
  {
    hide Next;
    var steps :| y == Run(START, steps);
    var more := steps + [step];
    assert more[..|more| - 1] == steps;
    assert Run(START, more) == Next(y, step);
  }

  /** One writer reads and commits with nothing in between. */
  lemma Performed(s: Store, files: Files, now: int, r: Request, p: Pending, t: Store)
    requires Attained(s) && Read(s, files, now, r) == Some(p) && Typed(p) && Commit(s, files, p) == Some(t)
    ensures Attained(t)
    ensures PolicyAuditHolds(s) ==> (PolicyAuditHolds(t) <==> RequestSafe(s, now, r))
  {
    hide Read, Commit, Typed, PolicyAuditHolds, RequestSafe, StoreInv;
    if PolicyAuditHolds(s) {
      AttainedInv(s);
      RequestAuditExact(s, files, now, r);
    }
    var y := System(s, map[]);
    ReachableNext(y, ReadStep(0, files, now, r));
    var z := Next(y, ReadStep(0, files, now, r));
    assert z == System(s, map[0 := p]);
    ReachableNext(z, CommitStep(0, files));
    assert map[0 := p] - {0} == map[];
    assert Next(z, CommitStep(0, files)) == System(t, map[]);
  }

  lemma NotCanonicalRejected(t: Store)
    requires Attained(t) && |t.log| > 0 && !CanonicalRecord(t.log[|t.log| - 1])
    ensures !EventHolds(t, |t.log|) && !PolicyAuditHolds(t)
  {
    hide StoreInv, CanonicalRecord, EventHolds;
    AttainedInv(t);
    EventExact(t, |t.log|);
    assert At(t, |t.log|) == t.log[|t.log| - 1];
  }

  // ---------------------------------------------------------------- requests that break the audit

  /** A valid request that finds its packet in another state is rejected and recorded at that
      state; the audit then rejects the store. */
  lemma StaleRequestBreaksAudit(s: Store, files: Files, now: int, proof: SignedOperation, c: AdapterConstraints) returns (t: Store)
    requires Attained(s) && proof.envelope.PacketEnvelope? && Authenticate(s, now, proof) == Authenticated
    requires var e := proof.envelope; e.packet in s.packets && s.packets[e.packet].state != PriorOf(e.operation)
    ensures Attained(t) && s.log <= t.log && |t.log| == |s.log| + 1 && !PolicyAuditHolds(t)
  {
    hide AdapterMismatch, Recompute, TransactionDecision, PolicyAuditHolds, VerifyArtifacts, Trusted, InWindow, EventHolds;
    var p := MediatePacket(s, files, proof, c);
    var prior := s.packets[proof.envelope.packet].state;
    assert p == AuthorityRejection(proof, prior, proof.envelope.manifest, None);
    FreshConsumable(s, now, proof);
    assert Read(s, files, now, TransitionRequest(Some(proof), c)) == Some(p);
    t := CommitRejection(s, proof, prior, proof.envelope.manifest, None).value;
    Performed(s, files, now, TransitionRequest(Some(proof), c), p, t);
    assert !CanonicalRecord(t.log[|s.log|]);
    NotCanonicalRejected(t);
  }

  lemma FreshConsumable(s: Store, now: int, proof: SignedOperation)
    requires Authenticate(s, now, proof) == Authenticated
    ensures Consumable(s, proof)
  {
  }

  /** Replaying a packet request when its packet is no longer in the operation's prior state. */
  lemma ReplayBreaksAudit(s: Store, files: Files, now: int, proof: SignedOperation, c: AdapterConstraints) returns (t: Store)
    requires Attained(s) && proof.envelope.PacketEnvelope? && Authenticate(s, now, proof) == ReplayDetected
    requires var e := proof.envelope; e.packet in s.packets && s.packets[e.packet].state != PriorOf(e.operation)
    ensures Attained(t) && s.log <= t.log && |t.log| == |s.log| + 1 && !PolicyAuditHolds(t)
  {
    hide Recompute, PolicyAuditHolds, Trusted, InWindow, EventHolds, Consumed;
    var e := proof.envelope;
    var event := PacketReplayEvent(proof, if c.operation.Some? then c.operation.value else e.operation, s.packets[e.packet]);
    assert Read(s, files, now, TransitionRequest(Some(proof), c)) == Some(EventRecord(event));
    t := Append(s, event);
    Performed(s, files, now, TransitionRequest(Some(proof), c), EventRecord(event), t);
    NotCanonicalRejected(t);
  }

  /** Replaying any packet operation that was ever accepted, inside its window, always breaks the
      audit: its packet has left the operation's prior state for good. */
  lemma ReplayedAcceptanceBreaksAudit(s: Store, files: Files, now: int, k: Sequence, c: AdapterConstraints) returns (t: Store)
    requires Attained(s) && Recorded(s, k) && At(s, k).accepted && At(s, k).authentication.Verified?
    requires var proof := At(s, k).authentication.proof; proof.envelope.PacketEnvelope? && Trusted(s, proof) && InWindow(proof.envelope, now)
    ensures Attained(t) && s.log <= t.log && |t.log| == |s.log| + 1 && !PolicyAuditHolds(t)
  {
    hide StoreInv, Recompute, PolicyAuditHolds, Trusted, InWindow, EventHolds;
    AttainedInv(s);
    var proof := At(s, k).authentication.proof;
    AcceptanceConsumed(s, k);
    AcceptanceMoved(s, k);
    t := ReplayBreaksAudit(s, files, now, proof, c);
  }

  lemma AcceptanceConsumed(s: Store, k: Sequence)
    requires StoreInv(s) && Recorded(s, k) && At(s, k).authentication.Verified?
    ensures Consumed(s, At(s, k).authentication.proof)
  {
    hide FormsInv, PolicyRuns.PolicyInv, Temporal.CommitTimeInv, PacketInv, EffectRuns.EffectInv, OperationSound;
    assert EventSound(s, k);
  }

  /** An accepted operation has moved its packet out of the state it started from. */
  lemma AcceptanceMoved(s: Store, k: Sequence)
    requires StoreInv(s) && Recorded(s, k) && At(s, k).accepted && At(s, k).authentication.Verified?
    requires At(s, k).authentication.proof.envelope.PacketEnvelope?
    ensures var e := At(s, k).authentication.proof.envelope; e.packet in s.packets && s.packets[e.packet].state != PriorOf(e.operation)
  {
    hide ConsumptionInv, PolicyRuns.PolicyInv, Temporal.CommitTimeInv, EffectRuns.EffectInv, HistoriesBounded, Paired, OnePacketEach,
         Trail, ApprovalsFor, DecisionForm, CanonicalSemantics;
    assert EventForm(At(s, k));
    var e := At(s, k).authentication.proof.envelope;
    TrailExact(s.log, e.packet);
    assert IsAuthority(EventAt(s.log, k), e.packet);
    assert k in Trail(s.log, e.packet);
    assert TrailOk(s.log, s.approvals, e.packet, s.packets[e.packet]);
  }

  /** Registering a scope, a target, an executor or an executor key a second time is denied for
      its binding, which the audit does not accept as a reason for a denial. */
  lemma SecondRegistrationBreaksAudit(s: Store, files: Files, now: int, proof: SignedOperation) returns (t: Store)
    requires Attained(s) && ManagementEnvelope(proof.envelope) && Authenticate(s, now, proof) == Authenticated
    requires AlreadyRegistered(s, proof.envelope)
    requires Evaluate(View(s), PolicyQuery(proof.envelope.principal, EffectManageBindings)).status == Allowed
    ensures Attained(t) && s.log <= t.log && |t.log| == |s.log| + 1 && !PolicyAuditHolds(t) && t.principals == s.principals
    ensures t.log[|s.log|].authorization == Some(Deny(PolicyQuery(proof.envelope.principal, EffectManageBindings), RequestBindingRejected))
  {
    hide Evaluate, AlreadyRegistered, PolicyAuditHolds, Trusted, InWindow, EventHolds;
    FreshConsumable(s, now, proof);
    assert Read(s, files, now, ManagementRequest(proof)) == Some(ManagementCommit(proof));
    t := CommitManagement(s, proof).value;
    Performed(s, files, now, ManagementRequest(proof), ManagementCommit(proof), t);
    NotCanonicalRejected(t);
  }

  // ---------------------------------------------------------------- runs that record them

  const SCOPE := Scope(1, 2, 3)
  const NO_CONSTRAINTS := AdapterConstraints(None, None, true)

  /** Attained, and nothing on the way has broken the policy audit. */
  ghost predicate Audited(s: Store) {
    Attained(s) && PolicyAuditHolds(s)
  }

  lemma StartAudited()
    ensures Audited(EMPTY)
  {
    assert Run(START, []) == System(EMPTY, map[]);
  }

  lemma SettingAudited(s: Store, step: Step)
    requires Audited(s) && (step.TrustPrincipal? || step.Discover?)
    ensures Audited(Next(System(s, map[]), step).store)
  {
    hide Next, StoreInv, PolicyAuditHolds;
    var y := System(s, map[]);
    ReachableNext(y, step);
    AttainedInv(s);
    SettingKeepsPending(y, step);
    EmptyPendingInv(s);
    StepAuditExact(y, step);
  }

  lemma SettingKeepsPending(y: System, step: Step)
    requires step.TrustPrincipal? || step.Discover?
    ensures Next(y, step).pending == y.pending
  {
  }

  lemma EmptyPendingInv(s: Store)
    requires StoreInv(s)
    ensures Inv(System(s, map[]))
  {
    hide StoreInv;
  }

  /** A shipped candidate step, taken at once. */
  lemma StepTaken(s: Store, candidate: CandidateId, requested: WorkflowState, generated: Option<NewPacket>) returns (t: Store)
    requires Audited(s) && candidate in s.candidates && ShippedCandidateStep(s.candidates[candidate], requested)
    requires generated.Some? <==> requested == PacketGenerated
    requires generated.Some? ==> generated.value.id !in s.packets
    ensures Audited(t) && t.principals == s.principals && t.operations == s.operations
    ensures t.candidates == s.candidates[candidate := requested]
    ensures t.packets == match generated case None => s.packets
      case Some(g) => s.packets[g.id := Packet(candidate, g.manifest, g.scope, requested)]
  {
    hide PolicyAuditHolds;
    var prior := s.candidates[candidate];
    var p := CandidateCommit(candidate, prior, requested, generated);
    t := CommitCandidate(s, candidate, prior, requested, generated).value;
    Performed(s, map[], 0, CandidateRequest(candidate, requested, generated), p, t);
  }

  /** A store with one trusted principal and one freshly generated packet. */
  lemma PacketAttained() returns (s: Store)
    ensures Audited(s) && s.principals == map[1 := 11] && s.operations == map[]
    ensures s.candidates == map[5 := PacketGenerated] && s.packets == map[7 := Packet(5, 70, Some(SCOPE), PacketGenerated)]
  {
    hide Audited, ShippedCandidateStep;
    StartAudited();
    SettingAudited(EMPTY, TrustPrincipal(1, 11));
    s := Trust(EMPTY, 1, 11);
    SettingAudited(s, Discover(5));
    s := InsertCandidate(s, 5);
    ShippedSteps();
    s := StepTaken(s, 5, EvidencePreserved, None);
    s := StepTaken(s, 5, Normalized, None);
    s := StepTaken(s, 5, DuplicateChecked, None);
    s := StepTaken(s, 5, Qualified, None);
    s := StepTaken(s, 5, PacketGenerated, Some(NewPacket(7, 70, Some(SCOPE))));
  }

  lemma ShippedSteps()
    ensures ShippedCandidateStep(Discovered, EvidencePreserved) && ShippedCandidateStep(EvidencePreserved, Normalized)
    ensures ShippedCandidateStep(Normalized, DuplicateChecked) && ShippedCandidateStep(DuplicateChecked, Qualified)
    ensures ShippedCandidateStep(Qualified, PacketGenerated)
  {
  }

  /** The packet moves on to await approval. */
  lemma AwaitingAttained() returns (s: Store)
    ensures Audited(s) && s.principals == map[1 := 11] && s.operations == map[]
    ensures s.candidates == map[5 := AwaitingApproval] && s.packets == map[7 := Packet(5, 70, Some(SCOPE), AwaitingApproval)]
  {
    hide Attained, PolicyAuditHolds;
    var t := PacketAttained();
    var p := PacketCommit(7, 5, PacketGenerated, AwaitingApproval, 71);
    assert Read(t, map[], 0, PacketRequest(7, AwaitingApproval, 71)) == Some(p);
    s := CommitPacketStep(t, 7, 5, PacketGenerated, AwaitingApproval, 71).value;
    Performed(t, map[], 0, PacketRequest(7, AwaitingApproval, 71), p, s);
  }

  /** An approval of the packet, signed by the trusted principal. */
  function Approval(scope: Option<Scope>): SignedOperation {
    var e := PacketEnvelope(1, 1, 11, 0, 300, Approve, 7, 5, AwaitingApproval, Approved, 70, 71, DecisionApproved, 3, None, scope);
    SignedOperation(e, 11, e)
  }

  /** The approval is rejected for missing packet files, canonically, and its proof consumed. */
  lemma RefusedApproval(scope: Option<Scope>) returns (s: Store)
    ensures Audited(s) && 7 in s.packets && s.packets[7] == Packet(5, 70, Some(SCOPE), AwaitingApproval)
    ensures s.principals == map[1 := 11] && 1 in s.operations
  {
    hide Attained, PolicyAuditHolds, TransactionDecision;
    var t := AwaitingAttained();
    var proof := Approval(scope);
    var p := AuthorityRejection(proof, AwaitingApproval, 70, None);
    assert Read(t, map[], 0, TransitionRequest(Some(proof), NO_CONSTRAINTS)) == Some(p);
    s := CommitRejection(t, proof, AwaitingApproval, 70, None).value;
    Performed(t, map[], 0, TransitionRequest(Some(proof), NO_CONSTRAINTS), p, s);
  }

  /** Replaying the refused approval breaks the audit iff it carries no scope or the adapter
      asserts another operation, although its packet still awaits approval. */
  lemma RefusedReplay(scope: Option<Scope>, c: AdapterConstraints) returns (s: Store, t: Store)
    ensures Audited(s) && 7 in s.packets && s.packets[7].state == AwaitingApproval
    ensures Attained(t) && s.log <= t.log && |t.log| == |s.log| + 1 && t.log[|s.log|].authentication == Replayed(Approval(scope))
    ensures t.log[|s.log|].prior == Some(AwaitingApproval)
    ensures PolicyAuditHolds(t) <==> scope.Some? && (c.operation.Some? ==> c.operation == Some(Approve))
  {
    hide Attained, PolicyAuditHolds;
    s := RefusedApproval(scope);
    var proof := Approval(scope);
    var event := PacketReplayEvent(proof, if c.operation.Some? then c.operation.value else Approve, s.packets[7]);
    assert Read(s, map[], 0, TransitionRequest(Some(proof), c)) == Some(EventRecord(event));
    t := Append(s, event);
    Performed(s, map[], 0, TransitionRequest(Some(proof), c), EventRecord(event), t);
  }

  /** Runs outside both restrictions on replays: the store passes the audit, its packet awaits
      approval, and a replay of an unscoped approval, or of a scoped approval forwarded as a
      rejection, is recorded so that the audit fails. */
  lemma ReplayRunsRejected() returns (unscoped: Store, misnamed: Store)
    ensures Attained(unscoped) && !PolicyAuditHolds(unscoped) && |unscoped.log| > 0
    ensures var e := unscoped.log[|unscoped.log| - 1]; e.authentication == Replayed(Approval(None)) && e.prior == Some(AwaitingApproval)
    ensures Attained(misnamed) && !PolicyAuditHolds(misnamed) && |misnamed.log| > 0
    ensures var e := misnamed.log[|misnamed.log| - 1]; e.authentication == Replayed(Approval(Some(SCOPE))) && e.prior == Some(AwaitingApproval)
  {
    hide Attained, PolicyAuditHolds;
    var before;
    before, unscoped := RefusedReplay(None, NO_CONSTRAINTS);
    before, misnamed := RefusedReplay(Some(SCOPE), AdapterConstraints(Some(Reject), None, true));
  }

  /** A run outside the canonical-state restriction: an approval that arrives before its packet
      awaits approval, and then that approval replayed. */
  lemma StaleRunRejected() returns (stale: Store, replayed: Store)
    ensures Attained(stale) && !PolicyAuditHolds(stale) && stale.principals.Keys == {1}
    ensures |stale.log| > 0 && stale.log[|stale.log| - 1].authentication.Verified?
    ensures Attained(replayed) && !PolicyAuditHolds(replayed) && replayed.principals.Keys == {1}
    ensures |replayed.log| > 0 && replayed.log[|replayed.log| - 1].authentication.Replayed?
  {
    hide Attained, PolicyAuditHolds, TransactionDecision;
    var s := PacketAttained();
    var proof := Approval(Some(SCOPE));
    var rejection := AuthorityRejection(proof, PacketGenerated, 70, None);
    assert Read(s, map[], 0, TransitionRequest(Some(proof), NO_CONSTRAINTS)) == Some(rejection);
    stale := CommitRejection(s, proof, PacketGenerated, 70, None).value;
    Performed(s, map[], 0, TransitionRequest(Some(proof), NO_CONSTRAINTS), rejection, stale);
    var event := PacketReplayEvent(proof, Approve, s.packets[7]);
    assert Read(stale, map[], 0, TransitionRequest(Some(proof), NO_CONSTRAINTS)) == Some(EventRecord(event));
    replayed := Append(stale, event);
    Performed(stale, map[], 0, TransitionRequest(Some(proof), NO_CONSTRAINTS), EventRecord(event), replayed);
    NotCanonicalRejected(replayed);
  }

  /** A signature by the one trusted principal. */
  function Signed(e: Envelope): SignedOperation {
    SignedOperation(e, 11, e)
  }

  lemma UnusedAuthenticates(s: Store, now: int, proof: SignedOperation)
    requires Attained(s) && ValidNow(s, now, proof) && proof.envelope.id !in s.operations
    ensures Authenticate(s, now, proof) == Authenticated && Consumable(s, proof)
  {
    hide StoreInv, Authenticate, Consumable, ValidNow;
    AttainedInv(s);
    InvParts(s);
    AuthenticationDecided(s, now, proof);
  }

  /** The one trusted principal bootstraps the policy, and so may manage it. */
  lemma BootstrapAttained() returns (s: Store)
    ensures Audited(s) && s.principals == map[1 := 11] && |s.log| == 1 && s.operations.Keys == {1}
    ensures s.policy.Some? && s.bindings == [] && s.revocations == map[]
    ensures |s.grants| == 1 && s.grants[0].id == 4 && s.grants[0].event == 1 && s.grants[0].subject == 1
      && s.grants[0].capability == PolicyManageCapabilities && s.grants[0].prior.None? && s.grants[0].requested.None?
  {
    hide Attained, PolicyAuditHolds;
    StartAudited();
    SettingAudited(EMPTY, TrustPrincipal(1, 11));
    var t := Trust(EMPTY, 1, 11);
    var proof := Signed(PolicyEnvelope(1, 1, 11, 0, 300, Bootstrap, 4, None, 1, PolicyManageCapabilities, None, None, Versioned));
    var r := PolicyRequest(Some(proof), None);
    assert Read(t, map[], 0, r) == Some(PolicyCommit(proof));
    assert t.principals.Keys == {1};
    s := CommitPolicy(t, proof).value;
    Performed(t, map[], 0, r, PolicyCommit(proof), s);
  }

  /** An unrevoked grant of a management capability lets its subject use it. */
  lemma ManagerAllowed(s: Store, g: GrantRow)
    requires s.policy.Some? && Ordered(s.grants) && g in s.grants && g.id !in s.revocations
    requires !PacketScoped(g.capability) && g.prior.None? && g.requested.None?
    ensures Evaluate(View(s), PolicyQuery(g.subject, g.capability)).status == Allowed
  {
    hide Evaluate;
    EvaluatorExact(View(s), PolicyQuery(g.subject, g.capability));
    assert Authorizes(View(s), PolicyQuery(g.subject, g.capability), g);
  }

  /** The administrator grants itself the management of bindings. */
  lemma ManagerAttained() returns (s: Store)
    ensures Audited(s) && s.principals == map[1 := 11] && |s.log| == 2 && s.operations.Keys == {1, 2} && s.bindings == []
    ensures Evaluate(View(s), PolicyQuery(1, EffectManageBindings)).status == Allowed
    ensures s.policy.Some? && s.revocations == map[] && Ordered(s.grants)
    ensures exists g :: g in s.grants && g.subject == 1 && g.capability == EffectManageBindings && g.prior.None? && g.requested.None?
  {
    hide Attained, PolicyAuditHolds, Evaluate, Authenticate, Consumable;
    var t := BootstrapAttained();
    ManagerAllowed(t, t.grants[0]);
    var e := PolicyEnvelope(2, 1, 11, 0, 300, Grant, 5, None, 1, EffectManageBindings, None, None, Versioned);
    var proof := Signed(e);
    var r := PolicyRequest(Some(proof), None);
    UnusedAuthenticates(t, 0, proof);
    assert Read(t, map[], 0, r) == Some(PolicyCommit(proof));
    s := CommitPolicy(t, proof).value;
    Performed(t, map[], 0, r, PolicyCommit(proof), s);
    assert s.grants == [t.grants[0], NewGrant(t, e)];
    assert NewGrant(t, e) in s.grants;
    ManagerAllowed(s, NewGrant(t, e));
  }

  /** The first registration of a scope is accepted. */
  lemma BindingAttained() returns (s: Store)
    ensures Audited(s) && s.principals == map[1 := 11] && |s.log| == 3 && s.operations.Keys == {1, 2, 3}
    ensures |s.bindings| == 1 && s.bindings[0].scope == SCOPE
    ensures Evaluate(View(s), PolicyQuery(1, EffectManageBindings)).status == Allowed
  {
    hide Attained, PolicyAuditHolds, Evaluate, Authenticate, Consumable;
    var t := ManagerAttained();
    var proof := Signed(BindingEnvelope(3, 1, 11, 0, 300, 6, SCOPE, 8, 9));
    UnusedAuthenticates(t, 0, proof);
    assert Read(t, map[], 0, ManagementRequest(proof)) == Some(ManagementCommit(proof));
    s := CommitManagement(t, proof).value;
    Performed(t, map[], 0, ManagementRequest(proof), ManagementCommit(proof), s);
    assert View(s) == View(t);
  }

  /** A run outside the reason restriction, by the one trusted principal: bootstrap the policy,
      grant oneself the management of bindings, register a binding, register its scope again. */
  lemma DeniedBindingRunRejected() returns (s: Store)
    ensures Attained(s) && !PolicyAuditHolds(s) && s.principals.Keys == {1} && |s.log| == 4
    ensures s.log[3].authorization.Some? && s.log[3].authorization.value.status == Denied
      && s.log[3].authorization.value.reason == RequestBindingRejected
  {
    hide Attained, PolicyAuditHolds, Evaluate, Authenticate, Consumable;
    var t := BindingAttained();
    var proof := Signed(BindingEnvelope(4, 1, 11, 0, 300, 7, SCOPE, 10, 9));
    UnusedAuthenticates(t, 0, proof);
    assert AlreadyRegistered(t, proof.envelope);
    s := SecondRegistrationBreaksAudit(t, map[], 0, proof);
  }
}
