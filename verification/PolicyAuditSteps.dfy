/** When a step keeps the policy audit content, decided before it is taken: by the attempt and
    the store for a commit, by the request and the store for a read and commit together. */
module PolicyAuditSteps {
  import opened Models
  import opened Authorization
  import opened Ledger
  import opened Writers
  import opened System
  import opened Consumption
  import opened PolicyRuns
  import opened Runs
  import opened PolicyAudit
  import opened PolicyAuditRuns

  // ---------------------------------------------------------------- one commit

  /** A replayed packet request is recorded under its own operation, for a scoped request, at the
      operation's states. */
  predicate ReplaySafe(e: Event, v: Envelope)
    requires v.PacketEnvelope?
  {
    && e.command == Authority(v.operation) && v.scope.Some?
    && e.prior == Some(PriorOf(v.operation)) && v.requested == RequestedOf(v.operation)
  }

  /** Denied for its binding: an unbootstrapped policy whose registry is not the requester alone. */
  predicate BootstrapSafe(s: Store, v: Envelope)
    requires v.PolicyEnvelope?
  {
    v.policy.Bootstrap? ==> s.policy.Some? || s.principals.Keys == {v.principal}
  }

  /** Denied for its binding: a manager registering what is registered. */
  predicate RegistrationSafe(s: Store, v: Envelope)
    requires v.BindingEnvelope? || v.ExecutorEnvelope?
  {
    !(Evaluate(View(s), PolicyQuery(v.principal, EffectManageBindings)).status == Allowed && AlreadyRegistered(s, v))
  }

  /** The event this attempt would record on this store passes the audit. */
  predicate AttemptSafe(s: Store, p: Pending)
    requires Typed(p)
  {
    match p
    case AuthorityCommit(proof, _) =>
      proof.envelope.packet in s.packets ==> s.packets[proof.envelope.packet].state == PriorOf(proof.envelope.operation)
    case AuthorityRejection(proof, prior, _, _) =>
      prior == PriorOf(proof.envelope.operation) && proof.envelope.requested == RequestedOf(proof.envelope.operation)
    case PolicyCommit(proof) => BootstrapSafe(s, proof.envelope)
    case ManagementCommit(proof) => RegistrationSafe(s, proof.envelope)
    case EventRecord(event) =>
      event.authentication.Replayed? && event.authentication.proof.envelope.PacketEnvelope? ==>
        ReplaySafe(event, event.authentication.proof.envelope)
    case _ => true
  }

  lemma AuthoritySafe(s: Store, proof: SignedOperation, receipt: FileHash, t: Store)
    requires PendingOk(s, AuthorityCommit(proof, receipt)) && CommitAuthority(s, proof, receipt) == Some(t)
    ensures |t.log| == |s.log| + 1 && (CanonicalRecord(t.log[|s.log|]) <==> AttemptSafe(s, AuthorityCommit(proof, receipt)))
  {
    hide TransactionDecision, ReleaseApproved, NewApproval, AuthoritySensitive, Consumable, ApprovalTaken, Trusted, ApprovedReceipt;
  }

  lemma RejectionSafe(s: Store, proof: SignedOperation, prior: WorkflowState, governed: FileHash, read: Option<FileHash>, t: Store)
    requires proof.envelope.PacketEnvelope? && CommitRejection(s, proof, prior, governed, read) == Some(t)
    ensures |t.log| == |s.log| + 1
    ensures CanonicalRecord(t.log[|s.log|]) <==> AttemptSafe(s, AuthorityRejection(proof, prior, governed, read))
  {
    hide TransactionDecision, Consumable;
  }

  /** A policy request is denied for its binding exactly by the bootstrap guard. */
  lemma BindingDenial(s: Store, v: Envelope)
    requires PolicyInv(s) && v.PolicyEnvelope?
    ensures var d := PolicyDecision(s, v); d.status == Denied && d.reason == RequestBindingRejected <==> !BootstrapSafe(s, v)
  {
    hide Evaluate, RemainingAdmin, GrantById, GrantSound, RevocationSound, BootstrapSound, HasAdmin, Ordered, DistinctIds,
         DistinctRevocations, AcceptedBootstrap;
    EvaluationForm(View(s), PolicyQuery(v.principal, PolicyManageCapabilities));
  }

  lemma PolicySafe(s: Store, proof: SignedOperation, t: Store)
    requires PolicyInv(s) && proof.envelope.PolicyEnvelope? && CommitPolicy(s, proof) == Some(t)
    ensures |t.log| == |s.log| + 1 && (CanonicalRecord(t.log[|s.log|]) <==> AttemptSafe(s, PolicyCommit(proof)))
  {
    hide PolicyInv, PolicyDecision, CommitPolicy, BootstrapSafe;
    PolicyNewEvent(s, proof, t);
    BindingDenial(s, proof.envelope);
  }

  lemma PolicyNewEvent(s: Store, proof: SignedOperation, t: Store)
    requires proof.envelope.PolicyEnvelope? && CommitPolicy(s, proof) == Some(t)
    ensures |t.log| == |s.log| + 1
    ensures t.log[|s.log|].authentication == Verified(proof) && t.log[|s.log|].authorization == Some(PolicyDecision(s, proof.envelope))
  {
    hide PolicyDecision, GrantInsertable, NewGrant, RevocationTaken, Consumable, GrantedStore, RevokedStore, PolicyEvent;
    var d := PolicyDecision(s, proof.envelope);
    PolicyStoreLogs(s, proof, d);
    PolicyEventParts(proof, d, true);
    PolicyEventParts(proof, d, false);
  }

  lemma PolicyStoreLogs(s: Store, proof: SignedOperation, d: Decision)
    requires proof.envelope.PolicyEnvelope?
    ensures GrantedStore(s, proof, d).log == s.log + [PolicyEvent(proof, d, true)]
    ensures proof.envelope.revocation.Some? ==> RevokedStore(s, proof, d).log == s.log + [PolicyEvent(proof, d, true)]
  {
    hide PolicyEvent, NewGrant;
  }

  lemma PolicyEventParts(proof: SignedOperation, d: Decision, accepted: bool)
    requires proof.envelope.PolicyEnvelope?
    ensures PolicyEvent(proof, d, accepted).authentication == Verified(proof) && PolicyEvent(proof, d, accepted).authorization == Some(d)
  {
  }

  lemma BindingRejectionSafe(s: Store, proof: SignedOperation, t: Store)
    requires proof.envelope.PolicyEnvelope? && CommitPolicyBindingRejection(s, proof) == Some(t)
    ensures |t.log| == |s.log| + 1 && CanonicalRecord(t.log[|s.log|])
  {
    hide Consumable, PolicyIdentifiersOf;
  }

  lemma RegistrationDenial(s: Store, v: Envelope)
    requires v.BindingEnvelope? || v.ExecutorEnvelope?
    ensures var d := ManagementDecision(s, v); d.status == Denied && d.reason == RequestBindingRejected <==> !RegistrationSafe(s, v)
  {
    hide Evaluate, AlreadyRegistered;
    EvaluationForm(View(s), PolicyQuery(v.principal, EffectManageBindings));
  }

  lemma ManagementSafe(s: Store, proof: SignedOperation, t: Store)
    requires ManagementEnvelope(proof.envelope) && CommitManagement(s, proof) == Some(t)
    ensures |t.log| == |s.log| + 1 && (CanonicalRecord(t.log[|s.log|]) <==> AttemptSafe(s, ManagementCommit(proof)))
  {
    hide ManagementDecision, CommitManagement, RegistrationSafe;
    ManagementNewEvent(s, proof, t);
    RegistrationDenial(s, proof.envelope);
  }

  lemma ManagementNewEvent(s: Store, proof: SignedOperation, t: Store)
    requires ManagementEnvelope(proof.envelope) && CommitManagement(s, proof) == Some(t)
    ensures |t.log| == |s.log| + 1
    ensures t.log[|s.log|].authentication == Verified(proof) && t.log[|s.log|].authorization == Some(ManagementDecision(s, proof.envelope))
  {
    hide ManagementDecision, Consumable, ManagementEvent, Adjudicate;
    var d := ManagementDecision(s, proof.envelope);
    var e := ManagementEvent(proof, Verified(proof), d.status == Allowed, d);
    ManagementEventParts(proof, d, d.status == Allowed);
    AdjudicationAppends(s, e, proof);
    assert t.log == Adjudicate(s, e, proof).log;
  }

  lemma AdjudicationAppends(s: Store, e: Event, proof: SignedOperation)
    ensures Adjudicate(s, e, proof).log == s.log + [e]
  {
  }

  lemma ManagementEventParts(proof: SignedOperation, d: Decision, accepted: bool)
    requires ManagementEnvelope(proof.envelope)
    ensures var e := ManagementEvent(proof, Verified(proof), accepted, d); e.authentication == Verified(proof) && e.authorization == Some(d)
  {
  }

  lemma EventSafe(s: Store, e: Event)
    requires UnprovenForm(s, e)
    ensures CanonicalRecord(e) <==> AttemptSafe(s, EventRecord(e))
  {
    hide Trusted, Consumed, PacketIdentifiersOf, PolicyIdentifiersOf;
  }

  lemma UnsignedSafe(s: Store, t: Store, p: Pending)
    requires LogStep(s, t) && Committed(s, t, p) && t.log != s.log && WritesNoProof(p)
    ensures |t.log| == |s.log| + 1 && CanonicalRecord(t.log[|s.log|])
  {
    hide Grows, VerifiedForm, DecisionForm, AuthorizedOn, Consumable, Trusted, UnprovenForm;
    var e := t.log[|s.log|];
    if e.authentication.Verified? && VerifiedForm(e, e.authentication.proof) { VerifiedCommand(e, e.authentication.proof); }
  }

  lemma VerifiedCommand(e: Event, proof: SignedOperation)
    requires VerifiedForm(e, proof)
    ensures e.command !in {Workflow, CreateEffect, ClaimEffect, RecordResult}
  {
    hide CanonicalSemantics, CanonicalPolicyEnvelope, PacketIdentifiersOf, PolicyIdentifiersOf;
  }

  /** The event a commit appends is canonically recorded iff the attempt is safe on the store
      it commits to. */
  lemma CommitRecord(s: Store, files: Files, p: Pending)
    requires StoreInv(s) && PendingOk(s, p) && Outcome(s, files, p).log != s.log
    ensures Typed(p) && |Outcome(s, files, p).log| == |s.log| + 1 && Commit(s, files, p).Some?
    ensures CanonicalRecord(Outcome(s, files, p).log[|s.log|]) <==> AttemptSafe(s, p)
  {
    hide StoreInv, PendingOk, CommitAuthority, CommitRejection, CommitPolicy, CommitPolicyBindingRejection, CommitManagement,
         CommitCandidate, CommitPacketStep, CreateExternalEffect, ClaimExternalEffect, RecordExecutorResult, CanonicalRecord, LogStep,
         AttemptSafe, UnprovenForm, Grows;
    PendingTyped(s, p);
    CommitShape(s, files, p);
    var t := Outcome(s, files, p);
    match p
    case AuthorityCommit(proof, receipt) => AuthoritySafe(s, proof, receipt, t);
    case AuthorityRejection(proof, prior, governed, read) => RejectionSafe(s, proof, prior, governed, read, t);
    case PolicyCommit(proof) => InvParts(s); PolicySafe(s, proof, t);
    case PolicyBindingRejection(proof) => BindingRejectionSafe(s, proof, t); AlwaysSafe(s, p);
    case ManagementCommit(proof) => ManagementSafe(s, proof, t);
    case EventRecord(event) => RecordForm(s, event); EventSafe(s, event);
    case _ =>
      CommitLogStep(s, files, p);
      UnsignedSafe(s, t, p);
      AlwaysSafe(s, p);
  }

  lemma RecordForm(s: Store, e: Event)
    requires PendingOk(s, EventRecord(e))
    ensures UnprovenForm(s, e)
  {
    hide UnprovenForm;
  }

  lemma AlwaysSafe(s: Store, p: Pending)
    requires Typed(p) && (p.PolicyBindingRejection? || WritesNoProof(p))
    ensures AttemptSafe(s, p)
  {
  }

  predicate WritesNoProof(p: Pending) {
    p.CandidateCommit? || p.PacketCommit? || p.EffectCreation? || p.ClaimCommit? || p.ResultCommit?
  }

  lemma CanonicalAppend(log: seq<Event>, e: Event)
    ensures AllCanonical(log + [e]) <==> AllCanonical(log) && CanonicalRecord(e)
  {
    hide CanonicalRecord;
    if AllCanonical(log + [e]) {
      assert (log + [e])[|log|] == e;
      assert forall i :: 0 <= i < |log| ==> (log + [e])[i] == log[i];
    }
  }

  /** Commit exactness: whoever commits, and whatever was read before, the store passes the
      policy audit afterwards iff it passed before and the attempt rolls back or is safe. */
  lemma CommitAuditExact(s: Store, files: Files, p: Pending)
    requires StoreInv(s) && PendingOk(s, p)
    ensures Typed(p)
    ensures PolicyAuditHolds(Outcome(s, files, p)) <==> PolicyAuditHolds(s) && (Commit(s, files, p).Some? ==> AttemptSafe(s, p))
  {
    hide StoreInv, PendingOk, Commit, CanonicalRecord, AttemptSafe, PolicyAuditHolds, AllCanonical;
    PendingTyped(s, p);
    var t := Outcome(s, files, p);
    CommitKeeps(s, files, p);
    AuditIsCanonical(s);
    AuditIsCanonical(t);
    OutcomeAppends(s, files, p);
    if t.log != s.log {
      CommitRecord(s, files, p);
      CanonicalAppend(s.log, t.log[|s.log|]);
    } else if WritesNoProof(p) {
      AlwaysSafe(s, p);
    } else if Commit(s, files, p).Some? {
      SignedAppends(s, files, p);
    }
  }

  /** Only repeating an effect request or a result commits without an event. */
  lemma SignedAppends(s: Store, files: Files, p: Pending)
    requires PendingOk(s, p) && Typed(p) && Commit(s, files, p).Some? && !WritesNoProof(p)
    ensures |Commit(s, files, p).value.log| == |s.log| + 1
  {
    hide PendingOk, CommitAuthority, CommitRejection, CommitPolicy, CommitPolicyBindingRejection, CommitManagement, CommitCandidate,
         CommitPacketStep, CreateExternalEffect, ClaimExternalEffect, RecordExecutorResult, CanonicalRecord, AttemptSafe;
    var t := Commit(s, files, p).value;
    match p
    case AuthorityCommit(proof, receipt) => AuthoritySafe(s, proof, receipt, t);
    case AuthorityRejection(proof, prior, governed, read) => RejectionSafe(s, proof, prior, governed, read, t);
    case PolicyCommit(proof) => PolicyNewEvent(s, proof, t);
    case PolicyBindingRejection(proof) => BindingRejectionSafe(s, proof, t);
    case ManagementCommit(proof) => ManagementNewEvent(s, proof, t);
    case _ =>
  }

  // ---------------------------------------------------------------- whole runs

  predicate StepSafe(y: System, step: Step) {
    match step
    case CommitStep(w, files) =>
      w in y.pending && Typed(y.pending[w]) && Commit(y.store, files, y.pending[w]).Some? ==> AttemptSafe(y.store, y.pending[w])
    case _ => true
  }

  lemma StepAuditExact(y: System, step: Step)
    requires Inv(y)
    ensures PolicyAuditHolds(Next(y, step).store) <==> PolicyAuditHolds(y.store) && StepSafe(y, step)
  {
    hide StoreInv, PendingOk, Outcome, Read, Trust, InsertCandidate, PolicyAuditHolds, AttemptSafe, Commit;
    NextKeeps(y, step);
    match step
    case ReadStep(_, _, _, _) =>
    case CommitStep(w, files) => if w in y.pending { CommitAuditExact(y.store, files, y.pending[w]); }
    case TrustPrincipal(principal, key) =>
      TrustAppendsNothing(y.store, principal, key);
      AuditIsCanonical(y.store);
      AuditIsCanonical(Next(y, step).store);
    case Discover(candidate) =>
      DiscoverAppendsNothing(y.store, candidate);
      AuditIsCanonical(y.store);
      AuditIsCanonical(Next(y, step).store);
  }

  /** Every step of the run was safe on the system it met. */
  ghost predicate AllSafe(steps: seq<Step>) {
    forall i :: 0 <= i < |steps| ==> SafeAt(steps, i)
  }

  predicate SafeAt(steps: seq<Step>, i: nat)
    requires i < |steps|
  {
    StepSafe(Run(START, steps[..i]), steps[i])
  }

  lemma SafeAtPrefix(steps: seq<Step>, i: nat)
    requires i < |steps| - 1
    ensures SafeAt(steps[..|steps| - 1], i) == SafeAt(steps, i)
  {
    hide StepSafe, Run;
    assert steps[..|steps| - 1][..i] == steps[..i];
  }

  lemma AllSafeAppend(steps: seq<Step>)
    requires steps != []
    ensures AllSafe(steps) <==> AllSafe(steps[..|steps| - 1]) && StepSafe(Run(START, steps[..|steps| - 1]), steps[|steps| - 1])
  {
    hide StepSafe, SafeAt, Run;
    var n := |steps| - 1;
    forall i: nat | i < n ensures SafeAt(steps[..n], i) == SafeAt(steps, i) { SafeAtPrefix(steps, i); }
    LastSafe(steps);
  }

  lemma LastSafe(steps: seq<Step>)
    requires steps != []
    ensures SafeAt(steps, |steps| - 1) == StepSafe(Run(START, steps[..|steps| - 1]), steps[|steps| - 1])
  {
    hide StepSafe, Run;
  }

  /** Run exactness: a run ends in a store the policy audit accepts iff every one of its commits
      was safe on the store it met. */
  lemma {:induction false} RunAuditExact(steps: seq<Step>)
    ensures PolicyAuditHolds(Run(START, steps).store) <==> AllSafe(steps)
    decreases |steps|
  {
    hide Inv, Next, PolicyAuditHolds, StepSafe, AllSafe;
    if steps == [] {
      EmptyAudit();
    } else {
      var n := |steps| - 1;
      RunAuditExact(steps[..n]);
      RunInv(steps[..n]);
      StepAuditExact(Run(START, steps[..n]), steps[n]);
      AllSafeAppend(steps);
    }
  }

  lemma EmptyAudit()
    ensures PolicyAuditHolds(START.store) && AllSafe([])
  {
  }

  // ---------------------------------------------------------------- one request, read and committed at once

  /** The packet is where the request's operation starts from, and the request asks for where the
      operation leads. */
  predicate AtCanonicalStates(s: Store, v: Envelope)
    requires v.PacketEnvelope?
  {
    && v.requested == RequestedOf(v.operation)
    && PriorOf(v.operation) == if v.packet in s.packets then s.packets[v.packet].state else v.expectedPrior
  }

  /** A replay adds: of a scoped request, forwarded under its own operation. */
  predicate ReplayedPacketSafe(s: Store, v: Envelope, c: AdapterConstraints)
    requires v.PacketEnvelope?
  {
    v.packet in s.packets ==>
      AtCanonicalStates(s, v) && v.scope.Some? && (c.operation.Some? ==> c.operation.value == v.operation)
  }

  /** What a caller can check before submitting: the request, the clock and the store. */
  predicate RequestSafe(s: Store, now: int, r: Request) {
    match r
    case TransitionRequest(signed, c) =>
      signed.Some? && ValidNow(s, now, signed.value) && signed.value.envelope.PacketEnvelope? ==>
        var v := signed.value.envelope;
        if v.id in s.operations then ReplayedPacketSafe(s, v, c) else AtCanonicalStates(s, v)
    case PolicyRequest(signed, expected) =>
      signed.Some? && ValidNow(s, now, signed.value) && signed.value.envelope.id !in s.operations ==>
        var v := signed.value.envelope;
        && (v.PacketEnvelope? ==> AtCanonicalStates(s, v))
        && (v.PolicyEnvelope? && WellFormed(signed.value) && (expected.None? || expected.value == v.policy) ==> BootstrapSafe(s, v))
    case ManagementRequest(operation) =>
      var v := operation.envelope;
      ValidNow(s, now, operation) && ManagementEnvelope(v) && v.id !in s.operations ==> RegistrationSafe(s, v)
    case _ => true
  }

  lemma AuthenticationDecided(s: Store, now: int, proof: SignedOperation)
    requires ConsumptionInv(s)
    ensures Authenticate(s, now, proof) ==
      if !ValidNow(s, now, proof) then AuthenticationFailed
      else if proof.envelope.id in s.operations then ReplayDetected else Authenticated
    ensures Authenticate(s, now, proof) == Authenticated ==> Consumable(s, proof)
  {
    if Consumed(s, proof) { ConsumedById(s, proof); }
  }

  /** Mediation commits only at the operation's own states, and its rejections carry the state
      the request met. */
  lemma MediatedSafe(s: Store, files: Files, proof: SignedOperation, c: AdapterConstraints)
    requires proof.envelope.PacketEnvelope? && Consumable(s, proof)
    ensures var p := MediatePacket(s, files, proof, c);
      && Typed(p) && (p.AuthorityCommit? || p.AuthorityRejection?) && (p.AuthorityRejection? ==> Commit(s, files, p).Some?)
      && (AttemptSafe(s, p) <==> AtCanonicalStates(s, proof.envelope))
      && (p.AuthorityCommit? ==> AttemptSafe(s, p))
  {
    hide Recompute, ReleaseApprovalMatches, AdapterMismatch, Consumable, CommitAuthority, TransactionDecision, PacketEvent;
  }

  /** Where the request's attempt commits, its safety is the request's. */
  predicate Foretold(s: Store, files: Files, p: Pending, safe: bool) {
    && Typed(p)
    && (safe <==> (Commit(s, files, p).Some? ==> AttemptSafe(s, p)))
  }

  lemma FailureForetold(s: Store, files: Files, signed: Option<SignedOperation>, c: AdapterConstraints)
    ensures var r := PacketAuthenticationFailure(s, signed, false, c); r.Some? ==> Foretold(s, files, r.value, true)
    ensures var r := PolicyAuthenticationFailure(signed, false); r.Some? ==> Foretold(s, files, r.value, true)
  {
  }

  lemma ReplayForetold(s: Store, files: Files, proof: SignedOperation, c: AdapterConstraints)
    ensures var r := PacketAuthenticationFailure(s, Some(proof), true, c);
      r.Some? ==> proof.envelope.PacketEnvelope? && Foretold(s, files, r.value, ReplayedPacketSafe(s, proof.envelope, c))
    ensures var r := PolicyAuthenticationFailure(Some(proof), true);
      r.Some? ==> proof.envelope.PolicyEnvelope? && Foretold(s, files, r.value, true)
  {
    hide PacketIdentifiersOf, PolicyIdentifiersOf;
  }

  lemma MediationForetold(s: Store, files: Files, proof: SignedOperation, c: AdapterConstraints)
    requires proof.envelope.PacketEnvelope? && Consumable(s, proof)
    ensures Foretold(s, files, MediatePacket(s, files, proof, c), AtCanonicalStates(s, proof.envelope))
  {
    hide MediatePacket, AttemptSafe, AtCanonicalStates, Commit;
    MediatedSafe(s, files, proof, c);
  }

  lemma BindingRejectionForetold(s: Store, files: Files, proof: SignedOperation)
    requires proof.envelope.PolicyEnvelope?
    ensures Foretold(s, files, PolicyBindingRejection(proof), true)
  {
    hide CommitPolicyBindingRejection;
  }

  lemma TransitionForetold(s: Store, files: Files, now: int, signed: Option<SignedOperation>, c: AdapterConstraints)
    requires ConsumptionInv(s)
    ensures var r := TransitionRequest(signed, c); var p := Read(s, files, now, r);
      p.Some? ==> Foretold(s, files, p.value, RequestSafe(s, now, r))
  {
    hide Authenticate, ValidNow, MediatePacket, PacketAuthenticationFailure, ConsumptionInv, AtCanonicalStates, ReplayedPacketSafe,
         Foretold, Consumable, WellFormed;
    FailureForetold(s, files, signed, c);
    if signed.Some? {
      var proof := signed.value;
      AuthenticationDecided(s, now, proof);
      ReplayForetold(s, files, proof, c);
      if proof.envelope.PacketEnvelope? && Consumable(s, proof) { MediationForetold(s, files, proof, c); }
      if proof.envelope.PolicyEnvelope? { BindingRejectionForetold(s, files, proof); }
    }
  }

  /** A packet request sent to the policy mediator is rejected at the state it met. */
  lemma MisdirectedForetold(s: Store, files: Files, proof: SignedOperation)
    requires proof.envelope.PacketEnvelope? && Consumable(s, proof)
    ensures var e := proof.envelope; var prior := if e.packet in s.packets then s.packets[e.packet].state else e.expectedPrior;
      Foretold(s, files, AuthorityRejection(proof, prior, e.manifest, None), AtCanonicalStates(s, e))
  {
    hide Consumable, TransactionDecision, PacketEvent;
  }

  /** A transaction that would record an unsafe event never rolls back. */
  lemma PolicyCommitForetold(s: Store, files: Files, proof: SignedOperation)
    requires PolicyInv(s) && proof.envelope.PolicyEnvelope? && Consumable(s, proof)
    ensures Foretold(s, files, PolicyCommit(proof), BootstrapSafe(s, proof.envelope))
  {
    hide PolicyInv, PolicyDecision, Consumable, BootstrapSafe, GrantInsertable, RevocationTaken;
    BindingDenial(s, proof.envelope);
  }

  lemma ManagementForetold(s: Store, files: Files, proof: SignedOperation)
    requires ManagementEnvelope(proof.envelope) && Consumable(s, proof)
    ensures Foretold(s, files, ManagementCommit(proof), RegistrationSafe(s, proof.envelope))
  {
    hide ManagementDecision, Consumable, RegistrationSafe;
    RegistrationDenial(s, proof.envelope);
  }

  lemma ManagementReplayForetold(s: Store, files: Files, proof: SignedOperation)
    requires ManagementEnvelope(proof.envelope)
    ensures Foretold(s, files, EventRecord(ManagementReplayEvent(proof)), true)
  {
  }

  lemma PolicyForetold(s: Store, files: Files, now: int, signed: Option<SignedOperation>, expected: Option<PolicyOperation>)
    requires ConsumptionInv(s) && PolicyInv(s)
    ensures var r := PolicyRequest(signed, expected); var p := Read(s, files, now, r);
      p.Some? ==> Foretold(s, files, p.value, RequestSafe(s, now, r))
  {
    hide Authenticate, ValidNow, ConsumptionInv, PolicyInv, AtCanonicalStates, PolicyAuthenticationFailure, Foretold, Consumable,
         WellFormed, BootstrapSafe;
    var c := AdapterConstraints(None, None, true);
    FailureForetold(s, files, signed, c);
    if signed.Some? {
      var proof := signed.value;
      AuthenticationDecided(s, now, proof);
      ReplayForetold(s, files, proof, c);
      if proof.envelope.PacketEnvelope? && Consumable(s, proof) { MisdirectedForetold(s, files, proof); }
      if proof.envelope.PolicyEnvelope? {
        BindingRejectionForetold(s, files, proof);
        if Consumable(s, proof) { PolicyCommitForetold(s, files, proof); }
      }
    }
  }

  lemma RegistrationForetold(s: Store, files: Files, now: int, proof: SignedOperation)
    requires ConsumptionInv(s)
    ensures var r := ManagementRequest(proof); var p := Read(s, files, now, r);
      p.Some? ==> Foretold(s, files, p.value, RequestSafe(s, now, r))
  {
    hide Authenticate, ValidNow, ConsumptionInv, Foretold, Consumable, RegistrationSafe;
    AuthenticationDecided(s, now, proof);
    if ManagementEnvelope(proof.envelope) {
      ManagementReplayForetold(s, files, proof);
      if Consumable(s, proof) { ManagementForetold(s, files, proof); }
    }
  }

  /** Candidate, packet and effect requests are always safe. */
  lemma WorkflowForetold(s: Store, files: Files, now: int, r: Request)
    requires !r.TransitionRequest? && !r.PolicyRequest? && !r.ManagementRequest?
    ensures var p := Read(s, files, now, r); p.Some? ==> Foretold(s, files, p.value, true)
  {
    hide Commit, Recompute, ShippedCandidateStep, Successors, AuthoritySensitive;
  }

  /** Request exactness: on a store the audit accepts, the request's own transaction leaves one it
      accepts iff the request was safe to submit, which a caller can tell beforehand from the
      request, the clock and the store. */
  lemma RequestAuditExact(s: Store, files: Files, now: int, r: Request)
    requires StoreInv(s) && PolicyAuditHolds(s) && Read(s, files, now, r).Some?
    ensures PolicyAuditHolds(Outcome(s, files, Read(s, files, now, r).value)) <==> RequestSafe(s, now, r)
  {
    hide StoreInv, PolicyAuditHolds, Outcome, Read, RequestSafe, PendingOk;
    var p := Read(s, files, now, r).value;
    ReadOk(s, files, now, r);
    CommitAuditExact(s, files, p);
    RequestForetold(s, files, now, r);
  }

  lemma RequestForetold(s: Store, files: Files, now: int, r: Request)
    requires StoreInv(s)
    ensures var p := Read(s, files, now, r); p.Some? ==> Foretold(s, files, p.value, RequestSafe(s, now, r))
  {
    hide StoreInv, Read, Foretold;
    InvParts(s);
    match r
    case TransitionRequest(signed, c) => TransitionForetold(s, files, now, signed, c);
    case PolicyRequest(signed, expected) => PolicyForetold(s, files, now, signed, expected);
    case ManagementRequest(operation) => RegistrationForetold(s, files, now, operation);
    case _ => WorkflowForetold(s, files, now, r);
  }
}
