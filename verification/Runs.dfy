/** What holds of every store any number of writers can reach, in any interleaving. */
module Runs {
  import opened Models
  import opened Authorization
  import opened Ledger
  import opened Writers
  import opened System
  import opened Consumption
  import opened PolicyRuns
  import opened Temporal
  import opened PacketRuns
  import opened EffectRuns

  ghost predicate StoreInv(s: Store) {
    ConsumptionInv(s) && FormsInv(s) && PolicyInv(s) && CommitTimeInv(s) && PacketInv(s) && EffectInv(s)
  }

  ghost predicate Inv(y: System) {
    StoreInv(y.store) && forall w :: w in y.pending ==> PendingOk(y.store, y.pending[w])
  }

  lemma StartInv()
    ensures Inv(START)
  {
  }

  lemma CommitKeeps(s: Store, files: Files, p: Pending)
    requires StoreInv(s) && PendingOk(s, p)
    ensures StoreInv(Outcome(s, files, p))
  {
    hide ConsumptionInv, FormsInv, PolicyInv, CommitTimeInv, PacketInv, EffectInv, Outcome, LogStep, PolicyStep, Grows;
    var t := Outcome(s, files, p);
    OutcomeGrows(s, files, p);
    CommitLogStep(s, files, p);
    CommitPolicyStep(s, files, p);
    ConsumptionStep(s, t);
    FormsKept(s, t);
    PolicyKept(s, t);
    CommitTimeKept(s, t);
    PacketsKept(s, files, p);
    assert Typed(p);
    EffectsKept(s, files, p);
  }

  /** Changes outside the log, the policy and the effects. */
  lemma QuietKeeps(s: Store, t: Store)
    requires StoreInv(s) && Grows(s, t) && t.log == s.log && t.operations == s.operations && SamePolicy(s, t) && SameEffects(s, t)
    requires PacketInv(t)
    ensures StoreInv(t)
  {
    hide ConsumptionInv, FormsInv, PolicyInv, CommitTimeInv, PacketInv, EffectInv, Grows;
    assert LogStep(s, t);
    assert PolicyStep(s, t);
    ConsumptionStep(s, t);
    FormsKept(s, t);
    PolicyKept(s, t);
    CommitTimeKept(s, t);
    FrameKeepsEffects(s, t);
  }

  lemma TrustShape(s: Store, principal: PrincipalId, key: KeyId)
    ensures var t := Trust(s, principal, key);
      && Grows(s, t) && t.log == s.log && t.operations == s.operations
      && SamePolicy(s, t) && SameEffects(s, t) && SamePackets(s, t) && Inert(s, t)
  {
    hide Grows;
    GrowsSame(s);
    if principal !in s.principals { PrincipalAdded(s, principal, key); }
  }

  lemma TrustKeeps(s: Store, principal: PrincipalId, key: KeyId)
    requires StoreInv(s)
    ensures StoreInv(Trust(s, principal, key))
  {
    hide ConsumptionInv, FormsInv, PolicyInv, CommitTimeInv, PacketInv, EffectInv, Grows, Trust, Inert;
    var t := Trust(s, principal, key);
    TrustShape(s, principal, key);
    InertKeeps(s, t);
    QuietKeeps(s, t);
  }

  lemma DiscoveryKeeps(s: Store, candidate: CandidateId)
    requires StoreInv(s)
    ensures StoreInv(InsertCandidate(s, candidate))
  {
    hide ConsumptionInv, FormsInv, PolicyInv, CommitTimeInv, PacketInv, EffectInv, Grows;
    DiscoverGrows(s, candidate);
    DiscoverKeeps(s, candidate);
    QuietKeeps(s, InsertCandidate(s, candidate));
  }

  lemma NextKeeps(y: System, step: Step)
    requires Inv(y)
    ensures Inv(Next(y, step))
  {
    hide StoreInv, PendingOk, Outcome, Read, Trust, InsertCandidate, PolicyRowsLater;
    var z := Next(y, step);
    NextGrows(y, step);
    forall w | w in y.pending ensures PendingOk(z.store, y.pending[w]) { PendingStable(y.store, z.store, y.pending[w]); }
    match step
    case ReadStep(w, files, now, request) => ReadOk(y.store, files, now, request);
    case CommitStep(w, files) => if w in y.pending { CommitKeeps(y.store, files, y.pending[w]); }
    case TrustPrincipal(principal, key) => TrustKeeps(y.store, principal, key);
    case Discover(candidate) => DiscoveryKeeps(y.store, candidate);
  }

  /** Over any continuation the invariants are kept. */
  lemma {:induction false} RunKeeps(y: System, steps: seq<Step>)
    requires Inv(y)
    ensures Inv(Run(y, steps))
    decreases |steps|
  {
    hide Inv, Next;
    if steps != [] {
      RunKeeps(y, steps[..|steps| - 1]);
      NextKeeps(Run(y, steps[..|steps| - 1]), steps[|steps| - 1]);
    }
  }

  /** Every reachable system satisfies every invariant. */
  lemma RunInv(steps: seq<Step>)
    ensures Inv(Run(START, steps))
  {
    hide Inv, Run;
    StartInv();
    RunKeeps(START, steps);
  }

  lemma Reached(steps: seq<Step>) returns (s: Store)
    ensures s == Run(START, steps).store && StoreInv(s)
  {
    RunInv(steps);
    s := Run(START, steps).store;
  }

  // ---------------------------------------------------------------- one proof, one adjudication

  /** The event a proof was consumed for carries that proof and the same outcome. */
  predicate OperationHasEvent(s: Store, o: OperationId)
    requires o in s.operations
  {
    var c := s.operations[o];
    Recorded(s, c.event) && At(s, c.event).authentication == Verified(c.proof) && At(s, c.event).accepted == c.accepted
  }

  /** A verified event is the one its proof's operation was consumed for; a replayed or failed
      attempt is rejected, and no operation was consumed for it. */
  predicate EventHasOperation(s: Store, k: Sequence)
    requires Recorded(s, k)
  {
    var e := At(s, k);
    match e.authentication
    case Verified(proof) => proof.envelope.id in s.operations && s.operations[proof.envelope.id].event == k
    case Unauthenticated => true
    case _ => !e.accepted && forall o :: o in s.operations ==> s.operations[o].event != k
  }

  predicate VerifiedAt(s: Store, k: Sequence, proof: SignedOperation) {
    Recorded(s, k) && At(s, k).authentication == Verified(proof)
  }

  /** Consumption bijection: in every reachable store, consumed operations and verified events
      correspond one to one, with equal outcomes, and no proof is adjudicated twice. */
  lemma ConsumptionBijection(steps: seq<Step>)
    ensures var s := Run(START, steps).store;
      && (forall o :: o in s.operations ==> OperationHasEvent(s, o))
      && (forall k :: Recorded(s, k) ==> EventHasOperation(s, k))
    ensures var s := Run(START, steps).store;
      forall j, k, proof :: VerifiedAt(s, j, proof) && VerifiedAt(s, k, proof) ==> j == k
  {
    hide Run, FormsInv, PolicyInv, CommitTimeInv, PacketInv, EffectInv;
    var s := Reached(steps);
    forall o | o in s.operations ensures OperationHasEvent(s, o) { assert OperationSound(s, o); }
    forall k: Sequence | Recorded(s, k)
      ensures EventHasOperation(s, k)
    {
      assert EventSound(s, k);
      forall o | o in s.operations && s.operations[o].event == k ensures At(s, k).authentication.Verified? { assert OperationSound(s, o); }
    }
    forall j: Sequence, k: Sequence, proof | VerifiedAt(s, j, proof) && VerifiedAt(s, k, proof)
      ensures j == k
    {
      assert EventHasOperation(s, j) && EventHasOperation(s, k);
    }
  }

  /** Registered, signed with the registered key, and inside its window: at most 600 seconds long,
      issued at most 30 seconds ahead, not yet expired. */
  predicate ValidNow(s: Store, now: int, proof: SignedOperation) {
    var e := proof.envelope;
    && e.principal in s.principals && s.principals[e.principal] == e.key && proof.signer == e.key && proof.signed == e
    && 0 < e.expires - e.issued <= 600 && e.issued <= now + 30 && now < e.expires
  }

  /** Authentication exactness: on every reachable store a valid request is a replay iff its
      operation id was consumed; looking its proof up as well finds nothing more. */
  lemma AuthenticationExact(steps: seq<Step>, now: int, proof: SignedOperation)
    ensures var s := Run(START, steps).store;
      Authenticate(s, now, proof) ==
      if !ValidNow(s, now, proof) then AuthenticationFailed
      else if proof.envelope.id in s.operations then ReplayDetected else Authenticated
  {
    hide Run, FormsInv, PolicyInv, CommitTimeInv, PacketInv, EffectInv;
    var s := Reached(steps);
    if Consumed(s, proof) { ConsumedById(s, proof); }
  }

  /** Only proofs signed with their principal's registered key ever reach the log as verified or
      replayed; the rest are recorded, if at all, as rejected and without a decision. */
  lemma SignaturesHold(steps: seq<Step>, k: Sequence)
    requires Recorded(Run(START, steps).store, k)
    ensures var s := Run(START, steps).store;
      match At(s, k).authentication
      case Verified(proof) => Trusted(s, proof)
      case Replayed(proof) => Trusted(s, proof) && ConsumedBefore(s, proof, k)
      case FailedAuthentication => !At(s, k).accepted && At(s, k).authorization.None?
      case Unauthenticated => At(s, k).authorization.None?
  {
    hide Run, PolicyInv, CommitTimeInv, PacketInv, EffectInv, VerifiedForm, DecisionForm, ReplayForm, OperationSound;
    var s := Reached(steps);
    assert EventSound(s, k) && EventForm(At(s, k));
  }

  /** Everything but the log and the consumed proofs. */
  function GovernedState(s: Store): Store {
    s.(log := [], operations := map[])
  }

  /** The last event of a store that has one more than another is rejected. */
  predicate NewlyRejected(s: Store, t: Store) {
    |t.log| > |s.log| && !t.log[|s.log|].accepted
  }

  lemma AcceptedAuthority(s: Store, proof: SignedOperation, d: Decision, receipt: FileHash)
    requires proof.envelope.PacketEnvelope? && proof.envelope.packet in s.packets
    ensures !NewlyRejected(s, AuthorizedStore(s, proof, d, receipt))
  {
    hide NewApproval;
  }

  lemma RejectedAuthority(s: Store, proof: SignedOperation, receipt: FileHash, t: Store)
    requires proof.envelope.PacketEnvelope? && CommitAuthority(s, proof, receipt) == Some(t) && NewlyRejected(s, t)
    ensures GovernedState(t) == GovernedState(s)
  {
    hide TransactionDecision, ReleaseApproved, Consumable, AuthorizedStore, Adjudicate, GovernedState, NewlyRejected, PacketEvent;
    var e := proof.envelope;
    var row := s.packets[e.packet];
    var d := TransactionDecision(s, e, row.state, row);
    AcceptedAuthority(s, proof, d, receipt);
    AdjudicationGoverned(s, PacketEvent(proof, d, false, row.state, e.manifest, Some(receipt)), proof);
  }

  lemma AdjudicationGoverned(s: Store, e: Event, proof: SignedOperation)
    ensures GovernedState(Adjudicate(s, e, proof)) == GovernedState(s)
  {
  }

  lemma AcceptedPolicy(s: Store, proof: SignedOperation, d: Decision)
    requires proof.envelope.PolicyEnvelope?
    ensures !NewlyRejected(s, GrantedStore(s, proof, d))
    ensures proof.envelope.revocation.Some? ==> !NewlyRejected(s, RevokedStore(s, proof, d))
  {
    hide NewGrant;
  }

  lemma RejectedPolicy(s: Store, proof: SignedOperation, t: Store)
    requires proof.envelope.PolicyEnvelope? && CommitPolicy(s, proof) == Some(t) && NewlyRejected(s, t)
    ensures GovernedState(t) == GovernedState(s)
  {
    hide PolicyDecision, GrantInsertable, RevocationTaken, Consumable, GrantedStore, RevokedStore, Adjudicate, GovernedState, NewGrant, NewlyRejected;
    var d := PolicyDecision(s, proof.envelope);
    AcceptedPolicy(s, proof, d);
    AdjudicationGoverned(s, PolicyEvent(proof, d, false), proof);
  }

  lemma RejectedManagement(s: Store, proof: SignedOperation, t: Store)
    requires proof.envelope.BindingEnvelope? || proof.envelope.ExecutorEnvelope?
    requires CommitManagement(s, proof) == Some(t) && NewlyRejected(s, t)
    ensures GovernedState(t) == GovernedState(s)
  {
    hide ManagementDecision, AlreadyRegistered, Consumable, GovernedState;
    var d := ManagementDecision(s, proof.envelope);
    AdjudicationGoverned(s, ManagementEvent(proof, Verified(proof), d.status == Allowed, d), proof);
  }

  /** A rejected attempt changes nothing but the log and, when its proof verified, the consumed
      proofs. */
  lemma RejectedKeepsGoverned(s: Store, files: Files, p: Pending)
    requires PendingOk(s, p)
    requires NewlyRejected(s, Outcome(s, files, p))
    ensures GovernedState(Outcome(s, files, p)) == GovernedState(s)
    ensures !Outcome(s, files, p).log[|s.log|].authentication.Verified? ==> Outcome(s, files, p).operations == s.operations
  {
    hide PendingOk, CommitAuthority, CommitPolicy, CommitManagement, CommitCandidate, CommitPacketStep, CreateExternalEffect,
         ClaimExternalEffect, RecordExecutorResult, Grows, Adjudicates, UnprovenForm, TransactionDecision;
    PendingTyped(s, p);
    CommitShape(s, files, p);
    CommitLogStep(s, files, p);
    match p
    case AuthorityCommit(proof, receipt) => if CommitAuthority(s, proof, receipt).Some? { RejectedAuthority(s, proof, receipt, Outcome(s, files, p)); }
    case PolicyCommit(proof) => if CommitPolicy(s, proof).Some? { RejectedPolicy(s, proof, Outcome(s, files, p)); }
    case ManagementCommit(proof) => if CommitManagement(s, proof).Some? { RejectedManagement(s, proof, Outcome(s, files, p)); }
    case _ =>
  }

  lemma PendingTyped(s: Store, p: Pending)
    requires PendingOk(s, p)
    ensures Typed(p)
  {
  }

  // ---------------------------------------------------------------- decisions of the moment

  /** Temporal authorization: in every reachable store, an event that records an allowed
      decision, other than the policy bootstrap, names the earliest grant that was in force when
      it was appended, for the same principal, capability, state pair and, for packets, exact
      scope; and every accepted signed event records an allowed decision. */
  lemma TemporalAuthorization(steps: seq<Step>, k: Sequence)
    requires var s := Run(START, steps).store; Recorded(s, k) && At(s, k).authentication.Verified? && At(s, k).command != Policy(Bootstrap)
    ensures var s := Run(START, steps).store;
      && (At(s, k).accepted ==> AllowedAt(s, k))
      && (AllowedAt(s, k) ==> exists g :: EarliestAuthorizedBy(s, k, g) && At(s, k).authorization.value.grant == Some(g.id))
  {
    hide Run;
    var s := Reached(steps);
    if AllowedAt(s, k) { AllowedIsAuthorized(s, k); }
  }

  /** Multi-writer safety: whatever writers read and however long they waited, an allowed decision is the evaluation of the store its transaction found, which is any
      earlier system of the run with exactly the preceding events. */
  lemma DecidedAtCommit(steps: seq<Step>, later: seq<Step>, k: Sequence)
    requires var s, t := Run(START, steps).store, Run(Run(START, steps), later).store;
      NextSequence(s) == k && AllowedAt(t, k)
    ensures var s, t := Run(START, steps).store, Run(Run(START, steps), later).store;
      AuthorizedOn(View(s), At(t, k))
  {
    hide Run, AuthorizedOn, ViewBefore, ConsumptionInv, FormsInv, PolicyInv, PacketInv, EffectInv;
    var s := Reached(steps);
    RunConcat(START, steps, later);
    var t := Reached(steps + later);
    RunGrows(Run(START, steps), later);
    ViewBeforeStable(s, t, k);
    ViewBeforeNow(s);
  }

  lemma {:induction false} RunConcat(y: System, a: seq<Step>, b: seq<Step>)
    ensures Run(Run(y, a), b) == Run(y, a + b)
    decreases |b|
  {
    if b == [] {
      assert a + b == a;
    } else {
      var n := |b| - 1;
      RunConcat(y, a, b[..n]);
      assert (a + b)[..|a + b| - 1] == a + b[..n];
    }
  }

  // ---------------------------------------------------------------- the policy keeps an administrator

  /** Bootstrap is accepted at most once in any run. */
  lemma BootstrapAtMostOnce(steps: seq<Step>, j: Sequence, k: Sequence)
    requires AcceptedBootstrap(Run(START, steps).store, j) && AcceptedBootstrap(Run(START, steps).store, k)
    ensures j == k
  {
    hide Run;
    var s := Reached(steps);
  }

  predicate CanManage(s: Store, principal: PrincipalId) {
    principal in s.principals && Evaluate(View(s), PolicyQuery(principal, PolicyManageCapabilities)).status == Allowed
  }

  /** In every store after the bootstrap, the evaluator lets some trusted principal manage the policy. */
  lemma AdministratorRemains(steps: seq<Step>)
    requires Run(START, steps).store.policy.Some?
    ensures exists p :: CanManage(Run(START, steps).store, p)
  {
    hide Run, ConsumptionInv, FormsInv, CommitTimeInv, PacketInv, EffectInv, Evaluate;
    var s := Reached(steps);
    AdministratorOf(s);
  }

  lemma AdministratorOf(s: Store)
    requires PolicyInv(s) && s.policy.Some?
    ensures exists p :: CanManage(s, p)
  {
    hide Evaluate, RevocationSound, BootstrapSound, CanonicalColumns, AcceptedBootstrap;
    var g :| g in s.grants && g.capability == PolicyManageCapabilities && g.id !in s.revocations;
    assert GrantSound(s, g);
    var q := PolicyQuery(g.subject, PolicyManageCapabilities);
    EvaluatorExact(View(s), q);
    assert Authorizes(View(s), q, g);
    assert CanManage(s, g.subject);
  }

  // ---------------------------------------------------------------- packets

  predicate AcceptedFor(s: Store, k: Sequence, packet: PacketId, operation: AuthorityOperation) {
    Recorded(s, k) && IsAuthority(At(s, k), packet) && At(s, k).command == Authority(operation)
  }

  /** An approval and, later, the release naming it, both for the packet's manifest and scope. */
  ghost predicate ReleasedOnce(s: Store, packet: PacketId, a: Sequence, r: Sequence)
    requires packet in s.packets
  {
    var row := s.packets[packet];
    && a < r
    && (forall k, operation :: AcceptedFor(s, k, packet, operation) <==> (k == a && operation == Approve) || (k == r && operation == Release))
    && Adjudicated(s.log, a, packet, row, Approve) && Adjudicated(s.log, r, packet, row, Release)
    && At(s, r).identifiers.approval == At(s, a).identifiers.approval && At(s, r).identifiers.approvalEvent == Some(a)
    && At(s, r).receipt == At(s, a).receipt
  }

  /** Release provenance: every released packet has exactly one accepted approve event and,
      later, exactly one accepted release event, and no other accepted authority event. */
  lemma ReleaseProvenance(steps: seq<Step>, packet: PacketId)
    requires var s := Run(START, steps).store; packet in s.packets && s.packets[packet].state == WorkflowState.Released
    ensures exists a, r :: ReleasedOnce(Run(START, steps).store, packet, a, r)
  {
    hide Run, ConsumptionInv, FormsInv, PolicyInv, CommitTimeInv, EffectInv, HistoriesBounded, Paired, OnePacketEach, Trail, ApprovalsFor;
    var s := Reached(steps);
    var row := s.packets[packet];
    assert TrailOk(s.log, s.approvals, packet, row);
    TrailExact(s.log, packet);
    var trail := Trail(s.log, packet);
    assert trail == [trail[0], trail[1]];
    forall k: Sequence, operation
      ensures AcceptedFor(s, k, packet, operation) <==> (k == trail[0] && operation == Approve) || (k == trail[1] && operation == Release)
    {
      if AcceptedFor(s, k, packet, operation) { assert IsAuthority(EventAt(s.log, k), packet); assert k in trail; }
    }
    assert ReleasedOnce(s, packet, trail[0], trail[1]);
  }

  /** Workflow shape: a packet and its candidate are always in the same state, a candidate has
      at most one packet, a packet at most one approval, and no candidate ever moves more than
      eight times. */
  lemma WorkflowShape(steps: seq<Step>)
    ensures var s := Run(START, steps).store;
      && Paired(s) && OnePacketEach(s) && HistoriesBounded(s)
      && (forall a, b :: a in s.approvals && b in s.approvals && a.packet == b.packet ==> a == b)
      && (forall c :: Moves(s.log, c) <= 8)
  {
    hide Run, ConsumptionInv, FormsInv, PolicyInv, CommitTimeInv, EffectInv, Moves, Trail, ApprovalsFor;
    var s := Reached(steps);
    forall a, b | a in s.approvals && b in s.approvals && a.packet == b.packet
      ensures a == b
    {
      ApprovalsExact(s.approvals, a.packet);
      OneApproval(s, a.packet);
      var rows := ApprovalsFor(s.approvals, a.packet);
      assert a in rows && b in rows;
    }
  }

  lemma OneApproval(s: Store, packet: PacketId)
    requires PacketInv(s)
    ensures |ApprovalsFor(s.approvals, packet)| <= 1
  {
    hide HistoriesBounded, Paired, OnePacketEach, Trail, ApprovalsFor, Approves, Adjudicated;
    if packet in s.packets { assert TrailOk(s.log, s.approvals, packet, s.packets[packet]); }
  }

  // ---------------------------------------------------------------- effects

  /** At most once: in every reachable store an effect's claims are numbered 1..n in chain
      order, all but the last ended earlier in a retry-permitted failure, at most the last is
      unresolved, and at most one result may have had its effect. */
  lemma AtMostOnceEffect(steps: seq<Step>, effect: EffectId)
    ensures var s := Run(START, steps).store; AtMostOnce(s.dispatches, s.results, effect)
  {
    hide Run, ConsumptionInv, FormsInv, PolicyInv, CommitTimeInv, PacketInv, SafelyRetried, AtMostOnce, RequestSound, ClaimSound, DistinctClaims, DistinctRequests;
    var s := Reached(steps);
    forall id | id in s.results ensures ValidResult(s.results[id].proof.envelope) { assert ResultSound(s, id); }
    SafeRetriesAreAtMostOnce(s.dispatches, s.results, effect);
  }
}
