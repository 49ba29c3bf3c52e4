/** Packets, their candidates, approvals and authority events over every run. */
module PacketRuns {
  import opened Models
  import opened Authorization
  import opened Ledger
  import opened Writers
  import opened System
  import opened Consumption

  // ---------------------------------------------------------------- a packet's authority events

  function EventAt(log: seq<Event>, k: Sequence): Event
    requires 1 <= k <= |log|
  {
    log[k - 1]
  }

  predicate IsAuthority(e: Event, packet: PacketId) {
    e.accepted && e.command.Authority? && e.packet == Some(packet)
  }

  /** The sequences of the packet's accepted authority events, in order. */
  function Trail(log: seq<Event>, packet: PacketId): seq<Sequence> {
    if log == [] then []
    else Trail(log[..|log| - 1], packet) + (if IsAuthority(log[|log| - 1], packet) then [|log|] else [])
  }

  function ApprovalsFor(approvals: seq<ApprovalRow>, packet: PacketId): seq<ApprovalRow> {
    if approvals == [] then []
    else
      var last := approvals[|approvals| - 1];
      ApprovalsFor(approvals[..|approvals| - 1], packet) + (if last.packet == packet then [last] else [])
  }

  lemma TrailAppend(log: seq<Event>, e: Event, packet: PacketId)
    ensures Trail(log + [e], packet) == Trail(log, packet) + (if IsAuthority(e, packet) then [|log| + 1] else [])
  {
    assert (log + [e])[..|log|] == log;
  }

  lemma ApprovalsAppend(approvals: seq<ApprovalRow>, a: ApprovalRow, packet: PacketId)
    ensures ApprovalsFor(approvals + [a], packet) == ApprovalsFor(approvals, packet) + (if a.packet == packet then [a] else [])
  {
    assert (approvals + [a])[..|approvals|] == approvals;
  }

  /** The trail lists exactly the packet's accepted authority events. */
  lemma {:induction false} TrailExact(log: seq<Event>, packet: PacketId)
    ensures forall k: Sequence :: k in Trail(log, packet) <==> 1 <= k <= |log| && IsAuthority(EventAt(log, k), packet)
  {
    if log != [] {
      var n := |log| - 1;
      TrailExact(log[..n], packet);
      assert forall k: Sequence :: 1 <= k <= n ==> EventAt(log[..n], k) == EventAt(log, k);
    }
  }

  lemma {:induction false} ApprovalsExact(approvals: seq<ApprovalRow>, packet: PacketId)
    ensures forall a :: a in ApprovalsFor(approvals, packet) <==> a in approvals && a.packet == packet
  {
    if approvals != [] {
      var n := |approvals| - 1;
      ApprovalsExact(approvals[..n], packet);
      assert approvals == approvals[..n] + [approvals[n]];
    }
  }

  /** An accepted authority event for exactly this packet's candidate, manifest and scope. */
  predicate Adjudicated(log: seq<Event>, k: Sequence, packet: PacketId, row: Packet, operation: AuthorityOperation) {
    && 1 <= k <= |log|
    && var e := EventAt(log, k);
       && IsAuthority(e, packet) && e.command == Authority(operation)
       && e.candidate == Some(row.candidate) && e.governed == Manifest(row.manifest) && e.receipt.Some?
       && e.prior == Some(PriorOf(operation)) && e.requested == Some(RequestedOf(operation)) && e.resulting == e.requested
       && row.scope.Some? && e.authentication.Verified?
       && e.authentication.proof.envelope.PacketEnvelope?
       && e.identifiers == PacketIdentifiersOf(e.authentication.proof.envelope)
       && e.authentication.proof.envelope.scope == row.scope
  }

  /** The approval row was written by this event. */
  predicate Approves(log: seq<Event>, a: ApprovalRow, packet: PacketId, row: Packet, operation: AuthorityOperation) {
    && Adjudicated(log, a.event, packet, row, operation)
    && a.packet == packet && a.decision == DecisionOf(operation) && a.manifest == row.manifest && a.scope == row.scope
    && EventAt(log, a.event).identifiers.PacketIdentifiers? && EventAt(log, a.event).identifiers.approval == a.id
  }

  /** What a packet's state says about its authority events and approvals. */
  predicate TrailOk(log: seq<Event>, approvals: seq<ApprovalRow>, packet: PacketId, row: Packet) {
    var trail, rows := Trail(log, packet), ApprovalsFor(approvals, packet);
    match row.state
    case PacketGenerated => trail == [] && rows == []
    case AwaitingApproval => trail == [] && rows == []
    case Approved => |rows| == 1 && trail == [rows[0].event] && Approves(log, rows[0], packet, row, Approve)
    case Rejected => |rows| == 1 && trail == [rows[0].event] && Approves(log, rows[0], packet, row, Reject)
    case Released =>
      && |rows| == 1 && |trail| == 2 && trail[0] == rows[0].event && trail[0] < trail[1]
      && Approves(log, rows[0], packet, row, Approve)
      && Adjudicated(log, trail[1], packet, row, Release)
      && EventAt(log, trail[1]).identifiers.approval == rows[0].id
      && EventAt(log, trail[1]).identifiers.approvalEvent == Some(rows[0].event)
      && EventAt(log, trail[1]).receipt == EventAt(log, trail[0]).receipt
    case _ => false
  }

  lemma TrailOkStable(log: seq<Event>, later: seq<Event>, approvals: seq<ApprovalRow>, more: seq<ApprovalRow>, packet: PacketId, row: Packet)
    requires TrailOk(log, approvals, packet, row) && log <= later
    requires Trail(later, packet) == Trail(log, packet) && ApprovalsFor(more, packet) == ApprovalsFor(approvals, packet)
    ensures TrailOk(later, more, packet, row)
  {
    assert forall k: Sequence :: 1 <= k <= |log| ==> EventAt(later, k) == EventAt(log, k);
  }

  // ---------------------------------------------------------------- a candidate's history

  /** Steps left at most. */
  function Potential(state: WorkflowState): nat {
    match state
    case Discovered => 8
    case EvidencePreserved => 7
    case Normalized => 6
    case DuplicateChecked => 5
    case Qualified => 4
    case PacketGenerated => 3
    case AwaitingApproval => 2
    case Approved => 1
    case _ => 0
  }

  /** TRANSITIONS only ever moves down. */
  lemma TransitionsDescend(prior: WorkflowState, requested: WorkflowState)
    requires requested in Successors(prior)
    ensures Potential(requested) < Potential(prior)
  {
  }

  predicate IsTransition(e: Event, candidate: CandidateId) {
    e.accepted && (e.command == Workflow || e.command.Authority?) && e.candidate == Some(candidate)
  }

  /** How often the candidate has moved. */
  function Moves(log: seq<Event>, candidate: CandidateId): nat {
    if log == [] then 0
    else Moves(log[..|log| - 1], candidate) + (if IsTransition(log[|log| - 1], candidate) then 1 else 0)
  }

  lemma MovesAppend(log: seq<Event>, e: Event, candidate: CandidateId)
    ensures Moves(log + [e], candidate) == Moves(log, candidate) + (if IsTransition(e, candidate) then 1 else 0)
  {
    assert (log + [e])[..|log|] == log;
  }

  // ---------------------------------------------------------------- the invariant

  ghost predicate Paired(s: Store) {
    forall p :: p in s.packets ==> s.packets[p].candidate in s.candidates && s.candidates[s.packets[p].candidate] == s.packets[p].state
  }

  ghost predicate OnePacketEach(s: Store) {
    forall p, q :: p in s.packets && q in s.packets && s.packets[p].candidate == s.packets[q].candidate ==> p == q
  }

  ghost predicate TrailsOk(s: Store) {
    && (forall p :: p in s.packets ==> TrailOk(s.log, s.approvals, p, s.packets[p]))
    && (forall p :: p !in s.packets ==> Trail(s.log, p) == [] && ApprovalsFor(s.approvals, p) == [])
  }

  ghost predicate DistinctApprovals(approvals: seq<ApprovalRow>) {
    forall i, j :: 0 <= i < j < |approvals| ==> approvals[i].id != approvals[j].id
  }

  ghost predicate HistoriesBounded(s: Store) {
    && (forall c :: c in s.candidates ==> Moves(s.log, c) + Potential(s.candidates[c]) <= Potential(Discovered))
    && (forall c :: c !in s.candidates ==> Moves(s.log, c) == 0)
  }

  ghost predicate PacketInv(s: Store) {
    Paired(s) && OnePacketEach(s) && TrailsOk(s) && HistoriesBounded(s) && DistinctApprovals(s.approvals)
  }

  // ---------------------------------------------------------------- one transaction

  /** The candidate of an appended transition moved along TRANSITIONS; nothing else did. */
  ghost predicate MovesOne(s: Store, t: Store, e: Event, c: CandidateId) {
    && t.log == s.log + [e] && IsTransition(e, c)
    && c in s.candidates && c in t.candidates && t.candidates[c] in Successors(s.candidates[c])
    && t.candidates == s.candidates[c := t.candidates[c]]
  }

  lemma OneMoveBounded(s: Store, t: Store, e: Event, c: CandidateId)
    requires HistoriesBounded(s) && MovesOne(s, t, e, c)
    ensures HistoriesBounded(t)
  {
    hide Potential, Successors;
    TransitionsDescend(s.candidates[c], t.candidates[c]);
    forall d
      ensures Moves(t.log, d) == Moves(s.log, d) + if d == c then 1 else 0
    {
      MovesAppend(s.log, e, d);
    }
  }

  /** The new event is nobody's authority event and nobody's transition. */
  ghost predicate Inert(s: Store, t: Store) {
    t.log == s.log || exists e :: t.log == s.log + [e] && !(e.accepted && (e.command == Workflow || e.command.Authority?))
  }

  lemma InertKeeps(s: Store, t: Store)
    requires PacketInv(s) && SamePackets(s, t) && Inert(s, t) && s.log <= t.log
    ensures PacketInv(t)
  {
    hide TrailOk;
    forall p
      ensures Trail(t.log, p) == Trail(s.log, p)
    {
      if t.log != s.log { TrailAppend(s.log, t.log[|s.log|], p); assert t.log == s.log + [t.log[|s.log|]]; }
    }
    forall c
      ensures Moves(t.log, c) == Moves(s.log, c)
    {
      if t.log != s.log { MovesAppend(s.log, t.log[|s.log|], c); assert t.log == s.log + [t.log[|s.log|]]; }
    }
    forall p | p in s.packets
      ensures TrailOk(t.log, t.approvals, p, t.packets[p])
    {
      TrailOkStable(s.log, t.log, s.approvals, t.approvals, p, s.packets[p]);
    }
  }

  // ---------------------------------------------------------------- workflow steps

  lemma TrailUnmoved(s: Store, t: Store, e: Event, p: PacketId)
    requires t.log == s.log + [e] && !IsAuthority(e, p) && t.approvals == s.approvals
    requires p in s.packets ==> TrailOk(s.log, s.approvals, p, s.packets[p])
    requires p !in s.packets ==> Trail(s.log, p) == [] && ApprovalsFor(s.approvals, p) == []
    ensures p in s.packets ==> TrailOk(t.log, t.approvals, p, s.packets[p])
    ensures Trail(t.log, p) == Trail(s.log, p)
  {
    hide TrailOk;
    TrailAppend(s.log, e, p);
    if p in s.packets { TrailOkStable(s.log, t.log, s.approvals, t.approvals, p, s.packets[p]); }
  }

  lemma NonAuthorityKeepsTrails(s: Store, t: Store, e: Event)
    requires TrailsOk(s) && t.log == s.log + [e] && !e.command.Authority? && t.approvals == s.approvals
    requires forall p :: p in t.packets && !(p in s.packets && t.packets[p] == s.packets[p]) ==>
               && t.packets[p].state in {PacketGenerated, AwaitingApproval}
               && (p in s.packets ==> s.packets[p].state in {PacketGenerated, AwaitingApproval})
    requires forall p :: p in s.packets ==> p in t.packets
    ensures TrailsOk(t)
  {
    forall p
      ensures p in t.packets ==> TrailOk(t.log, t.approvals, p, t.packets[p])
      ensures p !in t.packets ==> Trail(t.log, p) == [] && ApprovalsFor(t.approvals, p) == []
    {
      TrailUnmoved(s, t, e, p);
    }
  }

  /** A candidate step of a shipped caller; only the packet it generates changes. */
  lemma CandidateKeeps(s: Store, candidate: CandidateId, prior: WorkflowState, requested: WorkflowState, generated: Option<NewPacket>)
    requires PacketInv(s) && PendingOk(s, CandidateCommit(candidate, prior, requested, generated))
    requires CommitCandidate(s, candidate, prior, requested, generated).Some?
    ensures PacketInv(CommitCandidate(s, candidate, prior, requested, generated).value)
  {
    hide TrailOk, TrailsOk, HistoriesBounded, Potential, PendingOk, CommitCandidate, MovesOne, Successors, Paired, OnePacketEach;
    var t := CommitCandidate(s, candidate, prior, requested, generated).value;
    CandidateMoved(s, candidate, prior, requested, generated);
    OneMoveBounded(s, t, t.log[|s.log|], candidate);
    CandidateWithoutPacket(s, candidate);
    CandidatePairs(s, candidate, prior, requested, generated);
    NonAuthorityKeepsTrails(s, t, t.log[|s.log|]);
  }

  /** What a shipped candidate step does. */
  lemma CandidateMoved(s: Store, candidate: CandidateId, prior: WorkflowState, requested: WorkflowState, generated: Option<NewPacket>)
    requires PendingOk(s, CandidateCommit(candidate, prior, requested, generated))
    requires CommitCandidate(s, candidate, prior, requested, generated).Some?
    ensures var t := CommitCandidate(s, candidate, prior, requested, generated).value;
      && |t.log| == |s.log| + 1 && MovesOne(s, t, t.log[|s.log|], candidate) && !t.log[|s.log|].command.Authority?
      && t.approvals == s.approvals && s.candidates[candidate] == prior && t.candidates[candidate] == requested
      && (forall p :: p in s.packets ==> p in t.packets && t.packets[p] == s.packets[p])
      && (forall p :: p in t.packets && p !in s.packets ==> t.packets[p].candidate == candidate && t.packets[p].state == PacketGenerated
                                                            && generated.Some? && p == generated.value.id)
      && prior in {Discovered, EvidencePreserved, Normalized, DuplicateChecked, Qualified}
      && (generated.Some? ==> requested == PacketGenerated)
  {
  }

  lemma CandidatePairs(s: Store, candidate: CandidateId, prior: WorkflowState, requested: WorkflowState, generated: Option<NewPacket>)
    requires Paired(s) && OnePacketEach(s) && PendingOk(s, CandidateCommit(candidate, prior, requested, generated))
    requires CommitCandidate(s, candidate, prior, requested, generated).Some?
    requires candidate in s.candidates
    requires forall p :: p in s.packets && s.packets[p].candidate == candidate ==>
               s.candidates[candidate] in {PacketGenerated, AwaitingApproval, Approved, Rejected, Released}
    ensures var t := CommitCandidate(s, candidate, prior, requested, generated).value; Paired(t) && OnePacketEach(t)
  {
    hide PendingOk, CommitCandidate, Successors;
    CandidateMoved(s, candidate, prior, requested, generated);
  }

  /** A candidate that has a packet is past every state a shipped candidate step starts from. */
  lemma CandidateWithoutPacket(s: Store, candidate: CandidateId)
    requires Paired(s) && TrailsOk(s) && candidate in s.candidates
    ensures forall p :: p in s.packets && s.packets[p].candidate == candidate ==>
              s.candidates[candidate] in {PacketGenerated, AwaitingApproval, Approved, Rejected, Released}
  {
    forall p | p in s.packets && s.packets[p].candidate == candidate
      ensures s.candidates[candidate] in {PacketGenerated, AwaitingApproval, Approved, Rejected, Released}
    {
      assert TrailOk(s.log, s.approvals, p, s.packets[p]);
    }
  }

  lemma PacketStepKeeps(s: Store, packet: PacketId, candidate: CandidateId, prior: WorkflowState, requested: WorkflowState, receipt: FileHash)
    requires PacketInv(s) && PendingOk(s, PacketCommit(packet, candidate, prior, requested, receipt))
    requires CommitPacketStep(s, packet, candidate, prior, requested, receipt).Some?
    ensures PacketInv(CommitPacketStep(s, packet, candidate, prior, requested, receipt).value)
  {
    hide TrailOk, TrailsOk, HistoriesBounded, Potential, PendingOk, CommitPacketStep, MovesOne, Successors;
    var t := CommitPacketStep(s, packet, candidate, prior, requested, receipt).value;
    CandidateState(s, packet, candidate, prior, requested, receipt);
    CandidateWithoutPacket(s, candidate);
    PacketMoved(s, packet, candidate, prior, requested, receipt);
    OneMoveBounded(s, t, t.log[|s.log|], candidate);
    NonAuthorityKeepsTrails(s, t, t.log[|s.log|]);
  }

  lemma CandidateState(s: Store, packet: PacketId, candidate: CandidateId, prior: WorkflowState, requested: WorkflowState, receipt: FileHash)
    requires CommitPacketStep(s, packet, candidate, prior, requested, receipt).Some?
    ensures packet in s.packets && candidate in s.candidates && s.packets[packet].candidate == candidate
    ensures s.packets[packet].state == prior && s.candidates[candidate] == prior
  {
  }

  /** The only packet step left to workflow callers is from PACKET_GENERATED to AWAITING_APPROVAL. */
  lemma PacketMoved(s: Store, packet: PacketId, candidate: CandidateId, prior: WorkflowState, requested: WorkflowState, receipt: FileHash)
    requires PendingOk(s, PacketCommit(packet, candidate, prior, requested, receipt))
    requires CommitPacketStep(s, packet, candidate, prior, requested, receipt).Some?
    requires prior in {PacketGenerated, AwaitingApproval, Approved, Rejected, Released}
    ensures var t := CommitPacketStep(s, packet, candidate, prior, requested, receipt).value;
      && |t.log| == |s.log| + 1 && MovesOne(s, t, t.log[|s.log|], candidate) && !t.log[|s.log|].command.Authority?
      && t.approvals == s.approvals && prior == PacketGenerated && requested == AwaitingApproval
      && t.packets == s.packets[packet := s.packets[packet].(state := AwaitingApproval)]
      && t.candidates == s.candidates[candidate := AwaitingApproval]
  {
  }

  // ---------------------------------------------------------------- authority commits

  /** What an accepted authority commit found true of the store it committed to. */
  ghost predicate AuthorityGuard(s: Store, proof: SignedOperation) {
    && proof.envelope.PacketEnvelope?
    && var e := proof.envelope;
       && CanonicalSemantics(e)
       && e.packet in s.packets && e.candidate in s.candidates
       && var row := s.packets[e.packet];
          && row.candidate == e.candidate && row.state == e.expectedPrior && row.manifest == e.manifest
          && s.candidates[e.candidate] == row.state && row.scope.Some? && e.scope == row.scope
          && (e.operation.Release? ==> ReleaseApproved(s, e, row))
          && (!e.operation.Release? ==> forall a :: a in s.approvals ==> a.id != e.approval)
  }

  lemma DeniedInert(s: Store, proof: SignedOperation, d: Decision, receipt: FileHash)
    requires proof.envelope.PacketEnvelope? && proof.envelope.packet in s.packets
    ensures var e := proof.envelope;
      var t := Adjudicate(s, PacketEvent(proof, d, false, s.packets[e.packet].state, e.manifest, Some(receipt)), proof);
      SamePackets(s, t) && Inert(s, t)
  {
  }

  lemma AuthorityAccepted(s: Store, proof: SignedOperation, receipt: FileHash)
    requires PendingOk(s, AuthorityCommit(proof, receipt)) && CommitAuthority(s, proof, receipt).Some?
    requires !SamePackets(s, CommitAuthority(s, proof, receipt).value) || !Inert(s, CommitAuthority(s, proof, receipt).value)
    ensures AuthorityGuard(s, proof)
    ensures proof.envelope.packet in s.packets
    ensures exists d :: CommitAuthority(s, proof, receipt) == Some(AuthorizedStore(s, proof, d, receipt))
  {
    hide Consumable, ReleaseApproved, NewApproval, Evaluate, ApprovedReceipt;
    var row := s.packets[proof.envelope.packet];
    var d := TransactionDecision(s, proof.envelope, row.state, row);
    if d.status != Allowed { DeniedInert(s, proof, d, receipt); }
    assert CommitAuthority(s, proof, receipt) == Some(AuthorizedStore(s, proof, d, receipt));
  }

  lemma NewAuthorityEvent(s: Store, proof: SignedOperation, d: Decision, receipt: FileHash)
    requires AuthorityGuard(s, proof)
    ensures var t := AuthorizedStore(s, proof, d, receipt); var e := proof.envelope;
      && t.log == s.log + [PacketEvent(proof, d, true, s.packets[e.packet].state, e.manifest, Some(receipt))]
      && Adjudicated(t.log, NextSequence(s), e.packet, s.packets[e.packet], e.operation)
      && MovesOne(s, t, EventAt(t.log, NextSequence(s)), e.candidate)
      && Trail(t.log, e.packet) == Trail(s.log, e.packet) + [NextSequence(s)]
  {
    hide ReleaseApproved, NewApproval, Trail;
    var e := proof.envelope;
    TrailAppend(s.log, PacketEvent(proof, d, true, s.packets[e.packet].state, e.manifest, Some(receipt)), e.packet);
  }

  /** Approving or rejecting starts the packet's trail and writes its only approval row. */
  lemma DecisionStartsTrail(s: Store, proof: SignedOperation, d: Decision, receipt: FileHash)
    requires AuthorityGuard(s, proof) && TrailsOk(s) && !proof.envelope.operation.Release?
    ensures var t := AuthorizedStore(s, proof, d, receipt); var p := proof.envelope.packet;
      TrailOk(t.log, t.approvals, p, t.packets[p])
  {
    hide Trail, ApprovalsFor;
    var e := proof.envelope;
    var t := AuthorizedStore(s, proof, d, receipt);
    NewAuthorityEvent(s, proof, d, receipt);
    ApprovalsAppend(s.approvals, NewApproval(s, e), e.packet);
    assert TrailOk(s.log, s.approvals, e.packet, s.packets[e.packet]);
    assert EventAt(t.log, NextSequence(s)).identifiers.approval == e.approval;
    assert Approves(t.log, NewApproval(s, e), e.packet, t.packets[e.packet], e.operation);
    assert ApprovalsFor(t.approvals, e.packet) == [NewApproval(s, e)];
  }

  /** Releasing extends the trail of the approval it names. */
  lemma ReleaseEndsTrail(s: Store, proof: SignedOperation, d: Decision, receipt: FileHash)
    requires AuthorityGuard(s, proof) && TrailsOk(s) && proof.envelope.operation.Release?
    requires ApprovedReceipt(s, proof.envelope.approvalEvent, receipt)
    ensures var t := AuthorizedStore(s, proof, d, receipt); var p := proof.envelope.packet;
      TrailOk(t.log, t.approvals, p, t.packets[p])
  {
    hide Trail, ApprovalsFor;
    var e := proof.envelope;
    var p := e.packet;
    var row := s.packets[p];
    var t := AuthorizedStore(s, proof, d, receipt);
    NewAuthorityEvent(s, proof, d, receipt);
    assert TrailOk(s.log, s.approvals, p, row);
    var rows := ApprovalsFor(s.approvals, p);
    ApprovalsExact(s.approvals, p);
    var a :| a in s.approvals && a.packet == p && a.id == e.approval && a.decision == DecisionApproved
      && a.manifest == e.manifest && e.approvalEvent == Some(a.event) && a.scope == row.scope;
    assert a in rows && a == rows[0];
    assert EventAt(t.log, a.event) == EventAt(s.log, a.event);
    assert Approves(t.log, a, p, row, Approve);
  }

  lemma OtherTrailsKept(s: Store, proof: SignedOperation, d: Decision, receipt: FileHash, p: PacketId)
    requires AuthorityGuard(s, proof) && TrailsOk(s) && p != proof.envelope.packet
    ensures var t := AuthorizedStore(s, proof, d, receipt);
      if p in t.packets then TrailOk(t.log, t.approvals, p, t.packets[p])
      else Trail(t.log, p) == [] && ApprovalsFor(t.approvals, p) == []
  {
    hide TrailOk, ReleaseApproved, CanonicalSemantics, Trail, ApprovalsFor;
    var e := proof.envelope;
    var t := AuthorizedStore(s, proof, d, receipt);
    TrailAppend(s.log, t.log[|s.log|], p);
    ApprovalsAppend(s.approvals, NewApproval(s, e), p);
    if p in s.packets { TrailOkStable(s.log, t.log, s.approvals, t.approvals, p, s.packets[p]); }
  }

  lemma ApprovalsStayDistinct(s: Store, proof: SignedOperation, d: Decision, receipt: FileHash)
    requires DistinctApprovals(s.approvals) && AuthorityGuard(s, proof)
    ensures DistinctApprovals(AuthorizedStore(s, proof, d, receipt).approvals)
  {
    hide CanonicalSemantics, ReleaseApproved, PacketEvent;
  }

  lemma AcceptedAuthorityKeeps(s: Store, proof: SignedOperation, d: Decision, receipt: FileHash)
    requires PacketInv(s) && AuthorityGuard(s, proof)
    requires proof.envelope.operation.Release? ==> ApprovedReceipt(s, proof.envelope.approvalEvent, receipt)
    ensures PacketInv(AuthorizedStore(s, proof, d, receipt))
  {
    hide TrailOk, HistoriesBounded, MovesOne, Adjudicated, Trail, ApprovalsFor, ReleaseApproved, CanonicalSemantics, PacketEvent, NewApproval,
         ApprovedReceipt, DistinctApprovals;
    ApprovalsStayDistinct(s, proof, d, receipt);
    var e := proof.envelope;
    var t := AuthorizedStore(s, proof, d, receipt);
    NewAuthorityEvent(s, proof, d, receipt);
    OneMoveBounded(s, t, EventAt(t.log, NextSequence(s)), e.candidate);
    if e.operation.Release? { ReleaseEndsTrail(s, proof, d, receipt); } else { DecisionStartsTrail(s, proof, d, receipt); }
    forall p | p != e.packet
      ensures p in t.packets ==> TrailOk(t.log, t.approvals, p, t.packets[p])
      ensures p !in t.packets ==> Trail(t.log, p) == [] && ApprovalsFor(t.approvals, p) == []
    {
      OtherTrailsKept(s, proof, d, receipt, p);
    }
  }

  lemma AuthorityKeeps(s: Store, proof: SignedOperation, receipt: FileHash)
    requires PacketInv(s) && PendingOk(s, AuthorityCommit(proof, receipt)) && CommitAuthority(s, proof, receipt).Some?
    ensures PacketInv(CommitAuthority(s, proof, receipt).value)
  {
    hide PacketInv, CommitAuthority, AuthorizedStore, AuthorityGuard;
    var t := CommitAuthority(s, proof, receipt).value;
    AuthorityCommitted(s, proof, receipt);
    if SamePackets(s, t) && Inert(s, t) {
      InertKeeps(s, t);
    } else {
      if t.log != s.log { assert t.log == s.log + [t.log[|s.log|]]; }
      AuthorityAccepted(s, proof, receipt);
      var d :| CommitAuthority(s, proof, receipt) == Some(AuthorizedStore(s, proof, d, receipt));
      AcceptedAuthorityKeeps(s, proof, d, receipt);
    }
  }

  /** Every committed transaction keeps the packet invariant. */
  lemma PacketsKept(s: Store, files: Files, p: Pending)
    requires PacketInv(s) && PendingOk(s, p)
    ensures PacketInv(Outcome(s, files, p))
  {
    hide PacketInv, CommitAuthority, CommitCandidate, CommitPacketStep, CommitPolicy, CommitManagement, CommitRejection,
         CommitPolicyBindingRejection, CreateExternalEffect, ClaimExternalEffect, RecordExecutorResult, UnprovenForm, Inert, Grows;
    var t := Outcome(s, files, p);
    CommitShape(s, files, p);
    match p
    case AuthorityCommit(proof, receipt) => if CommitAuthority(s, proof, receipt).Some? { AuthorityKeeps(s, proof, receipt); }
    case CandidateCommit(c, prior, requested, generated) =>
      if CommitCandidate(s, c, prior, requested, generated).Some? { CandidateKeeps(s, c, prior, requested, generated); }
    case PacketCommit(packet, c, prior, requested, receipt) =>
      if CommitPacketStep(s, packet, c, prior, requested, receipt).Some? { PacketStepKeeps(s, packet, c, prior, requested, receipt); }
    case _ =>
      NewEventInert(s, t, p);
      InertKeeps(s, t);
  }

  lemma NewEventInert(s: Store, t: Store, p: Pending)
    requires PendingOk(s, p) && !WritesPackets(p) && Committed(s, t, p)
    ensures Inert(s, t) && s.log <= t.log
  {
    hide ReplayForm, Consumed, PolicyRowsLater, CanonicalPolicyEnvelope, CanonicalSemantics;
    if t != s { assert t.log == s.log + [t.log[|s.log|]]; }
  }

  lemma DiscoverKeeps(s: Store, candidate: CandidateId)
    requires PacketInv(s)
    ensures PacketInv(InsertCandidate(s, candidate))
  {
    hide TrailOk;
  }

  /** A packet with a recorded release is released, and stays so. */
  lemma ReleasedForGood(s: Store, packet: PacketId, k: Sequence)
    requires PacketInv(s) && packet in s.packets && Recorded(s, k) && IsRelease(At(s, k), packet)
    ensures s.packets[packet].state == WorkflowState.Released
  {
    hide HistoriesBounded, Paired, OnePacketEach, Trail, ApprovalsFor, PacketIdentifiersOf;
    TrailExact(s.log, packet);
    assert IsAuthority(EventAt(s.log, k), packet);
    assert k in Trail(s.log, packet);
    assert TrailOk(s.log, s.approvals, packet, s.packets[packet]);
  }
}
