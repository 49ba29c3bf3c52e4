/** Preparing, signing, mediating and committing one packet operation
    (authentication.py `prepare_operation`, transition_mediator.py, database.py). */
module Preparation {
  import opened Models
  import opened Authorization
  import opened Ledger
  import opened Writers
  import opened System
  import opened PacketRuns
  import opened ReceiptRuns
  import opened Runs

  /** `prepare_operation`; `id` and `approval` are the identifiers it generates. */
  function PrepareOperation(s: Store, files: Files, operation: AuthorityOperation, packet: PacketId, principal: PrincipalId,
                            now: int, id: OperationId, approval: ApprovalId): Option<Envelope> {
    if principal !in s.principals || packet !in s.packets then None
    else
      var row := s.packets[packet];
      if row.scope.None? || row.state != PriorOf(operation) then None
      else match Recompute(files, packet, row)
        case None => None
        case Some(a) =>
          if a.manifest != row.manifest then None
          else if !operation.Release? then
            Some(PreparedEnvelope(s, operation, packet, row, principal, now, id, a, approval, None))
          else
            var found := ApprovedApproval(s.approvals, packet);
            if found.None? || found.value.manifest != a.manifest || found.value.scope != row.scope then None
            else Some(PreparedEnvelope(s, operation, packet, row, principal, now, id, a, found.value.id, Some(found.value.event)))
  }

  function PreparedEnvelope(s: Store, operation: AuthorityOperation, packet: PacketId, row: Packet, principal: PrincipalId, now: int,
                            id: OperationId, a: Artifacts, approval: ApprovalId, approvalEvent: Option<Sequence>): Envelope
    requires principal in s.principals
  {
    PacketEnvelope(id, principal, s.principals[principal], now, now + DEFAULT_OPERATION_LIFETIME_SECONDS, operation, packet, row.candidate,
                   PriorOf(operation), RequestedOf(operation), a.manifest, a.receipt, DecisionOf(operation), approval, approvalEvent, row.scope)
  }

  /** Signing with the key the envelope names. */
  function Sign(e: Envelope): SignedOperation {
    SignedOperation(e, e.key, e)
  }

  /** The packet receipt on disk is still the one its approval evidenced. */
  predicate ReceiptAsApproved(s: Store, e: Envelope)
    requires e.PacketEnvelope?
  {
    e.operation.Release? ==>
      e.approvalEvent.Some? && Recorded(s, e.approvalEvent.value) && At(s, e.approvalEvent.value).receipt == Some(e.receipt)
  }

  /** The policy question the commit will ask. */
  function QuestionOf(e: Envelope): Query
    requires e.PacketEnvelope?
  {
    Query(e.principal, RequiredCapability(e.operation), Some(e.expectedPrior), Some(e.requested), e.scope)
  }

  lemma {:induction false} ApprovedIn(approvals: seq<ApprovalRow>, packet: PacketId)
    ensures var a := ApprovedApproval(approvals, packet);
      a.Some? ==> a.value in approvals && a.value.packet == packet && a.value.decision == DecisionApproved
  {
    if approvals != [] {
      var n := |approvals| - 1;
      ApprovedIn(approvals[..n], packet);
      assert approvals == approvals[..n] + [approvals[n]];
    }
  }

  /** A prepared envelope agrees with everything mediation compares it to. */
  ghost predicate Prepared(s: Store, files: Files, e: Envelope) {
    && e.PacketEnvelope? && CanonicalSemantics(e)
    && e.principal in s.principals && e.key == s.principals[e.principal]
    && e.expires == e.issued + DEFAULT_OPERATION_LIFETIME_SECONDS
    && e.packet in s.packets
    && var row := s.packets[e.packet];
       && row.state == e.expectedPrior && row.candidate == e.candidate && row.scope == e.scope && row.scope.Some?
       && row.manifest == e.manifest && Recompute(files, e.packet, row) == Some(Artifacts(e.manifest, e.receipt))
       && (e.operation.Release? ==>
             var found := ApprovedApproval(s.approvals, e.packet);
             && found.Some? && found.value.id == e.approval && e.approvalEvent == Some(found.value.event)
             && found.value.manifest == e.manifest && found.value.scope == row.scope)
  }

  lemma PreparationAgrees(s: Store, files: Files, operation: AuthorityOperation, packet: PacketId, principal: PrincipalId,
                          now: int, id: OperationId, approval: ApprovalId)
    ensures var r := PrepareOperation(s, files, operation, packet, principal, now, id, approval);
      r.Some? ==> Prepared(s, files, r.value) && r.value.operation == operation && r.value.packet == packet
                  && r.value.issued == now && r.value.id == id
                  && (!operation.Release? ==> r.value.approval == approval)
  {
    hide Recompute, ApprovedApproval;
  }

  lemma PairedState(s: Store, packet: PacketId)
    requires StoreInv(s) && packet in s.packets
    ensures var row := s.packets[packet]; row.candidate in s.candidates && s.candidates[row.candidate] == row.state
  {
  }

  /** What each operation must ask for: where it starts, where it leads, what it decides, and,
      unless it is a release, no earlier approval. */
  predicate AsksItsOwn(e: Envelope)
    requires e.PacketEnvelope?
  {
    match e.operation
    case Approve => (e.expectedPrior, e.requested, e.decision, e.approvalEvent) == (AwaitingApproval, WorkflowState.Approved, DecisionApproved, None)
    case Reject => (e.expectedPrior, e.requested, e.decision, e.approvalEvent) == (AwaitingApproval, Rejected, DecisionRejected, None)
    case Release => (e.expectedPrior, e.requested, e.decision) == (WorkflowState.Approved, WorkflowState.Released, DecisionApproved)
  }

  /** The adapter asserts nothing the request does not say. */
  predicate AdapterAgrees(e: Envelope, c: AdapterConstraints)
    requires e.PacketEnvelope?
  {
    (c.operation.Some? ==> c.operation.value == e.operation) && (c.packet.Some? ==> c.packet.value == e.packet) && c.reasonMatches
  }

  predicate ApprovedRow(a: ApprovalRow, packet: PacketId) {
    a.packet == packet && a.decision == DecisionApproved
  }

  /** The i-th approval row is the packet's last approved decision. */
  predicate LastApproved(approvals: seq<ApprovalRow>, packet: PacketId, i: int) {
    && 0 <= i < |approvals| && ApprovedRow(approvals[i], packet)
    && forall j :: i < j < |approvals| ==> !ApprovedRow(approvals[j], packet)
  }

  lemma {:induction false} ApprovedApprovalExact(approvals: seq<ApprovalRow>, packet: PacketId)
    ensures var a := ApprovedApproval(approvals, packet);
      if a.Some? then exists i :: LastApproved(approvals, packet, i) && approvals[i] == a.value
      else forall i :: 0 <= i < |approvals| ==> !ApprovedRow(approvals[i], packet)
  {
    if approvals != [] {
      var n := |approvals| - 1;
      ApprovedApprovalExact(approvals[..n], packet);
      if ApprovedRow(approvals[n], packet) {
        assert LastApproved(approvals, packet, n);
      } else if ApprovedApproval(approvals[..n], packet).Some? {
        var i :| LastApproved(approvals[..n], packet, i) && approvals[..n][i] == ApprovedApproval(approvals[..n], packet).value;
        assert LastApproved(approvals, packet, i);
      }
    }
  }

  /** The release names this approval, and the approval's event evidenced the release's receipt. */
  predicate NamedBy(s: Store, e: Envelope, a: ApprovalRow)
    requires e.PacketEnvelope?
  {
    && a.id == e.approval && Some(a.event) == e.approvalEvent && a.manifest == e.manifest
    && 1 <= a.event <= |s.log| && s.log[a.event - 1].receipt == Some(e.receipt)
  }

  /** The release names the packet's last approval. */
  ghost predicate NamesApproval(s: Store, e: Envelope)
    requires e.PacketEnvelope?
  {
    exists i :: LastApproved(s.approvals, e.packet, i) && NamedBy(s, e, s.approvals[i])
  }

  lemma ReleaseNamesApproval(s: Store, e: Envelope)
    requires e.PacketEnvelope?
    ensures ReleaseApprovalMatches(s, e, e.receipt) <==> NamesApproval(s, e)
  {
    hide ApprovedApproval, LastApproved;
    LastApprovedFound(s.approvals, e.packet);
  }

  /** The request meets its packet and candidate, both where its operation starts. */
  predicate MeetsPacket(s: Store, e: Envelope)
    requires e.PacketEnvelope?
  {
    && e.packet in s.packets && e.candidate in s.candidates
    && s.packets[e.packet].candidate == e.candidate && s.packets[e.packet].state == e.expectedPrior && s.candidates[e.candidate] == e.expectedPrior
  }

  /** The request agrees, in every field, with its operation, its packet and candidate, the
      packet's files as they are on disk, and, for a release, the approval it names and the
      packet receipt that approval evidenced. */
  ghost predicate Agrees(s: Store, files: Files, e: Envelope)
    requires e.PacketEnvelope?
  {
    && AsksItsOwn(e) && MeetsPacket(s, e)
    && s.packets[e.packet].manifest == e.manifest
    && IntactFiles(files, e.packet, s.packets[e.packet], Artifacts(e.manifest, e.receipt))
    && (e.operation.Release? ==> NamesApproval(s, e))
  }

  /** What a rejection reports of the files: nothing was read, or the manifest and packet receipt
      found when they, or the approval, were what disagreed. */
  ghost predicate ReportsFiles(s: Store, files: Files, e: Envelope, governed: FileHash, read: Option<FileHash>)
    requires e.PacketEnvelope? && e.packet in s.packets
  {
    var row := s.packets[e.packet];
    if exists a :: IntactFiles(files, e.packet, row, a) then
      var f := files[e.packet];
      && read == Some(f.receipt)
      && governed == (if row.manifest == e.manifest == f.manifest && e.receipt == f.receipt then e.manifest else f.manifest)
    else read.None? && governed == (if e.packet in files then files[e.packet].manifest else e.manifest)
  }

  /** Mediation exactness: an authenticated packet request goes on to its commit iff the adapter's
      assertions and everything it binds agree with the store and the files; otherwise its proof
      is consumed by a rejection recorded at the packet's current state, with what was found of
      the files if it came to that. */
  lemma MediationExact(s: Store, files: Files, proof: SignedOperation, c: AdapterConstraints)
    requires proof.envelope.PacketEnvelope?
    ensures var e := proof.envelope; var p := MediatePacket(s, files, proof, c);
      if AdapterAgrees(e, c) && Agrees(s, files, e) then p == AuthorityCommit(proof, e.receipt)
      else
        && p.AuthorityRejection? && p.proof == proof
        && p.prior == (if e.packet in s.packets then s.packets[e.packet].state else e.expectedPrior)
        && if AdapterAgrees(e, c) && AsksItsOwn(e) && MeetsPacket(s, e) then ReportsFiles(s, files, e, p.governed, p.read)
           else p.governed == e.manifest && p.read.None?
  {
    hide Recompute, ReleaseApprovalMatches, NamesApproval, IntactFiles;
    var e := proof.envelope;
    OwnSuccessor(e.operation);
    ReleaseNamesApproval(s, e);
    if e.packet in s.packets { RecomputeExact(files, e.packet, s.packets[e.packet]); FilesIntact(files, e.packet, s.packets[e.packet]); }
  }

  lemma FilesIntact(files: Files, id: PacketId, row: Packet)
    ensures forall a :: IntactFiles(files, id, row, a) ==> id in files && a == Artifacts(files[id].manifest, files[id].receipt)
  {
  }

  lemma OwnSuccessor(operation: AuthorityOperation)
    ensures RequestedOf(operation) in Successors(PriorOf(operation))
  {
  }

  /** The principal is registered, and the packet scoped, where the operation starts, and intact
      with its own manifest; for a release, its last approval is for that manifest and scope. */
  ghost predicate MayPrepare(s: Store, files: Files, operation: AuthorityOperation, packet: PacketId, principal: PrincipalId) {
    && principal in s.principals && packet in s.packets
    && var row := s.packets[packet];
       && row.scope.Some? && row.state == (if operation.Release? then WorkflowState.Approved else AwaitingApproval)
       && (exists a :: IntactFiles(files, packet, row, a) && a.manifest == row.manifest)
       && (operation.Release? ==> exists i :: LastApproved(s.approvals, packet, i) && ApprovesRow(s.approvals[i], row))
  }

  predicate ApprovesRow(a: ApprovalRow, row: Packet) {
    a.manifest == row.manifest && a.scope == row.scope
  }

  /** The envelope binds the packet as it is, its files, and the approval a release names. */
  ghost predicate Binds(s: Store, files: Files, e: Envelope, packet: PacketId, approval: ApprovalId)
    requires e.PacketEnvelope? && packet in s.packets
  {
    var row := s.packets[packet];
    && AsksItsOwn(e) && MeetsRow(e, packet, row)
    && IntactFiles(files, packet, row, Artifacts(e.manifest, e.receipt)) && e.manifest == row.manifest
    && if e.operation.Release? then
         exists i :: LastApproved(s.approvals, packet, i) && s.approvals[i].id == e.approval && Some(s.approvals[i].event) == e.approvalEvent
       else e.approval == approval && e.approvalEvent.None?
  }

  /** When preparation succeeds, and what it prepares: an envelope that asks for its operation's
      own states, binds everything mediation will compare, and is valid for 300 seconds. */
  lemma PreparationExact(s: Store, files: Files, operation: AuthorityOperation, packet: PacketId, principal: PrincipalId,
                         now: int, id: OperationId, approval: ApprovalId)
    ensures var r := PrepareOperation(s, files, operation, packet, principal, now, id, approval);
      && (r.Some? <==> MayPrepare(s, files, operation, packet, principal))
      && (r.Some? ==>
            var e := r.value;
            && e.PacketEnvelope? && e.operation == operation && packet in s.packets && Binds(s, files, e, packet, approval)
            && e.id == id && e.principal == principal && principal in s.principals && e.key == s.principals[principal]
            && e.issued == now && e.expires == now + 300)
  {
    hide Recompute, ApprovedApproval, LastApproved, IntactFiles;
    if packet in s.packets { RecomputeExact(files, packet, s.packets[packet]); }
    LastApprovedFound(s.approvals, packet);
  }

  predicate MeetsRow(e: Envelope, packet: PacketId, row: Packet)
    requires e.PacketEnvelope?
  {
    e.packet == packet && e.candidate == row.candidate && e.scope == row.scope
  }

  /** The last approved row is the one the query finds. */
  lemma LastApprovedFound(approvals: seq<ApprovalRow>, packet: PacketId)
    ensures forall i :: LastApproved(approvals, packet, i) ==> 0 <= i < |approvals| && ApprovedApproval(approvals, packet) == Some(approvals[i])
    ensures ApprovedApproval(approvals, packet).Some? ==> exists i :: LastApproved(approvals, packet, i)
  {
    hide ApprovedApproval;
    ApprovedApprovalExact(approvals, packet);
    forall i | LastApproved(approvals, packet, i)
      ensures ApprovedApproval(approvals, packet) == Some(approvals[i])
    {
      assert ApprovedRow(approvals[i], packet);
    }
  }

  /** Mediation sends a prepared, signed request on to its commit iff the packet receipt is
      still the approved one. */
  lemma PreparedIsMediated(s: Store, files: Files, e: Envelope, now: int, c: AdapterConstraints)
    requires StoreInv(s) && Prepared(s, files, e) && !Consumed(s, Sign(e)) && !AdapterMismatch(e, c)
    requires e.issued - MAX_CLOCK_SKEW_SECONDS <= now < e.expires
    ensures Read(s, files, now, TransitionRequest(Some(Sign(e)), c)) == Some(AuthorityCommit(Sign(e), e.receipt)) <==> ReceiptAsApproved(s, e)
  {
    hide StoreInv, Consumed, AdapterMismatch, Recompute, ApprovedApproval, PacketAuthenticationFailure;
    PairedState(s, e.packet);
    assert Authenticate(s, now, Sign(e)) == Authenticated;
    assert e.requested in Successors(e.expectedPrior);
    assert Read(s, files, now, TransitionRequest(Some(Sign(e)), c)) == Some(VerifyArtifacts(s, files, Sign(e), s.packets[e.packet]));
  }

  /** The commit of a prepared request never rolls back, and accepts iff the evaluator allows. */
  lemma PreparedIsAdjudicated(s: Store, files: Files, e: Envelope)
    requires StoreInv(s) && Prepared(s, files, e) && !Consumed(s, Sign(e))
    requires !e.operation.Release? ==> forall a :: a in s.approvals ==> a.id != e.approval
    ensures var t := CommitAuthority(s, Sign(e), e.receipt); var d := Evaluate(View(s), QuestionOf(e));
      && t.Some? && |t.value.log| == |s.log| + 1
      && t.value.log[|s.log|].authorization == Some(d)
      && (t.value.log[|s.log|].accepted <==> d.status == Allowed)
      && e.packet in t.value.packets
      && t.value.packets[e.packet].state == if d.status == Allowed then e.requested else e.expectedPrior
  {
    hide StoreInv, Evaluate, Recompute, ApprovedApproval;
    PairedState(s, e.packet);
    ApprovedIn(s.approvals, e.packet);
    var row := s.packets[e.packet];
    assert TransactionDecision(s, e, row.state, row) == Evaluate(View(s), QuestionOf(e));
    assert Consumable(s, Sign(e));
    if e.operation.Release? {
      var a := ApprovedApproval(s.approvals, e.packet).value;
      assert a in s.approvals;
      assert ReleaseApproved(s, e, row);
    }
  }

  /** The request was prepared from this store and these files, its identifiers are fresh, and
      the adapter asserts nothing it does not say. */
  ghost predicate FreshlyPrepared(s: Store, files: Files, operation: AuthorityOperation, packet: PacketId, principal: PrincipalId,
                                  issued: int, id: OperationId, approval: ApprovalId, c: AdapterConstraints, e: Envelope) {
    && PrepareOperation(s, files, operation, packet, principal, issued, id, approval) == Some(e)
    && e.PacketEnvelope? && !Consumed(s, Sign(e)) && !AdapterMismatch(e, c)
    && (!operation.Release? ==> forall a :: a in s.approvals ==> a.id != approval)
  }

  /** What preparing, signing, submitting and committing an operation comes to, whatever has
      become of the files: mediation passes iff the packet receipt is still the approved one,
      and the commit never rolls back and accepts iff the evaluator allows it. */
  lemma PreparedExact(steps: seq<Step>, files: Files, operation: AuthorityOperation, packet: PacketId, principal: PrincipalId,
                      issued: int, id: OperationId, approval: ApprovalId, now: int, c: AdapterConstraints, e: Envelope)
    requires FreshlyPrepared(Run(START, steps).store, files, operation, packet, principal, issued, id, approval, c, e)
    requires issued - MAX_CLOCK_SKEW_SECONDS <= now < issued + DEFAULT_OPERATION_LIFETIME_SECONDS
    ensures var s := Run(START, steps).store;
      Read(s, files, now, TransitionRequest(Some(Sign(e)), c)) == Some(AuthorityCommit(Sign(e), e.receipt)) <==> ReceiptAsApproved(s, e)
    ensures Adjudicates(Run(START, steps).store, files, operation, packet, e)
  {
    hide Run, StoreInv, Evaluate, Recompute, ApprovedApproval, PrepareOperation, Consumed, AdapterMismatch, Read, CommitAuthority;
    var s := Reached(steps);
    PreparationAgrees(s, files, operation, packet, principal, issued, id, approval);
    PreparedIsMediated(s, files, e, now, c);
    PreparedIsAdjudicated(s, files, e);
  }

  /** The commit of the mediated request records one event, accepted iff the evaluator allows it,
      and then the packet has moved. */
  ghost predicate Adjudicates(s: Store, files: Files, operation: AuthorityOperation, packet: PacketId, e: Envelope)
    requires e.PacketEnvelope?
  {
    var t := Commit(s, files, AuthorityCommit(Sign(e), e.receipt));
    && t.Some? && |t.value.log| == |s.log| + 1 && packet in t.value.packets
    && (t.value.log[|s.log|].accepted <==> Evaluate(View(s), QuestionOf(e)).status == Allowed)
    && t.value.packets[packet].state == if t.value.log[|s.log|].accepted then RequestedOf(operation) else PriorOf(operation)
  }

  /** The approval a release names evidenced the receipt the packet has always had. */
  lemma KeptReceiptApproved(s: Store, packet: PacketId, receipt: FileHash)
    requires PacketInv(s) && LogAgrees(s.log, packet, receipt) && packet in s.packets && s.packets[packet].state == Approved
    ensures var found := ApprovedApproval(s.approvals, packet);
      found.Some? ==> Recorded(s, found.value.event) && At(s, found.value.event).receipt == Some(receipt)
  {
    hide HistoriesBounded, Paired, OnePacketEach, Trail, ApprovalsFor, ApprovedApproval, PacketIdentifiersOf;
    ApprovedIn(s.approvals, packet);
    ApprovalsExact(s.approvals, packet);
    assert TrailOk(s.log, s.approvals, packet, s.packets[packet]);
    var found := ApprovedApproval(s.approvals, packet);
    if found.Some? {
      assert found.value in ApprovalsFor(s.approvals, packet);
      assert IsAuthority(s.log[found.value.event - 1], packet);
    }
  }

  lemma InvPackets(s: Store)
    requires StoreInv(s)
    ensures PacketInv(s)
  {
  }

  /** Prepare/mediate round trip: an operation prepared from a reachable store, validly signed
      and submitted inside its window with no step in between, its packet's files never having
      shown another packet receipt, passes every mediation and release-approval check, and its
      commit is accepted iff the evaluator allows it. */
  lemma PreparedRoundTrip(steps: seq<Step>, files: Files, operation: AuthorityOperation, packet: PacketId, principal: PrincipalId,
                          issued: int, id: OperationId, approval: ApprovalId, now: int, c: AdapterConstraints, e: Envelope)
    requires FreshlyPrepared(Run(START, steps).store, files, operation, packet, principal, issued, id, approval, c, e)
    requires issued - MAX_CLOCK_SKEW_SECONDS <= now < issued + DEFAULT_OPERATION_LIFETIME_SECONDS
    requires packet in files ==> FilesKept(steps, packet, files[packet].receipt)
    ensures var s := Run(START, steps).store;
      Read(s, files, now, TransitionRequest(Some(Sign(e)), c)) == Some(AuthorityCommit(Sign(e), e.receipt))
    ensures Adjudicates(Run(START, steps).store, files, operation, packet, e)
  {
    hide Run, StoreInv, Evaluate, ApprovedApproval, PrepareOperation, Consumed, AdapterMismatch, Read, Commit, LogAgrees, StepKeeps;
    var s := Reached(steps);
    PreparedExact(steps, files, operation, packet, principal, issued, id, approval, now, c, e);
    PreparationAgrees(s, files, operation, packet, principal, issued, id, approval);
    RunAgrees(steps, packet, files[packet].receipt);
    InvPackets(s);
    if operation.Release? { KeptReceiptApproved(s, packet, files[packet].receipt); }
  }
}
