/** What writers read of a packet's files stays what its authority events say, as long as the
    files do. */
module ReceiptRuns {
  import opened Models
  import opened Authorization
  import opened Ledger
  import opened Writers
  import opened System
  import opened Consumption
  import opened PacketRuns
  import opened Runs

  /** Whenever a step finds files for the packet, it finds this packet receipt. */
  ghost predicate FilesKept(steps: seq<Step>, packet: PacketId, receipt: FileHash) {
    forall i :: 0 <= i < |steps| ==> StepKeeps(steps[i], packet, receipt)
  }

  predicate StepKeeps(step: Step, packet: PacketId, receipt: FileHash) {
    step.ReadStep? && packet in step.files ==> step.files[packet].receipt == receipt
  }

  /** An attempt to move the packet carries this receipt. */
  predicate Carries(p: Pending, packet: PacketId, receipt: FileHash) {
    p.AuthorityCommit? && p.proof.envelope.PacketEnvelope? && p.proof.envelope.packet == packet ==> p.receipt == receipt
  }

  /** Every attempt to move the packet, and every accepted authority event of it, carries this
      packet receipt. */
  ghost predicate ReceiptsAgree(y: System, packet: PacketId, receipt: FileHash) {
    && (forall w :: w in y.pending ==> Carries(y.pending[w], packet, receipt))
    && LogAgrees(y.store.log, packet, receipt)
  }

  ghost predicate LogAgrees(log: seq<Event>, packet: PacketId, receipt: FileHash) {
    forall i :: 0 <= i < |log| && IsAuthority(log[i], packet) ==> log[i].receipt == Some(receipt)
  }

  /** Mediation takes the receipt of its attempt from the files. */
  lemma ReadCarries(s: Store, files: Files, now: int, r: Request, packet: PacketId, receipt: FileHash)
    requires packet in files ==> files[packet].receipt == receipt
    ensures var p := Read(s, files, now, r); p.Some? ==> Carries(p.value, packet, receipt)
  {
    hide MediatePacket, Authenticate, PacketAuthenticationFailure, PolicyAuthenticationFailure, ReadCandidate, ReadPacket;
    match r
    case TransitionRequest(signed, c) =>
      if signed.Some? {
        if signed.value.envelope.PacketEnvelope? { MediationCarries(s, files, signed.value, c, packet, receipt); }
        FailureCarries(s, signed, true, c, packet, receipt);
      }
      FailureCarries(s, signed, false, c, packet, receipt);
    case PolicyRequest(signed, _) =>
      var c := AdapterConstraints(None, None, true);
      FailureCarries(s, signed, true, c, packet, receipt);
      FailureCarries(s, signed, false, c, packet, receipt);
    case CandidateRequest(candidate, requested, generated) => WorkflowCarries(s, candidate, requested, generated, packet, receipt);
    case PacketRequest(moved, requested, hash) => PacketCarries(s, moved, requested, hash, packet, receipt);
    case _ =>
  }

  lemma WorkflowCarries(s: Store, candidate: CandidateId, requested: WorkflowState, generated: Option<NewPacket>, packet: PacketId, receipt: FileHash)
    ensures var p := ReadCandidate(s, candidate, requested, generated); p.Some? ==> Carries(p.value, packet, receipt)
  {
  }

  lemma PacketCarries(s: Store, moved: PacketId, requested: WorkflowState, hash: FileHash, packet: PacketId, receipt: FileHash)
    ensures var p := ReadPacket(s, moved, requested, hash); p.Some? ==> Carries(p.value, packet, receipt)
  {
  }

  lemma FailureCarries(s: Store, signed: Option<SignedOperation>, replay: bool, c: AdapterConstraints, packet: PacketId, receipt: FileHash)
    ensures var p := PacketAuthenticationFailure(s, signed, replay, c); p.Some? ==> Carries(p.value, packet, receipt)
    ensures var p := PolicyAuthenticationFailure(signed, replay); p.Some? ==> Carries(p.value, packet, receipt)
  {
  }

  lemma MediationCarries(s: Store, files: Files, proof: SignedOperation, c: AdapterConstraints, packet: PacketId, receipt: FileHash)
    requires proof.envelope.PacketEnvelope? && (packet in files ==> files[packet].receipt == receipt)
    ensures Carries(MediatePacket(s, files, proof, c), packet, receipt)
  {
    hide ReleaseApprovalMatches, AdapterMismatch, CanonicalSemantics;
  }

  /** The only event a commit accepts for the packet is its attempt's, with the attempt's receipt. */
  lemma CommitAgrees(s: Store, files: Files, p: Pending, packet: PacketId, receipt: FileHash)
    requires PendingOk(s, p) && Carries(p, packet, receipt) && LogAgrees(s.log, packet, receipt)
    ensures LogAgrees(Outcome(s, files, p).log, packet, receipt)
  {
    hide Commit, Grows, PendingOk;
    PendingTyped(s, p);
    CommitShape(s, files, p);
    OutcomeAppends(s, files, p);
    var t := Outcome(s, files, p);
    if t.log != s.log { NewEventAgrees(s, files, p, packet, receipt); }
  }

  lemma NewEventAgrees(s: Store, files: Files, p: Pending, packet: PacketId, receipt: FileHash)
    requires PendingOk(s, p) && Carries(p, packet, receipt)
    requires var t := Outcome(s, files, p); |t.log| == |s.log| + 1 && Committed(s, t, p)
    ensures var e := Outcome(s, files, p).log[|s.log|]; IsAuthority(e, packet) ==> e.receipt == Some(receipt)
  {
    hide CommitAuthority, CommitPolicy, CommitManagement, CommitCandidate, CommitPacketStep, CommitRejection,
         CommitPolicyBindingRejection, CreateExternalEffect, ClaimExternalEffect, RecordExecutorResult, Grows, ReplayForm, Consumed, Trusted;
    match p
    case AuthorityCommit(proof, read) => if CommitAuthority(s, proof, read).Some? { AuthorityEventReceipt(s, proof, read); }
    case _ =>
  }

  lemma AuthorityEventReceipt(s: Store, proof: SignedOperation, read: FileHash)
    requires proof.envelope.PacketEnvelope? && CommitAuthority(s, proof, read).Some?
    ensures var t := CommitAuthority(s, proof, read).value;
      && |t.log| == |s.log| + 1
      && t.log[|s.log|].packet == Some(proof.envelope.packet) && t.log[|s.log|].receipt == Some(read)
  {
    hide TransactionDecision, ReleaseApproved, NewApproval, AuthoritySensitive, Consumable, ApprovalTaken;
  }

  lemma NextAgrees(y: System, step: Step, packet: PacketId, receipt: FileHash)
    requires Inv(y) && ReceiptsAgree(y, packet, receipt) && StepKeeps(step, packet, receipt)
    ensures ReceiptsAgree(Next(y, step), packet, receipt)
  {
    hide StoreInv, Outcome, Read, Trust, InsertCandidate, LogAgrees, Carries, PendingOk;
    match step
    case ReadStep(w, files, now, request) => ReadCarries(y.store, files, now, request, packet, receipt);
    case CommitStep(w, files) => if w in y.pending { CommitAgrees(y.store, files, y.pending[w], packet, receipt); }
    case TrustPrincipal(principal, key) => TrustAppendsNothing(y.store, principal, key);
    case Discover(candidate) => DiscoverAppendsNothing(y.store, candidate);
  }

  /** While its files show one packet receipt, a packet's authority events all carry it. */
  lemma {:induction false} RunAgrees(steps: seq<Step>, packet: PacketId, receipt: FileHash)
    requires FilesKept(steps, packet, receipt)
    ensures ReceiptsAgree(Run(START, steps), packet, receipt)
    decreases |steps|
  {
    hide Inv, Next, StepKeeps, Carries;
    if steps != [] {
      var n := |steps| - 1;
      RunAgrees(steps[..n], packet, receipt);
      RunInv(steps[..n]);
      NextAgrees(Run(START, steps[..n]), steps[n], packet, receipt);
    }
  }
}
