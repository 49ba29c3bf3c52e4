/** Executing effects against the store's history: the executor refuses on a failed audit, and a
    failed audit never recovers (effect_executor.py, integrity.py). */
module ExecutionRuns {
  import opened Models
  import opened Ledger
  import opened Writers
  import opened System
  import opened Consumption
  import opened Runs
  import opened PolicyAudit
  import opened PolicyAuditRuns
  import opened PolicyAuditSteps
  import opened PolicyAuditRejections
  import opened EffectExecutor

  /** The execution's own audit, which comes first, is of this store. */
  ghost predicate AuditedOn(x: Execution, s: Store) {
    x.trusted ==> PolicyAuditHolds(s)
  }

  /** Nothing is invoked or signed, and the capture directory stays as it is. */
  predicate Refused(directory: Directory, x: Execution) {
    Execute(directory, x) == (directory, Raised)
  }

  lemma UntrustedRefused(directory: Directory, x: Execution)
    requires !x.trusted
    ensures Refused(directory, x)
  {
  }

  /** An effect is executed only in a run all of whose commits were safe for the policy audit. */
  lemma ExecutedOnlyIfAllSafe(steps: seq<Step>, directory: Directory, x: Execution)
    requires AuditedOn(x, Run(START, steps).store)
    ensures AllSafe(steps) || Refused(directory, x)
  {
    hide Run, PolicyAuditHolds, AllSafe, Refused;
    RunAuditExact(steps);
    if !x.trusted { UntrustedRefused(directory, x); }
  }

  lemma AllSafePrefix(steps: seq<Step>, more: seq<Step>)
    requires AllSafe(steps + more)
    ensures AllSafe(steps)
  {
    hide SafeAt;
    forall i: nat | i < |steps|
      ensures SafeAt(steps, i)
    {
      SafeAtEither(steps, more, i);
      assert SafeAt(steps + more, i);
    }
  }

  lemma SafeAtEither(steps: seq<Step>, more: seq<Step>, i: nat)
    requires i < |steps|
    ensures SafeAt(steps + more, i) == SafeAt(steps, i)
  {
    hide Run, StepSafe;
    assert (steps + more)[..i] == steps[..i];
  }

  /** A failed policy audit is permanent: no continuation, by any writers, repairs it. */
  lemma FailedAuditIsPermanent(steps: seq<Step>, more: seq<Step>)
    requires !PolicyAuditHolds(Run(START, steps).store)
    ensures !PolicyAuditHolds(Run(Run(START, steps), more).store)
  {
    hide Run, PolicyAuditHolds, AllSafe;
    RunAuditExact(steps);
    RunConcat(START, steps, more);
    RunAuditExact(steps + more);
    if AllSafe(steps + more) { AllSafePrefix(steps, more); }
  }

  /** The replay of an accepted packet request is not safe to submit. */
  lemma AcceptedReplayUnsafe(s: Store, now: int, k: Sequence, c: AdapterConstraints)
    requires StoreInv(s) && Recorded(s, k) && At(s, k).accepted && At(s, k).authentication.Verified?
    requires var proof := At(s, k).authentication.proof; proof.envelope.PacketEnvelope? && Trusted(s, proof) && InWindow(proof.envelope, now)
    ensures !RequestSafe(s, now, TransitionRequest(Some(At(s, k).authentication.proof), c))
  {
    hide StoreInv, Consumed, Trusted, InWindow, ValidNow, ConsumptionInv;
    var proof := At(s, k).authentication.proof;
    AcceptanceMoved(s, k);
    AcceptanceConsumed(s, k);
    InvParts(s);
    ConsumedById(s, proof);
    TrustedInWindow(s, now, proof);
  }

  lemma TrustedInWindow(s: Store, now: int, proof: SignedOperation)
    requires Trusted(s, proof) && InWindow(proof.envelope, now)
    ensures ValidNow(s, now, proof)
  {
  }

  lemma ReplayRead(s: Store, files: Files, now: int, k: Sequence, c: AdapterConstraints)
    requires StoreInv(s) && Recorded(s, k) && At(s, k).accepted && At(s, k).authentication.Verified?
    requires var proof := At(s, k).authentication.proof; proof.envelope.PacketEnvelope? && Trusted(s, proof) && InWindow(proof.envelope, now)
    ensures Read(s, files, now, TransitionRequest(Some(At(s, k).authentication.proof), c)).Some?
  {
    hide StoreInv, Trusted, InWindow, Consumed, PacketReplayEvent;
    AcceptanceMoved(s, k);
    AcceptanceConsumed(s, k);
  }

  /** One writer reads the request and commits at once, whatever the others have pending. */
  lemma ReadThenCommit(y: System, w: WriterId, files: Files, now: int, r: Request)
    requires Inv(y) && Read(y.store, files, now, r).Some? && !RequestSafe(y.store, now, r)
    ensures !PolicyAuditHolds(Next(Next(y, ReadStep(w, files, now, r)), CommitStep(w, files)).store)
  {
    hide StoreInv, PendingOk, Read, Outcome, PolicyAuditHolds, RequestSafe, Commit, AttemptSafe;
    var p := Read(y.store, files, now, r).value;
    if PolicyAuditHolds(y.store) {
      RequestAuditExact(y.store, files, now, r);
    } else {
      ReadOk(y.store, files, now, r);
      CommitAuditExact(y.store, files, p);
    }
  }

  /** One replay stops everything: after a single replay of an accepted packet request inside its
      window, every later execution of any effect in any continuation is refused. */
  lemma ReplayBlocksExecutions(steps: seq<Step>, w: WriterId, files: Files, now: int, k: Sequence, c: AdapterConstraints,
                               more: seq<Step>, directory: Directory, x: Execution)
    requires var s := Run(START, steps).store; Recorded(s, k) && At(s, k).accepted && At(s, k).authentication.Verified?
    requires var s := Run(START, steps).store; var proof := At(s, k).authentication.proof;
      proof.envelope.PacketEnvelope? && Trusted(s, proof) && InWindow(proof.envelope, now)
    requires var r := TransitionRequest(Some(At(Run(START, steps).store, k).authentication.proof), c);
      AuditedOn(x, Run(Run(START, steps + [ReadStep(w, files, now, r), CommitStep(w, files)]), more).store)
    ensures Refused(directory, x)
  {
    hide Run, Next, StoreInv, Trusted, InWindow, PolicyAuditHolds, RequestSafe, Refused, Read;
    var y := Run(START, steps);
    var r := TransitionRequest(Some(At(y.store, k).authentication.proof), c);
    RunInv(steps);
    StoreInvOf(y);
    AcceptedReplayUnsafe(y.store, now, k, c);
    ReplayRead(y.store, files, now, k, c);
    ReadThenCommit(y, w, files, now, r);
    TwoSteps(steps, ReadStep(w, files, now, r), CommitStep(w, files));
    FailedAuditIsPermanent(steps + [ReadStep(w, files, now, r), CommitStep(w, files)], more);
    UntrustedRefused(directory, x);
  }

  lemma StoreInvOf(y: System)
    requires Inv(y)
    ensures StoreInv(y.store)
  {
    hide StoreInv;
  }

  lemma TwoSteps(steps: seq<Step>, a: Step, b: Step)
    ensures Run(START, steps + [a, b]) == Next(Next(Run(START, steps), a), b)
  {
    hide Next;
    var all := steps + [a, b];
    assert all[..|all| - 1] == steps + [a];
    assert (steps + [a])[..|steps|] == steps;
  }
}
