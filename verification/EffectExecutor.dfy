/** Executing a claimed effect: outcome classification and the capture directory
    (effect_executor.py). */
module EffectExecutor {
  import opened Models
  import opened Ledger
  import opened Writers
  import opened System
  import opened EffectRuns
  import opened Runs

  /** A capture file: everything it says of the request, and the packet bytes it embeds. */
  datatype Capture = Capture(request: EffectRequest, bytes: FileHash)

  type Directory = map<IdempotencyKey, Capture>

  /** Where an execution may be interrupted: by an exception, which is caught, or by the death
      of the process; file creation itself is atomic. */
  datatype Fault = NoFault | ExceptionBeforeCreate | ExceptionAfterCreate | DeathBeforeCreate | DeathAfterCreate

  /** What one execution finds around it: `trusted` is the audit, context and adapter check;
      `first` and `second` are its two recomputations, `bytes` what the adapter then reads. */
  datatype Execution = Execution(
    effect: EffectRequest, dispatch: Dispatch, executor: ExecutorId, key: KeyId, result: ResultId,
    trusted: bool, released: bool, first: Option<Artifacts>, second: Option<Artifacts>,
    credential: bool, bytes: Option<FileHash>, fault: Fault)

  const CREDENTIAL_UNAVAILABLE: nat := 1
  const ADAPTER_OUTCOME_UNKNOWN: nat := 2

  // ---------------------------------------------------------------- the adapter

  datatype Invocation = Responded(capture: Capture) | NoCredential | AdapterFailed | Died

  /** `CaptureAdapter.invoke`: the directory it leaves and how it ends. */
  function Invoke(directory: Directory, x: Execution): (Directory, Invocation) {
    if !x.credential then (directory, NoCredential)
    else if x.bytes.None? then (directory, AdapterFailed)
    else
      var content := Capture(x.effect, x.bytes.value);
      if x.effect.key in directory then
        (directory, if x.fault.DeathBeforeCreate? then Died else if directory[x.effect.key] == content then Responded(content) else AdapterFailed)
      else match x.fault
        case ExceptionBeforeCreate => (directory, AdapterFailed)
        case DeathBeforeCreate => (directory, Died)
        case ExceptionAfterCreate => (directory[x.effect.key := content], AdapterFailed)
        case DeathAfterCreate => (directory[x.effect.key := content], Died)
        case NoFault => (directory[x.effect.key := content], Responded(content))
  }

  // ---------------------------------------------------------------- the execution

  /** Signed: an envelope to sign. Raised: an integrity error, nothing signed. Lost: the process died. */
  datatype Ending = Signed(envelope: ResultEnvelope) | Raised | Lost

  function EnvelopeOf(x: Execution, outcome: EffectOutcome, may: bool, retry: bool,
                    remote: Option<nat>, response: Option<nat>, error: Option<nat>): ResultEnvelope {
    ResultEnvelope(x.result, x.executor, x.key, x.effect.effect, x.dispatch.id, RequestHash(x.effect), x.effect.scope, x.effect.binding,
                   x.effect.manifest, x.effect.key, outcome, may, retry, remote, response, error)
  }

  predicate Executable(x: Execution) {
    x.trusted && x.released && x.dispatch.hash == RequestHash(x.effect) && x.first == Some(Artifacts(x.effect.manifest, x.effect.receipt))
  }

  /** How the execution classifies the end of its invocation. */
  function Classified(x: Execution, invocation: Invocation): Ending {
    match invocation
    case Responded(capture) => Signed(EnvelopeOf(x, Succeeded, true, false, Some(0), Some(capture.bytes), None))
    case NoCredential => Signed(EnvelopeOf(x, EffectFailed, false, true, None, None, Some(CREDENTIAL_UNAVAILABLE)))
    case AdapterFailed => Signed(EnvelopeOf(x, Unknown, true, false, None, None, Some(ADAPTER_OUTCOME_UNKNOWN)))
    case Died => Lost
  }

  /** `execute_claimed_effect`. */
  function Execute(directory: Directory, x: Execution): (Directory, Ending) {
    if !Executable(x) then (directory, Raised)
    else if x.second.None? then (directory, Classified(x, AdapterFailed))
    else if x.second != x.first then (directory, Raised)
    else var (after, invocation) := Invoke(directory, x); (after, Classified(x, invocation))
  }

  class CaptureAdapter {
    var directory: Directory

    constructor ()
      ensures directory == map[]
    {
      directory := map[];
    }

    method InvokeAdapter(x: Execution) returns (invocation: Invocation)
      modifies this
      ensures (directory, invocation) == Invoke(old(directory), x)
    {
      if !x.credential { return NoCredential; }
      if x.bytes.None? { return AdapterFailed; }
      var content := Capture(x.effect, x.bytes.value);
      if x.fault.DeathBeforeCreate? { return Died; }
      if x.effect.key in directory {
        if directory[x.effect.key] != content { return AdapterFailed; }
      } else {
        if x.fault.ExceptionBeforeCreate? { return AdapterFailed; }
        directory := directory[x.effect.key := content];
        if x.fault.ExceptionAfterCreate? { return AdapterFailed; }
        if x.fault.DeathAfterCreate? { return Died; }
      }
      return Responded(content);
    }

    /** The outcome variables start at a retry-permitted failure and are reassigned on the way. */
    method ExecuteClaimedEffect(x: Execution) returns (ending: Ending)
      modifies this
      ensures (directory, ending) == Execute(old(directory), x)
    {
      if !Executable(x) { return Raised; }
      var outcome, may, retry := EffectFailed, false, true;
      var remote: Option<nat>, response: Option<nat>, error: Option<nat> := None, None, None;
      if x.second.Some? && x.second != x.first { return Raised; }
      var invocation := AdapterFailed;
      if x.second.Some? { invocation := InvokeAdapter(x); }
      match invocation {
        case Responded(capture) => outcome, may, retry, remote, response := Succeeded, true, false, Some(0), Some(capture.bytes);
        case NoCredential => error := Some(CREDENTIAL_UNAVAILABLE);
        case AdapterFailed => outcome, may, retry, error := Unknown, true, false, Some(ADAPTER_OUTCOME_UNKNOWN);
        case Died => return Lost;
      }
      ending := Signed(EnvelopeOf(x, outcome, may, retry, remote, response, error));
    }
  }

  // ---------------------------------------------------------------- what one execution may do

  /** The execution created its effect's capture. */
  predicate Writes(directory: Directory, x: Execution) {
    x.effect.key !in directory && x.effect.key in Execute(directory, x).0
  }

  /** One execution: it never alters or removes a capture and creates at most its own; what it
      signs is a valid result of exactly its claim; a retry-permitted failure means it wrote
      nothing, and a success that the effect's capture is there with what it read. */
  lemma ExecutionSafe(directory: Directory, x: Execution)
    ensures var (after, ending) := Execute(directory, x);
      && MapGrows(directory, after) && after.Keys <= directory.Keys + {x.effect.key}
      && (ending.Signed? ==>
            && ValidResult(ending.envelope) && ResultBound(ending.envelope, x.effect, x.dispatch.(effect := x.effect.effect))
            && (ending.envelope.retryPermitted ==> ending.envelope.outcome == EffectFailed && after == directory)
            && (ending.envelope.outcome == Succeeded ==> x.effect.key in after && after[x.effect.key].request == x.effect))
  {
  }

  /** Everything is in order up to the adapter: the audit, the packet, the claim's request hash,
      and both recomputations, which find the files the request names. */
  predicate ReachesAdapter(x: Execution) {
    var artifacts := Some(Artifacts(x.effect.manifest, x.effect.receipt));
    x.trusted && x.released && x.dispatch.hash == RequestHash(x.effect) && x.first == artifacts && x.second == artifacts
  }

  /** Another capture already has the key. */
  predicate Collision(directory: Directory, x: Execution) {
    x.effect.key in directory && (x.bytes.None? || directory[x.effect.key] != Capture(x.effect, x.bytes.value))
  }

  /** The signed result says so. */
  predicate SaysUnknown(ending: Ending) {
    && ending.Signed? && ending.envelope.outcome == Unknown && ending.envelope.mayHaveOccurred && !ending.envelope.retryPermitted
    && ending.envelope.error == Some(ADAPTER_OUTCOME_UNKNOWN)
  }

  /** What a signed result may deny. At the adapter, only a missing credential is reported as
      having had no effect; whoever wrote the capture and lived to sign says the effect may have
      occurred; and every way the adapter can fail, by unreadable files, by an exception before or
      after the capture, or by colliding with another capture, ends unknown. */
  lemma OutcomesTruthful(directory: Directory, x: Execution)
    requires ReachesAdapter(x)
    ensures var (after, ending) := Execute(directory, x);
      && !ending.Raised?
      && (ending.Signed? ==> (!ending.envelope.mayHaveOccurred <==> !x.credential))
      && (!x.credential ==> after == directory && ReportsFailure(ending) && ending.envelope.error == Some(CREDENTIAL_UNAVAILABLE))
      && (x.effect.key !in directory && x.effect.key in after && ending.Signed? ==> ending.envelope.mayHaveOccurred)
      && (x.credential && x.bytes.None? ==> after == directory && SaysUnknown(ending))
      && (x.credential && x.bytes.Some? && x.effect.key !in directory && x.fault == ExceptionBeforeCreate ==> after == directory && SaysUnknown(ending))
      && (x.credential && x.bytes.Some? && x.effect.key !in directory && x.fault == ExceptionAfterCreate ==> x.effect.key in after && SaysUnknown(ending))
      && (x.credential && Collision(directory, x) && x.fault != DeathBeforeCreate ==> after == directory && SaysUnknown(ending))
  {
  }

  /** When an execution ends how: it succeeds iff at the adapter, undisturbed, it creates the
      capture or finds the same one, and then says what it read; it is unknown to have had its
      effect, once under way, in every other case it lives to sign with its credential. */
  lemma OutcomesExact(directory: Directory, x: Execution)
    ensures var (after, ending) := Execute(directory, x); var artifacts := Some(Artifacts(x.effect.manifest, x.effect.receipt));
      var admitted := x.trusted && x.released && x.dispatch.hash == RequestHash(x.effect) && x.first == artifacts;
      && (ending.Raised? <==> !admitted || (x.second.Some? && x.second != artifacts))
      && (ending.Signed? && ending.envelope.outcome == Succeeded <==>
            && ReachesAdapter(x) && x.credential && x.bytes.Some?
            && if x.effect.key in directory then directory[x.effect.key] == Capture(x.effect, x.bytes.value) && x.fault != DeathBeforeCreate
               else x.fault == NoFault)
      && (ending.Signed? && ending.envelope.outcome == Succeeded ==>
            ending.envelope.response == x.bytes && x.effect.key in after && after[x.effect.key] == Capture(x.effect, x.bytes.value))
      && (ending.Signed? && ending.envelope.outcome == EffectFailed <==> ReachesAdapter(x) && !x.credential)
      && (admitted && x.second.None? ==> after == directory && SaysUnknown(ending))
      && (ending.Lost? ==> x.fault in {DeathBeforeCreate, DeathAfterCreate})
      && (ending.Signed? ==>
            && ending.envelope.id == x.result && ending.envelope.executor == x.executor && ending.envelope.executorKey == x.key
            && ending.envelope.dispatch == x.dispatch.id)
  {
  }

  // ---------------------------------------------------------------- any number of executions

  function ExecuteAll(directory: Directory, runs: seq<Execution>): Directory {
    if runs == [] then directory else Execute(ExecuteAll(directory, runs[..|runs| - 1]), runs[|runs| - 1]).0
  }

  /** How many executions created the capture of a key. */
  function WriteCount(directory: Directory, runs: seq<Execution>, key: IdempotencyKey): nat {
    if runs == [] then 0
    else
      var before := ExecuteAll(directory, runs[..|runs| - 1]);
      var last := runs[|runs| - 1];
      WriteCount(directory, runs[..|runs| - 1], key) + if last.effect.key == key && Writes(before, last) then 1 else 0
  }

  /** One capture per effect: across any executions, repeated, retried or lost, of any claims,
      the capture under a key is written at most once and never altered, and every capture
      written belongs to a request with that key. */
  lemma {:induction false} CapturedOnce(directory: Directory, runs: seq<Execution>, key: IdempotencyKey)
    ensures MapGrows(directory, ExecuteAll(directory, runs))
    ensures WriteCount(directory, runs, key) == if key in ExecuteAll(directory, runs) && key !in directory then 1 else 0
    ensures key in ExecuteAll(directory, runs) && key !in directory ==>
      ExecuteAll(directory, runs)[key].request.key == key && exists i :: 0 <= i < |runs| && runs[i].effect == ExecuteAll(directory, runs)[key].request
    decreases |runs|
  {
    hide Execute;
    if runs != [] {
      var n := |runs| - 1;
      var before := ExecuteAll(directory, runs[..n]);
      CapturedOnce(directory, runs[..n], key);
      ExecutionSafe(before, runs[n]);
      WrittenCapture(before, runs[n]);
    }
  }

  lemma WrittenCapture(directory: Directory, x: Execution)
    ensures Writes(directory, x) ==> Execute(directory, x).0[x.effect.key].request == x.effect
  {
  }

  // ---------------------------------------------------------------- when a reported failure is true

  /** The execution reported that its effect did not happen and may be tried again. */
  predicate ReportsFailure(ending: Ending) {
    ending.Signed? && ending.envelope.retryPermitted
  }

  /** A report of no effect is true iff neither the directory it started from nor any earlier
      execution, of whatever claim, had the effect's capture. */
  lemma FailureTrueIff(directory: Directory, runs: seq<Execution>, x: Execution)
    requires ReportsFailure(Execute(ExecuteAll(directory, runs), x).1)
    ensures x.effect.key !in Execute(ExecuteAll(directory, runs), x).0 <==>
      x.effect.key !in directory && WriteCount(directory, runs, x.effect.key) == 0
  {
    hide Execute, ExecuteAll, WriteCount;
    CapturedOnce(directory, runs, x.effect.key);
    ExecutionSafe(ExecuteAll(directory, runs), x);
  }

  /** Every earlier execution of the key was refused, or reported failure. */
  ghost predicate OnlyFailures(directory: Directory, runs: seq<Execution>, key: IdempotencyKey) {
    forall i :: 0 <= i < |runs| && runs[i].effect.key == key ==> HarmlessAt(directory, runs, i)
  }

  predicate HarmlessAt(directory: Directory, runs: seq<Execution>, i: nat)
    requires i < |runs|
  {
    var ending := Execute(ExecuteAll(directory, runs[..i]), runs[i]).1;
    ending.Raised? || ReportsFailure(ending)
  }

  /** As long as a key's executions only ever failed, its failures are true: it takes a death, a
      success or an unknown outcome, whose claim a retry may not follow, to make one false. */
  lemma {:induction false} OnlyFailuresWriteNothing(directory: Directory, runs: seq<Execution>, key: IdempotencyKey)
    requires OnlyFailures(directory, runs, key)
    ensures WriteCount(directory, runs, key) == 0
    decreases |runs|
  {
    hide Execute;
    if runs != [] {
      var n := |runs| - 1;
      forall i: nat | i < n && runs[..n][i].effect.key == key
        ensures HarmlessAt(directory, runs[..n], i)
      {
        assert runs[..n][..i] == runs[..i];
        assert HarmlessAt(directory, runs, i);
      }
      OnlyFailuresWriteNothing(directory, runs[..n], key);
      ExecutionSafe(ExecuteAll(directory, runs[..n]), runs[n]);
      RaisedWritesNothing(ExecuteAll(directory, runs[..n]), runs[n]);
      if runs[n].effect.key == key { assert HarmlessAt(directory, runs, n); }
    }
  }

  lemma RaisedWritesNothing(directory: Directory, x: Execution)
    ensures Execute(directory, x).1.Raised? ==> Execute(directory, x).0 == directory
  {
  }

  /** An execution of a claim of this request that meets everything in order. */
  function Orderly(r: EffectRequest, dispatch: DispatchId, credential: bool, fault: Fault): Execution {
    var artifacts := Some(Artifacts(r.manifest, r.receipt));
    Execution(r, Dispatch(dispatch, r.effect, RequestHash(r), 1, 0), 0, 0, 0, true, true, artifacts, artifacts, credential, Some(0), fault)
  }

  /** A false report, for any request: a first execution of its claim writes the capture and dies;
      executed again without its credential, the same claim is reported as failed and safe to
      retry. */
  lemma FalseFailure(directory: Directory, r: EffectRequest, dispatch: DispatchId)
    requires r.key !in directory
    ensures var before := ExecuteAll(directory, [Orderly(r, dispatch, true, DeathAfterCreate)]);
      var (after, ending) := Execute(before, Orderly(r, dispatch, false, NoFault));
      r.key in before && ReportsFailure(ending) && !ending.envelope.mayHaveOccurred && r.key in after
  {
    var runs := [Orderly(r, dispatch, true, DeathAfterCreate)];
    assert runs[..0] == [];
    assert ExecuteAll(directory, runs) == Execute(directory, runs[0]).0;
  }

  /** Distinct effects of a reachable store never share an idempotency key, so no two of them
      ever share a capture. */
  lemma KeysDistinct(steps: seq<Step>, a: EffectRequest, b: EffectRequest)
    requires var s := Run(START, steps).store; a in s.requests && b in s.requests && a.key == b.key
    ensures a == b
  {
    hide Run, StoreInv;
    var s := Reached(steps);
    RequestsOf(s);
    assert RequestSound(s, a) && RequestSound(s, b);
  }

  lemma RequestsOf(s: Store)
    requires StoreInv(s)
    ensures DistinctRequests(s.requests) && forall r :: r in s.requests ==> RequestSound(s, r)
  {
  }
}
