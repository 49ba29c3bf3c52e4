/** The request, claim and result loops of the integrity audit (integrity.py), what they accept, and that
    they accept every store writers produce. */
module EffectAudit {
  import opened Models
  import opened Authorization
  import opened Ledger
  import opened Writers
  import opened System
  import opened EffectRuns
  import opened PacketRuns
  import opened Runs

  datatype EffectCode = RequestMismatch | DispatchMismatch | UnsafeRetry | ResultMismatch

  datatype EffectFailure = EffectFailure(code: EffectCode, event: Sequence)

  // ---------------------------------------------------------------- the request loop

  predicate ReleaseMatches(s: Store, r: EffectRequest) {
    && Recorded(s, r.release) && IsRelease(At(s, r.release), r.packet) && r.release < r.event
    && var e := At(s, r.release);
       && e.authentication.Verified? && e.authentication.proof.envelope.principal == r.principal
       && e.authorization.Some? && e.authorization.value.grant == Some(r.grant) && e.authorization.value.capability == PacketRelease
  }

  predicate GrantMatches(s: Store, r: EffectRequest) {
    var g := GrantById(s.grants, r.grant);
    && g.Some? && g.value.subject == r.principal && g.value.capability == PacketRelease && g.value.scope == Exact(r.scope)
    && g.value.event < r.release && (r.grant in s.revocations ==> s.revocations[r.grant].event > r.release)
  }

  predicate PacketMatches(s: Store, files: Files, r: EffectRequest) {
    && r.packet in s.packets
    && var row := s.packets[r.packet];
       && row.state == WorkflowState.Released && row.candidate == r.candidate && row.manifest == r.manifest
       && Recompute(files, r.packet, row) == Some(Artifacts(r.manifest, r.receipt))
  }

  predicate ApprovalMatches(s: Store, r: EffectRequest) {
    exists a :: a in s.approvals && a.id == r.approval && a.packet == r.packet && a.event == r.approvalEvent
  }

  /** The accepted event a row names, by what the loops compare of it. */
  predicate RecordedAs(s: Store, k: Sequence, command: Command, governed: RequestHash, identifiers: Identifiers) {
    && Recorded(s, k)
    && var e := At(s, k);
       e.command == command && e.accepted && e.governed == Request(governed) && e.identifiers == identifiers
  }

  /** What the request loop compares of one request. */
  predicate RequestHolds(s: Store, files: Files, r: EffectRequest) {
    && RecordedAs(s, r.event, CreateEffect, RequestHash(r), EffectIdentifiers(r)) && r.key == IdempotencyKey(r.effect, r.release)
    && ReleaseMatches(s, r) && ApprovalMatches(s, r) && GrantMatches(s, r) && BindingGives(s, r, r.event) && PacketMatches(s, files, r)
  }

  /** One turn of the request loop. */
  method AuditRequest(s: Store, files: Files, r: EffectRequest) returns (found: seq<EffectFailure>)
    ensures found == [] <==> RequestHolds(s, files, r)
  {
    hide Recompute, GrantById;
    var grant := GrantById(s.grants, r.grant);
    var mismatch := !Recorded(s, r.event) || !Recorded(s, r.release) || r.packet !in s.packets || grant.None?;
    mismatch := mismatch || !exists a :: a in s.approvals && a.id == r.approval && a.packet == r.packet && a.event == r.approvalEvent;
    mismatch := mismatch || !exists b :: b in s.bindings && b.id == r.binding && b.scope == r.scope && b.target == r.target
                                         && b.credential == r.credential && b.event < r.event;
    if !mismatch {
      var event, release, g, row := At(s, r.event), At(s, r.release), grant.value, s.packets[r.packet];
      mismatch := r.key != IdempotencyKey(r.effect, r.release)
        || event.command != CreateEffect || !event.accepted
        || event.governed != Request(RequestHash(r)) || event.identifiers != EffectIdentifiers(r);
      mismatch := mismatch || release.command != Authority(Release) || !release.accepted
        || release.resulting != Some(WorkflowState.Released) || release.packet != Some(r.packet) || r.event <= r.release
        || !release.authentication.Verified? || release.authentication.proof.envelope.principal != r.principal
        || release.authorization.None? || release.authorization.value.grant != Some(r.grant)
        || release.authorization.value.capability != PacketRelease;
      mismatch := mismatch || g.subject != r.principal || g.capability != PacketRelease || g.event >= r.release
        || (r.grant in s.revocations && s.revocations[r.grant].event <= r.release) || g.scope != Exact(r.scope);
      var artifacts := Recompute(files, r.packet, row);
      mismatch := mismatch || row.state != WorkflowState.Released || row.candidate != r.candidate || row.manifest != r.manifest
        || artifacts.None? || artifacts.value.manifest != r.manifest || artifacts.value.receipt != r.receipt;
    }
    found := if mismatch then [EffectFailure(RequestMismatch, r.event)] else [];
  }

  method VerifyRequests(s: Store, files: Files) returns (failures: seq<EffectFailure>)
    ensures failures == [] <==> forall r :: r in s.requests ==> RequestHolds(s, files, r)
  {
    hide RequestHolds;
    failures := [];
    var i := 0;
    while i < |s.requests|
      invariant 0 <= i <= |s.requests|
      invariant failures == [] <==> forall j :: 0 <= j < i ==> RequestHolds(s, files, s.requests[j])
    {
      var found := AuditRequest(s, files, s.requests[i]);
      failures := failures + found;
      i := i + 1;
    }
  }

  lemma RequestAccepted(s: Store, files: Files, r: EffectRequest)
    requires StoreInv(s) && r in s.requests
    ensures r.packet in s.packets
    ensures RequestHolds(s, files, r) <==> IntactFiles(files, r.packet, s.packets[r.packet], Artifacts(r.manifest, r.receipt))
  {
    hide Consumption.ConsumptionInv, Consumption.FormsInv, PolicyRuns.PolicyInv, Temporal.CommitTimeInv, PacketInv, ClaimSound, ResultSound,
         SafelyRetried, Recompute, BindingGives, BindingsDistinct, DistinctRequests, DistinctClaims, GrantById;
    assert RequestSound(s, r);
    assert ReleaseGives(s, r);
    ReleasedForGood(s, r.packet, r.release);
    RecomputeExact(files, r.packet, s.packets[r.packet]);
  }

  /** Request audit exactness: a request of a reachable store passes the loop iff its packet's
      directory holds, intact, the artifacts it was created from, whatever became of the release's
      grant since. */
  lemma RequestAuditExact(steps: seq<Step>, files: Files, r: EffectRequest)
    requires r in Run(START, steps).store.requests
    ensures var s := Run(START, steps).store; r.packet in s.packets
    ensures var s := Run(START, steps).store;
      RequestHolds(s, files, r) <==> IntactFiles(files, r.packet, s.packets[r.packet], Artifacts(r.manifest, r.receipt))
  {
    hide Run, StoreInv, IntactFiles, RequestHolds;
    var s := Reached(steps);
    RequestAccepted(s, files, r);
  }

  // ---------------------------------------------------------------- the claim loop

  /** A claim row agrees with its request and its event; numbering is checked separately. */
  predicate ClaimLinked(s: Store, d: Dispatch) {
    var r := RequestById(s.requests, d.effect);
    && r.Some? && d.hash == RequestHash(r.value) && r.value.event < d.event
    && RecordedAs(s, d.event, ClaimEffect, d.hash, DispatchIdentifiers(d.effect, d.id, d.attempt))
  }

  method AuditClaim(s: Store, d: Dispatch) returns (mismatch: bool)
    ensures mismatch <==> !ClaimLinked(s, d)
  {
    hide RequestById;
    var r := RequestById(s.requests, d.effect);
    mismatch := r.None? || !Recorded(s, d.event);
    if !mismatch {
      var event := At(s, d.event);
      mismatch := d.hash != RequestHash(r.value) || event.command != ClaimEffect || !event.accepted || event.governed != Request(d.hash)
        || d.event <= r.value.event || event.identifiers != DispatchIdentifiers(d.effect, d.id, d.attempt);
    }
  }

  /** `prior_attempt.get(effect_id, 0)`. */
  function Prior(prior: map<EffectId, nat>, effect: EffectId): nat {
    if effect in prior then prior[effect] else 0
  }

  /** The accumulator is, for every effect, the attempt of its last row so far. */
  ghost predicate LastAttempts(prior: map<EffectId, nat>, rows: seq<Dispatch>) {
    forall effect ::
      var claims := ClaimsOf(rows, effect);
      Prior(prior, effect) == if claims == [] then 0 else claims[|claims| - 1].attempt
  }

  lemma NumberedAppend(claims: seq<Dispatch>, d: Dispatch)
    ensures Numbered(claims + [d]) <==> Numbered(claims) && d.attempt == |claims| + 1
  {
    if Numbered(claims + [d]) {
      assert (claims + [d])[|claims|] == d;
      assert forall i :: 0 <= i < |claims| ==> (claims + [d])[i] == claims[i];
    }
  }

  ghost predicate AllNumbered(rows: seq<Dispatch>) {
    forall effect :: Numbered(ClaimsOf(rows, effect))
  }

  lemma OneMoreRow(rows: seq<Dispatch>, d: Dispatch, effect: EffectId)
    ensures Numbered(ClaimsOf(rows + [d], effect)) <==>
      Numbered(ClaimsOf(rows, effect)) && (d.effect == effect ==> d.attempt == |ClaimsOf(rows, effect)| + 1)
  {
    hide Numbered, ClaimsOf;
    var claims := ClaimsOf(rows, effect);
    ClaimsAppend(rows, d, effect);
    NumberedAppend(claims, d);
    assert claims + [] == claims;
  }

  /** One more row keeps every effect numbered iff its attempt follows its effect's last. */
  lemma NextAttempt(rows: seq<Dispatch>, d: Dispatch, prior: map<EffectId, nat>)
    requires LastAttempts(prior, rows)
    ensures AllNumbered(rows + [d]) <==> AllNumbered(rows) && d.attempt == Prior(prior, d.effect) + 1
  {
    hide Numbered, Prior, ClaimsOf;
    forall effect
      ensures Numbered(ClaimsOf(rows + [d], effect)) <==>
        Numbered(ClaimsOf(rows, effect)) && (d.effect == effect ==> d.attempt == |ClaimsOf(rows, effect)| + 1)
    {
      OneMoreRow(rows, d, effect);
    }
    if AllNumbered(rows) {
      LastNumber(ClaimsOf(rows, d.effect));
      LastAttempt(prior, rows, d.effect);
      assert AllNumbered(rows + [d]) ==> Numbered(ClaimsOf(rows + [d], d.effect));
    } else {
      var effect :| !Numbered(ClaimsOf(rows, effect));
      assert !Numbered(ClaimsOf(rows + [d], effect));
    }
  }

  lemma LastAttempt(prior: map<EffectId, nat>, rows: seq<Dispatch>, effect: EffectId)
    requires LastAttempts(prior, rows)
    ensures var claims := ClaimsOf(rows, effect); Prior(prior, effect) == if claims == [] then 0 else claims[|claims| - 1].attempt
  {
    hide Prior, ClaimsOf;
  }

  lemma LastNumber(claims: seq<Dispatch>)
    requires Numbered(claims)
    ensures claims != [] ==> claims[|claims| - 1].attempt == |claims|
  {
  }

  lemma LastAttemptsAppend(rows: seq<Dispatch>, d: Dispatch, prior: map<EffectId, nat>)
    requires LastAttempts(prior, rows)
    ensures LastAttempts(prior[d.effect := d.attempt], rows + [d])
  {
    forall effect
      ensures ClaimsOf(rows + [d], effect) == if effect == d.effect then ClaimsOf(rows, effect) + [d] else ClaimsOf(rows, effect)
    {
      ClaimsAppend(rows, d, effect);
    }
  }

  ghost predicate ClaimsHold(s: Store, rows: seq<Dispatch>) {
    && AllNumbered(rows)
    && (forall d :: d in rows ==> ClaimLinked(s, d))
  }

  lemma ClaimsHoldAppend(s: Store, rows: seq<Dispatch>, d: Dispatch, prior: map<EffectId, nat>)
    requires LastAttempts(prior, rows)
    ensures ClaimsHold(s, rows + [d]) <==> ClaimsHold(s, rows) && d.attempt == Prior(prior, d.effect) + 1 && ClaimLinked(s, d)
  {
    hide ClaimLinked, AllNumbered, LastAttempts, Prior;
    NextAttempt(rows, d, prior);
    assert d in rows + [d];
    assert forall other :: other in rows + [d] <==> other in rows || other == d;
  }

  /** The `prior_attempt` loop accepts exactly the rows whose claims are numbered 1..n effect by
      effect and are each linked to their request and event. */
  method VerifyClaims(s: Store, rows: seq<Dispatch>) returns (failures: seq<EffectFailure>)
    ensures failures == [] <==> ClaimsHold(s, rows)
  {
    hide ClaimLinked, Numbered, LastAttempts, ClaimsHold;
    failures := [];
    var prior: map<EffectId, nat> := map[];
    NothingClaimed(s);
    var i := 0;
    while i < |rows|
      invariant 0 <= i <= |rows|
      invariant LastAttempts(prior, rows[..i])
      invariant failures == [] <==> ClaimsHold(s, rows[..i])
    {
      var d := rows[i];
      assert rows[..i + 1] == rows[..i] + [d];
      var previous := Prior(prior, d.effect);
      ClaimsHoldAppend(s, rows[..i], d, prior);
      LastAttemptsAppend(rows[..i], d, prior);
      prior := prior[d.effect := d.attempt];
      var mismatch := AuditClaim(s, d);
      if d.attempt != previous + 1 || mismatch { failures := failures + [EffectFailure(DispatchMismatch, d.event)]; }
      i := i + 1;
    }
    assert rows[..i] == rows;
  }

  lemma NothingClaimed(s: Store)
    ensures LastAttempts(map[], []) && ClaimsHold(s, [])
  {
  }

  // ---------------------------------------------------------------- the retry loop

  /** The first row with this effect and attempt. */
  function ClaimNumbered(rows: seq<Dispatch>, effect: EffectId, attempt: int): Option<Dispatch> {
    if rows == [] then None
    else if rows[0].effect == effect && rows[0].attempt == attempt then Some(rows[0])
    else ClaimNumbered(rows[1..], effect, attempt)
  }

  predicate RetryHolds(s: Store, rows: seq<Dispatch>, d: Dispatch) {
    d.attempt > 1 ==>
      var prior := ClaimNumbered(rows, d.effect, d.attempt - 1);
      prior.Some? && RetrySafe(s.results, prior.value) && s.results[prior.value.id].event < d.event
  }

  method VerifyRetries(s: Store, rows: seq<Dispatch>) returns (failures: seq<EffectFailure>)
    ensures failures == [] <==> forall d :: d in rows ==> RetryHolds(s, rows, d)
  {
    failures := [];
    var i := 0;
    while i < |rows|
      invariant 0 <= i <= |rows|
      invariant failures == [] <==> forall j :: 0 <= j < i ==> RetryHolds(s, rows, rows[j])
    {
      var d := rows[i];
      if d.attempt > 1 {
        var j := 0;
        while j < |rows| && !(rows[j].effect == d.effect && rows[j].attempt == d.attempt - 1)
          invariant 0 <= j <= |rows|
          invariant ClaimNumbered(rows, d.effect, d.attempt - 1) == ClaimNumbered(rows[j..], d.effect, d.attempt - 1)
        {
          j := j + 1;
        }
        if j == |rows| || !RetrySafe(s.results, rows[j]) || s.results[rows[j].id].event >= d.event {
          failures := failures + [EffectFailure(UnsafeRetry, d.event)];
        }
      }
      i := i + 1;
    }
  }

  // ---------------------------------------------------------------- the result loop

  /** What the loop compares of a result. It looks up the request by the result's effect and the
      claim by the result's dispatch, and never compares the one with the other. */
  predicate ResultHolds(s: Store, rows: seq<Dispatch>, id: DispatchId)
    requires id in s.results
  {
    var row := s.results[id];
    var e := row.proof.envelope;
    var d := DispatchById(rows, id);
    && RequestById(s.requests, e.effect).Some? && d.Some? && e.dispatch == id
    && e.executor in s.executors && s.executors[e.executor].key == e.executorKey
    && ValidResult(e) && row.proof.signer == e.executorKey && row.proof.signed == e
    && RecordedAs(s, row.event, RecordResult, e.hash, ResultIdentifiers(row.proof))
    && d.value.event < row.event && s.executors[e.executor].event < row.event
  }

  /** One turn of the result loop. */
  method AuditResult(s: Store, rows: seq<Dispatch>, id: DispatchId) returns (found: seq<EffectFailure>)
    requires id in s.results
    ensures found == [] <==> ResultHolds(s, rows, id)
  {
    hide RequestById, DispatchById, ValidResult;
    var row := s.results[id];
    var e := row.proof.envelope;
    var effect, dispatch := RequestById(s.requests, e.effect), DispatchById(rows, id);
    var mismatch := effect.None? || dispatch.None? || e.executor !in s.executors || !Recorded(s, row.event);
    if !mismatch {
      var executor, event := s.executors[e.executor], At(s, row.event);
      mismatch := !ValidResult(e) || executor.key != e.executorKey || row.proof.signer != executor.key || row.proof.signed != e
        || e.dispatch != id;
      mismatch := mismatch || event.command != RecordResult || !event.accepted || event.governed != Request(e.hash)
        || event.identifiers != ResultIdentifiers(row.proof);
      mismatch := mismatch || row.event <= dispatch.value.event || row.event <= executor.event;
    }
    found := if mismatch then [EffectFailure(ResultMismatch, row.event)] else [];
  }

  method VerifyResults(s: Store, rows: seq<Dispatch>) returns (failures: seq<EffectFailure>)
    ensures failures == [] <==> forall id :: id in s.results ==> ResultHolds(s, rows, id)
  {
    hide ResultHolds;
    failures := [];
    var ids := s.results.Keys;
    while ids != {}
      invariant ids <= s.results.Keys
      invariant failures == [] <==> forall id :: id in s.results && id !in ids ==> ResultHolds(s, rows, id)
      decreases |ids|
    {
      var id :| id in ids;
      var found := AuditResult(s, rows, id);
      failures := failures + found;
      ids := ids - {id};
    }
  }

  ghost predicate EffectAuditHolds(s: Store, rows: seq<Dispatch>) {
    && ClaimsHold(s, rows)
    && (forall d :: d in rows ==> RetryHolds(s, rows, d))
    && (forall id :: id in s.results ==> ResultHolds(s, rows, id))
  }

  method VerifyEffects(s: Store, rows: seq<Dispatch>) returns (failures: seq<EffectFailure>)
    ensures failures == [] <==> EffectAuditHolds(s, rows)
  {
    hide ClaimsHold, RetryHolds, ResultHolds;
    var claims := VerifyClaims(s, rows);
    var retries := VerifyRetries(s, rows);
    var results := VerifyResults(s, rows);
    failures := claims + retries + results;
  }

  // ---------------------------------------------------------------- soundness

  lemma {:induction false} ClaimNumberedExact(rows: seq<Dispatch>, effect: EffectId, attempt: int)
    ensures var d := ClaimNumbered(rows, effect, attempt);
      if d.Some? then d.value in rows && d.value.effect == effect && d.value.attempt == attempt
      else forall other :: other in rows && other.effect == effect ==> other.attempt != attempt
  {
    if rows != [] && !(rows[0].effect == effect && rows[0].attempt == attempt) { ClaimNumberedExact(rows[1..], effect, attempt); }
  }

  /** In a numbered list of claims, the attempt determines the claim. */
  lemma NumberedClaim(rows: seq<Dispatch>, effect: EffectId, i: nat)
    requires Numbered(ClaimsOf(rows, effect)) && i < |ClaimsOf(rows, effect)|
    ensures ClaimNumbered(rows, effect, i + 1) == Some(ClaimsOf(rows, effect)[i])
  {
    hide ClaimsOf, ClaimNumbered;
    var claims := ClaimsOf(rows, effect);
    ClaimsExact(rows, effect);
    ClaimNumberedExact(rows, effect, i + 1);
    assert claims[i] in claims;
    var d := ClaimNumbered(rows, effect, i + 1).value;
    assert d in claims;
    var j :| 0 <= j < |claims| && claims[j] == d;
  }

  /** Effect audit soundness: whatever wrote the tables, if the loops accept them then, with
      results grouped by claim, every effect happened at most once. */
  lemma EffectAuditSound(s: Store, rows: seq<Dispatch>, effect: EffectId)
    requires EffectAuditHolds(s, rows) && DistinctClaims(rows)
    ensures AtMostOnce(rows, s.results, effect)
  {
    hide ClaimLinked, ClaimsOf, ClaimNumbered, RetrySafe, ValidResult, AtMostOnce;
    var claims := ClaimsOf(rows, effect);
    assert Numbered(claims);
    ClaimsExact(rows, effect);
    forall i, j | 0 <= i < |claims| && j == i + 1 < |claims|
      ensures RetriedAfter(s.results, claims[i], claims[j])
    {
      assert claims[i] in claims && claims[j] in claims;
      assert RetryHolds(s, rows, claims[j]);
      NumberedClaim(rows, effect, i);
      assert RetrySafe(s.results, claims[i]);
      ResultAfterClaim(s, rows, claims[i]);
    }
    forall id | id in s.results ensures ValidResult(s.results[id].proof.envelope) { assert ResultHolds(s, rows, id); }
    SafeRetriesAreAtMostOnce(rows, s.results, effect);
  }

  lemma ResultAfterClaim(s: Store, rows: seq<Dispatch>, d: Dispatch)
    requires EffectAuditHolds(s, rows) && DistinctClaims(rows) && d in rows && RetrySafe(s.results, d)
    ensures d.event < s.results[d.id].event
  {
    hide ClaimLinked, ClaimsOf, ClaimsHold, RetryHolds, ValidResult;
    assert ResultHolds(s, rows, d.id);
    DispatchByIdFinds(rows, d.id);
  }

  // ---------------------------------------------------------------- completeness

  /** The claim rows in `ORDER BY effect_id, attempt_number`, as far as the loops depend on it:
      the same rows, each effect's in increasing attempts. */
  ghost predicate OrderedRows(rows: seq<Dispatch>, dispatches: seq<Dispatch>) {
    && DistinctClaims(rows)
    && (forall d :: d in rows <==> d in dispatches)
    && (forall effect :: Increasing(ClaimsOf(rows, effect)))
  }

  ghost predicate Increasing(claims: seq<Dispatch>) {
    forall i, j :: 0 <= i < j < |claims| ==> claims[i].attempt < claims[j].attempt
  }

  lemma FirstMember(b: seq<Dispatch>)
    requires b != []
    ensures b[0] in b
  {
  }

  lemma {:induction false} SameIncreasing(a: seq<Dispatch>, b: seq<Dispatch>)
    requires Increasing(a) && Increasing(b) && (forall d :: d in a <==> d in b)
    ensures a == b
    decreases |a|
  {
    if a == [] {
      if b != [] { FirstMember(b); }
    } else {
      assert a[0] in b;
      var n, m := |a| - 1, |b| - 1;
      LastOfIncreasing(a, b);
      forall d
        ensures d in a[..n] <==> d in b[..m]
      {
        InitMembers(a, d);
        InitMembers(b, d);
      }
      SameIncreasing(a[..n], b[..m]);
      assert a == a[..n] + [a[n]] && b == b[..m] + [b[m]];
    }
  }

  lemma InitMembers(a: seq<Dispatch>, d: Dispatch)
    requires Increasing(a) && a != []
    ensures d in a[..|a| - 1] <==> d in a && d != a[|a| - 1]
  {
    var n := |a| - 1;
    assert a == a[..n] + [a[n]];
    if d in a[..n] {
      var i :| 0 <= i < n && a[i] == d;
      assert a[i].attempt < a[n].attempt;
    }
  }

  lemma LastOfIncreasing(a: seq<Dispatch>, b: seq<Dispatch>)
    requires Increasing(a) && Increasing(b) && (forall d :: d in a <==> d in b) && a != [] && b != []
    ensures a[|a| - 1] == b[|b| - 1]
  {
    var n, m := |a| - 1, |b| - 1;
    assert a[n] in b && b[m] in a;
    var i :| 0 <= i <= m && b[i] == a[n];
    var j :| 0 <= j <= n && a[j] == b[m];
    AtMostLast(b, i);
    AtMostLast(a, j);
  }

  lemma AtMostLast(claims: seq<Dispatch>, i: nat)
    requires Increasing(claims) && i < |claims|
    ensures claims[i].attempt <= claims[|claims| - 1].attempt
    ensures claims[i].attempt == claims[|claims| - 1].attempt ==> i == |claims| - 1
  {
  }

  lemma SameClaims(s: Store, rows: seq<Dispatch>, effect: EffectId)
    requires SafelyRetried(ClaimsOf(s.dispatches, effect), s.results) && OrderedRows(rows, s.dispatches)
    ensures ClaimsOf(rows, effect) == ClaimsOf(s.dispatches, effect)
  {
    ClaimsExact(rows, effect);
    ClaimsExact(s.dispatches, effect);
    SameIncreasing(ClaimsOf(rows, effect), ClaimsOf(s.dispatches, effect));
  }

  lemma RequestByIdExact(requests: seq<EffectRequest>, r: EffectRequest)
    requires DistinctRequests(requests) && r in requests
    ensures RequestById(requests, r.effect) == Some(r)
  {
    RequestByIdFinds(requests, r.effect);
    RequestByIdFound(requests, r);
  }

  lemma {:induction false} RequestByIdFound(requests: seq<EffectRequest>, r: EffectRequest)
    requires r in requests
    ensures RequestById(requests, r.effect).Some?
  {
    if requests[0].effect != r.effect { RequestByIdFound(requests[1..], r); }
  }

  lemma ClaimAccepted(s: Store, rows: seq<Dispatch>, d: Dispatch)
    requires EffectInv(s) && OrderedRows(rows, s.dispatches) && d in rows
    ensures ClaimLinked(s, d)
  {
    hide RequestSound, ResultSound, SafelyRetried, Increasing;
    assert ClaimSound(s, d);
    var r :| r in s.requests && r.effect == d.effect && RequestHash(r) == d.hash && r.event < d.event;
    RequestByIdExact(s.requests, r);
  }

  lemma RetryAccepted(s: Store, rows: seq<Dispatch>, d: Dispatch)
    requires EffectInv(s) && OrderedRows(rows, s.dispatches) && d in rows
    ensures RetryHolds(s, rows, d)
  {
    hide RequestSound, ClaimSound, ResultSound, Increasing, ClaimsOf, ClaimNumbered, RetrySafe, DistinctClaims, DistinctRequests;
    var claims := ClaimsOf(rows, d.effect);
    assert SafelyRetried(ClaimsOf(s.dispatches, d.effect), s.results);
    SameClaims(s, rows, d.effect);
    ClaimsExact(rows, d.effect);
    assert d in claims;
    var i :| 0 <= i < |claims| && claims[i] == d;
    if i > 0 {
      var h := i - 1;
      assert RetriedAfter(s.results, claims[h], claims[i]);
      NumberedClaim(rows, d.effect, h);
    }
  }

  lemma ResultAccepted(s: Store, rows: seq<Dispatch>, id: DispatchId)
    requires EffectInv(s) && OrderedRows(rows, s.dispatches) && id in s.results
    ensures ResultHolds(s, rows, id)
  {
    hide RequestSound, ClaimSound, SafelyRetried, Increasing, ClaimsOf, ValidResult;
    assert ResultSound(s, id);
    var e := s.results[id].proof.envelope;
    var d, r :| d in s.dispatches && d.id == id && d.event < s.results[id].event && r in s.requests && ResultBound(e, r, d);
    RequestByIdExact(s.requests, r);
    DispatchByIdFinds(rows, id);
    assert d in rows;
  }

  lemma ReachedEffects(s: Store)
    requires StoreInv(s)
    ensures EffectInv(s)
  {
  }

  /** Effect audit completeness: the loops accept every reachable store. */
  lemma EffectAuditComplete(steps: seq<Step>, rows: seq<Dispatch>)
    requires OrderedRows(rows, Run(START, steps).store.dispatches)
    ensures EffectAuditHolds(Run(START, steps).store, rows)
  {
    hide Run, StoreInv, OrderedRows, ClaimLinked, RetryHolds, ResultHolds, RequestSound,
         ClaimSound, ResultSound, DistinctClaims, DistinctRequests;
    var s := Reached(steps);
    ReachedEffects(s);
    forall effect ensures Numbered(ClaimsOf(rows, effect)) { SameClaims(s, rows, effect); }
    forall d | d in rows ensures ClaimLinked(s, d) && RetryHolds(s, rows, d) { ClaimAccepted(s, rows, d); RetryAccepted(s, rows, d); }
    forall id | id in s.results ensures ResultHolds(s, rows, id) { ResultAccepted(s, rows, id); }
  }
}
