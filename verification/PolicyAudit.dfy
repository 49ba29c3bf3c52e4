/** The policy part of the integrity audit (integrity.py): loops over consumed operations,
    grants, revocations and events, and what they accept. */
module PolicyAudit {
  import opened Models
  import opened Authorization
  import opened Ledger
  import opened Writers

  datatype AuditCode =
    | AuthenticatedOperationMismatch
    | MissingPolicyState | BootstrapLinkageMismatch | MissingEffectivePolicyAdmin
    | GrantEventMismatch | UnknownGrantPrincipal | InvalidCapabilityScope | InvalidGrantScope
    | RevocationEventMismatch
    | InvalidAuthorizationReason
    | MissingAuthorizationEvidence | InvalidAuthorizationScope | InvalidAuthorizationPacketScope
    | AuthorizationPrincipalMismatch | MissingAuthorizingGrant | AuthorizingGrantMismatch

  datatype AuditFailure = AuditFailure(code: AuditCode, event: Sequence)

  // ---------------------------------------------------------------- consumed operations

  function CommandOf(v: Envelope): Command {
    match v
    case PacketEnvelope(_, _, _, _, _, operation, _, _, _, _, _, _, _, _, _, _) => Authority(operation)
    case PolicyEnvelope(_, _, _, _, _, policy, _, _, _, _, _, _, _) => Policy(policy)
    case BindingEnvelope(_, _, _, _, _, _, _, _, _) => RegisterBinding
    case ExecutorEnvelope(_, _, _, _, _, _, _) => RegisterExecutor
  }

  function IdentifiersOf(v: Envelope): Identifiers {
    match v
    case PacketEnvelope(_, _, _, _, _, _, _, _, _, _, _, _, _, _, _, _) => PacketIdentifiersOf(v)
    case PolicyEnvelope(_, _, _, _, _, _, _, _, _, _, _, _, _) => PolicyIdentifiersOf(v)
    case BindingEnvelope(id, _, _, _, _, binding, scope, target, credential) => BindingIdentifiers(id, binding, scope, target, credential)
    case ExecutorEnvelope(id, _, _, _, _, executor, key) => ExecutorIdentifiers(id, executor, key)
  }

  /** The consumed operation is trusted, and its event adjudicates exactly it. */
  predicate OperationHolds(s: Store, o: OperationId)
    requires o in s.operations
  {
    var c := s.operations[o];
    var v := c.proof.envelope;
    && v.principal in s.principals && v.id == o
    && Recorded(s, c.event)
    && var e := At(s, c.event);
       && e.authentication == Verified(c.proof) && e.accepted == c.accepted
       && e.command == CommandOf(v) && e.identifiers == IdentifiersOf(v)
  }

  method AuditOperation(s: Store, o: OperationId) returns (found: seq<AuditFailure>)
    requires o in s.operations
    ensures found == [] <==> OperationHolds(s, o)
  {
    var c := s.operations[o];
    var v := c.proof.envelope;
    var common, binding := true, true;
    if Recorded(s, c.event) {
      var e := At(s, c.event);
      common := v.principal !in s.principals || v.id != o || e.authentication != Verified(c.proof) || e.accepted != c.accepted;
      match v {
        case PacketEnvelope(_, _, _, _, _, operation, _, _, _, _, _, _, _, _, _, _) =>
          binding := e.command != Authority(operation) || e.identifiers != PacketIdentifiersOf(v);
        case PolicyEnvelope(_, _, _, _, _, policy, _, _, _, _, _, _, _) =>
          binding := e.command != Policy(policy) || e.identifiers != PolicyIdentifiersOf(v);
        case BindingEnvelope(id, _, _, _, _, b, scope, target, credential) =>
          binding := e.command != RegisterBinding || e.identifiers != BindingIdentifiers(id, b, scope, target, credential);
        case ExecutorEnvelope(id, _, _, _, _, executor, key) =>
          binding := e.command != RegisterExecutor || e.identifiers != ExecutorIdentifiers(id, executor, key);
      }
    }
    found := if common || binding then [AuditFailure(AuthenticatedOperationMismatch, c.event)] else [];
  }

  // ---------------------------------------------------------------- bootstrap state

  predicate BootstrapLinked(s: Store, p: PolicyState) {
    && Recorded(s, p.event)
    && var g := GrantById(s.grants, p.grant);
       && g.Some? && g.value.capability == PolicyManageCapabilities && g.value.subject == p.principal
       && g.value.event == p.event && g.value.operation == p.operation
       && p.operation in s.operations && At(s, p.event).command == Policy(Bootstrap) && p.principal in s.principals
  }

  predicate HasActiveAdmin(s: Store) {
    exists g :: g in s.grants && g.capability == PolicyManageCapabilities && g.id !in s.revocations
  }

  predicate StateHolds(s: Store) {
    match s.policy
    case None => s.grants == []
    case Some(p) => BootstrapLinked(s, p) && HasActiveAdmin(s)
  }

  method AuditState(s: Store) returns (found: seq<AuditFailure>)
    ensures found == [] <==> StateHolds(s)
  {
    found := [];
    match s.policy {
      case None => if s.grants != [] { found := found + [AuditFailure(MissingPolicyState, 0)]; }
      case Some(p) =>
        var g := GrantById(s.grants, p.grant);
        var mismatch := !Recorded(s, p.event) || g.None? || p.operation !in s.operations || p.principal !in s.principals;
        if !mismatch {
          mismatch := At(s, p.event).command != Policy(Bootstrap) || g.value.capability != PolicyManageCapabilities
            || g.value.subject != p.principal || g.value.event != p.event || g.value.operation != p.operation;
        }
        if mismatch { found := found + [AuditFailure(BootstrapLinkageMismatch, p.event)]; }
        var i, active := 0, false;
        while i < |s.grants|
          invariant 0 <= i <= |s.grants|
          invariant active <==> exists j :: 0 <= j < i && s.grants[j].capability == PolicyManageCapabilities && s.grants[j].id !in s.revocations
        {
          active := active || (s.grants[i].capability == PolicyManageCapabilities && s.grants[i].id !in s.revocations);
          i := i + 1;
        }
        if !active { found := found + [AuditFailure(MissingEffectivePolicyAdmin, 0)]; }
    }
  }

  // ---------------------------------------------------------------- grants and revocations

  predicate GrantsByEnvelope(v: Envelope, g: GrantRow) {
    && v.PolicyEnvelope? && v.policy in {Bootstrap, Grant}
    && (v.grantId, v.subject, v.capability, v.grantPrior, v.grantRequested, v.columns)
       == (g.id, g.subject, g.capability, g.prior, g.requested, g.scope)
  }

  predicate GrantLinked(s: Store, g: GrantRow) {
    && Recorded(s, g.event) && g.operation in s.operations && s.operations[g.operation].event == g.event
    && GrantsByEnvelope(s.operations[g.operation].proof.envelope, g)
    && var e := At(s, g.event);
       && e.accepted && (e.command == Policy(Bootstrap) || e.command == Policy(Grant))
       && e.authentication.Verified? && e.authentication.proof.envelope.principal == g.grantedBy
       && e.authentication.proof.envelope.id == g.operation
       && e.identifiers.PolicyIdentifiers?
       && (e.identifiers.grantId, e.identifiers.subject, e.identifiers.capability, e.identifiers.prior, e.identifiers.requested, e.identifiers.columns)
          == (g.id, g.subject, g.capability, g.prior, g.requested, g.scope)
       && e.authorization.Some? && e.authorization.value.status == Allowed
  }

  predicate GrantScopeValid(g: GrantRow) {
    if !PacketScoped(g.capability) then !g.scope.Exact? else !g.scope.Versioned?
  }

  predicate GrantHolds(s: Store, g: GrantRow) {
    && GrantLinked(s, g) && g.subject in s.principals && g.grantedBy in s.principals
    && (g.prior, g.requested) == StatePair(g.capability) && GrantScopeValid(g)
  }

  method AuditGrant(s: Store, g: GrantRow) returns (found: seq<AuditFailure>)
    ensures found == [] <==> GrantHolds(s, g)
  {
    found := [];
    var mismatch := !Recorded(s, g.event) || g.operation !in s.operations;
    if !mismatch {
      var e, c := At(s, g.event), s.operations[g.operation];
      var v := c.proof.envelope;
      mismatch := !e.accepted || e.command !in {Policy(Bootstrap), Policy(Grant)} || !e.authentication.Verified?
        || !e.identifiers.PolicyIdentifiers? || c.event != g.event || !v.PolicyEnvelope? || v.policy !in {Bootstrap, Grant};
      if !mismatch {
        var signed, i := e.authentication.proof.envelope, e.identifiers;
        mismatch := signed.principal != g.grantedBy || signed.id != g.operation
          || i.grantId != g.id || i.subject != g.subject || i.capability != g.capability
          || i.prior != g.prior || i.requested != g.requested || i.columns != g.scope
          || v.grantId != g.id || v.subject != g.subject || v.capability != g.capability
          || v.grantPrior != g.prior || v.grantRequested != g.requested || v.columns != g.scope
          || e.authorization.None? || e.authorization.value.status != Allowed;
      }
    }
    if mismatch { found := found + [AuditFailure(GrantEventMismatch, g.event)]; }
    if g.subject !in s.principals || g.grantedBy !in s.principals { found := found + [AuditFailure(UnknownGrantPrincipal, g.event)]; }
    if StatePair(g.capability) != (g.prior, g.requested) { found := found + [AuditFailure(InvalidCapabilityScope, g.event)]; }
    var scopeValid := true;
    if g.capability in {PolicyManageCapabilities, EffectManageBindings} {
      scopeValid := g.scope in {Unversioned, Versioned};
    } else if g.scope != Unversioned {
      scopeValid := g.scope.Exact?;
    }
    if !scopeValid { found := found + [AuditFailure(InvalidGrantScope, g.event)]; }
  }

  predicate RevokesByEnvelope(v: Envelope, r: Revocation, g: GrantRow) {
    && v.PolicyEnvelope? && v.policy == Revoke && v.revocation == Some(r.id)
    && (v.grantId, v.subject, v.capability, v.grantPrior, v.grantRequested, v.columns)
       == (g.id, g.subject, g.capability, g.prior, g.requested, g.scope)
  }

  predicate RevocationHolds(s: Store, id: GrantId)
    requires id in s.revocations
  {
    var r, g := s.revocations[id], GrantById(s.grants, id);
    && g.Some? && g.value.event < r.event && Recorded(s, r.event)
    && r.operation in s.operations && s.operations[r.operation].event == r.event
    && RevokesByEnvelope(s.operations[r.operation].proof.envelope, r, g.value)
    && r.actor in s.principals
    && var e := At(s, r.event);
       && e.command == Policy(Revoke) && e.accepted
       && e.authentication.Verified? && e.authentication.proof.envelope.principal == r.actor
       && e.authentication.proof.envelope.id == r.operation
       && e.identifiers.PolicyIdentifiers? && e.identifiers.revocation == Some(r.id) && e.identifiers.grantId == id
       && e.authorization.Some? && e.authorization.value.status == Allowed
  }

  /** One turn of the revocation loop. */
  method AuditRevocation(s: Store, id: GrantId) returns (found: seq<AuditFailure>)
    requires id in s.revocations
    ensures found == [] <==> RevocationHolds(s, id)
  {
    hide GrantById;
    var r, target := s.revocations[id], GrantById(s.grants, id);
    var mismatch := target.None? || !Recorded(s, r.event) || r.operation !in s.operations;
    if !mismatch {
      var e, c, g := At(s, r.event), s.operations[r.operation], target.value;
      var v := c.proof.envelope;
      mismatch := e.command != Policy(Revoke) || !e.accepted || !e.authentication.Verified? || !e.identifiers.PolicyIdentifiers?
        || c.event != r.event || !v.PolicyEnvelope? || v.policy != Revoke;
      if !mismatch {
        var signed, i := e.authentication.proof.envelope, e.identifiers;
        mismatch := signed.principal != r.actor || signed.id != r.operation || i.revocation != Some(r.id) || i.grantId != id
          || v.revocation != Some(r.id) || v.grantId != g.id || v.subject != g.subject || v.capability != g.capability
          || v.grantPrior != g.prior || v.grantRequested != g.requested || v.columns != g.scope
          || e.authorization.None? || e.authorization.value.status != Allowed || r.actor !in s.principals || g.event >= r.event;
      }
    }
    found := if mismatch then [AuditFailure(RevocationEventMismatch, r.event)] else [];
  }

  // ---------------------------------------------------------------- events

  /** `allowed_reasons`, `not_evaluated_reasons` and the rest. */
  predicate ReasonConsistent(d: Decision) {
    match d.status
    case Allowed => d.reason in {ActiveGrant, BootstrapAllowed}
    case NotEvaluated => d.reason in {ReplayRejectedReason, RequestBindingRejected}
    case Denied => d.reason !in {ActiveGrant, BootstrapAllowed, ReplayRejectedReason, RequestBindingRejected}
  }

  predicate ReasonHolds(s: Store, k: Sequence)
    requires Recorded(s, k)
  {
    At(s, k).authorization.Some? ==> ReasonConsistent(At(s, k).authorization.value)
  }

  /** `scopes`: the capability and state pair each authority command is decided under. */
  function ScopeOf(command: Command): Option<(Capability, Option<WorkflowState>, Option<WorkflowState>)> {
    match command
    case Authority(operation) => Some((RequiredCapability(operation), Some(PriorOf(operation)), Some(RequestedOf(operation))))
    case Policy(_) => Some((PolicyManageCapabilities, None, None))
    case RegisterBinding => Some((EffectManageBindings, None, None))
    case RegisterExecutor => Some((EffectManageBindings, None, None))
    case _ => None
  }

  predicate EvidenceMissing(s: Store, k: Sequence)
    requires Recorded(s, k)
  {
    var e := At(s, k);
    && s.policy.Some? && Recorded(s, s.policy.value.event) && k >= s.policy.value.event
    && (e.authentication.Verified? || e.authentication.Replayed?)
    && ScopeOf(e.command).Some? && e.authorization.None?
  }

  predicate PacketScopeValid(d: Decision) {
    d.scope.Versioned? ==> !PacketScoped(d.capability) || d.reason == ScopeRequired
  }

  predicate PrincipalAgrees(e: Event)
    requires e.authorization.Some?
  {
    match e.authentication
    case Verified(proof) => e.authorization.value.principal == proof.envelope.principal
    case Replayed(proof) => e.authorization.value.principal == proof.envelope.principal
    case _ => false
  }

  /** The grant an allowed decision names was made before the event and not revoked before it. */
  predicate GrantInForce(s: Store, k: Sequence, d: Decision)
    requires d.grant.Some?
  {
    var g := GrantById(s.grants, d.grant.value);
    && g.Some?
    && g.value.subject == d.principal && g.value.capability == d.capability
    && g.value.prior == d.prior && g.value.requested == d.requested
    && g.value.event < k && (d.grant.value in s.revocations ==> s.revocations[d.grant.value].event >= k)
    && (PacketScoped(d.capability) ==> g.value.scope == d.scope)
  }

  predicate BindingHolds(s: Store, k: Sequence)
    requires Recorded(s, k)
  {
    && !EvidenceMissing(s, k)
    && (At(s, k).authorization.Some? ==>
          var e, d := At(s, k), At(s, k).authorization.value;
          && ScopeOf(e.command) == Some((d.capability, d.prior, d.requested))
          && PacketScopeValid(d) && PrincipalAgrees(e)
          && (d.status == Allowed && d.grant.None? ==> d.reason == BootstrapAllowed)
          && (d.status == Allowed && d.grant.Some? ==> GrantInForce(s, k, d)))
  }

  /** One turn of `_verify_authorization_event_bindings`. */
  method AuditEvent(s: Store, k: Sequence) returns (found: seq<AuditFailure>)
    requires Recorded(s, k)
    ensures found == [] <==> BindingHolds(s, k)
    ensures forall f :: f in found ==> f.event == k
  {
    found := [];
    var e := At(s, k);
    if EvidenceMissing(s, k) { found := found + [AuditFailure(MissingAuthorizationEvidence, k)]; }
    if e.authorization.None? { return; }
    var d := e.authorization.value;
    if ScopeOf(e.command) != Some((d.capability, d.prior, d.requested)) { found := found + [AuditFailure(InvalidAuthorizationScope, k)]; }
    if !PacketScopeValid(d) { found := found + [AuditFailure(InvalidAuthorizationPacketScope, k)]; }
    if !PrincipalAgrees(e) { found := found + [AuditFailure(AuthorizationPrincipalMismatch, k)]; }
    if d.status == Allowed && d.grant.None? && d.reason != BootstrapAllowed { found := found + [AuditFailure(MissingAuthorizingGrant, k)]; }
    if d.status != Allowed || d.grant.None? { return; }
    var g := GrantById(s.grants, d.grant.value);
    var mismatch := g.None?;
    if !mismatch {
      mismatch := g.value.subject != d.principal || g.value.capability != d.capability || g.value.prior != d.prior
        || g.value.requested != d.requested || g.value.event >= k
        || (d.grant.value in s.revocations && s.revocations[d.grant.value].event < k)
        || (PacketScoped(d.capability) && g.value.scope != d.scope);
    }
    if mismatch { found := found + [AuditFailure(AuthorizingGrantMismatch, k)]; }
  }

  predicate Flagged(failures: seq<AuditFailure>, k: Sequence) {
    exists f :: f in failures && f.event == k
  }

  /** The event passes both event loops. */
  predicate EventHolds(s: Store, k: Sequence)
    requires Recorded(s, k)
  {
    ReasonHolds(s, k) && BindingHolds(s, k)
  }

  /** The reason-code and authorization-binding loops flag exactly the events that fail them. */
  method VerifyEvents(s: Store) returns (failures: seq<AuditFailure>)
    ensures forall k :: Recorded(s, k) ==> (Flagged(failures, k) <==> !EventHolds(s, k))
    ensures failures == [] <==> forall k :: Recorded(s, k) ==> EventHolds(s, k)
  {
    failures := [];
    var k := 1;
    while k <= |s.log|
      invariant 1 <= k <= |s.log| + 1
      invariant forall f :: f in failures ==> 1 <= f.event < k
      invariant forall j: Sequence :: 1 <= j < k ==> (Flagged(failures, j) <==> !ReasonHolds(s, j))
    {
      ghost var before := failures;
      if At(s, k).authorization.Some? && !ReasonConsistent(At(s, k).authorization.value) {
        failures := failures + [AuditFailure(InvalidAuthorizationReason, k)];
      }
      FlaggedAppend(before, failures[|before|..], k);
      assert failures == before + failures[|before|..];
      k := k + 1;
    }
    k := 1;
    while k <= |s.log|
      invariant 1 <= k <= |s.log| + 1
      invariant forall f :: f in failures ==> 1 <= f.event <= |s.log|
      invariant forall j: Sequence :: 1 <= j < k ==> (Flagged(failures, j) <==> !EventHolds(s, j))
      invariant forall j: Sequence :: k <= j <= |s.log| ==> (Flagged(failures, j) <==> !ReasonHolds(s, j))
    {
      var found := AuditEvent(s, k);
      FlaggedAppend(failures, found, k);
      failures := failures + found;
      k := k + 1;
    }
    if failures != [] {
      assert Flagged(failures, failures[0].event);
    }
  }

  lemma FlaggedAppend(failures: seq<AuditFailure>, found: seq<AuditFailure>, k: Sequence)
    requires forall f :: f in found ==> f.event == k
    ensures forall j: Sequence :: Flagged(failures + found, j) <==> Flagged(failures, j) || (j == k && found != [])
  {
    if found != [] { assert found[0] in failures + found; }
    forall j: Sequence | Flagged(failures + found, j)
      ensures Flagged(failures, j) || (j == k && found != [])
    {
      var f :| f in failures + found && f.event == j;
    }
    forall j: Sequence | Flagged(failures, j)
      ensures Flagged(failures + found, j)
    {
      var f :| f in failures && f.event == j;
      assert f in failures + found;
    }
  }

  // ---------------------------------------------------------------- the whole policy audit

  ghost predicate PolicyAuditHolds(s: Store) {
    && (forall o :: o in s.operations ==> OperationHolds(s, o))
    && StateHolds(s)
    && (forall g :: g in s.grants ==> GrantHolds(s, g))
    && (forall id :: id in s.revocations ==> RevocationHolds(s, id))
    && (forall k :: Recorded(s, k) ==> EventHolds(s, k))
  }

  method VerifyOperations(s: Store) returns (failures: seq<AuditFailure>)
    ensures failures == [] <==> forall o :: o in s.operations ==> OperationHolds(s, o)
  {
    hide OperationHolds;
    failures := [];
    var operations := s.operations.Keys;
    while operations != {}
      invariant operations <= s.operations.Keys
      invariant failures == [] <==> forall o :: o in s.operations && o !in operations ==> OperationHolds(s, o)
      decreases |operations|
    {
      var o :| o in operations;
      var found := AuditOperation(s, o);
      failures := failures + found;
      operations := operations - {o};
    }
  }

  method VerifyGrants(s: Store) returns (failures: seq<AuditFailure>)
    ensures failures == [] <==> forall g :: g in s.grants ==> GrantHolds(s, g)
  {
    hide GrantHolds;
    failures := [];
    var i := 0;
    while i < |s.grants|
      invariant 0 <= i <= |s.grants|
      invariant failures == [] <==> forall j :: 0 <= j < i ==> GrantHolds(s, s.grants[j])
    {
      var found := AuditGrant(s, s.grants[i]);
      failures := failures + found;
      i := i + 1;
    }
  }

  method VerifyRevocations(s: Store) returns (failures: seq<AuditFailure>)
    ensures failures == [] <==> forall id :: id in s.revocations ==> RevocationHolds(s, id)
  {
    hide RevocationHolds;
    failures := [];
    var revocations := s.revocations.Keys;
    while revocations != {}
      invariant revocations <= s.revocations.Keys
      invariant failures == [] <==> forall id :: id in s.revocations && id !in revocations ==> RevocationHolds(s, id)
      decreases |revocations|
    {
      var id :| id in revocations;
      var found := AuditRevocation(s, id);
      failures := failures + found;
      revocations := revocations - {id};
    }
  }

  /** The policy part of `verify_integrity` accepts exactly the stores satisfying its predicate. */
  method VerifyPolicy(s: Store) returns (failures: seq<AuditFailure>)
    ensures failures == [] <==> PolicyAuditHolds(s)
  {
    hide OperationHolds, StateHolds, GrantHolds, RevocationHolds, EventHolds;
    var operations := VerifyOperations(s);
    var state := AuditState(s);
    var grants := VerifyGrants(s);
    var revocations := VerifyRevocations(s);
    var events := VerifyEvents(s);
    failures := operations + state + grants + revocations + events;
  }
}
