/** What the policy audit makes of the stores writers produce: exactly which recorded events it
    rejects. */
module PolicyAuditRuns {
  import opened Models
  import opened Authorization
  import opened Ledger
  import opened Writers
  import opened System
  import opened Consumption
  import opened PolicyRuns
  import opened Temporal
  import opened Runs
  import opened PolicyAudit

  /** A packet event is recorded under its own operation, in that operation's canonical states
      (and, if it is a replay, for a scoped request); a policy or registration event is not
      denied for its binding. */
  predicate CanonicalRecord(e: Event) {
    match e.authentication
    case Verified(proof) =>
      var v := proof.envelope;
      if v.PacketEnvelope? then e.prior == Some(PriorOf(v.operation)) && e.requested == Some(RequestedOf(v.operation))
      else e.authorization.Some? ==> !(e.authorization.value.status == Denied && e.authorization.value.reason == RequestBindingRejected)
    case Replayed(proof) =>
      var v := proof.envelope;
      v.PacketEnvelope? ==>
        && e.command == Authority(v.operation) && v.scope.Some?
        && e.prior == Some(PriorOf(v.operation)) && e.requested == Some(RequestedOf(v.operation))
    case _ => true
  }

  lemma ReasonExact(s: Store, k: Sequence)
    requires FormsInv(s) && Recorded(s, k)
    ensures ReasonHolds(s, k) <==>
      !(At(s, k).authorization.Some? && At(s, k).authorization.value.status == Denied
        && At(s, k).authorization.value.reason == RequestBindingRejected)
  {
    hide VerifiedForm;
    assert EventForm(At(s, k));
  }

  /** Whatever grant a recorded allowed decision names, the audit finds it in force. */
  lemma NamedGrantInForce(s: Store, k: Sequence)
    requires PolicyInv(s) && CommitTimeInv(s) && AllowedAt(s, k) && At(s, k).authorization.value.grant.Some?
    ensures GrantInForce(s, k, At(s, k).authorization.value)
  {
    hide Evaluate, ViewBefore, GrantSound, RevocationSound, BootstrapSound, HasAdmin, Ordered, AcceptedBootstrap;
    var e := At(s, k);
    var v, q := ViewBefore(s, k), QueryOf(e);
    assert AuthorizedOn(v, e);
    EvaluationForm(v, q);
    AllowedFits(v, q);
    AllowedIsAuthorized(s, k);
    var g :| EarliestAuthorizedBy(s, k, g) && e.authorization.value.grant == Some(g.id);
    GrantByIdFinds(s.grants, g.id);
  }

  lemma VerifiedExact(s: Store, k: Sequence)
    requires FormsInv(s) && PolicyInv(s) && CommitTimeInv(s) && Recorded(s, k) && At(s, k).authentication.Verified?
    ensures BindingHolds(s, k) <==>
      (At(s, k).authentication.proof.envelope.PacketEnvelope? ==> CanonicalRecord(At(s, k)))
  {
    hide PolicyInv, CommitTimeInv, GrantInForce, CanonicalSemantics, CanonicalPolicyEnvelope, PacketIdentifiersOf, PolicyIdentifiersOf;
    var e := At(s, k);
    assert EventForm(e);
    if AllowedAt(s, k) && e.authorization.value.grant.Some? { NamedGrantInForce(s, k); }
    assert ScopeOf(e.command).Some?;
  }

  lemma ReplayExact(s: Store, k: Sequence)
    requires FormsInv(s) && Recorded(s, k) && At(s, k).authentication.Replayed?
    ensures EventHolds(s, k) <==> CanonicalRecord(At(s, k))
  {
    hide PacketIdentifiersOf, PolicyIdentifiersOf;
    var e := At(s, k);
    assert EventForm(e);
  }

  /** One event passes both loops iff its record is canonical. */
  lemma EventExact(s: Store, k: Sequence)
    requires StoreInv(s) && Recorded(s, k)
    ensures EventHolds(s, k) <==> CanonicalRecord(At(s, k))
  {
    hide ConsumptionInv, PolicyInv, CommitTimeInv, PacketRuns.PacketInv, EffectRuns.EffectInv, BindingHolds, ReasonHolds;
    match At(s, k).authentication
    case Verified(proof) =>
      VerifiedExact(s, k);
      ReasonExact(s, k);
      VerifiedReason(s, k);
    case Replayed(_) => ReplayExact(s, k);
    case _ => UnauthorizedHolds(s, k);
  }

  lemma VerifiedReason(s: Store, k: Sequence)
    requires FormsInv(s) && Recorded(s, k) && At(s, k).authentication.Verified?
    ensures At(s, k).authorization.Some?
    ensures At(s, k).authentication.proof.envelope.PacketEnvelope? ==>
      !(At(s, k).authorization.value.status == Denied && At(s, k).authorization.value.reason == RequestBindingRejected)
  {
    hide VerifiedForm;
    assert EventForm(At(s, k));
  }

  lemma UnauthorizedHolds(s: Store, k: Sequence)
    requires FormsInv(s) && Recorded(s, k)
    requires At(s, k).authentication.FailedAuthentication? || At(s, k).authentication.Unauthenticated?
    ensures EventHolds(s, k)
  {
    assert EventForm(At(s, k));
  }

  // ---------------------------------------------------------------- the rows always pass

  lemma OperationsHold(s: Store, o: OperationId)
    requires ConsumptionInv(s) && FormsInv(s) && o in s.operations
    ensures OperationHolds(s, o)
  {
    hide DecisionForm, CanonicalSemantics, CanonicalPolicyEnvelope, PacketIdentifiersOf, PolicyIdentifiersOf, EventSound;
    assert OperationSound(s, o);
    assert EventForm(At(s, s.operations[o].event));
  }

  lemma GrantsHold(s: Store, g: GrantRow)
    requires StoreInv(s) && g in s.grants
    ensures GrantHolds(s, g)
  {
    hide PacketRuns.PacketInv, EffectRuns.EffectInv, RevocationSound, BootstrapSound, HasAdmin, AcceptedBootstrap, OperationSound,
         VerifiedForm, DecisionForm, AuthorizedOn, Ordered, DistinctIds;
    assert GrantSound(s, g);
    assert EventSound(s, g.event);
    assert AllowedAt(s, g.event);
    PolicyEventIdentifiers(s, g.event);
  }

  lemma PolicyEventIdentifiers(s: Store, k: Sequence)
    requires FormsInv(s) && Recorded(s, k) && At(s, k).authentication.Verified? && At(s, k).authentication.proof.envelope.PolicyEnvelope?
    ensures At(s, k).identifiers == PolicyIdentifiersOf(At(s, k).authentication.proof.envelope)
  {
    hide DecisionForm, CanonicalPolicyEnvelope, PolicyIdentifiersOf;
    assert EventForm(At(s, k));
  }

  lemma RevocationsHold(s: Store, id: GrantId)
    requires StoreInv(s) && id in s.revocations
    ensures RevocationHolds(s, id)
  {
    hide PacketRuns.PacketInv, EffectRuns.EffectInv, GrantSound, BootstrapSound, HasAdmin, AcceptedBootstrap, OperationSound,
         VerifiedForm, DecisionForm, AuthorizedOn, Ordered;
    assert RevocationSound(s, id);
    var k := s.revocations[id].event;
    var v := At(s, k).authentication.proof.envelope;
    var g :| g in s.grants && RevokesGrant(v, g) && g.event < k;
    GrantByIdFinds(s.grants, id);
    assert EventSound(s, k);
    assert AllowedAt(s, k);
    PolicyEventIdentifiers(s, k);
  }

  lemma BootstrapStateHolds(s: Store)
    requires PolicyInv(s) && ConsumptionInv(s)
    ensures StateHolds(s)
  {
    hide RevocationSound, AcceptedBootstrap, OperationSound, Ordered;
    if s.policy.Some? {
      var p := s.policy.value;
      assert BootstrapSound(s);
      var g :| g in s.grants && g.id == p.grant && g.event == p.event;
      assert GrantSound(s, g);
      GrantByIdFinds(s.grants, g.id);
      assert EventSound(s, p.event);
    }
  }

  /** Every event of the log is canonically recorded. */
  ghost predicate AllCanonical(log: seq<Event>) {
    forall i :: 0 <= i < |log| ==> CanonicalRecord(log[i])
  }

  lemma CanonicalAt(s: Store)
    ensures AllCanonical(s.log) <==> forall k :: Recorded(s, k) ==> CanonicalRecord(At(s, k))
  {
    hide CanonicalRecord;
    if forall k :: Recorded(s, k) ==> CanonicalRecord(At(s, k)) {
      forall i | 0 <= i < |s.log|
        ensures CanonicalRecord(s.log[i])
      {
        assert Recorded(s, i + 1) && At(s, i + 1) == s.log[i];
      }
    }
  }

  /** The row checks always pass, so the audit is decided by how events were recorded. */
  lemma AuditIsCanonical(s: Store)
    requires StoreInv(s)
    ensures forall k :: Recorded(s, k) ==> (EventHolds(s, k) <==> CanonicalRecord(At(s, k)))
    ensures PolicyAuditHolds(s) <==> AllCanonical(s.log)
  {
    hide StoreInv, OperationHolds, StateHolds, GrantHolds, RevocationHolds, EventHolds, CanonicalRecord, AllCanonical;
    forall k: Sequence | Recorded(s, k) ensures EventHolds(s, k) <==> CanonicalRecord(At(s, k)) { EventExact(s, k); }
    InvParts(s);
    forall o | o in s.operations ensures OperationHolds(s, o) { OperationsHold(s, o); }
    forall g | g in s.grants ensures GrantHolds(s, g) { GrantsHold(s, g); }
    forall id | id in s.revocations ensures RevocationHolds(s, id) { RevocationsHold(s, id); }
    BootstrapStateHolds(s);
    CanonicalAt(s);
  }

  /** Policy audit, exactly delimited: on every reachable store the audit's row checks all pass,
      and its event loops reject exactly the events whose record is not canonical. */
  lemma PolicyAuditExact(steps: seq<Step>)
    ensures var s := Run(START, steps).store;
      && (forall k :: Recorded(s, k) ==> (EventHolds(s, k) <==> CanonicalRecord(At(s, k))))
      && (PolicyAuditHolds(s) <==> AllCanonical(s.log))
  {
    hide Run, StoreInv, PolicyAuditHolds, EventHolds, CanonicalRecord, AllCanonical;
    var s := Reached(steps);
    AuditIsCanonical(s);
  }

  lemma InvParts(s: Store)
    requires StoreInv(s)
    ensures ConsumptionInv(s) && FormsInv(s) && PolicyInv(s)
  {
  }
}
