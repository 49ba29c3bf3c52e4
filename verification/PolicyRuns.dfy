/** Grants, revocations and the bootstrap row over every run. */
module PolicyRuns {
  import opened Models
  import opened Authorization
  import opened Ledger
  import opened Writers
  import opened System
  import opened Consumption

  // ---------------------------------------------------------------- the invariant

  /** The grant row repeats the accepted, signed request of its event. */
  ghost predicate GrantSound(s: Store, g: GrantRow) {
    && Recorded(s, g.event)
    && var e := At(s, g.event);
       && e.accepted && e.authentication.Verified?
       && var v := e.authentication.proof.envelope;
          && v.PolicyEnvelope? && !v.policy.Revoke? && e.command == Policy(v.policy)
          && g == GrantRow(v.grantId, v.subject, v.capability, v.grantPrior, v.grantRequested, v.columns, v.principal, v.id, g.event)
          && CanonicalPolicyEnvelope(v)
          && g.subject in s.principals && v.principal in s.principals
          && CanonicalColumns(g.capability, g.scope, false)
  }

  predicate RevokesGrant(v: Envelope, g: GrantRow)
    requires v.PolicyEnvelope?
  {
    && g.id == v.grantId && g.subject == v.subject && g.capability == v.capability
    && g.prior == v.grantPrior && g.requested == v.grantRequested && g.scope == v.columns
  }

  ghost predicate RevocationSound(s: Store, id: GrantId)
    requires id in s.revocations
  {
    var r := s.revocations[id];
    && Recorded(s, r.event)
    && var e := At(s, r.event);
       && e.accepted && e.authentication.Verified?
       && var v := e.authentication.proof.envelope;
          && v.PolicyEnvelope? && e.command == Policy(Revoke) && v.policy == Revoke
          && v.grantId == id && v.revocation == Some(r.id) && v.principal == r.actor && v.id == r.operation
          && v.principal in s.principals
          && exists g :: g in s.grants && RevokesGrant(v, g) && g.event < r.event
  }

  ghost predicate DistinctIds(grants: seq<GrantRow>) {
    forall i, j :: 0 <= i < j < |grants| ==> grants[i].id != grants[j].id
  }

  ghost predicate BootstrapSound(s: Store) {
    s.policy.Some? ==>
      && var p := s.policy.value;
      && Recorded(s, p.event)
      && var e := At(s, p.event);
      && e.accepted && e.command == Policy(Bootstrap) && e.authentication.Verified?
      && e.authentication.proof.envelope.id == p.operation && e.authentication.proof.envelope.principal == p.principal
      && exists g :: g in s.grants && g.id == p.grant && g.event == p.event
  }

  /** A policy-management grant nobody has revoked. */
  ghost predicate HasAdmin(s: Store) {
    exists g :: g in s.grants && g.capability == PolicyManageCapabilities && g.id !in s.revocations
  }

  ghost predicate DistinctRevocations(revocations: map<GrantId, Revocation>) {
    forall a, b :: a in revocations && b in revocations && revocations[a].id == revocations[b].id ==> a == b
  }

  predicate AcceptedBootstrap(s: Store, k: Sequence) {
    Recorded(s, k) && At(s, k).accepted && At(s, k).command == Policy(Bootstrap)
  }

  ghost predicate PolicyInv(s: Store) {
    && (forall g :: g in s.grants ==> GrantSound(s, g))
    && Ordered(s.grants) && DistinctIds(s.grants) && DistinctRevocations(s.revocations)
    && (forall id :: id in s.revocations ==> RevocationSound(s, id))
    && (s.policy.None? ==> s.grants == [] && s.revocations == map[])
    && BootstrapSound(s)
    && (s.policy.Some? ==> HasAdmin(s))
    && (forall k :: AcceptedBootstrap(s, k) ==> s.policy.Some? && s.policy.value.event == k)
  }

  // ---------------------------------------------------------------- one policy transaction

  /** Nothing changes in the policy tables, and no policy event is accepted. */
  ghost predicate PolicyFrame(s: Store, t: Store) {
    && SamePolicy(s, t)
    && (t.log == s.log || exists e :: t.log == s.log + [e] && !(e.accepted && e.command.Policy?))
  }

  ghost predicate PolicyAccepted(s: Store, t: Store, proof: SignedOperation) {
    && proof.envelope.PolicyEnvelope? && CanonicalPolicyEnvelope(proof.envelope) && Consumable(s, proof)
    && var d := PolicyDecision(s, proof.envelope);
       d.status == Allowed && t.log == s.log + [PolicyEvent(proof, d, true)] && t.principals == s.principals
  }

  ghost predicate GrantStep(s: Store, t: Store, proof: SignedOperation) {
    && PolicyAccepted(s, t, proof)
    && var v := proof.envelope;
       && !v.policy.Revoke? && GrantInsertable(s, NewGrant(s, v))
       && t.grants == s.grants + [NewGrant(s, v)] && t.revocations == s.revocations
       && t.policy == if v.policy.Bootstrap? then Some(PolicyState(v.principal, v.grantId, v.id, NextSequence(s))) else s.policy
  }

  ghost predicate RevokeStep(s: Store, t: Store, proof: SignedOperation) {
    && PolicyAccepted(s, t, proof)
    && var v := proof.envelope;
       && v.policy.Revoke? && v.revocation.Some? && !RevocationTaken(s, v.revocation.value)
       && t.grants == s.grants && t.policy == s.policy
       && t.revocations == s.revocations[v.grantId := Revocation(v.revocation.value, v.principal, v.id, NextSequence(s))]
  }

  ghost predicate PolicyStep(s: Store, t: Store) {
    || PolicyFrame(s, t)
    || (exists proof :: GrantStep(s, t, proof))
    || (exists proof :: RevokeStep(s, t, proof))
  }

  // ---------------------------------------------------------------- what a policy decision establishes

  lemma {:induction false} GrantByIdFinds(grants: seq<GrantRow>, id: GrantId)
    ensures var r := GrantById(grants, id);
      if r.Some? then r.value in grants && r.value.id == id else forall g :: g in grants ==> g.id != id
  {
    if grants != [] && grants[0].id != id { GrantByIdFinds(grants[1..], id); }
  }

  lemma BootstrapDecided(s: Store, v: Envelope)
    requires v.PolicyEnvelope? && v.policy.Bootstrap? && PolicyDecision(s, v).status == Allowed
    ensures s.policy.None? && s.grants == [] && s.revocations == map[] && v.principal in s.principals
  {
  }

  lemma NotBootstrapDecided(s: Store, v: Envelope)
    requires v.PolicyEnvelope? && !v.policy.Bootstrap? && PolicyDecision(s, v).status == Allowed
    ensures s.policy.Some?
  {
    hide RevokeDecision, EvaluateScope, EvaluateActive, Select;
  }

  lemma RevokeDecided(s: Store, v: Envelope)
    requires v.PolicyEnvelope? && v.policy.Revoke? && PolicyDecision(s, v).status == Allowed
    ensures v.grantId !in s.revocations
    ensures exists g :: g in s.grants && RevokesGrant(v, g)
    ensures v.capability == PolicyManageCapabilities ==> RemainingAdmin(s, v.grantId)
  {
    hide Evaluate, RemainingAdmin;
    GrantByIdFinds(s.grants, v.grantId);
    var g := GrantById(s.grants, v.grantId).value;
    assert g in s.grants && RevokesGrant(v, g);
  }

  lemma PolicyCommitStep(s: Store, proof: SignedOperation)
    requires PendingOk(s, PolicyCommit(proof)) && CommitPolicy(s, proof).Some?
    ensures PolicyStep(s, CommitPolicy(s, proof).value)
  {
    hide Consumable, PolicyDecision, CanonicalPolicyEnvelope, GrantInsertable, NewGrant, PolicyFrame, GrantStep, RevokeStep;
    var v := proof.envelope;
    var t := CommitPolicy(s, proof).value;
    if PolicyDecision(s, v).status != Allowed {
      PolicyUnmoved(s, t);
    } else if v.policy.Revoke? {
      RevokeCommitStep(s, proof);
    } else {
      GrantCommitStep(s, proof);
    }
  }

  lemma PolicyUnmoved(s: Store, t: Store)
    requires SamePolicy(s, t)
    requires t.log == s.log || (|t.log| == |s.log| + 1 && s.log <= t.log && !(t.log[|s.log|].accepted && t.log[|s.log|].command.Policy?))
    ensures PolicyFrame(s, t)
  {
    if t.log != s.log { assert t.log == s.log + [t.log[|s.log|]]; }
  }

  lemma GrantCommitStep(s: Store, proof: SignedOperation)
    requires PendingOk(s, PolicyCommit(proof)) && CommitPolicy(s, proof).Some?
    requires PolicyDecision(s, proof.envelope).status == Allowed && !proof.envelope.policy.Revoke?
    ensures GrantStep(s, CommitPolicy(s, proof).value, proof)
  {
    hide Consumable, PolicyDecision, CanonicalPolicyEnvelope, GrantInsertable, NewGrant;
  }

  lemma RevokeCommitStep(s: Store, proof: SignedOperation)
    requires PendingOk(s, PolicyCommit(proof)) && CommitPolicy(s, proof).Some?
    requires PolicyDecision(s, proof.envelope).status == Allowed && proof.envelope.policy.Revoke?
    ensures RevokeStep(s, CommitPolicy(s, proof).value, proof)
  {
    hide Consumable, PolicyDecision, CanonicalPolicyEnvelope;
  }

  lemma CommitPolicyStep(s: Store, files: Files, p: Pending)
    requires PendingOk(s, p)
    ensures PolicyStep(s, Outcome(s, files, p))
  {
    hide PolicyFrame, PolicyStep, SamePolicy, Commit;
    var t := Outcome(s, files, p);
    if p.PolicyCommit? {
      assert Commit(s, files, p) == CommitPolicy(s, p.proof) by { PolicyDispatch(s, files, p); }
      if CommitPolicy(s, p.proof).Some? { PolicyCommitStep(s, p.proof); } else { NothingMoved(s); }
    } else {
      CommitShape(s, files, p);
      PolicyUnmoved(s, t);
      FrameIsStep(s, t);
    }
  }

  lemma PolicyDispatch(s: Store, files: Files, p: Pending)
    requires Typed(p) && p.PolicyCommit?
    ensures Commit(s, files, p) == CommitPolicy(s, p.proof)
  {
    hide CommitPolicy;
  }

  lemma NothingMoved(s: Store)
    ensures PolicyStep(s, s)
  {
  }

  lemma FrameIsStep(s: Store, t: Store)
    requires PolicyFrame(s, t)
    ensures PolicyStep(s, t)
  {
  }

  // ---------------------------------------------------------------- the invariant is kept

  lemma GrantSoundStable(s: Store, t: Store, g: GrantRow)
    requires GrantSound(s, g) && Grows(s, t)
    ensures GrantSound(t, g)
  {
    assert At(t, g.event) == At(s, g.event);
  }

  lemma RevocationSoundStable(s: Store, t: Store, id: GrantId)
    requires id in s.revocations && RevocationSound(s, id) && Grows(s, t)
    ensures id in t.revocations && RevocationSound(t, id)
  {
    hide CanonicalPolicyEnvelope, PolicyRowsLater;
    var r := s.revocations[id];
    assert At(t, r.event) == At(s, r.event);
    var v := At(s, r.event).authentication.proof.envelope;
    var g :| g in s.grants && RevokesGrant(v, g) && g.event < r.event;
    assert g in t.grants;
  }

  lemma BootstrapSoundStable(s: Store, t: Store)
    requires s.policy.Some? && BootstrapSound(s) && Grows(s, t)
    ensures BootstrapSound(t)
  {
    var p := s.policy.value;
    assert At(t, p.event) == At(s, p.event);
    var g :| g in s.grants && g.id == p.grant && g.event == p.event;
    assert g in t.grants;
  }

  /** Rows and events shared by both stores stay sound; only what is new is left to show. */
  lemma OldRowsSound(s: Store, t: Store)
    requires PolicyInv(s) && Grows(s, t)
    ensures forall g :: g in s.grants ==> GrantSound(t, g)
    ensures forall id :: id in s.revocations ==> RevocationSound(t, id)
    ensures s.policy.Some? ==> BootstrapSound(t)
    ensures forall k: Sequence :: k <= |s.log| && AcceptedBootstrap(t, k) ==> t.policy.Some? && t.policy.value.event == k
  {
    hide GrantSound, RevocationSound, BootstrapSound, PolicyRowsLater;
    forall g | g in s.grants ensures GrantSound(t, g) { GrantSoundStable(s, t, g); }
    forall id | id in s.revocations ensures RevocationSound(t, id) { RevocationSoundStable(s, t, id); }
    if s.policy.Some? { BootstrapSoundStable(s, t); }
    forall k: Sequence | k <= |s.log| && AcceptedBootstrap(t, k)
      ensures t.policy.Some? && t.policy.value.event == k
    {
      assert AcceptedBootstrap(s, k);
    }
  }

  lemma FrameKeepsPolicy(s: Store, t: Store)
    requires PolicyInv(s) && Grows(s, t) && PolicyFrame(s, t)
    ensures PolicyInv(t)
  {
    hide GrantSound, RevocationSound, BootstrapSound, Grows;
    OldRowsSound(s, t);
    if s.policy.None? { NoBootstrap(t); }
  }

  lemma NoBootstrap(t: Store)
    requires t.policy.None?
    ensures BootstrapSound(t)
  {
  }

  lemma NewGrantSound(s: Store, t: Store, proof: SignedOperation)
    requires GrantStep(s, t, proof)
    ensures GrantSound(t, NewGrant(s, proof.envelope))
  {
    hide PolicyDecision;
  }

  lemma GrantKeepsOrder(s: Store, t: Store, g: GrantRow)
    requires PolicyInv(s) && t.grants == s.grants + [g] && g.event == NextSequence(s)
    requires forall other :: other in s.grants ==> other.id != g.id
    ensures Ordered(t.grants) && DistinctIds(t.grants)
  {
    hide RevocationSound, BootstrapSound;
    forall i | 0 <= i < |s.grants|
      ensures t.grants[i].event < g.event && t.grants[i].id != g.id
    {
      assert s.grants[i] in s.grants && GrantSound(s, s.grants[i]);
    }
  }

  lemma NewBootstrapSound(s: Store, t: Store, proof: SignedOperation)
    requires GrantStep(s, t, proof) && proof.envelope.policy.Bootstrap?
    ensures BootstrapSound(t)
  {
    hide PolicyDecision, GrantInsertable, CanonicalPolicyEnvelope;
    assert NewGrant(s, proof.envelope) in t.grants;
  }

  lemma RevokedIsGranted(s: Store, id: GrantId)
    requires PolicyInv(s) && id in s.revocations
    ensures exists g :: g in s.grants && g.id == id && g.event < s.revocations[id].event
  {
    assert RevocationSound(s, id);
  }

  /** A revoked id always belongs to a granted id, so a new grant id is never already revoked. */
  lemma FreshGrantUnrevoked(s: Store, id: GrantId)
    requires PolicyInv(s) && (forall other :: other in s.grants ==> other.id != id)
    ensures id !in s.revocations
  {
    hide PolicyInv;
    if id in s.revocations { RevokedIsGranted(s, id); }
  }

  lemma GrantKeepsAdmin(s: Store, t: Store, proof: SignedOperation)
    requires PolicyInv(s) && GrantStep(s, t, proof)
    ensures HasAdmin(t)
  {
    hide GrantSound, RevocationSound, BootstrapSound, DistinctIds, Ordered;
    var v := proof.envelope;
    if v.policy.Bootstrap? {
      FreshGrantUnrevoked(s, v.grantId);
      assert NewGrant(s, v) in t.grants;
    } else {
      NotBootstrapDecided(s, v);
      var g :| g in s.grants && g.capability == PolicyManageCapabilities && g.id !in s.revocations;
      assert g in t.grants;
    }
  }

  lemma GrantKeepsPolicy(s: Store, t: Store, proof: SignedOperation)
    requires PolicyInv(s) && Grows(s, t) && GrantStep(s, t, proof)
    ensures PolicyInv(t)
  {
    hide GrantSound, RevocationSound, BootstrapSound, HasAdmin, Grows, PolicyDecision, Ordered, DistinctIds;
    var v := proof.envelope;
    OldRowsSound(s, t);
    NewGrantSound(s, t, proof);
    GrantKeepsOrder(s, t, NewGrant(s, v));
    GrantKeepsAdmin(s, t, proof);
    if v.policy.Bootstrap? { BootstrapDecided(s, v); NewBootstrapSound(s, t, proof); } else { NotBootstrapDecided(s, v); }
  }

  lemma NewRevocationSound(s: Store, t: Store, proof: SignedOperation)
    requires PolicyInv(s) && RevokeStep(s, t, proof)
    ensures proof.envelope.grantId in t.revocations && RevocationSound(t, proof.envelope.grantId)
  {
    hide PolicyDecision, CanonicalPolicyEnvelope, RevocationSound, BootstrapSound, Ordered, DistinctIds, HasAdmin;
    var v := proof.envelope;
    RevokeDecided(s, v);
    var g :| g in s.grants && RevokesGrant(v, g);
    assert GrantSound(s, g);
    RevocationRowSound(t, v, proof, g);
  }

  lemma RevocationRowSound(t: Store, v: Envelope, proof: SignedOperation, g: GrantRow)
    requires |t.log| > 0 && proof.envelope == v && v.PolicyEnvelope? && v.policy.Revoke? && v.revocation.Some?
    requires var e := t.log[|t.log| - 1]; e.accepted && e.authentication == Verified(proof) && e.command == Policy(Revoke)
    requires v.grantId in t.revocations
    requires t.revocations[v.grantId] == Revocation(v.revocation.value, v.principal, v.id, |t.log|)
    requires v.principal in t.principals && g in t.grants && RevokesGrant(v, g) && g.event < |t.log|
    ensures RevocationSound(t, v.grantId)
  {
  }

  /** Revoking one administrator leaves another, and revoking anything else leaves them all. */
  lemma RevokeKeepsAdmin(s: Store, t: Store, proof: SignedOperation)
    requires PolicyInv(s) && RevokeStep(s, t, proof)
    ensures HasAdmin(t)
  {
    hide GrantSound, RevocationSound, BootstrapSound, Ordered, PolicyDecision;
    var v := proof.envelope;
    NotBootstrapDecided(s, v);
    RevokeDecided(s, v);
    var target :| target in s.grants && RevokesGrant(v, target);
    if v.capability == PolicyManageCapabilities {
      var g :| g in s.grants && g.capability == PolicyManageCapabilities && g.id !in s.revocations && g.id != v.grantId;
      assert g.id !in t.revocations;
    } else {
      var g :| g in s.grants && g.capability == PolicyManageCapabilities && g.id !in s.revocations;
      assert g.id != target.id;
    }
  }

  lemma RevokeKeepsPolicy(s: Store, t: Store, proof: SignedOperation)
    requires PolicyInv(s) && Grows(s, t) && RevokeStep(s, t, proof)
    ensures PolicyInv(t)
  {
    hide GrantSound, RevocationSound, BootstrapSound, HasAdmin, Grows, PolicyDecision, Ordered, DistinctIds;
    var v := proof.envelope;
    OldRowsSound(s, t);
    NewRevocationSound(s, t, proof);
    RevokeKeepsAdmin(s, t, proof);
    NotBootstrapDecided(s, v);
  }

  /** Every committed transaction keeps the policy invariant. */
  lemma PolicyKept(s: Store, t: Store)
    requires PolicyInv(s) && Grows(s, t) && PolicyStep(s, t)
    ensures PolicyInv(t)
  {
    hide PolicyInv, Grows, PolicyFrame, GrantStep, RevokeStep;
    if PolicyFrame(s, t) { FrameKeepsPolicy(s, t); }
    else if proof :| GrantStep(s, t, proof) { GrantKeepsPolicy(s, t, proof); }
    else { var proof :| RevokeStep(s, t, proof); RevokeKeepsPolicy(s, t, proof); }
  }
}
