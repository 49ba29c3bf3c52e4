/** Every accepted decision is the one the store justified at the moment it was committed. */
module Temporal {
  import opened Models
  import opened Authorization
  import opened Ledger
  import opened Writers
  import opened System
  import opened Consumption
  import opened PolicyRuns

  /** The policy as the transaction appending event k saw it, read back from the final tables. */
  function ViewBefore(s: Store, k: Sequence): PolicyView {
    PolicyView(
      s.policy.Some? && s.policy.value.event < k,
      Select(s.grants, (g: GrantRow) => g.event < k),
      set id | id in s.revocations && s.revocations[id].event < k)
  }

  /** The event records an allowed decision on a verified proof. Every accepted one does; so may
      a rejected one, whose request failed for another reason. */
  predicate AllowedAt(s: Store, k: Sequence) {
    && Recorded(s, k) && At(s, k).authentication.Verified?
    && At(s, k).authorization.Some? && At(s, k).authorization.value.status == Allowed
  }

  /** Each allowed decision is what evaluating the policy of its own moment gives, and nothing
      else is ever accepted. */
  ghost predicate CommitTimeInv(s: Store) {
    && (forall k :: AllowedAt(s, k) ==> AuthorizedOn(ViewBefore(s, k), At(s, k)))
    && (forall k :: Recorded(s, k) && At(s, k).accepted && At(s, k).authentication.Verified? ==> AllowedAt(s, k))
  }

  lemma {:induction false} SelectAll(rows: seq<GrantRow>, keep: GrantRow -> bool)
    requires forall g :: g in rows ==> keep(g)
    ensures Select(rows, keep) == rows
  {
    if rows != [] { SelectAll(rows[1..], keep); }
  }

  lemma {:induction false} SelectNone(rows: seq<GrantRow>, keep: GrantRow -> bool)
    requires forall g :: g in rows ==> !keep(g)
    ensures Select(rows, keep) == []
  {
    if rows != [] { SelectNone(rows[1..], keep); }
  }

  lemma {:induction false} SelectConcat(a: seq<GrantRow>, b: seq<GrantRow>, keep: GrantRow -> bool)
    ensures Select(a + b, keep) == Select(a, keep) + Select(b, keep)
  {
    if a == [] {
      assert a + b == b;
    } else {
      SelectConcat(a[1..], b, keep);
      assert (a + b)[1..] == a[1..] + b;
    }
  }

  /** Rows added later leave the past as it was. */
  lemma ViewBeforeStable(s: Store, t: Store, k: Sequence)
    requires Grows(s, t) && k <= NextSequence(s)
    ensures ViewBefore(t, k) == ViewBefore(s, k)
  {
    var keep := (g: GrantRow) => g.event < k;
    var late := t.grants[|s.grants|..];
    assert t.grants == s.grants + late;
    forall g | g in late
      ensures !keep(g)
    {
      var i :| 0 <= i < |late| && late[i] == g;
      assert t.grants[|s.grants| + i] == g;
    }
    SelectConcat(s.grants, late, keep);
    SelectNone(late, keep);
    assert Select(s.grants, keep) + [] == Select(s.grants, keep);
  }

  /** At the moment of a transaction the past is everything. */
  lemma ViewBeforeNow(s: Store)
    requires PolicyInv(s)
    ensures ViewBefore(s, NextSequence(s)) == View(s)
  {
    hide Ordered, DistinctIds, HasAdmin, AcceptedBootstrap, CanonicalPolicyEnvelope, RevokesGrant, CanonicalColumns, DistinctRevocations;
    var keep := (g: GrantRow) => g.event < NextSequence(s);
    forall g | g in s.grants ensures keep(g) { assert GrantSound(s, g); }
    SelectAll(s.grants, keep);
    forall id | id in s.revocations ensures s.revocations[id].event < NextSequence(s) { assert RevocationSound(s, id); }
    assert BootstrapSound(s);
  }

  lemma CommitTimeKept(s: Store, t: Store)
    requires CommitTimeInv(s) && PolicyInv(s) && Grows(s, t) && LogStep(s, t)
    ensures CommitTimeInv(t)
  {
    hide AuthorizedOn, PolicyInv, VerifiedForm, UnprovenForm, PolicyRowsLater, DecisionForm, Adjudicates;
    forall k: Sequence | Recorded(t, k) && At(t, k).authentication.Verified?
      ensures AllowedAt(t, k) ==> AuthorizedOn(ViewBefore(t, k), At(t, k))
      ensures At(t, k).accepted ==> AllowedAt(t, k)
    {
      ViewBeforeStable(s, t, if k <= |s.log| then k else NextSequence(s));
      if k <= |s.log| {
        assert At(t, k) == At(s, k);
        assert AllowedAt(t, k) == AllowedAt(s, k);
      } else {
        NewDecision(s, t);
        ViewBeforeNow(s);
      }
    }
  }

  lemma NewDecision(s: Store, t: Store)
    requires LogStep(s, t) && |t.log| > |s.log| && t.log[|s.log|].authentication.Verified?
    ensures var e := t.log[|s.log|];
      && e.authorization.Some?
      && (e.accepted ==> e.authorization.value.status == Allowed)
      && (e.authorization.value.status == Allowed ==> AuthorizedOn(View(s), e))
  {
    hide AuthorizedOn, VerifiedForm, Consumable, ReplayForm, Consumed;
  }

  // ---------------------------------------------------------------- temporal authorization

  /** The grant an accepted event at k names: for the same principal, capability and state pair
      and, for packets, exactly the same scope; made strictly before k, not revoked before k,
      and revoked at k only by the event revoking it; and the earliest such grant. */
  ghost predicate AuthorizedBy(s: Store, k: Sequence, g: GrantRow)
    requires Recorded(s, k) && At(s, k).authentication.Verified?
  {
    var q := QueryOf(At(s, k));
    && g in s.grants
    && g.subject == q.principal && g.capability == q.capability && g.prior == q.prior && g.requested == q.requested
    && (q.scope.Some? ==> g.scope == Exact(q.scope.value))
    && g.event < k
    && (g.id in s.revocations ==>
          s.revocations[g.id].event >= k
          && (s.revocations[g.id].event == k ==>
                At(s, k).command == Policy(Revoke) && At(s, k).authentication.proof.envelope.PolicyEnvelope?
                && At(s, k).authentication.proof.envelope.grantId == g.id))
  }

  ghost predicate EarliestAuthorizedBy(s: Store, k: Sequence, g: GrantRow)
    requires Recorded(s, k) && At(s, k).authentication.Verified?
  {
    AuthorizedBy(s, k, g) && forall other :: AuthorizedBy(s, k, other) ==> g.event <= other.event
  }

  lemma SelectKeepsOrder(s: Store, k: Sequence)
    requires PolicyInv(s)
    ensures Ordered(ViewBefore(s, k).grants)
    ensures forall g :: g in ViewBefore(s, k).grants <==> g in s.grants && g.event < k
  {
    hide GrantSound, RevocationSound, BootstrapSound, HasAdmin, AcceptedBootstrap;
    Selected(s.grants, (g: GrantRow) => g.event < k);
  }

  lemma RevokedAt(s: Store, id: GrantId)
    requires PolicyInv(s) && id in s.revocations
    ensures var k := s.revocations[id].event;
      && Recorded(s, k) && At(s, k).command == Policy(Revoke) && At(s, k).authentication.Verified?
      && At(s, k).authentication.proof.envelope.PolicyEnvelope? && At(s, k).authentication.proof.envelope.grantId == id
  {
    hide GrantSound, BootstrapSound, HasAdmin, AcceptedBootstrap, CanonicalPolicyEnvelope, RevokesGrant;
    assert RevocationSound(s, id);
  }

  /** An allowed evaluation was asked with the scope its capability needs, of a bootstrapped policy. */
  lemma AllowedFits(v: PolicyView, q: Query)
    requires Evaluate(v, q).status == Allowed
    ensures v.bootstrapped && ScopeFits(q)
  {
    hide Select, EvaluateScope, EvaluateActive;
  }

  lemma LeastAuthorizes(s: Store, k: Sequence, g: GrantRow)
    requires PolicyInv(s) && Recorded(s, k) && At(s, k).authentication.Verified?
    requires Authorizes(ViewBefore(s, k), QueryOf(At(s, k)), g)
    ensures AuthorizedBy(s, k, g)
  {
    hide PolicyInv;
    SelectKeepsOrder(s, k);
    if g.id in s.revocations { RevokedAt(s, g.id); }
  }

  /** In every store the invariants hold of, an allowed decision on anything but the bootstrap
      names a grant that authorized it at its own moment. */
  lemma AllowedIsAuthorized(s: Store, k: Sequence)
    requires PolicyInv(s) && CommitTimeInv(s) && AllowedAt(s, k) && At(s, k).command != Policy(Bootstrap)
    ensures exists g :: EarliestAuthorizedBy(s, k, g) && At(s, k).authorization.value.grant == Some(g.id)
  {
    hide PolicyInv, Evaluate, QueryOf;
    var v, q := ViewBefore(s, k), QueryOf(At(s, k));
    assert At(s, k).authorization == Some(Evaluate(v, q));
    AllowedFits(v, q);
    SelectKeepsOrder(s, k);
    EvaluatorExact(v, q);
    var g :| Least(g, v, q) && Evaluate(v, q).grant == Some(g.id);
    LeastAuthorizes(s, k, g);
    forall other | AuthorizedBy(s, k, other)
      ensures g.event <= other.event
    {
      assert Authorizes(v, q, other);
    }
  }
}
