/** Requesting an effect never fails on evidence the writers themselves produced
    (external_effects.py, `create_external_effect_request`). */
module EffectCreations {
  import opened Models
  import opened Authorization
  import opened Ledger
  import opened Writers
  import opened System
  import opened Consumption
  import opened PolicyRuns
  import opened Temporal
  import opened PacketRuns
  import opened EffectRuns
  import opened Runs

  /** A released packet's latest release is the second event of its trail. */
  lemma LatestReleaseOf(s: Store, packet: PacketId)
    requires TrailsOk(s) && packet in s.packets && s.packets[packet].state == WorkflowState.Released
    ensures var trail := Trail(s.log, packet);
      |trail| == 2 && LatestRelease(s.log, packet) == trail[1] && Recorded(s, trail[1]) && EventAt(s.log, trail[1]) == At(s, trail[1])
  {
    hide Trail, ApprovalsFor, PacketIdentifiersOf, LatestRelease;
    var trail := Trail(s.log, packet);
    var r := LatestRelease(s.log, packet);
    assert TrailOk(s.log, s.approvals, packet, s.packets[packet]);
    TrailExact(s.log, packet);
    LatestReleaseExact(s.log, packet);
    assert IsRelease(s.log[trail[1] - 1], packet);
    assert EventAt(s.log, r) == s.log[r - 1];
    assert r in trail;
  }

  lemma GrantByIdExact(grants: seq<GrantRow>, g: GrantRow)
    requires DistinctIds(grants) && g in grants
    ensures GrantById(grants, g.id) == Some(g)
  {
    GrantByIdFinds(grants, g.id);
  }

  /** The release's own grant still supports it, even if it has been revoked since. */
  lemma ReleaseGrantSupports(s: Store, packet: PacketId, k: Sequence)
    requires PolicyInv(s) && CommitTimeInv(s) && packet in s.packets
    requires Adjudicated(s.log, k, packet, s.packets[packet], Release)
    ensures var e := At(s, k);
      && e.authorization.Some? && e.authorization.value.status == Allowed && e.authorization.value.capability == PacketRelease
      && e.authorization.value.grant.Some?
      && GrantSupports(s, e.authorization.value.grant.value, k, e, s.packets[packet].scope)
  {
    hide Evaluate, ViewBefore, PacketIdentifiersOf, GrantSound, RevocationSound, BootstrapSound, HasAdmin, Ordered, AcceptedBootstrap;
    var e := At(s, k);
    assert AllowedAt(s, k);
    assert AuthorizedOn(ViewBefore(s, k), e);
    EvaluationKeepsCapability(ViewBefore(s, k), QueryOf(e));
    AllowedIsAuthorized(s, k);
    var g :| EarliestAuthorizedBy(s, k, g) && e.authorization.value.grant == Some(g.id);
    GrantByIdExact(s.grants, g);
  }

  lemma EvaluationKeepsCapability(v: PolicyView, q: Query)
    ensures Evaluate(v, q).capability == q.capability
  {
    hide Select;
  }

  lemma ReleaseApprovalNamed(s: Store, packet: PacketId)
    requires TrailsOk(s) && packet in s.packets && s.packets[packet].state == WorkflowState.Released
    ensures var k := LatestRelease(s.log, packet);
      && Recorded(s, k) && Adjudicated(s.log, k, packet, s.packets[packet], Release)
      && At(s, k).identifiers.PacketIdentifiers? && At(s, k).authentication.Verified?
      && ApprovalNamed(s, packet, At(s, k).identifiers.approval, At(s, k).identifiers.approvalEvent)
  {
    hide Trail, ApprovalsFor, LatestRelease;
    LatestReleaseOf(s, packet);
    assert TrailOk(s.log, s.approvals, packet, s.packets[packet]);
    ApprovalsExact(s.approvals, packet);
    var a := ApprovalsFor(s.approvals, packet)[0];
    assert a in s.approvals && a.packet == packet && a.decision == DecisionApproved;
  }

  /** No two packets share a release, so none of the request's unique columns collide. */
  lemma RequestUncontended(s: Store, packet: PacketId, release: Sequence)
    requires EffectInv(s) && RequestOf(s.requests, packet).None? && Recorded(s, release) && IsRelease(At(s, release), packet)
    ensures forall other :: other in s.requests ==> other.packet != packet && other.release != release
  {
    hide ClaimSound, ResultSound, SafelyRetried, EffectEvent;
    RequestOfNone(s.requests, packet);
    forall other | other in s.requests
      ensures other.packet != packet && other.release != release
    {
      assert RequestSound(s, other);
    }
  }

  /** The release event carries everything a request is derived from. */
  ghost predicate ReleaseEvidence(s: Store, packet: PacketId, k: Sequence)
    requires packet in s.packets
  {
    && k == LatestRelease(s.log, packet) && Recorded(s, k)
    && var e := At(s, k);
       && e.authorization.Some? && e.authorization.value.status == Allowed && e.authorization.value.capability == PacketRelease
       && e.authorization.value.grant.Some? && e.authentication.Verified? && e.identifiers.PacketIdentifiers?
       && s.packets[packet].scope.Some?
       && GrantSupports(s, e.authorization.value.grant.value, k, e, s.packets[packet].scope)
       && ApprovalNamed(s, packet, e.identifiers.approval, e.identifiers.approvalEvent)
  }

  lemma ReleasedHasEvidence(s: Store, packet: PacketId)
    requires StoreInv(s) && packet in s.packets && s.packets[packet].state == WorkflowState.Released
    ensures ReleaseEvidence(s, packet, LatestRelease(s.log, packet))
    ensures IsRelease(At(s, LatestRelease(s.log, packet)), packet)
  {
    hide *;
    StoreParts(s);
    PacketTrails(s);
    ReleaseApprovalNamed(s, packet);
    ReleaseGrantSupports(s, packet, LatestRelease(s.log, packet));
    EvidenceIntro(s, packet, LatestRelease(s.log, packet));
  }

  lemma StoreParts(s: Store)
    requires StoreInv(s)
    ensures PolicyInv(s) && CommitTimeInv(s) && PacketInv(s)
  {
  }

  lemma EvidenceIntro(s: Store, packet: PacketId, k: Sequence)
    requires packet in s.packets && k == LatestRelease(s.log, packet) && Recorded(s, k)
    requires Adjudicated(s.log, k, packet, s.packets[packet], Release) && At(s, k).identifiers.PacketIdentifiers?
    requires ApprovalNamed(s, packet, At(s, k).identifiers.approval, At(s, k).identifiers.approvalEvent)
    requires var e := At(s, k);
      && e.authorization.Some? && e.authorization.value.status == Allowed && e.authorization.value.capability == PacketRelease
      && e.authorization.value.grant.Some? && e.authentication.Verified?
      && GrantSupports(s, e.authorization.value.grant.value, k, e, s.packets[packet].scope)
    ensures ReleaseEvidence(s, packet, k) && IsRelease(At(s, k), packet)
  {
    hide LatestRelease, GrantSupports, ApprovalNamed;
  }

  lemma DerivationSucceeds(s: Store, packet: PacketId, first: Artifacts)
    requires packet in s.packets && ReleaseEvidence(s, packet, LatestRelease(s.log, packet))
    requires forall other :: other in s.requests ==> other.packet != packet && other.release != LatestRelease(s.log, packet)
    requires forall other :: other in s.requests ==> RequestKeyed(other)
    ensures var out := DeriveEffect(s, packet, s.packets[packet], first);
      if BindingOf(s.bindings, s.packets[packet].scope.value).Some? then
        out.Created? && out.request.packet == packet && out.request.release == LatestRelease(s.log, packet)
        && out.store == RequestedStore(s, out.request)
      else out == NoBinding
  {
    hide LatestRelease, GrantSupports, ApprovalNamed, BindingOf, RequestedStore;
  }

  lemma RequestsKeyed(s: Store)
    requires EffectInv(s)
    ensures forall r :: r in s.requests ==> RequestKeyed(r)
  {
    hide ClaimSound, ResultSound, SafelyRetried, EffectEvent;
    forall r | r in s.requests ensures RequestKeyed(r) { assert RequestSound(s, r); }
  }

  lemma PacketTrails(s: Store)
    requires PacketInv(s)
    ensures TrailsOk(s)
  {
  }

  /** How a request on a released packet ends: on intact files it is created or found, for want
      of a destination binding it is refused, and nothing else. */
  predicate Conclusive(s: Store, files: Files, packet: PacketId, first: Artifacts)
    requires packet in s.packets && s.packets[packet].scope.Some?
  {
    var out := CreateExternalEffect(s, files, packet, first);
    match RequestOf(s.requests, packet)
    case Some(r) => if first == Artifacts(r.manifest, r.receipt) then out == Existing(r) else out == ArtifactsChanged
    case None =>
      if BindingOf(s.bindings, s.packets[packet].scope.value).Some? then out.Created? && out.request.packet == packet
      else out == NoBinding
  }

  /** The packet is released and its files are as its row says. */
  predicate ReleasedIntact(s: Store, files: Files, packet: PacketId, first: Artifacts) {
    && packet in s.packets && s.packets[packet].state == WorkflowState.Released
    && Recompute(files, packet, s.packets[packet]) == Some(first) && first.manifest == s.packets[packet].manifest
  }

  lemma CreationConclusive(s: Store, files: Files, packet: PacketId, first: Artifacts)
    requires StoreInv(s) && ReleasedIntact(s, files, packet, first)
    ensures s.packets[packet].scope.Some? && Conclusive(s, files, packet, first)
    ensures var out := CreateExternalEffect(s, files, packet, first);
      out.Created? ==> out.store == RequestedStore(s, out.request) && out.request.packet == packet
                       && out.request.manifest == first.manifest && out.request.receipt == first.receipt
  {
    hide StoreInv, DeriveEffect, Recompute, BindingOf, LatestRelease, RequestOf, IsRelease, RequestedStore;
    ReleasedScoped(s, packet);
    if RequestOf(s.requests, packet).None? {
      ReleasedHasEvidence(s, packet);
      assert EffectInv(s) by { StoreEffects(s); }
      RequestUncontended(s, packet, LatestRelease(s.log, packet));
      RequestsKeyed(s);
      DerivationSucceeds(s, packet, first);
      DerivedArtifacts(s, packet, s.packets[packet], first);
    } else {
      ExistingManifest(s, packet);
    }
  }

  lemma DerivedArtifacts(s: Store, packet: PacketId, row: Packet, first: Artifacts)
    ensures var out := DeriveEffect(s, packet, row, first);
      out.Created? ==> out.request.manifest == first.manifest && out.request.receipt == first.receipt
  {
    hide LatestRelease, GrantSupports, ApprovalNamed, BindingOf, RequestedStore, RequestInsertable;
  }

  lemma StoreEffects(s: Store)
    requires StoreInv(s)
    ensures EffectInv(s)
  {
  }

  /** The system once the request's transaction has run, other writers still waiting. */
  function Requested(y: System, files: Files, packet: PacketId, first: Artifacts): System {
    System(Outcome(y.store, files, EffectCreation(packet, first)), y.pending)
  }

  /** A request found at any later time, whatever the packet's directory then holds. */
  predicate Refound(s: Store, files: Files, packet: PacketId, first: Artifacts, r: EffectRequest) {
    CreateExternalEffect(s, files, packet, first) == Existing(r)
  }

  /** What makes the same request found again. */
  predicate Findable(s: Store, packet: PacketId, first: Artifacts, r: EffectRequest) {
    && r in s.requests && r.packet == packet && first == Artifacts(r.manifest, r.receipt)
    && packet in s.packets && s.packets[packet].manifest == r.manifest
  }

  lemma FoundAgain(s: Store, files: Files, packet: PacketId, first: Artifacts, r: EffectRequest)
    requires StoreInv(s) && Findable(s, packet, first, r)
    ensures Refound(s, files, packet, first, r)
  {
    hide ConsumptionInv, FormsInv, PolicyInv, CommitTimeInv, PacketInv, ClaimSound, ResultSound, SafelyRetried, RequestOf, DeriveEffect,
         Recompute, EffectEvent, GrantSupports, ApprovalNamed;
    assert RequestSound(s, r);
    RequestOfNone(s.requests, packet);
    ReleasedForGood(s, packet, r.release);
  }

  lemma FindableGrows(s: Store, t: Store, packet: PacketId, first: Artifacts, r: EffectRequest)
    requires Findable(s, packet, first, r) && Grows(s, t)
    ensures Findable(t, packet, first, r)
  {
    hide TablesGrow, PolicyRowsLater;
  }

  lemma RequestedInv(y: System, files: Files, packet: PacketId, first: Artifacts)
    requires Inv(y)
    ensures Inv(Requested(y, files, packet, first))
  {
    hide StoreInv, PendingOk, Outcome, PolicyRowsLater;
    var p := EffectCreation(packet, first);
    CreationPending(y.store, p);
    CommitKeeps(y.store, files, p);
    OutcomeGrows(y.store, files, p);
    forall w | w in y.pending
      ensures PendingOk(Outcome(y.store, files, p), y.pending[w])
    {
      PendingStable(y.store, Outcome(y.store, files, p), y.pending[w]);
    }
  }

  lemma CreationPending(s: Store, p: Pending)
    requires p.EffectCreation?
    ensures PendingOk(s, p)
  {
  }

  /** The request a transaction created or found stays findable. */
  lemma RequestedFindable(s: Store, files: Files, packet: PacketId, first: Artifacts)
    requires StoreInv(s)
    ensures var out := CreateExternalEffect(s, files, packet, first);
      out.Created? || out.Existing? ==> Findable(Outcome(s, files, EffectCreation(packet, first)), packet, first, out.request)
  {
    hide StoreInv, DeriveEffect, Recompute, RequestOf, RequestedStore;
    RequestOfNone(s.requests, packet);
    var out := CreateExternalEffect(s, files, packet, first);
    if packet in s.packets { DerivedFindable(s, packet, s.packets[packet], first); }
    if out.Existing? { ExistingManifest(s, packet); }
  }

  lemma DerivedFindable(s: Store, packet: PacketId, row: Packet, first: Artifacts)
    ensures var out := DeriveEffect(s, packet, row, first); !out.Existing?
    ensures var out := DeriveEffect(s, packet, row, first);
      out.Created? ==> out.request in out.store.requests && out.request.packet == packet && first == Artifacts(out.request.manifest, out.request.receipt)
                       && out.store.packets == s.packets
  {
    hide LatestRelease, GrantSupports, ApprovalNamed, BindingOf, RequestInsertable;
    var out := DeriveEffect(s, packet, row, first);
    if out.Created? { assert (s.requests + [out.request])[|s.requests|] == out.request; }
  }

  /** Repeated requests return the same one: once a transaction of any reachable system has
      created or found a packet's request, asking with the same artifacts finds it in every
      continuation, whatever other writers do and whatever they had read before. */
  lemma SameRequestForever(steps: seq<Step>, files: Files, packet: PacketId, first: Artifacts, more: seq<Step>, later: Files)
    ensures var y := Run(START, steps); var out := CreateExternalEffect(y.store, files, packet, first);
      out.Created? || out.Existing? ==> Refound(Run(Requested(y, files, packet, first), more).store, later, packet, first, out.request)
  {
    hide Run, Requested, StoreInv, Findable, CreateExternalEffect, Refound, Grows;
    var y := Run(START, steps);
    var z := Requested(y, files, packet, first);
    RunInv(steps);
    RequestedInv(y, files, packet, first);
    RunKeeps(z, more);
    RunGrows(z, more);
    RequestedFindable(y.store, files, packet, first);
    RequestedStoreIs(y, files, packet, first);
    var out := CreateExternalEffect(y.store, files, packet, first);
    if out.Created? || out.Existing? {
      FindableGrows(z.store, Run(z, more).store, packet, first, out.request);
      FoundAgain(Run(z, more).store, later, packet, first, out.request);
    }
  }

  lemma RequestedStoreIs(y: System, files: Files, packet: PacketId, first: Artifacts)
    ensures Requested(y, files, packet, first).store == Outcome(y.store, files, EffectCreation(packet, first))
  {
  }

  /** No dead ends after release: in every reachable store, requesting the effect of a released
      packet whose files are intact never meets inconsistent evidence, however the policy has
      changed since the release; and the request created or found is found ever after. */
  lemma NoDeadEnds(steps: seq<Step>, files: Files, packet: PacketId, first: Artifacts, more: seq<Step>, later: Files)
    requires ReleasedIntact(Run(START, steps).store, files, packet, first)
    ensures var s := Run(START, steps).store; s.packets[packet].scope.Some? && Conclusive(s, files, packet, first)
    ensures var y := Run(START, steps); var out := CreateExternalEffect(y.store, files, packet, first);
      out.Created? || out.Existing? ==> Refound(Run(Requested(y, files, packet, first), more).store, later, packet, first, out.request)
  {
    hide Run, StoreInv, Conclusive, Requested, Refound, CreateExternalEffect;
    var s := Reached(steps);
    CreationConclusive(s, files, packet, first);
    SameRequestForever(steps, files, packet, first, more, later);
  }

  lemma ReleasedScoped(s: Store, packet: PacketId)
    requires StoreInv(s) && packet in s.packets && s.packets[packet].state == WorkflowState.Released
    ensures s.packets[packet].scope.Some?
  {
    hide ConsumptionInv, FormsInv, PolicyInv, CommitTimeInv, EffectInv, HistoriesBounded, Paired, OnePacketEach, Trail, ApprovalsFor;
    assert TrailOk(s.log, s.approvals, packet, s.packets[packet]);
  }

  lemma ExistingManifest(s: Store, packet: PacketId)
    requires StoreInv(s) && RequestOf(s.requests, packet).Some? && packet in s.packets
    ensures RequestOf(s.requests, packet).value.manifest == s.packets[packet].manifest
  {
    hide ConsumptionInv, FormsInv, PolicyInv, CommitTimeInv, PacketInv, ClaimSound, ResultSound, SafelyRetried;
    RequestOfNone(s.requests, packet);
    assert RequestSound(s, RequestOf(s.requests, packet).value);
  }
}
