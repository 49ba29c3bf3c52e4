/** Any number of writers over one store: each reads, and later commits what it decided, with
    other writers' transactions in between. */
module System {
  import opened Models
  import opened Authorization
  import opened Ledger
  import opened Writers

  type WriterId = nat

  datatype System = System(store: Store, pending: map<WriterId, Pending>)

  const START := System(EMPTY, map[])

  /** The packet files and the clock are whatever they are at each step. */
  datatype Step =
    | ReadStep(writer: WriterId, files: Files, now: int, request: Request)
    | CommitStep(writer: WriterId, commitFiles: Files)
    | TrustPrincipal(principal: PrincipalId, key: KeyId)
    | Discover(candidate: CandidateId)

  function Trust(s: Store, principal: PrincipalId, key: KeyId): Store {
    if principal in s.principals || key in s.principals.Values then s
    else s.(principals := s.principals[principal := key])
  }

  function InsertCandidate(s: Store, candidate: CandidateId): Store {
    if candidate in s.candidates then s else s.(candidates := s.candidates[candidate := Discovered])
  }

  /** What the store becomes when a pending attempt runs its transaction. */
  function Outcome(s: Store, files: Files, p: Pending): Store {
    if !Typed(p) then s else match Commit(s, files, p) case Some(t) => t case None => s
  }

  function Next(y: System, step: Step): System {
    match step
    case ReadStep(w, files, now, request) =>
      (match Read(y.store, files, now, request)
       case Some(p) => y.(pending := y.pending[w := p])
       case None => y)
    case CommitStep(w, files) =>
      if w !in y.pending then y
      else System(Outcome(y.store, files, y.pending[w]), y.pending - {w})
    case TrustPrincipal(principal, key) => y.(store := Trust(y.store, principal, key))
    case Discover(candidate) => y.(store := InsertCandidate(y.store, candidate))
  }

  /** The system after a run, whatever the interleaving. */
  function Run(y: System, steps: seq<Step>): System {
    if steps == [] then y else Next(Run(y, steps[..|steps| - 1]), steps[|steps| - 1])
  }

  ghost predicate Reachable(y: System) {
    exists steps :: y == Run(START, steps)
  }

  // ---------------------------------------------------------------- append-only growth

  ghost predicate MapGrows<K, V>(a: map<K, V>, b: map<K, V>) {
    forall k :: k in a ==> k in b && b[k] == a[k]
  }

  predicate SamePacket(a: Packet, b: Packet) {
    a.candidate == b.candidate && a.manifest == b.manifest && a.scope == b.scope
  }

  /** Policy rows the second store adds name events the first store does not have. */
  ghost predicate PolicyRowsLater(s: Store, t: Store) {
    && (forall i :: |s.grants| <= i < |t.grants| ==> t.grants[i].event > |s.log|)
    && (forall g :: g in t.revocations && g !in s.revocations ==> t.revocations[g].event > |s.log|)
    && (t.policy.Some? && s.policy.None? ==> t.policy.value.event > |s.log|)
    && (forall o :: o in t.operations && o !in s.operations ==> t.operations[o].event > |s.log|)
  }

  ghost predicate SequencesGrow(s: Store, t: Store) {
    && s.log <= t.log && s.grants <= t.grants && s.approvals <= t.approvals
    && s.bindings <= t.bindings && s.requests <= t.requests && s.dispatches <= t.dispatches
  }

  ghost predicate TablesGrow(s: Store, t: Store) {
    && MapGrows(s.principals, t.principals) && MapGrows(s.operations, t.operations)
    && MapGrows(s.revocations, t.revocations) && MapGrows(s.executors, t.executors) && MapGrows(s.results, t.results)
    && (s.policy.Some? ==> t.policy == s.policy)
  }

  ghost predicate StatesMove(s: Store, t: Store) {
    && (forall c :: c in s.candidates ==> c in t.candidates)
    && (forall p :: p in s.packets ==> p in t.packets && SamePacket(s.packets[p], t.packets[p]))
  }

  /** Nothing recorded is ever altered or removed; only candidate and packet states move. */
  ghost predicate Grows(s: Store, t: Store) {
    SequencesGrow(s, t) && TablesGrow(s, t) && StatesMove(s, t) && PolicyRowsLater(s, t)
  }

  lemma LaterTransitive(a: Store, b: Store, c: Store)
    requires PolicyRowsLater(a, b) && PolicyRowsLater(b, c) && a.log <= b.log && a.grants <= b.grants <= c.grants
    requires MapGrows(b.revocations, c.revocations) && MapGrows(b.operations, c.operations) && (b.policy.Some? ==> c.policy == b.policy)
    ensures PolicyRowsLater(a, c)
  {
    forall i | |a.grants| <= i < |c.grants|
      ensures c.grants[i].event > |a.log|
    {
      if i < |b.grants| { assert b.grants[i] == c.grants[i]; }
    }
  }

  lemma MapGrowsTransitive<K, V>(a: map<K, V>, b: map<K, V>, c: map<K, V>)
    requires MapGrows(a, b) && MapGrows(b, c)
    ensures MapGrows(a, c)
  {
  }

  lemma TablesTransitive(a: Store, b: Store, c: Store)
    requires TablesGrow(a, b) && TablesGrow(b, c)
    ensures TablesGrow(a, c)
  {
    hide MapGrows;
    MapGrowsTransitive(a.principals, b.principals, c.principals);
    MapGrowsTransitive(a.operations, b.operations, c.operations);
    MapGrowsTransitive(a.revocations, b.revocations, c.revocations);
    MapGrowsTransitive(a.executors, b.executors, c.executors);
    MapGrowsTransitive(a.results, b.results, c.results);
  }

  lemma StatesTransitive(a: Store, b: Store, c: Store)
    requires StatesMove(a, b) && StatesMove(b, c)
    ensures StatesMove(a, c)
  {
  }

  lemma SequencesTransitive(a: Store, b: Store, c: Store)
    requires SequencesGrow(a, b) && SequencesGrow(b, c)
    ensures SequencesGrow(a, c)
  {
  }

  lemma GrowsTransitive(a: Store, b: Store, c: Store)
    requires Grows(a, b) && Grows(b, c)
    ensures Grows(a, c)
  {
    hide PolicyRowsLater, MapGrows, StatesMove;
    LaterTransitive(a, b, c);
    hide SequencesGrow, TablesGrow;
    SequencesTransitive(a, b, c);
    TablesTransitive(a, b, c);
    StatesTransitive(a, b, c);
  }

  // ---------------------------------------------------------------- which tables a transaction writes

  predicate SamePolicy(s: Store, t: Store) {
    s.grants == t.grants && s.revocations == t.revocations && s.policy == t.policy
  }

  predicate SamePackets(s: Store, t: Store) {
    s.packets == t.packets && s.candidates == t.candidates && s.approvals == t.approvals
  }

  predicate SameEffects(s: Store, t: Store) {
    && s.bindings == t.bindings && s.executors == t.executors
    && s.requests == t.requests && s.dispatches == t.dispatches && s.results == t.results
  }

  predicate WritesPolicy(p: Pending) {
    p.PolicyCommit?
  }

  predicate WritesPackets(p: Pending) {
    p.AuthorityCommit? || p.CandidateCommit? || p.PacketCommit?
  }

  predicate WritesEffects(p: Pending) {
    p.ManagementCommit? || p.EffectCreation? || p.ClaimCommit? || p.ResultCommit?
  }

  /** The event an attempt appends carries the attempt's command. */
  predicate EventFits(p: Pending, e: Event)
    requires Typed(p)
  {
    match p
    case AuthorityCommit(proof, _) => e.command == Authority(proof.envelope.operation)
    case AuthorityRejection(_, _, _, _) => !e.accepted
    case PolicyCommit(proof) => e.command == Policy(proof.envelope.policy)
    case PolicyBindingRejection(_) => !e.accepted
    case ManagementCommit(proof) => e.command == if proof.envelope.BindingEnvelope? then RegisterBinding else RegisterExecutor
    case EventRecord(event) => e == event
    case CandidateCommit(_, _, _, _) => e.command == Workflow && e.accepted
    case PacketCommit(_, _, _, _, _) => e.command == Workflow && e.accepted
    case EffectCreation(_, _) => e.command == CreateEffect && e.accepted
    case ClaimCommit(_, _) => e.command == ClaimEffect && e.accepted
    case ResultCommit(_) => e.command == RecordResult && e.accepted
  }

  /** One committed transaction: it only adds, appends the attempt's one event (or nothing at
      all), and writes no table but its own. */
  ghost predicate Committed(s: Store, t: Store, p: Pending) {
    && Typed(p) && Grows(s, t)
    && (t == s || (|t.log| == |s.log| + 1 && EventFits(p, t.log[|s.log|])))
    && (WritesPolicy(p) || SamePolicy(s, t))
    && (WritesPackets(p) || SamePackets(s, t))
    && (WritesEffects(p) || SameEffects(s, t))
  }

  lemma GrowsSame(s: Store)
    ensures Grows(s, s)
  {
  }

  lemma AppendGrows(s: Store, e: Event)
    ensures Grows(s, Append(s, e))
  {
  }

  lemma AdjudicateGrows(s: Store, e: Event, proof: SignedOperation)
    requires Consumable(s, proof)
    ensures Grows(s, Adjudicate(s, e, proof))
  {
  }

  lemma GrantedGrows(s: Store, proof: SignedOperation, d: Decision)
    requires proof.envelope.PolicyEnvelope? && Consumable(s, proof)
    requires proof.envelope.policy.Bootstrap? ==> s.policy.None?
    ensures Grows(s, GrantedStore(s, proof, d))
  {
    hide PolicyEvent;
  }

  lemma RevokedGrows(s: Store, proof: SignedOperation, d: Decision)
    requires proof.envelope.PolicyEnvelope? && proof.envelope.revocation.Some? && Consumable(s, proof)
    requires proof.envelope.grantId !in s.revocations
    ensures Grows(s, RevokedStore(s, proof, d))
  {
    hide PolicyEvent;
  }

  /** An allowed bootstrap finds no policy; an allowed revocation an unrevoked grant. */
  lemma PolicyDecided(s: Store, e: Envelope)
    requires e.PolicyEnvelope? && PolicyDecision(s, e).status == Allowed
    ensures e.policy.Bootstrap? ==> s.policy.None?
    ensures e.policy.Revoke? ==> e.grantId !in s.revocations
  {
    hide Evaluate, RemainingAdmin, GrantById;
  }

  lemma PolicyCommitted(s: Store, proof: SignedOperation)
    requires proof.envelope.PolicyEnvelope? && CommitPolicy(s, proof).Some?
    ensures Committed(s, CommitPolicy(s, proof).value, PolicyCommit(proof))
  {
    hide PolicyDecision, GrantInsertable, NewGrant, Grows, Consumable, RevocationTaken, Committed, GrantedStore, RevokedStore, Adjudicate, PolicyEvent;
    var d := PolicyDecision(s, proof.envelope);
    if d.status == Allowed {
      PolicyDecided(s, proof.envelope);
      if proof.envelope.policy.Revoke? {
        RevokedGrows(s, proof, d);
        RevokedCommitted(s, proof, d);
      } else {
        GrantedGrows(s, proof, d);
        GrantedCommitted(s, proof, d);
      }
    } else {
      var e := PolicyEvent(proof, d, false);
      PolicyCommand(proof, d);
      AdjudicateGrows(s, e, proof);
      AdjudicateCommitted(s, e, proof, PolicyCommit(proof));
    }
  }

  lemma PolicyCommand(proof: SignedOperation, d: Decision)
    requires proof.envelope.PolicyEnvelope?
    ensures EventFits(PolicyCommit(proof), PolicyEvent(proof, d, false))
  {
  }

  /** An adjudication alone writes the log and the consumed proofs. */
  lemma AdjudicateCommitted(s: Store, e: Event, proof: SignedOperation, p: Pending)
    requires Typed(p) && EventFits(p, e) && Grows(s, Adjudicate(s, e, proof))
    ensures Committed(s, Adjudicate(s, e, proof), p)
  {
    hide Grows, EventFits;
  }

  lemma RevokedCommitted(s: Store, proof: SignedOperation, d: Decision)
    requires proof.envelope.PolicyEnvelope? && proof.envelope.revocation.Some? && Grows(s, RevokedStore(s, proof, d))
    ensures Committed(s, RevokedStore(s, proof, d), PolicyCommit(proof))
  {
    hide Grows;
  }

  lemma GrantedCommitted(s: Store, proof: SignedOperation, d: Decision)
    requires proof.envelope.PolicyEnvelope? && Grows(s, GrantedStore(s, proof, d))
    ensures Committed(s, GrantedStore(s, proof, d), PolicyCommit(proof))
  {
    hide Grows, NewGrant;
  }

  lemma AuthorizedGrows(s: Store, proof: SignedOperation, d: Decision, receipt: FileHash)
    requires proof.envelope.PacketEnvelope? && proof.envelope.packet in s.packets && Consumable(s, proof)
    ensures Grows(s, AuthorizedStore(s, proof, d, receipt))
  {
    hide PacketEvent, NewApproval;
  }

  lemma AuthorizedCommitted(s: Store, proof: SignedOperation, d: Decision, receipt: FileHash)
    requires proof.envelope.PacketEnvelope? && proof.envelope.packet in s.packets && Grows(s, AuthorizedStore(s, proof, d, receipt))
    ensures Committed(s, AuthorizedStore(s, proof, d, receipt), AuthorityCommit(proof, receipt))
  {
    hide Grows, NewApproval;
  }

  lemma AuthorityCommitted(s: Store, proof: SignedOperation, receipt: FileHash)
    requires proof.envelope.PacketEnvelope? && CommitAuthority(s, proof, receipt).Some?
    ensures Committed(s, CommitAuthority(s, proof, receipt).value, AuthorityCommit(proof, receipt))
  {
    hide TransactionDecision, ReleaseApproved, NewApproval, AuthoritySensitive, Grows, Committed, AuthorizedStore, Adjudicate, Consumable;
    var e := proof.envelope;
    var row := s.packets[e.packet];
    var d := TransactionDecision(s, e, row.state, row);
    if d.status == Allowed {
      AuthorizedGrows(s, proof, d, receipt);
      AuthorizedCommitted(s, proof, d, receipt);
    } else {
      var event := PacketEvent(proof, d, false, row.state, e.manifest, Some(receipt));
      AdjudicateGrows(s, event, proof);
      AdjudicateCommitted(s, event, proof, AuthorityCommit(proof, receipt));
    }
  }

  lemma BindingAddedCommitted(s: Store, e: Event, proof: SignedOperation, b: Binding)
    requires proof.envelope.BindingEnvelope? && e.command == RegisterBinding && Consumable(s, proof)
    ensures Committed(s, Adjudicate(s, e, proof).(bindings := s.bindings + [b]), ManagementCommit(proof))
  {
  }

  lemma ExecutorAddedCommitted(s: Store, e: Event, proof: SignedOperation, id: ExecutorId, x: Executor)
    requires proof.envelope.ExecutorEnvelope? && e.command == RegisterExecutor && Consumable(s, proof) && id !in s.executors
    ensures Committed(s, Adjudicate(s, e, proof).(executors := s.executors[id := x]), ManagementCommit(proof))
  {
  }

  lemma ManagementCommand(proof: SignedOperation, accepted: bool, d: Decision)
    requires proof.envelope.BindingEnvelope? || proof.envelope.ExecutorEnvelope?
    ensures EventFits(ManagementCommit(proof), ManagementEvent(proof, Verified(proof), accepted, d))
  {
  }

  lemma RegistrationFresh(s: Store, e: Envelope)
    requires e.ExecutorEnvelope? && ManagementDecision(s, e).status == Allowed
    ensures e.executor !in s.executors
  {
    hide Evaluate;
  }

  lemma ManagementCommitted(s: Store, proof: SignedOperation)
    requires proof.envelope.BindingEnvelope? || proof.envelope.ExecutorEnvelope?
    requires CommitManagement(s, proof).Some?
    ensures Committed(s, CommitManagement(s, proof).value, ManagementCommit(proof))
  {
    hide ManagementDecision, Grows, Committed, Consumable, ManagementEvent, Adjudicate;
    var v := proof.envelope;
    var d := ManagementDecision(s, v);
    var e := ManagementEvent(proof, Verified(proof), d.status == Allowed, d);
    ManagementCommand(proof, d.status == Allowed, d);
    if d.status != Allowed {
      AdjudicateGrows(s, e, proof);
      AdjudicateCommitted(s, e, proof, ManagementCommit(proof));
    } else if v.BindingEnvelope? {
      BindingAddedCommitted(s, e, proof, Binding(v.binding, v.bindingScope, v.target, v.credential, v.principal, v.id, NextSequence(s)));
    } else {
      RegistrationFresh(s, v);
      ExecutorAddedCommitted(s, e, proof, v.executor, Executor(v.executorKey, v.principal, v.id, NextSequence(s)));
    }
  }

  lemma CandidateCommitted(s: Store, candidate: CandidateId, prior: WorkflowState, requested: WorkflowState, generated: Option<NewPacket>)
    requires CommitCandidate(s, candidate, prior, requested, generated).Some?
    ensures Committed(s, CommitCandidate(s, candidate, prior, requested, generated).value,
                      CandidateCommit(candidate, prior, requested, generated))
  {
    hide AuthoritySensitive;
  }

  lemma PacketCommitted(s: Store, packet: PacketId, candidate: CandidateId, prior: WorkflowState, requested: WorkflowState, receipt: FileHash)
    requires CommitPacketStep(s, packet, candidate, prior, requested, receipt).Some?
    ensures Committed(s, CommitPacketStep(s, packet, candidate, prior, requested, receipt).value,
                      PacketCommit(packet, candidate, prior, requested, receipt))
  {
    hide AuthoritySensitive;
  }

  lemma EffectCommitted(s: Store, packet: PacketId, row: Packet, first: Artifacts)
    requires DeriveEffect(s, packet, row, first).Created?
    ensures Committed(s, DeriveEffect(s, packet, row, first).store, EffectCreation(packet, first))
  {
    hide NewRequest, GrantSupports, ApprovalNamed, RequestInsertable, LatestRelease, BindingOf;
  }

  lemma ClaimCommitted(s: Store, effect: EffectId, id: DispatchId)
    requires ClaimExternalEffect(s, effect, id).Some?
    ensures Committed(s, ClaimExternalEffect(s, effect, id).value, ClaimCommit(effect, id))
  {
    hide LatestDispatch, DispatchById, RequestById;
  }

  lemma ResultGrows(s: Store, e: Event, id: DispatchId, row: ResultRow)
    requires id !in s.results
    ensures Grows(s, Append(s, e).(results := s.results[id := row]))
  {
  }

  lemma ResultCommand(proof: SignedResult)
    ensures ResultEvent(proof).command == RecordResult && ResultEvent(proof).accepted
  {
  }

  lemma ResultCommitted(s: Store, proof: SignedResult)
    requires RecordExecutorResult(s, proof).Some?
    ensures Committed(s, RecordExecutorResult(s, proof).value, ResultCommit(proof))
  {
    hide DispatchById, RequestById, ResultBound, Collides, ValidResult, ResultEvent, Grows;
    if proof.envelope.dispatch !in s.results {
      ResultGrows(s, ResultEvent(proof), proof.envelope.dispatch, ResultRow(proof, NextSequence(s)));
    }
    GrowsSame(s);
    ResultCommand(proof);
  }

  lemma RejectionCommitted(s: Store, proof: SignedOperation, prior: WorkflowState, governed: FileHash, read: Option<FileHash>)
    requires proof.envelope.PacketEnvelope? && CommitRejection(s, proof, prior, governed, read).Some?
    ensures Committed(s, CommitRejection(s, proof, prior, governed, read).value, AuthorityRejection(proof, prior, governed, read))
  {
    hide TransactionDecision, Grows, Consumable, Committed;
    var e := CommitRejection(s, proof, prior, governed, read).value.log[|s.log|];
    AdjudicateGrows(s, e, proof);
    AdjudicateCommitted(s, e, proof, AuthorityRejection(proof, prior, governed, read));
  }

  lemma BindingRejectionCommitted(s: Store, proof: SignedOperation)
    requires proof.envelope.PolicyEnvelope? && CommitPolicyBindingRejection(s, proof).Some?
    ensures Committed(s, CommitPolicyBindingRejection(s, proof).value, PolicyBindingRejection(proof))
  {
    hide Grows, Consumable, Committed;
    var e := CommitPolicyBindingRejection(s, proof).value.log[|s.log|];
    AdjudicateGrows(s, e, proof);
    AdjudicateCommitted(s, e, proof, PolicyBindingRejection(proof));
  }

  lemma EventCommitted(s: Store, e: Event)
    ensures Committed(s, Append(s, e), EventRecord(e))
  {
    hide Grows;
    AppendGrows(s, e);
  }

  lemma UnchangedCommitted(s: Store, p: Pending)
    requires Typed(p)
    ensures Committed(s, s, p)
  {
    hide Grows;
    GrowsSame(s);
  }

  lemma CreationCommitted(s: Store, files: Files, packet: PacketId, first: Artifacts)
    ensures var out := CreateExternalEffect(s, files, packet, first);
      out.Created? ==> Committed(s, out.store, EffectCreation(packet, first))
  {
    hide Committed, DeriveEffect, Recompute, RequestOf;
    if CreateExternalEffect(s, files, packet, first).Created? { EffectCommitted(s, packet, s.packets[packet], first); }
  }

  /** A transaction that commits appends exactly one event, except that repeating an effect
      request or a result submission changes nothing; one that aborts changes nothing. */
  lemma CommitShape(s: Store, files: Files, p: Pending)
    requires Typed(p)
    ensures Committed(s, Outcome(s, files, p), p)
  {
    hide Committed, Typed, CommitAuthority, CommitRejection, CommitPolicy, CommitPolicyBindingRejection, CommitManagement, CommitCandidate,
         CommitPacketStep, CreateExternalEffect, ClaimExternalEffect, RecordExecutorResult, Append;
    UnchangedCommitted(s, p);
    if Commit(s, files, p).Some? {
      TypedKinds(p);
      match p
      case AuthorityCommit(proof, receipt) => AuthorityCommitted(s, proof, receipt);
      case AuthorityRejection(proof, prior, governed, read) => RejectionCommitted(s, proof, prior, governed, read);
      case PolicyCommit(proof) => PolicyCommitted(s, proof);
      case PolicyBindingRejection(proof) => BindingRejectionCommitted(s, proof);
      case ManagementCommit(proof) => ManagementCommitted(s, proof);
      case EventRecord(event) => EventCommitted(s, event);
      case CandidateCommit(candidate, prior, requested, generated) =>
        CandidateCommitted(s, candidate, prior, requested, generated);
      case PacketCommit(packet, candidate, prior, requested, receipt) =>
        PacketCommitted(s, packet, candidate, prior, requested, receipt);
      case EffectCreation(packet, first) => CreationCommitted(s, files, packet, first);
      case ClaimCommit(effect, dispatch) => ClaimCommitted(s, effect, dispatch);
      case ResultCommit(result) => ResultCommitted(s, result);
    }
  }

  lemma TypedKinds(p: Pending)
    requires Typed(p)
    ensures p.AuthorityCommit? ==> p.proof.envelope.PacketEnvelope?
    ensures p.AuthorityRejection? ==> p.proof.envelope.PacketEnvelope?
    ensures p.PolicyCommit? ==> p.proof.envelope.PolicyEnvelope?
    ensures p.PolicyBindingRejection? ==> p.proof.envelope.PolicyEnvelope?
    ensures p.ManagementCommit? ==> p.proof.envelope.BindingEnvelope? || p.proof.envelope.ExecutorEnvelope?
  {
  }

  lemma OutcomeGrows(s: Store, files: Files, p: Pending)
    ensures Grows(s, Outcome(s, files, p))
  {
    hide Grows, Commit;
    if Typed(p) { CommitShape(s, files, p); } else { GrowsSame(s); }
  }

  lemma TrustGrows(s: Store, principal: PrincipalId, key: KeyId)
    ensures Grows(s, Trust(s, principal, key))
  {
    hide Grows;
    GrowsSame(s);
    if principal !in s.principals { PrincipalAdded(s, principal, key); }
  }

  lemma PrincipalAdded(s: Store, principal: PrincipalId, key: KeyId)
    requires principal !in s.principals
    ensures Grows(s, s.(principals := s.principals[principal := key]))
  {
  }

  lemma DiscoverGrows(s: Store, candidate: CandidateId)
    ensures Grows(s, InsertCandidate(s, candidate))
  {
    hide SequencesGrow, TablesGrow, PolicyRowsLater;
    SameGrows(s, InsertCandidate(s, candidate));
  }

  /** Stores alike but for candidates and packets. */
  lemma SameGrows(s: Store, t: Store)
    requires t == s.(candidates := t.candidates, packets := t.packets)
    ensures SequencesGrow(s, t) && TablesGrow(s, t) && PolicyRowsLater(s, t)
  {
  }

  lemma NextGrows(y: System, step: Step)
    ensures Grows(y.store, Next(y, step).store)
  {
    hide Grows, Outcome, Read, Trust, InsertCandidate;
    GrowsSame(y.store);
    match step
    case CommitStep(w, files) => if w in y.pending { OutcomeGrows(y.store, files, y.pending[w]); }
    case TrustPrincipal(principal, key) => TrustGrows(y.store, principal, key);
    case Discover(candidate) => DiscoverGrows(y.store, candidate);
    case _ =>
  }

  /** One step appends at most one event. */
  lemma NextAppends(y: System, step: Step)
    ensures var s, t := y.store, Next(y, step).store;
      t.log == s.log || (|t.log| == |s.log| + 1 && t.log == s.log + [t.log[|t.log| - 1]])
  {
    hide Grows, Read, Commit, Typed, Trust, InsertCandidate;
    match step
    case CommitStep(w, files) => if w in y.pending { OutcomeAppends(y.store, files, y.pending[w]); }
    case TrustPrincipal(principal, key) => TrustAppendsNothing(y.store, principal, key);
    case Discover(candidate) => DiscoverAppendsNothing(y.store, candidate);
    case _ =>
  }

  lemma OutcomeAppends(s: Store, files: Files, p: Pending)
    ensures var t := Outcome(s, files, p);
      t.log == s.log || (|t.log| == |s.log| + 1 && t.log == s.log + [t.log[|t.log| - 1]])
  {
    hide Commit, PolicyRowsLater, TablesGrow, StatesMove;
    if Typed(p) { CommitShape(s, files, p); }
  }

  lemma TrustAppendsNothing(s: Store, principal: PrincipalId, key: KeyId)
    ensures Trust(s, principal, key).log == s.log
  {
  }

  lemma DiscoverAppendsNothing(s: Store, candidate: CandidateId)
    ensures InsertCandidate(s, candidate).log == s.log
  {
  }

  /** Over any continuation of any run, the log and every table only grow. */
  lemma {:induction false} RunGrows(y: System, steps: seq<Step>)
    ensures Grows(y.store, Run(y, steps).store)
    decreases |steps|
  {
    if steps != [] {
      var before := Run(y, steps[..|steps| - 1]);
      RunGrows(y, steps[..|steps| - 1]);
      NextGrows(before, steps[|steps| - 1]);
      GrowsTransitive(y.store, before.store, Run(y, steps).store);
    }
  }
}
