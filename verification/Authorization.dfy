/** The capability evaluator (authorization.py). */
module Authorization {
  import opened Models

  datatype GrantRow = GrantRow(
    id: GrantId, subject: PrincipalId, capability: Capability,
    prior: Option<WorkflowState>, requested: Option<WorkflowState>, scope: ScopeColumns,
    grantedBy: PrincipalId, operation: OperationId, event: Sequence)

  /** What one transaction sees of the policy tables; grants in `ORDER BY event_sequence`. */
  datatype PolicyView = PolicyView(bootstrapped: bool, grants: seq<GrantRow>, revoked: set<GrantId>)

  datatype Query = Query(
    principal: PrincipalId, capability: Capability,
    prior: Option<WorkflowState>, requested: Option<WorkflowState>, scope: Option<Scope>)

  function ColumnsOf(scope: Option<Scope>): ScopeColumns {
    match scope case None => Versioned case Some(s) => Exact(s)
  }

  /** `denied_decision`: always with a scope version, never with a grant. */
  function Deny(q: Query, reason: AuthorizationReason): Decision {
    Decision(Denied, q.principal, q.capability, q.prior, q.requested, ColumnsOf(q.scope), None, reason)
  }

  function Select(rows: seq<GrantRow>, keep: GrantRow -> bool): seq<GrantRow> {
    if rows == [] then []
    else (if keep(rows[0]) then [rows[0]] else []) + Select(rows[1..], keep)
  }

  /** `CapabilityPolicyEvaluator.evaluate`. */
  function Evaluate(v: PolicyView, q: Query): Decision {
    if PacketScoped(q.capability) && q.scope.None? then Deny(q, ScopeRequired)
    else if !PacketScoped(q.capability) && q.scope.Some? then Deny(q.(scope := None), RequestScopeMismatch)
    else if !v.bootstrapped then Deny(q, PolicyNotBootstrapped)
    else
      var rows := Select(v.grants, (g: GrantRow) => g.subject == q.principal);
      if rows == [] then Deny(q, NoActiveGrant)
      else
        var capable := Select(rows, (g: GrantRow) => g.capability == q.capability);
        if capable == [] then Deny(q, CapabilityMismatch)
        else
          var exact := Select(capable, (g: GrantRow) => g.prior == q.prior && g.requested == q.requested);
          if exact == [] then Deny(q, StateScopeMismatch)
          else if q.scope.Some? then EvaluateScope(v, q, exact)
          else EvaluateActive(v, q, exact)
  }

  function EvaluateScope(v: PolicyView, q: Query, exact: seq<GrantRow>): Decision
    requires q.scope.Some?
  {
    var s := q.scope.value;
    var scoped := Select(exact, (g: GrantRow) => !g.scope.Unversioned?);
    if scoped == [] && exact != [] then Deny(q, LegacyUnscopedGrant)
    else
      var brand := Select(scoped, (g: GrantRow) => g.scope.Exact? && g.scope.scope.brand == s.brand);
      if brand == [] then Deny(q, BrandScopeMismatch)
      else
        var channel := Select(brand, (g: GrantRow) => g.scope.Exact? && g.scope.scope.channel == s.channel);
        if channel == [] then Deny(q, ChannelScopeMismatch)
        else
          var destination := Select(channel, (g: GrantRow) => g.scope.Exact? && g.scope.scope.destination == s.destination);
          if destination == [] then Deny(q, DestinationScopeMismatch)
          else EvaluateActive(v, q, destination)
  }

  function EvaluateActive(v: PolicyView, q: Query, rows: seq<GrantRow>): Decision {
    var active := Select(rows, (g: GrantRow) => g.id !in v.revoked);
    if active == [] then Deny(q, GrantRevoked)
    else Decision(Allowed, q.principal, q.capability, q.prior, q.requested, ColumnsOf(q.scope), Some(active[0].id), ActiveGrant)
  }

  // ---------------------------------------------------------------- what the filter means

  /** The filter's stages in order; `Passes` is one grant's view of one stage. */
  datatype Stage = Subject | CapabilityStage | StateStage | ScopedStage | BrandStage | ChannelStage | DestinationStage | ActiveStage

  function Rank(stage: Stage): nat {
    match stage
    case Subject => 0 case CapabilityStage => 1 case StateStage => 2 case ScopedStage => 3
    case BrandStage => 4 case ChannelStage => 5 case DestinationStage => 6 case ActiveStage => 7
  }

  function ReasonOf(stage: Stage): AuthorizationReason {
    match stage
    case Subject => NoActiveGrant
    case CapabilityStage => CapabilityMismatch
    case StateStage => StateScopeMismatch
    case ScopedStage => LegacyUnscopedGrant
    case BrandStage => BrandScopeMismatch
    case ChannelStage => ChannelScopeMismatch
    case DestinationStage => DestinationScopeMismatch
    case ActiveStage => GrantRevoked
  }

  predicate Passes(v: PolicyView, q: Query, g: GrantRow, stage: Stage) {
    match stage
    case Subject => g.subject == q.principal
    case CapabilityStage => g.capability == q.capability
    case StateStage => g.prior == q.prior && g.requested == q.requested
    case ScopedStage => q.scope.Some? ==> !g.scope.Unversioned?
    case BrandStage => q.scope.Some? ==> g.scope.Exact? && g.scope.scope.brand == q.scope.value.brand
    case ChannelStage => q.scope.Some? ==> g.scope.Exact? && g.scope.scope.channel == q.scope.value.channel
    case DestinationStage => q.scope.Some? ==> g.scope.Exact? && g.scope.scope.destination == q.scope.value.destination
    case ActiveStage => g.id !in v.revoked
  }

  function Before(stage: Stage): Stage
    requires !stage.Subject?
  {
    match stage
    case CapabilityStage => Subject
    case StateStage => CapabilityStage
    case ScopedStage => StateStage
    case BrandStage => ScopedStage
    case ChannelStage => BrandStage
    case DestinationStage => ChannelStage
    case ActiveStage => DestinationStage
  }

  function After(stage: Stage): (next: Stage)
    requires !stage.ActiveStage?
    ensures !next.Subject? && Before(next) == stage
  {
    match stage
    case Subject => CapabilityStage
    case CapabilityStage => StateStage
    case StateStage => ScopedStage
    case ScopedStage => BrandStage
    case BrandStage => ChannelStage
    case ChannelStage => DestinationStage
    case DestinationStage => ActiveStage
  }

  /** The grant is in the table and passes every stage before the given one. */
  predicate Reaches(v: PolicyView, q: Query, g: GrantRow, stage: Stage)
    decreases Rank(stage)
  {
    if stage.Subject? then g in v.grants
    else Reaches(v, q, g, Before(stage)) && Passes(v, q, g, Before(stage))
  }

  /** The stage is the first that no grant survives. */
  ghost predicate StopsAt(v: PolicyView, q: Query, stage: Stage) {
    && (stage.Subject? || exists g :: Reaches(v, q, g, stage))
    && (forall g :: Reaches(v, q, g, stage) ==> !Passes(v, q, g, stage))
  }

  /** An unrevoked grant for exactly this principal, capability, state pair and scope. */
  predicate Authorizes(v: PolicyView, q: Query, g: GrantRow) {
    && g in v.grants && g.id !in v.revoked
    && g.subject == q.principal && g.capability == q.capability
    && g.prior == q.prior && g.requested == q.requested
    && (q.scope.Some? ==> g.scope == Exact(q.scope.value))
  }

  /** Packet capabilities are asked with a scope, management capabilities without. */
  predicate ScopeFits(q: Query) {
    PacketScoped(q.capability) <==> q.scope.Some?
  }

  ghost predicate Ordered(grants: seq<GrantRow>) {
    forall i, j :: 0 <= i < j < |grants| ==> grants[i].event < grants[j].event
  }

  lemma {:induction false} SelectMembers(rows: seq<GrantRow>, keep: GrantRow -> bool)
    ensures forall g :: g in Select(rows, keep) <==> g in rows && keep(g)
  {
    if rows != [] {
      SelectMembers(rows[1..], keep);
      assert rows == [rows[0]] + rows[1..];
    }
  }

  lemma {:induction false} SelectOrdered(rows: seq<GrantRow>, keep: GrantRow -> bool)
    requires Ordered(rows)
    ensures Ordered(Select(rows, keep))
  {
    if rows != [] {
      SelectOrdered(rows[1..], keep);
      SelectMembers(rows[1..], keep);
      var rest := Select(rows[1..], keep);
      forall j | 0 <= j < |rest|
        ensures rows[0].event < rest[j].event
      {
        assert rest[j] in rest;
      }
    }
  }

  lemma Selected(rows: seq<GrantRow>, keep: GrantRow -> bool)
    requires Ordered(rows)
    ensures Ordered(Select(rows, keep))
    ensures forall g :: g in Select(rows, keep) <==> g in rows && keep(g)
    ensures Select(rows, keep) != [] ==> Select(rows, keep)[0] in Select(rows, keep)
  {
    SelectMembers(rows, keep);
    SelectOrdered(rows, keep);
  }

  ghost predicate Least(g: GrantRow, among: PolicyView, q: Query) {
    && Authorizes(among, q, g)
    && forall other :: Authorizes(among, q, other) ==> g.event <= other.event
  }

  /** Rows that are exactly the grants reaching a stage. */
  ghost predicate ReachingRows(v: PolicyView, q: Query, stage: Stage, rows: seq<GrantRow>) {
    && Ordered(rows)
    && (forall g :: g in rows <==> Reaches(v, q, g, stage))
    && (stage.Subject? || rows != [])
  }

  /** One turn of the staged filter: it either stops at this stage or the rows reach the next. */
  lemma FilterStage(v: PolicyView, q: Query, stage: Stage, rows: seq<GrantRow>, keep: GrantRow -> bool)
    requires ReachingRows(v, q, stage, rows)
    requires forall g :: g in rows ==> (keep(g) <==> Passes(v, q, g, stage))
    ensures Select(rows, keep) == [] ==> StopsAt(v, q, stage)
    ensures stage != ActiveStage && Select(rows, keep) != [] ==> ReachingRows(v, q, After(stage), Select(rows, keep))
  {
    Selected(rows, keep);
    var kept := Select(rows, keep);
    if kept == [] {
      forall g | Reaches(v, q, g, stage)
        ensures !Passes(v, q, g, stage)
      {
        assert g in rows;
        assert g !in kept;
      }
      if !stage.Subject? { assert rows[0] in rows; }
    }
  }

  /** Reaching the last stage is everything but being unrevoked. */
  lemma ReachesActive(v: PolicyView, q: Query, g: GrantRow)
    ensures Reaches(v, q, g, ActiveStage) && Passes(v, q, g, ActiveStage) <==> Authorizes(v, q, g)
  {
    assert Reaches(v, q, g, ActiveStage) <==> Reaches(v, q, g, DestinationStage) && Passes(v, q, g, DestinationStage);
    assert Reaches(v, q, g, DestinationStage) <==> Reaches(v, q, g, ChannelStage) && Passes(v, q, g, ChannelStage);
    assert Reaches(v, q, g, ChannelStage) <==> Reaches(v, q, g, BrandStage) && Passes(v, q, g, BrandStage);
    assert Reaches(v, q, g, BrandStage) <==> Reaches(v, q, g, ScopedStage) && Passes(v, q, g, ScopedStage);
    assert Reaches(v, q, g, ScopedStage) <==> Reaches(v, q, g, StateStage) && Passes(v, q, g, StateStage);
    assert Reaches(v, q, g, StateStage) <==> Reaches(v, q, g, CapabilityStage) && Passes(v, q, g, CapabilityStage);
  }

  /** The evaluator's verdict on a well-scoped query. */
  ghost predicate Verdict(v: PolicyView, q: Query, d: Decision) {
    || (exists g :: Least(g, v, q)
          && d == Decision(Allowed, q.principal, q.capability, q.prior, q.requested, ColumnsOf(q.scope), Some(g.id), ActiveGrant))
    || (exists stage :: StopsAt(v, q, stage) && d == Deny(q, ReasonOf(stage)))
  }

  lemma ActiveVerdict(v: PolicyView, q: Query, rows: seq<GrantRow>)
    requires ReachingRows(v, q, ActiveStage, rows)
    ensures Verdict(v, q, EvaluateActive(v, q, rows))
  {
    var keep := (g: GrantRow) => g.id !in v.revoked;
    FilterStage(v, q, ActiveStage, rows, keep);
    Selected(rows, keep);
    var active := Select(rows, keep);
    forall g
      ensures Authorizes(v, q, g) <==> g in active
    {
      ReachesActive(v, q, g);
    }
    if active != [] {
      assert active[0] in active;
      assert Least(active[0], v, q);
    } else {
      assert StopsAt(v, q, ActiveStage) && ReasonOf(ActiveStage) == GrantRevoked;
    }
  }

  lemma ScopeVerdict(v: PolicyView, q: Query, exact: seq<GrantRow>)
    requires q.scope.Some? && ReachingRows(v, q, ScopedStage, exact)
    ensures Verdict(v, q, EvaluateScope(v, q, exact))
  {
    var s := q.scope.value;
    var scopedKeep := (g: GrantRow) => !g.scope.Unversioned?;
    var brandKeep := (g: GrantRow) => g.scope.Exact? && g.scope.scope.brand == s.brand;
    var channelKeep := (g: GrantRow) => g.scope.Exact? && g.scope.scope.channel == s.channel;
    var destinationKeep := (g: GrantRow) => g.scope.Exact? && g.scope.scope.destination == s.destination;
    FilterStage(v, q, ScopedStage, exact, scopedKeep);
    var scoped := Select(exact, scopedKeep);
    if scoped != [] {
      FilterStage(v, q, BrandStage, scoped, brandKeep);
      var brand := Select(scoped, brandKeep);
      if brand != [] {
        FilterStage(v, q, ChannelStage, brand, channelKeep);
        var channel := Select(brand, channelKeep);
        if channel != [] {
          FilterStage(v, q, DestinationStage, channel, destinationKeep);
          var destination := Select(channel, destinationKeep);
          if destination != [] {
            ActiveVerdict(v, q, destination);
          }
        }
      }
    }
  }

  lemma UnscopedStages(v: PolicyView, q: Query, rows: seq<GrantRow>)
    requires q.scope.None? && ReachingRows(v, q, ScopedStage, rows)
    ensures ReachingRows(v, q, ActiveStage, rows)
  {
    forall g
      ensures Reaches(v, q, g, ActiveStage) <==> Reaches(v, q, g, ScopedStage)
    {
      assert Reaches(v, q, g, ActiveStage) <==> Reaches(v, q, g, DestinationStage);
      assert Reaches(v, q, g, DestinationStage) <==> Reaches(v, q, g, ChannelStage);
      assert Reaches(v, q, g, ChannelStage) <==> Reaches(v, q, g, BrandStage);
      assert Reaches(v, q, g, BrandStage) <==> Reaches(v, q, g, ScopedStage);
    }
  }

  lemma EvaluateVerdict(v: PolicyView, q: Query)
    requires Ordered(v.grants) && v.bootstrapped && ScopeFits(q)
    ensures Verdict(v, q, Evaluate(v, q))
  {
    var subjectKeep := (g: GrantRow) => g.subject == q.principal;
    var capableKeep := (g: GrantRow) => g.capability == q.capability;
    var exactKeep := (g: GrantRow) => g.prior == q.prior && g.requested == q.requested;
    FilterStage(v, q, Subject, v.grants, subjectKeep);
    var rows := Select(v.grants, subjectKeep);
    if rows != [] {
      FilterStage(v, q, CapabilityStage, rows, capableKeep);
      var capable := Select(rows, capableKeep);
      if capable != [] {
        FilterStage(v, q, StateStage, capable, exactKeep);
        var exact := Select(capable, exactKeep);
        if exact != [] {
          if q.scope.Some? {
            ScopeVerdict(v, q, exact);
          } else {
            UnscopedStages(v, q, exact);
            ActiveVerdict(v, q, exact);
          }
        }
      }
    }
  }

  lemma StopsOnce(v: PolicyView, q: Query, a: Stage, b: Stage)
    requires StopsAt(v, q, a) && StopsAt(v, q, b)
    ensures a == b
  {
    if Rank(a) < Rank(b) {
      var g :| Reaches(v, q, g, b);
      ReachesEarlier(v, q, g, a, b);
    } else if Rank(b) < Rank(a) {
      var g :| Reaches(v, q, g, a);
      ReachesEarlier(v, q, g, b, a);
    }
  }

  lemma {:induction false} ReachesEarlier(v: PolicyView, q: Query, g: GrantRow, early: Stage, late: Stage)
    requires Rank(early) < Rank(late) && Reaches(v, q, g, late)
    ensures Reaches(v, q, g, early) && Passes(v, q, g, early)
    decreases Rank(late)
  {
    if Before(late) != early {
      ReachesEarlier(v, q, g, early, Before(late));
    }
  }

  /** The denials that look at no grant: a packet capability asked without a scope, a management
      capability asked with one, and a well-scoped query before the bootstrap. */
  lemma EarlyDenials(v: PolicyView, q: Query)
    ensures var d := Evaluate(v, q);
      && (d == Deny(q, ScopeRequired) <==> PacketScoped(q.capability) && q.scope.None?)
      && (d == Deny(q.(scope := None), RequestScopeMismatch) <==> !PacketScoped(q.capability) && q.scope.Some?)
      && (d == Deny(q, PolicyNotBootstrapped) <==> ScopeFits(q) && !v.bootstrapped)
      && (d.status == Allowed || (exists stage :: d == Deny(q, ReasonOf(stage))) ==> v.bootstrapped && ScopeFits(q))
  {
    hide Select;
  }

  /** Evaluator exactness, for every query. It is allowed iff the policy is bootstrapped, the query
      is well scoped and some unrevoked grant matches exactly; the grant it names is the matching
      one with the least event sequence; and it is denied with a stage's reason iff that stage is
      the first no grant survives. The other denials are decided by the query alone. */
  lemma EvaluatorExact(v: PolicyView, q: Query)
    requires Ordered(v.grants)
    ensures var d, asked := Evaluate(v, q), v.bootstrapped && ScopeFits(q);
      && (d.status == Allowed <==> asked && exists g :: Authorizes(v, q, g))
      && (asked ==> forall g :: Least(g, v, q) ==> d.grant == Some(g.id))
      && (d.status == Allowed ==> exists g :: Least(g, v, q) && d.grant == Some(g.id))
      && (forall stage :: d == Deny(q, ReasonOf(stage)) <==> asked && StopsAt(v, q, stage))
      && (d == Deny(q, ScopeRequired) <==> PacketScoped(q.capability) && q.scope.None?)
      && (d == Deny(q.(scope := None), RequestScopeMismatch) <==> !PacketScoped(q.capability) && q.scope.Some?)
      && (d == Deny(q, PolicyNotBootstrapped) <==> ScopeFits(q) && !v.bootstrapped)
  {
    hide Evaluate, Authorizes, StopsAt, Reaches, Passes, Ordered, ReasonOf, ScopeFits, PacketScoped;
    EarlyDenials(v, q);
    if v.bootstrapped && ScopeFits(q) { AskedExact(v, q); }
  }

  lemma AskedExact(v: PolicyView, q: Query)
    requires Ordered(v.grants) && v.bootstrapped && ScopeFits(q)
    ensures var d := Evaluate(v, q);
      && (d.status == Allowed <==> exists g :: Authorizes(v, q, g))
      && (forall g :: Least(g, v, q) ==> d.grant == Some(g.id))
      && (d.status == Allowed ==> exists g :: Least(g, v, q) && d.grant == Some(g.id))
      && (forall stage :: d == Deny(q, ReasonOf(stage)) <==> StopsAt(v, q, stage))
  {
    hide Evaluate, Authorizes, StopsAt, Reaches, Passes, Ordered, ReasonOf;
    EvaluateVerdict(v, q);
    var d := Evaluate(v, q);
    if d.status == Allowed {
      var g :| Least(g, v, q) && d.grant == Some(g.id);
      forall other | Least(other, v, q) ensures other == g { LeastOnce(v, q, g, other); }
      forall stage ensures !StopsAt(v, q, stage) { AuthorizedNeverStops(v, q, g, stage); }
    } else {
      var stage :| StopsAt(v, q, stage) && d == Deny(q, ReasonOf(stage));
      forall g ensures !Authorizes(v, q, g) { if Authorizes(v, q, g) { AuthorizedNeverStops(v, q, g, stage); } }
      forall other
        ensures d == Deny(q, ReasonOf(other)) <==> StopsAt(v, q, other)
      {
        ReasonsDistinct(stage, other);
        if StopsAt(v, q, other) { StopsOnce(v, q, stage, other); }
      }
    }
  }

  lemma ReasonsDistinct(a: Stage, b: Stage)
    ensures ReasonOf(a) == ReasonOf(b) <==> a == b
  {
  }

  lemma LeastOnce(v: PolicyView, q: Query, a: GrantRow, b: GrantRow)
    requires Ordered(v.grants) && Least(a, v, q) && Least(b, v, q)
    ensures a == b
  {
    OrderedEvents(v.grants, a, b);
  }

  lemma AuthorizedNeverStops(v: PolicyView, q: Query, g: GrantRow, stage: Stage)
    requires Authorizes(v, q, g)
    ensures !StopsAt(v, q, stage)
  {
    ReachesActive(v, q, g);
    if stage != ActiveStage {
      ReachesEarlier(v, q, g, stage, ActiveStage);
    }
  }

  lemma OrderedEvents(grants: seq<GrantRow>, a: GrantRow, b: GrantRow)
    requires Ordered(grants) && a in grants && b in grants && a.event == b.event
    ensures a == b
  {
  }

  /** Evaluator stability: appending grants and revoking any grants but the one an allowed
      decision names leaves that decision, and the grant it names, unchanged. */
  lemma EvaluatorStable(v: PolicyView, w: PolicyView, q: Query)
    requires Ordered(v.grants) && Ordered(w.grants) && (v.bootstrapped ==> w.bootstrapped)
    requires Evaluate(v, q).status == Allowed
    requires v.grants <= w.grants && v.revoked <= w.revoked
    requires Evaluate(v, q).grant.Some? && Evaluate(v, q).grant.value !in w.revoked
    ensures Evaluate(w, q) == Evaluate(v, q)
  {
    hide Evaluate, StopsAt, Reaches, Passes, ReasonOf, Least;
    EarlyDenials(v, q);
    EvaluateVerdict(v, q);
    EvaluateVerdict(w, q);
    var g :| Least(g, v, q) && Evaluate(v, q).grant == Some(g.id);
    LeastStays(v, w, q, g);
    forall stage ensures !StopsAt(w, q, stage) { AuthorizedNeverStops(w, q, g, stage); }
    var h :| Least(h, w, q) && Evaluate(w, q).grant == Some(h.id);
    LeastOnce(w, q, g, h);
  }

  lemma LeastStays(v: PolicyView, w: PolicyView, q: Query, g: GrantRow)
    requires Ordered(w.grants) && v.grants <= w.grants && v.revoked <= w.revoked
    requires Least(g, v, q) && g.id !in w.revoked
    ensures Authorizes(w, q, g) && Least(g, w, q)
  {
    assert g in w.grants;
    forall other | Authorizes(w, q, other)
      ensures g.event <= other.event
    {
      LaterGrant(v.grants, w.grants, g, other);
      if other in v.grants { assert Authorizes(v, q, other); }
    }
  }

  lemma LaterGrant(early: seq<GrantRow>, late: seq<GrantRow>, g: GrantRow, other: GrantRow)
    requires early <= late && Ordered(late) && g in early && other in late
    ensures other in early || g.event < other.event
  {
    var i :| 0 <= i < |early| && early[i] == g;
    var j :| 0 <= j < |late| && late[j] == other;
    assert late[i] == g;
    if j < |early| { assert early[j] == other; }
  }
}
