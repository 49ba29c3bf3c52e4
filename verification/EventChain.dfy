/** The hash-chained event log: writer's tail check and the auditor's full walk
    (integrity.py, database.py `insert_transition_event`). */
module EventChain {
  import opened Canonical

  const CHAIN_VERSION := Text("1.0")
  const CHAIN_ORIGIN := Text("native")
  const CHAIN_HASH_ALGORITHM := Text("sha256")
  const CHAIN_DOMAIN := Text("GS2C_TRANSITION_EVENT_CHAIN_V1")
  const CHAIN_ACTIVATION_DOMAIN := Text("GS2C_TRANSITION_EVENT_CHAIN_ACTIVATION_V1")
  const LEGACY_ORDERING := Text("occurred_at_utc,event_id")

  /** IMMUTABLE_EVENT_FIELDS. */
  predicate IsImmutable(k: Key) {
    k.Mirrored? || k.Target?
  }

  /** LEGACY_IMMUTABLE_EVENT_FIELDS. */
  predicate IsLegacyImmutable(k: Key) {
    IsImmutable(k) || k in {InputIdentifiersJson, FileHashesJson, ReceiptJson}
  }

  predicate IsReceiptField(k: Key) {
    k.Mirrored? || k.Authorization? || k.Chain? || k in {SchemaVersion, InputIdentifiers, FileHashes}
  }

  // ---------------------------------------------------------------- tables

  datatype Entry = Entry(
    eventId: string, version: Value, origin: Value, previous: Value, hash: Value)

  datatype Head = Head(
    metadata: Payload, legacyCount: nat, activation: Value,
    sequence: nat, eventId: Value, hash: Value)

  /** `transition_events` by event id, `transition_event_chain_entries` by its UNIQUE
      sequence, and the singleton `transition_event_chain_state`. */
  datatype Tables = Tables(events: map<string, Payload>, entries: map<nat, Entry>, head: Head)

  const METADATA: Payload := map[
    Chain(Version) := CHAIN_VERSION, Chain(Origin) := CHAIN_ORIGIN,
    HashAlgorithm := CHAIN_HASH_ALGORITHM, EventDomain := CHAIN_DOMAIN,
    ActivationDomain := CHAIN_ACTIVATION_DOMAIN, LegacyOrdering := LEGACY_ORDERING]

  predicate Chained(t: Tables, id: string) {
    exists q :: q in t.entries && t.entries[q].eventId == id
  }

  function LegacyIds(t: Tables): set<string> {
    set id | id in t.events && !Chained(t, id)
  }

  /** One row of the join of events and chain entries. */
  function Joined(t: Tables, q: nat): Payload
    requires q in t.entries && t.entries[q].eventId in t.events
  {
    var entry := t.entries[q];
    t.events[entry.eventId] + map[
      Mirrored(EventId) := Text(entry.eventId),
      Chain(Version) := entry.version, Chain(Origin) := entry.origin,
      Chain(Sequence) := Number(q),
      Chain(PreviousHash) := entry.previous, Chain(Hash) := entry.hash]
  }

  // ---------------------------------------------------------------- hashes

  function LegacyMaterial(id: string, row: Payload): Value {
    var named := row[Mirrored(EventId) := Text(id)];
    Object(map k | k in named && IsLegacyImmutable(k) :: named[k])
  }

  function LegacyCorpus(t: Tables): map<string, Value> {
    map id | id in LegacyIds(t) :: LegacyMaterial(id, t.events[id])
  }

  function ActivationDigest(corpus: map<string, Value>): Value {
    Digest(Object(map[
      Domain := CHAIN_ACTIVATION_DOMAIN, Chain(Version) := CHAIN_VERSION,
      LegacyOrdering := LEGACY_ORDERING, LegacyEventCount := Number(|corpus|),
      LegacyEvents := Rows(corpus)]))
  }

  predicate Hashable(row: Payload) {
    IsJsonObject(Get(row, InputIdentifiersJson)) && IsJsonObject(Get(row, FileHashesJson))
  }

  function NativeMaterial(row: Payload, receipt: Payload): Payload
    requires Hashable(row)
  {
    (map k | k in row && IsImmutable(k) :: row[k])
    + map[
      InputIdentifiers := Object(ParsedObject(Get(row, InputIdentifiersJson))),
      FileHashes := Object(ParsedObject(Get(row, FileHashesJson))),
      ReceiptMaterial := Object(receipt)]
  }

  /** `calculate_event_hash`. */
  function EventDigest(row: Payload, sequence: nat, previous: Value, receipt: Payload,
                       version: Value, origin: Value): Value
    requires Hashable(row)
  {
    Digest(Object(map[
      Domain := CHAIN_DOMAIN, Chain(Version) := version, Chain(Origin) := origin,
      Chain(Sequence) := Number(sequence), Chain(PreviousHash) := previous,
      EventMaterial := Object(NativeMaterial(row, receipt))]))
  }

  // ---------------------------------------------------------------- receipts

  /** `RunReceipt`'s validators: known and required fields, an all-or-nothing chain identity
      and coherent authorization evidence. */
  predicate ValidReceipt(receipt: Payload) {
    && (forall k :: k in receipt ==> IsReceiptField(k))
    && Mirrored(EventId) in receipt && Mirrored(Command) in receipt && Mirrored(OccurredAt) in receipt
    && Mirrored(AssertedActor) in receipt && Mirrored(PriorState) in receipt
    && Mirrored(RequestedState) in receipt && Mirrored(ResultingState) in receipt
    && Mirrored(Outcome) in receipt && Mirrored(Reason) in receipt && Mirrored(ApplicationVersion) in receipt
    && Get(receipt, InputIdentifiers).Object?
    && (FileHashes in receipt ==> receipt[FileHashes].Object?)
    && ((forall c: ChainColumn :: Get(receipt, Chain(c)).Null?)
        || (forall c: ChainColumn :: !Get(receipt, Chain(c)).Null?))
    && CoherentAuthorization(receipt)
  }

  predicate CoherentAuthorization(receipt: Payload) {
    if Get(receipt, Authorization(Status)).Null? then
      forall c: AuthorizationColumn :: Get(receipt, Authorization(c)).Null?
    else
      && !Get(receipt, Authorization(Principal)).Null?
      && !Get(receipt, Authorization(RequiredCapability)).Null?
      && !Get(receipt, Authorization(ReasonCode)).Null?
      && Get(receipt, Mirrored(AuthenticationStatus)) in {Text("verified"), Text("replay_rejected")}
      && Get(receipt, Authorization(Principal)) == Get(receipt, Mirrored(AuthenticatedPrincipal))
      && (Get(receipt, Authorization(Status)) == Text("denied")
          ==> Get(receipt, Authorization(MatchingGrant)).Null?)
  }

  /** `_validate_event_receipt_alignment`. */
  predicate Aligned(row: Payload, receipt: Payload) {
    && (forall c: MirroredColumn :: Get(row, Mirrored(c)) == Get(receipt, Mirrored(c)))
    && (forall c: AuthorizationColumn :: Get(row, Authorization(c)) == Get(receipt, Authorization(c)))
    && Hashable(row)
    && Object(ParsedObject(Get(row, InputIdentifiersJson))) == Get(receipt, InputIdentifiers)
    && Object(ParsedObject(Get(row, FileHashesJson)))
       == (if FileHashes in receipt then receipt[FileHashes] else Object(map[]))
  }

  /** `canonical_receipt_from_event` on a native row: the stored receipt is canonical, carries
      the row's chain identity, recomputes to the stored hash, and agrees with the row. */
  predicate CanonicalReceipt(row: Payload, sequence: nat) {
    var stored := Get(row, ReceiptJson);
    && IsJsonObject(stored) && stored.layout == 0
    && var receipt := ParsedObject(stored);
    && ValidReceipt(receipt)
    && (forall c: ChainColumn :: Get(receipt, Chain(c)) == Get(row, Chain(c)))
    && Hashable(row)
    && Get(row, Chain(Hash)) == EventDigest(row, sequence, Get(row, Chain(PreviousHash)),
                                            receipt - {Chain(Hash)},
                                            Get(row, Chain(Version)), Get(row, Chain(Origin)))
    && Aligned(row, receipt)
  }

  // ---------------------------------------------------------------- the full audit

  predicate CheckpointMatches(t: Tables) {
    && t.head.metadata == METADATA
    && t.head.legacyCount == |LegacyIds(t)|
    && t.head.activation == ActivationDigest(LegacyCorpus(t))
  }

  predicate NoOrphans(t: Tables) {
    forall q :: q in t.entries ==> t.entries[q].eventId in t.events
  }

  ghost predicate Contiguous(t: Tables) {
    forall q :: q in t.entries <==> 1 <= q <= |t.entries|
  }

  /** The predecessor the auditor expects of the entry at q. */
  ghost function Predecessor(t: Tables, q: nat): Value
    requires q == 1 || q - 1 in t.entries
  {
    if q == 1 then ActivationDigest(LegacyCorpus(t)) else t.entries[q - 1].hash
  }

  ghost predicate Linked(t: Tables, q: nat)
    requires NoOrphans(t) && Contiguous(t) && q in t.entries
  {
    t.entries[q].previous == Predecessor(t, q) && CanonicalReceipt(Joined(t, q), q)
  }

  ghost predicate HeadMatches(t: Tables)
    requires Contiguous(t)
  {
    var n := |t.entries|;
    && t.head.sequence == n
    && (n == 0 ==> t.head.eventId == Null && t.head.hash == ActivationDigest(LegacyCorpus(t)))
    && (n > 0 ==> t.head.eventId == Text(t.entries[n].eventId) && t.head.hash == t.entries[n].hash)
  }

  /** What the chain part of `verify_integrity` accepts. */
  ghost predicate ChainAccepted(t: Tables) {
    && CheckpointMatches(t) && NoOrphans(t) && Contiguous(t)
    && (forall q :: q in t.entries ==> Linked(t, q))
    && HeadMatches(t)
  }

  // ---------------------------------------------------------------- tamper evidence

  /** Two rows agree on every column the chain protects: the immutable and authorization
      columns, the chain identity, the exact receipt text, and both JSON columns by value. */
  ghost predicate SameEvent(a: Payload, b: Payload) {
    && (forall k :: IsImmutable(k) || k.Authorization? || k.Chain? || k == ReceiptJson ==> Get(a, k) == Get(b, k))
    && Hashable(a) && Hashable(b)
    && Get(a, InputIdentifiersJson).parsed == Get(b, InputIdentifiersJson).parsed
    && Get(a, FileHashesJson).parsed == Get(b, FileHashesJson).parsed
  }

  lemma EqualMaterial(a: Payload, b: Payload, ra: Payload, rb: Payload)
    requires Hashable(a) && Hashable(b) && NativeMaterial(a, ra) == NativeMaterial(b, rb)
    ensures forall k :: IsImmutable(k) ==> Get(a, k) == Get(b, k)
    ensures Get(a, InputIdentifiersJson).parsed == Get(b, InputIdentifiersJson).parsed
    ensures Get(a, FileHashesJson).parsed == Get(b, FileHashesJson).parsed
    ensures ra == rb
  {
    var na, nb := NativeMaterial(a, ra), NativeMaterial(b, rb);
    forall k | IsImmutable(k)
      ensures Get(a, k) == Get(b, k)
    {
      assert k in na <==> k in nb;
      assert k in na ==> na[k] == nb[k];
    }
    assert na[ReceiptMaterial] == nb[ReceiptMaterial];
    assert na[InputIdentifiers] == nb[InputIdentifiers] && na[FileHashes] == nb[FileHashes];
  }

  lemma EqualDigests(a: Payload, b: Payload, p: nat, q: nat, ra: Payload, rb: Payload)
    requires Hashable(a) && Hashable(b)
    requires EventDigest(a, p, Get(a, Chain(PreviousHash)), ra, Get(a, Chain(Version)), Get(a, Chain(Origin)))
             == EventDigest(b, q, Get(b, Chain(PreviousHash)), rb, Get(b, Chain(Version)), Get(b, Chain(Origin)))
    ensures p == q && NativeMaterial(a, ra) == NativeMaterial(b, rb)
    ensures forall c: ChainColumn :: c in {Version, Origin, PreviousHash} ==> Get(a, Chain(c)) == Get(b, Chain(c))
  {
    var ma := EventDigest(a, p, Get(a, Chain(PreviousHash)), ra, Get(a, Chain(Version)), Get(a, Chain(Origin))).of.fields;
    var mb := EventDigest(b, q, Get(b, Chain(PreviousHash)), rb, Get(b, Chain(Version)), Get(b, Chain(Origin))).of.fields;
    assert ma[Chain(Sequence)] == mb[Chain(Sequence)] && ma[Chain(PreviousHash)] == mb[Chain(PreviousHash)];
    assert ma[Chain(Version)] == mb[Chain(Version)] && ma[Chain(Origin)] == mb[Chain(Origin)];
    assert ma[EventMaterial] == mb[EventMaterial];
  }

  lemma SamePlusKey(a: Payload, b: Payload, k: Key)
    requires a - {k} == b - {k} && Get(a, k) == Get(b, k) && !Get(a, k).Null?
    ensures a == b
  {
    assert a == (a - {k})[k := a[k]];
    assert b == (b - {k})[k := b[k]];
  }

  lemma DigestDeterminesRow(a: Payload, b: Payload, p: nat, q: nat)
    requires CanonicalReceipt(a, p) && CanonicalReceipt(b, q)
    requires Get(a, Chain(Sequence)) == Number(p) && Get(b, Chain(Sequence)) == Number(q)
    requires Get(a, Chain(Hash)) == Get(b, Chain(Hash))
    ensures p == q && SameEvent(a, b)
  {
    var ra, rb := ParsedObject(Get(a, ReceiptJson)), ParsedObject(Get(b, ReceiptJson));
    EqualDigests(a, b, p, q, ra - {Chain(Hash)}, rb - {Chain(Hash)});
    EqualMaterial(a, b, ra - {Chain(Hash)}, rb - {Chain(Hash)});
    SamePlusKey(ra, rb, Chain(Hash));
  }

  lemma ActivationDeterminesCorpus(c: map<string, Value>, d: map<string, Value>)
    requires ActivationDigest(c) == ActivationDigest(d)
    ensures c == d
  {
    assert ActivationDigest(c).of.fields[LegacyEvents] == ActivationDigest(d).of.fields[LegacyEvents];
  }

  lemma DomainsDiffer()
    ensures CHAIN_DOMAIN != CHAIN_ACTIVATION_DOMAIN
  {
    assert |CHAIN_DOMAIN.text| != |CHAIN_ACTIVATION_DOMAIN.text|;
  }

  lemma DomainsSeparate(corpus: map<string, Value>, row: Payload, q: nat)
    requires CanonicalReceipt(row, q)
    ensures Get(row, Chain(Hash)) != ActivationDigest(corpus)
  {
    hide ValidReceipt, Aligned, NativeMaterial;
    assert Get(row, Chain(Hash)).of.fields[Domain] == CHAIN_DOMAIN;
    assert ActivationDigest(corpus).of.fields[Domain] == CHAIN_ACTIVATION_DOMAIN;
    DomainsDiffer();
  }

  lemma JoinedColumns(t: Tables, q: nat)
    requires q in t.entries && t.entries[q].eventId in t.events
    ensures var row, entry := Joined(t, q), t.entries[q];
      && Get(row, Mirrored(EventId)) == Text(entry.eventId)
      && Get(row, Chain(Version)) == entry.version && Get(row, Chain(Origin)) == entry.origin
      && Get(row, Chain(Sequence)) == Number(q)
      && Get(row, Chain(PreviousHash)) == entry.previous && Get(row, Chain(Hash)) == entry.hash
      && (forall k :: k != Mirrored(EventId) && !k.Chain?
            ==> Get(row, k) == Get(t.events[entry.eventId], k))
  {
  }

  /** The row at q carries a canonical receipt, and its entry the expected predecessor. */
  lemma AcceptedRow(t: Tables, q: nat)
    requires ChainAccepted(t) && 1 <= q <= |t.entries|
    ensures q in t.entries && t.entries[q].eventId in t.events
    ensures CanonicalReceipt(Joined(t, q), q)
    ensures q == 1 ==> t.entries[q].previous == ActivationDigest(LegacyCorpus(t))
    ensures q > 1 ==> q - 1 in t.entries && t.entries[q].previous == t.entries[q - 1].hash
  {
    assert Linked(t, q);
  }

  lemma EqualHashesEqualEntries(a: Tables, b: Tables, p: nat, q: nat)
    requires p in a.entries && a.entries[p].eventId in a.events && CanonicalReceipt(Joined(a, p), p)
    requires q in b.entries && b.entries[q].eventId in b.events && CanonicalReceipt(Joined(b, q), q)
    requires a.entries[p].hash == b.entries[q].hash
    ensures p == q && a.entries[p] == b.entries[q] && SameEntry(a, b, p)
  {
    JoinedColumns(a, p);
    JoinedColumns(b, q);
    DigestDeterminesRow(Joined(a, p), Joined(b, q), p, q);
  }

  ghost predicate SameEntry(a: Tables, b: Tables, k: nat) {
    && k in a.entries && k in b.entries && a.entries[k] == b.entries[k]
    && a.entries[k].eventId in a.events && b.entries[k].eventId in b.events
    && SameEvent(Joined(a, k), Joined(b, k))
  }

  /** Backward induction along equal hashes, from a common entry at q down to any k. */
  lemma {:induction false} EqualHashesBackwards(a: Tables, b: Tables, q: nat, k: nat)
    requires ChainAccepted(a) && ChainAccepted(b)
    requires 1 <= k <= q <= |a.entries| && q <= |b.entries|
    requires q in a.entries && q in b.entries && a.entries[q].hash == b.entries[q].hash
    ensures SameEntry(a, b, k)
    decreases q
  {
    hide *;
    AcceptedRow(a, q);
    AcceptedRow(b, q);
    EqualHashesEqualEntries(a, b, q, q);
    if k < q {
      EqualHashesBackwards(a, b, q - 1, k);
    }
  }

  lemma HeadIsTail(t: Tables)
    requires ChainAccepted(t)
    ensures |t.entries| == 0 ==> t.head.hash == ActivationDigest(LegacyCorpus(t))
    ensures |t.entries| > 0 ==> |t.entries| in t.entries && t.head.hash == t.entries[|t.entries|].hash
    ensures forall q :: q in t.entries <==> 1 <= q <= |t.entries|
  {
  }

  /** No accepted event's hash is an activation hash. */
  lemma GenesisIsNoEvent(t: Tables, corpus: map<string, Value>, q: nat)
    requires ChainAccepted(t) && 1 <= q <= |t.entries| && q in t.entries
    ensures t.entries[q].hash != ActivationDigest(corpus)
  {
    AcceptedRow(t, q);
    JoinedColumns(t, q);
    DomainsSeparate(corpus, Joined(t, q), q);
  }

  lemma SameEntriesSameChain(a: Tables, b: Tables)
    requires ChainAccepted(a) && ChainAccepted(b) && |a.entries| == |b.entries| > 0
    requires forall k :: k in a.entries ==> SameEntry(a, b, k)
    ensures a.entries == b.entries && LegacyCorpus(a) == LegacyCorpus(b)
  {
    hide SameEvent, Joined, CanonicalReceipt, LegacyCorpus, ActivationDigest;
    HeadIsTail(a);
    HeadIsTail(b);
    AcceptedRow(a, 1);
    AcceptedRow(b, 1);
    assert SameEntry(a, b, 1);
    ActivationDeterminesCorpus(LegacyCorpus(a), LegacyCorpus(b));
    assert forall k :: k in a.entries <==> k in b.entries;
    assert a.entries.Keys == b.entries.Keys;
    forall k | k in a.entries
      ensures a.entries[k] == b.entries[k]
    {
      assert SameEntry(a, b, k);
    }
  }

  /** Two stores that both pass the chain audit with the same head hash hold the same chain:
      as many native events, agreeing entry by entry and column by column, and the same
      legacy corpus. */
  lemma TamperEvidence(a: Tables, b: Tables)
    requires ChainAccepted(a) && ChainAccepted(b)
    requires a.head.hash == b.head.hash
    ensures a.entries == b.entries
    ensures forall q :: q in a.entries ==> SameEntry(a, b, q)
    ensures LegacyCorpus(a) == LegacyCorpus(b)
  {
    var n, m := |a.entries|, |b.entries|;
    HeadIsTail(a);
    HeadIsTail(b);
    hide *;
    if n == 0 || m == 0 {
      if n > 0 { GenesisIsNoEvent(a, LegacyCorpus(b), n); }
      if m > 0 { GenesisIsNoEvent(b, LegacyCorpus(a), m); }
      ActivationDeterminesCorpus(LegacyCorpus(a), LegacyCorpus(b));
      assert a.entries == map[] && b.entries == map[];
    } else {
      AcceptedRow(a, n);
      AcceptedRow(b, m);
      EqualHashesEqualEntries(a, b, n, m);
      forall k | k in a.entries
        ensures SameEntry(a, b, k)
      {
        EqualHashesBackwards(a, b, n, k);
      }
      SameEntriesSameChain(a, b);
    }
  }

  /** Two stored event rows agree column by column; the id column is the row's own key. */
  ghost predicate SameColumns(a: Payload, b: Payload) {
    && (forall c: MirroredColumn :: c != EventId ==> Get(a, Mirrored(c)) == Get(b, Mirrored(c)))
    && (forall c: TargetColumn :: Get(a, Target(c)) == Get(b, Target(c)))
  }

  /** Two native rows agree: columns, authorization columns, receipt text, and the two JSON
      columns by value. */
  ghost predicate SameNative(a: Payload, b: Payload) {
    && SameColumns(a, b)
    && (forall c: AuthorizationColumn :: Get(a, Authorization(c)) == Get(b, Authorization(c)))
    && Get(a, ReceiptJson) == Get(b, ReceiptJson)
    && Get(a, InputIdentifiersJson).Json? && Get(b, InputIdentifiersJson).Json?
    && Get(a, InputIdentifiersJson).parsed == Get(b, InputIdentifiersJson).parsed
    && Get(a, FileHashesJson).Json? && Get(b, FileHashesJson).Json?
    && Get(a, FileHashesJson).parsed == Get(b, FileHashesJson).parsed
  }

  /** Two legacy rows agree: columns, and the three JSON columns as text. */
  ghost predicate SameLegacy(a: Payload, b: Payload) {
    && SameColumns(a, b)
    && Get(a, InputIdentifiersJson) == Get(b, InputIdentifiersJson)
    && Get(a, FileHashesJson) == Get(b, FileHashesJson)
    && Get(a, ReceiptJson) == Get(b, ReceiptJson)
  }

  lemma SameEventColumns(a: Tables, b: Tables, q: nat)
    requires SameEntry(a, b, q)
    ensures a.entries[q].eventId in a.events && b.entries[q].eventId in b.events
    ensures SameNative(a.events[a.entries[q].eventId], b.events[b.entries[q].eventId])
  {
    hide Joined;
    JoinedColumns(a, q);
    JoinedColumns(b, q);
    var x, y := a.events[a.entries[q].eventId], b.events[b.entries[q].eventId];
    forall c: MirroredColumn | c != EventId ensures Get(x, Mirrored(c)) == Get(y, Mirrored(c)) { SameColumn(a, b, q, Mirrored(c)); }
    forall c: TargetColumn ensures Get(x, Target(c)) == Get(y, Target(c)) { SameColumn(a, b, q, Target(c)); }
    forall c: AuthorizationColumn ensures Get(x, Authorization(c)) == Get(y, Authorization(c)) { SameColumn(a, b, q, Authorization(c)); }
  }

  lemma SameColumn(a: Tables, b: Tables, q: nat, k: Key)
    requires SameEntry(a, b, q) && k != Mirrored(EventId) && (k.Mirrored? || k.Target? || k.Authorization?)
    ensures Get(a.events[a.entries[q].eventId], k) == Get(b.events[b.entries[q].eventId], k)
  {
    hide Joined;
    JoinedColumns(a, q);
    JoinedColumns(b, q);
  }

  lemma LegacyColumn(x: Payload, y: Payload, id: string, k: Key)
    requires LegacyMaterial(id, x) == LegacyMaterial(id, y) && k != Mirrored(EventId)
    requires k.Mirrored? || k.Target? || k in {InputIdentifiersJson, FileHashesJson, ReceiptJson}
    ensures Get(x, k) == Get(y, k)
  {
    var m, n := LegacyMaterial(id, x).fields, LegacyMaterial(id, y).fields;
    assert k in m <==> k in x;
    assert k in n <==> k in y;
    assert k in m ==> m[k] == n[k];
  }

  lemma LegacyRowsAgree(a: Tables, b: Tables, id: string)
    requires LegacyCorpus(a) == LegacyCorpus(b) && id in LegacyIds(a)
    ensures id in LegacyIds(b) && SameLegacy(a.events[id], b.events[id])
  {
    hide LegacyMaterial, Chained;
    assert id in LegacyCorpus(a) && id in LegacyCorpus(b);
    assert LegacyCorpus(a)[id] == LegacyMaterial(id, a.events[id]) == LegacyMaterial(id, b.events[id]);
    var x, y := a.events[id], b.events[id];
    forall c: MirroredColumn | c != EventId ensures Get(x, Mirrored(c)) == Get(y, Mirrored(c)) { LegacyColumn(x, y, id, Mirrored(c)); }
    forall c: TargetColumn ensures Get(x, Target(c)) == Get(y, Target(c)) { LegacyColumn(x, y, id, Target(c)); }
    LegacyColumn(x, y, id, InputIdentifiersJson);
    LegacyColumn(x, y, id, FileHashesJson);
    LegacyColumn(x, y, id, ReceiptJson);
  }

  /** Which columns the head hash protects: two accepted stores with equal head hashes hold the
      same native rows and the same legacy rows, each named column of them. */
  lemma ProtectedColumns(a: Tables, b: Tables)
    requires ChainAccepted(a) && ChainAccepted(b) && a.head.hash == b.head.hash
    ensures forall q :: q in a.entries ==>
      && q in b.entries && a.entries[q].eventId == b.entries[q].eventId
      && a.entries[q].eventId in a.events && a.entries[q].eventId in b.events
      && SameNative(a.events[a.entries[q].eventId], b.events[a.entries[q].eventId])
    ensures LegacyIds(a) == LegacyIds(b) && forall id :: id in LegacyIds(a) ==> SameLegacy(a.events[id], b.events[id])
  {
    hide ChainAccepted, SameEntry, SameNative, SameLegacy, LegacyCorpus, Chained;
    TamperEvidence(a, b);
    forall q | q in a.entries
      ensures q in b.entries && a.entries[q] == b.entries[q] && a.entries[q].eventId in a.events && a.entries[q].eventId in b.events
      ensures SameNative(a.events[a.entries[q].eventId], b.events[a.entries[q].eventId])
    {
      assert SameEntry(a, b, q);
      SameEventColumns(a, b, q);
    }
    forall id ensures id in LegacyIds(a) <==> id in LegacyIds(b) {
      if id in LegacyIds(a) { LegacyRowsAgree(a, b, id); }
      if id in LegacyIds(b) { LegacyRowsAgree(b, a, id); }
    }
    forall id | id in LegacyIds(a) ensures SameLegacy(a.events[id], b.events[id]) { LegacyRowsAgree(a, b, id); }
  }

  /** Overwriting a row: of an accepted store's events one is replaced, entries and head kept. */
  function Overwritten(t: Tables, id: string, row: Payload): Tables {
    t.(events := t.events[id := row])
  }

  lemma AcceptedOverwrite(t: Tables, id: string, row: Payload)
    requires ChainAccepted(t) && id in t.events && ChainAccepted(Overwritten(t, id, row))
    ensures if Chained(t, id) then SameNative(t.events[id], row) else SameLegacy(t.events[id], row)
  {
    hide ChainAccepted, SameNative, SameLegacy;
    ProtectedColumns(t, Overwritten(t, id, row));
    if Chained(t, id) {
      var q :| q in t.entries && t.entries[q].eventId == id;
    } else {
      assert id in LegacyIds(t);
    }
  }

  /** Any alteration of a stored row is rejected: of a native row in any column, authorization
      column, receipt text or JSON value, of a legacy row in any column or JSON text. */
  lemma AlterationRejected(t: Tables, id: string, row: Payload)
    requires ChainAccepted(t) && id in t.events
    requires if Chained(t, id) then !SameNative(t.events[id], row) else !SameLegacy(t.events[id], row)
    ensures !ChainAccepted(Overwritten(t, id, row))
  {
    hide ChainAccepted, SameNative, SameLegacy, Chained;
    if ChainAccepted(Overwritten(t, id, row)) { AcceptedOverwrite(t, id, row); }
  }

  const REQUIRED_FIELDS := {EventId, Command, OccurredAt, AssertedActor, PriorState, RequestedState, ResultingState, Outcome, Reason,
                            ApplicationVersion}

  /** The receipt repeats the row: its columns, its authorization columns and its two JSON values. */
  ghost predicate Repeats(receipt: Payload, row: Payload) {
    && (forall c: MirroredColumn :: c != EventId ==> Get(receipt, Mirrored(c)) == Get(row, Mirrored(c)))
    && (forall c: AuthorizationColumn :: Get(receipt, Authorization(c)) == Get(row, Authorization(c)))
    && Get(row, InputIdentifiersJson).Json? && Get(receipt, InputIdentifiers) == Get(row, InputIdentifiersJson).parsed
    && Get(row, FileHashesJson).Json?
    && Get(row, FileHashesJson).parsed == (if FileHashes in receipt then receipt[FileHashes] else Object(map[]))
  }

  /** Authorization evidence is all there or not at all, on the authenticated principal of a
      verified or replayed request, and a denial names no grant. */
  ghost predicate CoherentRow(row: Payload) {
    if Get(row, Authorization(Status)).Null? then
      forall c: AuthorizationColumn :: Get(row, Authorization(c)).Null?
    else
      && !Get(row, Authorization(Principal)).Null? && !Get(row, Authorization(RequiredCapability)).Null?
      && !Get(row, Authorization(ReasonCode)).Null?
      && Get(row, Authorization(Principal)) == Get(row, Mirrored(AuthenticatedPrincipal))
      && (Get(row, Mirrored(AuthenticationStatus)) == Text("verified") || Get(row, Mirrored(AuthenticationStatus)) == Text("replay_rejected"))
      && (Get(row, Authorization(Status)) == Text("denied") ==> Get(row, Authorization(MatchingGrant)).Null?)
  }

  /** The receipt has no field but those a receipt may have. */
  ghost predicate KnownFields(receipt: Payload) {
    forall k: Key :: k in receipt ==>
      k.Mirrored? || k.Authorization? || k.Chain? || k == SchemaVersion || k == InputIdentifiers || k == FileHashes
  }

  /** The receipt has every field a receipt must have, and names the row's place in the chain. */
  ghost predicate Places(receipt: Payload, q: nat, entry: Entry) {
    && (forall c: MirroredColumn :: c in REQUIRED_FIELDS ==> Mirrored(c) in receipt)
    && Get(receipt, Mirrored(EventId)) == Text(entry.eventId)
    && Get(receipt, Chain(Sequence)) == Number(q)
    && Get(receipt, Chain(PreviousHash)) == entry.previous && Get(receipt, Chain(Hash)) == entry.hash
  }

  lemma CanonicalRepeats(row: Payload, q: nat)
    requires CanonicalReceipt(row, q)
    ensures var text := Get(row, ReceiptJson);
      text.Json? && text.layout == 0 && text.parsed.Object? && Repeats(text.parsed.fields, row)
  {
    hide EventDigest, ValidReceipt;
  }

  lemma CanonicalCoherent(row: Payload, q: nat)
    requires CanonicalReceipt(row, q)
    ensures CoherentRow(row) && Get(row, ReceiptJson).Json? && Get(row, ReceiptJson).parsed.Object?
    ensures KnownFields(Get(row, ReceiptJson).parsed.fields)
  {
    hide EventDigest;
  }

  lemma CoherentStored(row: Payload, stored: Payload)
    requires CoherentRow(row) && forall k: Key :: k != Mirrored(EventId) && !k.Chain? ==> Get(row, k) == Get(stored, k)
    ensures CoherentRow(stored)
  {
  }

  lemma CanonicalPlaces(row: Payload, q: nat, entry: Entry)
    requires CanonicalReceipt(row, q)
    requires Get(row, Mirrored(EventId)) == Text(entry.eventId) && Get(row, Chain(Sequence)) == Number(q)
    requires Get(row, Chain(PreviousHash)) == entry.previous && Get(row, Chain(Hash)) == entry.hash
    ensures Places(Get(row, ReceiptJson).parsed.fields, q, entry)
  {
    hide EventDigest, CoherentAuthorization;
  }

  lemma RepeatsStored(receipt: Payload, row: Payload, stored: Payload)
    requires Repeats(receipt, row)
    requires forall k: Key :: k != Mirrored(EventId) && !k.Chain? ==> Get(row, k) == Get(stored, k)
    ensures Repeats(receipt, stored)
  {
  }

  /** What an accepted native row stores: coherent authorization evidence, and the canonical text of
      a receipt with every required field and no unknown one, which repeats the row's columns and
      names its place in the chain. */
  lemma AcceptedReceipt(t: Tables, q: nat)
    requires ChainAccepted(t) && 1 <= q <= |t.entries|
    ensures q in t.entries && t.entries[q].eventId in t.events
    ensures var row := t.events[t.entries[q].eventId]; var text := Get(row, ReceiptJson);
      && text.Json? && text.layout == 0 && text.parsed.Object?
      && Repeats(text.parsed.fields, row) && Places(text.parsed.fields, q, t.entries[q]) && KnownFields(text.parsed.fields)
      && CoherentRow(row)
  {
    hide ChainAccepted, Joined, CanonicalReceipt, Repeats, Places, CoherentRow, KnownFields;
    AcceptedRow(t, q);
    JoinedColumns(t, q);
    var row := Joined(t, q);
    CanonicalRepeats(row, q);
    CanonicalPlaces(row, q, t.entries[q]);
    CanonicalCoherent(row, q);
    RepeatsStored(Get(row, ReceiptJson).parsed.fields, row, t.events[t.entries[q].eventId]);
    CoherentStored(row, t.events[t.entries[q].eventId]);
  }

  // ---------------------------------------------------------------- the writer's tail check

  /** The O(1) check `insert_transition_event` makes before it appends. */
  predicate TailCheck(t: Tables) {
    && t.head.metadata == METADATA
    && (t.head.sequence == 0 ==> GenesisCheck(t))
    && (t.head.sequence > 0 ==> TailMatches(t))
  }

  predicate GenesisCheck(t: Tables) {
    && t.head.eventId == Null && t.head.hash == t.head.activation
    && t.head.legacyCount == |LegacyIds(t)|
    && ActivationDigest(LegacyCorpus(t)) == t.head.activation
  }

  predicate TailMatches(t: Tables) {
    var n := t.head.sequence;
    && n in t.entries && t.entries[n].eventId in t.events
    && t.head.eventId == Text(t.entries[n].eventId) && t.head.hash == t.entries[n].hash
    && CanonicalReceipt(Joined(t, n), n)
    && (n == 1 ==> t.entries[n].previous == t.head.activation)
    && (n != 1 ==> n - 1 in t.entries && t.entries[n].previous == t.entries[n - 1].hash)
  }

  /** The pre-commit receipt of an event, without any chain identity. */
  function BareReceipt(event: Payload): Payload
    requires IsJsonObject(Get(event, ReceiptJson))
  {
    map k | k in ParsedObject(Get(event, ReceiptJson)) && !k.Chain? :: ParsedObject(Get(event, ReceiptJson))[k]
  }

  /** The three JSON columns of the event parse to objects. */
  predicate Encodable(event: Payload) {
    IsJsonObject(Get(event, ReceiptJson)) && Hashable(event)
  }

  /** An event `prepare_chained_event` accepts under its own id. */
  predicate Preparable(id: string, event: Payload) {
    && Get(event, Mirrored(EventId)) == Text(id)
    && Encodable(event)
    && ValidReceipt(BareReceipt(event))
    && Aligned(event, BareReceipt(event))
  }

  function NumberedReceipt(event: Payload, n: nat, previous: Value): Payload
    requires IsJsonObject(Get(event, ReceiptJson))
  {
    BareReceipt(event) + map[
      Chain(Version) := CHAIN_VERSION, Chain(Origin) := CHAIN_ORIGIN,
      Chain(Sequence) := Number(n), Chain(PreviousHash) := previous]
  }

  function PreparedHash(event: Payload, n: nat, previous: Value): Value
    requires Encodable(event)
  {
    EventDigest(event, n, previous, NumberedReceipt(event, n, previous), CHAIN_VERSION, CHAIN_ORIGIN)
  }

  function PreparedReceipt(event: Payload, n: nat, previous: Value): Payload
    requires Encodable(event)
  {
    NumberedReceipt(event, n, previous)[Chain(Hash) := PreparedHash(event, n, previous)]
  }

  function StoredRow(event: Payload, n: nat, previous: Value): Payload
    requires Encodable(event)
  {
    event[ReceiptJson := Json(Object(PreparedReceipt(event, n, previous)), 0)][ReceiptProjectedAt := Null]
  }

  function NewEntry(t: Tables, id: string, event: Payload): Entry
    requires Encodable(event)
  {
    Entry(id, CHAIN_VERSION, CHAIN_ORIGIN, t.head.hash, PreparedHash(event, t.head.sequence + 1, t.head.hash))
  }

  /** The tables after the two inserts and the head update. */
  function Inserted(t: Tables, id: string, event: Payload): Tables
    requires Encodable(event)
  {
    var n, entry := t.head.sequence + 1, NewEntry(t, id, event);
    Tables(
      t.events[id := StoredRow(event, n, t.head.hash)],
      t.entries[n := entry],
      t.head.(sequence := n, eventId := Text(id), hash := entry.hash))
  }

  /** PRIMARY KEY and UNIQUE constraints of the two inserts. */
  predicate ConstraintsHold(t: Tables, id: string, entry: Entry) {
    && id !in t.events
    && t.head.sequence + 1 !in t.entries
    && (forall q :: q in t.entries ==>
          t.entries[q].eventId != id && t.entries[q].previous != entry.previous && t.entries[q].hash != entry.hash)
  }

  /** No two entries are of one event, follow one predecessor, or have one hash. */
  ghost predicate Unforked(t: Tables) {
    forall p, q :: p in t.entries && q in t.entries && p != q ==>
      && t.entries[p].eventId != t.entries[q].eventId
      && t.entries[p].previous != t.entries[q].previous && t.entries[p].hash != t.entries[q].hash
  }

  /** No insert forks the chain or overwrites a row or an entry, accepted store or not: the tables'
      own constraints see to it. */
  lemma InsertsNeverFork(t: Tables, id: string, event: Payload)
    requires Encodable(event) && ConstraintsHold(t, id, NewEntry(t, id, event)) && Unforked(t)
    ensures Unforked(Inserted(t, id, event))
    ensures forall q :: q in t.entries ==> q in Inserted(t, id, event).entries && Inserted(t, id, event).entries[q] == t.entries[q]
    ensures forall other :: other in t.events ==> other in Inserted(t, id, event).events && Inserted(t, id, event).events[other] == t.events[other]
  {
    hide StoredRow, PreparedHash, Encodable;
  }

  /** The row an insert stores: the event's own columns, its receipt with the chain fields added and
      nothing else changed, and not yet projected. */
  lemma InsertedRow(t: Tables, id: string, event: Payload)
    requires Encodable(event)
    ensures var row := Inserted(t, id, event).events[id]; var receipt := Get(row, ReceiptJson);
      && (forall k: Key :: k != ReceiptJson && k != ReceiptProjectedAt ==> Get(row, k) == Get(event, k))
      && Get(row, ReceiptProjectedAt).Null?
      && receipt.Json? && receipt.layout == 0 && receipt.parsed.Object?
      && (forall k: Key :: !k.Chain? ==> Get(receipt.parsed.fields, k) == Get(Get(event, ReceiptJson).parsed.fields, k))
  {
    hide PreparedHash;
  }

  /** Every non-chain field of the prepared receipt is the bare one's; its chain fields are set. */
  lemma PreparedReceiptFields(event: Payload, n: nat, previous: Value)
    requires Encodable(event) && previous != Null
    ensures var bare, receipt := BareReceipt(event), PreparedReceipt(event, n, previous);
      && (forall k: Key :: !k.Chain? ==> (k in receipt <==> k in bare) && Get(receipt, k) == Get(bare, k))
      && Get(receipt, Chain(Version)) == CHAIN_VERSION && Get(receipt, Chain(Origin)) == CHAIN_ORIGIN
      && Get(receipt, Chain(Sequence)) == Number(n) && Get(receipt, Chain(PreviousHash)) == previous
      && Get(receipt, Chain(Hash)) == PreparedHash(event, n, previous)
      && receipt - {Chain(Hash)} == NumberedReceipt(event, n, previous)
  {
    hide PreparedHash, Hashable, IsJsonObject;
    assert PreparedReceipt(event, n, previous) - {Chain(Hash)} == NumberedReceipt(event, n, previous);
  }

  /** Validity and alignment of a receipt do not depend on its chain identity. */
  lemma ChainIdentityIrrelevant(row: Payload, bare: Payload, receipt: Payload)
    requires forall k: Key :: !k.Chain? ==> (k in receipt <==> k in bare) && Get(receipt, k) == Get(bare, k)
    requires ValidReceipt(bare) && (forall c: ChainColumn :: !Get(receipt, Chain(c)).Null?)
    ensures ValidReceipt(receipt)
    ensures Aligned(row, bare) ==> Aligned(row, receipt)
  {
    CoherenceCarriesOver(bare, receipt);
    assert FileHashes in receipt ==> receipt[FileHashes] == Get(bare, FileHashes);
  }

  lemma CoherenceCarriesOver(bare: Payload, receipt: Payload)
    requires forall k: Key :: !k.Chain? ==> Get(receipt, k) == Get(bare, k)
    requires CoherentAuthorization(bare)
    ensures CoherentAuthorization(receipt)
  {
  }

  lemma PreparedReceiptValid(id: string, event: Payload, n: nat, previous: Value)
    requires Preparable(id, event) && previous != Null
    ensures ValidReceipt(PreparedReceipt(event, n, previous)) && Aligned(event, PreparedReceipt(event, n, previous))
  {
    hide ValidReceipt, PreparedReceipt, BareReceipt;
    var bare, receipt := BareReceipt(event), PreparedReceipt(event, n, previous);
    PreparedReceiptFields(event, n, previous);
    forall c: ChainColumn
      ensures !Get(receipt, Chain(c)).Null?
    {
      match c { case Version => case Origin => case Sequence => case PreviousHash => case Hash => }
    }
    ChainIdentityIrrelevant(event, bare, receipt);
  }

  lemma SameMaterial(a: Payload, b: Payload, receipt: Payload)
    requires Hashable(a) && Hashable(b)
    requires forall k: Key :: !k.Chain? && k !in {ReceiptJson, ReceiptProjectedAt}
                              ==> (k in a <==> k in b) && Get(a, k) == Get(b, k)
    ensures NativeMaterial(a, receipt) == NativeMaterial(b, receipt)
  {
    var ia := map k | k in a && IsImmutable(k) :: a[k];
    var ib := map k | k in b && IsImmutable(k) :: b[k];
    forall k | k in ia
      ensures k in ib && ia[k] == ib[k]
    {
      assert Get(a, k) == Get(b, k);
    }
    assert ia.Keys == ib.Keys;
    assert ia == ib;
  }

  lemma AppendedRowColumns(t: Tables, id: string, event: Payload)
    requires Encodable(event) && Get(event, Mirrored(EventId)) == Text(id)
    ensures var row := Joined(Inserted(t, id, event), t.head.sequence + 1);
      && (forall k: Key :: !k.Chain? && k !in {ReceiptJson, ReceiptProjectedAt}
            ==> (k in row <==> k in event) && Get(row, k) == Get(event, k))
      && Get(row, ReceiptJson) == Json(Object(PreparedReceipt(event, t.head.sequence + 1, t.head.hash)), 0)
  {
    hide PreparedReceipt, PreparedHash;
  }

  lemma RowAligned(row: Payload, event: Payload, receipt: Payload)
    requires Aligned(event, receipt)
    requires forall k: Key :: !k.Chain? && k !in {ReceiptJson, ReceiptProjectedAt} ==> Get(row, k) == Get(event, k)
    ensures Aligned(row, receipt) && Hashable(row)
  {
  }

  lemma AppendedEntry(t: Tables, id: string, event: Payload)
    requires Encodable(event)
    ensures var u, n := Inserted(t, id, event), t.head.sequence + 1;
      && n in u.entries && id in u.events
      && u.entries[n] == Entry(id, CHAIN_VERSION, CHAIN_ORIGIN, t.head.hash, PreparedHash(event, n, t.head.hash))
  {
  }

  /** What a stored row must carry to pass the auditor's receipt check. */
  ghost predicate StoredFaithfully(row: Payload, event: Payload, n: nat, previous: Value)
    requires Encodable(event)
  {
    && Get(row, ReceiptJson) == Json(Object(PreparedReceipt(event, n, previous)), 0)
    && Get(row, Chain(Version)) == CHAIN_VERSION && Get(row, Chain(Origin)) == CHAIN_ORIGIN
    && Get(row, Chain(Sequence)) == Number(n) && Get(row, Chain(PreviousHash)) == previous
    && Get(row, Chain(Hash)) == PreparedHash(event, n, previous)
    && (forall k: Key :: !k.Chain? && k !in {ReceiptJson, ReceiptProjectedAt}
          ==> (k in row <==> k in event) && Get(row, k) == Get(event, k))
  }

  lemma CanonicalIntro(row: Payload, event: Payload, n: nat, previous: Value)
    requires Encodable(event) && previous != Null
    requires StoredFaithfully(row, event, n, previous)
    requires ValidReceipt(PreparedReceipt(event, n, previous)) && Aligned(row, PreparedReceipt(event, n, previous))
    requires Hashable(row)
    requires NativeMaterial(row, NumberedReceipt(event, n, previous)) == NativeMaterial(event, NumberedReceipt(event, n, previous))
    ensures CanonicalReceipt(row, n)
  {
    hide NativeMaterial, ValidReceipt, Aligned, NumberedReceipt, PreparedReceipt, BareReceipt, Encodable;
    var receipt := PreparedReceipt(event, n, previous);
    PreparedReceiptFields(event, n, previous);
    forall c: ChainColumn
      ensures Get(receipt, Chain(c)) == Get(row, Chain(c))
    {
      match c { case Version => case Origin => case Sequence => case PreviousHash => case Hash => }
    }
  }

  lemma FaithfulRowCanonical(id: string, row: Payload, event: Payload, n: nat, previous: Value)
    requires Preparable(id, event) && previous != Null && Encodable(event)
    requires StoredFaithfully(row, event, n, previous)
    ensures CanonicalReceipt(row, n)
  {
    hide *;
    FaithfulColumns(row, event, n, previous);
    PreparableIsHashable(id, event);
    PreparedReceiptValid(id, event, n, previous);
    RowAligned(row, event, PreparedReceipt(event, n, previous));
    SameMaterial(row, event, NumberedReceipt(event, n, previous));
    CanonicalIntro(row, event, n, previous);
  }

  lemma FaithfulColumns(row: Payload, event: Payload, n: nat, previous: Value)
    requires Encodable(event) && StoredFaithfully(row, event, n, previous)
    ensures forall k: Key :: !k.Chain? && k !in {ReceiptJson, ReceiptProjectedAt} ==>
              (k in row <==> k in event) && Get(row, k) == Get(event, k)
  {
    hide PreparedReceipt, PreparedHash, Encodable;
  }

  lemma AppendedRowFaithful(t: Tables, id: string, event: Payload)
    requires Encodable(event) && Get(event, Mirrored(EventId)) == Text(id)
    ensures var u, n := Inserted(t, id, event), t.head.sequence + 1;
      && n in u.entries && u.entries[n].eventId in u.events
      && StoredFaithfully(Joined(u, n), event, n, t.head.hash)
  {
    hide PreparedReceipt, PreparedHash, Encodable, Joined, Inserted, NewEntry, StoredRow;
    AppendedEntry(t, id, event);
    AppendedRowColumns(t, id, event);
    JoinedColumns(Inserted(t, id, event), t.head.sequence + 1);
  }

  /** The appended row passes the auditor's receipt check. */
  lemma AppendedRowCanonical(t: Tables, id: string, event: Payload)
    requires Encodable(event) && Preparable(id, event) && t.head.hash != Null
    ensures var u, n := Inserted(t, id, event), t.head.sequence + 1;
      n in u.entries && u.entries[n].eventId in u.events && CanonicalReceipt(Joined(u, n), n)
  {
    hide *;
    PreparableIsHashable(id, event);
    AppendedRowFaithful(t, id, event);
    FaithfulRowCanonical(id, Joined(Inserted(t, id, event), t.head.sequence + 1), event, t.head.sequence + 1, t.head.hash);
  }

  lemma PreparableIsHashable(id: string, event: Payload)
    requires Preparable(id, event)
    ensures Encodable(event) && Hashable(event) && Get(event, Mirrored(EventId)) == Text(id)
    ensures ValidReceipt(BareReceipt(event)) && Aligned(event, BareReceipt(event))
  {
  }

  lemma AppendKeepsLegacy(t: Tables, id: string, event: Payload)
    requires Encodable(event)
    requires ConstraintsHold(t, id, NewEntry(t, id, event))
    ensures LegacyIds(Inserted(t, id, event)) == LegacyIds(t)
    ensures LegacyCorpus(Inserted(t, id, event)) == LegacyCorpus(t)
  {
    hide StoredRow, PreparedHash, LegacyMaterial, Encodable;
    var u, n := Inserted(t, id, event), t.head.sequence + 1;
    forall other
      ensures Chained(u, other) <==> Chained(t, other) || other == id
    {
      if Chained(t, other) {
        var q :| q in t.entries && t.entries[q].eventId == other;
        assert u.entries[q].eventId == other;
      }
      assert u.entries[n].eventId == id;
    }
    assert LegacyIds(u) == LegacyIds(t);
    assert LegacyCorpus(u) == LegacyCorpus(t);
  }

  lemma AppendKeepsRows(t: Tables, id: string, event: Payload)
    requires Encodable(event)
    requires ConstraintsHold(t, id, NewEntry(t, id, event))
    ensures var u := Inserted(t, id, event);
      && (forall q :: q in t.entries ==> q in u.entries && u.entries[q] == t.entries[q])
      && (forall q :: q in t.entries ==> (u.entries[q].eventId in u.events <==> t.entries[q].eventId in t.events))
      && (forall q :: q in t.entries && t.entries[q].eventId in t.events ==> Joined(u, q) == Joined(t, q))
      && u.entries.Keys == t.entries.Keys + {t.head.sequence + 1}
      && |u.entries| == |t.entries| + 1
  {
    hide StoredRow, PreparedHash, Encodable;
    AppendedKeys(t, id, event);
  }

  /** Accepting a store means passing the tail check. */
  lemma AcceptedPassesTailCheck(t: Tables)
    requires ChainAccepted(t)
    ensures TailCheck(t) && t.head.sequence == |t.entries|
  {
    hide CanonicalReceipt, LegacyCorpus, ActivationDigest, Joined;
    var n := |t.entries|;
    if n > 0 {
      AcceptedRow(t, n);
    }
  }

  /** Once the tail check passes and the constraints hold, the appended store is accepted by
      the whole-chain audit exactly when the store before it was. */
  lemma TailCheckRefinesAudit(t: Tables, id: string, event: Payload)
    requires TailCheck(t) && Preparable(id, event)
    requires ConstraintsHold(t, id, NewEntry(t, id, event))
    ensures ChainAccepted(Inserted(t, id, event)) <==> ChainAccepted(t)
  {
    PreparableIsHashable(id, event);
    if ChainAccepted(t) {
      AppendForward(t, id, event);
    }
    if ChainAccepted(Inserted(t, id, event)) {
      AppendBackward(t, id, event);
    }
  }

  ghost predicate GoodRow(t: Tables, q: nat) {
    && q in t.entries && t.entries[q].eventId in t.events
    && CanonicalReceipt(Joined(t, q), q)
    && (q == 1 ==> t.entries[q].previous == t.head.activation)
    && (q != 1 ==> q - 1 in t.entries && t.entries[q].previous == t.entries[q - 1].hash)
  }

  ghost predicate GoodHead(t: Tables) {
    var n := |t.entries|;
    && t.head.sequence == n
    && (n == 0 ==> t.head.eventId == Null && t.head.hash == t.head.activation)
    && (n > 0 ==> n in t.entries && t.head.eventId == Text(t.entries[n].eventId) && t.head.hash == t.entries[n].hash)
  }

  /** The audit, taken apart and put together. */
  lemma AuditParts(t: Tables)
    ensures ChainAccepted(t) <==>
      && CheckpointMatches(t) && Contiguous(t) && GoodHead(t)
      && (forall q :: 1 <= q <= |t.entries| ==> GoodRow(t, q))
  {
    hide CanonicalReceipt, LegacyCorpus, LegacyIds, ActivationDigest, Joined;
    if ChainAccepted(t) {
      forall q | 1 <= q <= |t.entries|
        ensures GoodRow(t, q)
      {
        AcceptedRow(t, q);
      }
    }
    if CheckpointMatches(t) && Contiguous(t) && GoodHead(t) && forall q :: 1 <= q <= |t.entries| ==> GoodRow(t, q) {
      forall q | q in t.entries
        ensures t.entries[q].eventId in t.events
      {
        assert GoodRow(t, q);
      }
      forall q | q in t.entries
        ensures Linked(t, q)
      {
        assert GoodRow(t, q);
      }
    }
  }

  lemma RowsCarryOver(t: Tables, id: string, event: Payload, q: nat)
    requires Encodable(event) && ConstraintsHold(t, id, NewEntry(t, id, event))
    requires q in t.entries && q - 1 != t.head.sequence + 1
    ensures GoodRow(Inserted(t, id, event), q) <==> GoodRow(t, q)
  {
    hide *;
    AppendKeepsRows(t, id, event);
    ActivationKept(t, id, event);
    SameRow(t, Inserted(t, id, event), q);
  }

  lemma ActivationKept(t: Tables, id: string, event: Payload)
    requires Encodable(event)
    ensures Inserted(t, id, event).head.activation == t.head.activation
  {
    hide StoredRow, PreparedHash, Encodable, NewEntry;
  }

  lemma SameRow(t: Tables, u: Tables, q: nat)
    requires q in t.entries && u.head.activation == t.head.activation
    requires forall p :: p in t.entries ==> p in u.entries && u.entries[p] == t.entries[p]
    requires q - 1 in u.entries ==> q - 1 in t.entries
    requires u.entries[q].eventId in u.events <==> t.entries[q].eventId in t.events
    requires t.entries[q].eventId in t.events ==> Joined(u, q) == Joined(t, q)
    ensures GoodRow(u, q) <==> GoodRow(t, q)
  {
    hide CanonicalReceipt, Joined;
  }

  lemma CheckpointCarriesOver(t: Tables, id: string, event: Payload)
    requires Encodable(event) && ConstraintsHold(t, id, NewEntry(t, id, event))
    ensures CheckpointMatches(Inserted(t, id, event)) <==> CheckpointMatches(t)
  {
    AppendKeepsLegacy(t, id, event);
    hide StoredRow, PreparedHash, LegacyCorpus, LegacyIds, ActivationDigest;
  }

  lemma HeadHashSet(t: Tables)
    requires TailCheck(t)
    ensures t.head.hash != Null
  {
    hide LegacyCorpus, LegacyIds, ValidReceipt, Aligned, NativeMaterial;
    if t.head.sequence > 0 {
      JoinedColumns(t, t.head.sequence);
    }
  }

  lemma TailFacts(t: Tables)
    requires TailCheck(t)
    ensures t.head.sequence == 0 ==> t.head.hash == t.head.activation
    ensures t.head.sequence > 0 ==> t.head.sequence in t.entries && t.head.hash == t.entries[t.head.sequence].hash
  {
    hide CanonicalReceipt, Joined, LegacyCorpus, LegacyIds, ActivationDigest;
  }

  lemma NewRowLinks(t: Tables, id: string, event: Payload)
    requires TailCheck(t) && Encodable(event)
    requires var u, n := Inserted(t, id, event), t.head.sequence + 1;
      n in u.entries && u.entries[n].eventId in u.events && CanonicalReceipt(Joined(u, n), n)
    ensures GoodRow(Inserted(t, id, event), t.head.sequence + 1)
  {
    hide CanonicalReceipt, Joined, NewEntry, StoredRow, PreparedHash, Encodable, TailCheck;
    AppendedEntry(t, id, event);
    TailFacts(t);
  }

  lemma NewRowGood(t: Tables, id: string, event: Payload)
    requires TailCheck(t) && Preparable(id, event)
    ensures Encodable(event) && GoodRow(Inserted(t, id, event), t.head.sequence + 1)
  {
    hide *;
    PreparableIsHashable(id, event);
    HeadHashSet(t);
    AppendedRowCanonical(t, id, event);
    NewRowLinks(t, id, event);
  }

  lemma AppendForward(t: Tables, id: string, event: Payload)
    requires ChainAccepted(t) && Preparable(id, event)
    requires Encodable(event) && ConstraintsHold(t, id, NewEntry(t, id, event))
    ensures ChainAccepted(Inserted(t, id, event))
  {
    hide *;
    var u, n := Inserted(t, id, event), |t.entries|;
    AuditParts(t);
    AuditParts(u);
    AcceptedPassesTailCheck(t);
    HeadIsTail(t);
    CheckpointCarriesOver(t, id, event);
    NewRowGood(t, id, event);
    AppendedHead(t, id, event);
    forall q | 1 <= q <= n
      ensures GoodRow(u, q)
    {
      RowsCarryOver(t, id, event, q);
    }
  }

  lemma AppendedKeys(t: Tables, id: string, event: Payload)
    requires Encodable(event) && t.head.sequence + 1 !in t.entries
    ensures Inserted(t, id, event).entries.Keys == t.entries.Keys + {t.head.sequence + 1}
    ensures |Inserted(t, id, event).entries| == |t.entries| + 1
  {
    hide StoredRow, PreparedHash, Encodable, NewEntry;
    var keys := Inserted(t, id, event).entries.Keys;
    assert keys == t.entries.Keys + {t.head.sequence + 1};
    assert |keys| == |t.entries.Keys| + 1;
  }

  lemma ContiguousNext(t: Tables, u: Tables)
    requires Contiguous(t) && u.entries.Keys == t.entries.Keys + {|t.entries| + 1} && |u.entries| == |t.entries| + 1
    ensures Contiguous(u)
  {
    assert forall q :: q in u.entries <==> q in u.entries.Keys;
    assert forall q :: q in t.entries <==> q in t.entries.Keys;
  }

  lemma NewHead(t: Tables, id: string, event: Payload)
    requires Encodable(event) && |Inserted(t, id, event).entries| == t.head.sequence + 1
    ensures GoodHead(Inserted(t, id, event))
  {
    hide StoredRow, PreparedHash, Encodable;
  }

  lemma AppendedHead(t: Tables, id: string, event: Payload)
    requires Encodable(event) && Contiguous(t) && t.head.sequence == |t.entries| && t.head.sequence + 1 !in t.entries
    ensures GoodHead(Inserted(t, id, event)) && Contiguous(Inserted(t, id, event))
    ensures |Inserted(t, id, event).entries| == |t.entries| + 1
  {
    hide *;
    AppendedKeys(t, id, event);
    ContiguousNext(t, Inserted(t, id, event));
    NewHead(t, id, event);
  }

  lemma AppendBackward(t: Tables, id: string, event: Payload)
    requires TailCheck(t) && Preparable(id, event)
    requires Encodable(event) && ConstraintsHold(t, id, NewEntry(t, id, event))
    requires ChainAccepted(Inserted(t, id, event))
    ensures ChainAccepted(t)
  {
    hide ChainAccepted, GoodRow, CheckpointMatches, TailCheck, StoredRow, PreparedHash, Preparable, Encodable, GoodHead, ConstraintsHold;
    var u, n := Inserted(t, id, event), |t.entries|;
    TailCheckHead(t);
    AuditParts(t);
    AuditParts(u);
    GoodHeadSequence(u);
    CheckpointCarriesOver(t, id, event);
    AppendKeepsRows(t, id, event);
    assert t.head.sequence == n;
    forall q | 1 <= q <= n
      ensures GoodRow(t, q)
    {
      assert q in u.entries;
      RowsCarryOver(t, id, event, q);
    }
  }

  lemma GoodHeadSequence(t: Tables)
    requires GoodHead(t)
    ensures t.head.sequence == |t.entries|
  {
  }

  lemma TailCheckHead(t: Tables)
    requires TailCheck(t)
    ensures t.head.sequence == |t.entries| ==> GoodHead(t)
  {
    hide CanonicalReceipt, Joined, LegacyCorpus, LegacyIds, ActivationDigest;
  }

  /** No append to an accepted store can fail: the tail check passes, the PRIMARY KEY and
      UNIQUE constraints cannot fire for a fresh id, and the full audit accepts the result. */
  lemma AcceptedStoreAppends(t: Tables, id: string, event: Payload)
    requires ChainAccepted(t) && Preparable(id, event) && id !in t.events
    ensures TailCheck(t) && Encodable(event) && ConstraintsHold(t, id, NewEntry(t, id, event))
    ensures ChainAccepted(Inserted(t, id, event))
  {
    hide *;
    PreparableIsHashable(id, event);
    AcceptedPassesTailCheck(t);
    HeadIsTail(t);
    var entry := NewEntry(t, id, event);
    forall q | q in t.entries
      ensures t.entries[q].eventId != id && t.entries[q].previous != entry.previous && t.entries[q].hash != entry.hash
    {
      FreshHashes(t, id, event, q);
    }
    ConstraintsIntro(t, id, entry);
    AppendForward(t, id, event);
  }

  lemma ConstraintsIntro(t: Tables, id: string, entry: Entry)
    requires id !in t.events && t.head.sequence + 1 !in t.entries
    requires forall q :: q in t.entries ==>
      t.entries[q].eventId != id && t.entries[q].previous != entry.previous && t.entries[q].hash != entry.hash
    ensures ConstraintsHold(t, id, entry)
  {
  }

  lemma FreshHashes(t: Tables, id: string, event: Payload, q: nat)
    requires ChainAccepted(t) && Encodable(event) && id !in t.events && q in t.entries
    ensures var entry := NewEntry(t, id, event);
      t.entries[q].eventId != id && t.entries[q].previous != entry.previous && t.entries[q].hash != entry.hash
  {
    hide *;
    HeadIsTail(t);
    AcceptedPassesTailCheck(t);
    AcceptedRow(t, q);
    NewHashSequence(t, id, event);
    var n, entry := |t.entries|, NewEntry(t, id, event);
    SequenceInHash(t, q);
    DistinctSequences(t.entries[q].hash, q, entry.hash, n + 1);
    if q == 1 {
      GenesisIsNoEvent(t, LegacyCorpus(t), n);
    } else {
      SequenceInHash(t, q - 1);
      SequenceInHash(t, n);
      DistinctSequences(t.entries[q - 1].hash, q - 1, t.entries[n].hash, n);
    }
  }

  predicate CarriesSequence(hash: Value, q: nat) {
    && hash.Digest? && hash.of.Object? && Chain(Sequence) in hash.of.fields
    && hash.of.fields[Chain(Sequence)] == Number(q)
  }

  lemma NewHashSequence(t: Tables, id: string, event: Payload)
    requires Encodable(event)
    ensures var entry := NewEntry(t, id, event);
      CarriesSequence(entry.hash, t.head.sequence + 1) && entry.previous == t.head.hash && entry.eventId == id
  {
    hide NativeMaterial, NumberedReceipt, Encodable;
  }

  lemma DistinctSequences(a: Value, p: nat, b: Value, q: nat)
    requires CarriesSequence(a, p) && CarriesSequence(b, q) && p != q
    ensures a != b
  {
  }

  lemma CanonicalHashSequence(row: Payload, q: nat)
    requires CanonicalReceipt(row, q)
    ensures CarriesSequence(Get(row, Chain(Hash)), q)
  {
    hide ValidReceipt, Aligned, NativeMaterial;
  }

  /** An accepted entry's hash carries its own sequence number. */
  lemma SequenceInHash(t: Tables, q: nat)
    requires ChainAccepted(t) && 1 <= q <= |t.entries| && q in t.entries
    ensures CarriesSequence(t.entries[q].hash, q)
  {
    hide *;
    AcceptedRow(t, q);
    JoinedColumns(t, q);
    CanonicalHashSequence(Joined(t, q), q);
  }
}
