/** The database's side of the chain: the appending transaction step, the audit's loops, and
    whole runs of appends (database.py, integrity.py, receipts.py). */
module EventLog {
  import opened Canonical
  import opened EventChain
  import Ranges

  // ---------------------------------------------------------------- rows built from receipts

  /** `transition_event_from_receipt`: the event row of a receipt that has no chain identity. */
  function EventFromReceipt(receipt: Payload, targetType: Value, targetId: Value, governedHash: Value): Payload
    requires ValidReceipt(receipt)
  {
    var identifiers := receipt[InputIdentifiers];
    var hashes := if FileHashes in receipt then receipt[FileHashes] else Object(map[]);
    (map k | k in receipt && (k.Mirrored? || k.Authorization?) :: receipt[k])
    + map[
      Target(TargetType) := targetType, Target(TargetId) := targetId, Target(GovernedHash) := governedHash,
      Target(CandidateId) := Get(identifiers.fields, Named("candidate_id")),
      Target(PacketId) := Get(identifiers.fields, Named("packet_id")),
      InputIdentifiersJson := Json(identifiers, 0), FileHashesJson := Json(hashes, 0),
      ReceiptJson := Json(Object(receipt), 0)]
  }

  /** Every row the application builds from a fresh receipt can be prepared for the chain. */
  lemma ReceiptRowsArePreparable(id: string, receipt: Payload, targetType: Value, targetId: Value, governedHash: Value)
    requires ValidReceipt(receipt) && (forall k :: k in receipt ==> !k.Chain?)
    requires Get(receipt, Mirrored(EventId)) == Text(id)
    ensures Preparable(id, EventFromReceipt(receipt, targetType, targetId, governedHash))
  {
    hide ValidReceipt, EventFromReceipt;
    var event := EventFromReceipt(receipt, targetType, targetId, governedHash);
    ReceiptHasObjects(receipt);
    RowColumns(receipt, targetType, targetId, governedHash);
    BareOfStored(event, receipt);
  }

  lemma RowColumns(receipt: Payload, targetType: Value, targetId: Value, governedHash: Value)
    requires ValidReceipt(receipt) && InputIdentifiers in receipt && receipt[InputIdentifiers].Object?
    ensures var event := EventFromReceipt(receipt, targetType, targetId, governedHash);
      && (forall c: MirroredColumn :: Get(event, Mirrored(c)) == Get(receipt, Mirrored(c)))
      && (forall c: AuthorizationColumn :: Get(event, Authorization(c)) == Get(receipt, Authorization(c)))
      && Get(event, InputIdentifiersJson) == Json(receipt[InputIdentifiers], 0)
      && Get(event, FileHashesJson) == Json(if FileHashes in receipt then receipt[FileHashes] else Object(map[]), 0)
      && Get(event, ReceiptJson) == Json(Object(receipt), 0)
  {
    hide ValidReceipt, EventFromReceipt;
    RowJson(receipt, targetType, targetId, governedHash);
    forall c: MirroredColumn
      ensures Get(EventFromReceipt(receipt, targetType, targetId, governedHash), Mirrored(c)) == Get(receipt, Mirrored(c))
    {
      RowColumn(receipt, targetType, targetId, governedHash, Mirrored(c));
    }
    forall c: AuthorizationColumn
      ensures Get(EventFromReceipt(receipt, targetType, targetId, governedHash), Authorization(c)) == Get(receipt, Authorization(c))
    {
      RowColumn(receipt, targetType, targetId, governedHash, Authorization(c));
    }
  }

  lemma RowJson(receipt: Payload, targetType: Value, targetId: Value, governedHash: Value)
    requires ValidReceipt(receipt) && InputIdentifiers in receipt && receipt[InputIdentifiers].Object?
    ensures var event := EventFromReceipt(receipt, targetType, targetId, governedHash);
      && Get(event, InputIdentifiersJson) == Json(receipt[InputIdentifiers], 0)
      && Get(event, FileHashesJson) == Json(if FileHashes in receipt then receipt[FileHashes] else Object(map[]), 0)
      && Get(event, ReceiptJson) == Json(Object(receipt), 0)
  {
    hide ValidReceipt;
  }

  lemma RowColumn(receipt: Payload, targetType: Value, targetId: Value, governedHash: Value, k: Key)
    requires ValidReceipt(receipt) && InputIdentifiers in receipt && receipt[InputIdentifiers].Object? && (k.Mirrored? || k.Authorization?)
    ensures Get(EventFromReceipt(receipt, targetType, targetId, governedHash), k) == Get(receipt, k)
  {
    hide ValidReceipt;
  }

  /** The target columns of a receipt's row: what the caller names, and the candidate and packet
      among the receipt's identifiers. */
  lemma RowTargets(receipt: Payload, targetType: Value, targetId: Value, governedHash: Value)
    requires ValidReceipt(receipt)
    ensures InputIdentifiers in receipt && receipt[InputIdentifiers].Object?
    ensures var event := EventFromReceipt(receipt, targetType, targetId, governedHash); var named := receipt[InputIdentifiers].fields;
      && Get(event, Target(TargetType)) == targetType && Get(event, Target(TargetId)) == targetId
      && Get(event, Target(GovernedHash)) == governedHash
      && Get(event, Target(CandidateId)) == Get(named, Named("candidate_id"))
      && Get(event, Target(PacketId)) == Get(named, Named("packet_id"))
  {
    ReceiptHasObjects(receipt);
    hide ValidReceipt;
    NamesDiffer();
  }

  lemma NamesDiffer()
    ensures "candidate_id" != "packet_id"
  {
    assert |"candidate_id"| != |"packet_id"|;
  }

  lemma ReceiptHasObjects(receipt: Payload)
    requires ValidReceipt(receipt)
    ensures InputIdentifiers in receipt && receipt[InputIdentifiers].Object?
    ensures FileHashes in receipt ==> receipt[FileHashes].Object?
  {
  }

  lemma BareOfStored(event: Payload, receipt: Payload)
    requires Get(event, ReceiptJson) == Json(Object(receipt), 0) && forall k :: k in receipt ==> !k.Chain?
    ensures BareReceipt(event) == receipt
  {
    assert BareReceipt(event).Keys == receipt.Keys;
  }

  // ---------------------------------------------------------------- activation and runs

  /** The chain as `_migrate_schema` activates it over unchained history. */
  function Activated(events: map<string, Payload>): Tables {
    var digest := ActivationDigest(map id | id in events :: LegacyMaterial(id, events[id]));
    Tables(events, map[], Head(METADATA, |events|, digest, 0, Null, digest))
  }

  lemma ActivationAccepted(events: map<string, Payload>)
    ensures ChainAccepted(Activated(events))
  {
    hide LegacyMaterial, ActivationDigest;
    var t := Activated(events);
    assert LegacyIds(t) == events.Keys;
    assert LegacyCorpus(t) == map id | id in events :: LegacyMaterial(id, events[id]);
  }

  datatype Append = Append(id: string, event: Payload)

  /** Appends with pairwise distinct ids, none of them in use. */
  ghost predicate FreshAppends(t: Tables, appends: seq<Append>) {
    && (forall i :: 0 <= i < |appends| ==> Preparable(appends[i].id, appends[i].event) && appends[i].id !in t.events)
    && (forall i, j :: 0 <= i < j < |appends| ==> appends[i].id != appends[j].id)
  }

  ghost function Appended(t: Tables, appends: seq<Append>): Tables
    requires forall i :: 0 <= i < |appends| ==> Encodable(appends[i].event)
    decreases |appends|
  {
    if appends == [] then t
    else Appended(Inserted(t, appends[0].id, appends[0].event), appends[1..])
  }

  lemma PreparableAppends(t: Tables, appends: seq<Append>)
    requires FreshAppends(t, appends)
    ensures forall i :: 0 <= i < |appends| ==> Encodable(appends[i].event)
  {
  }

  /** A run of appends from an accepted store never fails and leaves an accepted store in
      which the i-th append holds exactly the i-th next sequence number. */
  lemma {:induction false} RunOfAppendsAccepted(t: Tables, appends: seq<Append>)
    requires ChainAccepted(t) && FreshAppends(t, appends)
    ensures forall i :: 0 <= i < |appends| ==> Encodable(appends[i].event)
    ensures ChainAccepted(Appended(t, appends))
    ensures RunExtends(t, appends, Appended(t, appends))
    decreases |appends|
  {
    hide *;
    PreparableAppends(t, appends);
    if appends == [] {
      AppendedStep(t, appends);
      RunExtendsNothing(t);
    } else {
      var a := appends[0];
      FirstIsFresh(t, appends);
      AcceptedStoreAppends(t, a.id, a.event);
      var next := Inserted(t, a.id, a.event);
      RestIsFresh(t, appends);
      RunOfAppendsAccepted(next, appends[1..]);
      AppendedStep(t, appends);
      AcceptedPassesTailCheck(t);
      AppendKeepsRows(t, a.id, a.event);
      AppendedEntry(t, a.id, a.event);
      RunExtendsStep(t, appends, next, Appended(t, appends));
    }
  }

  /** The tables u hold t's entries and then the appends, in order, at the next sequences. */
  ghost predicate RunExtends(t: Tables, appends: seq<Append>, u: Tables) {
    && |u.entries| == |t.entries| + |appends|
    && (forall q :: q in t.entries ==> q in u.entries && u.entries[q] == t.entries[q])
    && (forall i :: 0 <= i < |appends| ==> EntryAt(u, |t.entries| + 1 + i, appends[i].id))
  }

  predicate EntryAt(t: Tables, q: nat, id: string) {
    q in t.entries && t.entries[q].eventId == id
  }

  lemma RunExtendsNothing(t: Tables)
    ensures RunExtends(t, [], t)
  {
  }

  lemma RunExtendsStep(t: Tables, appends: seq<Append>, next: Tables, u: Tables)
    requires appends != [] && RunExtends(next, appends[1..], u)
    requires |next.entries| == |t.entries| + 1
    requires forall q :: q in t.entries ==> q in next.entries && next.entries[q] == t.entries[q]
    requires |t.entries| + 1 in next.entries && next.entries[|t.entries| + 1].eventId == appends[0].id
    ensures RunExtends(t, appends, u)
  {
    var n := |t.entries|;
    assert n + 1 in u.entries && u.entries[n + 1].eventId == appends[0].id;
    forall i | 0 <= i < |appends|
      ensures EntryAt(u, n + 1 + i, appends[i].id)
    {
      if i > 0 {
        var j := i - 1;
        assert appends[i] == appends[1..][j];
        assert EntryAt(u, n + 2 + j, appends[1..][j].id);
      }
    }
  }

  lemma AppendedStep(t: Tables, appends: seq<Append>)
    requires forall i :: 0 <= i < |appends| ==> Encodable(appends[i].event)
    ensures appends == [] ==> Appended(t, appends) == t
    ensures appends != [] ==>
      Appended(t, appends) == Appended(Inserted(t, appends[0].id, appends[0].event), appends[1..])
  {
    hide Inserted, Encodable;
  }

  lemma FirstIsFresh(t: Tables, appends: seq<Append>)
    requires FreshAppends(t, appends) && appends != []
    ensures Preparable(appends[0].id, appends[0].event) && appends[0].id !in t.events
  {
    hide Preparable;
  }

  lemma RestIsFresh(t: Tables, appends: seq<Append>)
    requires FreshAppends(t, appends) && appends != [] && Encodable(appends[0].event)
    ensures FreshAppends(Inserted(t, appends[0].id, appends[0].event), appends[1..])
  {
    hide Preparable, Inserted, Encodable;
    InsertedEvents(t, appends[0].id, appends[0].event);
  }

  lemma InsertedEvents(t: Tables, id: string, event: Payload)
    requires Encodable(event)
    ensures Inserted(t, id, event).events.Keys == t.events.Keys + {id}
  {
  }

  // ---------------------------------------------------------------- the database object

  datatype Failure =
    | OrphanChainEntry(sequence: nat)
    | ActivationCheckpointMismatch
    | InvalidEventSequence(sequence: nat)
    | SequenceDiscontinuity(sequence: nat)
    | PredecessorMismatch(sequence: nat)
    | EventHashMismatch(sequence: nat)
    | ChainHeadMismatch

  /** The native rows in the order the audit visits them. */
  ghost predicate NativeOrder(t: Tables, native: seq<nat>) {
    && (forall j, k :: 0 <= j < k < |native| ==> native[j] < native[k])
    && (forall q :: q in native <==> q in t.entries && t.entries[q].eventId in t.events && q >= 1)
  }

  /** What one turn of the auditor's loop checks at the i-th row. */
  ghost predicate StepGood(t: Tables, native: seq<nat>, i: nat)
    requires NativeOrder(t, native) && i < |native|
  {
    var q := native[i];
    assert q in native && (i > 0 ==> native[i - 1] in native);
    && q == (if i == 0 then 1 else native[i - 1] + 1)
    && t.entries[q].previous == (if i == 0 then ActivationDigest(LegacyCorpus(t)) else t.entries[native[i - 1]].hash)
    && CanonicalReceipt(Joined(t, q), q)
  }

  ghost predicate TailIsHead(t: Tables, native: seq<nat>)
    requires NativeOrder(t, native)
  {
    if native == [] then
      t.head.sequence == 0 && t.head.eventId == Null && t.head.hash == ActivationDigest(LegacyCorpus(t))
    else
      var q := native[|native| - 1];
      assert q in native;
      t.head.sequence == q && t.head.eventId == Text(t.entries[q].eventId) && t.head.hash == t.entries[q].hash
  }

  /** Everything the audit checks, in the terms in which its loops check it. */
  ghost predicate NothingFails(t: Tables, native: seq<nat>)
    requires NativeOrder(t, native)
  {
    && NoOrphans(t) && CheckpointMatches(t) && (forall q :: q in t.entries ==> q >= 1)
    && (forall i :: 0 <= i < |native| ==> StepGood(t, native, i))
    && TailIsHead(t, native)
  }

  lemma NativeOfAccepted(t: Tables, native: seq<nat>)
    requires ChainAccepted(t) && NativeOrder(t, native)
    ensures |native| == |t.entries| && forall i :: 0 <= i < |native| ==> native[i] == i + 1
  {
    hide CanonicalReceipt, Joined, LegacyCorpus, LegacyIds, ActivationDigest, CheckpointMatches;
    HeadIsTail(t);
    var n := |t.entries|;
    forall q
      ensures q in native <==> 1 <= q <= n
    {
      if 1 <= q <= n { AcceptedRow(t, q); }
    }
    Ranges.SortedRange(native, n, |native|);
    assert |native| < n ==> |native| + 1 in native;
    assert |native| > 0 ==> native[|native| - 1] in native;
  }

  lemma AcceptedStep(t: Tables, native: seq<nat>, i: nat)
    requires ChainAccepted(t) && NativeOrder(t, native) && i < |native|
    ensures StepGood(t, native, i)
  {
    hide CanonicalReceipt, Joined, LegacyCorpus, LegacyIds, ActivationDigest, ChainAccepted, NativeOrder;
    NativeOfAccepted(t, native);
    AcceptedRow(t, i + 1);
  }

  lemma AcceptedTail(t: Tables, native: seq<nat>)
    requires ChainAccepted(t) && NativeOrder(t, native)
    ensures TailIsHead(t, native)
  {
    hide CanonicalReceipt, Joined, LegacyCorpus, LegacyIds, ActivationDigest, ChainAccepted, NativeOrder;
    NativeOfAccepted(t, native);
    AcceptedHead(t);
  }

  lemma AcceptedHead(t: Tables)
    requires ChainAccepted(t)
    ensures t.head.sequence == |t.entries|
    ensures |t.entries| == 0 ==> t.head.eventId == Null && t.head.hash == ActivationDigest(LegacyCorpus(t))
    ensures |t.entries| > 0 ==>
      && |t.entries| in t.entries
      && t.head.eventId == Text(t.entries[|t.entries|].eventId) && t.head.hash == t.entries[|t.entries|].hash
  {
    hide CanonicalReceipt, Joined, LegacyCorpus, LegacyIds, ActivationDigest;
  }

  lemma AcceptedMeansNothingFails(t: Tables, native: seq<nat>)
    requires ChainAccepted(t) && NativeOrder(t, native)
    ensures NothingFails(t, native)
  {
    hide CanonicalReceipt, Joined, LegacyCorpus, LegacyIds, ActivationDigest, StepGood, TailIsHead;
    HeadIsTail(t);
    forall i | 0 <= i < |native|
      ensures StepGood(t, native, i)
    {
      AcceptedStep(t, native, i);
    }
    AcceptedTail(t, native);
  }

  lemma {:induction false} StepsCount(t: Tables, native: seq<nat>, i: nat)
    requires NativeOrder(t, native) && i <= |native|
    requires forall j :: 0 <= j < |native| ==> StepGood(t, native, j)
    ensures forall j :: 0 <= j < i ==> native[j] == j + 1
  {
    hide CanonicalReceipt, Joined, LegacyCorpus, ActivationDigest, NativeOrder;
    if i > 0 {
      StepsCount(t, native, i - 1);
      assert StepGood(t, native, i - 1);
    }
  }

  lemma NothingFailsMeansAccepted(t: Tables, native: seq<nat>)
    requires NativeOrder(t, native) && NothingFails(t, native)
    ensures ChainAccepted(t)
  {
    hide CanonicalReceipt, Joined, LegacyCorpus, LegacyIds, ActivationDigest, ChainAccepted, StepGood, GoodRow, NativeOrder, GoodHead,
         TailIsHead, Contiguous;
    StepsCount(t, native, |native|);
    StepsCover(t, native);
    forall q | 1 <= q <= |t.entries| ensures GoodRow(t, q) { StepIsRow(t, native, q); }
    CoveredHead(t, native);
    AuditParts(t);
  }

  lemma StepsCover(t: Tables, native: seq<nat>)
    requires NativeOrder(t, native) && NoOrphans(t) && (forall q :: q in t.entries ==> q >= 1)
    requires forall j :: 0 <= j < |native| ==> native[j] == j + 1
    ensures |t.entries| == |native| && Contiguous(t)
  {
    forall q
      ensures q in t.entries <==> 1 <= q <= |native|
    {
      if 1 <= q <= |native| { assert native[q - 1] in native; }
    }
    Ranges.RangeCardinality(t.entries.Keys, |native|);
  }

  lemma StepIsRow(t: Tables, native: seq<nat>, q: nat)
    requires NativeOrder(t, native) && CheckpointMatches(t) && 1 <= q <= |native|
    requires forall j :: 0 <= j < |native| ==> native[j] == j + 1 && StepGood(t, native, j)
    ensures GoodRow(t, q)
  {
    hide CanonicalReceipt, Joined, LegacyCorpus, LegacyIds, ActivationDigest;
    assert StepGood(t, native, q - 1);
    assert native[q - 1] in native && (q > 1 ==> native[q - 2] in native);
  }

  lemma CoveredHead(t: Tables, native: seq<nat>)
    requires NativeOrder(t, native) && CheckpointMatches(t) && TailIsHead(t, native) && |t.entries| == |native|
    requires forall j :: 0 <= j < |native| ==> native[j] == j + 1
    ensures GoodHead(t)
  {
    hide LegacyCorpus, LegacyIds, ActivationDigest;
    if native != [] { assert native[|native| - 1] in native; }
  }

  class Database {
    var events: map<string, Payload>
    var entries: map<nat, Entry>
    var head: Head

    function State(): Tables
      reads this
    {
      Tables(events, entries, head)
    }

    constructor Activate(history: map<string, Payload>)
      ensures State() == Activated(history)
      ensures ChainAccepted(State())
    {
      var digest := ActivationDigest(map id | id in history :: LegacyMaterial(id, history[id]));
      events, entries := history, map[];
      head := Head(METADATA, |history|, digest, 0, Null, digest);
      new;
      ActivationAccepted(history);
    }

    /** `insert_transition_event` inside its transaction: tail check, preparation, two
        inserts, compare-and-set of the head; any failure rolls everything back. */
    method InsertTransitionEvent(id: string, event: Payload) returns (ok: bool)
      modifies this
      ensures ok <==> old(TailCheck(State()) && Preparable(id, event)
                          && ConstraintsHold(State(), id, NewEntry(State(), id, event)))
      ensures ok ==> Encodable(event) && State() == Inserted(old(State()), id, event)
      ensures !ok ==> State() == old(State())
      ensures ok ==> (ChainAccepted(State()) <==> old(ChainAccepted(State())))
      ensures old(ChainAccepted(State())) && Preparable(id, event) && id !in old(events) ==> ok
    {
      hide ChainAccepted, CanonicalReceipt, ValidReceipt, Aligned, LegacyCorpus, LegacyIds, ActivationDigest;
      var before := State();
      if ChainAccepted(before) && Preparable(id, event) && id !in events {
        AcceptedStoreAppends(before, id, event);
      }
      if !TailCheck(before) || !Preparable(id, event) {
        return false;
      }
      var sequence, previous := head.sequence + 1, head.hash;
      var receipt := PreparedReceipt(event, sequence, previous);
      var entry := Entry(id, CHAIN_VERSION, CHAIN_ORIGIN, previous, PreparedHash(event, sequence, previous));
      assert entry == NewEntry(before, id, event);
      if id in events {
        return false;
      }
      events := events[id := event[ReceiptJson := Json(Object(receipt), 0)][ReceiptProjectedAt := Null]];
      if sequence in entries || exists q | q in entries ::
           entries[q].eventId == id || entries[q].previous == entry.previous || entries[q].hash == entry.hash {
        events := before.events;
        return false;
      }
      entries := entries[sequence := entry];
      head := head.(sequence := sequence, eventId := Text(id), hash := entry.hash);
      TailCheckRefinesAudit(before, id, event);
      return true;
    }

    /** The orphan, checkpoint and sequence checks of `verify_integrity`. */
    method VerifyTables(legacy: nat, activation: Value) returns (failures: seq<Failure>)
      requires legacy == |LegacyIds(State())| && activation == ActivationDigest(LegacyCorpus(State()))
      ensures failures == [] <==>
        NoOrphans(State()) && CheckpointMatches(State()) && forall q :: q in entries ==> q >= 1
    {
      hide NoOrphans, LegacyIds, LegacyCorpus, ActivationDigest;
      failures := [];
      var keys := Ranges.Sorted(entries.Keys);
      for i := 0 to |keys|
        invariant failures == [] <==> forall j :: 0 <= j < i ==> keys[j] in entries && entries[keys[j]].eventId in events
      {
        assert keys[i] in keys;
        if entries[keys[i]].eventId !in events {
          failures := failures + [OrphanChainEntry(keys[i])];
        }
      }
      OrphanListing(State(), keys);
      if head.metadata != METADATA || head.legacyCount != legacy || head.activation != activation {
        failures := failures + [ActivationCheckpointMismatch];
      }
      ghost var before := failures == [];
      for i := 0 to |keys|
        invariant failures == [] <==>
          before && forall j :: 0 <= j < i ==> keys[j] >= 1 || keys[j] !in entries || entries[keys[j]].eventId !in events
      {
        assert keys[i] in keys;
        if keys[i] < 1 && entries[keys[i]].eventId in events {
          failures := failures + [InvalidEventSequence(keys[i])];
        }
      }
      OrphanListing(State(), keys);
      NonzeroListing(State(), keys);
    }

    /** The predecessor walk of `verify_integrity` over the native rows in order. */
    method VerifyLinks(native: seq<nat>, activation: Value) returns (failures: seq<Failure>)
      requires NativeOrder(State(), native) && activation == ActivationDigest(LegacyCorpus(State()))
      ensures failures == [] <==> forall i :: 0 <= i < |native| ==> StepGood(State(), native, i)
    {
      hide CanonicalReceipt, Joined, LegacyCorpus, LegacyIds, ActivationDigest;
      var t := State();
      failures := [];
      var expectedPrevious, expectedSequence := activation, 1;
      for i := 0 to |native|
        invariant failures == [] <==> forall j :: 0 <= j < i ==> StepGood(t, native, j)
        invariant i == 0 ==> expectedPrevious == activation && expectedSequence == 1
        invariant i > 0 ==> native[i - 1] in entries && expectedSequence == native[i - 1] + 1
        invariant i > 0 ==> expectedPrevious == entries[native[i - 1]].hash
      {
        var q := native[i];
        assert q in native;
        assert StepGood(t, native, i) <==>
          q == expectedSequence && entries[q].previous == expectedPrevious && CanonicalReceipt(Joined(t, q), q);
        if q != expectedSequence {
          failures := failures + [SequenceDiscontinuity(q)];
        }
        if entries[q].previous != expectedPrevious {
          failures := failures + [PredecessorMismatch(q)];
        }
        if !CanonicalReceipt(Joined(t, q), q) {
          failures := failures + [EventHashMismatch(q)];
        }
        expectedPrevious, expectedSequence := entries[q].hash, q + 1;
      }
    }

    /** The head check of `verify_integrity`. */
    method VerifyHead(native: seq<nat>, activation: Value) returns (failures: seq<Failure>)
      requires NativeOrder(State(), native) && activation == ActivationDigest(LegacyCorpus(State()))
      ensures failures == [] <==> TailIsHead(State(), native)
    {
      hide LegacyCorpus, LegacyIds, ActivationDigest;
      var headSequence, headId, headHash := 0, Null, activation;
      if native != [] {
        var q := native[|native| - 1];
        assert q in native;
        headSequence, headId, headHash := q, Text(entries[q].eventId), entries[q].hash;
      }
      failures := [];
      if head.sequence != headSequence || head.eventId != headId || head.hash != headHash {
        failures := [ChainHeadMismatch];
      }
    }

    /** The chain part of `verify_integrity`: the failures of every loop together. */
    method VerifyChain() returns (failures: seq<Failure>)
      ensures failures == [] <==> ChainAccepted(State())
    {
      hide CheckpointMatches, NoOrphans, LegacyCorpus, LegacyIds, ActivationDigest, ChainAccepted, StepGood, TailIsHead, NativeOrder, NothingFails;
      var t := State();
      var activation := ActivationDigest(LegacyCorpus(t));
      var tables := VerifyTables(|LegacyIds(t)|, activation);
      var native := Ranges.Sorted(set q | q in entries && q >= 1 && entries[q].eventId in events);
      NativeOrderIntro(t, native);
      var links := VerifyLinks(native, activation);
      var tail := VerifyHead(native, activation);
      failures := tables + links + tail;
      VerdictParts(t, native);
      if failures == [] { NothingFailsMeansAccepted(t, native); }
      if ChainAccepted(t) { AcceptedMeansNothingFails(t, native); }
    }
  }

  lemma OrphanListing(t: Tables, keys: seq<nat>)
    requires forall q :: q in t.entries.Keys <==> q in keys
    ensures NoOrphans(t) <==> forall j :: 0 <= j < |keys| ==> keys[j] in t.entries && t.entries[keys[j]].eventId in t.events
  {
    assert forall j :: 0 <= j < |keys| ==> keys[j] in keys;
  }

  lemma NonzeroListing(t: Tables, keys: seq<nat>)
    requires forall q :: q in t.entries.Keys <==> q in keys
    ensures NoOrphans(t) ==>
      ((forall q :: q in t.entries ==> q >= 1)
       <==> forall j :: 0 <= j < |keys| ==> keys[j] >= 1 || keys[j] !in t.entries || t.entries[keys[j]].eventId !in t.events)
  {
    assert forall j :: 0 <= j < |keys| ==> keys[j] in keys;
  }

  lemma NativeOrderIntro(t: Tables, native: seq<nat>)
    requires forall j, k :: 0 <= j < k < |native| ==> native[j] < native[k]
    requires forall q :: q in (set q | q in t.entries && q >= 1 && t.entries[q].eventId in t.events) <==> q in native
    ensures NativeOrder(t, native)
  {
  }

  lemma VerdictParts(t: Tables, native: seq<nat>)
    requires NativeOrder(t, native)
    ensures NothingFails(t, native) <==>
      && NoOrphans(t) && CheckpointMatches(t) && (forall q :: q in t.entries ==> q >= 1)
      && (forall i :: 0 <= i < |native| ==> StepGood(t, native, i))
      && TailIsHead(t, native)
  {
    hide StepGood, TailIsHead, CheckpointMatches;
  }
}
