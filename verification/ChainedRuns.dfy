/** The two layers together: whatever rows the writers encode their events as, the chain
    simulates the ledger's log, event by event, and its hashes tell what the log says. */
module ChainedRuns {
  import opened Canonical
  import opened EventChain
  import opened EventLog
  import opened EventCoding
  import L = Ledger
  import S = System

  /** How the event at a sequence becomes a row under its own id. */
  type Encoder = (nat, L.Event) -> Append

  /** Every row can be prepared, and ids are never reused, nor taken from history. */
  ghost predicate Faithful(encode: Encoder, history: map<string, Payload>) {
    && (forall k: nat, e: L.Event :: Preparable(encode(k, e).id, encode(k, e).event) && encode(k, e).id !in history)
    && (forall j: nat, k: nat, e: L.Event, f: L.Event :: encode(j, e).id == encode(k, f).id ==> j == k)
  }

  /** Two rows, not yet chained, agree on everything the chain will protect. */
  ghost predicate SameProtected(x: Payload, y: Payload) {
    && Encodable(x) && Encodable(y)
    && (forall k: Key :: IsImmutable(k) || k.Authorization? ==> Get(x, k) == Get(y, k))
    && Get(x, InputIdentifiersJson).parsed == Get(y, InputIdentifiersJson).parsed
    && Get(x, FileHashesJson).parsed == Get(y, FileHashesJson).parsed
    && BareReceipt(x) == BareReceipt(y)
  }

  /** Events at one sequence can be told from the protected part of their rows, whether written
      by the one encoder or the other. */
  ghost predicate TellsApart(encode: Encoder, other: Encoder) {
    forall k: nat, e: L.Event, f: L.Event :: SameProtected(encode(k, e).event, other(k, f).event) ==> e == f
  }

  predicate InLog(log: seq<L.Event>, k: nat) {
    1 <= k <= |log|
  }

  function RowFor(encode: Encoder, log: seq<L.Event>, k: nat): Append
    requires InLog(log, k)
  {
    encode(k, log[k - 1])
  }

  /** Entry k names this row, stored as the writer prepares it behind the entry's predecessor. */
  predicate RowAt(t: Tables, k: nat, a: Append) {
    && EntryAt(t, k, a.id) && a.id in t.events && Encodable(a.event)
    && t.events[a.id] == StoredRow(a.event, k, t.entries[k].previous)
  }

  /** The rows of before the chain are as they were, and its checkpoint is over them. */
  predicate HistoryKept(t: Tables, history: map<string, Payload>) {
    && (forall id :: id in history ==> id in t.events && t.events[id] == history[id])
    && t.head.activation == Activated(history).head.activation
  }

  /** The tables are an accepted chain over the history whose row at entry k is event k of the
      log, and they hold nothing else. */
  ghost predicate Mirrors(t: Tables, encode: Encoder, history: map<string, Payload>, log: seq<L.Event>) {
    && ChainAccepted(t) && |t.entries| == |log| && HistoryKept(t, history)
    && (forall k: nat :: InLog(log, k) ==> RowAt(t, k, RowFor(encode, log, k)))
    && (forall id :: id in t.events ==> id in history || exists k: nat :: InLog(log, k) && RowFor(encode, log, k).id == id)
  }

  // ---------------------------------------------------------------- appends are simulated

  lemma FreshRow(t: Tables, encode: Encoder, history: map<string, Payload>, log: seq<L.Event>, e: L.Event)
    requires Faithful(encode, history) && Mirrors(t, encode, history, log)
    ensures var a := encode(|log| + 1, e); Preparable(a.id, a.event) && a.id !in t.events && a.id !in history
  {
    hide Preparable, ChainAccepted, HistoryKept, RowAt;
    var a := encode(|log| + 1, e);
    forall k: nat | InLog(log, k)
      ensures RowFor(encode, log, k).id != a.id
    {
      assert encode(k, log[k - 1]).id == a.id ==> k == |log| + 1;
    }
  }

  /** The row an insert writes, and the events it leaves alone. */
  lemma InsertedRows(t: Tables, a: Append)
    requires Encodable(a.event) && a.id !in t.events
    ensures var u := Inserted(t, a.id, a.event);
      && (forall id :: id in t.events ==> id in u.events && u.events[id] == t.events[id])
      && u.events.Keys == t.events.Keys + {a.id}
      && u.head.activation == t.head.activation
      && RowAt(u, t.head.sequence + 1, a)
  {
    hide StoredRow, PreparedHash, Encodable;
  }

  lemma MirrorGrows(t: Tables, u: Tables, encode: Encoder, history: map<string, Payload>, log: seq<L.Event>, e: L.Event)
    requires Mirrors(t, encode, history, log) && ChainAccepted(u) && |u.entries| == |log| + 1
    requires forall q :: q in t.entries ==> q in u.entries && u.entries[q] == t.entries[q]
    requires forall id :: id in t.events ==> id in u.events && u.events[id] == t.events[id]
    requires u.head.activation == t.head.activation
    requires RowAt(u, |log| + 1, encode(|log| + 1, e))
    requires u.events.Keys == t.events.Keys + {encode(|log| + 1, e).id}
    ensures Mirrors(u, encode, history, log + [e])
  {
    hide ChainAccepted, StoredRow, Encodable, Activated;
    var longer := log + [e];
    assert RowFor(encode, longer, |log| + 1) == encode(|log| + 1, e);
    forall k: nat | InLog(log, k)
      ensures InLog(longer, k) && RowFor(encode, longer, k) == RowFor(encode, log, k)
    {
    }
    forall k: nat | InLog(longer, k)
      ensures RowAt(u, k, RowFor(encode, longer, k))
    {
      if k <= |log| { assert RowAt(t, k, RowFor(encode, log, k)); }
    }
    forall id | id in u.events
      ensures id in history || exists k: nat :: InLog(longer, k) && RowFor(encode, longer, k).id == id
    {
      if id in t.events && id !in history {
        var k: nat :| InLog(log, k) && RowFor(encode, log, k).id == id;
        assert RowFor(encode, longer, k).id == id;
      } else if id !in history {
        assert RowFor(encode, longer, |log| + 1).id == id;
      }
    }
  }

  /** One ledger append is one chain append: the tail check passes, no constraint fires, and the
      result mirrors the longer log. */
  lemma AppendSimulated(t: Tables, encode: Encoder, history: map<string, Payload>, log: seq<L.Event>, e: L.Event)
    requires Faithful(encode, history) && Mirrors(t, encode, history, log)
    ensures var a := encode(|log| + 1, e);
      && TailCheck(t) && Encodable(a.event) && ConstraintsHold(t, a.id, NewEntry(t, a.id, a.event))
      && Mirrors(Inserted(t, a.id, a.event), encode, history, log + [e])
  {
    hide *;
    var a := encode(|log| + 1, e);
    FreshRow(t, encode, history, log, e);
    MirrorParts(t, encode, history, log);
    AcceptedStoreAppends(t, a.id, a.event);
    AcceptedPassesTailCheck(t);
    AppendKeepsRows(t, a.id, a.event);
    InsertedRows(t, a);
    MirrorGrows(t, Inserted(t, a.id, a.event), encode, history, log, e);
  }

  lemma MirrorParts(t: Tables, encode: Encoder, history: map<string, Payload>, log: seq<L.Event>)
    requires Mirrors(t, encode, history, log)
    ensures ChainAccepted(t) && |t.entries| == |log| && HistoryKept(t, history)
  {
  }

  lemma NothingMirrored(encode: Encoder, history: map<string, Payload>)
    ensures Mirrors(Activated(history), encode, history, [])
  {
    hide ChainAccepted, ActivationDigest, LegacyMaterial;
    ActivationAccepted(history);
  }

  lemma {:induction false} LogMirrored(encode: Encoder, history: map<string, Payload>, log: seq<L.Event>) returns (t: Tables)
    requires Faithful(encode, history)
    ensures Mirrors(t, encode, history, log)
    decreases |log|
  {
    hide *;
    if log == [] {
      NothingMirrored(encode, history);
      t := Activated(history);
    } else {
      var n := |log| - 1;
      var before := LogMirrored(encode, history, log[..n]);
      AppendSimulated(before, encode, history, log[..n], log[n]);
      assert log[..n] + [log[n]] == log;
      var a := encode(n + 1, log[n]);
      t := Inserted(before, a.id, a.event);
    }
  }

  /** One unforked chain: the log of any run of any number of writers is an accepted chain whose
      row at entry k is event k, and whatever the run goes on to do appends to that chain. */
  lemma RunsStayChained(encode: Encoder, history: map<string, Payload>, steps: seq<S.Step>, step: S.Step) returns (t: Tables, u: Tables)
    requires Faithful(encode, history)
    ensures var y := S.Run(S.START, steps);
      Mirrors(t, encode, history, y.store.log) && Mirrors(u, encode, history, S.Next(y, step).store.log)
    ensures var y := S.Run(S.START, steps); var log := S.Next(y, step).store.log;
      u == t || (|log| == |y.store.log| + 1
                 && var a := encode(|log|, log[|log| - 1]); Encodable(a.event) && u == Inserted(t, a.id, a.event))
  {
    hide *;
    var y := S.Run(S.START, steps);
    t := LogMirrored(encode, history, y.store.log);
    S.NextAppends(y, step);
    var log := S.Next(y, step).store.log;
    if log == y.store.log {
      u := t;
    } else {
      var e := log[|log| - 1];
      AppendSimulated(t, encode, history, y.store.log, e);
      var a := encode(|log|, e);
      u := Inserted(t, a.id, a.event);
    }
  }

  // ---------------------------------------------------------------- hashes tell the log

  lemma StoredColumns(event: Payload, n: nat, previous: Value)
    requires Encodable(event)
    ensures forall k: Key :: k !in {ReceiptJson, ReceiptProjectedAt} ==> Get(StoredRow(event, n, previous), k) == Get(event, k)
    ensures Get(StoredRow(event, n, previous), ReceiptJson) == Json(Object(PreparedReceipt(event, n, previous)), 0)
  {
    hide PreparedReceipt, Encodable;
  }

  /** A prepared receipt still holds the bare one. */
  lemma BareTold(x: Payload, y: Payload, n: nat, p: Value, q: Value)
    requires Encodable(x) && Encodable(y) && PreparedReceipt(x, n, p) == PreparedReceipt(y, n, q)
    ensures BareReceipt(x) == BareReceipt(y)
  {
    hide PreparedHash, Encodable, Hashable;
    BareWithin(x, n, p);
    BareWithin(y, n, q);
  }

  lemma BareWithin(x: Payload, n: nat, p: Value)
    requires Encodable(x)
    ensures BareReceipt(x) == map k | k in PreparedReceipt(x, n, p) && !k.Chain? :: PreparedReceipt(x, n, p)[k]
  {
    hide PreparedHash, Hashable;
  }

  /** Rows the chain holds for the same are the same where it protects them. */
  lemma RowsTold(t: Tables, u: Tables, k: nat, x: Append, y: Append)
    requires RowAt(t, k, x) && RowAt(u, k, y) && SameEntry(t, u, k)
    requires Preparable(x.id, x.event) && Preparable(y.id, y.event)
    ensures SameProtected(x.event, y.event)
  {
    hide StoredRow, PreparedReceipt, BareReceipt, Joined, ValidReceipt, Aligned;
    JoinedColumns(t, k);
    JoinedColumns(u, k);
    StoredColumns(x.event, k, t.entries[k].previous);
    StoredColumns(y.event, k, u.entries[k].previous);
    BareTold(x.event, y.event, k, t.entries[k].previous, u.entries[k].previous);
  }

  lemma EventTold(t: Tables, u: Tables, encode: Encoder, other: Encoder, history: map<string, Payload>, past: map<string, Payload>,
                  log: seq<L.Event>, that: seq<L.Event>, k: nat)
    requires Faithful(encode, history) && Faithful(other, past) && TellsApart(encode, other)
    requires Mirrors(t, encode, history, log) && Mirrors(u, other, past, that)
    requires InLog(log, k) && InLog(that, k) && SameEntry(t, u, k)
    ensures log[k - 1] == that[k - 1]
  {
    hide ChainAccepted, HistoryKept, RowAt, SameEntry, SameProtected, Preparable;
    assert RowAt(t, k, RowFor(encode, log, k)) && RowAt(u, k, RowFor(other, that, k));
    RowsTold(t, u, k, RowFor(encode, log, k), RowFor(other, that, k));
  }

  /** Equal head hashes, equal ledgers: if the chains of two logs, over whatever histories and
      under whatever ids, end in the same head hash, the logs are the same event for event, and
      so are the chains and the histories as far as they are protected. */
  lemma EqualHeadsEqualLogs(t: Tables, u: Tables, encode: Encoder, other: Encoder, history: map<string, Payload>, past: map<string, Payload>,
                            log: seq<L.Event>, that: seq<L.Event>)
    requires Faithful(encode, history) && Faithful(other, past) && TellsApart(encode, other)
    requires Mirrors(t, encode, history, log) && Mirrors(u, other, past, that)
    requires t.head.hash == u.head.hash
    ensures log == that && t.entries == u.entries && LegacyCorpus(t) == LegacyCorpus(u)
  {
    hide *;
    MirrorParts(t, encode, history, log);
    MirrorParts(u, other, past, that);
    TamperEvidence(t, u);
    forall i: nat | i < |log|
      ensures log[i] == that[i]
    {
      InLogIntro(log, i + 1);
      InLogIntro(that, i + 1);
      HeadIsTail(t);
      EventTold(t, u, encode, other, history, past, log, that, i + 1);
    }
  }

  lemma InLogIntro(log: seq<L.Event>, k: nat)
    requires 1 <= k <= |log|
    ensures InLog(log, k)
  {
  }

  /** An entry's hash is the one its row was prepared with. */
  lemma EntryHash(t: Tables, k: nat, a: Append)
    requires RowAt(t, k, a) && CanonicalReceipt(Joined(t, k), k)
    ensures t.entries[k].hash == PreparedHash(a.event, k, t.entries[k].previous)
  {
    hide PreparedHash, NumberedReceipt, StoredRow, ValidReceipt, Aligned, EventDigest, Joined, Encodable;
    JoinedColumns(t, k);
    StoredColumns(a.event, k, t.entries[k].previous);
  }

  lemma FirstPredecessor(t: Tables, history: map<string, Payload>)
    requires ChainAccepted(t) && HistoryKept(t, history)
    ensures ActivationDigest(LegacyCorpus(t)) == Activated(history).head.activation
  {
    hide Activated, LegacyCorpus, ActivationDigest, NoOrphans, Contiguous, Linked, HeadMatches;
  }

  /** Equal logs up to k, equal hashes at k. */
  lemma {:induction false} EqualPrefixEqualHash(t: Tables, u: Tables, encode: Encoder, history: map<string, Payload>,
                                                log: seq<L.Event>, that: seq<L.Event>, k: nat)
    requires Mirrors(t, encode, history, log) && Mirrors(u, encode, history, that)
    requires InLog(log, k) && InLog(that, k) && log[..k] == that[..k]
    ensures k in t.entries && k in u.entries && t.entries[k].hash == u.entries[k].hash
    decreases k
  {
    hide ChainAccepted, HistoryKept, RowAt, CanonicalReceipt, PreparedHash, Joined, LegacyCorpus, ActivationDigest, Activated;
    MirrorParts(t, encode, history, log);
    MirrorParts(u, encode, history, that);
    AcceptedRow(t, k);
    AcceptedRow(u, k);
    assert log[k - 1] == log[..k][k - 1] == that[..k][k - 1] == that[k - 1];
    var a := RowFor(encode, log, k);
    assert a == RowFor(encode, that, k);
    assert RowAt(t, k, a) && RowAt(u, k, a);
    EntryHash(t, k, a);
    EntryHash(u, k, a);
    if k == 1 {
      FirstPredecessor(t, history);
      FirstPredecessor(u, history);
    } else {
      assert log[..k - 1] == log[..k][..k - 1] == that[..k - 1];
      EqualPrefixEqualHash(t, u, encode, history, log, that, k - 1);
    }
  }

  /** The hash at k tells exactly the first k events. */
  lemma HashTellsPrefix(t: Tables, u: Tables, encode: Encoder, history: map<string, Payload>,
                        log: seq<L.Event>, that: seq<L.Event>, k: nat)
    requires Faithful(encode, history) && TellsApart(encode, encode)
    requires Mirrors(t, encode, history, log) && Mirrors(u, encode, history, that)
    requires InLog(log, k) && InLog(that, k)
    ensures k in t.entries && k in u.entries && (t.entries[k].hash == u.entries[k].hash <==> log[..k] == that[..k])
  {
    hide ChainAccepted, Faithful, TellsApart, Mirrors, SameEntry;
    MirrorParts(t, encode, history, log);
    MirrorParts(u, encode, history, that);
    HeadIsTail(t);
    HeadIsTail(u);
    if t.entries[k].hash == u.entries[k].hash {
      forall i: nat | i < k
        ensures log[i] == that[i]
      {
        EqualHashesBackwards(t, u, k, i + 1);
        EventTold(t, u, encode, encode, history, history, log, that, i + 1);
      }
    }
    if log[..k] == that[..k] { EqualPrefixEqualHash(t, u, encode, history, log, that, k); }
  }

  /** Equal logs, equal head hashes. */
  lemma EqualLogsEqualHeads(t: Tables, u: Tables, encode: Encoder, history: map<string, Payload>, log: seq<L.Event>)
    requires Mirrors(t, encode, history, log) && Mirrors(u, encode, history, log)
    ensures t.head.hash == u.head.hash
  {
    hide ChainAccepted, HistoryKept, Mirrors, LegacyCorpus, ActivationDigest, Activated;
    MirrorParts(t, encode, history, log);
    MirrorParts(u, encode, history, log);
    HeadIsTail(t);
    HeadIsTail(u);
    FirstPredecessor(t, history);
    FirstPredecessor(u, history);
    if log != [] { EqualPrefixEqualHash(t, u, encode, history, log, log, |log|); }
  }

  /** The head tells the run's ledger: the chains of any two runs over one history have the same
      head hash iff the runs recorded the same log. */
  lemma HeadTellsLog(encode: Encoder, history: map<string, Payload>, steps: seq<S.Step>, others: seq<S.Step>) returns (t: Tables, u: Tables)
    requires Faithful(encode, history) && TellsApart(encode, encode)
    ensures var log, that := S.Run(S.START, steps).store.log, S.Run(S.START, others).store.log;
      && Mirrors(t, encode, history, log) && Mirrors(u, encode, history, that)
      && (t.head.hash == u.head.hash <==> log == that)
  {
    hide *;
    var log, that := S.Run(S.START, steps).store.log, S.Run(S.START, others).store.log;
    t := LogMirrored(encode, history, log);
    u := LogMirrored(encode, history, that);
    if t.head.hash == u.head.hash { EqualHeadsEqualLogs(t, u, encode, encode, history, history, log, that); }
    if log == that { EqualLogsEqualHeads(t, u, encode, history, log); }
  }

  // ---------------------------------------------------------------- an encoding exists

  function Unary(k: nat): string {
    seq(k, _ => 'x')
  }

  /** The least a receipt must carry, and the event's code among its input identifiers. */
  function CodedReceipt(id: string, e: L.Event): Payload {
    map[Mirrored(EventId) := Text(id), Mirrored(Command) := Text("transition"), Mirrored(OccurredAt) := Text("now"),
        Mirrored(AssertedActor) := Text("actor"), Mirrored(PriorState) := Null, Mirrored(RequestedState) := Null,
        Mirrored(ResultingState) := Null, Mirrored(Outcome) := Text("accepted"), Mirrored(Reason) := Text("reason"),
        Mirrored(ApplicationVersion) := Text("1"), InputIdentifiers := Object(map[Named("event") := EventCode(e)])]
  }

  lemma CodedReceiptValid(id: string, e: L.Event)
    ensures ValidReceipt(CodedReceipt(id, e)) && Get(CodedReceipt(id, e), Mirrored(EventId)) == Text(id)
    ensures forall k :: k in CodedReceipt(id, e) ==> !k.Chain?
  {
    hide EventCode;
    var receipt := CodedReceipt(id, e);
    assert forall c: ChainColumn :: Get(receipt, Chain(c)).Null?;
    assert forall c: AuthorizationColumn :: Get(receipt, Authorization(c)).Null?;
  }

  function CodedRow(id: string, e: L.Event): Payload {
    CodedReceiptValid(id, e);
    EventFromReceipt(CodedReceipt(id, e), Null, Null, Null)
  }

  lemma CodesTold(id: string, e: L.Event, f: L.Event)
    requires SameProtected(CodedRow(id, e), CodedRow(id, f))
    ensures e == f
  {
    hide EventCode, ValidReceipt, EventFromReceipt, BareReceipt, Encodable;
    CodedReceiptValid(id, e);
    CodedReceiptValid(id, f);
    RowColumns(CodedReceipt(id, e), Null, Null, Null);
    RowColumns(CodedReceipt(id, f), Null, Null, Null);
    var a, b := map[Named("event") := EventCode(e)], map[Named("event") := EventCode(f)];
    assert Object(a) == Object(b);
    assert a[Named("event")] == b[Named("event")];
    EventsTold(e, f);
  }

  lemma FaithfulExists() returns (encode: Encoder)
    ensures Faithful(encode, map[]) && TellsApart(encode, encode)
  {
    hide ValidReceipt, Preparable, EventFromReceipt, CodedReceipt, SameProtected, EventCode;
    encode := (k: nat, e: L.Event) => Append(Unary(k), CodedRow(Unary(k), e));
    forall k: nat, e: L.Event
      ensures Preparable(encode(k, e).id, encode(k, e).event)
    {
      CodedReceiptValid(Unary(k), e);
      ReceiptRowsArePreparable(Unary(k), CodedReceipt(Unary(k), e), Null, Null, Null);
    }
    forall j: nat, k: nat, e: L.Event, f: L.Event | encode(j, e).id == encode(k, f).id
      ensures j == k
    {
      assert |Unary(j)| == |Unary(k)|;
    }
    forall k: nat, e: L.Event, f: L.Event | SameProtected(encode(k, e).event, encode(k, f).event)
      ensures e == f
    {
      CodesTold(Unary(k), e, f);
    }
  }
}
