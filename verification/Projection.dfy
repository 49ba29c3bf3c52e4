/** The append-only JSONL receipt log, its crash-prone projector and its audit
    (receipts.py, database.py, the projection loops of integrity.py). */
module Projection {
  import opened Models

  type EventId = nat

  /** A receipt's parsed value; native receipts carry the chain fields. */
  datatype Payload = Payload(content: nat, native: bool)

  /** A line that is blank, no JSON, JSON but no object, an object without a run id, or a receipt. */
  datatype Line = Blank | Malformed | NoObject | Anonymous | Receipt(id: EventId, payload: Payload)

  /** An event row: its canonical receipt, and whether it is marked projected. */
  datatype Row = Row(id: EventId, receipt: Payload, marked: bool)

  datatype Workspace = Workspace(lines: seq<Line>, rows: seq<Row>)

  // ---------------------------------------------------------------- finding a receipt

  datatype Finding = Missing | Found(payload: Payload) | Unreadable

  /** `find_receipt`: the first receipt of the event; a line it cannot read first is an error, an
      object without a run id is passed over. */
  function FindReceipt(lines: seq<Line>, id: EventId): Finding {
    if lines == [] then Missing
    else match lines[0]
      case Blank => FindReceipt(lines[1..], id)
      case Anonymous => FindReceipt(lines[1..], id)
      case Malformed => Unreadable
      case NoObject => Unreadable
      case Receipt(other, payload) => if other == id then Found(payload) else FindReceipt(lines[1..], id)
  }

  lemma {:induction false} FindExact(lines: seq<Line>, id: EventId)
    ensures var f := FindReceipt(lines, id);
      && (f.Found? ==> Receipt(id, f.payload) in lines)
      && (f.Missing? ==> (forall l :: l in lines && l.Receipt? ==> l.id != id) && forall l :: l in lines ==> !l.Malformed? && !l.NoObject?)
      && (f.Unreadable? ==> exists l :: l in lines && (l.Malformed? || l.NoObject?))
  {
    if lines != [] { FindExact(lines[1..], id); assert lines == [lines[0]] + lines[1..]; }
  }

  // ---------------------------------------------------------------- projecting

  function Mark(w: Workspace, i: nat): Workspace
    requires i < |w.rows|
  {
    w.(rows := w.rows[i := w.rows[i].(marked := true)])
  }

  function AppendLine(w: Workspace, i: nat): Workspace
    requires i < |w.rows|
  {
    w.(lines := w.lines + [Receipt(w.rows[i].id, w.rows[i].receipt)])
  }

  /** `project_transition_event`, possibly interrupted between its append and its mark: the
      workspace it leaves, and whether it returned normally. */
  function Project(w: Workspace, i: nat, interrupted: bool): (Workspace, bool)
    requires i < |w.rows|
  {
    match FindReceipt(w.lines, w.rows[i].id)
    case Unreadable => (w, false)
    case Found(payload) =>
      if payload != w.rows[i].receipt then (w, false) else if interrupted then (w, false) else (Mark(w, i), true)
    case Missing =>
      if interrupted then (AppendLine(w, i), false) else (Mark(AppendLine(w, i), i), true)
  }

  /** `pending_transition_events`. */
  function Pending(rows: seq<Row>, from: nat): seq<nat>
    requires from <= |rows|
    decreases |rows| - from
  {
    if from == |rows| then []
    else if rows[from].marked then Pending(rows, from + 1)
    else [from] + Pending(rows, from + 1)
  }

  predicate Indices(pending: seq<nat>, rows: seq<Row>) {
    forall k :: 0 <= k < |pending| ==> pending[k] < |rows|
  }

  /** `reconcile_pending_receipts` over a snapshot; an error or an interruption ends it. */
  function Reconcile(w: Workspace, pending: seq<nat>, interruptAt: nat): (Workspace, bool)
    requires Indices(pending, w.rows)
    decreases |pending|
  {
    if pending == [] then (w, true)
    else
      var (next, ok) := Project(w, pending[0], interruptAt == 0);
      if !ok then (next, false) else Reconcile(next, pending[1..], interruptAt - 1)
  }

  class Projector {
    var lines: seq<Line>
    var rows: seq<Row>

    constructor (w: Workspace)
      ensures State() == w
    {
      lines, rows := w.lines, w.rows;
    }

    function State(): Workspace
      reads this
    {
      Workspace(lines, rows)
    }

    method Find(id: EventId) returns (f: Finding)
      ensures f == FindReceipt(lines, id)
    {
      var i := 0;
      while i < |lines|
        invariant 0 <= i <= |lines|
        invariant FindReceipt(lines, id) == FindReceipt(lines[i..], id)
      {
        match lines[i] {
          case Blank =>
          case Anonymous =>
          case Malformed => return Unreadable;
          case NoObject => return Unreadable;
          case Receipt(other, payload) => if other == id { return Found(payload); }
        }
        i := i + 1;
      }
      return Missing;
    }

    method ProjectEvent(i: nat, interrupted: bool) returns (ok: bool)
      requires i < |rows|
      modifies this
      ensures (State(), ok) == Project(old(State()), i, interrupted)
    {
      var existing := Find(rows[i].id);
      if existing.Unreadable? || (existing.Found? && existing.payload != rows[i].receipt) { return false; }
      if existing.Missing? { lines := lines + [Receipt(rows[i].id, rows[i].receipt)]; }
      if interrupted { return false; }
      rows := rows[i := rows[i].(marked := true)];
      return true;
    }

    method ReconcilePending(interruptAt: nat) returns (ok: bool)
      modifies this
      ensures (State(), ok) == ReconcileAll(old(State()), interruptAt)
    {
      var pending := Pending(rows, 0);
      PendingExact(rows, 0);
      var left := interruptAt;
      var k := 0;
      ghost var start := State();
      while k < |pending|
        invariant 0 <= k <= |pending| && |rows| == |start.rows|
        invariant Indices(pending, start.rows) && Indices(pending[k..], start.rows)
        invariant Reconcile(start, pending, interruptAt) == Reconcile(State(), pending[k..], left)
      {
        assert pending[k..][0] == pending[k] && pending[k..][1..] == pending[k + 1..];
        var done := ProjectEvent(pending[k], left == 0);
        if !done { return false; }
        left := left - 1;
        k := k + 1;
      }
      return true;
    }
  }

  /** Exactly the unmarked rows. */
  lemma PendingExact(rows: seq<Row>, from: nat)
    requires from <= |rows|
    ensures Indices(Pending(rows, from), rows)
    ensures forall i: nat :: i in Pending(rows, from) <==> from <= i < |rows| && !rows[i].marked
  {
    hide Pending;
    forall i: nat ensures i in Pending(rows, from) <==> from <= i < |rows| && !rows[i].marked { PendingAt(rows, from, i); }
    var pending := Pending(rows, from);
    forall k | 0 <= k < |pending| ensures pending[k] < |rows| { PendingAt(rows, from, pending[k]); }
  }

  lemma {:induction false} PendingAt(rows: seq<Row>, from: nat, i: nat)
    requires from <= |rows|
    ensures i in Pending(rows, from) <==> from <= i < |rows| && !rows[i].marked
    decreases |rows| - from
  {
    if from < |rows| {
      PendingAt(rows, from + 1, i);
      InCons(from, Pending(rows, from + 1), i);
    }
  }

  /** Pending events are projected in the order of the rows. */
  lemma {:induction false} PendingAscends(rows: seq<Row>, from: nat)
    requires from <= |rows|
    ensures forall j, k :: 0 <= j < k < |Pending(rows, from)| ==> Pending(rows, from)[j] < Pending(rows, from)[k]
    decreases |rows| - from
  {
    if from < |rows| {
      PendingAscends(rows, from + 1);
      PendingExact(rows, from + 1);
      var rest := Pending(rows, from + 1);
      forall k | 0 <= k < |rest| ensures from < rest[k] { assert rest[k] in rest; }
    }
  }

  lemma InCons(first: nat, rest: seq<nat>, i: nat)
    ensures i in [first] + rest <==> i == first || i in rest
  {
  }

  function ReconcileAll(w: Workspace, interruptAt: nat): (Workspace, bool) {
    PendingExact(w.rows, 0);
    Reconcile(w, Pending(w.rows, 0), interruptAt)
  }

  // ---------------------------------------------------------------- soundness of every state

  predicate RowIds(rows: seq<Row>, id: EventId) {
    exists i :: 0 <= i < |rows| && rows[i].id == id
  }

  /** Distinct events; each event's receipt is in the log at most once, only with its canonical
      payload, and certainly if the event is marked. */
  ghost predicate Sound(w: Workspace) {
    && (forall i, j :: 0 <= i < j < |w.rows| ==> w.rows[i].id != w.rows[j].id)
    && (forall i :: 0 <= i < |w.rows| && w.rows[i].marked ==> Receipt(w.rows[i].id, w.rows[i].receipt) in w.lines)
    && (forall i, a :: 0 <= i < |w.rows| && 0 <= a < |w.lines| && IsReceiptOf(w.lines[a], w.rows[i].id) ==> w.lines[a].payload == w.rows[i].receipt)
    && (forall a, b :: 0 <= a < b < |w.lines| && w.lines[a].Receipt? && w.lines[b].Receipt? && w.lines[a].id == w.lines[b].id ==>
          !RowIds(w.rows, w.lines[a].id))
  }

  predicate IsReceiptOf(l: Line, id: EventId) {
    l.Receipt? && l.id == id
  }

  /** Lines are only appended, rows only marked. */
  ghost predicate Extends(v: Workspace, w: Workspace) {
    && v.lines <= w.lines && |v.rows| <= |w.rows|
    && forall i :: 0 <= i < |v.rows| ==> w.rows[i].id == v.rows[i].id && w.rows[i].receipt == v.rows[i].receipt
                                         && (v.rows[i].marked ==> w.rows[i].marked)
  }

  lemma AppendSound(w: Workspace, i: nat)
    requires Sound(w) && i < |w.rows| && FindReceipt(w.lines, w.rows[i].id).Missing?
    ensures Sound(AppendLine(w, i))
  {
    FindExact(w.lines, w.rows[i].id);
    forall a | 0 <= a < |w.lines| && w.lines[a].Receipt? ensures w.lines[a].id != w.rows[i].id { assert w.lines[a] in w.lines; }
  }

  lemma MarkSound(w: Workspace, i: nat)
    requires Sound(w) && i < |w.rows| && Receipt(w.rows[i].id, w.rows[i].receipt) in w.lines
    ensures Sound(Mark(w, i))
  {
    var v := Mark(w, i);
    assert forall id :: RowIds(v.rows, id) ==> RowIds(w.rows, id);
  }

  lemma ProjectSound(w: Workspace, i: nat, interrupted: bool)
    requires Sound(w) && i < |w.rows|
    ensures Sound(Project(w, i, interrupted).0) && Extends(w, Project(w, i, interrupted).0)
    ensures |Project(w, i, interrupted).0.rows| == |w.rows|
    ensures Project(w, i, interrupted).1 ==> !interrupted && Project(w, i, interrupted).0.rows[i].marked
  {
    hide Sound;
    FindExact(w.lines, w.rows[i].id);
    if FindReceipt(w.lines, w.rows[i].id).Missing? {
      AppendSound(w, i);
      MarkSound(AppendLine(w, i), i);
    } else if FindReceipt(w.lines, w.rows[i].id) == Found(w.rows[i].receipt) {
      MarkSound(w, i);
    }
  }

  lemma {:induction false} ReconcileSound(w: Workspace, pending: seq<nat>, interruptAt: nat)
    requires Sound(w) && Indices(pending, w.rows)
    ensures var (v, ok) := Reconcile(w, pending, interruptAt);
      && Sound(v) && Extends(w, v) && |v.rows| == |w.rows|
      && (ok ==> forall k :: 0 <= k < |pending| ==> v.rows[pending[k]].marked)
    decreases |pending|
  {
    hide Sound, Project;
    if pending != [] {
      ProjectSound(w, pending[0], interruptAt == 0);
      var (next, ok) := Project(w, pending[0], interruptAt == 0);
      if ok { ReconcileSound(next, pending[1..], interruptAt - 1); }
    }
  }

  /** A reconciliation that stops leaves every event before the one it stopped at marked, and every
      event after it as it was. */
  ghost predicate StoppedAt(w: Workspace, v: Workspace, pending: seq<nat>, k: nat)
    requires Indices(pending, w.rows) && |v.rows| == |w.rows|
  {
    && k < |pending|
    && (forall j :: 0 <= j < k ==> v.rows[pending[j]].marked)
    && (forall i: nat :: i < |w.rows| && (forall j :: 0 <= j <= k ==> i != pending[j]) ==> v.rows[i] == w.rows[i])
  }

  lemma {:induction false} ReconcileStops(w: Workspace, pending: seq<nat>, interruptAt: nat)
    requires Indices(pending, w.rows) && Sound(w) && (forall j, k :: 0 <= j < k < |pending| ==> pending[j] != pending[k])
    ensures |Reconcile(w, pending, interruptAt).0.rows| == |w.rows|
    ensures var (v, ok) := Reconcile(w, pending, interruptAt); !ok ==> exists k: nat :: StoppedAt(w, v, pending, k)
    decreases |pending|
  {
    hide Sound;
    ReconcileSound(w, pending, interruptAt);
    if pending != [] {
      ProjectSound(w, pending[0], interruptAt == 0);
      var (next, done) := Project(w, pending[0], interruptAt == 0);
      ProjectTouches(w, pending[0], interruptAt == 0);
      var (v, ok) := Reconcile(w, pending, interruptAt);
      if !done {
        assert StoppedAt(w, v, pending, 0);
      } else if !ok {
        ReconcileStops(next, pending[1..], interruptAt - 1);
        var k: nat :| StoppedAt(next, v, pending[1..], k);
        StoppedLater(w, next, v, pending, k);
      }
    }
  }

  lemma ProjectTouches(w: Workspace, i: nat, interrupted: bool)
    requires i < |w.rows|
    ensures var v := Project(w, i, interrupted).0;
      |v.rows| == |w.rows| && forall j: nat :: j < |w.rows| && j != i ==> v.rows[j] == w.rows[j]
  {
  }

  lemma StoppedLater(w: Workspace, next: Workspace, v: Workspace, pending: seq<nat>, k: nat)
    requires pending != [] && Indices(pending, w.rows) && |next.rows| == |w.rows| == |v.rows|
    requires forall i, j :: 0 <= i < j < |pending| ==> pending[i] != pending[j]
    requires next.rows[pending[0]].marked && forall j: nat :: j < |w.rows| && j != pending[0] ==> next.rows[j] == w.rows[j]
    requires Indices(pending[1..], next.rows) && StoppedAt(next, v, pending[1..], k)
    requires v.rows[pending[0]].marked
    ensures StoppedAt(w, v, pending, k + 1)
  {
    forall j | 0 <= j < k + 1
      ensures v.rows[pending[j]].marked
    {
      if j > 0 {
        var i := j - 1;
        assert pending[1..][i] == pending[j];
      }
    }
    forall i: nat | i < |w.rows| && (forall j :: 0 <= j <= k + 1 ==> i != pending[j])
      ensures v.rows[i] == w.rows[i]
    {
      assert i != pending[0];
      forall j | 0 <= j <= k ensures i != pending[1..][j] { var l := j + 1; assert pending[1..][j] == pending[l]; }
    }
  }

  // ---------------------------------------------------------------- runs

  /** What happens to a workspace with one projector: events are committed with fresh ids, and
      projections and reconciliations run, each perhaps interrupted. */
  datatype Action =
    | CommitEvent(id: EventId, receipt: Payload)
    | ProjectOne(row: nat, interrupted: bool)
    | ReconcileLog(interruptAt: nat)

  predicate Fresh(w: Workspace, id: EventId) {
    !RowIds(w.rows, id) && forall a :: 0 <= a < |w.lines| ==> !IsReceiptOf(w.lines[a], id)
  }

  function Act(w: Workspace, action: Action): Workspace {
    match action
    case CommitEvent(id, receipt) => if Fresh(w, id) then w.(rows := w.rows + [Row(id, receipt, false)]) else w
    case ProjectOne(i, interrupted) => if i < |w.rows| then Project(w, i, interrupted).0 else w
    case ReconcileLog(interruptAt) => ReconcileAll(w, interruptAt).0
  }

  function ActAll(w: Workspace, actions: seq<Action>): Workspace {
    if actions == [] then w else Act(ActAll(w, actions[..|actions| - 1]), actions[|actions| - 1])
  }

  lemma CommitSound(w: Workspace, id: EventId, receipt: Payload)
    requires Sound(w) && Fresh(w, id)
    ensures Sound(w.(rows := w.rows + [Row(id, receipt, false)]))
  {
    var v := w.(rows := w.rows + [Row(id, receipt, false)]);
    forall i | 0 <= i < |w.rows| ensures w.rows[i].id != id { assert !RowIds(w.rows, id); }
    forall other | RowIds(v.rows, other) && other != id
      ensures RowIds(w.rows, other)
    {
      var i :| 0 <= i < |v.rows| && v.rows[i].id == other;
      assert w.rows[i].id == other;
    }
  }

  lemma ActSound(w: Workspace, action: Action)
    requires Sound(w)
    ensures Sound(Act(w, action)) && Extends(w, Act(w, action))
  {
    hide Sound, Project, Reconcile, Fresh;
    match action
    case CommitEvent(id, receipt) => if Fresh(w, id) { CommitSound(w, id, receipt); }
    case ProjectOne(i, interrupted) => if i < |w.rows| { ProjectSound(w, i, interrupted); }
    case ReconcileLog(interruptAt) => PendingExact(w.rows, 0); ReconcileSound(w, Pending(w.rows, 0), interruptAt);
  }

  /** Projection crash safety: however often the projector stops between append and mark, old
      lines are never altered, each event's receipt is in the log at most once and with its
      canonical payload, and a marked event's receipt is present. */
  lemma {:induction false} ProjectionCrashSafe(w: Workspace, actions: seq<Action>)
    requires Sound(w)
    ensures Sound(ActAll(w, actions)) && Extends(w, ActAll(w, actions))
    decreases |actions|
  {
    hide Sound, Act;
    if actions != [] {
      ProjectionCrashSafe(w, actions[..|actions| - 1]);
      ActSound(ActAll(w, actions[..|actions| - 1]), actions[|actions| - 1]);
    }
  }

  // ---------------------------------------------------------------- the projection audit

  datatype ProjectionCode =
    | MalformedReceipt | InvalidReceiptIdentity | DuplicateReceiptId
    | MissingProjectedReceipt | ReceiptPayloadMismatch | OrphanNativeReceipt

  datatype ProjectionFailure = ProjectionFailure(code: ProjectionCode, at: nat)

  /** Every nonblank line is a receipt, and no two have the same run id. */
  ghost predicate Legible(lines: seq<Line>) {
    && (forall a :: 0 <= a < |lines| ==> lines[a].Blank? || lines[a].Receipt?)
    && (forall a, b :: 0 <= a < b < |lines| && lines[a].Receipt? && lines[b].Receipt? ==> lines[a].id != lines[b].id)
  }

  predicate InLog(lines: seq<Line>, id: EventId) {
    exists l :: l in lines && IsReceiptOf(l, id)
  }

  ghost predicate RowProjected(lines: seq<Line>, row: Row) {
    && (row.marked ==> InLog(lines, row.id))
    && (forall l :: l in lines && IsReceiptOf(l, row.id) ==> l.payload == row.receipt)
  }

  ghost predicate ProjectionValid(w: Workspace) {
    && Legible(w.lines)
    && (forall i :: 0 <= i < |w.rows| ==> RowProjected(w.lines, w.rows[i]))
    && (forall l :: l in w.lines && l.Receipt? && l.payload.native ==> RowIds(w.rows, l.id))
  }

  /** `receipt_records` as the line loop builds it: the first receipt of each run id. */
  ghost predicate Records(records: map<EventId, Payload>, lines: seq<Line>) {
    && (forall id :: id in records ==> Receipt(id, records[id]) in lines)
    && (forall l :: l in lines && l.Receipt? ==> l.id in records)
    && (Legible(lines) ==> forall l :: l in lines && l.Receipt? ==> records[l.id] == l.payload)
  }

  lemma LegiblePrefix(lines: seq<Line>, l: Line)
    requires Legible(lines + [l])
    ensures Legible(lines) && (l.Blank? || l.Receipt?)
    ensures forall m :: m in lines && m.Receipt? && l.Receipt? ==> m.id != l.id
  {
    var more := lines + [l];
    assert more[|lines|] == l;
    assert forall a :: 0 <= a < |lines| ==> more[a] == lines[a];
  }

  lemma LegibleLonger(lines: seq<Line>, l: Line)
    requires Legible(lines) && (l.Blank? || (l.Receipt? && forall m :: m in lines && m.Receipt? ==> m.id != l.id))
    ensures Legible(lines + [l])
  {
    forall a | 0 <= a < |lines| ensures lines[a] in lines {}
  }

  lemma LegibleAppend(lines: seq<Line>, l: Line, records: map<EventId, Payload>)
    requires Records(records, lines)
    ensures Legible(lines + [l]) <==> Legible(lines) && (l.Blank? || (l.Receipt? && l.id !in records))
    ensures l.Receipt? && l.id !in records ==> Records(records[l.id := l.payload], lines + [l])
    ensures !(l.Receipt? && l.id !in records) ==> Records(records, lines + [l])
  {
    hide Legible;
    if Legible(lines + [l]) { LegiblePrefix(lines, l); }
    if Legible(lines) && (l.Blank? || (l.Receipt? && l.id !in records)) { LegibleLonger(lines, l); }
  }

  /** The line loop. */
  method ReadLog(lines: seq<Line>) returns (records: map<EventId, Payload>, failures: seq<ProjectionFailure>)
    ensures Records(records, lines)
    ensures failures == [] <==> Legible(lines)
  {
    hide Records, Legible;
    records, failures := map[], [];
    var n := 0;
    EmptyLog();
    while n < |lines|
      invariant 0 <= n <= |lines|
      invariant Records(records, lines[..n])
      invariant failures == [] <==> Legible(lines[..n])
    {
      var l := lines[n];
      LegibleAppend(lines[..n], l, records);
      assert lines[..n + 1] == lines[..n] + [l];
      match l {
        case Blank =>
        case Malformed => failures := failures + [ProjectionFailure(MalformedReceipt, n)];
        case NoObject => failures := failures + [ProjectionFailure(InvalidReceiptIdentity, n)];
        case Anonymous => failures := failures + [ProjectionFailure(InvalidReceiptIdentity, n)];
        case Receipt(id, payload) =>
          if id in records {
            failures := failures + [ProjectionFailure(DuplicateReceiptId, n)];
          } else {
            records := records[id := payload];
          }
      }
      n := n + 1;
    }
    assert lines[..n] == lines;
  }

  lemma EmptyLog()
    ensures Records(map[], []) && Legible([])
  {
  }

  predicate RowInRecords(records: map<EventId, Payload>, row: Row) {
    if row.id in records then records[row.id] == row.receipt else !row.marked
  }

  lemma RecordsAgree(records: map<EventId, Payload>, lines: seq<Line>, row: Row)
    requires Records(records, lines) && Legible(lines)
    ensures RowInRecords(records, row) <==> RowProjected(lines, row)
  {
  }

  /** The event loop: failures, and whether the projection is complete. */
  method CheckRows(records: map<EventId, Payload>, rows: seq<Row>) returns (failures: seq<ProjectionFailure>, complete: bool)
    ensures failures == [] <==> forall i :: 0 <= i < |rows| ==> RowInRecords(records, rows[i])
    ensures complete <==> forall i :: 0 <= i < |rows| ==> rows[i].marked && rows[i].id in records
  {
    failures, complete := [], true;
    var i := 0;
    while i < |rows|
      invariant 0 <= i <= |rows|
      invariant failures == [] <==> forall j :: 0 <= j < i ==> RowInRecords(records, rows[j])
      invariant complete <==> forall j :: 0 <= j < i ==> rows[j].marked && rows[j].id in records
    {
      if !rows[i].marked { complete := false; }
      if rows[i].id !in records {
        if rows[i].marked {
          complete := false;
          failures := failures + [ProjectionFailure(MissingProjectedReceipt, i)];
        }
      } else if records[rows[i].id] != rows[i].receipt {
        failures := failures + [ProjectionFailure(ReceiptPayloadMismatch, i)];
      }
      i := i + 1;
    }
  }

  /** The orphan loop. */
  method CheckOrphans(records: map<EventId, Payload>, rows: seq<Row>) returns (failures: seq<ProjectionFailure>)
    ensures failures == [] <==> forall id :: id in records && records[id].native ==> RowIds(rows, id)
  {
    failures := [];
    var ids := records.Keys;
    while ids != {}
      invariant ids <= records.Keys
      invariant failures == [] <==> forall id :: id in records && id !in ids && records[id].native ==> RowIds(rows, id)
      decreases |ids|
    {
      var id :| id in ids;
      if !RowIds(rows, id) && records[id].native { failures := failures + [ProjectionFailure(OrphanNativeReceipt, id)]; }
      ids := ids - {id};
    }
  }

  /** The projection part of `verify_integrity` accepts exactly the valid projections, and calls
      complete exactly those with every event marked and present. */
  method VerifyProjection(w: Workspace) returns (failures: seq<ProjectionFailure>, complete: bool)
    ensures failures == [] <==> ProjectionValid(w)
    ensures complete <==> forall i :: 0 <= i < |w.rows| ==> w.rows[i].marked && InLog(w.lines, w.rows[i].id)
  {
    hide RowInRecords, RowProjected, Legible, RowIds;
    var records, unreadable := ReadLog(w.lines);
    var rowFailures, all := CheckRows(records, w.rows);
    var orphans := CheckOrphans(records, w.rows);
    if Legible(w.lines) {
      forall i | 0 <= i < |w.rows| ensures RowInRecords(records, w.rows[i]) <==> RowProjected(w.lines, w.rows[i]) { RecordsAgree(records, w.lines, w.rows[i]); }
      OrphansAgree(records, w);
    }
    failures := unreadable + rowFailures + orphans;
    complete := all;
    forall i | 0 <= i < |w.rows|
      ensures w.rows[i].id in records <==> InLog(w.lines, w.rows[i].id)
    {
      RecordedIds(records, w.lines, w.rows[i].id);
    }
  }

  lemma RecordedIds(records: map<EventId, Payload>, lines: seq<Line>, id: EventId)
    requires Records(records, lines)
    ensures id in records <==> InLog(lines, id)
  {
    if id in records { assert IsReceiptOf(Receipt(id, records[id]), id); }
  }

  lemma OrphansAgree(records: map<EventId, Payload>, w: Workspace)
    requires Records(records, w.lines) && Legible(w.lines)
    ensures (forall id :: id in records && records[id].native ==> RowIds(w.rows, id))
        <==> (forall l :: l in w.lines && l.Receipt? && l.payload.native ==> RowIds(w.rows, l.id))
  {
    hide Legible, RowIds;
    if forall l :: l in w.lines && l.Receipt? && l.payload.native ==> RowIds(w.rows, l.id) {
      forall id | id in records && records[id].native ensures RowIds(w.rows, id) { assert Receipt(id, records[id]) in w.lines; }
    }
  }

  /** The line at a is this row's receipt, and no other line is. */
  predicate OnlyLine(lines: seq<Line>, a: nat, row: Row) {
    a < |lines| && lines[a] == Receipt(row.id, row.receipt) && forall b :: 0 <= b < |lines| && IsReceiptOf(lines[b], row.id) ==> b == a
  }

  /** What a valid projection says: nothing but blank lines and receipts, every line that names an
      event carries that event's own receipt and is the only one, a marked event has one, and
      every native receipt is some event's. */
  lemma ValidProjectionTold(w: Workspace)
    requires ProjectionValid(w)
    ensures forall a :: 0 <= a < |w.lines| ==> w.lines[a].Blank? || w.lines[a].Receipt?
    ensures forall i, a: nat :: 0 <= i < |w.rows| && a < |w.lines| && IsReceiptOf(w.lines[a], w.rows[i].id) ==> OnlyLine(w.lines, a, w.rows[i])
    ensures forall i :: 0 <= i < |w.rows| && w.rows[i].marked ==> exists a: nat :: OnlyLine(w.lines, a, w.rows[i])
    ensures forall a :: 0 <= a < |w.lines| && w.lines[a].Receipt? && w.lines[a].payload.native ==>
      exists i :: 0 <= i < |w.rows| && w.lines[a] == Receipt(w.rows[i].id, w.rows[i].receipt)
  {
    forall i, a: nat | 0 <= i < |w.rows| && a < |w.lines| && IsReceiptOf(w.lines[a], w.rows[i].id)
      ensures OnlyLine(w.lines, a, w.rows[i])
    {
      LineOnly(w, i, a);
    }
    forall i | 0 <= i < |w.rows| && w.rows[i].marked
      ensures exists a: nat :: OnlyLine(w.lines, a, w.rows[i])
    {
      assert RowProjected(w.lines, w.rows[i]);
      var l :| l in w.lines && IsReceiptOf(l, w.rows[i].id);
      var a: nat :| a < |w.lines| && w.lines[a] == l;
      LineOnly(w, i, a);
    }
    forall a | 0 <= a < |w.lines| && w.lines[a].Receipt? && w.lines[a].payload.native
      ensures exists i :: 0 <= i < |w.rows| && w.lines[a] == Receipt(w.rows[i].id, w.rows[i].receipt)
    {
      var l := w.lines[a];
      assert l in w.lines && RowIds(w.rows, l.id);
      var i :| 0 <= i < |w.rows| && w.rows[i].id == l.id;
      assert IsReceiptOf(l, w.rows[i].id);
      LineOnly(w, i, a);
    }
  }

  lemma LineOnly(w: Workspace, i: nat, a: nat)
    requires ProjectionValid(w) && i < |w.rows| && a < |w.lines| && IsReceiptOf(w.lines[a], w.rows[i].id)
    ensures OnlyLine(w.lines, a, w.rows[i])
  {
    hide RowIds;
    assert RowProjected(w.lines, w.rows[i]);
    assert w.lines[a] in w.lines;
  }

  // ---------------------------------------------------------------- the projector keeps the audit content

  lemma ProjectValid(w: Workspace, i: nat, interrupted: bool)
    requires Sound(w) && ProjectionValid(w) && i < |w.rows|
    ensures ProjectionValid(Project(w, i, interrupted).0)
  {
    var v := Project(w, i, interrupted).0;
    ProjectSound(w, i, interrupted);
    FindExact(w.lines, w.rows[i].id);
    ProjectedLines(w, v, i);
    SoundRows(v);
    forall id | RowIds(w.rows, id) ensures RowIds(v.rows, id) { KeptIds(w, v, id); }
    assert RowIds(v.rows, v.rows[i].id);
  }

  lemma KeptIds(w: Workspace, v: Workspace, id: EventId)
    requires Extends(w, v) && RowIds(w.rows, id)
    ensures RowIds(v.rows, id)
  {
    var i :| 0 <= i < |w.rows| && w.rows[i].id == id;
    assert v.rows[i].id == id;
  }

  lemma ProjectedLines(w: Workspace, v: Workspace, i: nat)
    requires Legible(w.lines) && i < |w.rows|
    requires v.lines == w.lines || (v.lines == w.lines + [Receipt(w.rows[i].id, w.rows[i].receipt)]
      && forall l :: l in w.lines && l.Receipt? ==> l.id != w.rows[i].id)
    ensures Legible(v.lines)
  {
    forall a | 0 <= a < |w.lines| && w.lines[a].Receipt? ensures w.lines[a] in w.lines {}
  }

  lemma SoundRows(v: Workspace)
    requires Sound(v)
    ensures forall i :: 0 <= i < |v.rows| ==> RowProjected(v.lines, v.rows[i])
  {
    forall i | 0 <= i < |v.rows|
      ensures RowProjected(v.lines, v.rows[i])
    {
      if v.rows[i].marked { assert IsReceiptOf(Receipt(v.rows[i].id, v.rows[i].receipt), v.rows[i].id); }
      forall l | l in v.lines && IsReceiptOf(l, v.rows[i].id)
        ensures l.payload == v.rows[i].receipt
      {
        var a :| 0 <= a < |v.lines| && v.lines[a] == l;
      }
    }
  }

  lemma {:induction false} ReconcileValid(w: Workspace, pending: seq<nat>, interruptAt: nat)
    requires Sound(w) && ProjectionValid(w) && Indices(pending, w.rows)
    ensures ProjectionValid(Reconcile(w, pending, interruptAt).0)
    decreases |pending|
  {
    hide Sound, ProjectionValid, Project;
    if pending != [] {
      ProjectSound(w, pending[0], interruptAt == 0);
      ProjectValid(w, pending[0], interruptAt == 0);
      var (next, ok) := Project(w, pending[0], interruptAt == 0);
      if ok { ReconcileValid(next, pending[1..], interruptAt - 1); }
    }
  }

  lemma ActValid(w: Workspace, action: Action)
    requires Sound(w) && ProjectionValid(w)
    ensures ProjectionValid(Act(w, action))
  {
    hide ProjectionValid, Project, Reconcile, Fresh, Sound;
    match action
    case CommitEvent(id, receipt) => if Fresh(w, id) { CommitValid(w, id, receipt); }
    case ProjectOne(i, interrupted) => if i < |w.rows| { ProjectValid(w, i, interrupted); }
    case ReconcileLog(interruptAt) => PendingExact(w.rows, 0); ReconcileValid(w, Pending(w.rows, 0), interruptAt);
  }

  lemma CommitValid(w: Workspace, id: EventId, receipt: Payload)
    requires Sound(w) && ProjectionValid(w) && Fresh(w, id)
    ensures ProjectionValid(w.(rows := w.rows + [Row(id, receipt, false)]))
  {
    hide Sound, Legible;
    var v := w.(rows := w.rows + [Row(id, receipt, false)]);
    CommitSound(w, id, receipt);
    SoundRows(v);
    forall other | RowIds(w.rows, other) ensures RowIds(v.rows, other) { KeptIds(w, v, other); }
  }

  lemma {:induction false} ActAllValid(w: Workspace, actions: seq<Action>)
    requires Sound(w) && ProjectionValid(w)
    ensures ProjectionValid(ActAll(w, actions))
    decreases |actions|
  {
    hide Sound, Act, ProjectionValid;
    if actions != [] {
      var n := |actions| - 1;
      ActAllValid(w, actions[..n]);
      ProjectionCrashSafe(w, actions[..n]);
      ActValid(ActAll(w, actions[..n]), actions[n]);
    }
  }

  lemma ValidReadable(lines: seq<Line>, id: EventId)
    requires Legible(lines)
    ensures !FindReceipt(lines, id).Unreadable?
  {
    FindExact(lines, id);
  }

  /** On a sound and legible log, reconciling without interruption never fails. */
  lemma {:induction false} ReconcileCompletes(w: Workspace, pending: seq<nat>, interruptAt: nat)
    requires Sound(w) && ProjectionValid(w) && Indices(pending, w.rows) && interruptAt >= |pending|
    ensures Reconcile(w, pending, interruptAt).1
    decreases |pending|
  {
    hide Sound, ProjectionValid;
    if pending != [] {
      var i := pending[0];
      ProjectReturns(w, i);
      ProjectSound(w, i, false);
      ProjectValid(w, i, false);
      ReconcileCompletes(Project(w, i, false).0, pending[1..], interruptAt - 1);
    }
  }

  lemma ProjectReturns(w: Workspace, i: nat)
    requires Sound(w) && ProjectionValid(w) && i < |w.rows|
    ensures Project(w, i, false).1
  {
    ValidReadable(w.lines, w.rows[i].id);
    FindExact(w.lines, w.rows[i].id);
  }

  /** After any history, a reconciliation that is not interrupted completes, and leaves every
      event marked and present and the projection audit content. */
  lemma ReconciledIsComplete(w: Workspace, actions: seq<Action>, interruptAt: nat)
    requires Sound(w) && ProjectionValid(w) && interruptAt >= |ActAll(w, actions).rows|
    ensures var (v, ok) := ReconcileAll(ActAll(w, actions), interruptAt);
      && ok && ProjectionValid(v)
      && forall i :: 0 <= i < |v.rows| ==> v.rows[i].marked && Receipt(v.rows[i].id, v.rows[i].receipt) in v.lines
  {
    hide ProjectionValid, Act, Reconcile, RowIds;
    var u := ActAll(w, actions);
    ProjectionCrashSafe(w, actions);
    ActAllValid(w, actions);
    PendingExact(u.rows, 0);
    var pending := Pending(u.rows, 0);
    PendingShort(u.rows, 0);
    ReconcileCompletes(u, pending, interruptAt);
    ReconcileSound(u, pending, interruptAt);
    ReconcileValid(u, pending, interruptAt);
  }

  lemma {:induction false} PendingShort(rows: seq<Row>, from: nat)
    requires from <= |rows|
    ensures |Pending(rows, from)| <= |rows| - from
    decreases |rows| - from
  {
    if from < |rows| { PendingShort(rows, from + 1); }
  }
}
