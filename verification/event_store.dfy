/** The part of the SQLite event store that maintenance touches: the six tables retention may
    delete from, their high-water marks, and the retention policy itself.

    A row keeps what those statements read. `write` numbers the insert or update that produced this
    version of the row; no statement reads it, and it is what "the same row" means below. */
module EventStore {
  import opened Wrappers

  // Microseconds since the epoch.
  type Time = int

  const DAY: Time := 86_400_000_000

  datatype Table = Nonces | Idempotency | ToolAudit | Outbox | Receipts | Events

  // The order in which the retention policy visits the tables.
  const TABLES: seq<Table> := [Nonces, Idempotency, ToolAudit, Outbox, Receipts, Events]

  function Position(t: Table): (i: nat)
    ensures i < |TABLES| && TABLES[i] == t
  {
    match t
    case Nonces => 0
    case Idempotency => 1
    case ToolAudit => 2
    case Outbox => 3
    case Receipts => 4
    case Events => 5
  }

  /** `stamp` is the column the policy compares: expires_at for nonces, updated_at for idempotency
      and outbox rows, last_received_at for receipts, created_at for the two append-only tables. */
  datatype Row = Row(table: Table, write: nat, rowid: nat, stamp: Time, terminal: bool)

  datatype Params = Params(
    includeEvents: bool,
    vacuum: bool,
    eventDays: nat,
    toolAuditDays: nat,
    idempotencyDays: nat,
    alertDeliveryDays: nat)

  // What request and settings validation guarantee of every window.
  predicate WindowsAtLeastOneDay(p: Params) {
    p.eventDays >= 1 && p.toolAuditDays >= 1 && p.idempotencyDays >= 1 && p.alertDeliveryDays >= 1
  }

  // A window left out of the request, which falls back on the setting of the same name.
  datatype Windows = Windows(event: Option<nat>, toolAudit: Option<nat>, idempotency: Option<nat>,
                             alertDelivery: Option<nat>)

  datatype Settings = Settings(eventDays: nat, toolAuditDays: nat, idempotencyDays: nat, alertDeliveryDays: nat)

  predicate InRange(days: Option<nat>, least: nat) {
    days.Some? ==> least <= days.value <= 3650
  }

  // What the request model and the settings model accept.
  predicate Validated(body: Windows, settings: Settings) {
    && InRange(body.event, 30) && InRange(body.toolAudit, 30) && InRange(body.idempotency, 1)
       && InRange(body.alertDelivery, 7)
    && 30 <= settings.eventDays <= 3650 && 30 <= settings.toolAuditDays <= 3650
    && 1 <= settings.idempotencyDays <= 3650 && 7 <= settings.alertDeliveryDays <= 3650
  }

  function OrSetting(days: Option<nat>, setting: nat): nat {
    if days == None || days == Some(0) then setting else days.value
  }

  function RetentionParams(includeEvents: bool, vacuum: bool, body: Windows, settings: Settings): (p: Params)
    requires Validated(body, settings)
    ensures WindowsAtLeastOneDay(p)
    ensures p.includeEvents == includeEvents && p.vacuum == vacuum
    ensures p.eventDays == if body.event.Some? then body.event.value else settings.eventDays
    ensures p.toolAuditDays == if body.toolAudit.Some? then body.toolAudit.value else settings.toolAuditDays
    ensures p.idempotencyDays == if body.idempotency.Some? then body.idempotency.value else settings.idempotencyDays
    ensures p.alertDeliveryDays
         == if body.alertDelivery.Some? then body.alertDelivery.value else settings.alertDeliveryDays
  {
    Params(includeEvents, vacuum,
           OrSetting(body.event, settings.eventDays), OrSetting(body.toolAudit, settings.toolAuditDays),
           OrSetting(body.idempotency, settings.idempotencyDays),
           OrSetting(body.alertDelivery, settings.alertDeliveryDays))
  }

  // Tables that carry a high-water mark. The nonce table carries none.
  predicate Marked(t: Table) {
    t != Nonces
  }

  // Marked tables whose rows are only ever inserted or deleted by retention.
  predicate AppendOnly(t: Table) {
    t == Events || t == ToolAudit
  }

  function RowsOf(rows: set<Row>, t: Table): set<Row> {
    set r | r in rows && r.table == t
  }

  function MarkedRows(rows: set<Row>): set<Row> {
    set r | r in rows && Marked(r.table)
  }

  // ---------------------------------------------------------------- high-water marks

  datatype Mark = Mark(rowCount: nat, maxRowid: nat, maxStamp: Option<Time>)

  ghost function MaxRowid(rows: set<Row>): (m: nat)
    ensures rows == {} ==> m == 0
    ensures forall r :: r in rows ==> r.rowid <= m
    ensures rows != {} ==> exists r :: r in rows && r.rowid == m
  {
    if rows == {} then 0
    else
      var r :| r in rows;
      var m := MaxRowid(rows - {r});
      assert forall q :: q in rows ==> q == r || q in rows - {r};
      if m >= r.rowid && rows != {r} then m else r.rowid
  }

  ghost function MaxStamp(rows: set<Row>): (m: Option<Time>)
    ensures rows == {} <==> m == None
    ensures m.Some? ==> forall r :: r in rows ==> r.stamp <= m.value
    ensures m.Some? ==> exists r :: r in rows && r.stamp == m.value
  {
    if rows == {} then None
    else
      var r :| r in rows;
      var m := MaxStamp(rows - {r});
      assert forall q :: q in rows ==> q == r || q in rows - {r};
      if m.Some? && m.value >= r.stamp then m else Some(r.stamp)
  }

  ghost function MarkOf(rows: set<Row>, t: Table): Mark {
    var own := RowsOf(rows, t);
    Mark(|own|, MaxRowid(own), MaxStamp(own))
  }

  ghost function HighWater(rows: set<Row>): map<Table, Mark> {
    map t: Table | Marked(t) :: MarkOf(rows, t)
  }

  /** Every table but the nonces has a mark: how many rows, the largest rowid, and the latest stamp. */
  lemma MarkMeans(rows: set<Row>, t: Table)
    ensures t in HighWater(rows) <==> t != Nonces
    ensures t != Nonces ==>
              var mark, own := HighWater(rows)[t], set r | r in rows && r.table == t;
              && mark.rowCount == |own| && (mark.maxStamp == None <==> own == {})
              && (own == {} ==> mark.maxRowid == 0)
              && (forall r :: r in own ==> r.rowid <= mark.maxRowid && r.stamp <= mark.maxStamp.value)
              && (own != {} ==> exists r :: r in own && r.rowid == mark.maxRowid)
              && (own != {} ==> exists r :: r in own && r.stamp == mark.maxStamp.value)
  {
    assert RowsOf(rows, t) == set r | r in rows && r.table == t;
  }

  // ---------------------------------------------------------------- retention policy

  function Cutoff(t: Table, p: Params, now: Time): Time {
    match t
    case Nonces => now
    case Idempotency => now - p.idempotencyDays * DAY
    case ToolAudit => now - p.toolAuditDays * DAY
    case Outbox => now - p.alertDeliveryDays * DAY
    case Receipts => now - p.alertDeliveryDays * DAY
    case Events => now - p.eventDays * DAY
  }

  predicate Candidate(r: Row, p: Params, now: Time) {
    r.stamp <= Cutoff(r.table, p, now) && (r.table == Outbox ==> r.terminal)
  }

  function Candidates(rows: set<Row>, p: Params, now: Time): set<Row> {
    set r | r in rows && Candidate(r, p, now)
  }

  predicate Deletes(t: Table, p: Params) {
    t == Events ==> p.includeEvents
  }

  function Deletable(rows: set<Row>, p: Params, now: Time): set<Row> {
    set r | r in rows && Candidate(r, p, now) && Deletes(r.table, p)
  }

  // Table by table, when a row is due to go: a window of days after its stamp, and never a delivery that
  // has not come to its end, nor an event unless events are included.
  predicate Outlived(r: Row, p: Params, now: Time) {
    match r.table
    case Nonces => r.stamp <= now
    case Idempotency => r.stamp + p.idempotencyDays * DAY <= now
    case ToolAudit => r.stamp + p.toolAuditDays * DAY <= now
    case Outbox => r.terminal && r.stamp + p.alertDeliveryDays * DAY <= now
    case Receipts => r.stamp + p.alertDeliveryDays * DAY <= now
    case Events => p.includeEvents && r.stamp + p.eventDays * DAY <= now
  }

  // Counted without regard to whether events are included.
  predicate Due(r: Row, p: Params, now: Time) {
    Outlived(r, p.(includeEvents := true), now)
  }

  lemma DeletableIff(rows: set<Row>, p: Params, now: Time)
    ensures forall r :: r in Deletable(rows, p, now) <==> r in rows && Outlived(r, p, now)
  {
  }

  lemma CandidatesAreDue(rows: set<Row>, p: Params, now: Time)
    ensures Candidates(rows, p, now) == set r | r in rows && Due(r, p, now)
  {
  }

  datatype Action = DryRun | Deleted | Skipped

  datatype TableReport = TableReport(
    table: Table,
    cutoff: Time,
    candidateCount: nat,
    deletedCount: nat,
    action: Action)

  function TableReportOf(rows: set<Row>, t: Table, p: Params, now: Time, dryRun: bool): TableReport {
    var found := |RowsOf(Candidates(rows, p, now), t)|;
    if !Deletes(t, p) then TableReport(t, Cutoff(t, p, now), found, 0, Skipped)
    else TableReport(t, Cutoff(t, p, now), found, if dryRun then 0 else found, if dryRun then DryRun else Deleted)
  }

  function Reports(rows: set<Row>, p: Params, now: Time, dryRun: bool): seq<TableReport> {
    seq(|TABLES|, i requires 0 <= i < |TABLES| => TableReportOf(rows, TABLES[i], p, now, dryRun))
  }

  /** A table's report counts the rows that are due, and says that all of them go unless the run is dry or
      the table is skipped. */
  lemma ReportCounts(rows: set<Row>, t: Table, p: Params, now: Time, dryRun: bool)
    ensures var report := TableReportOf(rows, t, p, now, dryRun);
            && report.table == t
            && report.candidateCount == |set r | r in rows && r.table == t && Due(r, p, now)|
            && report.deletedCount == (if dryRun || (t == Events && !p.includeEvents) then 0 else report.candidateCount)
            && (report.action == Skipped <==> t == Events && !p.includeEvents)
            && (report.action == DryRun <==> dryRun && (t == Events ==> p.includeEvents))
            && forall r: Row :: r.table == t && (t == Outbox ==> r.terminal) ==>
                 (r.stamp <= report.cutoff <==> Due(r, p, now))
  {
    CandidatesAreDue(rows, p, now);
    assert RowsOf(Candidates(rows, p, now), t) == set r | r in rows && r.table == t && Due(r, p, now);
  }

  /** The store object: one connection's view of the tables. */
  class SQLiteEventStore {
    var rows: set<Row>

    constructor (initial: set<Row>)
      ensures rows == initial
    {
      rows := initial;
    }

    // Counts one table's candidates and, unless this is a dry run, deletes them.
    method RetentionTableReport(t: Table, p: Params, now: Time, dryRun: bool) returns (report: TableReport)
      requires Deletes(t, p)
      modifies this
      ensures report == TableReportOf(old(rows), t, p, now, dryRun)
      ensures rows == if dryRun then old(rows) else old(rows) - RowsOf(Candidates(old(rows), p, now), t)
    {
      var found := RowsOf(Candidates(rows, p, now), t);
      var deleted := 0;
      if !dryRun && |found| > 0 {
        rows := rows - found;
        deleted := |found|;
      }
      report := TableReport(t, Cutoff(t, p, now), |found|, deleted, if dryRun then DryRun else Deleted);
    }

    // One table's turn: events may only be counted.
    method VisitTable(t: Table, p: Params, now: Time, dryRun: bool) returns (report: TableReport)
      modifies this
      ensures report == TableReportOf(old(rows), t, p, now, dryRun)
      ensures rows == if dryRun || !Deletes(t, p) then old(rows)
              else old(rows) - RowsOf(Candidates(old(rows), p, now), t)
      ensures report.deletedCount == |old(rows)| - |rows|
    {
      if Deletes(t, p) {
        report := RetentionTableReport(t, p, now, dryRun);
        assert RowsOf(Candidates(old(rows), p, now), t) <= old(rows);
      } else {
        report := TableReport(t, Cutoff(t, p, now), |RowsOf(Candidates(rows, p, now), t)|, 0, Skipped);
      }
    }

    // Visits the tables in order; each visit sees what the earlier ones left behind.
    method VisitTables(p: Params, now: Time, dryRun: bool)
        returns (tables: seq<TableReport>, totalCandidates: nat, totalDeleted: nat)
      modifies this
      ensures rows == AfterVisits(old(rows), p, now, dryRun, |TABLES|)
      ensures tables == Reports(old(rows), p, now, dryRun)
      ensures totalCandidates == |VisitedCandidates(old(rows), p, now, |TABLES|)|
      ensures totalDeleted == |old(rows)| - |rows|
    {
      ghost var before := rows;
      tables, totalCandidates, totalDeleted := [], 0, 0;
      for i := 0 to |TABLES|
        invariant |tables| == i
        invariant forall k :: 0 <= k < i ==> tables[k] == TableReportOf(before, TABLES[k], p, now, dryRun)
        invariant rows == AfterVisits(before, p, now, dryRun, i)
        invariant totalCandidates == |VisitedCandidates(before, p, now, i)|
        invariant totalDeleted == |before| - |rows|
      {
        var t := TABLES[i];
        TableAt(i);
        VisitStep(before, t, p, now, dryRun);
        VisitReport(before, t, p, now, dryRun);
        VisitCount(before, t, p, now);
        var report := VisitTable(t, p, now, dryRun);
        tables := tables + [report];
        totalCandidates := totalCandidates + report.candidateCount;
        totalDeleted := totalDeleted + report.deletedCount;
      }
    }

    method ApplyRetentionPolicy(p: Params, now: Time, dryRun: bool)
        returns (tables: seq<TableReport>, totalCandidates: nat, totalDeleted: nat)
      modifies this
      ensures rows == if dryRun then old(rows) else old(rows) - Deletable(old(rows), p, now)
      ensures forall r :: r in rows <==> r in old(rows) && (dryRun || !Outlived(r, p, now))
      ensures forall r :: r in old(rows) && r.table == Outbox && !r.terminal ==> r in rows
      ensures tables == Reports(old(rows), p, now, dryRun)
      ensures totalCandidates == |Candidates(old(rows), p, now)| == |set r | r in old(rows) && Due(r, p, now)|
      ensures totalDeleted == |old(rows)| - |rows|
    {
      AllVisited(rows, p, now, dryRun);
      tables, totalCandidates, totalDeleted := VisitTables(p, now, dryRun);
    }
  }

  lemma TableAt(i: nat)
    requires i < |TABLES|
    ensures Position(TABLES[i]) == i
  {
  }

  // A table's report does not depend on the tables visited before it.
  lemma VisitReport(rows: set<Row>, t: Table, p: Params, now: Time, dryRun: bool)
    ensures TableReportOf(AfterVisits(rows, p, now, dryRun, Position(t)), t, p, now, dryRun)
         == TableReportOf(rows, t, p, now, dryRun)
  {
    VisitStep(rows, t, p, now, dryRun);
  }

  function VisitedCandidates(rows: set<Row>, p: Params, now: Time, i: nat): set<Row>
    requires i <= |TABLES|
  {
    set r | r in rows && Candidate(r, p, now) && Position(r.table) < i
  }

  function AfterVisits(rows: set<Row>, p: Params, now: Time, dryRun: bool, i: nat): set<Row>
    requires i <= |TABLES|
  {
    if dryRun then rows
        else set r | r in rows && !(Candidate(r, p, now) && Deletes(r.table, p) && Position(r.table) < i)
  }

  lemma PositionInjective(s: Table, t: Table)
    requires Position(s) == Position(t)
    ensures s == t
  {
  }

  // Earlier visits do not disturb a later table's candidates.
  lemma VisitStep(rows: set<Row>, t: Table, p: Params, now: Time, dryRun: bool)
    ensures RowsOf(Candidates(AfterVisits(rows, p, now, dryRun, Position(t)), p, now), t)
         == RowsOf(Candidates(rows, p, now), t)
         <= AfterVisits(rows, p, now, dryRun, Position(t))
    ensures AfterVisits(rows, p, now, dryRun, Position(t) + 1)
         == if dryRun || !Deletes(t, p) then AfterVisits(rows, p, now, dryRun, Position(t))
            else AfterVisits(rows, p, now, dryRun, Position(t)) - RowsOf(Candidates(rows, p, now), t)
  {
    forall r: Row | Position(r.table) == Position(t) ensures r.table == t { PositionInjective(r.table, t); }
  }

  lemma VisitCount(rows: set<Row>, t: Table, p: Params, now: Time)
    ensures |VisitedCandidates(rows, p, now, Position(t) + 1)|
         == |VisitedCandidates(rows, p, now, Position(t))| + |RowsOf(Candidates(rows, p, now), t)|
  {
    var visited := VisitedCandidates(rows, p, now, Position(t));
    var found := RowsOf(Candidates(rows, p, now), t);
    forall r: Row | Position(r.table) == Position(t) ensures r.table == t { PositionInjective(r.table, t); }
    assert visited !! found;
    assert VisitedCandidates(rows, p, now, Position(t) + 1) == visited + found;
  }

  lemma AllVisited(rows: set<Row>, p: Params, now: Time, dryRun: bool)
    ensures VisitedCandidates(rows, p, now, |TABLES|) == Candidates(rows, p, now)
    ensures Candidates(rows, p, now) == set r | r in rows && Due(r, p, now)
    ensures AfterVisits(rows, p, now, dryRun, |TABLES|) == if dryRun then rows else rows - Deletable(rows, p, now)
    ensures forall r :: r in AfterVisits(rows, p, now, dryRun, |TABLES|) <==>
              r in rows && (dryRun || !Outlived(r, p, now))
    ensures forall r :: r in rows && r.table == Outbox && !r.terminal ==>
            r in AfterVisits(rows, p, now, dryRun, |TABLES|)
  {
    DeletableIff(rows, p, now);
    CandidatesAreDue(rows, p, now);
  }
}
