/** How the store's rows change over time, and why high-water marks identify them. */
module StoreHistory {
  import opened EventStore
  import opened Wrappers

  /** The store at one instant. `nextWrite` numbers the next insert or update; `lastWrite` is, per
      table, a time no stamp in that table has passed. */
  datatype Db = Db(rows: set<Row>, clock: Time, nextWrite: nat, lastWrite: map<Table, Time>)

  ghost predicate WellFormed(db: Db) {
    && (forall t: Table :: t in db.lastWrite && db.lastWrite[t] <= db.clock)
    && (forall r :: r in db.rows ==> r.write < db.nextWrite)
    && (forall r :: r in db.rows && Marked(r.table) ==> r.stamp <= db.lastWrite[r.table])
    && (forall q, r :: q in db.rows && r in db.rows && q.table == r.table && AppendOnly(r.table) && q.stamp < r.stamp
          ==> q.rowid < r.rowid)
    && UniqueRowids(db.rows)
  }

  // A rowid names at most one row of a marked table.
  predicate UniqueRowids(rows: set<Row>) {
    forall q, r :: q in rows && r in rows && Marked(r.table) && q.table == r.table && q.rowid == r.rowid ==> q == r
  }

  // ---------------------------------------------------------------- steps

  /** Each write to a table updated in place reads the clock after every earlier write to that table. The
      two append-only tables may see several inserts carrying one timestamp. */
  predicate MayWrite(db: Db, t: Table) {
    t in db.lastWrite && (if AppendOnly(t) then db.lastWrite[t] <= db.clock else db.lastWrite[t] < db.clock)
  }

  function Written(db: Db, rows: set<Row>, t: Table): Db {
    Db(rows, db.clock, db.nextWrite + 1, db.lastWrite[t := db.clock])
  }

  ghost predicate Tick(db: Db, db': Db) {
    db.clock <= db'.clock && db' == db.(clock := db'.clock)
  }

  // An insert takes a rowid above those still present, so a rowid freed by a delete can come back.
  ghost predicate Insert(db: Db, db': Db, t: Table, rowid: nat, terminal: bool) {
    && Marked(t) && MayWrite(db, t)
    && (forall r :: r in db.rows && r.table == t ==> r.rowid < rowid)
    && db' == Written(db, db.rows + {Row(t, db.nextWrite, rowid, db.clock, terminal)}, t)
  }

  // The new versions an update statement gives the rows it touches: one instant, one status.
  function Updated(batch: set<Row>, write: nat, stamp: Time, terminal: bool): set<Row> {
    set r | r in batch :: Row(r.table, write, r.rowid, stamp, terminal)
  }

  // An update in place of any number of rows of one table: a claim of all deliveries that are due, an
  // attempt or operator action on one, a repeated receipt, a claim or completion of an idempotency key.
  ghost predicate Touch(db: Db, db': Db, t: Table, batch: set<Row>, terminal: bool) {
    && Marked(t) && !AppendOnly(t) && MayWrite(db, t) && batch <= RowsOf(db.rows, t)
    && db' == Written(db, db.rows - batch + Updated(batch, db.nextWrite, db.clock, terminal), t)
  }

  // The release of an idempotency key deletes its row, and writes no timestamp.
  ghost predicate Release(db: Db, db': Db, r: Row) {
    r in db.rows && r.table == Idempotency && db' == db.(rows := db.rows - {r})
  }

  // Reserving a request nonce first clears the expired ones.
  function UnexpiredNonces(db: Db): set<Row> {
    set r | r in db.rows && (r.table == Nonces ==> r.stamp > db.clock)
  }

  // The new row may expire at any time.
  ghost predicate ReserveNonce(db: Db, db': Db, rowid: nat, expires: Time) {
    && Nonces in db.lastWrite
    && db' == Written(db, UnexpiredNonces(db) + {Row(Nonces, db.nextWrite, rowid, expires, false)}, Nonces)
  }

  // A nonce seen before is refused, and the clearing is committed all the same.
  ghost predicate RefuseNonce(db: Db, db': Db) {
    db' == db.(rows := UnexpiredNonces(db))
  }

  ghost predicate ApplyPolicy(db: Db, db': Db, p: Params, now: Time) {
    && WindowsAtLeastOneDay(p) && now <= db.clock
    && db' == db.(rows := db.rows - Deletable(db.rows, p, now))
  }

  // Everything that may happen to the store outside a retention apply.
  ghost predicate Ordinary(db: Db, db': Db) {
    || Tick(db, db')
    || (exists t, rowid, terminal :: Insert(db, db', t, rowid, terminal))
    || (exists t, batch, terminal :: Touch(db, db', t, batch, terminal))
    || (exists r :: Release(db, db', r))
    || (exists rowid, expires :: ReserveNonce(db, db', rowid, expires))
    || RefuseNonce(db, db')
  }

  ghost predicate DbStep(db: Db, db': Db) {
    Ordinary(db, db') || exists p, now :: ApplyPolicy(db, db', p, now)
  }

  // ---------------------------------------------------------------- the past of a store

  // Row r shows up in a mark taken over `before`: its stamp or its rowid is a new maximum.
  ghost predicate Exceeds(r: Row, before: set<Row>) {
    || (forall q :: q in before && q.table == r.table ==> q.stamp < r.stamp)
    || (forall q :: q in before && q.table == r.table ==> q.rowid < r.rowid)
  }

  /** `b` is a later state of `a`: old row versions in b were already in a, newer ones in marked
      tables carry a later stamp and would move a mark, and append-only rows as young as b's clock
      have not gone away. */
  ghost predicate Later(a: Db, b: Db) {
    && a.clock <= b.clock && a.nextWrite <= b.nextWrite
    && (forall t: Table :: t in a.lastWrite && t in b.lastWrite && a.lastWrite[t] <= b.lastWrite[t])
    && (forall r :: r in b.rows && r.write < a.nextWrite ==> r in a.rows)
    && (forall r :: r in b.rows && r.write >= a.nextWrite && Marked(r.table) ==>
        r.stamp >= a.clock && Exceeds(r, a.rows))
    && (forall q :: q in a.rows && AppendOnly(q.table) && q.stamp == b.clock ==> q in b.rows)
  }

  lemma LaterRefl(a: Db)
    requires WellFormed(a)
    ensures Later(a, a)
  {
  }

  // The row that a write at b adds would move any mark taken earlier, at a.
  lemma NewRowExceeds(a: Db, b: Db, r: Row)
    requires WellFormed(a) && WellFormed(b) && Later(a, b)
    requires Marked(r.table) && r.stamp == b.clock && MayWrite(b, r.table)
    requires AppendOnly(r.table) ==> forall q :: q in b.rows && q.table == r.table ==> q.rowid < r.rowid
    ensures Exceeds(r, a.rows)
  {
    if top :| top in a.rows && top.table == r.table && top.stamp >= r.stamp {
      // Then the clock has not moved since a, and only an append-only table may be written again.
      assert top.stamp == a.clock == b.clock && AppendOnly(r.table) && top in b.rows;
      forall q | q in a.rows && q.table == r.table
        ensures q.rowid < r.rowid
      {
        if q.stamp < top.stamp {
          assert q.rowid < top.rowid < r.rowid;
        } else {
          assert q in b.rows;
        }
      }
    }
  }

  lemma StepInsert(a: Db, b: Db, c: Db, t: Table, rowid: nat, terminal: bool)
    requires WellFormed(a) && WellFormed(b) && Later(a, b) && Insert(b, c, t, rowid, terminal)
    ensures WellFormed(c) && Later(a, c)
  {
    NewRowExceeds(a, b, Row(t, b.nextWrite, rowid, b.clock, terminal));
  }

  lemma UpdatedKeepsRowids(rows: set<Row>, t: Table, batch: set<Row>, write: nat, stamp: Time, terminal: bool)
    requires UniqueRowids(rows) && batch <= RowsOf(rows, t)
    ensures UniqueRowids(rows - batch + Updated(batch, write, stamp, terminal))
  {
    var rows' := rows - batch + Updated(batch, write, stamp, terminal);
    forall q, r | q in rows' && r in rows' && Marked(r.table) && q.table == r.table && q.rowid == r.rowid
      ensures q == r
    {
      var q0 := OldVersion(rows, t, batch, write, stamp, terminal, q);
      var r0 := OldVersion(rows, t, batch, write, stamp, terminal, r);
      assert q0 == r0;
    }
  }

  // What a row was before an update.
  lemma OldVersion(rows: set<Row>, t: Table, batch: set<Row>, write: nat, stamp: Time, terminal: bool, q: Row)
      returns (q0: Row)
    requires batch <= RowsOf(rows, t) && q in rows - batch + Updated(batch, write, stamp, terminal)
    ensures q0 in rows && q0.table == q.table && q0.rowid == q.rowid
    ensures q == if q0 in batch then Row(q0.table, write, q0.rowid, stamp, terminal) else q0
  {
    if q in Updated(batch, write, stamp, terminal) {
      q0 :| q0 in batch && q == Row(q0.table, write, q0.rowid, stamp, terminal);
    } else {
      q0 := q;
    }
  }

  lemma UpdatedSplit(batch: set<Row>, r: Row, write: nat, stamp: Time, terminal: bool)
    requires r in batch
    ensures Updated(batch, write, stamp, terminal)
         == Updated(batch - {r}, write, stamp, terminal) + {Row(r.table, write, r.rowid, stamp, terminal)}
  {
  }

  // An update loses no row: there are as many new versions as rows touched.
  lemma {:induction false} UpdatedCount(batch: set<Row>, write: nat, stamp: Time, terminal: bool)
    requires UniqueRowids(batch) && forall r :: r in batch ==> Marked(r.table)
    ensures |Updated(batch, write, stamp, terminal)| == |batch|
    decreases |batch|
  {
    if batch == {} {
      assert Updated(batch, write, stamp, terminal) == {};
    } else {
      var r :| r in batch;
      UpdatedCount(batch - {r}, write, stamp, terminal);
      UpdatedSplit(batch, r, write, stamp, terminal);
    }
  }

  lemma TouchKeepsWellFormed(b: Db, c: Db, t: Table, batch: set<Row>, terminal: bool)
    requires WellFormed(b) && Touch(b, c, t, batch, terminal)
    ensures WellFormed(c)
  {
    UpdatedKeepsRowids(b.rows, t, batch, b.nextWrite, b.clock, terminal);
    forall r | r in c.rows ensures r in b.rows || (r.table == t && r.stamp == b.clock && r.write == b.nextWrite) {
      var r0 := OldVersion(b.rows, t, batch, b.nextWrite, b.clock, terminal, r);
    }
  }

  lemma StepTouch(a: Db, b: Db, c: Db, t: Table, batch: set<Row>, terminal: bool)
    requires WellFormed(a) && WellFormed(b) && Later(a, b) && Touch(b, c, t, batch, terminal)
    ensures WellFormed(c) && Later(a, c)
  {
    TouchKeepsWellFormed(b, c, t, batch, terminal);
    forall r | r in c.rows
      ensures r in b.rows || (r.write == b.nextWrite && r.stamp == b.clock && Exceeds(r, a.rows))
    {
      var r0 := OldVersion(b.rows, t, batch, b.nextWrite, b.clock, terminal, r);
      if r0 in batch {
        NewRowExceeds(a, b, r);
      }
    }
  }

  lemma StepApply(a: Db, b: Db, c: Db, p: Params, now: Time)
    requires WellFormed(a) && WellFormed(b) && Later(a, b) && ApplyPolicy(b, c, p, now)
    ensures WellFormed(c) && Later(a, c)
  {
    forall t: Table ensures t == Nonces || Cutoff(t, p, now) < b.clock { CutoffIsOld(t, p, now); }
  }

  lemma CutoffIsOld(t: Table, p: Params, now: Time)
    requires WindowsAtLeastOneDay(p)
    ensures t == Nonces || Cutoff(t, p, now) <= now - DAY
  {
  }

  lemma StepReserveNonce(a: Db, b: Db, c: Db, rowid: nat, expires: Time)
    requires WellFormed(a) && WellFormed(b) && Later(a, b) && ReserveNonce(b, c, rowid, expires)
    ensures WellFormed(c) && Later(a, c)
  {
  }

  lemma StepRefuseNonce(a: Db, b: Db, c: Db)
    requires WellFormed(a) && WellFormed(b) && Later(a, b) && RefuseNonce(b, c)
    ensures WellFormed(c) && Later(a, c)
  {
  }

  lemma StepRelease(a: Db, b: Db, c: Db, r: Row)
    requires WellFormed(a) && WellFormed(b) && Later(a, b) && Release(b, c, r)
    ensures WellFormed(c) && Later(a, c)
  {
  }

  lemma StepTick(a: Db, b: Db, c: Db)
    requires WellFormed(a) && WellFormed(b) && Later(a, b) && Tick(b, c)
    ensures WellFormed(c) && Later(a, c)
  {
    assert forall q :: q in a.rows && AppendOnly(q.table) ==> q.stamp <= a.clock;
  }

  lemma StepOrdinary(a: Db, b: Db, c: Db)
    requires WellFormed(a) && WellFormed(b) && Later(a, b) && Ordinary(b, c)
    ensures WellFormed(c) && Later(a, c)
  {
    if t, rowid, terminal :| Insert(b, c, t, rowid, terminal) {
      StepInsert(a, b, c, t, rowid, terminal);
    } else if t, batch, terminal :| Touch(b, c, t, batch, terminal) {
      StepTouch(a, b, c, t, batch, terminal);
    } else if r :| Release(b, c, r) {
      StepRelease(a, b, c, r);
    } else if rowid, expires :| ReserveNonce(b, c, rowid, expires) {
      StepReserveNonce(a, b, c, rowid, expires);
    } else if RefuseNonce(b, c) {
      StepRefuseNonce(a, b, c);
    } else {
      StepTick(a, b, c);
    }
  }

  // ---------------------------------------------------------------- marks identify rows

  lemma ExceedingRowMovesMark(before: set<Row>, after: set<Row>, r: Row)
    requires r in after && Exceeds(r, before)
    ensures MarkOf(before, r.table) != MarkOf(after, r.table)
  {
    var was, now_ := RowsOf(before, r.table), RowsOf(after, r.table);
    assert r in now_;
    if was != {} {
      var top :| top in was && top.stamp == MaxStamp(was).value;
      var last :| last in was && last.rowid == MaxRowid(was);
    }
  }

  // Two moments of one run with the same mark on a table hold exactly the same row versions in it.
  lemma MarkIdentifiesTable(a: Db, b: Db, t: Table)
    requires WellFormed(a) && WellFormed(b) && Later(a, b)
    requires Marked(t) && MarkOf(a.rows, t) == MarkOf(b.rows, t)
    ensures RowsOf(a.rows, t) == RowsOf(b.rows, t)
  {
    var was, now_ := RowsOf(a.rows, t), RowsOf(b.rows, t);
    forall r | r in now_
      ensures r in was
    {
      if r.write >= a.nextWrite {
        ExceedingRowMovesMark(a.rows, b.rows, r);
      }
    }
    SubsetOfSameSize(now_, was);
  }

  lemma SubsetOfSameSize<T>(s: set<T>, t: set<T>)
    requires s <= t && |s| == |t|
    ensures s == t
  {
    if s != t {
      var x :| x in t && x !in s;
      assert s <= t - {x};
      SubsetSize(s, t - {x});
    }
  }

  lemma SubsetSize<T>(s: set<T>, t: set<T>)
    requires s <= t
    ensures |s| <= |t|
  {
    assert t == s + (t - s);
  }

  lemma {:induction false} MarksIdentifyRows(a: Db, b: Db)
    requires WellFormed(a) && WellFormed(b) && Later(a, b)
    ensures HighWater(a.rows) == HighWater(b.rows) <==> MarkedRows(a.rows) == MarkedRows(b.rows)
  {
    if HighWater(a.rows) == HighWater(b.rows) {
      forall t: Table | Marked(t)
        ensures RowsOf(a.rows, t) == RowsOf(b.rows, t)
      {
        assert HighWater(a.rows)[t] == HighWater(b.rows)[t];
        MarkIdentifiesTable(a, b, t);
      }
      forall r: Row ensures r in MarkedRows(a.rows) <==> r in MarkedRows(b.rows) {
        if Marked(r.table) {
          assert r in RowsOf(a.rows, r.table) <==> r in RowsOf(b.rows, r.table);
        }
      }
    }
    if MarkedRows(a.rows) == MarkedRows(b.rows) {
      SameRowsSameMarks(a.rows, b.rows);
    }
  }

  lemma SameRowsSameMarks(a: set<Row>, b: set<Row>)
    requires MarkedRows(a) == MarkedRows(b)
    ensures HighWater(a) == HighWater(b)
  {
    forall t: Table | Marked(t)
      ensures MarkOf(a, t) == MarkOf(b, t)
    {
      forall r: Row ensures r in RowsOf(a, t) <==> r in RowsOf(b, t) {
        assert r.table == t ==> (r in MarkedRows(a) <==> r in MarkedRows(b));
      }
      assert RowsOf(a, t) == RowsOf(b, t);
    }
  }

  lemma MaxRowidIs(rows: set<Row>, r: Row)
    requires r in rows && forall q :: q in rows ==> q.rowid <= r.rowid
    ensures MaxRowid(rows) == r.rowid
  {
  }

  lemma MaxStampIs(rows: set<Row>, r: Row)
    requires r in rows && forall q :: q in rows ==> q.stamp <= r.stamp
    ensures MaxStamp(rows) == Some(r.stamp)
  {
  }

  // Bounds on rowid and stamp survive swapping a row for one of the same rowid and stamp.
  lemma SwapKeepsBounds(rows: set<Row>, r: Row, r': Row, rowid: nat, stamp: Time)
    requires r in rows && r'.rowid == r.rowid && r'.stamp == r.stamp
    requires forall q :: q in rows ==> q.rowid <= rowid && q.stamp <= stamp
    ensures forall q :: q in rows - {r} + {r'} ==> q.rowid <= rowid && q.stamp <= stamp
  {
  }

  lemma MaximaOf(rows: set<Row>) returns (last: Row, top: Row)
    requires rows != {}
    ensures last in rows && top in rows && MaxRowid(rows) == last.rowid && MaxStamp(rows) == Some(top.stamp)
    ensures forall q :: q in rows ==> q.rowid <= last.rowid && q.stamp <= top.stamp
  {
    last :| last in rows && last.rowid == MaxRowid(rows);
    top :| top in rows && top.stamp == MaxStamp(rows).value;
  }

  lemma SwapKeepsMaxima(rows: set<Row>, r: Row, r': Row)
    requires r in rows && r'.rowid == r.rowid && r'.stamp == r.stamp
    ensures MaxRowid(rows - {r} + {r'}) == MaxRowid(rows) && MaxStamp(rows - {r} + {r'}) == MaxStamp(rows)
  {
    var last, top := MaximaOf(rows);
    SwapKeepsBounds(rows, r, r', last.rowid, top.stamp);
    MaxRowidIs(rows - {r} + {r'}, if last == r then r' else last);
    MaxStampIs(rows - {r} + {r'}, if top == r then r' else top);
  }

  lemma SwapInTable(rows: set<Row>, r: Row, r': Row, t: Table)
    requires r in rows && r'.table == r.table
    ensures RowsOf(rows - {r} + {r'}, t) == if t == r.table then RowsOf(rows, t) - {r} + {r'} else RowsOf(rows, t)
  {
  }

  /** An update that leaves the stamp as it was, which two writes within one clock reading would do, moves
      no mark: this is why in-place updates are taken to come at later instants. */
  lemma SameInstantUpdateIsInvisible(rows: set<Row>, r: Row, r': Row)
    requires r in rows && r' !in rows && r'.table == r.table && r'.rowid == r.rowid && r'.stamp == r.stamp
    ensures HighWater(rows - {r} + {r'}) == HighWater(rows)
  {
    forall t: Table | Marked(t) ensures MarkOf(rows - {r} + {r'}, t) == MarkOf(rows, t) {
      SwapInTable(rows, r, r', t);
      if t == r.table {
        SwapKeepsMark(RowsOf(rows, t), r, r');
      }
    }
  }

  lemma SwapKeepsMark(own: set<Row>, r: Row, r': Row)
    requires r in own && r' !in own && r'.rowid == r.rowid && r'.stamp == r.stamp
    ensures |own - {r} + {r'}| == |own|
    ensures MaxRowid(own - {r} + {r'}) == MaxRowid(own) && MaxStamp(own - {r} + {r'}) == MaxStamp(own)
  {
    SwapKeepsMaxima(own, r, r');
  }
}
