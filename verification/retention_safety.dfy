/** What the guarded retention protocol guarantees over every run. */
module RetentionSafety {
  import opened EventStore
  import opened StoreHistory
  import opened RetentionGuard
  import opened Wrappers

  // ---------------------------------------------------------------- the invariant holds in every run

  // What a request that passes the checks before the store is read has established.
  lemma GuardPassed(cfg: Config, signed: set<Payload>, files: set<string>, actor: string, req: ApplyRequest)
    requires RefuseRequest(cfg, signed, files, actor, req) == None
    ensures req.backup.Carries? && req.backup.payload.BackupToken?
    ensures req.drill.Carries? && req.drill.payload.DrillToken?
    ensures req.preview.Carries? && req.preview.payload.PreviewToken?
    ensures req.drill.payload.path == req.backup.payload.path && req.backup.payload.path in files
    ensures req.drill.payload.marks == req.backup.payload.marks == req.preview.payload.marks
    ensures req.preview.payload.params == req.params
  {
  }

  lemma BoundAtMarkCheck(cfg: Config, s: Sys, d: Drilled, p: Previewed)
    requires Inv(cfg, s) && d in s.drills && p in s.previews
    requires d.token.DrillToken? && p.token.PreviewToken?
    requires d.token.marks == p.token.marks == HighWater(s.db.rows)
    ensures BoundOk(cfg, d, p, s.db, s)
  {
    assert DrilledOk(d, s) && PreviewedOk(cfg, p, s);
    MarksIdentifyRows(d.copy, s.db);
    LaterRefl(s.db);
  }

  lemma ApplyMarkKeepsInv(cfg: Config, s: Sys, actor: string, req: ApplyRequest, d: Drilled, p: Previewed, s': Sys)
    requires Inv(cfg, s) && NextApplyMark(cfg, s, actor, req, d, p, s')
    ensures Inv(cfg, s') && BoundOk(cfg, d, p, s.db, s)
  {
    GuardPassed(cfg, s.signed, s.files.Keys, actor, req);
    BoundAtMarkCheck(cfg, s, d, p);
    PendingKeepsInv(cfg, s, s', ApplyMarked(d, p, s.db));
  }

  lemma DrillKeepsInv(cfg: Config, s: Sys, actor: string, backup: Presented, s': Sys)
    requires Inv(cfg, s) && NextDrill(cfg, s, actor, backup, s')
    ensures Inv(cfg, s')
  {
    var copy := s.files[backup.payload.path];
    var d := Drilled(DrillTokenFor(cfg, actor, backup.payload, copy), copy);
    assert PastOf(copy, s);
    SigningKeepsInv(cfg, s, s', d, Previewed(d.token, copy));
  }

  lemma PreviewSignKeepsInv(cfg: Config, s: Sys, pd: Pending, s': Sys)
    requires Inv(cfg, s) && NextPreviewSign(cfg, s, pd, s')
    ensures Inv(cfg, s')
  {
    assert PendingOk(cfg, pd, s);
    var p := Previewed(PreviewTokenNow(cfg, s.db, pd), pd.reported);
    SigningKeepsInv(cfg, s, s', Drilled(p.token, s.db), p);
  }

  lemma ApplyCheckKeepsInv(cfg: Config, s: Sys, pd: Pending, s': Sys)
    requires Inv(cfg, s) && NextApplyCheck(cfg, s, pd, s')
    ensures Inv(cfg, s')
  {
    LaterRefl(s.db);
    assert PendingOk(cfg, pd, s);
    PendingKeepsInv(cfg, s, s', ApplyChecked(pd.drilled, pd.previewed, pd.marked, s.db));
  }

  lemma BackupSignKeepsInv(cfg: Config, s: Sys, token: Payload, s': Sys)
    requires Inv(cfg, s) && s' == s.(signed := s.signed + {token})
    ensures Inv(cfg, s')
  {
    forall x | DrilledOk(x, s) ensures DrilledOk(x, s') {}
    forall x | PreviewedOk(cfg, x, s) ensures PreviewedOk(cfg, x, s') {}
    forall pd | PendingOk(cfg, pd, s) ensures PendingOk(cfg, pd, s') {}
  }

  // Only these steps move the store, and each moves it by one store step.
  lemma StoreMoves(cfg: Config, s: Sys, step: Step, s': Sys)
    requires Next(cfg, s, step, s')
    ensures s'.db == s.db || DbStep(s.db, s'.db)
    ensures step.StoreStep? || step.ApplyDelete? ==> DbStep(s.db, s'.db) && s' == s.(db := s'.db)
  {
    if step.ApplyDelete? {
      assert ApplyPolicy(s.db, s'.db, step.pd.previewed.token.params, step.pd.previewed.token.now);
    }
  }

  lemma NextKeepsInv(cfg: Config, s: Sys, step: Step, s': Sys)
    requires Inv(cfg, s) && Next(cfg, s, step, s')
    ensures Inv(cfg, s')
  {
    StoreMoves(cfg, s, step, s');
    match step
    case StoreStep => StoreStepKeepsInv(cfg, s, s');
    case BackupCopy(actor, path) => BackupCopyKeepsInv(cfg, s, actor, path, s');
    case BackupSign(pd) => BackupSignKeepsInv(cfg, s, BackupTokenNow(cfg, s.db, pd), s');
    case RunDrill(actor, backup) => DrillKeepsInv(cfg, s, actor, backup, s');
    case PreviewReport(actor, params, now) =>
      LaterRefl(s.db);
      PendingKeepsInv(cfg, s, s', PreviewReported(actor, params, now, s.db));
    case PreviewSign(pd) => PreviewSignKeepsInv(cfg, s, pd, s');
    case ApplyMark(actor, req, d, p) => ApplyMarkKeepsInv(cfg, s, actor, req, d, p, s');
    case ApplyCheck(pd) => ApplyCheckKeepsInv(cfg, s, pd, s');
    case ApplyDelete(pd) => StoreStepKeepsInv(cfg, s, s');
  }

  lemma {:induction false} RunKeepsInv(cfg: Config, states: seq<Sys>, steps: seq<Step>, i: nat)
    requires IsRun(cfg, states, steps) && i < |states|
    ensures Inv(cfg, states[i])
  {
    if i > 0 {
      RunKeepsInv(cfg, states, steps, i - 1);
      assert StepAt(cfg, states, steps, i - 1);
      NextKeepsInv(cfg, states[i - 1], steps[i - 1], states[i]);
    }
  }

  lemma PastMovesOn(cfg: Config, a: Db, s: Sys, step: Step, s': Sys)
    requires Inv(cfg, s) && PastOf(a, s) && Next(cfg, s, step, s')
    ensures PastOf(a, s')
  {
    StoreMoves(cfg, s, step, s');
    if s'.db != s.db {
      DbStepKeepsPast(a, s.db, s'.db);
    }
  }

  lemma PastAgesOne(cfg: Config, a: Db, states: seq<Sys>, steps: seq<Step>, i: nat)
    requires IsRun(cfg, states, steps) && i < |steps| && PastOf(a, states[i])
    ensures PastOf(a, states[i + 1])
  {
    RunKeepsInv(cfg, states, steps, i);
    assert StepAt(cfg, states, steps, i);
    PastMovesOn(cfg, a, states[i], steps[i], states[i + 1]);
  }

  lemma {:induction false} PastAges(cfg: Config, a: Db, states: seq<Sys>, steps: seq<Step>, i: nat, j: nat)
    requires IsRun(cfg, states, steps) && i <= j < |states| && PastOf(a, states[i])
    ensures PastOf(a, states[j])
  {
    if i < j {
      PastAges(cfg, a, states, steps, i, j - 1);
      PastAgesOne(cfg, a, states, steps, j - 1);
    }
  }

  /** Two moments of one run have equal high-water marks exactly when they hold the same marked rows. */
  lemma SameMarksIffSameRows(cfg: Config, states: seq<Sys>, steps: seq<Step>, i: nat, j: nat)
    requires IsRun(cfg, states, steps) && i <= j < |states|
    ensures HighWater(states[i].db.rows) == HighWater(states[j].db.rows)
       <==> MarkedRows(states[i].db.rows) == MarkedRows(states[j].db.rows)
  {
    RunKeepsInv(cfg, states, steps, i);
    RunKeepsInv(cfg, states, steps, j);
    LaterRefl(states[i].db);
    PastAges(cfg, states[i].db, states, steps, i, j);
    MarksIdentifyRows(states[i].db, states[j].db);
  }

  // ---------------------------------------------------------------- no accepted request is left out

  // Behind every signed drill or preview token there is the drill or preview that produced it.
  ghost predicate Witnessed(s: Sys) {
    && (forall t :: t in s.signed && t.DrillToken? ==> exists d :: d in s.drills && d.token == t)
    && (forall t :: t in s.signed && t.PreviewToken? ==> exists p :: p in s.previews && p.token == t)
  }

  lemma SignedWitnessed(s: Sys, s': Sys, token: Payload)
    requires Witnessed(s) && s'.signed == s.signed + {token} && s.drills <= s'.drills && s.previews <= s'.previews
    requires token.DrillToken? ==> exists d :: d in s'.drills && d.token == token
    requires token.PreviewToken? ==> exists p :: p in s'.previews && p.token == token
    ensures Witnessed(s')
  {
    forall t | t in s'.signed && t.DrillToken? ensures exists d :: d in s'.drills && d.token == t {
      if t != token {
        var d :| d in s.drills && d.token == t;
        assert d in s'.drills;
      }
    }
    forall t | t in s'.signed && t.PreviewToken? ensures exists p :: p in s'.previews && p.token == t {
      if t != token {
        var p :| p in s.previews && p.token == t;
        assert p in s'.previews;
      }
    }
  }

  lemma DrillWitnessed(cfg: Config, s: Sys, actor: string, backup: Presented, s': Sys)
    requires Witnessed(s) && NextDrill(cfg, s, actor, backup, s')
    ensures Witnessed(s')
  {
    var copy := s.files[backup.payload.path];
    var token := DrillTokenFor(cfg, actor, backup.payload, copy);
    assert Drilled(token, copy) in s'.drills;
    SignedWitnessed(s, s', token);
  }

  lemma PreviewWitnessed(cfg: Config, s: Sys, pd: Pending, s': Sys)
    requires Witnessed(s) && NextPreviewSign(cfg, s, pd, s')
    ensures Witnessed(s')
  {
    var token := PreviewTokenNow(cfg, s.db, pd);
    assert Previewed(token, pd.reported) in s'.previews;
    SignedWitnessed(s, s', token);
  }

  lemma NextKeepsWitnessed(cfg: Config, s: Sys, step: Step, s': Sys)
    requires Witnessed(s) && Next(cfg, s, step, s')
    ensures Witnessed(s')
  {
    match step
    case StoreStep =>
    case BackupCopy(actor, path) =>
    case BackupSign(pd) => SignedWitnessed(s, s', BackupTokenNow(cfg, s.db, pd));
    case RunDrill(actor, backup) => DrillWitnessed(cfg, s, actor, backup, s');
    case PreviewReport(actor, params, now) =>
    case PreviewSign(pd) => PreviewWitnessed(cfg, s, pd, s');
    case ApplyMark(actor, req, d, p) =>
    case ApplyCheck(pd) =>
    case ApplyDelete(pd) =>
  }

  lemma {:induction false} RunKeepsWitnessed(cfg: Config, states: seq<Sys>, steps: seq<Step>, i: nat)
    requires IsRun(cfg, states, steps) && i < |states|
    ensures Witnessed(states[i])
  {
    if i > 0 {
      RunKeepsWitnessed(cfg, states, steps, i - 1);
      assert StepAt(cfg, states, steps, i - 1);
      NextKeepsWitnessed(cfg, states[i - 1], steps[i - 1], states[i]);
    }
  }

  /** Whatever request the guard accepts up to its mark check, in any state of any run, the model has the
      step for it. */
  lemma AcceptedRequestHasStep(cfg: Config, states: seq<Sys>, steps: seq<Step>, i: nat, actor: string,
                               req: ApplyRequest)
    returns (d: Drilled, p: Previewed, s': Sys)
    requires IsRun(cfg, states, steps) && i < |states|
    requires RefuseRequest(cfg, states[i].signed, states[i].files.Keys, actor, req) == None
    requires req.preview.Carries? && req.preview.payload.PreviewToken?
    requires HighWater(states[i].db.rows) == req.preview.payload.marks
    ensures Next(cfg, states[i], ApplyMark(actor, req, d, p), s')
  {
    var s := states[i];
    RunKeepsWitnessed(cfg, states, steps, i);
    GuardPassed(cfg, s.signed, s.files.Keys, actor, req);
    assert req.drill.payload in s.signed && req.preview.payload in s.signed;
    d :| d in s.drills && d.token == req.drill.payload;
    p :| p in s.previews && p.token == req.preview.payload;
    s' := s.(pending := s.pending + {ApplyMarked(d, p, s.db)});
  }

  // ---------------------------------------------------------------- what a guarded delete removes

  // A row the policy picks was already in every store whose clock had reached the policy's `now`.
  lemma PickedRowIsOld(a: Db, b: Db, r: Row, params: Params, now: Time)
    requires WellFormed(a) && Later(a, b) && WindowsAtLeastOneDay(params) && now <= a.clock
    requires r in b.rows && Marked(r.table) && Candidate(r, params, now)
    ensures r in a.rows && r.write < a.nextWrite
  {
    CutoffIsOld(r.table, params, now);
  }

  lemma CandidatesShrink(a: Db, b: Db, params: Params, now: Time)
    requires WellFormed(a) && Later(a, b) && WindowsAtLeastOneDay(params) && now <= a.clock
    ensures MarkedRows(Candidates(b.rows, params, now)) <= MarkedRows(Candidates(a.rows, params, now))
  {
    forall r | r in MarkedRows(Candidates(b.rows, params, now))
      ensures r in a.rows
    {
      PickedRowIsOld(a, b, r, params, now);
    }
  }

  /** Every marked row a guarded apply deletes is in the file at the bound backup path, was a
      candidate of the bound preview, and was written before that preview's report. */
  lemma GuardedDeleteIsSafe(cfg: Config, s: Sys, pd: Pending, s': Sys)
    requires Inv(cfg, s) && NextApplyDelete(s, pd, s')
    ensures pd.drilled.token.DrillToken? && pd.drilled.token.path in s.files
    ensures forall r :: r in s.db.rows - s'.db.rows && Marked(r.table) ==>
              && r in s.files[pd.drilled.token.path].rows
              && r in Candidates(pd.previewed.reported.rows, pd.previewed.token.params, pd.previewed.token.now)
              && r.write < pd.previewed.reported.nextWrite
  {
    var d, p := pd.drilled, pd.previewed;
    assert PendingOk(cfg, pd, s);
    forall r | r in s.db.rows - s'.db.rows && Marked(r.table)
      ensures r in s.files[d.token.path].rows
      ensures r in p.reported.rows && r.write < p.reported.nextWrite
    {
      PickedRowIsOld(p.reported, s.db, r, p.token.params, p.token.now);
      PickedRowIsOld(pd.marked, s.db, r, p.token.params, p.token.now);
      assert r in MarkedRows(pd.marked.rows);
      assert r in d.copy.rows;
    }
  }

  lemma RetentionSafety(cfg: Config, states: seq<Sys>, steps: seq<Step>, i: nat)
    requires IsRun(cfg, states, steps) && i < |steps| && steps[i].ApplyDelete?
    ensures var pd, s, s' := steps[i].pd, states[i], states[i + 1];
            && pd.ApplyChecked? && pd.drilled.token.DrillToken? && pd.previewed.token.PreviewToken?
            && pd.drilled.token.path in s.files
            && forall r :: r in s.db.rows - s'.db.rows && r.table != Nonces ==>
              && r in s.files[pd.drilled.token.path].rows
              && r in Candidates(pd.previewed.reported.rows, pd.previewed.token.params, pd.previewed.token.now)
              && r.write < pd.previewed.reported.nextWrite
  {
    RunKeepsInv(cfg, states, steps, i);
    assert StepAt(cfg, states, steps, i);
    GuardedDeleteIsSafe(cfg, states[i], steps[i].pd, states[i + 1]);
  }

  /** The drill closes the gap between copying a backup and reading the marks its token carries: when
      the guard's mark check passes, every marked row of the whole store is in the backup file. */
  lemma BackupIsCompleteAtMarkCheck(cfg: Config, states: seq<Sys>, steps: seq<Step>, i: nat)
    requires IsRun(cfg, states, steps) && i < |steps| && steps[i].ApplyMark?
    ensures steps[i].req.backup.Carries? && steps[i].req.backup.payload.BackupToken?
    ensures steps[i].req.backup.payload.path in states[i].files
    ensures forall r :: r in states[i].db.rows && r.table != Nonces ==>
              r in states[i].files[steps[i].req.backup.payload.path].rows
  {
    RunKeepsInv(cfg, states, steps, i);
    var s, st := states[i], steps[i];
    assert StepAt(cfg, states, steps, i);
    GuardPassed(cfg, s.signed, s.files.Keys, st.actor, st.req);
    BoundAtMarkCheck(cfg, s, st.drilled, st.previewed);
    forall r | r in s.db.rows && r.table != Nonces
      ensures r in s.files[st.drilled.token.path].rows
    {
      assert r in MarkedRows(s.db.rows) && r in MarkedRows(st.drilled.copy.rows);
    }
  }

  // ---------------------------------------------------------------- deleted set and previewed set

  // Equal fingerprints force equal counts, table by table; later candidates are among earlier ones.
  lemma MatchingReportSameCandidates(cfg: Config, a: Db, b: Db, token: Payload)
    requires InjectiveReports(cfg) && token.PreviewToken?
    requires WellFormed(a) && Later(a, b) && WindowsAtLeastOneDay(token.params) && token.now <= a.clock
    requires ReportMatches(cfg, a.rows, token) && ReportMatches(cfg, b.rows, token)
    ensures MarkedRows(Candidates(a.rows, token.params, token.now))
            == MarkedRows(Candidates(b.rows, token.params, token.now))
  {
    var p, now := token.params, token.now;
    CandidatesShrink(a, b, p, now);
    assert Reports(a.rows, p, now, true) == Reports(b.rows, p, now, true);
    forall t: Table | Marked(t)
      ensures RowsOf(Candidates(a.rows, p, now), t) == RowsOf(Candidates(b.rows, p, now), t)
    {
      assert Reports(a.rows, p, now, true)[Position(t)] == TableReportOf(a.rows, t, p, now, true);
      assert Reports(b.rows, p, now, true)[Position(t)] == TableReportOf(b.rows, t, p, now, true);
      forall r | r in RowsOf(Candidates(b.rows, p, now), t) ensures r in Candidates(a.rows, p, now) {
        assert r in MarkedRows(Candidates(b.rows, p, now));
      }
      SubsetOfSameSize(RowsOf(Candidates(b.rows, p, now), t), RowsOf(Candidates(a.rows, p, now), t));
    }
    forall r | r in MarkedRows(Candidates(a.rows, p, now)) ensures r in Candidates(b.rows, p, now) {
      assert r in RowsOf(Candidates(a.rows, p, now), r.table);
    }
  }

  // The marked rows the preview announced for deletion.
  function Announced(p: Previewed): set<Row>
    requires p.token.PreviewToken?
  {
    MarkedRows(Deletable(p.reported.rows, p.token.params, p.token.now))
  }

  // At the report check nothing of what was announced has gone yet.
  lemma AnnouncedSurvivesToCheck(cfg: Config, s: Sys, pd: Pending, s': Sys)
    requires InjectiveReports(cfg) && Inv(cfg, s) && NextApplyCheck(cfg, s, pd, s')
    ensures Announced(pd.previewed) <= s.db.rows
  {
    var p := pd.previewed;
    assert PendingOk(cfg, pd, s);
    MatchingReportSameCandidates(cfg, p.reported, s.db, p.token);
    forall r | r in Announced(p) ensures r in s.db.rows {
      assert r in MarkedRows(Candidates(p.reported.rows, p.token.params, p.token.now));
    }
  }

  /** A guarded delete removes the announced rows that are still there, and no other marked row. It
      removes all of them unless some were deleted or updated after the preview. */
  lemma DeletesWhatIsLeftOfAnnounced(cfg: Config, s: Sys, pd: Pending, s': Sys)
    requires Inv(cfg, s) && NextApplyDelete(s, pd, s')
    ensures MarkedRows(s.db.rows - s'.db.rows) == Announced(pd.previewed) * s.db.rows
  {
    GuardedDeleteIsSafe(cfg, s, pd, s');
  }

  // A step that is no other apply, and updates or releases none of `rows`.
  ghost predicate Spares(s: Sys, step: Step, s': Sys, rows: set<Row>) {
    && !step.ApplyDelete?
    && (step.StoreStep? ==>
          || Tick(s.db, s'.db)
          || (exists t, rowid, terminal :: Insert(s.db, s'.db, t, rowid, terminal))
          || (exists t, batch, terminal :: Touch(s.db, s'.db, t, batch, terminal) && batch !! rows)
          || (exists r :: Release(s.db, s'.db, r) && r !in rows)
          || (exists rowid, expires :: ReserveNonce(s.db, s'.db, rowid, expires))
          || RefuseNonce(s.db, s'.db))
  }

  ghost predicate SparesAt(states: seq<Sys>, steps: seq<Step>, k: nat, rows: set<Row>)
    requires |states| == |steps| + 1 && k < |steps|
  {
    Spares(states[k], steps[k], states[k + 1], rows)
  }

  // Such a step keeps every marked one of them.
  lemma SparedRowsStay(cfg: Config, s: Sys, step: Step, s': Sys, rows: set<Row>)
    requires Next(cfg, s, step, s') && Spares(s, step, s', rows) && rows == MarkedRows(rows) && rows <= s.db.rows
    ensures rows <= s'.db.rows
  {
    forall r | r in rows ensures r in s'.db.rows { assert r in MarkedRows(rows); }
  }

  lemma {:induction false} KeptThrough(cfg: Config, states: seq<Sys>, steps: seq<Step>, i: nat, j: nat, rows: set<Row>)
    requires IsRun(cfg, states, steps) && i <= j < |states| && rows == MarkedRows(rows) && rows <= states[i].db.rows
    requires forall k :: i <= k < j ==> SparesAt(states, steps, k, rows)
    ensures rows <= states[j].db.rows
  {
    if i < j {
      KeptThrough(cfg, states, steps, i, j - 1, rows);
      assert StepAt(cfg, states, steps, j - 1) && SparesAt(states, steps, j - 1, rows);
      SparedRowsStay(cfg, states[j - 1], steps[j - 1], states[j], rows);
    }
  }

  /** When no other apply runs between the guard's report check (step i) and its delete (step j), and no
      announced row is updated or released, the deleted marked rows are exactly the announced ones. */
  lemma DeletedSetIsAnnouncedSet(cfg: Config, states: seq<Sys>, steps: seq<Step>, i: nat, j: nat)
    requires InjectiveReports(cfg) && IsRun(cfg, states, steps) && i < j < |steps|
    requires steps[i].ApplyCheck? && steps[j].ApplyDelete? && steps[i].pd.ApplyMarked? && steps[j].pd.ApplyChecked?
    requires steps[j].pd.previewed == steps[i].pd.previewed && steps[i].pd.previewed.token.PreviewToken?
    requires forall k :: i < k < j ==> SparesAt(states, steps, k, Announced(steps[i].pd.previewed))
    ensures MarkedRows(states[j].db.rows - states[j + 1].db.rows) == Announced(steps[i].pd.previewed)
  {
    AnnouncedAfterCheck(cfg, states, steps, i);
    AnnouncedIsMarked(steps[i].pd.previewed);
    KeptThrough(cfg, states, steps, i + 1, j, Announced(steps[i].pd.previewed));
    RunKeepsInv(cfg, states, steps, j);
    assert StepAt(cfg, states, steps, j);
    DeletesWhatIsLeftOfAnnounced(cfg, states[j], steps[j].pd, states[j + 1]);
  }

  lemma AnnouncedAfterCheck(cfg: Config, states: seq<Sys>, steps: seq<Step>, i: nat)
    requires InjectiveReports(cfg) && IsRun(cfg, states, steps) && i < |steps| && steps[i].ApplyCheck?
    requires steps[i].pd.ApplyMarked? && steps[i].pd.previewed.token.PreviewToken?
    ensures Announced(steps[i].pd.previewed) <= states[i + 1].db.rows
  {
    RunKeepsInv(cfg, states, steps, i);
    assert StepAt(cfg, states, steps, i);
    AnnouncedSurvivesToCheck(cfg, states[i], steps[i].pd, states[i + 1]);
  }

  lemma AnnouncedIsMarked(p: Previewed)
    requires p.token.PreviewToken?
    ensures Announced(p) == MarkedRows(Announced(p))
  {
  }

  // ---------------------------------------------------------------- a used preview is dead

  // A row that a delete removed comes back in no later state.
  lemma DeletedStaysDeleted(s: Sys, s': Sys, later: Sys, pd: Pending, r: Row)
    requires WellFormed(s.db) && NextApplyDelete(s, pd, s') && r in s.db.rows - s'.db.rows && PastOf(s'.db, later)
    ensures r !in later.db.rows
  {
  }

  // The expired nonces the policy clears.
  function ExpiredNonces(rows: set<Row>, token: Payload): set<Row>
    requires token.PreviewToken?
  {
    RowsOf(Candidates(rows, token.params, token.now), Nonces)
  }

  lemma CandidatesSplit(rows: set<Row>, token: Payload)
    requires token.PreviewToken?
    ensures var found := Candidates(rows, token.params, token.now);
            |found| == |MarkedRows(found)| + |ExpiredNonces(rows, token)|
  {
    var found := Candidates(rows, token.params, token.now);
    assert found == MarkedRows(found) + ExpiredNonces(rows, token);
  }

  lemma SameCandidatesSameCounts(a: set<Row>, b: set<Row>, token: Payload, t: Table)
    requires token.PreviewToken?
    requires MarkedRows(Candidates(a, token.params, token.now)) == MarkedRows(Candidates(b, token.params, token.now))
    requires |ExpiredNonces(a, token)| == |ExpiredNonces(b, token)|
    ensures TableReportOf(a, t, token.params, token.now, true) == TableReportOf(b, t, token.params, token.now, true)
  {
    var was, now_ := Candidates(a, token.params, token.now), Candidates(b, token.params, token.now);
    if t != Nonces {
      assert RowsOf(was, t) == RowsOf(MarkedRows(was), t) == RowsOf(MarkedRows(now_), t) == RowsOf(now_, t);
    }
  }

  lemma SameCandidatesSameReport(cfg: Config, a: set<Row>, b: set<Row>, token: Payload)
    requires token.PreviewToken?
    requires MarkedRows(Candidates(a, token.params, token.now)) == MarkedRows(Candidates(b, token.params, token.now))
    requires |ExpiredNonces(a, token)| == |ExpiredNonces(b, token)|
    ensures ReportMatches(cfg, a, token) <==> ReportMatches(cfg, b, token)
  {
    CandidatesSplit(a, token);
    CandidatesSplit(b, token);
    forall i | 0 <= i < |TABLES|
      ensures Reports(a, token.params, token.now, true)[i] == Reports(b, token.params, token.now, true)[i]
    {
      SameCandidatesSameCounts(a, b, token, TABLES[i]);
    }
    assert Reports(a, token.params, token.now, true) == Reports(b, token.params, token.now, true);
  }

  lemma MatchingReportCountsNonces(cfg: Config, a: set<Row>, b: set<Row>, token: Payload)
    requires InjectiveReports(cfg) && token.PreviewToken? && ReportMatches(cfg, a, token)
            && ReportMatches(cfg, b, token)
    ensures |ExpiredNonces(a, token)| == |ExpiredNonces(b, token)|
  {
    var p, now := token.params, token.now;
    assert Reports(a, p, now, true) == Reports(b, p, now, true);
    assert Reports(a, p, now, true)[Position(Nonces)] == TableReportOf(a, Nonces, p, now, true);
    assert Reports(b, p, now, true)[Position(Nonces)] == TableReportOf(b, Nonces, p, now, true);
  }

  /** A later store passes the report check exactly when it holds the very marked candidates of the
      previewed store, and as many expired nonces. */
  lemma ReportMatchesIff(cfg: Config, a: Db, b: Db, token: Payload)
    requires InjectiveReports(cfg) && token.PreviewToken? && ReportMatches(cfg, a.rows, token)
    requires WellFormed(a) && Later(a, b) && WindowsAtLeastOneDay(token.params) && token.now <= a.clock
    ensures ReportMatches(cfg, b.rows, token) <==>
              && MarkedRows(Candidates(a.rows, token.params, token.now))
                 == MarkedRows(Candidates(b.rows, token.params, token.now))
              && |ExpiredNonces(a.rows, token)| == |ExpiredNonces(b.rows, token)|
  {
    if ReportMatches(cfg, b.rows, token) {
      MatchingReportSameCandidates(cfg, a, b, token);
      MatchingReportCountsNonces(cfg, a.rows, b.rows, token);
    } else if MarkedRows(Candidates(a.rows, token.params, token.now))
        == MarkedRows(Candidates(b.rows, token.params, token.now))
           && |ExpiredNonces(a.rows, token)| == |ExpiredNonces(b.rows, token)| {
      SameCandidatesSameReport(cfg, a.rows, b.rows, token);
    }
  }

  // With a deleted marked candidate gone, the report no longer matches.
  lemma MissingCandidateBreaksReport(cfg: Config, p: Previewed, later: Sys, r: Row)
    requires InjectiveReports(cfg) && PreviewedOk(cfg, p, later) && Marked(r.table) && r !in later.db.rows
    requires r in Candidates(p.reported.rows, p.token.params, p.token.now)
    ensures !ReportMatches(cfg, later.db.rows, p.token)
  {
    ReportMatchesIff(cfg, p.reported, later.db, p.token);
    if ReportMatches(cfg, later.db.rows, p.token) {
      StillCandidate(p.reported, later.db, p.token, r);
    }
  }

  // With a deleted nonce gone and no late one in its place, there are too few.
  lemma MissingNonceBreaksReport(cfg: Config, p: Previewed, later: Sys, r: Row)
    requires InjectiveReports(cfg) && PreviewedOk(cfg, p, later) && LateFree(p.reported, later.db)
    requires r in ExpiredNonces(p.reported.rows, p.token) && r !in later.db.rows
    ensures !ReportMatches(cfg, later.db.rows, p.token)
  {
    var was, now_ := ExpiredNonces(p.reported.rows, p.token), ExpiredNonces(later.db.rows, p.token);
    forall n | n in now_ ensures n in was - {r} {
      OnTimeNonceIsOld(p.reported, later.db, n, p.token.now);
    }
    SubsetSize(now_, was - {r});
    ReportMatchesIff(cfg, p.reported, later.db, p.token);
  }

  // ---------------------------------------------------------------- late nonces

  // No nonce reserved since `a` had expired by then.
  ghost predicate LateFree(a: Db, b: Db) {
    forall n :: n in b.rows && n.table == Nonces && n.write >= a.nextWrite ==> n.stamp > a.clock
  }

  // A step reserves no nonce that has already expired.
  ghost predicate ReservesUnexpired(s: Sys, s': Sys) {
    forall n :: n in s'.db.rows && n !in s.db.rows && n.table == Nonces ==> n.stamp > s.db.clock
  }

  ghost predicate UnexpiredAt(states: seq<Sys>, k: nat)
    requires k + 1 < |states|
  {
    ReservesUnexpired(states[k], states[k + 1])
  }

  // Verifying a signature before reserving its nonce is meant to give this.
  ghost predicate NoLateNonce(states: seq<Sys>) {
    forall k :: 0 <= k < |states| - 1 ==> UnexpiredAt(states, k)
  }

  lemma OnTimeNonceIsOld(a: Db, b: Db, n: Row, now: Time)
    requires Later(a, b) && LateFree(a, b) && now <= a.clock
    requires n in b.rows && n.table == Nonces && n.stamp <= now
    ensures n in a.rows && n.write < a.nextWrite
  {
  }

  lemma LateFreeMovesOn(cfg: Config, a: Db, s: Sys, step: Step, s': Sys)
    requires Inv(cfg, s) && PastOf(a, s) && LateFree(a, s.db) && Next(cfg, s, step, s') && ReservesUnexpired(s, s')
    ensures LateFree(a, s'.db)
  {
    forall n | n in s'.db.rows && n.table == Nonces && n.write >= a.nextWrite ensures n.stamp > a.clock {
      assert n !in s.db.rows ==> n.stamp > s.db.clock;
    }
  }

  lemma LateFreeAgesOne(cfg: Config, a: Db, states: seq<Sys>, steps: seq<Step>, i: nat)
    requires IsRun(cfg, states, steps) && NoLateNonce(states) && i < |steps| && PastOf(a, states[i])
            && LateFree(a, states[i].db)
    ensures LateFree(a, states[i + 1].db)
  {
    RunKeepsInv(cfg, states, steps, i);
    assert StepAt(cfg, states, steps, i) && UnexpiredAt(states, i);
    LateFreeMovesOn(cfg, a, states[i], steps[i], states[i + 1]);
  }

  lemma {:induction false} LateFreeAges(cfg: Config, a: Db, states: seq<Sys>, steps: seq<Step>, i: nat, j: nat)
    requires IsRun(cfg, states, steps) && NoLateNonce(states)
    requires i <= j < |states| && PastOf(a, states[i]) && LateFree(a, states[i].db)
    ensures LateFree(a, states[j].db)
  {
    if i < j {
      LateFreeAges(cfg, a, states, steps, i, j - 1);
      PastAges(cfg, a, states, steps, i, j - 1);
      LateFreeAgesOne(cfg, a, states, steps, j - 1);
    }
  }

  // The store a pending or signed preview reported on.
  ghost predicate ReportedLateFree(pd: Pending, db: Db) {
    match pd
    case BackupCopied(_, _) => true
    case PreviewReported(_, _, _, reported) => LateFree(reported, db)
    case ApplyMarked(_, p, _) => LateFree(p.reported, db)
    case ApplyChecked(_, p, _, _) => LateFree(p.reported, db)
  }

  ghost predicate AllLateFree(s: Sys) {
    && (forall p :: p in s.previews ==> LateFree(p.reported, s.db))
    && (forall pd :: pd in s.pending ==> ReportedLateFree(pd, s.db))
  }

  lemma StoreStepKeepsLateFree(cfg: Config, s: Sys, step: Step, s': Sys)
    requires Inv(cfg, s) && AllLateFree(s) && Next(cfg, s, step, s') && ReservesUnexpired(s, s')
    requires s' == s.(db := s'.db)
    ensures AllLateFree(s')
  {
    forall p | p in s.previews ensures LateFree(p.reported, s'.db) {
      assert PreviewedOk(cfg, p, s);
      LateFreeMovesOn(cfg, p.reported, s, step, s');
    }
    forall pd | pd in s.pending ensures ReportedLateFree(pd, s'.db) {
      assert PendingOk(cfg, pd, s) && ReportedLateFree(pd, s.db);
      if !pd.BackupCopied? {
        var a := if pd.PreviewReported? then pd.reported else pd.previewed.reported;
        LateFreeMovesOn(cfg, a, s, step, s');
      }
    }
  }

  lemma RequestKeepsLateFree(s: Sys, s': Sys, p: Previewed, pd: Pending)
    requires AllLateFree(s) && s'.db == s.db
    requires s'.previews <= s.previews + {p} && (p in s'.previews ==> LateFree(p.reported, s.db))
    requires s'.pending <= s.pending + {pd} && (pd in s'.pending ==> ReportedLateFree(pd, s.db))
    ensures AllLateFree(s')
  {
  }

  lemma PreviewStepKeepsLateFree(cfg: Config, s: Sys, step: Step, s': Sys)
    requires Inv(cfg, s) && AllLateFree(s) && Next(cfg, s, step, s') && (step.PreviewReport? || step.PreviewSign?)
    ensures AllLateFree(s')
  {
    if step.PreviewReport? {
      var seen := PreviewReported(step.actor, step.params, step.now, s.db);
      assert s'.pending == s.pending + {seen} && LateFree(s.db, s.db);
    } else {
      assert ReportedLateFree(step.pd, s.db);
      var p := Previewed(PreviewTokenNow(cfg, s.db, step.pd), step.pd.reported);
      RequestKeepsLateFree(s, s', p, step.pd);
    }
  }

  lemma ApplyStepKeepsLateFree(cfg: Config, s: Sys, step: Step, s': Sys)
    requires AllLateFree(s) && Next(cfg, s, step, s') && (step.ApplyMark? || step.ApplyCheck?)
    ensures AllLateFree(s')
  {
    if step.ApplyMark? {
      RequestKeepsLateFree(s, s', step.previewed, ApplyMarked(step.drilled, step.previewed, s.db));
    } else {
      assert ReportedLateFree(step.pd, s.db);
      var pd := ApplyChecked(step.pd.drilled, step.pd.previewed, step.pd.marked, s.db);
      RequestKeepsLateFree(s, s', step.pd.previewed, pd);
    }
  }

  lemma NextKeepsLateFree(cfg: Config, s: Sys, step: Step, s': Sys)
    requires Inv(cfg, s) && AllLateFree(s) && Next(cfg, s, step, s') && ReservesUnexpired(s, s')
    ensures AllLateFree(s')
  {
    if step.StoreStep? || step.ApplyDelete? {
      StoreMoves(cfg, s, step, s');
      StoreStepKeepsLateFree(cfg, s, step, s');
    } else if step.PreviewReport? || step.PreviewSign? {
      PreviewStepKeepsLateFree(cfg, s, step, s');
    } else if step.ApplyMark? || step.ApplyCheck? {
      ApplyStepKeepsLateFree(cfg, s, step, s');
    }
  }

  lemma {:induction false} RunKeepsLateFree(cfg: Config, states: seq<Sys>, steps: seq<Step>, i: nat)
    requires IsRun(cfg, states, steps) && NoLateNonce(states) && i < |states|
    ensures AllLateFree(states[i])
  {
    if i > 0 {
      RunKeepsLateFree(cfg, states, steps, i - 1);
      RunKeepsInv(cfg, states, steps, i - 1);
      assert StepAt(cfg, states, steps, i - 1) && UnexpiredAt(states, i - 1);
      NextKeepsLateFree(cfg, states[i - 1], steps[i - 1], states[i]);
    }
  }

  /** Whether everything deleted, nonces included, was announced comes down to one question about the store
      before the delete: was every nonce expired at the previewed time reserved before the preview's report? */
  lemma PreviewCoversNoncesIff(cfg: Config, s: Sys, pd: Pending, s': Sys)
    requires Inv(cfg, s) && NextApplyDelete(s, pd, s')
    ensures var token, reported := pd.previewed.token, pd.previewed.reported;
            s.db.rows - s'.db.rows <= Deletable(reported.rows, token.params, token.now) <==>
              forall n :: n in s.db.rows && n.table == Nonces && n.stamp <= token.now ==> n.write < reported.nextWrite
  {
    GuardedDeleteIsSafe(cfg, s, pd, s');
    var token, reported := pd.previewed.token, pd.previewed.reported;
    assert PendingOk(cfg, pd, s);
    forall n | n in s.db.rows && n.table == Nonces
      ensures n in s.db.rows - s'.db.rows <==> n.stamp <= token.now
      ensures n in reported.rows <==> n.write < reported.nextWrite
    {
      assert Candidate(n, token.params, token.now) <==> n.stamp <= token.now;
    }
  }

  /** In a run without late nonces, every row a guarded apply deletes was announced by the bound preview and
      written before it. */
  lemma AllDeletedWasAnnounced(cfg: Config, states: seq<Sys>, steps: seq<Step>, i: nat)
    requires IsRun(cfg, states, steps) && NoLateNonce(states) && i < |steps| && steps[i].ApplyDelete?
    ensures steps[i].pd.ApplyChecked? && steps[i].pd.previewed.token.PreviewToken?
    ensures var p := steps[i].pd.previewed;
            forall r :: r in states[i].db.rows - states[i + 1].db.rows ==>
              r in Deletable(p.reported.rows, p.token.params, p.token.now) && r.write < p.reported.nextWrite
  {
    var pd, s := steps[i].pd, states[i];
    RunKeepsInv(cfg, states, steps, i);
    RunKeepsLateFree(cfg, states, steps, i);
    assert StepAt(cfg, states, steps, i);
    assert PendingOk(cfg, pd, s) && ReportedLateFree(pd, s.db);
    forall r | r in s.db.rows - states[i + 1].db.rows
      ensures r in pd.previewed.reported.rows && r.write < pd.previewed.reported.nextWrite
    {
      if r.table == Nonces {
        OnTimeNonceIsOld(pd.previewed.reported, s.db, r, pd.previewed.token.now);
      } else {
        PickedRowIsOld(pd.previewed.reported, s.db, r, pd.previewed.token.params, pd.previewed.token.now);
      }
    }
  }

  // The preview an apply deletes under is as good in every later state, but for its report.
  lemma BoundPreviewAges(cfg: Config, states: seq<Sys>, steps: seq<Step>, i: nat, j: nat)
    requires IsRun(cfg, states, steps) && i < j < |states| && steps[i].ApplyDelete?
    ensures steps[i].pd.ApplyChecked? && PreviewedOk(cfg, steps[i].pd.previewed, states[j])
  {
    RunKeepsInv(cfg, states, steps, i);
    assert StepAt(cfg, states, steps, i);
    assert PendingOk(cfg, steps[i].pd, states[i]);
    PastAges(cfg, steps[i].pd.previewed.reported, states, steps, i, j);
  }

  lemma AfterDelete(cfg: Config, states: seq<Sys>, steps: seq<Step>, i: nat, j: nat)
    requires IsRun(cfg, states, steps) && i < j < |states| && steps[i].ApplyDelete?
    ensures PastOf(states[i + 1].db, states[j])
  {
    RunKeepsInv(cfg, states, steps, i + 1);
    LaterRefl(states[i + 1].db);
    PastAges(cfg, states[i + 1].db, states, steps, i + 1, j);
  }

  // The report check after an apply, in every later state of the run.
  lemma UsedPreviewMatchesIff(cfg: Config, states: seq<Sys>, steps: seq<Step>, i: nat, j: nat)
    requires InjectiveReports(cfg) && IsRun(cfg, states, steps) && i < j < |states| && steps[i].ApplyDelete?
    ensures steps[i].pd.ApplyChecked? && steps[i].pd.previewed.token.PreviewToken?
    ensures var p := steps[i].pd.previewed;
            ReportMatches(cfg, states[j].db.rows, p.token) <==>
              && MarkedRows(Candidates(p.reported.rows, p.token.params, p.token.now))
                 == MarkedRows(Candidates(states[j].db.rows, p.token.params, p.token.now))
              && |ExpiredNonces(p.reported.rows, p.token)| == |ExpiredNonces(states[j].db.rows, p.token)|
  {
    BoundPreviewAges(cfg, states, steps, i, j);
    var p := steps[i].pd.previewed;
    ReportMatchesIff(cfg, p.reported, states[j].db, p.token);
  }

  /** Once an apply has deleted a row under a preview token, the guard's report check refuses that token in
      every later state of the run: without exception for a marked row, and for a nonce when no nonce is
      reserved already expired. */
  lemma UsedPreviewIsRejected(cfg: Config, states: seq<Sys>, steps: seq<Step>, i: nat, j: nat, r: Row)
    requires InjectiveReports(cfg) && IsRun(cfg, states, steps) && i < j < |states| && steps[i].ApplyDelete?
    requires r in states[i].db.rows - states[i + 1].db.rows && (r.table != Nonces || NoLateNonce(states))
    ensures steps[i].pd.ApplyChecked? && steps[i].pd.previewed.token.PreviewToken?
    ensures !ReportMatches(cfg, states[j].db.rows, steps[i].pd.previewed.token)
  {
    BoundPreviewAges(cfg, states, steps, i, j);
    AfterDelete(cfg, states, steps, i, j);
    DeletedRowStaysAway(cfg, states, steps, i, j, r);
    if Marked(r.table) {
      RetentionSafety(cfg, states, steps, i);
      MissingCandidateBreaksReport(cfg, steps[i].pd.previewed, states[j], r);
    } else {
      AllDeletedWasAnnounced(cfg, states, steps, i);
      BoundStaysLateFree(cfg, states, steps, i, j);
      MissingNonceBreaksReport(cfg, steps[i].pd.previewed, states[j], r);
    }
  }

  lemma BoundStaysLateFree(cfg: Config, states: seq<Sys>, steps: seq<Step>, i: nat, j: nat)
    requires IsRun(cfg, states, steps) && NoLateNonce(states) && i < j < |states| && steps[i].ApplyDelete?
    ensures steps[i].pd.ApplyChecked? && LateFree(steps[i].pd.previewed.reported, states[j].db)
  {
    var pd := steps[i].pd;
    RunKeepsInv(cfg, states, steps, i);
    RunKeepsLateFree(cfg, states, steps, i);
    assert StepAt(cfg, states, steps, i);
    assert PendingOk(cfg, pd, states[i]) && ReportedLateFree(pd, states[i].db);
    LateFreeAges(cfg, pd.previewed.reported, states, steps, i, j);
  }

  lemma DeletedRowStaysAway(cfg: Config, states: seq<Sys>, steps: seq<Step>, i: nat, j: nat, r: Row)
    requires IsRun(cfg, states, steps) && i < j < |states| && steps[i].ApplyDelete?
    requires r in states[i].db.rows - states[i + 1].db.rows && PastOf(states[i + 1].db, states[j])
    ensures r !in states[j].db.rows
  {
    RunKeepsInv(cfg, states, steps, i);
    assert StepAt(cfg, states, steps, i);
    DeletedStaysDeleted(states[i], states[i + 1], states[j], steps[i].pd, r);
  }

  lemma StillCandidate(a: Db, b: Db, token: Payload, r: Row)
    requires token.PreviewToken?
    requires MarkedRows(Candidates(a.rows, token.params, token.now))
            == MarkedRows(Candidates(b.rows, token.params, token.now))
    requires r in Candidates(a.rows, token.params, token.now) && Marked(r.table)
    ensures r in b.rows
  {
    assert r in MarkedRows(Candidates(a.rows, token.params, token.now));
  }

  // ---------------------------------------------------------------- nonces lie outside the guarantee

  /** Whether everything deleted, nonces included, is in the bound backup comes down to one question
      about the store before the delete: has every nonce expired at the previewed time been reserved
      before the file was copied? */
  lemma BackupCoversNoncesIff(cfg: Config, s: Sys, pd: Pending, s': Sys)
    requires Inv(cfg, s) && NextApplyDelete(s, pd, s')
    ensures pd.drilled.token.DrillToken? && pd.drilled.token.path in s.files
    ensures var file := s.files[pd.drilled.token.path];
            s.db.rows - s'.db.rows <= file.rows <==>
              forall n :: n in s.db.rows && n.table == Nonces && n.stamp <= pd.previewed.token.now ==>
                  n.write < file.nextWrite
  {
    GuardedDeleteIsSafe(cfg, s, pd, s');
    var file := s.files[pd.drilled.token.path];
    assert PastOf(file, s);
    var params, now := pd.previewed.token.params, pd.previewed.token.now;
    forall n | n in s.db.rows && n.table == Nonces
      ensures n in s.db.rows - s'.db.rows <==> n.stamp <= now
      ensures n in file.rows <==> n.write < file.nextWrite
    {
      assert Candidate(n, params, now) <==> n.stamp <= now;
    }
  }
}
