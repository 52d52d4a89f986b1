/** Backup, restore drill, retention preview and guarded apply as a state machine. Every read or
    write of the store is its own step, so appends, in-place updates, other maintenance requests and
    unguarded deletes may fall between any two of them; the maintenance lock is not assumed. */
module RetentionGuard {
  import opened EventStore
  import opened StoreHistory
  import opened Wrappers

  // ---------------------------------------------------------------- tokens and the guard

  // What a signed token carries. The constructor is the token's kind.
  datatype Payload =
    | BackupToken(tenant: string, actor: string, path: string, verified: bool, marks: map<Table, Mark>)
    | DrillToken(tenant: string, actor: string, path: string, verified: bool, healthCheckPassed: bool,
                 marks: map<Table, Mark>, backupFingerprint: nat)
    | PreviewToken(tenant: string, actor: string, params: Params, now: Time, marks: map<Table, Mark>, fingerprint: nat)

  // The part of a dry-run report that the preview fingerprint covers.
  datatype ReportView = ReportView(
    tenant: string,
    params: Params,
    now: Time,
    marks: map<Table, Mark>,
    totalCandidates: nat,
    tables: seq<TableReport>)

  // The deployment: its tenant and the two uses of SHA-256, left uninterpreted.
  datatype Config = Config(tenant: string, tokenDigest: Payload -> nat, reportDigest: ReportView -> nat)

  ghost predicate InjectiveReports(cfg: Config) {
    forall v, w :: cfg.reportDigest(v) == cfg.reportDigest(w) ==> v == w
  }

  // A token string in a request: absent, or not one of ours, or carrying a payload.
  datatype Presented = Missing | Garbled | Carries(payload: Payload)

  datatype ApplyRequest = ApplyRequest(
    confirmed: bool,
    backup: Presented,
    drill: Presented,
    preview: Presented,
    params: Params)

  datatype Refusal =
    | NotConfirmed | DrillMissing | BadToken | OtherActorOrTenant
    | BackupNotVerified | DrillNotPassing | DrillOfOtherToken | DrillOfOtherFile | DrillOfOtherMarks
    | BackupFileMissing | ParamsChanged | StoreChangedBeforePreview

  // Decoding accepts exactly the payloads this server has signed.
  predicate Authentic(signed: set<Payload>, p: Presented) {
    p.Carries? && p.payload in signed
  }

  predicate Owned(cfg: Config, actor: string, p: Payload) {
    p.tenant == cfg.tenant && p.actor == actor
  }

  // The checks made before the store is read, in the order the handler makes them.
  function RefuseRequest(cfg: Config, signed: set<Payload>, files: set<string>, actor: string,
                         req: ApplyRequest): Option<Refusal> {
    if !req.confirmed then Some(NotConfirmed)
    else if req.drill.Missing? then Some(DrillMissing)
    else if !(Authentic(signed, req.backup) && req.backup.payload.BackupToken?) then Some(BadToken)
    else if !(Authentic(signed, req.drill) && req.drill.payload.DrillToken?) then Some(BadToken)
    else if !(Authentic(signed, req.preview) && req.preview.payload.PreviewToken?) then Some(BadToken)
    else
      var b, d, p := req.backup.payload, req.drill.payload, req.preview.payload;
      if !Owned(cfg, actor, b) || !Owned(cfg, actor, d) || !Owned(cfg, actor, p) then Some(OtherActorOrTenant)
      else if !b.verified then Some(BackupNotVerified)
      else if !d.verified || !d.healthCheckPassed then Some(DrillNotPassing)
      else if d.backupFingerprint != cfg.tokenDigest(b) then Some(DrillOfOtherToken)
      else if d.path != b.path then Some(DrillOfOtherFile)
      else if d.marks != b.marks then Some(DrillOfOtherMarks)
      else if b.path !in files then Some(BackupFileMissing)
      else if p.params != req.params then Some(ParamsChanged)
      else if b.marks != p.marks then Some(StoreChangedBeforePreview)
      else None
  }

  function ViewOf(cfg: Config, rows: set<Row>, p: Params, now: Time, marks: map<Table, Mark>): ReportView {
    ReportView(cfg.tenant, p, now, marks, |Candidates(rows, p, now)|, Reports(rows, p, now, true))
  }

  // The guard's re-derived dry run has the previewed fingerprint.
  predicate ReportMatches(cfg: Config, rows: set<Row>, preview: Payload)
    requires preview.PreviewToken?
  {
    cfg.reportDigest(ViewOf(cfg, rows, preview.params, preview.now, preview.marks)) == preview.fingerprint
  }

  // ---------------------------------------------------------------- state machine

  // History: which copy a drill restored, and which store a preview reported on and marked.
  datatype Drilled = Drilled(token: Payload, copy: Db)
  datatype Previewed = Previewed(token: Payload, reported: Db)

  // Maintenance requests between two of their steps.
  datatype Pending =
    | BackupCopied(actor: string, path: string)
    | PreviewReported(actor: string, params: Params, now: Time, reported: Db)
    | ApplyMarked(drilled: Drilled, previewed: Previewed, marked: Db)
    | ApplyChecked(drilled: Drilled, previewed: Previewed, marked: Db, checked: Db)

  datatype Sys = Sys(
    db: Db,
    files: map<string, Db>,
    signed: set<Payload>,
    drills: set<Drilled>,
    previews: set<Previewed>,
    pending: set<Pending>)

  datatype Step =
    | StoreStep
    | BackupCopy(actor: string, path: string)
    | BackupSign(pd: Pending)
    | RunDrill(actor: string, backup: Presented)
    | PreviewReport(actor: string, params: Params, now: Time)
    | PreviewSign(pd: Pending)
    | ApplyMark(actor: string, req: ApplyRequest, drilled: Drilled, previewed: Previewed)
    | ApplyCheck(pd: Pending)
    | ApplyDelete(pd: Pending)

  ghost predicate Init(s: Sys) {
    WellFormed(s.db) && s.files == map[] && s.signed == {} && s.drills == {} && s.previews == {} && s.pending == {}
  }

  ghost function BackupTokenNow(cfg: Config, db: Db, pd: Pending): Payload
    requires pd.BackupCopied?
  {
    BackupToken(cfg.tenant, pd.actor, pd.path, true, HighWater(db.rows))
  }

  ghost function DrillTokenFor(cfg: Config, actor: string, b: Payload, copy: Db): Payload
    requires b.BackupToken?
  {
    DrillToken(cfg.tenant, actor, b.path, true, true, HighWater(copy.rows), cfg.tokenDigest(b))
  }

  ghost function PreviewTokenNow(cfg: Config, db: Db, pd: Pending): Payload
    requires pd.PreviewReported?
  {
    var marks := HighWater(db.rows);
    PreviewToken(cfg.tenant, pd.actor, pd.params, pd.now, marks,
                 cfg.reportDigest(ViewOf(cfg, pd.reported.rows, pd.params, pd.now, marks)))
  }

  // A reused backup path is overwritten.
  ghost predicate NextBackupCopy(s: Sys, actor: string, path: string, s': Sys) {
    s' == s.(files := s.files[path := s.db], pending := s.pending + {BackupCopied(actor, path)})
  }

  ghost predicate NextDrill(cfg: Config, s: Sys, actor: string, backup: Presented, s': Sys) {
    && Authentic(s.signed, backup) && backup.payload.BackupToken?
    && Owned(cfg, actor, backup.payload) && backup.payload.verified
    && backup.payload.path in s.files
    && var copy := s.files[backup.payload.path];
    && HighWater(copy.rows) == backup.payload.marks
    && var token := DrillTokenFor(cfg, actor, backup.payload, copy);
    && s' == s.(signed := s.signed + {token}, drills := s.drills + {Drilled(token, copy)})
  }

  // The policy's clock reading comes no later than its counts.
  ghost predicate NextPreviewReport(s: Sys, actor: string, params: Params, now: Time, s': Sys) {
    && WindowsAtLeastOneDay(params) && now <= s.db.clock
    && s' == s.(pending := s.pending + {PreviewReported(actor, params, now, s.db)})
  }

  ghost predicate NextPreviewSign(cfg: Config, s: Sys, pd: Pending, s': Sys) {
    && pd in s.pending && pd.PreviewReported?
    && var token := PreviewTokenNow(cfg, s.db, pd);
    && s' == s.(signed := s.signed + {token}, previews := s.previews + {Previewed(token, pd.reported)})
  }

  ghost predicate NextApplyMark(cfg: Config, s: Sys, actor: string, req: ApplyRequest, d: Drilled, p: Previewed,
                                s': Sys) {
    && RefuseRequest(cfg, s.signed, s.files.Keys, actor, req) == None
    && req.drill == Carries(d.token) && d in s.drills
    && req.preview == Carries(p.token) && p in s.previews
    && HighWater(s.db.rows) == req.preview.payload.marks
    && s' == s.(pending := s.pending + {ApplyMarked(d, p, s.db)})
  }

  ghost predicate NextApplyCheck(cfg: Config, s: Sys, pd: Pending, s': Sys) {
    && pd in s.pending && pd.ApplyMarked? && pd.previewed.token.PreviewToken?
    && ReportMatches(cfg, s.db.rows, pd.previewed.token)
    && s' == s.(pending := s.pending + {ApplyChecked(pd.drilled, pd.previewed, pd.marked, s.db)})
  }

  ghost predicate NextApplyDelete(s: Sys, pd: Pending, s': Sys) {
    && pd in s.pending && pd.ApplyChecked? && pd.previewed.token.PreviewToken?
    && ApplyPolicy(s.db, s'.db, pd.previewed.token.params, pd.previewed.token.now)
    && s' == s.(db := s'.db)
  }

  ghost predicate Next(cfg: Config, s: Sys, step: Step, s': Sys) {
    match step
    case StoreStep => DbStep(s.db, s'.db) && s' == s.(db := s'.db)
    case BackupCopy(actor, path) => NextBackupCopy(s, actor, path, s')
    case BackupSign(pd) =>
      pd in s.pending && pd.BackupCopied? && s' == s.(signed := s.signed + {BackupTokenNow(cfg, s.db, pd)})
    case RunDrill(actor, backup) => NextDrill(cfg, s, actor, backup, s')
    case PreviewReport(actor, params, now) => NextPreviewReport(s, actor, params, now, s')
    case PreviewSign(pd) => NextPreviewSign(cfg, s, pd, s')
    case ApplyMark(actor, req, d, p) => NextApplyMark(cfg, s, actor, req, d, p, s')
    case ApplyCheck(pd) => NextApplyCheck(cfg, s, pd, s')
    case ApplyDelete(pd) => NextApplyDelete(s, pd, s')
  }

  ghost predicate StepAt(cfg: Config, states: seq<Sys>, steps: seq<Step>, i: nat)
    requires |states| == |steps| + 1 && i < |steps|
  {
    Next(cfg, states[i], steps[i], states[i + 1])
  }

  ghost predicate IsRun(cfg: Config, states: seq<Sys>, steps: seq<Step>) {
    && |states| == |steps| + 1
    && Init(states[0])
    && forall i :: 0 <= i < |steps| ==> StepAt(cfg, states, steps, i)
  }

  // ---------------------------------------------------------------- invariant

  ghost predicate PastOf(a: Db, s: Sys) {
    WellFormed(a) && Later(a, s.db)
  }

  // Rows of the drilled copy that still exist are in the file at the token's path, whatever has
  // been written to that path since.
  ghost predicate DrilledOk(d: Drilled, s: Sys) {
    && PastOf(d.copy, s) && d.token.DrillToken?
    && HighWater(d.copy.rows) == d.token.marks
    && d.token.path in s.files
    && (forall r :: r in d.copy.rows && r in s.db.rows ==> r in s.files[d.token.path].rows)
  }

  ghost predicate PreviewedOk(cfg: Config, p: Previewed, s: Sys) {
    && PastOf(p.reported, s) && p.token.PreviewToken?
    && WindowsAtLeastOneDay(p.token.params) && p.token.now <= p.reported.clock
    && ReportMatches(cfg, p.reported.rows, p.token)
  }

  // The store at the guard's mark check held, in marked tables, exactly the drilled rows.
  ghost predicate BoundOk(cfg: Config, d: Drilled, p: Previewed, marked: Db, s: Sys) {
    && DrilledOk(d, s) && PreviewedOk(cfg, p, s) && PastOf(marked, s)
    && p.token.now <= marked.clock
    && MarkedRows(d.copy.rows) == MarkedRows(marked.rows)
  }

  ghost predicate PendingOk(cfg: Config, pd: Pending, s: Sys) {
    match pd
    case BackupCopied(_, _) => true
    case PreviewReported(_, params, now, reported) =>
      PastOf(reported, s) && WindowsAtLeastOneDay(params) && now <= reported.clock
    case ApplyMarked(d, p, marked) => BoundOk(cfg, d, p, marked, s)
    case ApplyChecked(d, p, marked, checked) =>
      BoundOk(cfg, d, p, marked, s) && PastOf(checked, s) && Later(p.reported, checked)
      && ReportMatches(cfg, checked.rows, p.token)
  }

  ghost predicate Inv(cfg: Config, s: Sys) {
    && WellFormed(s.db)
    && (forall path :: path in s.files ==> PastOf(s.files[path], s))
    && (forall d :: d in s.drills ==> DrilledOk(d, s))
    && (forall p :: p in s.previews ==> PreviewedOk(cfg, p, s))
    && (forall pd :: pd in s.pending ==> PendingOk(cfg, pd, s))
  }

  // A store step keeps every past past, and never brings a row version back.
  lemma DbStepKeepsPast(a: Db, b: Db, c: Db)
    requires WellFormed(a) && WellFormed(b) && Later(a, b) && DbStep(b, c)
    ensures WellFormed(c) && Later(a, c)
    ensures forall r :: r in c.rows && r !in b.rows ==> r.write >= b.nextWrite
  {
    if Ordinary(b, c) {
      StepOrdinary(a, b, c);
      LaterRefl(b);
      StepOrdinary(b, b, c);
    } else {
      var p, now :| ApplyPolicy(b, c, p, now);
      StepApply(a, b, c, p, now);
    }
  }

  lemma DrilledStays(d: Drilled, s: Sys, s': Sys)
    requires WellFormed(s.db) && DrilledOk(d, s)
    requires DbStep(s.db, s'.db) && s' == s.(db := s'.db)
    ensures DrilledOk(d, s')
  {
    DbStepKeepsPast(d.copy, s.db, s'.db);
  }

  lemma PreviewedStays(cfg: Config, p: Previewed, s: Sys, s': Sys)
    requires WellFormed(s.db) && PreviewedOk(cfg, p, s)
    requires DbStep(s.db, s'.db) && s' == s.(db := s'.db)
    ensures PreviewedOk(cfg, p, s')
  {
    DbStepKeepsPast(p.reported, s.db, s'.db);
  }

  lemma PendingStays(cfg: Config, pd: Pending, s: Sys, s': Sys)
    requires WellFormed(s.db) && PendingOk(cfg, pd, s)
    requires DbStep(s.db, s'.db) && s' == s.(db := s'.db)
    ensures PendingOk(cfg, pd, s')
  {
    match pd
    case BackupCopied(_, _) =>
    case PreviewReported(_, _, _, reported) => DbStepKeepsPast(reported, s.db, s'.db);
    case ApplyMarked(d, p, marked) =>
      DrilledStays(d, s, s'); PreviewedStays(cfg, p, s, s'); DbStepKeepsPast(marked, s.db, s'.db);
    case ApplyChecked(d, p, marked, checked) =>
      DrilledStays(d, s, s'); PreviewedStays(cfg, p, s, s');
      DbStepKeepsPast(marked, s.db, s'.db); DbStepKeepsPast(checked, s.db, s'.db);
  }

  lemma StoreStepKeepsInv(cfg: Config, s: Sys, s': Sys)
    requires Inv(cfg, s) && DbStep(s.db, s'.db) && s' == s.(db := s'.db)
    ensures Inv(cfg, s')
  {
    LaterRefl(s.db);
    DbStepKeepsPast(s.db, s.db, s'.db);
    forall path | path in s.files ensures PastOf(s'.files[path], s') { DbStepKeepsPast(s.files[path], s.db, s'.db); }
    forall d | d in s.drills ensures DrilledOk(d, s') { DrilledStays(d, s, s'); }
    forall p | p in s.previews ensures PreviewedOk(cfg, p, s') { PreviewedStays(cfg, p, s, s'); }
    forall pd | pd in s.pending ensures PendingOk(cfg, pd, s') { PendingStays(cfg, pd, s, s'); }
  }

  // Overwriting a backup path keeps the surviving drilled rows in it: the new copy is the whole store.
  lemma BackupCopyKeepsInv(cfg: Config, s: Sys, actor: string, path: string, s': Sys)
    requires Inv(cfg, s) && NextBackupCopy(s, actor, path, s')
    ensures Inv(cfg, s')
  {
    LaterRefl(s.db);
    forall d | DrilledOk(d, s) ensures DrilledOk(d, s') {}
    forall pd | pd in s.pending ensures PendingOk(cfg, pd, s') {}
  }

  lemma SigningKeepsInv(cfg: Config, s: Sys, s': Sys, d: Drilled, p: Previewed)
    requires Inv(cfg, s)
    requires s'.db == s.db && s'.files == s.files && s'.pending == s.pending
    requires s'.drills <= s.drills + {d} && (d in s'.drills ==> DrilledOk(d, s))
    requires s'.previews <= s.previews + {p} && (p in s'.previews ==> PreviewedOk(cfg, p, s))
    ensures Inv(cfg, s')
  {
    forall x | DrilledOk(x, s) ensures DrilledOk(x, s') {}
    forall x | PreviewedOk(cfg, x, s) ensures PreviewedOk(cfg, x, s') {}
    forall pd | pd in s.pending ensures PendingOk(cfg, pd, s') {}
  }

  lemma PendingKeepsInv(cfg: Config, s: Sys, s': Sys, pd: Pending)
    requires Inv(cfg, s) && PendingOk(cfg, pd, s) && s' == s.(pending := s.pending + {pd})
    ensures Inv(cfg, s')
  {
    forall x | PendingOk(cfg, x, s) ensures PendingOk(cfg, x, s') {}
  }
}
