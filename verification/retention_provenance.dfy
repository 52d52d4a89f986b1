/** Where a guarded delete comes from: the requests, of one operator and in order, that every run has behind
    it, and exactly which requests and rows it concerns. */
module RetentionProvenance {
  import opened EventStore
  import opened StoreHistory
  import opened RetentionGuard
  import opened RetentionSafety
  import opened Wrappers

  // ---------------------------------------------------------------- which requests pass

  /** A request passes the checks made before the store is read exactly when it is confirmed and carries a
      backup, a drill and a preview token of this operator and tenant, all signed here, that fit together. */
  lemma PassesIff(cfg: Config, signed: set<Payload>, files: set<string>, actor: string, req: ApplyRequest)
    ensures RefuseRequest(cfg, signed, files, actor, req) == None <==>
              && req.confirmed && req.backup.Carries? && req.drill.Carries? && req.preview.Carries?
              && var b, d, p := req.backup.payload, req.drill.payload, req.preview.payload;
                 && b.BackupToken? && d.DrillToken? && p.PreviewToken?
                 && b in signed && d in signed && p in signed
                 && b.tenant == d.tenant == p.tenant == cfg.tenant && b.actor == d.actor == p.actor == actor
                 && b.verified && d.verified && d.healthCheckPassed
                 && d.backupFingerprint == cfg.tokenDigest(b) && d.path == b.path && b.path in files
                 && b.marks == d.marks == p.marks && p.params == req.params
  {
  }

  /** In every state of every run the guard goes on to its report check with a request exactly when the
      request passes so and nothing has moved a mark since. */
  lemma GuardGoesOnIff(cfg: Config, states: seq<Sys>, steps: seq<Step>, i: nat, actor: string, req: ApplyRequest)
    requires IsRun(cfg, states, steps) && i < |states|
    ensures (exists d, p, s' :: Next(cfg, states[i], ApplyMark(actor, req, d, p), s')) <==>
              && req.confirmed && req.backup.Carries? && req.drill.Carries? && req.preview.Carries?
              && var b, d, p := req.backup.payload, req.drill.payload, req.preview.payload;
                 && b.BackupToken? && d.DrillToken? && p.PreviewToken?
                 && b in states[i].signed && d in states[i].signed && p in states[i].signed
                 && b.tenant == d.tenant == p.tenant == cfg.tenant && b.actor == d.actor == p.actor == actor
                 && b.verified && d.verified && d.healthCheckPassed
                 && d.backupFingerprint == cfg.tokenDigest(b) && d.path == b.path && b.path in states[i].files
                 && b.marks == d.marks == p.marks == HighWater(states[i].db.rows) && p.params == req.params
  {
    var s := states[i];
    PassesIff(cfg, s.signed, s.files.Keys, actor, req);
    if d, p, s' :| Next(cfg, s, ApplyMark(actor, req, d, p), s') {
      assert RefuseRequest(cfg, s.signed, s.files.Keys, actor, req) == None;
    }
    if RefuseRequest(cfg, s.signed, s.files.Keys, actor, req) == None
       && HighWater(s.db.rows) == req.preview.payload.marks {
      var d, p, s' := AcceptedRequestHasStep(cfg, states, steps, i, actor, req);
    }
  }

  // ---------------------------------------------------------------- what every token and request goes back to

  // The step that signed a token, in the fields of that step and the state it was made in.
  predicate SignedHere(cfg: Config, s: Sys, step: Step, t: Payload) {
    match t
    case BackupToken(_, _, _, _, _) => step == BackupSign(BackupCopied(t.actor, t.path)) && step.pd in s.pending
    case DrillToken(_, _, _, _, _, _, _) =>
      && step.RunDrill? && step.actor == t.actor && step.backup.Carries? && step.backup.payload in s.signed
      && t.backupFingerprint == cfg.tokenDigest(step.backup.payload)
    case PreviewToken(_, _, _, _, _, _) =>
      && step.PreviewSign? && step.pd in s.pending && step.pd.PreviewReported?
      && step.pd.actor == t.actor && step.pd.params == t.params && step.pd.now == t.now
  }

  lemma NewTokenSignedHere(cfg: Config, s: Sys, step: Step, s': Sys, t: Payload)
    requires Next(cfg, s, step, s') && t in s'.signed && t !in s.signed
    ensures SignedHere(cfg, s, step, t)
  {
  }

  lemma {:induction false} TokenGoesBack(cfg: Config, states: seq<Sys>, steps: seq<Step>, i: nat, t: Payload)
    returns (k: nat)
    requires IsRun(cfg, states, steps) && i < |states| && t in states[i].signed
    ensures k < i && SignedHere(cfg, states[k], steps[k], t)
  {
    if t in states[i - 1].signed {
      k := TokenGoesBack(cfg, states, steps, i - 1, t);
    } else {
      k := i - 1;
      assert StepAt(cfg, states, steps, k);
      NewTokenSignedHere(cfg, states[k], steps[k], states[i], t);
    }
  }

  // The step that left a request pending.
  predicate LeftHere(s: Sys, step: Step, pd: Pending) {
    match pd
    case BackupCopied(actor, path) => step == BackupCopy(actor, path)
    case PreviewReported(actor, params, now, reported) => step == PreviewReport(actor, params, now) && reported == s.db
    case ApplyMarked(d, p, marked) =>
      step.ApplyMark? && step.drilled == d && step.previewed == p && marked == s.db
    case ApplyChecked(d, p, marked, checked) =>
      step == ApplyCheck(ApplyMarked(d, p, marked)) && step.pd in s.pending && checked == s.db
  }

  lemma NewRequestLeftHere(cfg: Config, s: Sys, step: Step, s': Sys, pd: Pending)
    requires Next(cfg, s, step, s') && pd in s'.pending && pd !in s.pending
    ensures LeftHere(s, step, pd)
  {
  }

  lemma {:induction false} RequestGoesBack(cfg: Config, states: seq<Sys>, steps: seq<Step>, i: nat, pd: Pending)
    returns (k: nat)
    requires IsRun(cfg, states, steps) && i < |states| && pd in states[i].pending
    ensures k < i && LeftHere(states[k], steps[k], pd)
  {
    if pd in states[i - 1].pending {
      k := RequestGoesBack(cfg, states, steps, i - 1, pd);
    } else {
      k := i - 1;
      assert StepAt(cfg, states, steps, k);
      NewRequestLeftHere(cfg, states[k], steps[k], states[i], pd);
    }
  }

  ghost predicate InjectiveTokens(cfg: Config) {
    forall t, u :: cfg.tokenDigest(t) == cfg.tokenDigest(u) ==> t == u
  }

  // ---------------------------------------------------------------- theorems

  // The requests behind a delete: its mark check (m) and report check (c).
  lemma DeleteWasChecked(cfg: Config, states: seq<Sys>, steps: seq<Step>, i: nat) returns (m: nat, c: nat)
    requires IsRun(cfg, states, steps) && i < |steps| && steps[i].ApplyDelete?
    ensures m < c < i && steps[m].ApplyMark? && steps[c].ApplyCheck? && steps[i].pd.ApplyChecked?
    ensures steps[m].req.drill == Carries(steps[i].pd.drilled.token)
    ensures steps[m].req.preview == Carries(steps[i].pd.previewed.token)
    ensures RefuseRequest(cfg, states[m].signed, states[m].files.Keys, steps[m].actor, steps[m].req) == None
  {
    assert StepAt(cfg, states, steps, i);
    c := RequestGoesBack(cfg, states, steps, i, steps[i].pd);
    m := RequestGoesBack(cfg, states, steps, c, steps[c].pd);
    assert StepAt(cfg, states, steps, m);
  }

  // The backup and drill behind a request that passes.
  lemma BackupGoesBack(cfg: Config, states: seq<Sys>, steps: seq<Step>, m: nat, b: Payload, d: Payload)
    returns (copy: nat, sign: nat, drill: nat)
    requires IsRun(cfg, states, steps) && m < |states| && b in states[m].signed && d in states[m].signed
    requires b.BackupToken? && d.DrillToken? && InjectiveTokens(cfg) && d.backupFingerprint == cfg.tokenDigest(b)
    ensures copy < sign < drill < m && steps[copy] == BackupCopy(b.actor, b.path)
    ensures steps[sign] == BackupSign(BackupCopied(b.actor, b.path)) && steps[drill] == RunDrill(d.actor, Carries(b))
  {
    drill := TokenGoesBack(cfg, states, steps, m, d);
    assert steps[drill].backup.payload == b;
    sign := TokenGoesBack(cfg, states, steps, drill, b);
    copy := RequestGoesBack(cfg, states, steps, sign, steps[sign].pd);
  }

  lemma PreviewGoesBack(cfg: Config, states: seq<Sys>, steps: seq<Step>, m: nat, p: Payload)
    returns (report: nat, sign: nat)
    requires IsRun(cfg, states, steps) && m < |states| && p in states[m].signed && p.PreviewToken?
    ensures report < sign < m && steps[report] == PreviewReport(p.actor, p.params, p.now)
    ensures steps[sign].PreviewSign? && steps[sign].pd == PreviewReported(p.actor, p.params, p.now, states[report].db)
  {
    sign := TokenGoesBack(cfg, states, steps, m, p);
    report := RequestGoesBack(cfg, states, steps, sign, steps[sign].pd);
  }

  /** Nothing is deleted without the whole procedure: behind every guarded delete of a run there is one
      operator's confirmed request, and earlier that operator's backup, its drill, and a preview of the
      requested parameters, each in its order, verified, and of this tenant. */
  lemma DeleteGoesBack(cfg: Config, states: seq<Sys>, steps: seq<Step>, i: nat)
    returns (actor: string, copy: nat, sign: nat, drill: nat, report: nat, preview: nat, m: nat, c: nat)
    requires InjectiveTokens(cfg) && IsRun(cfg, states, steps) && i < |steps| && steps[i].ApplyDelete?
    ensures copy < sign < drill < m < c < i && report < preview < m
    ensures steps[m].ApplyMark? && steps[m].actor == actor && steps[c].ApplyCheck?
    ensures var req := steps[m].req;
            && req.confirmed && req.backup.Carries? && req.drill.Carries? && req.preview.Carries?
            && var b, d, p := req.backup.payload, req.drill.payload, req.preview.payload;
               && b.BackupToken? && b.tenant == cfg.tenant && b.actor == actor && b.verified
               && steps[copy] == BackupCopy(actor, b.path) && steps[sign] == BackupSign(BackupCopied(actor, b.path))
               && d.DrillToken? && d.tenant == cfg.tenant && d.actor == actor && d.verified && d.healthCheckPassed
               && steps[drill] == RunDrill(actor, Carries(b)) && d.path == b.path
               && p.PreviewToken? && p.tenant == cfg.tenant && p.actor == actor && p.params == req.params
               && steps[report] == PreviewReport(actor, req.params, p.now)
               && steps[preview].PreviewSign? && steps[preview].pd.PreviewReported? && steps[preview].pd.actor == actor
               && b.marks == d.marks == p.marks
               && steps[i].pd.ApplyChecked? && steps[i].pd.previewed.token == p && steps[i].pd.drilled.token == d
  {
    m, c := DeleteWasChecked(cfg, states, steps, i);
    actor := steps[m].actor;
    PassesIff(cfg, states[m].signed, states[m].files.Keys, actor, steps[m].req);
    var req := steps[m].req;
    copy, sign, drill := BackupGoesBack(cfg, states, steps, m, req.backup.payload, req.drill.payload);
    report, preview := PreviewGoesBack(cfg, states, steps, m, req.preview.payload);
  }

  /** And what it deletes is decided by the request and the time of the preview alone: table by table, the
      rows that have outlived their window by then. */
  lemma DeletesTheOutlived(cfg: Config, states: seq<Sys>, steps: seq<Step>, i: nat, r: Row)
    requires IsRun(cfg, states, steps) && i < |steps| && steps[i].ApplyDelete? && r in states[i].db.rows
    ensures steps[i].pd.ApplyChecked? && steps[i].pd.previewed.token.PreviewToken?
    ensures var params, now := steps[i].pd.previewed.token.params, steps[i].pd.previewed.token.now;
            r !in states[i + 1].db.rows <==>
              match r.table
              case Nonces => r.stamp <= now
              case Idempotency => r.stamp + params.idempotencyDays * DAY <= now
              case ToolAudit => r.stamp + params.toolAuditDays * DAY <= now
              case Outbox => r.terminal && r.stamp + params.alertDeliveryDays * DAY <= now
              case Receipts => r.stamp + params.alertDeliveryDays * DAY <= now
              case Events => params.includeEvents && r.stamp + params.eventDays * DAY <= now
  {
    assert StepAt(cfg, states, steps, i);
    var token := steps[i].pd.previewed.token;
    DeletableIff(states[i].db.rows, token.params, token.now);
  }

  // ---------------------------------------------------------------- deliveries are not lost

  // The delivery at a rowid: some version of it is in the store.
  predicate Delivered(db: Db, rowid: nat) {
    exists r :: r in db.rows && r.table == Outbox && r.rowid == rowid
  }

  predicate Ended(db: Db, rowid: nat) {
    exists r :: r in db.rows && r.table == Outbox && r.rowid == rowid && r.terminal
  }

  lemma TouchKeepsDelivery(db: Db, db': Db, t: Table, batch: set<Row>, terminal: bool, r: Row)
    requires Touch(db, db', t, batch, terminal) && r in db.rows && r.table == Outbox
    ensures Delivered(db', r.rowid)
  {
    var r' := if r in batch then Row(t, db.nextWrite, r.rowid, db.clock, terminal) else r;
    assert r' in db'.rows;
  }

  lemma PolicyKeepsDelivery(db: Db, db': Db, p: Params, now: Time, r: Row)
    requires ApplyPolicy(db, db', p, now) && r in db.rows && r.table == Outbox && !r.terminal
    ensures Delivered(db', r.rowid)
  {
    DeletableIff(db.rows, p, now);
    assert r in db'.rows;
  }

  lemma StoreKeepsDelivery(db: Db, db': Db, r: Row)
    requires DbStep(db, db') && r in db.rows && r.table == Outbox && !r.terminal
    ensures Delivered(db', r.rowid)
  {
    if p, now :| ApplyPolicy(db, db', p, now) {
      PolicyKeepsDelivery(db, db', p, now, r);
    } else if t, batch, terminal :| Touch(db, db', t, batch, terminal) {
      TouchKeepsDelivery(db, db', t, batch, terminal, r);
    } else {
      assert r in db'.rows;
    }
  }

  lemma StepKeepsDelivery(cfg: Config, states: seq<Sys>, steps: seq<Step>, i: nat, rowid: nat)
    requires IsRun(cfg, states, steps) && i < |steps|
    requires Delivered(states[i].db, rowid) && !Ended(states[i].db, rowid)
    ensures Delivered(states[i + 1].db, rowid)
  {
    assert StepAt(cfg, states, steps, i);
    StoreMoves(cfg, states[i], steps[i], states[i + 1]);
    var r :| r in states[i].db.rows && r.table == Outbox && r.rowid == rowid;
    if states[i + 1].db != states[i].db {
      StoreKeepsDelivery(states[i].db, states[i + 1].db, r);
    }
  }

  /** No delivery is lost: in every run, applies with any parameters included, a delivery that is in the
      store stays there until some state in which it has come to its end. */
  lemma {:induction false} DeliveryIsNotLost(cfg: Config, states: seq<Sys>, steps: seq<Step>, i: nat, j: nat,
                                             rowid: nat)
    requires IsRun(cfg, states, steps) && i <= j < |states| && Delivered(states[i].db, rowid)
    ensures Delivered(states[j].db, rowid) || exists k :: i <= k < j && Ended(states[k].db, rowid)
  {
    if i < j {
      DeliveryIsNotLost(cfg, states, steps, i, j - 1, rowid);
      if Delivered(states[j - 1].db, rowid) && !Ended(states[j - 1].db, rowid) {
        StepKeepsDelivery(cfg, states, steps, j - 1, rowid);
      }
    }
  }
}
