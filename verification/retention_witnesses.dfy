/** Runs of the retention protocol that reach what its guarantee leaves open. */
module RetentionWitnesses {
  import opened EventStore
  import opened StoreHistory
  import opened RetentionGuard
  import opened Wrappers

  const YEAR: Params := Params(false, false, 365, 365, 365, 365)

  ghost predicate Reachable(cfg: Config, s: Sys) {
    exists states, steps :: IsRun(cfg, states, steps) && states[|steps|] == s
  }

  lemma ReachNext(cfg: Config, s: Sys, step: Step, s': Sys)
    requires Reachable(cfg, s) && Next(cfg, s, step, s')
    ensures Reachable(cfg, s')
  {
    var states, steps :| IsRun(cfg, states, steps) && states[|steps|] == s;
    forall i: nat | i < |steps| + 1
      ensures StepAt(cfg, states + [s'], steps + [step], i)
    {
      if i < |steps| {
        assert StepAt(cfg, states, steps, i);
      }
    }
    assert IsRun(cfg, states + [s'], steps + [step]);
  }

  ghost function OpsBackup(cfg: Config, db0: Db): Payload {
    BackupToken(cfg.tenant, "ops", "f", true, HighWater(db0.rows))
  }

  ghost function OpsDrill(cfg: Config, db0: Db): Drilled {
    Drilled(DrillTokenFor(cfg, "ops", OpsBackup(cfg, db0), db0), db0)
  }

  ghost function OpsPreview(cfg: Config, db: Db, now: Time): Previewed {
    Previewed(PreviewTokenNow(cfg, db, PreviewReported("ops", YEAR, now, db)), db)
  }

  ghost function OpsRequest(cfg: Config, db0: Db, db: Db, now: Time): ApplyRequest {
    ApplyRequest(true, Carries(OpsBackup(cfg, db0)), Carries(OpsDrill(cfg, db0).token),
                 Carries(OpsPreview(cfg, db, now).token), YEAR)
  }

  // A backup of `db0` is drilled, whatever the store holds by now.
  ghost predicate OpsReady(cfg: Config, db0: Db, s: Sys) {
    && Reachable(cfg, s) && s.files == map["f" := db0]
    && OpsBackup(cfg, db0) in s.signed && OpsDrill(cfg, db0).token in s.signed && OpsDrill(cfg, db0) in s.drills
  }

  lemma ReachSigned(cfg: Config, db0: Db) returns (s: Sys)
    requires WellFormed(db0)
    ensures Reachable(cfg, s)
    ensures s == Sys(db0, map["f" := db0], {OpsBackup(cfg, db0)}, {}, {}, {BackupCopied("ops", "f")})
  {
    var copied := BackupCopied("ops", "f");
    var s0 := Sys(db0, map[], {}, {}, {}, {});
    var none: seq<Step> := [];
    assert IsRun(cfg, [s0], none) && [s0][|none|] == s0;
    var s1 := s0.(files := s0.files["f" := db0], pending := s0.pending + {copied});
    ReachNext(cfg, s0, BackupCopy("ops", "f"), s1);
    s := s1.(signed := s1.signed + {OpsBackup(cfg, db0)});
    ReachNext(cfg, s1, BackupSign(copied), s);
  }

  lemma ReachDrilled(cfg: Config, db0: Db) returns (s: Sys)
    requires WellFormed(db0)
    ensures OpsReady(cfg, db0, s) && s.db == db0
  {
    var s2 := ReachSigned(cfg, db0);
    var b, d := OpsBackup(cfg, db0), OpsDrill(cfg, db0);
    s := s2.(signed := s2.signed + {d.token}, drills := s2.drills + {d});
    assert NextDrill(cfg, s2, "ops", Carries(b), s);
    ReachNext(cfg, s2, RunDrill("ops", Carries(b)), s);
  }

  lemma ReachPreviewed(cfg: Config, db0: Db, s0: Sys, now: Time) returns (s: Sys)
    requires OpsReady(cfg, db0, s0) && now <= s0.db.clock
    ensures OpsReady(cfg, db0, s) && s.db == s0.db
    ensures OpsPreview(cfg, s0.db, now) in s.previews && OpsPreview(cfg, s0.db, now).token in s.signed
  {
    var seen, p := PreviewReported("ops", YEAR, now, s0.db), OpsPreview(cfg, s0.db, now);
    var s1 := s0.(pending := s0.pending + {seen});
    ReachNext(cfg, s0, PreviewReport("ops", YEAR, now), s1);
    s := s1.(signed := s1.signed + {p.token}, previews := s1.previews + {p});
    ReachNext(cfg, s1, PreviewSign(seen), s);
  }

  lemma OpsRequestPasses(cfg: Config, db0: Db, db: Db, now: Time, signed: set<Payload>)
    requires HighWater(db0.rows) == HighWater(db.rows)
    requires OpsBackup(cfg, db0) in signed && OpsDrill(cfg, db0).token in signed
            && OpsPreview(cfg, db, now).token in signed
    ensures RefuseRequest(cfg, signed, {"f"}, "ops", OpsRequest(cfg, db0, db, now)) == None
  {
  }

  // With nothing moved since the backup, the guard passes.
  lemma ReachChecked(cfg: Config, db0: Db, s0: Sys, now: Time) returns (s: Sys, pd: Pending)
    requires OpsReady(cfg, db0, s0) && HighWater(db0.rows) == HighWater(s0.db.rows) && now <= s0.db.clock
    ensures OpsReady(cfg, db0, s) && s.db == s0.db && pd in s.pending
    ensures pd == ApplyChecked(OpsDrill(cfg, db0), OpsPreview(cfg, s0.db, now), s0.db, s0.db)
  {
    var d, p, req := OpsDrill(cfg, db0), OpsPreview(cfg, s0.db, now), OpsRequest(cfg, db0, s0.db, now);
    var s1 := ReachPreviewed(cfg, db0, s0, now);
    OpsRequestPasses(cfg, db0, s0.db, now, s1.signed);
    assert s1.files.Keys == {"f"};
    var marked := ApplyMarked(d, p, s0.db);
    var s2 := s1.(pending := s1.pending + {marked});
    assert NextApplyMark(cfg, s1, "ops", req, d, p, s2);
    ReachNext(cfg, s1, ApplyMark("ops", req, d, p), s2);
    pd := ApplyChecked(d, p, s0.db, s0.db);
    s := s2.(pending := s2.pending + {pd});
    assert NextApplyCheck(cfg, s2, marked, s);
    ReachNext(cfg, s2, ApplyCheck(marked), s);
  }

  // Another step of the store.
  lemma ReachStored(cfg: Config, db0: Db, s: Sys, db: Db) returns (s': Sys)
    requires OpsReady(cfg, db0, s) && DbStep(s.db, db)
    ensures OpsReady(cfg, db0, s') && s' == s.(db := db)
  {
    s' := s.(db := db);
    ReachNext(cfg, s, StoreStep, s');
  }

  // Nonces carry no mark.
  lemma NonceMovesNoMark(a: set<Row>, b: set<Row>, n: Row)
    requires n.table == Nonces && b == a + {n}
    ensures HighWater(a) == HighWater(b)
  {
    assert MarkedRows(a) == MarkedRows(b);
    SameRowsSameMarks(a, b);
  }

  const OLD_AUDIT := Row(ToolAudit, 0, 1, -1000 * DAY, false)
  const LATE_NONCE := Row(Nonces, 1, 1, 20, false)

  ghost predicate Start(db: Db) {
    WellFormed(db) && db.rows == {OLD_AUDIT} && db.clock == 0 && db.nextWrite == 1
  }

  /** A reachable state in which a guarded apply is about to delete a nonce row that is in no backup:
      it was reserved after the copy and had expired by the previewed time. */
  lemma NonceEscapesBackup(cfg: Config, db0: Db) returns (s: Sys, pd: Pending, s': Sys)
    requires Start(db0)
    ensures Reachable(cfg, s) && NextApplyDelete(s, pd, s')
    ensures LATE_NONCE in s.db.rows - s'.db.rows
    ensures forall path :: path in s.files ==> LATE_NONCE !in s.files[path].rows
  {
    var drilled := ReachDrilled(cfg, db0);
    var db1 := Written(db0, UnexpiredNonces(db0) + {LATE_NONCE}, Nonces);
    assert UnexpiredNonces(db0) == db0.rows;
    assert ReserveNonce(db0, db1, 1, 20);
    var reserved := ReachStored(cfg, db0, drilled, db1);
    var db2 := db1.(clock := 30);
    assert Tick(db1, db2);
    var expired := ReachStored(cfg, db0, reserved, db2);
    NonceMovesNoMark(db0.rows, db2.rows, LATE_NONCE);
    s, pd := ReachChecked(cfg, db0, expired, 30);
    s' := s.(db := db2.(rows := db2.rows - Deletable(db2.rows, YEAR, 30)));
    LateNonceGoes(db2);
  }

  lemma LateNonceGoes(db2: Db)
    requires db2.rows == {OLD_AUDIT, LATE_NONCE} && db2.clock == 30
    ensures ApplyPolicy(db2, db2.(rows := db2.rows - Deletable(db2.rows, YEAR, 30)), YEAR, 30)
    ensures LATE_NONCE in Deletable(db2.rows, YEAR, 30)
  {
  }

  /** A reachable state in which an apply deletes a row and the preview it used still passes the report
      check: the row is a nonce reserved already expired, which the preview had not counted. */
  lemma UsedPreviewCanReturn(cfg: Config, db0: Db) returns (s: Sys, pd: Pending, s': Sys)
    requires WellFormed(db0) && db0.rows == {}
    ensures Reachable(cfg, s) && NextApplyDelete(s, pd, s') && s.db.rows - s'.db.rows != {}
    ensures pd.previewed.token.PreviewToken? && ReportMatches(cfg, s'.db.rows, pd.previewed.token)
  {
    var drilled := ReachDrilled(cfg, db0);
    var checked;
    checked, pd := ReachChecked(cfg, db0, drilled, db0.clock);
    var late := Row(Nonces, db0.nextWrite, 1, db0.clock, false);
    var db1 := Written(db0, UnexpiredNonces(db0) + {late}, Nonces);
    assert ReserveNonce(db0, db1, 1, db0.clock);
    s := ReachStored(cfg, db0, checked, db1);
    assert db1.rows == {late} == Deletable(db1.rows, YEAR, db0.clock);
    s' := s.(db := db1.(rows := db1.rows - Deletable(db1.rows, YEAR, db0.clock)));
    assert ApplyPolicy(db1, s'.db, YEAR, db0.clock);
    assert s'.db.rows == db0.rows;
  }
}
