/** What the promotion gate's verdict and its fingerprint say about the readings, in the readings' own terms. */
module PromotionEvidence {
  import opened Rounding
  import opened PromotionGate
  import opened Wrappers

  // ---------------------------------------------------------------- verdicts

  lemma {:induction false} NamedIff(checks: seq<ReadinessCheck>, status: CheckStatus)
    ensures NamesWith(checks, status) != [] <==> exists c :: c in checks && c.status == status
  {
    WithStatus(checks, status);
    if i :| 0 <= i < |checks| && checks[i].status == status {
      assert checks[i] in checks;
    }
  }

  lemma ReadinessVerdict(render: Render, r: Readiness)
    ensures ReadinessGate(render, r).status == Blocked <==> exists c :: c in r.checks && c.status == ReadyFailed
    ensures ReadinessGate(render, r).status == Warn <==>
              && !r.deep && (exists c :: c in r.checks && c.status == ReadySkipped)
              && (forall c :: c in r.checks ==> c.status != ReadyFailed)
  {
    NamedIff(r.checks, ReadyFailed);
    NamedIff(r.checks, ReadySkipped);
  }

  /** The alert check is blocked exactly when the counts under "P0" and "P1", zero where missing, add up to
      more than the limit. */
  lemma AlertVerdict(render: Render, m: Monitor, t: Thresholds)
    ensures var urgent := (if "P0" in m.activeBySeverity then m.activeBySeverity["P0"] else 0)
                          + (if "P1" in m.activeBySeverity then m.activeBySeverity["P1"] else 0);
            && (AlertGate(render, m, t).status == Blocked <==> urgent > t.maxActiveP0P1)
            && (AlertGate(render, m, t).status == Warn <==>
                  urgent <= t.maxActiveP0P1 && (m.activeAlertCount > t.maxActiveAlerts || m.newEventsSinceTriage > 0))
  {
  }

  // Counts under other severities never move it.
  lemma OtherSeveritiesDoNotCount(render: Render, m: Monitor, t: Thresholds, severity: string, count: nat)
    requires severity != "P0" && severity != "P1"
    ensures AlertGate(render, m.(activeBySeverity := m.activeBySeverity[severity := count]), t)
            == AlertGate(render, m, t)
    ensures AlertGate(render, m.(activeBySeverity := m.activeBySeverity - {severity}), t) == AlertGate(render, m, t)
  {
  }

  lemma ToolVerdict(render: Render, a: ToolAudit, t: Thresholds)
    ensures ToolGate(render, a, t).status == Blocked <==>
              a.totalCalls >= t.minToolCalls && a.failureRate > t.maxToolFailureRate
    ensures ToolGate(render, a, t).status == Warn <==> a.totalCalls < t.minToolCalls
  {
  }

  lemma FeedbackVerdict(render: Render, f: Feedback, t: Thresholds)
    ensures FeedbackGate(render, f, t).status == Blocked <==>
              f.totalCount >= t.minFeedbackCount && f.negativeRate > t.maxFeedbackNegativeRate
    ensures FeedbackGate(render, f, t).status == Warn <==> f.totalCount < t.minFeedbackCount
  {
  }

  // Rounding its age to thousandths of an hour gives an evaluation 1.8 seconds of grace.
  predicate Stale(completedAt: int, now: int, maxHours: int) {
    maxHours < 0 || now - completedAt > maxHours * 3_600_000_000 + 1_800_000
  }

  lemma QuotientExceeds(k: int, n: int)
    ensures k as real / 1000.0 > n as real <==> k > 1000 * n
  {
  }

  lemma ThousandthsOf(x: real)
    ensures RoundTo(x, 1000) == RoundEven(x * 1000.0) as real / 1000.0
  {
  }

  lemma Even(n: int, half: int)
    requires n == 2 * half
    ensures n % 2 == 0
  {
  }

  lemma EvenThousands(y: real, n: int)
    ensures RoundEven(y) > 1000 * n <==> y > (1000 * n) as real + 0.5
  {
    var m := 1000 * n;
    Even(m, 500 * n);
    ExceedsEven(y, m);
  }

  lemma ThousandthsExceed(x: real, n: int)
    ensures RoundTo(x, 1000) > n as real <==> x * 1000.0 > (1000 * n) as real + 0.5
  {
    ThousandthsOf(x);
    EvenThousands(x * 1000.0, n);
    QuotientExceeds(RoundEven(x * 1000.0), n);
  }

  lemma StaleIff(completedAt: int, now: int, maxHours: int)
    ensures AgeHours(completedAt, now) > maxHours as real <==> Stale(completedAt, now, maxHours)
  {
    var elapsed := now - completedAt;
    var hours := elapsed as real / 3_600_000_000.0;
    ThousandthsExceed(if hours > 0.0 then hours else 0.0, maxHours);
    assert hours * 3_600_000_000.0 == elapsed as real;
    assert (1000 * maxHours) as real == 1000.0 * maxHours as real;
  }

  lemma EvalVerdict(render: Render, e: Option<EvalRecord>, now: int, t: Thresholds)
    ensures EvalGate(render, e, now, t).status == Blocked <==> e == None || e.value.status != EvalPassed
    ensures EvalGate(render, e, now, t).status == Warn <==>
              e.Some? && e.value.status == EvalPassed && Stale(e.value.completedAt, now, t.maxEvalAgeHours)
  {
    if e.Some? {
      StaleIff(e.value.completedAt, now, t.maxEvalAgeHours);
    }
  }

  lemma StatusOfFive(a: Check, b: Check, c: Check, d: Check, e: Check)
    ensures var five := PromotionStatus([a, b, c, d, e]);
            && (five == Blocked <==> a.status == Blocked || b.status == Blocked || c.status == Blocked
                                     || d.status == Blocked || e.status == Blocked)
            && (five == Warn <==> five != Blocked && (a.status == Warn || b.status == Warn || c.status == Warn
                                                      || d.status == Warn || e.status == Warn))
  {
    var checks := [a, b, c, d, e];
    assert checks[0] == a && checks[1] == b && checks[2] == c && checks[3] == d && checks[4] == e;
  }

  // Reasons to block, and to warn, read off the readings.
  predicate Blocks(r: Readings, t: Thresholds) {
    || (exists c :: c in r.readiness.checks && c.status == ReadyFailed)
    || Urgent(r.monitor.activeBySeverity) > t.maxActiveP0P1
    || (r.tools.totalCalls >= t.minToolCalls && r.tools.failureRate > t.maxToolFailureRate)
    || (r.feedback.totalCount >= t.minFeedbackCount && r.feedback.negativeRate > t.maxFeedbackNegativeRate)
    || r.eval == None || r.eval.value.status != EvalPassed
  }

  predicate Warns(r: Readings, now: int, t: Thresholds) {
    || (!r.readiness.deep && exists c :: c in r.readiness.checks && c.status == ReadySkipped)
    || r.monitor.activeAlertCount > t.maxActiveAlerts || r.monitor.newEventsSinceTriage > 0
    || r.tools.totalCalls < t.minToolCalls || r.feedback.totalCount < t.minFeedbackCount
    || (r.eval.Some? && Stale(r.eval.value.completedAt, now, t.maxEvalAgeHours))
  }

  /** The whole gate: blocked exactly when the readings hold a reason to block, and else a warning exactly
      when they hold a reason to warn. */
  lemma GateVerdict(render: Render, environment: string, window: int, r: Readings, now: int, t: Thresholds)
    ensures GateOf(render, environment, window, r, now, t).status
         == if Blocks(r, t) then Blocked else if Warns(r, now, t) then Warn else Passed
  {
    ReadinessVerdict(render, r.readiness);
    AlertVerdict(render, r.monitor, t);
    ToolVerdict(render, r.tools, t);
    FeedbackVerdict(render, r.feedback, t);
    EvalVerdict(render, r.eval, now, t);
    StatusOfFive(ReadinessGate(render, r.readiness), AlertGate(render, r.monitor, t), ToolGate(render, r.tools, t),
                 FeedbackGate(render, r.feedback, t), EvalGate(render, r.eval, now, t));
  }

  // ---------------------------------------------------------------- what a fingerprint covers

  function FirstFive(reasons: seq<string>): seq<string> {
    if |reasons| <= 5 then reasons else reasons[..5]
  }

  // The same readings, as far as the gate looks at them.
  predicate SameMonitor(m: Monitor, m': Monitor) {
    && m.source == m'.source && Urgent(m.activeBySeverity) == Urgent(m'.activeBySeverity)
    && m.activeAlertCount == m'.activeAlertCount && m.newEventsSinceTriage == m'.newEventsSinceTriage
    && m.healthStatus == m'.healthStatus
  }

  predicate SameFeedback(f: Feedback, f': Feedback) {
    f.(reasons := FirstFive(f.reasons)) == f'.(reasons := FirstFive(f'.reasons))
  }

  predicate SameReadings(r: Readings, r': Readings) {
    && r.readiness == r'.readiness && SameMonitor(r.monitor, r'.monitor) && r.tools == r'.tools
    && SameFeedback(r.feedback, r'.feedback) && r.eval == r'.eval
  }

  lemma StrsInjective(a: seq<string>, b: seq<string>)
    requires Strs(a) == Strs(b)
    ensures a == b
  {
    assert |Strs(a).items| == |a| && |Strs(b).items| == |b|;
    forall i | 0 <= i < |a| ensures a[i] == b[i] {
      assert Strs(a).items[i] == JStr(a[i]) && Strs(b).items[i] == JStr(b[i]);
    }
  }

  lemma AlertEvidence(render: Render, m: Monitor, m': Monitor, t: Thresholds)
    requires AlertGate(render, m, t).evidence == AlertGate(render, m', t).evidence && m.source == m'.source
    ensures SameMonitor(m, m')
  {
    var a, b := AlertGate(render, m, t).evidence, AlertGate(render, m', t).evidence;
    assert a["active_alert_count"] == b["active_alert_count"];
    assert a["active_p0p1_alert_count"] == b["active_p0p1_alert_count"];
    assert a["new_events_since_triage_count"] == b["new_events_since_triage_count"];
    assert a["health_status"] == b["health_status"];
  }

  lemma ToolEvidence(render: Render, x: ToolAudit, y: ToolAudit, t: Thresholds)
    requires ToolGate(render, x, t).evidence == ToolGate(render, y, t).evidence
    ensures x == y
  {
    var a, b := ToolGate(render, x, t).evidence, ToolGate(render, y, t).evidence;
    assert a["total_calls"] == b["total_calls"] && a["failed_calls"] == b["failed_calls"];
    assert a["failure_rate"] == b["failure_rate"] && a["top_error_codes"] == b["top_error_codes"];
    StrsInjective(x.topErrorCodes, y.topErrorCodes);
  }

  lemma FeedbackFigures(render: Render, f: Feedback, t: Thresholds)
    ensures var e := FeedbackGate(render, f, t).evidence;
            && "total_count" in e && e["total_count"] == Num(f.totalCount)
            && "positive_count" in e && e["positive_count"] == Num(f.positiveCount)
            && "negative_count" in e && e["negative_count"] == Num(f.negativeCount)
            && "negative_rate" in e && e["negative_rate"] == JNum(f.negativeRate)
  {
  }

  lemma FeedbackTexts(render: Render, f: Feedback, t: Thresholds)
    ensures var e := FeedbackGate(render, f, t).evidence;
            && "window_start" in e && e["window_start"] == OptStr(f.windowStart)
            && "window_end" in e && e["window_end"] == OptStr(f.windowEnd)
            && "top_reasons" in e && e["top_reasons"] == Strs(FirstFive(f.reasons))
  {
  }

  lemma FeedbackEvidence(render: Render, x: Feedback, y: Feedback, t: Thresholds)
    requires FeedbackGate(render, x, t).evidence == FeedbackGate(render, y, t).evidence
    ensures SameFeedback(x, y)
  {
    FeedbackFigures(render, x, t);
    FeedbackFigures(render, y, t);
    FeedbackTexts(render, x, t);
    FeedbackTexts(render, y, t);
    StrsInjective(FirstFive(x.reasons), FirstFive(y.reasons));
  }

  lemma EvalEvidence(render: Render, e: EvalRecord, e': EvalRecord, now: int, now': int, t: Thresholds)
    requires ViewEval(Some(e)) == ViewEval(Some(e'))
    requires ViewCheck(EvalGate(render, Some(e), now, t)) == ViewCheck(EvalGate(render, Some(e'), now', t))
    ensures e == e'
  {
    var a, b := ViewCheck(EvalGate(render, Some(e), now, t)).evidence,
        ViewCheck(EvalGate(render, Some(e'), now', t)).evidence;
    assert a["passed"] == b["passed"] && a["total"] == b["total"];
  }

  // Only the evaluation's evidence holds an age.
  lemma NoAge(render: Render, r: Readings, t: Thresholds)
    ensures "age_hours" !in ReadinessGate(render, r.readiness).evidence
    ensures "age_hours" !in AlertGate(render, r.monitor, t).evidence
    ensures "age_hours" !in ToolGate(render, r.tools, t).evidence
    ensures "age_hours" !in FeedbackGate(render, r.feedback, t).evidence
  {
  }

  lemma ViewKeeps(c: Check)
    requires "age_hours" !in c.evidence
    ensures ViewCheck(c) == c
  {
    assert c.evidence - {"age_hours"} == c.evidence;
  }

  lemma ViewOfFive(g: Gate, a: Check, b: Check, c: Check, d: Check, e: Check)
    requires g.checks == [a, b, c, d, e]
    requires ViewCheck(a) == a && ViewCheck(b) == b && ViewCheck(c) == c && ViewCheck(d) == d
    ensures View(g).checks == [a, b, c, d, ViewCheck(e)]
  {
  }

  lemma ViewOfChecks(render: Render, environment: string, window: int, r: Readings, now: int, t: Thresholds)
    ensures View(GateOf(render, environment, window, r, now, t)).checks
         == [ReadinessGate(render, r.readiness), AlertGate(render, r.monitor, t), ToolGate(render, r.tools, t),
             FeedbackGate(render, r.feedback, t), ViewCheck(EvalGate(render, r.eval, now, t))]
  {
    var a, b, c, d := ReadinessGate(render, r.readiness), AlertGate(render, r.monitor, t), ToolGate(render, r.tools, t),
                      FeedbackGate(render, r.feedback, t);
    NoAge(render, r, t);
    ViewKeeps(a);
    ViewKeeps(b);
    ViewKeeps(c);
    ViewKeeps(d);
    ViewOfFive(GateOf(render, environment, window, r, now, t), a, b, c, d, EvalGate(render, r.eval, now, t));
  }

  lemma SameChecksSameReadings(render: Render, r: Readings, r': Readings, now: int, now': int, t: Thresholds)
    requires r.readiness == r'.readiness && r.monitor.source == r'.monitor.source
            && ViewEval(r.eval) == ViewEval(r'.eval)
    requires AlertGate(render, r.monitor, t) == AlertGate(render, r'.monitor, t)
    requires ToolGate(render, r.tools, t) == ToolGate(render, r'.tools, t)
    requires FeedbackGate(render, r.feedback, t) == FeedbackGate(render, r'.feedback, t)
    requires ViewCheck(EvalGate(render, r.eval, now, t)) == ViewCheck(EvalGate(render, r'.eval, now', t))
    ensures SameReadings(r, r')
  {
    AlertEvidence(render, r.monitor, r'.monitor, t);
    ToolEvidence(render, r.tools, r'.tools, t);
    FeedbackEvidence(render, r.feedback, r'.feedback, t);
    if r.eval.Some? {
      EvalEvidence(render, r.eval.value, r'.eval.value, now, now', t);
    }
  }

  lemma SameReadingsSameChecks(render: Render, r: Readings, r': Readings, now: int, now': int, t: Thresholds)
    requires SameReadings(r, r') && EvalGate(render, r.eval, now, t).status == EvalGate(render, r.eval, now', t).status
    ensures AlertGate(render, r.monitor, t) == AlertGate(render, r'.monitor, t)
    ensures FeedbackGate(render, r.feedback, t) == FeedbackGate(render, r'.feedback, t)
    ensures ViewCheck(EvalGate(render, r.eval, now, t)) == ViewCheck(EvalGate(render, r'.eval, now', t))
  {
    EvalViewIgnoresAge(render, r.eval, now, now', t);
  }

  // Whether the evaluation counts as fresh is the same at both instants.
  predicate SameFreshness(e: Option<EvalRecord>, now: int, now': int, maxHours: int) {
    e.Some? && e.value.status == EvalPassed ==>
      (Stale(e.value.completedAt, now, maxHours) <==> Stale(e.value.completedAt, now', maxHours))
  }

  lemma SameFreshnessSameStatus(render: Render, e: Option<EvalRecord>, now: int, now': int, t: Thresholds)
    ensures SameFreshness(e, now, now', t.maxEvalAgeHours) <==>
              EvalGate(render, e, now, t).status == EvalGate(render, e, now', t).status
  {
    EvalVerdict(render, e, now, t);
    EvalVerdict(render, e, now', t);
  }

  /** Two gates have the same fingerprint exactly when they were asked for the same environment, window and
      thresholds, read the same, and found the evaluation on the same side of its age limit. */
  lemma SameFingerprintIff(digest: Digest, render: Render, environment: string, environment': string, window: int,
                           window': int, r: Readings, r': Readings, now: int, now': int, t: Thresholds, t': Thresholds)
    requires Injective(digest)
    ensures Fingerprint(digest, GateOf(render, environment, window, r, now, t))
         == Fingerprint(digest, GateOf(render, environment', window', r', now', t'))
       <==> && environment == environment' && window == window' && t == t' && SameReadings(r, r')
            && SameFreshness(r.eval, now, now', t.maxEvalAgeHours)
  {
    var g, h := GateOf(render, environment, window, r, now, t), GateOf(render, environment', window', r', now', t');
    ViewOfChecks(render, environment, window, r, now, t);
    ViewOfChecks(render, environment', window', r', now', t');
    SameFreshnessSameStatus(render, r.eval, now, now', t);
    if Fingerprint(digest, g) == Fingerprint(digest, h) {
      FingerprintDetermines(digest, g, h);
      SameCheck(View(g).checks, View(h).checks);
      SameChecksSameReadings(render, r, r', now, now', t);
      assert g.checks[4].status == h.checks[4].status;
    }
    if environment == environment' && window == window' && t == t' && SameReadings(r, r')
       && SameFreshness(r.eval, now, now', t.maxEvalAgeHours) {
      SameReadingsSameChecks(render, r, r', now, now', t);
      SameVerdict(render, r, r', now, now', t);
      assert View(g) == View(h);
    }
  }

  lemma SameCheck(a: seq<Check>, b: seq<Check>)
    requires a == b && |a| == 5
    ensures a[0] == b[0] && a[1] == b[1] && a[2] == b[2] && a[3] == b[3] && a[4] == b[4]
  {
  }

  lemma SameVerdict(render: Render, r: Readings, r': Readings, now: int, now': int, t: Thresholds)
    requires SameReadings(r, r') && SameFreshness(r.eval, now, now', t.maxEvalAgeHours)
    ensures PromotionStatus(Checks(render, r, now, t)) == PromotionStatus(Checks(render, r', now', t))
  {
    SameFreshnessSameStatus(render, r.eval, now, now', t);
    SameReadingsSameChecks(render, r, r', now, now', t);
    SameViewsSameStatus(Checks(render, r, now, t), Checks(render, r', now', t));
  }
}
