/** The promotion gate, its fingerprint, and the SLO objectives computed from the same readings. */
module PromotionGate {
  import opened Rounding
  import opened Wrappers

  // ---------------------------------------------------------------- readings

  datatype CheckStatus = ReadyOk | ReadyFailed | ReadySkipped
  datatype ReadinessCheck = ReadinessCheck(name: string, status: CheckStatus, detail: string)
  datatype Readiness = Readiness(status: string, environment: string, deep: bool, ops: bool,
                                 checks: seq<ReadinessCheck>)

  datatype Monitor = Monitor(
    source: string,
    activeBySeverity: map<string, nat>,
    activeAlertCount: nat,
    newEventsSinceTriage: nat,
    healthStatus: string)

  datatype ToolAudit = ToolAudit(totalCalls: nat, failedCalls: nat, failureRate: real, topErrorCodes: seq<string>)

  datatype Feedback = Feedback(
    totalCount: nat,
    positiveCount: nat,
    negativeCount: nat,
    negativeRate: real,
    windowStart: Option<string>,
    windowEnd: Option<string>,
    reasons: seq<string>)

  datatype EvalStatus = EvalPassed | EvalFailed | EvalError
  datatype EvalRecord = EvalRecord(
    id: string,
    status: EvalStatus,
    suiteId: string,
    runner: string,
    passed: Option<nat>,
    total: Option<nat>,
    completedAt: int)

  datatype Readings = Readings(
    readiness: Readiness,
    monitor: Monitor,
    tools: ToolAudit,
    feedback: Feedback,
    eval: Option<EvalRecord>)

  datatype Thresholds = Thresholds(
    maxActiveP0P1: int,
    maxActiveAlerts: int,
    maxToolFailureRate: real,
    maxFeedbackNegativeRate: real,
    maxEvalAgeHours: int,
    minToolCalls: int,
    minFeedbackCount: int)

  // ---------------------------------------------------------------- checks

  datatype Status = Passed | Warn | Blocked

  datatype Json = JNull | JBool(b: bool) | JNum(n: real) | JStr(s: string) | JList(items: seq<Json>)

  datatype Check = Check(name: string, status: Status, detail: string, evidence: map<string, Json>)

  // The message texts, whose formatting is left to `Render`.
  datatype Detail =
    | ReadinessFailures(count: int) | ReadinessShallow | ReadinessPassed
    | P0P1Exceeded(count: int, limit: int) | AlertsExceeded(count: int, limit: int) | NewSinceTriage | AlertsWithin
    | ToolsThin(calls: int) | ToolsExceeded(rate: real, maxRate: real) | ToolsWithin
    | FeedbackThin(count: int) | FeedbackExceeded(rate: real, maxRate: real) | FeedbackWithin
    | EvalMissing | EvalNotPassed(status: EvalStatus) | EvalStale(hours: int) | EvalFresh

  type Render = Detail -> string

  function Num(n: int): Json { JNum(n as real) }

  function Strs(s: seq<string>): Json {
    JList(seq(|s|, i requires 0 <= i < |s| => JStr(s[i])))
  }

  function OptNum(n: Option<nat>): Json {
    if n.Some? then Num(n.value) else JNull
  }

  function OptStr(s: Option<string>): Json {
    if s.Some? then JStr(s.value) else JNull
  }

  function NamesWith(checks: seq<ReadinessCheck>, status: CheckStatus): seq<string> {
    if checks == [] then []
    else (if checks[0].status == status then [checks[0].name] else []) + NamesWith(checks[1..], status)
  }

  function ReadinessGate(render: Render, r: Readiness): Check {
    var failed := NamesWith(r.checks, ReadyFailed);
    var skipped := NamesWith(r.checks, ReadySkipped);
    var common := map["status" := JStr(r.status), "deep" := JBool(r.deep), "ops" := JBool(r.ops)];
    if failed != [] then
      Check("readiness", Blocked, render(ReadinessFailures(|failed|)), common["failed_checks" := Strs(failed)])
    else if !r.deep && skipped != [] then
      Check("readiness", Warn, render(ReadinessShallow), common["skipped_checks" := Strs(skipped)])
    else Check("readiness", Passed, render(ReadinessPassed), common)
  }

  function Active(m: Monitor, severity: string): nat {
    if severity in m.activeBySeverity then m.activeBySeverity[severity] else 0
  }

  function P0P1(m: Monitor): nat {
    Active(m, "P0") + Active(m, "P1")
  }

  function AlertGate(render: Render, m: Monitor, t: Thresholds): Check {
    var evidence := map[
      "active_alert_count" := Num(m.activeAlertCount),
      "active_p0p1_alert_count" := Num(P0P1(m)),
      "new_events_since_triage_count" := Num(m.newEventsSinceTriage),
      "health_status" := JStr(m.healthStatus)];
    if P0P1(m) > t.maxActiveP0P1
        then Check("monitor_alerts", Blocked, render(P0P1Exceeded(P0P1(m), t.maxActiveP0P1)), evidence)
    else if m.activeAlertCount > t.maxActiveAlerts then
      Check("monitor_alerts", Warn, render(AlertsExceeded(m.activeAlertCount, t.maxActiveAlerts)), evidence)
    else if m.newEventsSinceTriage != 0 then Check("monitor_alerts", Warn, render(NewSinceTriage), evidence)
    else Check("monitor_alerts", Passed, render(AlertsWithin), evidence)
  }

  function ToolGate(render: Render, a: ToolAudit, t: Thresholds): Check {
    var evidence := map[
      "total_calls" := Num(a.totalCalls),
      "failed_calls" := Num(a.failedCalls),
      "failure_rate" := JNum(a.failureRate),
      "top_error_codes" := Strs(a.topErrorCodes)];
    if a.totalCalls < t.minToolCalls then Check("tool_audit", Warn, render(ToolsThin(a.totalCalls)), evidence)
    else if a.failureRate > t.maxToolFailureRate then
      Check("tool_audit", Blocked, render(ToolsExceeded(a.failureRate, t.maxToolFailureRate)), evidence)
    else Check("tool_audit", Passed, render(ToolsWithin), evidence)
  }

  function FeedbackGate(render: Render, f: Feedback, t: Thresholds): Check {
    var evidence := map[
      "total_count" := Num(f.totalCount),
      "positive_count" := Num(f.positiveCount),
      "negative_count" := Num(f.negativeCount),
      "negative_rate" := JNum(f.negativeRate),
      "max_negative_rate" := JNum(t.maxFeedbackNegativeRate),
      "min_feedback_count" := Num(t.minFeedbackCount),
      "window_start" := OptStr(f.windowStart),
      "window_end" := OptStr(f.windowEnd),
      "top_reasons" := Strs(if |f.reasons| <= 5 then f.reasons else f.reasons[..5])];
    if f.totalCount < t.minFeedbackCount then Check("feedback", Warn, render(FeedbackThin(f.totalCount)), evidence)
    else if f.negativeRate > t.maxFeedbackNegativeRate then
      Check("feedback", Blocked, render(FeedbackExceeded(f.negativeRate, t.maxFeedbackNegativeRate)), evidence)
    else Check("feedback", Passed, render(FeedbackWithin), evidence)
  }

  // Hours since completion, never negative, rounded to three places; instants are microseconds.
  function AgeHours(completedAt: int, now: int): real {
    var hours := (now - completedAt) as real / 3_600_000_000.0;
    RoundTo(if hours > 0.0 then hours else 0.0, 1000)
  }

  function EvalStatusText(s: EvalStatus): string {
    match s case EvalPassed => "passed" case EvalFailed => "failed" case EvalError => "error"
  }

  function EvalGate(render: Render, eval: Option<EvalRecord>, now: int, t: Thresholds): Check {
    if eval == None then Check("staging_eval_gate", Blocked, render(EvalMissing), map[])
    else
      var r := eval.value;
      var age := AgeHours(r.completedAt, now);
      var evidence := map[
        "gate_id" := JStr(r.id),
        "status" := JStr(EvalStatusText(r.status)),
        "suite_id" := JStr(r.suiteId),
        "passed" := OptNum(r.passed),
        "total" := OptNum(r.total),
        "age_hours" := JNum(age)];
      if r.status != EvalPassed then Check("staging_eval_gate", Blocked, render(EvalNotPassed(r.status)), evidence)
      else if age > t.maxEvalAgeHours as real
          then Check("staging_eval_gate", Warn, render(EvalStale(t.maxEvalAgeHours)), evidence)
      else Check("staging_eval_gate", Passed, render(EvalFresh), evidence)
  }

  function PromotionStatus(checks: seq<Check>): Status {
    if exists i :: 0 <= i < |checks| && checks[i].status == Blocked then Blocked
    else if exists i :: 0 <= i < |checks| && checks[i].status == Warn then Warn
    else Passed
  }

  datatype Gate = Gate(
    status: Status,
    generatedAt: int,
    environment: string,
    source: string,
    windowHours: int,
    thresholds: Thresholds,
    checks: seq<Check>,
    readiness: Readiness,
    eval: Option<EvalRecord>)

  function Checks(render: Render, r: Readings, now: int, t: Thresholds): seq<Check> {
    [ReadinessGate(render, r.readiness),
     AlertGate(render, r.monitor, t),
     ToolGate(render, r.tools, t),
     FeedbackGate(render, r.feedback, t),
     EvalGate(render, r.eval, now, t)]
  }

  function GateOf(render: Render, environment: string, window: int, r: Readings, now: int, t: Thresholds): Gate {
    var checks := Checks(render, r, now, t);
    Gate(PromotionStatus(checks), now, environment, r.monitor.source, window, t, checks, r.readiness, r.eval)
  }

  // ---------------------------------------------------------------- overall status

  function Rank(s: Status): nat {
    match s case Passed => 0 case Warn => 1 case Blocked => 2
  }

  // The overall status is the worst status of any check.
  lemma StatusIsWorst(checks: seq<Check>)
    ensures forall c :: c in checks ==> Rank(c.status) <= Rank(PromotionStatus(checks))
    ensures PromotionStatus(checks) != Passed ==> exists c :: c in checks && c.status == PromotionStatus(checks)
  {
  }

  // Reordering the checks changes nothing.
  lemma OrderIrrelevant(a: seq<Check>, b: seq<Check>)
    requires multiset(a) == multiset(b)
    ensures PromotionStatus(a) == PromotionStatus(b)
  {
    assert forall c :: c in a <==> c in multiset(a);
    assert forall c :: c in b <==> c in multiset(b);
    StatusIsWorst(a);
    StatusIsWorst(b);
  }

  // ---------------------------------------------------------------- monotonicity

  // Nothing about the readiness run r' reads better than r: it is no deeper, it fails where r does, and
  // unless it fails it has skipped checks where r has.
  predicate NoReadier(r: Readiness, r': Readiness) {
    && (r'.deep ==> r.deep)
    && (NamesWith(r.checks, ReadyFailed) != [] ==> NamesWith(r'.checks, ReadyFailed) != [])
    && (NamesWith(r.checks, ReadySkipped) != [] ==>
          NamesWith(r'.checks, ReadySkipped) != [] || NamesWith(r'.checks, ReadyFailed) != [])
  }

  // How many alerts are active under the two highest severities, by severity counts.
  function Urgent(bySeverity: map<string, nat>): nat {
    (if "P0" in bySeverity then bySeverity["P0"] else 0) + (if "P1" in bySeverity then bySeverity["P1"] else 0)
  }

  // Sample counts fixed; nothing about r' reads better than r.
  ghost predicate NoBetter(r: Readings, r': Readings) {
    && NoReadier(r.readiness, r'.readiness)
    && Urgent(r.monitor.activeBySeverity) <= Urgent(r'.monitor.activeBySeverity)
    && r.monitor.activeAlertCount <= r'.monitor.activeAlertCount
    && r.monitor.newEventsSinceTriage <= r'.monitor.newEventsSinceTriage
    && r.tools.totalCalls == r'.tools.totalCalls && r.tools.failureRate <= r'.tools.failureRate
    && r.feedback.totalCount == r'.feedback.totalCount && r.feedback.negativeRate <= r'.feedback.negativeRate
    && (r.eval == r'.eval || r'.eval == None || r'.eval.value.status != EvalPassed
        || (r.eval.Some? && r.eval.value.status == EvalPassed && r'.eval.value.completedAt <= r.eval.value.completedAt))
  }

  function Severity(s: CheckStatus): nat {
    match s case ReadyOk => 0 case ReadySkipped => 1 case ReadyFailed => 2
  }

  // The same checks, each reading no better than before: in particular a skipped one that now fails.
  predicate EachNoBetter(a: seq<ReadinessCheck>, b: seq<ReadinessCheck>) {
    |a| == |b| && forall i :: 0 <= i < |a| ==> Severity(a[i].status) <= Severity(b[i].status)
  }

  lemma {:induction false} WithStatus(checks: seq<ReadinessCheck>, status: CheckStatus)
    ensures NamesWith(checks, status) != [] <==> exists i :: 0 <= i < |checks| && checks[i].status == status
  {
    if checks != [] {
      WithStatus(checks[1..], status);
      assert forall i :: 1 <= i < |checks| ==> checks[i] == checks[1..][i - 1];
    }
  }

  // Worse checks, one by one, are a worse readiness run.
  lemma WorseChecksNoReadier(r: Readiness, r': Readiness)
    requires EachNoBetter(r.checks, r'.checks) && (r'.deep ==> r.deep)
    ensures NoReadier(r, r')
  {
    WithStatus(r.checks, ReadyFailed);
    WithStatus(r'.checks, ReadyFailed);
    WithStatus(r.checks, ReadySkipped);
    WithStatus(r'.checks, ReadySkipped);
    if i :| 0 <= i < |r.checks| && r.checks[i].status == ReadyFailed {
      assert r'.checks[i].status == ReadyFailed;
    }
    if i :| 0 <= i < |r.checks| && r.checks[i].status == ReadySkipped {
      assert r'.checks[i].status == ReadySkipped || r'.checks[i].status == ReadyFailed;
    }
  }

  ghost predicate NoLooser(t: Thresholds, t': Thresholds) {
    && t'.maxActiveP0P1 <= t.maxActiveP0P1 && t'.maxActiveAlerts <= t.maxActiveAlerts
    && t'.maxToolFailureRate <= t.maxToolFailureRate && t'.maxFeedbackNegativeRate <= t.maxFeedbackNegativeRate
    && t'.maxEvalAgeHours <= t.maxEvalAgeHours
    && t'.minToolCalls == t.minToolCalls && t'.minFeedbackCount == t.minFeedbackCount
  }

  lemma AgeMonotone(completedAt: int, completedAt': int, now: int, now': int)
    requires now <= now' && completedAt' <= completedAt
    ensures AgeHours(completedAt, now) <= AgeHours(completedAt', now')
  {
    var h, h' := (now - completedAt) as real / 3_600_000_000.0, (now' - completedAt') as real / 3_600_000_000.0;
    ThousandthsMonotone(if h > 0.0 then h else 0.0, if h' > 0.0 then h' else 0.0);
  }

  lemma EvalMonotone(render: Render, e: Option<EvalRecord>, e': Option<EvalRecord>, now: int, now': int,
                     t: Thresholds, t': Thresholds)
    requires now <= now' && NoLooser(t, t')
    requires e == e' || e' == None || e'.value.status != EvalPassed
             || (e.Some? && e.value.status == EvalPassed && e'.value.completedAt <= e.value.completedAt)
    ensures Rank(EvalGate(render, e, now, t).status) <= Rank(EvalGate(render, e', now', t').status)
  {
    if e.Some? && e'.Some? && e'.value.status == EvalPassed {
      AgeMonotone(e.value.completedAt, e'.value.completedAt, now, now');
    }
  }

  lemma AlertMonotone(render: Render, m: Monitor, m': Monitor, t: Thresholds, t': Thresholds)
    requires Urgent(m.activeBySeverity) <= Urgent(m'.activeBySeverity) && m.activeAlertCount <= m'.activeAlertCount
    requires m.newEventsSinceTriage <= m'.newEventsSinceTriage && NoLooser(t, t')
    ensures Rank(AlertGate(render, m, t).status) <= Rank(AlertGate(render, m', t').status)
  {
  }

  lemma ToolMonotone(render: Render, a: ToolAudit, a': ToolAudit, t: Thresholds, t': Thresholds)
    requires a.totalCalls == a'.totalCalls && a.failureRate <= a'.failureRate && NoLooser(t, t')
    ensures Rank(ToolGate(render, a, t).status) <= Rank(ToolGate(render, a', t').status)
  {
  }

  lemma FeedbackMonotone(render: Render, f: Feedback, f': Feedback, t: Thresholds, t': Thresholds)
    requires f.totalCount == f'.totalCount && f.negativeRate <= f'.negativeRate && NoLooser(t, t')
    ensures Rank(FeedbackGate(render, f, t).status) <= Rank(FeedbackGate(render, f', t').status)
  {
  }

  lemma ReadinessMonotone(render: Render, r: Readiness, r': Readiness)
    requires NoReadier(r, r')
    ensures Rank(ReadinessGate(render, r).status) <= Rank(ReadinessGate(render, r').status)
  {
  }

  /** Worse readings, a later evaluation or tighter maxima never improve the overall status. */
  lemma GateMonotone(render: Render, r: Readings, r': Readings, now: int, now': int, t: Thresholds, t': Thresholds)
    requires NoBetter(r, r') && now <= now' && NoLooser(t, t')
    ensures Rank(PromotionStatus(Checks(render, r, now, t))) <= Rank(PromotionStatus(Checks(render, r', now', t')))
  {
    ReadinessMonotone(render, r.readiness, r'.readiness);
    AlertMonotone(render, r.monitor, r'.monitor, t, t');
    ToolMonotone(render, r.tools, r'.tools, t, t');
    FeedbackMonotone(render, r.feedback, r'.feedback, t, t');
    EvalMonotone(render, r.eval, r'.eval, now, now', t, t');
    FiveWorse(ReadinessGate(render, r.readiness), AlertGate(render, r.monitor, t), ToolGate(render, r.tools, t),
              FeedbackGate(render, r.feedback, t), EvalGate(render, r.eval, now, t),
              ReadinessGate(render, r'.readiness), AlertGate(render, r'.monitor, t'), ToolGate(render, r'.tools, t'),
              FeedbackGate(render, r'.feedback, t'), EvalGate(render, r'.eval, now', t'));
  }

  lemma FiveWorse(a: Check, b: Check, c: Check, d: Check, e: Check, a': Check, b': Check, c': Check, d': Check,
                  e': Check)
    requires Rank(a.status) <= Rank(a'.status) && Rank(b.status) <= Rank(b'.status) && Rank(c.status) <= Rank(c'.status)
    requires Rank(d.status) <= Rank(d'.status) && Rank(e.status) <= Rank(e'.status)
    ensures Rank(PromotionStatus([a, b, c, d, e])) <= Rank(PromotionStatus([a', b', c', d', e']))
  {
    WorseChecksWorseStatus([a, b, c, d, e], [a', b', c', d', e']);
  }

  lemma WorseChecksWorseStatus(a: seq<Check>, b: seq<Check>)
    requires |a| == |b| && forall i :: 0 <= i < |a| ==> Rank(a[i].status) <= Rank(b[i].status)
    ensures Rank(PromotionStatus(a)) <= Rank(PromotionStatus(b))
  {
    StatusIsWorst(a);
    StatusIsWorst(b);
    if PromotionStatus(a) != Passed {
      var i :| 0 <= i < |a| && a[i].status == PromotionStatus(a);
      assert b[i] in b;
    }
  }

  // ---------------------------------------------------------------- fingerprint

  datatype EvalView = EvalView(id: string, status: EvalStatus, suiteId: string, runner: string, completedAt: int)
  datatype GateView = GateView(
    status: Status,
    environment: string,
    source: string,
    windowHours: int,
    thresholds: Thresholds,
    checks: seq<Check>,
    readiness: Readiness,
    eval: Option<EvalView>)

  function ViewCheck(c: Check): Check {
    c.(evidence := c.evidence - {"age_hours"})
  }

  function ViewEval(e: Option<EvalRecord>): Option<EvalView> {
    if e == None then None
    else Some(EvalView(e.value.id, e.value.status, e.value.suiteId, e.value.runner, e.value.completedAt))
  }

  function View(g: Gate): GateView {
    GateView(g.status, g.environment, g.source, g.windowHours, g.thresholds,
             seq(|g.checks|, i requires 0 <= i < |g.checks| => ViewCheck(g.checks[i])), g.readiness, ViewEval(g.eval))
  }

  // The truncated SHA-256 of the canonical JSON, left uninterpreted.
  type Digest = GateView -> string

  function Fingerprint(digest: Digest, g: Gate): string {
    digest(View(g))
  }

  ghost predicate Injective(digest: Digest) {
    forall v, w :: digest(v) == digest(w) ==> v == w
  }

  lemma FingerprintDetermines(digest: Digest, g: Gate, h: Gate)
    requires Injective(digest) && Fingerprint(digest, g) == Fingerprint(digest, h)
    ensures g.status == h.status && g.thresholds == h.thresholds && g.environment == h.environment
    ensures g.source == h.source && g.windowHours == h.windowHours && g.readiness == h.readiness
    ensures |g.checks| == |h.checks|
    ensures forall i :: 0 <= i < |g.checks| ==>
              g.checks[i].name == h.checks[i].name && g.checks[i].status == h.checks[i].status
  {
    assert View(g) == View(h);
    forall i | 0 <= i < |g.checks|
      ensures ViewCheck(g.checks[i]) == ViewCheck(h.checks[i])
    {
      assert View(g).checks[i] == View(h).checks[i];
    }
  }

  /** Time alone moves the fingerprint of unchanged readings in one case only: the evaluation's age has
      crossed its limit in between. */
  lemma FingerprintIgnoresTime(digest: Digest, render: Render, environment: string, window: int, r: Readings,
                               t: Thresholds, now: int, now': int)
    requires Injective(digest)
    ensures Fingerprint(digest, GateOf(render, environment, window, r, now, t))
         == Fingerprint(digest, GateOf(render, environment, window, r, now', t))
       <==> EvalGate(render, r.eval, now, t).status == EvalGate(render, r.eval, now', t).status
  {
    var g, h := GateOf(render, environment, window, r, now, t), GateOf(render, environment, window, r, now', t);
    if EvalGate(render, r.eval, now, t).status == EvalGate(render, r.eval, now', t).status {
      EvalViewIgnoresAge(render, r.eval, now, now', t);
      SameViewsSameStatus(g.checks, h.checks);
      assert View(g).checks == View(h).checks;
    } else {
      assert g.checks[4].status != h.checks[4].status;
      if Fingerprint(digest, g) == Fingerprint(digest, h) {
        FingerprintDetermines(digest, g, h);
      }
    }
  }

  lemma EvalViewIgnoresAge(render: Render, e: Option<EvalRecord>, now: int, now': int, t: Thresholds)
    requires EvalGate(render, e, now, t).status == EvalGate(render, e, now', t).status
    ensures ViewCheck(EvalGate(render, e, now, t)) == ViewCheck(EvalGate(render, e, now', t))
  {
    assert EvalGate(render, e, now, t).evidence - {"age_hours"}
        == EvalGate(render, e, now', t).evidence - {"age_hours"};
  }

  lemma SameViewsSameStatus(a: seq<Check>, b: seq<Check>)
    requires |a| == |b| && forall i :: 0 <= i < |a| ==> a[i].status == b[i].status
    ensures PromotionStatus(a) == PromotionStatus(b)
  {
    WorseChecksWorseStatus(a, b);
    WorseChecksWorseStatus(b, a);
  }
}
