/** SLO objectives over the readings the promotion gate also judges. */
module SloReport {
  import opened Rounding
  import opened PromotionGate
  import opened PromotionEvidence
  import opened Wrappers

  datatype SloStatus = Met | AtRisk | Breached | NoData

  datatype Objective = Objective(status: SloStatus, budget: Option<real>)

  function BoundedBudget(value: real): real {
    RoundTo(if value < 0.0 then 0.0 else if value > 1.0 then 1.0 else value, 10000)
  }

  function RateStatus(withinTarget: bool, remaining: real): SloStatus {
    if !withinTarget then Breached else if remaining < 0.25 then AtRisk else Met
  }

  function MaximumRate(observed: real, target: real, samples: int, minSamples: int): Objective {
    if samples < minSamples then Objective(NoData, None)
    else
      var remaining :=
        if target <= 0.0 then (if observed <= 0.0 then 1.0 else 0.0)
        else BoundedBudget((target - observed) / target);
      Objective(RateStatus(observed <= target, remaining), Some(remaining))
  }

  function MaximumCount(observed: int, target: int): Objective {
    var remaining :=
      if target <= 0 then (if observed <= 0 then 1.0 else 0.0)
      else BoundedBudget((target - observed) as real / target as real);
    Objective(RateStatus(observed <= target, remaining), Some(remaining))
  }

  function FreshEval(eval: Option<EvalRecord>, now: int, maxAgeHours: int): Objective {
    if eval == None then Objective(NoData, None)
    else if eval.value.status != EvalPassed then Objective(Breached, Some(0.0))
    else if AgeHours(eval.value.completedAt, now) > maxAgeHours as real then Objective(AtRisk, Some(0.25))
    else Objective(Met, Some(1.0))
  }

  function P0P1Objective(r: Readings, t: Thresholds): Objective {
    MaximumCount(P0P1(r.monitor), t.maxActiveP0P1)
  }

  function ToolObjective(r: Readings, t: Thresholds): Objective {
    MaximumRate(r.tools.failureRate, t.maxToolFailureRate, r.tools.totalCalls, t.minToolCalls)
  }

  function FeedbackObjective(r: Readings, t: Thresholds): Objective {
    MaximumRate(r.feedback.negativeRate, t.maxFeedbackNegativeRate, r.feedback.totalCount, t.minFeedbackCount)
  }

  function EvalObjective(r: Readings, t: Thresholds, now: int): Objective {
    FreshEval(r.eval, now, t.maxEvalAgeHours)
  }

  datatype ReportStatus = Healthy | Watch | ReportBreached | Unknown

  function ReportStatusOf(objectives: seq<Objective>): ReportStatus {
    if forall i :: 0 <= i < |objectives| ==> objectives[i].status == NoData then Unknown
    else if exists i :: 0 <= i < |objectives| && objectives[i].status == Breached then ReportBreached
    else if exists i :: 0 <= i < |objectives| && (objectives[i].status == AtRisk || objectives[i].status == NoData)
        then Watch
    else Healthy
  }

  // ---------------------------------------------------------------- gate and report agree

  lemma ThinEvidenceAgrees(render: Render, r: Readings, t: Thresholds)
    ensures ToolGate(render, r.tools, t).status == Warn <==> ToolObjective(r, t).status == NoData
    ensures FeedbackGate(render, r.feedback, t).status == Warn <==> FeedbackObjective(r, t).status == NoData
    ensures ToolGate(render, r.tools, t).status == Blocked <==> ToolObjective(r, t).status == Breached
    ensures FeedbackGate(render, r.feedback, t).status == Blocked <==> FeedbackObjective(r, t).status == Breached
  {
  }

  /** On the same readings, instant and thresholds the gate is blocked exactly when readiness failed,
      one of the four shared objectives is breached, or there is no evaluation to judge. */
  lemma BlockedIff(render: Render, r: Readings, t: Thresholds, now: int)
    ensures PromotionStatus(Checks(render, r, now, t)) == Blocked <==>
              || NamesWith(r.readiness.checks, ReadyFailed) != []
              || P0P1Objective(r, t).status == Breached
              || ToolObjective(r, t).status == Breached
              || FeedbackObjective(r, t).status == Breached
              || EvalObjective(r, t, now).status == Breached
              || EvalObjective(r, t, now).status == NoData
  {
    ThinEvidenceAgrees(render, r, t);
    AlertsAgree(render, r, t);
    FiveBlocked(ReadinessGate(render, r.readiness), AlertGate(render, r.monitor, t), ToolGate(render, r.tools, t),
                FeedbackGate(render, r.feedback, t), EvalGate(render, r.eval, now, t));
  }

  lemma AlertsAgree(render: Render, r: Readings, t: Thresholds)
    ensures AlertGate(render, r.monitor, t).status == Blocked <==> P0P1Objective(r, t).status == Breached
  {
  }

  lemma FiveBlocked(a: Check, b: Check, c: Check, d: Check, e: Check)
    ensures PromotionStatus([a, b, c, d, e]) == Blocked <==>
              a.status == Blocked || b.status == Blocked || c.status == Blocked || d.status == Blocked
                  || e.status == Blocked
  {
    var checks := [a, b, c, d, e];
    assert checks[0] == a && checks[1] == b && checks[2] == c && checks[3] == d && checks[4] == e;
  }

  /** A healthy report over these readings leaves readiness as the only reason to block. */
  lemma HealthyReportBlocksOnlyOnReadiness(render: Render, r: Readings, t: Thresholds, now: int,
                                           objectives: seq<Objective>)
    requires P0P1Objective(r, t) in objectives && ToolObjective(r, t) in objectives
    requires FeedbackObjective(r, t) in objectives && EvalObjective(r, t, now) in objectives
    requires ReportStatusOf(objectives) == Healthy
    ensures PromotionStatus(Checks(render, r, now, t)) == Blocked <==> NamesWith(r.readiness.checks, ReadyFailed) != []
  {
    BlockedIff(render, r, t, now);
    forall o | o in objectives
      ensures o.status == Met
    {
      var i :| 0 <= i < |objectives| && objectives[i] == o;
    }
  }

  // ---------------------------------------------------------------- what a status means

  lemma EvalObjectiveIs(r: Readings, t: Thresholds, now: int)
    ensures EvalObjective(r, t, now).status
         == if r.eval == None then NoData
            else if r.eval.value.status != EvalPassed then Breached
            else if Stale(r.eval.value.completedAt, now, t.maxEvalAgeHours) then AtRisk
            else Met
  {
    if r.eval.Some? {
      StaleIff(r.eval.value.completedAt, now, t.maxEvalAgeHours);
    }
  }

  lemma QuotientBelow(x: real, target: real, bound: real)
    requires target > 0.0
    ensures x / target < bound <==> x < bound * target
  {
    var q := x / target;
    assert q * target == x;
    if q < bound {
      Scaled(q, bound, target);
    } else {
      ScaledWeakly(bound, q, target);
    }
  }

  lemma Scaled(a: real, b: real, c: real)
    requires a < b && c > 0.0
    ensures a * c < b * c
  {
  }

  lemma ScaledWeakly(a: real, b: real, c: real)
    requires a <= b && c > 0.0
    ensures a * c <= b * c
  {
  }

  lemma TenThousandthsOf(x: real)
    ensures RoundTo(x, 10000) == RoundEven(x * 10000.0) as real / 10000.0
  {
  }

  // A quarter is 2500 of ten thousand, and rounding to the even one makes 2499.5 of them a quarter.
  lemma QuarterLeft(value: real)
    ensures BoundedBudget(value) < 0.25 <==> value < 0.24995
  {
    var kept := if value < 0.0 then 0.0 else if value > 1.0 then 1.0 else value;
    TenThousandthsOf(kept);
    RoundEvenIsNearest(kept * 10000.0, 2500);
    if kept < 0.24995 {
      RoundEvenMonotone(kept * 10000.0, 2499.5);
    } else {
      RoundEvenMonotone(2499.5, kept * 10000.0);
    }
    BelowHalf(kept * 10000.0);
  }

  lemma BelowHalf(x: real)
    ensures RoundEven(x) < 2500 <==> x < 2499.5
  {
  }

  /** A maximum-rate objective, by its figures: breached above its target, and at risk within it once what is
      left is below a quarter of the target, up to half a ten-thousandth of rounding. */
  lemma RateObjectiveIs(observed: real, target: real, samples: int, minSamples: int)
    ensures MaximumRate(observed, target, samples, minSamples).status
         == if samples < minSamples then NoData
            else if observed > target then Breached
            else if target > 0.0 && target - observed < 0.24995 * target then AtRisk
            else Met
  {
    if target > 0.0 {
      QuarterLeft((target - observed) / target);
      QuotientBelow(target - observed, target, 0.24995);
    }
  }

  lemma CountObjectiveIs(observed: int, target: int)
    ensures MaximumCount(observed, target).status
         == if observed > target then Breached
            else if target > 0 && (target - observed) as real < 0.24995 * target as real then AtRisk
            else Met
  {
    if target > 0 {
      QuarterLeft((target - observed) as real / target as real);
      QuotientBelow((target - observed) as real, target as real, 0.24995);
    }
  }

  predicate AnyWith(objectives: seq<Objective>, status: SloStatus) {
    exists i :: 0 <= i < |objectives| && objectives[i].status == status
  }

  lemma SomeIs(objectives: seq<Objective>, status: SloStatus)
    ensures AnyWith(objectives, status) <==> exists o :: o in objectives && o.status == status
  {
    if i :| 0 <= i < |objectives| && objectives[i].status == status {
      assert objectives[i] in objectives;
    }
    if o :| o in objectives && o.status == status {
      var i :| 0 <= i < |objectives| && objectives[i] == o;
    }
  }

  lemma ReportStatusBySome(objectives: seq<Objective>)
    ensures ReportStatusOf(objectives) == ReportBreached <==> AnyWith(objectives, Breached)
    ensures ReportStatusOf(objectives) == Unknown <==>
              !AnyWith(objectives, Breached) && !AnyWith(objectives, AtRisk) && !AnyWith(objectives, Met)
    ensures ReportStatusOf(objectives) == Healthy <==>
              !AnyWith(objectives, Breached) && !AnyWith(objectives, AtRisk) && !AnyWith(objectives, NoData)
              && AnyWith(objectives, Met)
  {
  }

  /** A report says that it is breached when some objective is, unknown when none can be judged, and healthy
      when there are objectives and all are met. */
  lemma ReportStatusIs(objectives: seq<Objective>)
    ensures ReportStatusOf(objectives) == ReportBreached <==> exists o :: o in objectives && o.status == Breached
    ensures ReportStatusOf(objectives) == Unknown <==> forall o :: o in objectives ==> o.status == NoData
    ensures ReportStatusOf(objectives) == Healthy <==>
              objectives != [] && forall o :: o in objectives ==> o.status == Met
  {
    ReportStatusBySome(objectives);
    SomeIs(objectives, Breached);
    SomeIs(objectives, AtRisk);
    SomeIs(objectives, NoData);
    SomeIs(objectives, Met);
    if objectives != [] {
      assert objectives[0] in objectives;
    }
  }

  // ---------------------------------------------------------------- budgets

  lemma NegativeBudgetIsZero(value: real)
    requires value <= 0.0
    ensures BoundedBudget(value) == 0.0
  {
  }

  lemma NegativeQuotient(a: real, b: real)
    requires a <= 0.0 && b > 0.0
    ensures a / b <= 0.0
  {
  }

  /** A breached maximum-rate objective reports no remaining budget exactly when the observed rate is
      positive; for every target the endpoint accepts (at least zero) that is always. */
  lemma BreachedRateBudget(observed: real, target: real, samples: int, minSamples: int)
    requires MaximumRate(observed, target, samples, minSamples).status == Breached
    ensures MaximumRate(observed, target, samples, minSamples).budget == Some(0.0) <==> observed > 0.0
    ensures target >= 0.0 ==> MaximumRate(observed, target, samples, minSamples).budget == Some(0.0)
  {
    if target > 0.0 {
      NegativeQuotient(target - observed, target);
      NegativeBudgetIsZero((target - observed) / target);
    }
  }

  lemma BreachedCountBudget(observed: int, target: int)
    requires MaximumCount(observed, target).status == Breached
    ensures MaximumCount(observed, target).budget == Some(0.0) <==> observed > 0
    ensures target >= 0 ==> MaximumCount(observed, target).budget == Some(0.0)
  {
    if target > 0 {
      NegativeQuotient((target - observed) as real, target as real);
      NegativeBudgetIsZero((target - observed) as real / target as real);
    }
  }

  // With a negative target, a breach can come with a full budget.
  lemma NegativeTargetKeepsBudget()
    ensures MaximumRate(0.0, -0.5, 1, 1) == Objective(Breached, Some(1.0))
  {
  }
}
