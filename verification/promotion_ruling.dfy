/** What a preflight or a ruling leaves in the log, field by field, and exactly when it leaves anything. */
module PromotionRuling {
  import opened PromotionGate
  import opened PromotionLog
  import opened PromotionSafety
  import opened Text
  import opened Wrappers

  // ---------------------------------------------------------------- one step of a run

  lemma RunStep(h: Hashing, steps: seq<Step>, step: Step)
    ensures Run(h, steps + [step]) == Next(h, Run(h, steps), step)
  {
    assert (steps + [step])[..|steps|] == steps;
  }

  // The gate a request had evaluated: its own figures, and the readings of that moment.
  predicate GateReads(gate: Gate, c: Context, q: Request, e: Evaluation) {
    && gate.environment == c.environment && gate.generatedAt == e.at && gate.source == e.readings.monitor.source
    && gate.windowHours == q.windowHours && gate.thresholds == q.thresholds
    && gate.readiness == e.readings.readiness && gate.eval == e.readings.eval
  }

  // ---------------------------------------------------------------- rulings

  // The event is the ruling that was asked for: every field of it is the request's, the operator's, or that
  // of the gate and the preflight it names.
  predicate RecordsRuling(ev: Event, c: Context, q: Request, d: Ruling, e: Evaluation, now: int) {
    && ev.tenant == c.tenant && ev.runId == Trim(PySpace, d.preflightId) && ev.payload.DecisionRecorded?
    && var r := ev.payload.decision;
       && r.tenant == c.tenant && r.environment == c.environment && r.actor == c.actor && r.createdAt == now
       && r.targetVersion == Trim(PySpace, q.targetVersion)
       && r.verdict == d.verdict && r.note == Trim(PySpace, d.note)
       && r.overrideBlocked == d.overrideBlocked && r.overrideReason == Trim(PySpace, d.overrideReason)
       && r.preflightId == Trim(PySpace, d.preflightId) && r.preflight.id == r.preflightId
       && r.gateStatus == r.gate.status && GateReads(r.gate, c, q, e)
  }

  lemma ConfirmedFields(h: Hashing, c: Context, q: Request, d: Ruling, p: Preflight, gate: Gate, now: int)
    requires Confirm(h, c, q, d, p, gate, now).Accepted?
    ensures var r := Confirm(h, c, q, d, p, gate, now).record;
            && r.tenant == c.tenant && r.environment == gate.environment && r.actor == c.actor && r.createdAt == now
            && r.targetVersion == q.targetVersion && r.verdict == d.verdict && r.note == d.note
            && r.overrideBlocked == d.overrideBlocked && r.overrideReason == d.overrideReason
            && r.preflight == p && r.preflightId == p.id && r.gate == gate && r.gateStatus == gate.status
  {
  }

  lemma DecisionOfRequest(h: Hashing, log: seq<Event>, c: Context, q: Request, d: Ruling, gate: Gate, now: int)
    requires Decide(h, log, c, q, d, gate, now).Accepted?
    ensures var r := Decide(h, log, c, q, d, gate, now).record;
            && r.tenant == c.tenant && r.environment == gate.environment && r.actor == c.actor && r.createdAt == now
            && r.targetVersion == q.targetVersion && r.verdict == d.verdict && r.note == d.note
            && r.overrideBlocked == d.overrideBlocked && r.overrideReason == d.overrideReason
            && r.preflightId == d.preflightId == r.preflight.id && r.gate == gate && r.gateStatus == gate.status
  {
    var p := Bind(log, c, q, d.preflightId, now).record;
    ConfirmedFields(h, c, q, d, p, gate, now);
  }

  lemma GateOfRequest(h: Hashing, c: Context, q: Request, e: Evaluation)
    ensures GateReads(GateFor(h, c, q, e), c, q, e)
  {
  }

  lemma DecidedFields(h: Hashing, log: seq<Event>, c: Context, q: Request, d: Ruling, e: Evaluation, now: int)
    requires Decide(h, log, c, Strip(q), StripRuling(d), GateFor(h, c, q, e), now).Accepted?
    ensures var r := Decide(h, log, c, Strip(q), StripRuling(d), GateFor(h, c, q, e), now).record;
            RecordsRuling(DecisionEvent(c, r), c, q, d, e, now)
  {
    DecisionOfRequest(h, log, c, Strip(q), StripRuling(d), GateFor(h, c, q, e), now);
    GateOfRequest(h, c, q, e);
  }

  /** In every run, a ruling appends nothing, or the one decision that was asked for. */
  lemma RulingRecordsTheRequest(h: Hashing, steps: seq<Step>, c: Context, q: Request, d: Ruling, e: Evaluation,
                                now: int)
    ensures var log, log' := Run(h, steps).log, Run(h, steps + [Rule(c, q, d, e, now)]).log;
            log' == log || (|log'| == |log| + 1 && log'[..|log|] == log && RecordsRuling(log'[|log|], c, q, d, e, now))
  {
    RunStep(h, steps, Rule(c, q, d, e, now));
    var w := Run(h, steps);
    if Possible(w, Rule(c, q, d, e, now))
        && Decide(h, w.log, c, Strip(q), StripRuling(d), GateFor(h, c, q, e), now).Accepted? {
      DecidedFields(h, w.log, c, q, d, e, now);
    }
  }

  // A preflight of this operator for this version and these figures, still valid, on which the ruling may be made.
  predicate Usable(h: Hashing, ev: Event, c: Context, q: Request, d: Ruling, gate: Gate, now: int) {
    && ev.payload.PreflightRecorded? && ev.tenant == c.tenant && ev.runId == Trim(PySpace, d.preflightId)
    && var p := ev.payload.preflight;
       && p.environment == c.environment && p.actor == c.actor && p.targetVersion == Trim(PySpace, q.targetVersion)
       && now < p.expiresAt
       && p.gate.source == q.source && p.gate.windowHours == q.windowHours && p.gate.thresholds == q.thresholds
       && p.gate.readiness.deep && p.gate.readiness.ops
       && Fingerprint(h.digest, p.gate) == Fingerprint(h.digest, gate)
       && (d.verdict == Approved && p.gate.status == Blocked ==> d.overrideBlocked)
  }

  predicate Ruled(log: seq<Event>, tenant: string, id: string) {
    exists j :: 0 <= j < |log| && log[j].payload.DecisionRecorded? && log[j].tenant == tenant && log[j].runId == id
  }

  predicate WellFormedRuling(q: Request, d: Ruling) {
    && Trim(PySpace, q.targetVersion) != "" && Trim(PySpace, d.note) != "" && q.deep && q.ops
    && (d.overrideBlocked ==> d.verdict == Approved && Trim(PySpace, d.overrideReason) != "")
  }

  lemma MalformedIff(q: Request, d: Ruling)
    ensures Malformed(Strip(q), StripRuling(d)) == None <==> WellFormedRuling(q, d)
  {
  }

  // In a run the loaded preflight is the only one of its identifier.
  lemma LoadedIff(h: Hashing, w: World, tenant: string, id: string, i: nat)
    requires Inv(h, w) && i < |w.log| && IsPreflight(w.log[i], tenant, id)
    ensures LoadPreflight(w.log, tenant, id) == Some(w.log[i].payload.preflight)
  {
    LoadNewest(w.log, tenant, id, i);
  }

  lemma DecideIff(h: Hashing, w: World, c: Context, q: Request, d: Ruling, gate: Gate, now: int)
    requires Injective(h.digest) && Inv(h, w)
    ensures Decide(h, w.log, c, Strip(q), StripRuling(d), gate, now).Accepted? <==>
              && WellFormedRuling(q, d) && Trim(PySpace, d.preflightId) != ""
              && !Ruled(w.log, c.tenant, Trim(PySpace, d.preflightId))
              && exists i :: 0 <= i < |w.log| && Usable(h, w.log[i], c, q, d, gate, now)
  {
    MalformedIff(q, d);
    var id := Trim(PySpace, d.preflightId);
    RuledIff(w.log, c.tenant, id);
    if Decide(h, w.log, c, Strip(q), StripRuling(d), gate, now).Accepted? {
      var i := LoadFinds(w.log, c.tenant, id);
      DecidedIsUsable(h, w, c, q, d, gate, now, i);
    }
    if WellFormedRuling(q, d) && id != "" && !Ruled(w.log, c.tenant, id) {
      forall i | 0 <= i < |w.log| && Usable(h, w.log[i], c, q, d, gate, now)
        ensures Decide(h, w.log, c, Strip(q), StripRuling(d), gate, now).Accepted?
      {
        UsableIsDecided(h, w, c, q, d, gate, now, i);
      }
    }
  }

  lemma RuledIff(log: seq<Event>, tenant: string, id: string)
    ensures Ruled(log, tenant, id) <==> HasDecision(log, tenant, id)
  {
    if j :| 0 <= j < |log| && log[j].payload.DecisionRecorded? && log[j].tenant == tenant && log[j].runId == id {
      assert IsDecision(log[j], tenant, id);
    }
    if j :| 0 <= j < |log| && IsDecision(log[j], tenant, id) {
      assert log[j].payload.DecisionRecorded?;
    }
  }

  lemma DecidedIsUsable(h: Hashing, w: World, c: Context, q: Request, d: Ruling, gate: Gate, now: int, i: nat)
    requires Inv(h, w) && i < |w.log| && Decide(h, w.log, c, Strip(q), StripRuling(d), gate, now).Accepted?
    requires IsPreflight(w.log[i], c.tenant, Trim(PySpace, d.preflightId))
    requires Some(w.log[i].payload.preflight) == LoadPreflight(w.log, c.tenant, Trim(PySpace, d.preflightId))
    ensures Usable(h, w.log[i], c, q, d, gate, now)
  {
    BindMeans(w.log, c, Strip(q), Trim(PySpace, d.preflightId), now);
    assert PreflightOk(h, w.log[i], w.clock);
  }

  lemma UsableIsDecided(h: Hashing, w: World, c: Context, q: Request, d: Ruling, gate: Gate, now: int, i: nat)
    requires Injective(h.digest) && Inv(h, w) && i < |w.log| && Usable(h, w.log[i], c, q, d, gate, now)
    requires Malformed(Strip(q), StripRuling(d)) == None && Trim(PySpace, d.preflightId) != ""
    requires !HasDecision(w.log, c.tenant, Trim(PySpace, d.preflightId))
    ensures Decide(h, w.log, c, Strip(q), StripRuling(d), gate, now).Accepted?
  {
    var id, p := Trim(PySpace, d.preflightId), w.log[i].payload.preflight;
    LoadedIff(h, w, c.tenant, id, i);
    assert PreflightOk(h, w.log[i], w.clock);
    FingerprintDetermines(h.digest, p.gate, gate);
    assert Bind(w.log, c, Strip(q), id, now) == PromotionLog.Accepted(p);
  }

  /** And it appends one exactly when the ruling is well formed and names a preflight of this operator and
      tenant, not yet ruled on, that matches it, has not expired, and shares the live gate's fingerprint; a
      blocked one is approved only with the override. */
  lemma RulingRecordsIff(h: Hashing, steps: seq<Step>, c: Context, q: Request, d: Ruling, e: Evaluation, now: int)
    requires Injective(h.digest) && Run(h, steps).clock <= now <= e.at
    ensures var log, log' := Run(h, steps).log, Run(h, steps + [Rule(c, q, d, e, now)]).log;
            |log'| > |log| <==>
              && WellFormedRuling(q, d) && Trim(PySpace, d.preflightId) != ""
              && !Ruled(log, c.tenant, Trim(PySpace, d.preflightId))
              && exists i :: 0 <= i < |log| && Usable(h, log[i], c, q, d, GateFor(h, c, q, e), now)
  {
    RunStep(h, steps, Rule(c, q, d, e, now));
    RunKeepsInv(h, steps);
    DecideIff(h, Run(h, steps), c, q, d, GateFor(h, c, q, e), now);
  }

  // ---------------------------------------------------------------- preflights

  predicate RecordsPreflight(ev: Event, c: Context, q: Request, e: Evaluation, id: string, minutes: nat,
                             createdAt: int) {
    && ev.tenant == c.tenant && ev.runId == id && ev.payload.PreflightRecorded?
    && var p := ev.payload.preflight;
       && p.id == id && p.tenant == c.tenant && p.environment == c.environment && p.actor == c.actor
       && p.targetVersion == Trim(PySpace, q.targetVersion)
       && p.createdAt == createdAt && p.expiresAt == createdAt + minutes * 60 * 1_000_000
       && p.gateStatus == p.gate.status && GateReads(p.gate, c, q, e)
  }

  /** In every run, a preflight request leaves exactly its own record when it names a version and asks for
      deep and operational readiness, and nothing otherwise. */
  lemma PreflightRecordsTheRequest(h: Hashing, steps: seq<Step>, c: Context, q: Request, e: Evaluation, id: string,
                                   minutes: nat, createdAt: int)
    requires Fresh(Run(h, steps).log, id) && Run(h, steps).clock <= e.at <= createdAt
    ensures var log, log' := Run(h, steps).log, Run(h, steps + [Record(c, q, e, id, minutes, createdAt)]).log;
            if Trim(PySpace, q.targetVersion) != "" && q.deep && q.ops
            then |log'| == |log| + 1 && log'[..|log|] == log
                 && RecordsPreflight(log'[|log|], c, q, e, id, minutes, createdAt)
                 && log'[|log|].payload.preflight.gateFingerprint
                    == Fingerprint(h.digest, log'[|log|].payload.preflight.gate)
            else log' == log
  {
    RunStep(h, steps, Record(c, q, e, id, minutes, createdAt));
  }

  // ---------------------------------------------------------------- every record was asked for

  lemma StepGrowsLog(h: Hashing, w: World, step: Step)
    ensures w.log <= Next(h, w, step).log && |Next(h, w, step).log| <= |w.log| + 1
  {
  }

  // The request that the event of a step records.
  predicate AskedFor(step: Step, ev: Event) {
    match step
    case Record(c, q, e, id, minutes, createdAt) => RecordsPreflight(ev, c, q, e, id, minutes, createdAt)
    case Rule(c, q, d, e, now) => RecordsRuling(ev, c, q, d, e, now)
    case Append(event) => ev == event && event.payload.Unrelated?
  }

  lemma StepWasAskedFor(h: Hashing, steps: seq<Step>, step: Step)
    requires |Run(h, steps + [step]).log| > |Run(h, steps).log|
    ensures AskedFor(step, Run(h, steps + [step]).log[|Run(h, steps).log|])
  {
    RunStep(h, steps, step);
    match step
    case Record(c, q, e, id, minutes, createdAt) => PreflightRecordsTheRequest(h, steps, c, q, e, id, minutes,
                                                                               createdAt);
    case Rule(c, q, d, e, now) => RulingRecordsTheRequest(h, steps, c, q, d, e, now);
    case Append(_) =>
  }

  /** Nothing is recorded that nobody asked for: every preflight and decision in the log of a run is, field
      by field, the request of one of its steps. */
  lemma {:induction false} EveryRecordWasAskedFor(h: Hashing, steps: seq<Step>, j: nat) returns (k: nat)
    requires j < |Run(h, steps).log|
    ensures k < |steps| && AskedFor(steps[k], Run(h, steps).log[j])
    ensures |Run(h, steps[..k]).log| == j
  {
    var init, last := steps[..|steps| - 1], steps[|steps| - 1];
    assert steps == init + [last];
    RunStep(h, init, last);
    StepGrowsLog(h, Run(h, init), last);
    if j < |Run(h, init).log| {
      k := EveryRecordWasAskedFor(h, init, j);
      assert steps[..k] == init[..k];
    } else {
      k := |steps| - 1;
      StepWasAskedFor(h, init, last);
    }
  }
}
