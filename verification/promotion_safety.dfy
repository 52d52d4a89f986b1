/** Over every run of serialized preflight and decision requests: each decision is bound to one earlier,
    unexpired preflight by the same operator, on unchanged evidence, and no preflight is used twice. */
module PromotionSafety {
  import opened PromotionGate
  import opened PromotionLog
  import opened Wrappers

  // ---------------------------------------------------------------- runs

  // One request each, served in order; other events are appended to the same log.
  datatype Step =
    | Record(c: Context, q: Request, e: Evaluation, id: string, minutes: nat, createdAt: int)
    | Rule(c: Context, q: Request, d: Ruling, e: Evaluation, now: int)
    | Append(event: Event)

  datatype World = World(log: seq<Event>, clock: int)

  predicate Fresh(log: seq<Event>, id: string) {
    forall i :: 0 <= i < |log| ==> log[i].runId != id
  }

  // Identifiers are fresh, the clock never runs back, and nobody else writes promotion events.
  predicate Possible(w: World, step: Step) {
    match step
    case Record(c, q, e, id, minutes, createdAt) => Fresh(w.log, id) && w.clock <= e.at <= createdAt
    case Rule(c, q, d, e, now) => w.clock <= now <= e.at
    case Append(event) => event.payload.Unrelated?
  }

  function Next(h: Hashing, w: World, step: Step): World {
    if !Possible(w, step) then w
    else
      match step
      case Record(c, q, e, id, minutes, createdAt) =>
        var r := NewPreflight(h, c, Strip(q), GateFor(h, c, q, e), id, minutes, createdAt);
        World(w.log + if r.Accepted? then [PreflightEvent(c, r.record)] else [], createdAt)
      case Rule(c, q, d, e, now) =>
        var r := Decide(h, w.log, c, Strip(q), StripRuling(d), GateFor(h, c, q, e), now);
        World(w.log + if r.Accepted? then [DecisionEvent(c, r.record)] else [], now)
      case Append(event) => w.(log := w.log + [event])
  }

  function Run(h: Hashing, steps: seq<Step>): World {
    if steps == [] then World([], 0) else Next(h, Run(h, steps[..|steps| - 1]), steps[|steps| - 1])
  }

  // ---------------------------------------------------------------- invariant

  predicate PreflightOk(h: Hashing, e: Event, clock: int)
    requires e.payload.PreflightRecorded?
  {
    var p := e.payload.preflight;
    p.id == e.runId && p.tenant == e.tenant && p.createdAt <= clock
    && p.gateStatus == p.gate.status && p.gateFingerprint == Fingerprint(h.digest, p.gate)
    && p.environment == p.gate.environment
  }

  // What binds a decision to its preflight, including everything the two gates share.
  predicate Bound(pe: Event, de: Event) {
    && de.payload.DecisionRecorded?
    && IsPreflight(pe, de.tenant, de.runId)
    && var p, d := pe.payload.preflight, de.payload.decision;
       && d.preflight == p && d.preflightId == p.id && d.tenant == p.tenant && d.environment == p.environment
       && d.actor == p.actor && d.targetVersion == p.targetVersion
       && d.gateFingerprint == p.gateFingerprint && d.gateStatus == p.gateStatus
       && d.gate.source == p.gate.source && d.gate.windowHours == p.gate.windowHours
          && d.gate.thresholds == p.gate.thresholds
       && d.gate.readiness == p.gate.readiness && p.gate.readiness.deep && p.gate.readiness.ops
       && p.createdAt <= d.createdAt < p.expiresAt
       && (d.verdict == Approved && d.gateStatus == Blocked ==> d.overrideBlocked && d.overrideReason != "")
       && (d.overrideBlocked ==> d.verdict == Approved)
       && d.note != ""
  }

  // The decision at `j` has a preflight before it.
  ghost predicate HasBinding(log: seq<Event>, j: nat)
    requires j < |log|
  {
    exists i :: 0 <= i < j && Bound(log[i], log[j])
  }

  predicate OnePreflightPerId(log: seq<Event>) {
    forall i, j :: 0 <= i < j < |log| && log[i].payload.PreflightRecorded? && log[j].payload.PreflightRecorded?
      ==> log[i].runId != log[j].runId
  }

  predicate OneDecisionPerPreflight(log: seq<Event>) {
    forall i, j :: 0 <= i < j < |log| && log[i].payload.DecisionRecorded? && log[j].payload.DecisionRecorded?
      ==> (log[i].tenant, log[i].runId) != (log[j].tenant, log[j].runId)
  }

  ghost predicate Inv(h: Hashing, w: World) {
    && (forall i :: 0 <= i < |w.log| && w.log[i].payload.PreflightRecorded? ==> PreflightOk(h, w.log[i], w.clock))
    && (forall j :: 0 <= j < |w.log| && w.log[j].payload.DecisionRecorded? ==> HasBinding(w.log, j))
    && OnePreflightPerId(w.log)
    && OneDecisionPerPreflight(w.log)
  }

  // ---------------------------------------------------------------- steps keep the invariant

  lemma {:induction false} LoadFinds(log: seq<Event>, tenant: string, id: string) returns (i: nat)
    requires LoadPreflight(log, tenant, id).Some?
    ensures i < |log| && IsPreflight(log[i], tenant, id)
            && log[i].payload.preflight == LoadPreflight(log, tenant, id).value
  {
    if IsPreflight(log[|log| - 1], tenant, id) {
      i := |log| - 1;
    } else {
      i := LoadFinds(log[..|log| - 1], tenant, id);
    }
  }

  lemma BindingStays(log: seq<Event>, e: Event, j: nat)
    requires j < |log| && HasBinding(log, j)
    ensures HasBinding(log + [e], j)
  {
    var i :| 0 <= i < j && Bound(log[i], log[j]);
    assert Bound((log + [e])[i], (log + [e])[j]);
  }

  // Appending an event whose own clause holds keeps the invariant.
  lemma AppendKeepsInv(h: Hashing, w: World, e: Event, clock: int)
    requires Inv(h, w) && w.clock <= clock
    requires e.payload.PreflightRecorded? ==> PreflightOk(h, e, clock) && Fresh(w.log, e.runId)
    requires e.payload.DecisionRecorded? ==>
      !HasDecision(w.log, e.tenant, e.runId) && exists i :: 0 <= i < |w.log| && Bound(w.log[i], e)
    ensures Inv(h, World(w.log + [e], clock))
  {
    var log' := w.log + [e];
    forall j | 0 <= j < |log'| && log'[j].payload.DecisionRecorded? ensures HasBinding(log', j) {
      if j < |w.log| {
        BindingStays(w.log, e, j);
      } else {
        var i :| 0 <= i < |w.log| && Bound(w.log[i], e);
        assert Bound(log'[i], log'[j]);
      }
    }
    assert forall i :: 0 <= i < |w.log| && e.payload.DecisionRecorded? ==> !IsDecision(w.log[i], e.tenant, e.runId);
  }

  lemma BindMeans(log: seq<Event>, c: Context, q: Request, id: string, now: int)
    requires Bind(log, c, q, id, now).Accepted?
    ensures var p := Bind(log, c, q, id, now).record;
            && LoadPreflight(log, c.tenant, p.id) == Some(p) && !HasDecision(log, c.tenant, p.id)
            && p.tenant == c.tenant && p.environment == c.environment && p.actor == c.actor
            && p.targetVersion == q.targetVersion && now < p.expiresAt && !Mismatches(p, q)
  {
  }

  lemma ConfirmMeans(h: Hashing, c: Context, q: Request, d: Ruling, p: Preflight, gate: Gate, now: int)
    requires Injective(h.digest) && Malformed(q, d) == None && Confirm(h, c, q, d, p, gate, now).Accepted?
    requires p.gateStatus == p.gate.status && p.gateFingerprint == Fingerprint(h.digest, p.gate)
            && p.environment == p.gate.environment
    requires p.createdAt <= now < p.expiresAt && !Mismatches(p, q) && p.targetVersion == q.targetVersion
    requires p.tenant == c.tenant && p.actor == c.actor
    ensures Bound(PreflightEvent(c, p), DecisionEvent(c, Confirm(h, c, q, d, p, gate, now).record))
  {
    FingerprintDetermines(h.digest, p.gate, gate);
  }

  lemma DecisionIsBound(h: Hashing, w: World, c: Context, q: Request, d: Ruling, gate: Gate, now: int) returns (i: nat)
    requires Inv(h, w) && Injective(h.digest) && w.clock <= now && Decide(h, w.log, c, q, d, gate, now).Accepted?
    ensures var de := DecisionEvent(c, Decide(h, w.log, c, q, d, gate, now).record);
            i < |w.log| && Bound(w.log[i], de) && !HasDecision(w.log, de.tenant, de.runId)
  {
    var p := Bind(w.log, c, q, d.preflightId, now).record;
    BindMeans(w.log, c, q, d.preflightId, now);
    i := LoadFinds(w.log, c.tenant, p.id);
    assert PreflightOk(h, w.log[i], w.clock);
    assert w.log[i] == PreflightEvent(c, p);
    ConfirmMeans(h, c, q, d, p, gate, now);
  }

  lemma RecordKeepsInv(h: Hashing, w: World, c: Context, q: Request, gate: Gate, id: string, minutes: nat,
                       createdAt: int)
    requires Inv(h, w) && Fresh(w.log, id) && w.clock <= createdAt && gate.environment == c.environment
    ensures var r := NewPreflight(h, c, q, gate, id, minutes, createdAt);
            Inv(h, World(w.log + if r.Accepted? then [PreflightEvent(c, r.record)] else [], createdAt))
  {
    var r := NewPreflight(h, c, q, gate, id, minutes, createdAt);
    if r.Accepted? {
      AppendKeepsInv(h, w, PreflightEvent(c, r.record), createdAt);
    } else {
      ClockKeepsInv(h, w, createdAt);
    }
  }

  lemma RuleKeepsInv(h: Hashing, w: World, c: Context, q: Request, d: Ruling, gate: Gate, now: int)
    requires Inv(h, w) && Injective(h.digest) && w.clock <= now
    ensures var r := Decide(h, w.log, c, q, d, gate, now);
            Inv(h, World(w.log + if r.Accepted? then [DecisionEvent(c, r.record)] else [], now))
  {
    var r := Decide(h, w.log, c, q, d, gate, now);
    if r.Accepted? {
      var i := DecisionIsBound(h, w, c, q, d, gate, now);
      AppendKeepsInv(h, w, DecisionEvent(c, r.record), now);
    } else {
      ClockKeepsInv(h, w, now);
    }
  }

  lemma NextKeepsInv(h: Hashing, w: World, step: Step)
    requires Inv(h, w) && Injective(h.digest)
    ensures Inv(h, Next(h, w, step))
  {
    if Possible(w, step) {
      match step
      case Record(c, q, e, id, minutes, createdAt) =>
        RecordKeepsInv(h, w, c, Strip(q), GateFor(h, c, q, e), id, minutes, createdAt);
      case Rule(c, q, d, e, now) => RuleKeepsInv(h, w, c, Strip(q), StripRuling(d), GateFor(h, c, q, e), now);
      case Append(event) => AppendKeepsInv(h, w, event, w.clock);
    }
  }

  lemma ClockKeepsInv(h: Hashing, w: World, clock: int)
    requires Inv(h, w) && w.clock <= clock
    ensures Inv(h, World(w.log + [], clock))
  {
    assert w.log + [] == w.log;
  }

  lemma {:induction false} RunKeepsInv(h: Hashing, steps: seq<Step>)
    requires Injective(h.digest)
    ensures Inv(h, Run(h, steps))
  {
    if steps != [] {
      RunKeepsInv(h, steps[..|steps| - 1]);
      NextKeepsInv(h, Run(h, steps[..|steps| - 1]), steps[|steps| - 1]);
    }
  }

  // ---------------------------------------------------------------- theorems

  /** Every recorded decision is bound to exactly one recorded preflight, which is earlier, matches it and
      had not expired, and which no other decision is bound to. */
  lemma EveryDecisionIsBoundOnce(h: Hashing, steps: seq<Step>, j: nat) returns (i: nat)
    requires Injective(h.digest)
    requires j < |Run(h, steps).log| && Run(h, steps).log[j].payload.DecisionRecorded?
    ensures i < j && Bound(Run(h, steps).log[i], Run(h, steps).log[j])
    ensures forall k :: 0 <= k < |Run(h, steps).log| && Bound(Run(h, steps).log[k], Run(h, steps).log[j]) ==> k == i
    ensures forall k :: 0 <= k < |Run(h, steps).log| && Bound(Run(h, steps).log[i], Run(h, steps).log[k]) ==> k == j
  {
    RunKeepsInv(h, steps);
    var log := Run(h, steps).log;
    assert HasBinding(log, j);
    i :| 0 <= i < j && Bound(log[i], log[j]);
    forall k | 0 <= k < |log| && Bound(log[k], log[j]) ensures k == i {
      assert !(k < i) && !(i < k);
    }
    forall k | 0 <= k < |log| && Bound(log[i], log[k]) ensures k == j {
      assert !(k < j) && !(j < k);
    }
  }

  lemma {:induction false} LoadNewest(log: seq<Event>, tenant: string, id: string, i: nat)
    requires i < |log| && IsPreflight(log[i], tenant, id)
    requires forall j :: i < j < |log| ==> !IsPreflight(log[j], tenant, id)
    ensures LoadPreflight(log, tenant, id) == Some(log[i].payload.preflight)
  {
    if i < |log| - 1 {
      LoadNewest(log[..|log| - 1], tenant, id, i);
    }
  }

  predicate NeedlessRefusal<T>(r: Result<T>) {
    r.Refused? && (r.why == LiveBlocked || r.why == WrongId || r.why == WrongTenant)
  }

  /** The second blocked check, and the identifier and tenant checks, can never be what refuses a request:
      the fingerprint and the log already settle them. */
  lemma ChecksThatNeverFire(h: Hashing, steps: seq<Step>, c: Context, q: Request, d: Ruling, gate: Gate, now: int)
    requires Injective(h.digest)
    ensures !NeedlessRefusal(Decide(h, Run(h, steps).log, c, q, d, gate, now))
  {
    RunKeepsInv(h, steps);
    var w := Run(h, steps);
    NeverFire(h, w, c, q, d, gate, now);
  }

  lemma NeverFire(h: Hashing, w: World, c: Context, q: Request, d: Ruling, gate: Gate, now: int)
    requires Injective(h.digest) && Inv(h, w)
    ensures !NeedlessRefusal(Decide(h, w.log, c, q, d, gate, now))
  {
    var r := Bind(w.log, c, q, d.preflightId, now);
    BindNeverFires(h, w, c, q, d.preflightId, now);
    if r.Accepted? {
      BindMeans(w.log, c, q, d.preflightId, now);
      LoadedIsOk(h, w, c.tenant, r.record.id);
      ConfirmNeverFires(h, c, q, d, r.record, gate, now);
    }
  }

  lemma LoadedIsOk(h: Hashing, w: World, tenant: string, id: string)
    requires Inv(h, w) && LoadPreflight(w.log, tenant, id).Some?
    ensures var p := LoadPreflight(w.log, tenant, id).value;
            p.id == id && p.tenant == tenant && p.gateStatus == p.gate.status
                && p.gateFingerprint == Fingerprint(h.digest, p.gate)
  {
    var i := LoadFinds(w.log, tenant, id);
    assert PreflightOk(h, w.log[i], w.clock);
  }

  lemma BindNeverFires(h: Hashing, w: World, c: Context, q: Request, id: string, now: int)
    requires Inv(h, w)
    ensures !NeedlessRefusal(Bind(w.log, c, q, id, now))
  {
    if LoadPreflight(w.log, c.tenant, id).Some? {
      LoadedIsOk(h, w, c.tenant, id);
    }
  }

  lemma ConfirmNeverFires(h: Hashing, c: Context, q: Request, d: Ruling, p: Preflight, gate: Gate, now: int)
    requires Injective(h.digest) && p.gateStatus == p.gate.status && p.gateFingerprint == Fingerprint(h.digest, p.gate)
    ensures !NeedlessRefusal(Confirm(h, c, q, d, p, gate, now))
  {
    if p.gateFingerprint == Fingerprint(h.digest, gate) {
      FingerprintDetermines(h.digest, p.gate, gate);
    }
  }

  /** A used preflight is used up: no later request is accepted on it. */
  lemma SingleUse(h: Hashing, steps: seq<Step>, more: seq<Step>, c: Context, q: Request, d: Ruling, gate: Gate,
                  now: int)
    requires HasDecision(Run(h, steps).log, c.tenant, d.preflightId)
    ensures Decide(h, Run(h, steps + more).log, c, q, d, gate, now).Refused?
  {
    LogGrows(h, steps, more);
    DecisionStays(Run(h, steps).log, Run(h, steps + more).log, c.tenant, d.preflightId);
    UsedIsRefused(h, Run(h, steps + more).log, c, q, d, gate, now);
  }

  lemma UsedIsRefused(h: Hashing, log: seq<Event>, c: Context, q: Request, d: Ruling, gate: Gate, now: int)
    requires HasDecision(log, c.tenant, d.preflightId)
    ensures Decide(h, log, c, q, d, gate, now).Refused?
  {
    assert Bind(log, c, q, d.preflightId, now).Refused?;
  }

  lemma DecisionStays(log: seq<Event>, log': seq<Event>, tenant: string, id: string)
    requires log <= log' && HasDecision(log, tenant, id)
    ensures HasDecision(log', tenant, id)
  {
    var i :| 0 <= i < |log| && IsDecision(log[i], tenant, id);
    assert IsDecision(log'[i], tenant, id);
  }

  lemma {:induction false} LogGrows(h: Hashing, steps: seq<Step>, more: seq<Step>)
    ensures Run(h, steps).log <= Run(h, steps + more).log
  {
    if more == [] {
      assert steps + more == steps;
    } else {
      assert (steps + more)[..|steps + more| - 1] == steps + more[..|more| - 1];
      LogGrows(h, steps, more[..|more| - 1]);
    }
  }

  /** A decision can be taken: a preflight just recorded is accepted by the same operator, with the same
      thresholds and unchanged readings, before it expires and while the evaluation's age stays on the same
      side of its limit; a blocked gate additionally needs the override. */
  lemma FreshPreflightCanBeRuled(h: Hashing, w: World, c: Context, q: Request, e: Evaluation, id: string, minutes: nat,
                                 createdAt: int, d: Ruling, at: int, now: int)
    requires NewPreflight(h, c, q, GateFor(h, c, q, e), id, minutes, createdAt).Accepted? && Fresh(w.log, id)
    requires d.preflightId == id && id != "" && q.source == e.readings.monitor.source
    requires e.readings.readiness.deep && e.readings.readiness.ops
    requires Malformed(q, d) == None && now < createdAt + minutes * 60_000_000
    requires EvalGate(h.render, e.readings.eval, e.at, q.thresholds).status
          == EvalGate(h.render, e.readings.eval, at, q.thresholds).status
    requires Injective(h.digest)
    ensures var p := NewPreflight(h, c, q, GateFor(h, c, q, e), id, minutes, createdAt).record;
            var r := Decide(h, w.log + [PreflightEvent(c, p)], c, q, d, GateFor(h, c, q, Evaluation(e.readings, at)),
                            now);
            if d.verdict == Approved && p.gateStatus == Blocked && !d.overrideBlocked
                then r == Refused(PreflightBlocked)
            else r.Accepted? && r.record.preflight == p
  {
    var gate, live := GateFor(h, c, q, e), GateFor(h, c, q, Evaluation(e.readings, at));
    FingerprintIgnoresTime(h.digest, h.render, c.environment, q.windowHours, e.readings, q.thresholds, e.at, at);
    RuledOnSameFingerprint(h, w.log, c, q, gate, live, id, minutes, createdAt, d, now);
  }

  lemma RuledOnSameFingerprint(h: Hashing, log: seq<Event>, c: Context, q: Request, gate: Gate, live: Gate, id: string,
                               minutes: nat, createdAt: int, d: Ruling, now: int)
    requires NewPreflight(h, c, q, gate, id, minutes, createdAt).Accepted? && Fresh(log, id)
    requires d.preflightId == id && id != ""
    requires gate.environment == c.environment
            && !Mismatches(NewPreflight(h, c, q, gate, id, minutes, createdAt).record, q)
    requires Malformed(q, d) == None && now < createdAt + minutes * 60_000_000
    requires Injective(h.digest) && Fingerprint(h.digest, gate) == Fingerprint(h.digest, live)
    ensures var p := NewPreflight(h, c, q, gate, id, minutes, createdAt).record;
            var r := Decide(h, log + [PreflightEvent(c, p)], c, q, d, live, now);
            if d.verdict == Approved && p.gateStatus == Blocked && !d.overrideBlocked
                then r == Refused(PreflightBlocked)
            else r.Accepted? && r.record.preflight == p
  {
    var p := NewPreflight(h, c, q, gate, id, minutes, createdAt).record;
    var log' := log + [PreflightEvent(c, p)];
    LoadNewest(log', c.tenant, id, |log|);
    assert !HasDecision(log', c.tenant, id);
    FingerprintDetermines(h.digest, gate, live);
  }
}
