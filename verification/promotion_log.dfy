/** Go-live preflights and decisions: two handlers over one append-only event log. */
module PromotionLog {
  import opened PromotionGate
  import opened Text
  import opened Wrappers

  // ---------------------------------------------------------------- records

  datatype Preflight = Preflight(
    id: string,
    tenant: string,
    environment: string,
    targetVersion: string,
    gateStatus: Status,
    gateFingerprint: string,
    gate: Gate,
    actor: string,
    createdAt: int,
    expiresAt: int)

  datatype Verdict = Approved | Rejected | Deferred

  datatype Decision = Decision(
    tenant: string,
    environment: string,
    targetVersion: string,
    verdict: Verdict,
    gateStatus: Status,
    gate: Gate,
    gateFingerprint: string,
    preflightId: string,
    preflight: Preflight,
    note: string,
    overrideBlocked: bool,
    overrideReason: string,
    actor: string,
    createdAt: int)

  datatype Payload = PreflightRecorded(preflight: Preflight) | DecisionRecorded(decision: Decision) | Unrelated

  datatype Event = Event(tenant: string, runId: string, payload: Payload)

  // ---------------------------------------------------------------- requests

  datatype Request = Request(
    targetVersion: string,
    source: string,
    deep: bool,
    ops: bool,
    windowHours: int,
    thresholds: Thresholds)

  datatype Ruling = Ruling(verdict: Verdict, note: string, preflightId: string, overrideBlocked: bool,
                           overrideReason: string)

  // The deployment and the signed-in operator.
  datatype Context = Context(tenant: string, environment: string, actor: string)

  // How gates are worded and digested.
  datatype Hashing = Hashing(render: Render, digest: Digest)

  // One evaluation of the gate: what it read and when.
  datatype Evaluation = Evaluation(readings: Readings, at: int)

  function GateFor(h: Hashing, c: Context, q: Request, e: Evaluation): Gate {
    GateOf(h.render, c.environment, q.windowHours, e.readings, e.at, q.thresholds)
  }

  datatype Refusal =
    | NoTargetVersion | NoNote | OverrideWithoutApproval | NoOverrideReason | ShallowRequest | OpsMissing
    | NoPreflightId | UnknownPreflight
    | WrongId | WrongTenant | WrongEnvironment | WrongActor | WrongVersion | Expired | AlreadyUsed | Mismatched
    | PreflightBlocked | EvidenceChanged | LiveBlocked

  datatype Result<+T> = Accepted(record: T) | Refused(why: Refusal)

  // Surrounding blanks are stripped from every text before it is looked at.
  function Strip(q: Request): Request {
    q.(targetVersion := Trim(PySpace, q.targetVersion))
  }

  function StripRuling(d: Ruling): Ruling {
    d.(note := Trim(PySpace, d.note), preflightId := Trim(PySpace, d.preflightId),
       overrideReason := Trim(PySpace, d.overrideReason))
  }

  // ---------------------------------------------------------------- preflights

  // `gate` is the gate evaluated for the request.
  function NewPreflight(h: Hashing, c: Context, q: Request, gate: Gate, id: string, minutes: nat,
                        createdAt: int): Result<Preflight> {
    if q.targetVersion == "" then Refused(NoTargetVersion)
    else if !q.deep then Refused(ShallowRequest)
    else if !q.ops then Refused(OpsMissing)
    else
      Accepted(Preflight(id, c.tenant, gate.environment, q.targetVersion, gate.status, Fingerprint(h.digest, gate),
                         gate, c.actor, createdAt, createdAt + minutes * 60_000_000))
  }

  // ---------------------------------------------------------------- reading the log

  predicate IsPreflight(e: Event, tenant: string, id: string) {
    e.tenant == tenant && e.runId == id && e.payload.PreflightRecorded?
  }

  predicate IsDecision(e: Event, tenant: string, id: string) {
    e.tenant == tenant && e.runId == id && e.payload.DecisionRecorded?
  }

  // The newest matching preflight.
  function LoadPreflight(log: seq<Event>, tenant: string, id: string): Option<Preflight> {
    if log == [] then None
    else if IsPreflight(log[|log| - 1], tenant, id) then Some(log[|log| - 1].payload.preflight)
    else LoadPreflight(log[..|log| - 1], tenant, id)
  }

  predicate HasDecision(log: seq<Event>, tenant: string, id: string) {
    exists i :: 0 <= i < |log| && IsDecision(log[i], tenant, id)
  }

  // ---------------------------------------------------------------- binding and deciding

  predicate Mismatches(p: Preflight, q: Request) {
    p.gate.source != q.source || p.gate.windowHours != q.windowHours || p.gate.thresholds != q.thresholds
    || !p.gate.readiness.deep || !p.gate.readiness.ops
  }

  function Bind(log: seq<Event>, c: Context, q: Request, id: string, now: int): Result<Preflight> {
    if id == "" then Refused(NoPreflightId)
    else
      var loaded := LoadPreflight(log, c.tenant, id);
      if loaded == None then Refused(UnknownPreflight)
      else
        var p := loaded.value;
        if p.id != id then Refused(WrongId)
        else if p.tenant != c.tenant then Refused(WrongTenant)
        else if p.environment != c.environment then Refused(WrongEnvironment)
        else if p.actor != c.actor then Refused(WrongActor)
        else if p.targetVersion != q.targetVersion then Refused(WrongVersion)
        else if now >= p.expiresAt then Refused(Expired)
        else if HasDecision(log, c.tenant, id) then Refused(AlreadyUsed)
        else if Mismatches(p, q) then Refused(Mismatched)
        else Accepted(p)
  }

  function Malformed(q: Request, d: Ruling): Option<Refusal> {
    if q.targetVersion == "" then Some(NoTargetVersion)
    else if d.note == "" then Some(NoNote)
    else if d.overrideBlocked && d.verdict != Approved then Some(OverrideWithoutApproval)
    else if d.overrideBlocked && d.overrideReason == "" then Some(NoOverrideReason)
    else if !q.deep then Some(ShallowRequest)
    else if !q.ops then Some(OpsMissing)
    else None
  }

  function Decide(h: Hashing, log: seq<Event>, c: Context, q: Request, d: Ruling, gate: Gate,
                  now: int): Result<Decision> {
    if Malformed(q, d).Some? then Refused(Malformed(q, d).value)
    else
      match Bind(log, c, q, d.preflightId, now)
      case Refused(why) => Refused(why)
      case Accepted(p) => Confirm(h, c, q, d, p, gate, now)
  }

  // The live gate against the bound preflight.
  function Confirm(h: Hashing, c: Context, q: Request, d: Ruling, p: Preflight, gate: Gate,
                   now: int): Result<Decision> {
    var fingerprint := Fingerprint(h.digest, gate);
    if d.verdict == Approved && p.gateStatus == Blocked && !d.overrideBlocked then Refused(PreflightBlocked)
    else if p.gateFingerprint != fingerprint then Refused(EvidenceChanged)
    else if d.verdict == Approved && gate.status == Blocked && !d.overrideBlocked then Refused(LiveBlocked)
    else
      Accepted(Decision(c.tenant, gate.environment, q.targetVersion, d.verdict, gate.status, gate, fingerprint,
                        p.id, p, d.note, d.overrideBlocked, d.overrideReason, c.actor, now))
  }

  // What each accepted record appends.
  function PreflightEvent(c: Context, p: Preflight): Event {
    Event(c.tenant, p.id, PreflightRecorded(p))
  }

  function DecisionEvent(c: Context, d: Decision): Event {
    Event(c.tenant, d.preflightId, DecisionRecorded(d))
  }

  class PromotionHandlers {
    const hashing: Hashing
    var log: seq<Event>

    constructor (hashing: Hashing)
      ensures this.hashing == hashing && log == []
    {
      this.hashing := hashing;
      log := [];
    }

    // The newest matching event is found from the end of the log.
    method FindPreflight(tenant: string, id: string) returns (p: Option<Preflight>)
      ensures p == LoadPreflight(log, tenant, id)
    {
      var i := |log|;
      assert log[..i] == log;
      while i > 0
        invariant 0 <= i <= |log|
        invariant LoadPreflight(log, tenant, id) == LoadPreflight(log[..i], tenant, id)
      {
        if IsPreflight(log[i - 1], tenant, id) {
          return Some(log[i - 1].payload.preflight);
        }
        assert log[..i][..i - 1] == log[..i - 1];
        i := i - 1;
      }
      p := None;
    }

    method RecordPreflight(c: Context, q: Request, e: Evaluation, id: string, minutes: nat, createdAt: int)
      returns (r: Result<Preflight>)
      modifies this`log
      ensures r == NewPreflight(hashing, c, Strip(q), GateFor(hashing, c, q, e), id, minutes, createdAt)
      ensures log == old(log) + if r.Accepted? then [PreflightEvent(c, r.record)] else []
    {
      r := NewPreflight(hashing, c, Strip(q), GateFor(hashing, c, q, e), id, minutes, createdAt);
      if r.Accepted? {
        log := log + [PreflightEvent(c, r.record)];
      }
    }

    method RecordDecision(c: Context, body: Request, ruling: Ruling, e: Evaluation, now: int)
        returns (r: Result<Decision>)
      modifies this`log
      ensures r == Decide(hashing, old(log), c, Strip(body), StripRuling(ruling), GateFor(hashing, c, body, e), now)
      ensures log == old(log) + if r.Accepted? then [DecisionEvent(c, r.record)] else []
    {
      r := Settle(c, Strip(body), StripRuling(ruling), GateFor(hashing, c, body, e), now);
    }

    method Settle(c: Context, q: Request, d: Ruling, gate: Gate, now: int) returns (r: Result<Decision>)
      modifies this`log
      ensures r == Decide(hashing, old(log), c, q, d, gate, now)
      ensures log == old(log) + if r.Accepted? then [DecisionEvent(c, r.record)] else []
    {
      var malformed := Malformed(q, d);
      if malformed.Some? {
        return Refused(malformed.value);
      }
      var bound := Bind(log, c, q, d.preflightId, now);
      if bound.Refused? {
        return Refused(bound.why);
      }
      r := Confirm(hashing, c, q, d, bound.record, gate, now);
      if r.Accepted? {
        log := log + [DecisionEvent(c, r.record)];
      }
    }
  }
}
