/** The console's snapshot: numbered requests whose replies may arrive in any order, and the freshness that
    decides whether the operator may change anything. */
module SnapshotLoader {
  import opened Wrappers

  // ---------------------------------------------------------------- freshness

  datatype FreshnessStatus = Loading | Failed | Stale | Refreshing | Degraded | Paused | Fresh

  datatype Freshness = Freshness(status: FreshnessStatus, ageMs: Option<int>, isStale: bool, canMutate: bool)

  datatype FreshnessInput = FreshnessInput(
    fetchedAtMs: Option<int>,
    nowMs: int,
    loading: bool,
    error: Option<string>,
    liveEnabled: bool,
    staleAfterMs: int,
    issueCount: nat)

  // The empty message counts as no error.
  predicate Truthy(text: Option<string>) {
    text.Some? && text.value != ""
  }

  function BuildFreshness(i: FreshnessInput): Freshness {
    if i.fetchedAtMs == None then Freshness(if i.loading then Loading else Failed, None, !i.loading, false)
    else
      var age := if i.nowMs > i.fetchedAtMs.value then i.nowMs - i.fetchedAtMs.value else 0;
      if age > i.staleAfterMs then Freshness(Stale, Some(age), true, false)
      else if Truthy(i.error) then Freshness(Failed, Some(age), false, false)
      else if i.loading then Freshness(Refreshing, Some(age), false, true)
      else if i.issueCount != 0 then Freshness(Degraded, Some(age), false, true)
      else if !i.liveEnabled then Freshness(Paused, Some(age), false, true)
      else Freshness(FreshnessStatus.Fresh, Some(age), false, true)
  }

  // ---------------------------------------------------------------- the loader

  const STALE_AFTER_MS := 90_000

  // A snapshot, reduced to its identity and the number of issues it reports.
  datatype Snapshot = Snapshot(id: string, issueCount: nat)

  datatype Panel = Panel(
    requestId: nat,
    loading: bool,
    banner: Option<string>,
    snapshot: Option<Snapshot>,
    fetchedAtMs: Option<int>,
    freshnessNowMs: int,
    error: Option<string>)

  const INITIAL := Panel(0, true, None, None, None, 0, None)

  function Issued(p: Panel, silent: bool): Panel {
    p.(requestId := p.requestId + 1, loading := true, banner := if silent then p.banner else None)
  }

  // A reply counts only while its request is the newest; the clock is read twice.
  function Succeeded(p: Panel, request: nat, silent: bool, s: Snapshot, fetchedAt: int, now: int): Panel {
    if request != p.requestId then p
    else
      p.(snapshot := Some(s), fetchedAtMs := Some(fetchedAt), freshnessNowMs := now,
         banner := if !silent || p.error.Some? then None else p.banner, error := None, loading := false)
  }

  function FailedWith(p: Panel, request: nat, message: string): Panel {
    if request != p.requestId then p
    else p.(banner := Some(message), error := Some(message), loading := false)
  }

  function Ticked(p: Panel, now: int): Panel {
    p.(freshnessNowMs := now)
  }

  // Zero counts as not sampled.
  function SampledClock(p: Panel): int {
    if p.freshnessNowMs != 0 then p.freshnessNowMs else if p.fetchedAtMs.Some? then p.fetchedAtMs.value else 0
  }

  function FreshnessOf(p: Panel, liveEnabled: bool): Freshness {
    BuildFreshness(FreshnessInput(p.fetchedAtMs, SampledClock(p), p.loading, p.error, liveEnabled, STALE_AFTER_MS,
                                  if p.snapshot.Some? then p.snapshot.value.issueCount else 0))
  }

  class SnapshotPanel {
    var requestId: nat
    var loading: bool
    var banner: Option<string>
    var snapshot: Option<Snapshot>
    var fetchedAtMs: Option<int>
    var freshnessNowMs: int
    var error: Option<string>

    function Value(): Panel
      reads this
    {
      Panel(requestId, loading, banner, snapshot, fetchedAtMs, freshnessNowMs, error)
    }

    constructor ()
      ensures Value() == INITIAL
    {
      requestId, loading, freshnessNowMs := 0, true, 0;
      banner, snapshot, fetchedAtMs, error := None, None, None, None;
    }

    method BeginLoad(silent: bool) returns (request: nat)
      modifies this
      ensures Value() == Issued(old(Value()), silent) && request == requestId
    {
      requestId := requestId + 1;
      request := requestId;
      loading := true;
      if !silent {
        banner := None;
      }
    }

    method EndLoad(request: nat, silent: bool, s: Snapshot, fetchedAt: int, now: int)
      modifies this
      ensures Value() == Succeeded(old(Value()), request, silent, s, fetchedAt, now)
    {
      if request != requestId {
        return;
      }
      snapshot := Some(s);
      fetchedAtMs := Some(fetchedAt);
      freshnessNowMs := now;
      var hadError := error.Some?;
      if !silent || hadError {
        banner := None;
      }
      error := None;
      loading := false;
    }

    method FailLoad(request: nat, message: string)
      modifies this
      ensures Value() == FailedWith(old(Value()), request, message)
    {
      if request != requestId {
        return;
      }
      banner := Some(message);
      error := Some(message);
      loading := false;
    }

    method Tick(now: int)
      modifies this
      ensures Value() == Ticked(old(Value()), now)
    {
      freshnessNowMs := now;
    }

    method RequireFresh(liveEnabled: bool, message: string) returns (ok: bool)
      modifies this`banner
      ensures ok == FreshnessOf(old(Value()), liveEnabled).canMutate
      ensures Value() == if ok then old(Value()) else old(Value()).(banner := Some(message))
    {
      ok := FreshnessOf(Value(), liveEnabled).canMutate;
      if !ok {
        banner := Some(message);
      }
    }
  }

  // ---------------------------------------------------------------- runs

  datatype Step =
    | Issue(silent: bool)
    | Succeed(request: nat, silent: bool, s: Snapshot, fetchedAt: int, now: int)
    | Fail(request: nat, message: string)
    | Tick(now: int)

  datatype Taken = Taken(snapshot: Snapshot, fetchedAt: int)

  datatype Outcome = Success(taken: Taken) | Failure(message: string)

  datatype Accepted = Accepted(request: nat, outcome: Outcome)

  // `open` are the requests that were issued and not answered; `accepted` the replies that counted.
  datatype World = World(panel: Panel, open: set<nat>, accepted: seq<Accepted>)

  // Each request is answered at most once.
  function Next(w: World, step: Step): World {
    match step
    case Issue(silent) =>
      var p := Issued(w.panel, silent);
      w.(panel := p, open := w.open + {p.requestId})
    case Succeed(request, silent, s, fetchedAt, now) =>
      if request !in w.open then w
      else
        World(Succeeded(w.panel, request, silent, s, fetchedAt, now), w.open - {request},
              if request == w.panel.requestId then w.accepted + [Accepted(request, Success(Taken(s, fetchedAt)))]
                  else w.accepted)
    case Fail(request, message) =>
      if request !in w.open then w
      else
        World(FailedWith(w.panel, request, message), w.open - {request},
              if request == w.panel.requestId then w.accepted + [Accepted(request, Failure(message))] else w.accepted)
    case Tick(now) => w.(panel := Ticked(w.panel, now))
  }

  function Run(steps: seq<Step>): World {
    if steps == [] then World(INITIAL, {}, []) else Next(Run(steps[..|steps| - 1]), steps[|steps| - 1])
  }

  // The newest accepted success.
  function LastSuccess(accepted: seq<Accepted>): Option<Taken> {
    if accepted == [] then None
    else if accepted[|accepted| - 1].outcome.Success? then Some(accepted[|accepted| - 1].outcome.taken)
    else LastSuccess(accepted[..|accepted| - 1])
  }

  predicate Increasing(accepted: seq<Accepted>) {
    forall i, j :: 0 <= i < j < |accepted| ==> accepted[i].request < accepted[j].request
  }

  predicate ShowsAccepted(p: Panel, accepted: seq<Accepted>) {
    && p.snapshot == (if LastSuccess(accepted).Some? then Some(LastSuccess(accepted).value.snapshot) else None)
    && p.fetchedAtMs == (if LastSuccess(accepted).Some? then Some(LastSuccess(accepted).value.fetchedAt) else None)
    && p.error == (if accepted != [] && accepted[|accepted| - 1].outcome.Failure?
        then Some(accepted[|accepted| - 1].outcome.message)
                   else None)
  }

  predicate Inv(w: World) {
    && (forall r :: r in w.open ==> 0 < r <= w.panel.requestId)
    && (w.panel.loading <==> w.panel.requestId == 0 || w.panel.requestId in w.open)
    && Increasing(w.accepted)
    && (forall i :: 0 <= i < |w.accepted| ==>
        w.accepted[i].request <= w.panel.requestId && w.accepted[i].request !in w.open)
    && ShowsAccepted(w.panel, w.accepted)
  }

  lemma AnswerKeepsInv(w: World, panel: Panel, request: nat, outcome: Outcome)
    requires Inv(w) && request in w.open && request == w.panel.requestId
    requires panel.requestId == w.panel.requestId && !panel.loading
    requires if outcome.Success?
             then (panel.snapshot == Some(outcome.taken.snapshot) && panel.fetchedAtMs == Some(outcome.taken.fetchedAt)
                   && panel.error == None)
             else (panel.snapshot == w.panel.snapshot && panel.fetchedAtMs == w.panel.fetchedAtMs
                   && panel.error == Some(outcome.message))
    ensures Inv(World(panel, w.open - {request}, w.accepted + [Accepted(request, outcome)]))
  {
    var accepted := w.accepted + [Accepted(request, outcome)];
    assert accepted[..|w.accepted|] == w.accepted;
    forall i | 0 <= i < |w.accepted| ensures accepted[i].request < request {
      assert w.accepted[i].request !in w.open;
    }
  }

  lemma NextKeepsInv(w: World, step: Step)
    requires Inv(w)
    ensures Inv(Next(w, step))
  {
    match step
    case Issue(_) =>
    case Succeed(request, silent, s, fetchedAt, now) =>
      if request in w.open && request == w.panel.requestId {
        AnswerKeepsInv(w, Succeeded(w.panel, request, silent, s, fetchedAt, now), request,
                       Success(Taken(s, fetchedAt)));
      }
    case Fail(request, message) =>
      if request in w.open && request == w.panel.requestId {
        AnswerKeepsInv(w, FailedWith(w.panel, request, message), request, Failure(message));
      }
    case Tick(_) =>
  }

  lemma {:induction false} RunKeepsInv(steps: seq<Step>)
    ensures Inv(Run(steps))
  {
    if steps != [] {
      RunKeepsInv(steps[..|steps| - 1]);
      NextKeepsInv(Run(steps[..|steps| - 1]), steps[|steps| - 1]);
    }
  }

  // ---------------------------------------------------------------- theorems

  /** The requests whose replies counted strictly increase. */
  lemma AcceptedRequestsIncrease(steps: seq<Step>)
    ensures Increasing(Run(steps).accepted)
  {
    RunKeepsInv(steps);
  }

  /** `loading` holds exactly while the newest request is unanswered; before any request it holds too. */
  lemma LoadingIff(steps: seq<Step>)
    ensures var w := Run(steps); w.panel.loading <==> w.panel.requestId == 0 || w.panel.requestId in w.open
  {
    RunKeepsInv(steps);
  }

  /** The snapshot on screen is that of the newest accepted success, the error that of a failure accepted
      after it. */
  lemma ScreenShowsAccepted(steps: seq<Step>)
    ensures ShowsAccepted(Run(steps).panel, Run(steps).accepted)
  {
    RunKeepsInv(steps);
  }

  /** When the newest request has been answered, its reply is the last that counted: what is on screen does
      not depend on the order in which the earlier replies arrived. */
  lemma {:induction false} NewestReplyWins(steps: seq<Step>)
    requires Run(steps).panel.requestId > 0 && Run(steps).panel.requestId !in Run(steps).open
    ensures var w := Run(steps); w.accepted != [] && w.accepted[|w.accepted| - 1].request == w.panel.requestId
  {
    var before, step := Run(steps[..|steps| - 1]), steps[|steps| - 1];
    RunKeepsInv(steps[..|steps| - 1]);
    if before.panel.requestId > 0 && before.panel.requestId !in before.open && !step.Issue? {
      NewestReplyWins(steps[..|steps| - 1]);
    }
  }

  /** The operator may change something exactly when a snapshot was accepted, is no older than the bound at
      the sampled clock, and was not followed by an accepted failure with a message. */
  lemma CanMutateIff(steps: seq<Step>, liveEnabled: bool)
    ensures var w := Run(steps);
            FreshnessOf(w.panel, liveEnabled).canMutate <==>
              && LastSuccess(w.accepted).Some?
              && SampledClock(w.panel) - LastSuccess(w.accepted).value.fetchedAt <= STALE_AFTER_MS
              && (w.accepted[|w.accepted| - 1].outcome.Success? || w.accepted[|w.accepted| - 1].outcome.message == "")
  {
    RunKeepsInv(steps);
  }

  // The clock a freshness is judged by: the last sample, or the time of the snapshot when none counts.
  lemma ClockFollows(w: World, step: Step)
    ensures var p := Next(w, step).panel;
            match step
            case Tick(now) => p == w.panel.(freshnessNowMs := now)
            case Succeed(request, _, _, _, now) =>
              p.freshnessNowMs == if request in w.open && request == w.panel.requestId then now
                  else w.panel.freshnessNowMs
            case _ => p.freshnessNowMs == w.panel.freshnessNowMs
    ensures SampledClock(w.panel)
         == if w.panel.freshnessNowMs != 0 then w.panel.freshnessNowMs
            else if w.panel.fetchedAtMs == None then 0
            else w.panel.fetchedAtMs.value
  {
  }

  /** The freshness shown, in every state of every run, by what was accepted: an age as soon as there is a
      snapshot; stale past ninety seconds; failed after a failure with a message; and otherwise, in this
      order, refreshing, degraded, paused or fresh, while none of these keeps the operator from acting. */
  lemma FreshnessIs(steps: seq<Step>, liveEnabled: bool)
    ensures var w := Run(steps);
            var f, last := FreshnessOf(w.panel, liveEnabled), LastSuccess(w.accepted);
            var waiting := w.panel.requestId == 0 || w.panel.requestId in w.open;
            if last == None then
              && f.ageMs == None && !f.canMutate && f.isStale == !waiting
              && f.status == (if waiting then Loading else Failed)
            else
              var age := SampledClock(w.panel) - last.value.fetchedAt;
              var reply := w.accepted[|w.accepted| - 1].outcome;
              && f.ageMs == Some(if age < 0 then 0 else age)
              && (f.isStale <==> age > 90_000) && (f.status == Stale <==> age > 90_000)
              && (f.status == Failed <==> age <= 90_000 && reply.Failure? && reply.message != "")
              && (f.canMutate <==> f.status != Stale && f.status != Failed)
              && (f.canMutate ==>
                    f.status == if waiting then Refreshing
                                else if last.value.snapshot.issueCount > 0 then Degraded
                                else if !liveEnabled then Paused
                                else FreshnessStatus.Fresh)
  {
    RunKeepsInv(steps);
  }

  /** When the newest request has failed, its message is on the banner. */
  lemma {:induction false} FailureIsOnTheBanner(steps: seq<Step>)
    requires Run(steps).panel.requestId > 0 && Run(steps).panel.requestId !in Run(steps).open
    requires var w := Run(steps); w.accepted != [] && w.accepted[|w.accepted| - 1].outcome.Failure?
    ensures var w := Run(steps); w.panel.banner == Some(w.accepted[|w.accepted| - 1].outcome.message)
  {
    var before, step := Run(steps[..|steps| - 1]), steps[|steps| - 1];
    RunKeepsInv(steps[..|steps| - 1]);
    if before.panel.requestId > 0 && before.panel.requestId !in before.open && !step.Issue? {
      FailureIsOnTheBanner(steps[..|steps| - 1]);
    }
  }

  // A failure whose message is empty leaves the operator able to change things.
  lemma EmptyFailureKeepsMutation(s: Snapshot, now: int)
    requires now > 0
    ensures var steps := [Issue(false), Succeed(1, false, s, now, now), Issue(false), Fail(2, "")];
            var w := Run(steps);
            w.accepted == [Accepted(1, Success(Taken(s, now))), Accepted(2, Failure(""))]
                && FreshnessOf(w.panel, true).canMutate
  {
    var a, b, c, d := Issue(false), Succeed(1, false, s, now, now), Issue(false), Fail(2, "");
    assert [a, b, c, d][..3] == [a, b, c] && [a, b, c][..2] == [a, b] && [a, b][..1] == [a] && [a][..0] == [];
    assert Run([a]) == Next(World(INITIAL, {}, []), a);
    assert Run([a, b]) == Next(Run([a]), b);
    assert Run([a, b, c]) == Next(Run([a, b]), c);
    assert Run([a, b, c, d]) == Next(Run([a, b, c]), d);
  }
}
