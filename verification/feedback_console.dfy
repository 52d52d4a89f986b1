/** The review panel of the console over a run: loads and submissions whose replies arrive in any order,
    ungated refreshes after a conflict, queue rows of any age, and reviews from elsewhere. */
module FeedbackConsole {
  import opened FeedbackReview
  import opened Wrappers

  // ---------------------------------------------------------------- the panel

  datatype Panel = Panel(requestId: nat, loadingId: Option<string>, shown: seq<Review>, error: Option<string>)

  const INITIAL := Panel(0, None, [], None)

  function LoadBegun(p: Panel, feedback: string): Panel {
    Panel(p.requestId + 1, Some(feedback), [], None)
  }

  function SubmitBegun(p: Panel, feedback: string): Panel {
    Panel(p.requestId + 1, Some(feedback), p.shown, None)
  }

  // Everything below but the refresh counts only while its request is the newest.
  function LoadShown(p: Panel, request: nat, reviews: seq<Review>): Panel {
    if request == p.requestId then p.(shown := reviews, loadingId := None) else p
  }

  function Recorded(p: Panel, request: nat, review: Review): Panel {
    if request == p.requestId && !HasId(p.shown, review.id) then p.(shown := p.shown + [review]) else p
  }

  function Ended(p: Panel, request: nat, failure: Option<string>): Panel {
    if request == p.requestId then p.(loadingId := None, error := if failure.Some? then failure else p.error) else p
  }

  function Refreshed(p: Panel, reviews: seq<Review>): Panel {
    p.(shown := reviews)
  }

  class FeedbackReviewPanel {
    var requestId: nat
    var loadingId: Option<string>
    var shown: seq<Review>
    var error: Option<string>

    function Value(): Panel
      reads this
    {
      Panel(requestId, loadingId, shown, error)
    }

    constructor ()
      ensures Value() == INITIAL
    {
      requestId, loadingId, shown, error := 0, None, [], None;
    }

    method BeginLoad(feedback: string) returns (request: nat)
      modifies this
      ensures Value() == LoadBegun(old(Value()), feedback) && request == requestId
    {
      requestId := requestId + 1;
      request := requestId;
      loadingId, error, shown := Some(feedback), None, [];
    }

    method ShowLoad(request: nat, reviews: seq<Review>)
      modifies this
      ensures Value() == LoadShown(old(Value()), request, reviews)
    {
      if request == requestId {
        shown := reviews;
        loadingId := None;
      }
    }

    method BeginSubmit(feedback: string, row: Option<ReviewState>) returns (request: nat, expected: Option<Expected>)
      modifies this
      ensures Value() == SubmitBegun(old(Value()), feedback) && request == requestId
      ensures expected == Sent(Fingerprint(feedback, old(shown), row))
    {
      requestId := requestId + 1;
      request := requestId;
      loadingId, error := Some(feedback), None;
      expected := Sent(Fingerprint(feedback, shown, row));
    }

    method ShowRecorded(request: nat, review: Review)
      modifies this
      ensures Value() == Recorded(old(Value()), request, review)
    {
      if request != requestId {
        return;
      }
      if !HasId(shown, review.id) {
        shown := shown + [review];
      }
    }

    method ShowRefresh(reviews: seq<Review>)
      modifies this`shown
      ensures Value() == Refreshed(old(Value()), reviews)
    {
      shown := reviews;
    }

    // The error handler, when there is a failure, and what runs at the end in any case.
    method End(request: nat, failure: Option<string>)
      modifies this
      ensures Value() == Ended(old(Value()), request, failure)
    {
      if failure.Some? && request == requestId {
        error := failure;
      }
      if request == requestId {
        loadingId := None;
      }
    }
  }

  // ---------------------------------------------------------------- runs

  // A request on its way. A read is answered with the log of some moment since it was sent, `from` being
  // the number of reviews then; a recorded review is named by its position in the log.
  datatype Call =
    | Loading(feedback: string, from: nat)
    | Submitting(feedback: string, basis: ReviewState)
    | Accepted(position: nat)
    | Refused(feedback: string)
    | Refreshing(feedback: string, from: nat, message: string)
    | Ending(failure: Option<string>)

  // A trail on screen: of which feedback, and cut from which prefix of the log.
  datatype Base = Base(feedback: string, upTo: nat)

  /** `log` are the reviews of all feedbacks; `rows` the prefix each queue row was read from. History:
      `base` and `extra` are the trail last shown and the positions of the own reviews shown after it;
      `own` the positions this console recorded; `lastOpen` the newest load, and `refreshed` the feedbacks
      whose refresh was shown since. */
  datatype World = World(
    panel: Panel,
    log: seq<Review>,
    rows: map<string, nat>,
    calls: map<nat, Call>,
    base: Option<Base>,
    extra: seq<nat>,
    own: set<nat>,
    lastOpen: Option<Base>,
    refreshed: set<string>)

  datatype Step =
    | Open(feedback: string)
    | ShowLoad(request: nat, upTo: nat)
    | LoseLoad(request: nat, message: string)
    | Submit(feedback: string)
    | Serve(request: nat, review: Review)
    | ShowAccepted(request: nat)
    | Conflict(request: nat, message: string)
    | ShowRefresh(request: nat, upTo: nat)
    | LoseRefresh(request: nat)
    | LoseSubmit(request: nat, message: string)
    | End(request: nat)
    | ShowRow(feedback: string, upTo: nat)
    | DropRow(feedback: string)
    | Other(review: Review)

  function TrailOf(log: seq<Review>, feedback: string, upTo: nat): seq<Review>
    requires upTo <= |log|
  {
    Trail(Of(log[..upTo], feedback))
  }

  function RowOf(w: World, feedback: string): Option<ReviewState> {
    if feedback in w.rows && w.rows[feedback] <= |w.log|
        then Some(StateAfter(Of(w.log[..w.rows[feedback]], feedback))) else None
  }

  // What a submission for a feedback would send now.
  function Basis(w: World, feedback: string): ReviewState {
    Fingerprint(feedback, w.panel.shown, RowOf(w, feedback))
  }

  function Drop(calls: map<nat, Call>, request: nat): map<nat, Call> {
    calls - {request}
  }

  function Opened(w: World, feedback: string): World {
    var p := LoadBegun(w.panel, feedback);
    w.(panel := p, calls := w.calls[p.requestId := Loading(feedback, |w.log|)],
       base := None, extra := [], lastOpen := Some(Base(feedback, |w.log|)), refreshed := {})
  }

  function LoadAnswered(w: World, request: nat, upTo: nat): World
    requires request in w.calls && w.calls[request].Loading? && upTo <= |w.log|
  {
    var f := w.calls[request].feedback;
    var w' := w.(panel := LoadShown(w.panel, request, TrailOf(w.log, f, upTo)), calls := Drop(w.calls, request));
    if request == w.panel.requestId then w'.(base := Some(Base(f, upTo)), extra := []) else w'
  }

  function Submitted(w: World, feedback: string): World {
    var p := SubmitBegun(w.panel, feedback);
    w.(panel := p, calls := w.calls[p.requestId := Submitting(feedback, Basis(w, feedback))])
  }

  function Served(w: World, request: nat, review: Review): World
    requires request in w.calls && w.calls[request].Submitting? && review.feedback == w.calls[request].feedback
  {
    if Accepts(w.log, review.feedback, Sent(w.calls[request].basis)) then
      w.(log := w.log + [review], calls := w.calls[request := Accepted(|w.log|)], own := w.own + {|w.log|})
    else w.(calls := w.calls[request := Refused(review.feedback)])
  }

  function AcceptedShown(w: World, request: nat): World
    requires request in w.calls && w.calls[request].Accepted? && w.calls[request].position < |w.log|
  {
    var position := w.calls[request].position;
    var w' := w.(panel := Recorded(w.panel, request, w.log[position]), calls := w.calls[request := Ending(None)]);
    if w'.panel == w.panel then w' else w'.(extra := w.extra + [position])
  }

  function RefreshShown(w: World, request: nat, upTo: nat): World
    requires request in w.calls && w.calls[request].Refreshing? && upTo <= |w.log|
  {
    var c := w.calls[request];
    w.(panel := Refreshed(w.panel, TrailOf(w.log, c.feedback, upTo)),
       calls := w.calls[request := Ending(Some(c.message))],
       base := Some(Base(c.feedback, upTo)), extra := [], refreshed := w.refreshed + {c.feedback})
  }

  function Finished(w: World, request: nat, failure: Option<string>): World {
    w.(panel := Ended(w.panel, request, failure), calls := Drop(w.calls, request))
  }

  predicate Waits(w: World, request: nat) {
    request in w.calls
  }

  // A reply arrives only for the call it answers; anything else leaves the world alone.
  predicate Possible(w: World, step: Step) {
    match step
    case ShowLoad(r, upTo) => Waits(w, r) && w.calls[r].Loading? && w.calls[r].from <= upTo <= |w.log|
    case LoseLoad(r, _) => Waits(w, r) && w.calls[r].Loading?
    case Serve(r, review) => Waits(w, r) && w.calls[r].Submitting? && review.feedback == w.calls[r].feedback
    case ShowAccepted(r) => Waits(w, r) && w.calls[r].Accepted? && w.calls[r].position < |w.log|
    case Conflict(r, _) => Waits(w, r) && w.calls[r].Refused?
    case ShowRefresh(r, upTo) => Waits(w, r) && w.calls[r].Refreshing? && w.calls[r].from <= upTo <= |w.log|
    case LoseRefresh(r) => Waits(w, r) && w.calls[r].Refreshing?
    case LoseSubmit(r, _) => Waits(w, r) && (w.calls[r].Submitting? || w.calls[r].Accepted? || w.calls[r].Refused?)
    case End(r) => Waits(w, r) && w.calls[r].Ending?
    case ShowRow(_, upTo) => upTo <= |w.log|
    case _ => true
  }

  function Next(w: World, step: Step): World {
    if !Possible(w, step) then w
    else
      match step
      case Open(f) => Opened(w, f)
      case ShowLoad(r, upTo) => LoadAnswered(w, r, upTo)
      case LoseLoad(r, message) => Finished(w, r, Some(message))
      case Submit(f) => Submitted(w, f)
      case Serve(r, review) => Served(w, r, review)
      case ShowAccepted(r) => AcceptedShown(w, r)
      case Conflict(r, message) => w.(calls := w.calls[r := Refreshing(w.calls[r].feedback, |w.log|, message)])
      case ShowRefresh(r, upTo) => RefreshShown(w, r, upTo)
      case LoseRefresh(r) => w.(calls := w.calls[r := Ending(Some(w.calls[r].message))])
      case LoseSubmit(r, message) => w.(calls := w.calls[r := Ending(Some(message))])
      case End(r) => Finished(w, r, w.calls[r].failure)
      case ShowRow(f, upTo) => w.(rows := w.rows[f := upTo])
      case DropRow(f) => w.(rows := w.rows - {f})
      case Other(review) => w.(log := w.log + [review])
  }

  const START := World(INITIAL, [], map[], map[], None, [], {}, None, {})

  function Run(steps: seq<Step>): World {
    if steps == [] then START else Next(Run(steps[..|steps| - 1]), steps[|steps| - 1])
  }

  // ---------------------------------------------------------------- what is on screen

  function BaseTrail(log: seq<Review>, base: Option<Base>): seq<Review> {
    if base.Some? && base.value.upTo <= |log| then TrailOf(log, base.value.feedback, base.value.upTo) else []
  }

  predicate Below(picks: seq<nat>, n: nat) {
    forall i :: 0 <= i < |picks| ==> picks[i] < n
  }

  function Pick(s: seq<Review>, picks: seq<nat>): seq<Review>
    requires Below(picks, |s|)
  {
    seq(|picks|, i requires 0 <= i < |picks| => s[picks[i]])
  }

  predicate Rising(picks: seq<nat>) {
    forall i, j :: 0 <= i < j < |picks| ==> picks[i] < picks[j]
  }

  // How many reviews of its feedback stand before a position: its index among them.
  function Index(log: seq<Review>, position: nat): nat
    requires position < |log|
  {
    |Of(log[..position], log[position].feedback)|
  }

  // A review of the trail's own feedback that the trail does not hold.
  predicate Beyond(log: seq<Review>, base: Option<Base>, position: nat)
    requires position < |log|
  {
    base.Some? && base.value.feedback == log[position].feedback ==> Index(log, position) >= |BaseTrail(log, base)|
  }

  predicate ExtraOk(log: seq<Review>, base: Option<Base>, extra: seq<nat>, own: set<nat>) {
    && Below(extra, |log|) && Rising(extra)
    && (forall i :: 0 <= i < |extra| ==> extra[i] in own && Beyond(log, base, extra[i]))
  }

  predicate ShownOk(shown: seq<Review>, log: seq<Review>, base: Option<Base>, extra: seq<nat>) {
    Below(extra, |log|) && shown == BaseTrail(log, base) + Pick(log, extra)
  }

  // A state that counts no more reviews than there are, and is current when it counts them all.
  predicate Sound(log: seq<Review>, feedback: string, basis: ReviewState) {
    && basis.count <= |Of(log, feedback)|
    && (basis.count == |Of(log, feedback)| ==> basis == StateAfter(Of(log, feedback)))
  }

  predicate CallOk(log: seq<Review>, extra: seq<nat>, own: set<nat>, newest: bool, c: Call) {
    match c
    case Loading(_, from) => from <= |log|
    case Submitting(f, basis) => Sound(log, f, basis)
    case Accepted(position) => position < |log| && position in own && (newest ==> Below(extra, position))
    case Refreshing(_, from, _) => from <= |log|
    case _ => true
  }

  ghost predicate CallsOk(w: World) {
    forall r :: r in w.calls ==>
        0 < r <= w.panel.requestId && CallOk(w.log, w.extra, w.own, r == w.panel.requestId, w.calls[r])
  }

  predicate RowsOk(w: World) {
    forall f :: f in w.rows ==> w.rows[f] <= |w.log|
  }

  predicate LoadingOk(w: World) {
    w.panel.loadingId.Some? <==> w.panel.requestId in w.calls
  }

  predicate BaseOk(w: World) {
    && (w.base.Some? ==> w.base.value.upTo <= |w.log|)
    && (w.base.Some? && w.refreshed == {} ==>
          w.lastOpen.Some? && w.base.value.feedback == w.lastOpen.value.feedback
              && w.lastOpen.value.upTo <= w.base.value.upTo)
    && (w.base.Some? && w.refreshed != {} ==>
          w.base.value.feedback in w.refreshed
              || (w.lastOpen.Some? && w.base.value.feedback == w.lastOpen.value.feedback))
    && (w.lastOpen.Some? ==> w.lastOpen.value.upTo <= |w.log|)
  }

  ghost predicate Inv(w: World) {
    && CallsOk(w) && RowsOk(w) && LoadingOk(w) && BaseOk(w) && OpenedOk(w)
    && ExtraOk(w.log, w.base, w.extra, w.own)
    && ShownOk(w.panel.shown, w.log, w.base, w.extra)
  }

  // The newest load, while it is the newest request and unanswered, is of the feedback that was opened.
  predicate OpenedOk(w: World) {
    w.panel.requestId in w.calls && w.calls[w.panel.requestId].Loading? ==>
      w.lastOpen == Some(Base(w.calls[w.panel.requestId].feedback, w.calls[w.panel.requestId].from))
  }

  // ---------------------------------------------------------------- reviews of one feedback in a log

  lemma {:induction false} OfConcat(a: seq<Review>, b: seq<Review>, feedback: string)
    ensures Of(a + b, feedback) == Of(a, feedback) + Of(b, feedback)
  {
    if b == [] {
      assert a + b == a;
    } else {
      var b', last := b[..|b| - 1], b[|b| - 1];
      assert (a + b)[..|a + b| - 1] == a + b';
      OfConcat(a, b', feedback);
    }
  }

  lemma {:induction false} OfOther(reviews: seq<Review>, feedback: string)
    requires forall i :: 0 <= i < |reviews| ==> reviews[i].feedback != feedback
    ensures Of(reviews, feedback) == []
  {
    if reviews != [] {
      OfOther(reviews[..|reviews| - 1], feedback);
    }
  }

  // A review stands among those of its feedback at its index.
  lemma IndexFinds(log: seq<Review>, position: nat)
    requires position < |log|
    ensures var reviews := Of(log, log[position].feedback);
            && Index(log, position) < |reviews| && reviews[Index(log, position)] == log[position]
            && Of(log[..position + 1], log[position].feedback) == reviews[..Index(log, position) + 1]
  {
    var f := log[position].feedback;
    OfGrows(log, f, position + 1);
    assert log[..position + 1][..position] == log[..position];
    assert Of(log[..position + 1], f) == Of(log[..position], f) + [log[position]];
  }

  lemma OfMonotone(log: seq<Review>, feedback: string, k: nat, m: nat)
    requires k <= m <= |log|
    ensures |Of(log[..k], feedback)| <= |Of(log[..m], feedback)|
  {
    OfGrows(log[..m], feedback, k);
    assert log[..m][..k] == log[..k];
  }

  lemma PickAppend(s: seq<Review>, picks: seq<nat>, k: nat)
    requires Below(picks, k) && k < |s| && Rising(picks)
    ensures Rising(picks + [k]) && Below(picks + [k], k + 1) && Below(picks + [k], |s|)
    ensures Pick(s, picks + [k]) == Pick(s, picks) + [s[k]]
  {
  }

  // `picks` are the indices of one feedback's reviews among those at `extra`, all of which stand before `m`.
  ghost predicate Indices(log: seq<Review>, extra: seq<nat>, feedback: string, m: nat, picks: seq<nat>)
    requires m <= |log|
  {
    && Below(extra, m) && Rising(extra) && Rising(picks)
    && Below(picks, |Of(log[..m], feedback)|) && Below(picks, |Of(log, feedback)|)
    && Of(Pick(log, extra), feedback) == Pick(Of(log, feedback), picks)
  }

  lemma IndicesGrow(log: seq<Review>, init: seq<nat>, feedback: string, e: nat, m: nat, picks: seq<nat>)
    requires e < m <= |log| && Indices(log, init, feedback, e, picks)
    ensures log[e].feedback != feedback ==> Indices(log, init + [e], feedback, m, picks)
    ensures log[e].feedback == feedback ==> Indices(log, init + [e], feedback, m, picks + [Index(log, e)])
  {
    PickAppend(log, init, e);
    OfLast(Pick(log, init), log[e], feedback);
    OfMonotone(log, feedback, e, m);
    if log[e].feedback == feedback {
      IndexFinds(log, e);
      OfMonotone(log, feedback, e + 1, m);
      PickAppend(Of(log, feedback), picks, Index(log, e));
    }
  }

  // The own reviews of one feedback, as indices among its reviews.
  lemma {:induction false} OwnIndices(log: seq<Review>, extra: seq<nat>, feedback: string, least: nat, m: nat)
      returns (picks: seq<nat>)
    requires m <= |log| && Below(extra, m) && Rising(extra)
    requires forall i :: 0 <= i < |extra| && log[extra[i]].feedback == feedback ==> Index(log, extra[i]) >= least
    ensures Indices(log, extra, feedback, m, picks)
    ensures forall i :: 0 <= i < |picks| ==> picks[i] >= least
  {
    if extra == [] {
      picks := [];
    } else {
      var n := |extra| - 1;
      picks := OwnIndices(log, extra[..n], feedback, least, extra[n]);
      IndicesGrow(log, extra[..n], feedback, extra[n], m, picks);
      assert extra == extra[..n] + [extra[n]];
      if log[extra[n]].feedback == feedback {
        picks := picks + [Index(log, extra[n])];
      }
    }
  }

  lemma OfLast(reviews: seq<Review>, last: Review, feedback: string)
    ensures Of(reviews + [last], feedback) == if last.feedback == feedback then Of(reviews, feedback) + [last]
            else Of(reviews, feedback)
  {
    assert (reviews + [last])[..|reviews|] == reviews;
  }

  // ---------------------------------------------------------------- what is on screen of one feedback

  lemma TrailShape(log: seq<Review>, feedback: string, upTo: nat)
    requires upTo <= |log|
    ensures TrailOf(log, feedback, upTo) <= Of(log, feedback) && |TrailOf(log, feedback, upTo)| <= TRAIL_LIMIT
    ensures forall i :: 0 <= i < |TrailOf(log, feedback, upTo)| ==> TrailOf(log, feedback, upTo)[i].feedback == feedback
  {
    OfGrows(log, feedback, upTo);
    OfIsOne(log[..upTo], feedback);
  }

  lemma BaseShape(log: seq<Review>, base: Option<Base>, feedback: string)
    requires base.Some? ==> base.value.upTo <= |log|
    ensures Of(BaseTrail(log, base), feedback)
         == if base.Some? && base.value.feedback == feedback then BaseTrail(log, base) else []
    ensures base.Some? && base.value.feedback == feedback ==> BaseTrail(log, base) <= Of(log, feedback)
    ensures |BaseTrail(log, base)| <= TRAIL_LIMIT
  {
    if base.Some? {
      TrailShape(log, base.value.feedback, base.value.upTo);
      if base.value.feedback == feedback {
        OfOne(BaseTrail(log, base), feedback);
      } else {
        OfOther(BaseTrail(log, base), feedback);
      }
    }
  }

  // What is shown of a feedback: the first `n` of its reviews, and own ones from further on, in order.
  ghost predicate Shows(shown: seq<Review>, log: seq<Review>, feedback: string, n: nat, picks: seq<nat>) {
    && n <= TRAIL_LIMIT && n <= |Of(log, feedback)| && Rising(picks) && Below(picks, |Of(log, feedback)|)
    && (forall i :: 0 <= i < |picks| ==> picks[i] >= n)
    && Of(shown, feedback) == Of(log, feedback)[..n] + Pick(Of(log, feedback), picks)
  }

  // How many reviews of a feedback the base trail holds: the first ones.
  lemma BaseCount(log: seq<Review>, base: Option<Base>, feedback: string) returns (n: nat)
    requires base.Some? ==> base.value.upTo <= |log|
    ensures n <= TRAIL_LIMIT && n <= |Of(log, feedback)| && Of(BaseTrail(log, base), feedback) == Of(log, feedback)[..n]
    ensures n == if base.Some? && base.value.feedback == feedback then |BaseTrail(log, base)| else 0
  {
    BaseShape(log, base, feedback);
    n := |Of(BaseTrail(log, base), feedback)|;
  }

  lemma ExtraBeyond(log: seq<Review>, base: Option<Base>, extra: seq<nat>, own: set<nat>, feedback: string, n: nat)
    requires ExtraOk(log, base, extra, own)
    requires n == if base.Some? && base.value.feedback == feedback then |BaseTrail(log, base)| else 0
    ensures forall i :: 0 <= i < |extra| && log[extra[i]].feedback == feedback ==> Index(log, extra[i]) >= n
  {
    forall i | 0 <= i < |extra| && log[extra[i]].feedback == feedback ensures Index(log, extra[i]) >= n {
      assert Beyond(log, base, extra[i]);
    }
  }

  lemma ShownShape(shown: seq<Review>, log: seq<Review>, base: Option<Base>, extra: seq<nat>, own: set<nat>,
                   feedback: string)
    returns (n: nat, picks: seq<nat>)
    requires (base.Some? ==> base.value.upTo <= |log|) && ExtraOk(log, base, extra, own)
            && ShownOk(shown, log, base, extra)
    ensures Shows(shown, log, feedback, n, picks) && Pick(Of(log, feedback), picks) == Of(Pick(log, extra), feedback)
  {
    n := BaseCount(log, base, feedback);
    ExtraBeyond(log, base, extra, own, feedback, n);
    picks := OwnIndices(log, extra, feedback, n, |log|);
    assert log[..|log|] == log;
    OfConcat(BaseTrail(log, base), Pick(log, extra), feedback);
  }

  lemma {:induction false} RisingIsShort(picks: seq<nat>, n: nat, m: nat)
    requires Rising(picks) && Below(picks, m) && n <= m && forall i :: 0 <= i < |picks| ==> picks[i] >= n
    ensures |picks| <= m - n
    ensures |picks| == m - n ==> forall i :: 0 <= i < |picks| ==> picks[i] == n + i
  {
    if picks != [] {
      RisingIsShort(picks[..|picks| - 1], n, picks[|picks| - 1]);
    }
  }

  // It is never more than there are, and all of them when it is as many.
  lemma ShownCounts(shown: seq<Review>, log: seq<Review>, feedback: string, n: nat, picks: seq<nat>)
    requires Shows(shown, log, feedback, n, picks)
    ensures |Of(shown, feedback)| <= |Of(log, feedback)|
    ensures |Of(shown, feedback)| == |Of(log, feedback)| ==> Of(shown, feedback) == Of(log, feedback)
  {
    var reviews := Of(log, feedback);
    RisingIsShort(picks, n, |reviews|);
    if |Of(shown, feedback)| == |reviews| {
      assert Of(shown, feedback) == reviews;
    }
  }

  lemma RowSound(log: seq<Review>, feedback: string, upTo: nat)
    requires upTo <= |log|
    ensures Sound(log, feedback, StateAfter(Of(log[..upTo], feedback)))
  {
    OfGrows(log, feedback, upTo);
  }

  lemma BasisSound(w: World, feedback: string)
    requires Inv(w)
    ensures Sound(w.log, feedback, Basis(w, feedback))
  {
    var n, picks := ShownShape(w.panel.shown, w.log, w.base, w.extra, w.own, feedback);
    ShownCounts(w.panel.shown, w.log, feedback, n, picks);
    if feedback in w.rows {
      RowSound(w.log, feedback, w.rows[feedback]);
    }
  }

  // ---------------------------------------------------------------- steps keep the invariant

  lemma SoundAppend(log: seq<Review>, review: Review, feedback: string, basis: ReviewState)
    requires Sound(log, feedback, basis)
    ensures Sound(log + [review], feedback, basis)
  {
    assert (log + [review])[..|log|] == log;
  }

  lemma BeyondAppend(log: seq<Review>, review: Review, base: Option<Base>, position: nat)
    requires position < |log| && Beyond(log, base, position) && (base.Some? ==> base.value.upTo <= |log|)
    ensures Beyond(log + [review], base, position)
  {
    assert (log + [review])[..position] == log[..position];
    BaseAppend(log, review, base);
  }

  lemma BaseAppend(log: seq<Review>, review: Review, base: Option<Base>)
    requires base.Some? ==> base.value.upTo <= |log|
    ensures BaseTrail(log + [review], base) == BaseTrail(log, base)
  {
    if base.Some? {
      assert (log + [review])[..base.value.upTo] == log[..base.value.upTo];
    }
  }

  lemma CallAppend(log: seq<Review>, review: Review, extra: seq<nat>, own: set<nat>, own': set<nat>, newest: bool,
                   c: Call)
    requires CallOk(log, extra, own, newest, c) && own <= own'
    ensures CallOk(log + [review], extra, own', newest, c)
  {
    if c.Submitting? {
      SoundAppend(log, review, c.feedback, c.basis);
    }
  }

  // Another review in the log changes nothing of what is on screen.
  lemma AppendKeepsInv(w: World, review: Review, own: set<nat>)
    requires Inv(w) && w.own <= own
    ensures Inv(w.(log := w.log + [review], own := own))
  {
    var log' := w.log + [review];
    BaseAppend(w.log, review, w.base);
    forall r | r in w.calls
      ensures 0 < r <= w.panel.requestId && CallOk(log', w.extra, own, r == w.panel.requestId, w.calls[r])
    {
      CallAppend(w.log, review, w.extra, w.own, own, r == w.panel.requestId, w.calls[r]);
    }
    forall i | 0 <= i < |w.extra| ensures w.extra[i] in own && Beyond(log', w.base, w.extra[i]) {
      BeyondAppend(w.log, review, w.base, w.extra[i]);
    }
    assert Pick(log', w.extra) == Pick(w.log, w.extra);
  }

  // A call moves on, and the panel stays.
  lemma CallKeepsInv(w: World, request: nat, c: Call)
    requires Inv(w) && request in w.calls && !c.Loading?
    requires CallOk(w.log, w.extra, w.own, request == w.panel.requestId, c)
    ensures Inv(w.(calls := w.calls[request := c]))
  {
  }

  lemma OpenKeepsInv(w: World, feedback: string)
    requires Inv(w)
    ensures Inv(Opened(w, feedback))
  {
    var w' := Opened(w, feedback);
    forall r | r in w'.calls
      ensures 0 < r <= w'.panel.requestId && CallOk(w'.log, w'.extra, w'.own, r == w'.panel.requestId, w'.calls[r])
    {
      if r != w'.panel.requestId {
        assert CallOk(w.log, w.extra, w.own, r == w.panel.requestId, w.calls[r]);
      }
    }
  }

  lemma SubmitKeepsInv(w: World, feedback: string)
    requires Inv(w)
    ensures Inv(Submitted(w, feedback))
  {
    var w' := Submitted(w, feedback);
    BasisSound(w, feedback);
    forall r | r in w'.calls
      ensures 0 < r <= w'.panel.requestId && CallOk(w'.log, w'.extra, w'.own, r == w'.panel.requestId, w'.calls[r])
    {
      if r != w'.panel.requestId {
        assert CallOk(w.log, w.extra, w.own, r == w.panel.requestId, w.calls[r]);
      }
    }
  }

  lemma LoadKeepsInv(w: World, request: nat, upTo: nat)
    requires Inv(w) && Possible(w, ShowLoad(request, upTo))
    ensures Inv(LoadAnswered(w, request, upTo))
  {
    var w' := LoadAnswered(w, request, upTo);
    assert CallOk(w.log, w.extra, w.own, request == w.panel.requestId, w.calls[request]);
    forall r | r in w'.calls
      ensures 0 < r <= w'.panel.requestId && CallOk(w'.log, w'.extra, w'.own, r == w'.panel.requestId, w'.calls[r])
    {
      assert CallOk(w.log, w.extra, w.own, r == w.panel.requestId, w.calls[r]);
    }
  }

  lemma RefreshKeepsInv(w: World, request: nat, upTo: nat)
    requires Inv(w) && Possible(w, ShowRefresh(request, upTo))
    ensures Inv(RefreshShown(w, request, upTo))
  {
    var w' := RefreshShown(w, request, upTo);
    forall r | r in w'.calls
      ensures 0 < r <= w'.panel.requestId && CallOk(w'.log, w'.extra, w'.own, r == w'.panel.requestId, w'.calls[r])
    {
      assert CallOk(w.log, w.extra, w.own, r == w.panel.requestId, w.calls[r]);
    }
  }

  lemma FinishKeepsInv(w: World, request: nat, failure: Option<string>)
    requires Inv(w) && request in w.calls
    ensures Inv(Finished(w, request, failure))
  {
    var w' := Finished(w, request, failure);
    forall r | r in w'.calls
      ensures 0 < r <= w'.panel.requestId && CallOk(w'.log, w'.extra, w'.own, r == w'.panel.requestId, w'.calls[r])
    {
      assert CallOk(w.log, w.extra, w.own, r == w.panel.requestId, w.calls[r]);
    }
  }

  lemma ServeKeepsInv(w: World, request: nat, review: Review)
    requires Inv(w) && Possible(w, Serve(request, review))
    ensures Inv(Served(w, request, review))
  {
    if Accepts(w.log, review.feedback, Sent(w.calls[request].basis)) {
      var appended := w.(log := w.log + [review], own := w.own + {|w.log|});
      AppendKeepsInv(w, review, appended.own);
      CallKeepsInv(appended, request, Accepted(|w.log|));
      assert Served(w, request, review) == appended.(calls := appended.calls[request := Accepted(|w.log|)]);
    } else {
      CallKeepsInv(w, request, Refused(review.feedback));
    }
  }

  lemma InTrailIsShown(shown: seq<Review>, log: seq<Review>, base: Option<Base>, extra: seq<nat>, position: nat)
    requires position < |log| && ShownOk(shown, log, base, extra)
    requires base.Some? && base.value.upTo <= |log| && base.value.feedback == log[position].feedback
    requires Index(log, position) < |BaseTrail(log, base)|
    ensures HasId(shown, log[position].id)
  {
    BaseShape(log, base, log[position].feedback);
    IndexFinds(log, position);
    assert shown[Index(log, position)] == log[position];
  }

  // An own review that is not on screen yet is not in the trail on screen.
  lemma NewIsBeyond(shown: seq<Review>, log: seq<Review>, base: Option<Base>, extra: seq<nat>, position: nat)
    requires position < |log| && ShownOk(shown, log, base, extra) && (base.Some? ==> base.value.upTo <= |log|)
    requires !HasId(shown, log[position].id)
    ensures Beyond(log, base, position)
  {
    if !Beyond(log, base, position) {
      InTrailIsShown(shown, log, base, extra, position);
    }
  }

  lemma AcceptedKeepsInv(w: World, request: nat)
    requires Inv(w) && Possible(w, ShowAccepted(request))
    ensures Inv(AcceptedShown(w, request))
  {
    var position := w.calls[request].position;
    assert CallOk(w.log, w.extra, w.own, request == w.panel.requestId, w.calls[request]);
    var moved := w.(calls := w.calls[request := Ending(None)]);
    CallKeepsInv(w, request, Ending(None));
    if request == w.panel.requestId && !HasId(w.panel.shown, w.log[position].id) {
      NewIsBeyond(w.panel.shown, w.log, w.base, w.extra, position);
      ExtendKeepsInv(moved, request, position);
    }
  }

  lemma ExtendKeepsInv(w: World, request: nat, position: nat)
    requires Inv(w) && request == w.panel.requestId && request in w.calls && w.calls[request] == Ending(None)
    requires position < |w.log| && position in w.own && Below(w.extra, position) && Beyond(w.log, w.base, position)
    ensures Inv(w.(panel := w.panel.(shown := w.panel.shown + [w.log[position]]), extra := w.extra + [position]))
  {
    var w' := w.(panel := w.panel.(shown := w.panel.shown + [w.log[position]]), extra := w.extra + [position]);
    forall r | r in w'.calls
      ensures 0 < r <= w'.panel.requestId && CallOk(w'.log, w'.extra, w'.own, r == w'.panel.requestId, w'.calls[r])
    {
      assert CallOk(w.log, w.extra, w.own, r == w.panel.requestId, w.calls[r]);
    }
    assert Pick(w.log, w'.extra) == Pick(w.log, w.extra) + [w.log[position]];
  }

  lemma NextKeepsInv(w: World, step: Step)
    requires Inv(w)
    ensures Inv(Next(w, step))
  {
    if Possible(w, step) {
      match step
      case Open(f) => OpenKeepsInv(w, f);
      case ShowLoad(r, upTo) => LoadKeepsInv(w, r, upTo);
      case LoseLoad(r, message) => FinishKeepsInv(w, r, Some(message));
      case Submit(f) => SubmitKeepsInv(w, f);
      case Serve(r, review) => ServeKeepsInv(w, r, review);
      case ShowAccepted(r) => AcceptedKeepsInv(w, r);
      case Conflict(r, message) => CallKeepsInv(w, r, Refreshing(w.calls[r].feedback, |w.log|, message));
      case ShowRefresh(r, upTo) => RefreshKeepsInv(w, r, upTo);
      case LoseRefresh(r) => CallKeepsInv(w, r, Ending(Some(w.calls[r].message)));
      case LoseSubmit(r, message) => CallKeepsInv(w, r, Ending(Some(message)));
      case End(r) => FinishKeepsInv(w, r, w.calls[r].failure);
      case ShowRow(f, upTo) =>
      case DropRow(f) =>
      case Other(review) => AppendKeepsInv(w, review, w.own);
    }
  }

  lemma {:induction false} RunKeepsInv(steps: seq<Step>)
    ensures Inv(Run(steps))
  {
    if steps != [] {
      RunKeepsInv(steps[..|steps| - 1]);
      NextKeepsInv(Run(steps[..|steps| - 1]), steps[|steps| - 1]);
    }
  }

  // ---------------------------------------------------------------- theorems

  /** In every run, what is shown of a feedback is a prefix of its reviews, cut at the limit, followed by
      reviews this console recorded, in the order of the log. */
  lemma ShownIsPrefixThenOwn(steps: seq<Step>, feedback: string) returns (n: nat, picks: seq<nat>)
    ensures Shows(Run(steps).panel.shown, Run(steps).log, feedback, n, picks)
    ensures forall i :: 0 <= i < |picks| ==> Own(Run(steps), Of(Run(steps).log, feedback)[picks[i]])
  {
    var w := Run(steps);
    RunKeepsInv(steps);
    n, picks := ShownShape(w.panel.shown, w.log, w.base, w.extra, w.own, feedback);
    forall i | 0 <= i < |picks| ensures Own(w, Of(w.log, feedback)[picks[i]]) {
      assert Pick(Of(w.log, feedback), picks)[i] == Of(w.log, feedback)[picks[i]];
      var k := OfMember(Pick(w.log, w.extra), feedback, i);
      assert w.extra[k] in w.own && w.log[w.extra[k]] == Of(w.log, feedback)[picks[i]];
    }
  }

  lemma {:induction false} OfMember(reviews: seq<Review>, feedback: string, i: nat) returns (k: nat)
    requires i < |Of(reviews, feedback)|
    ensures k < |reviews| && reviews[k] == Of(reviews, feedback)[i]
  {
    var n := |reviews| - 1;
    if i < |Of(reviews[..n], feedback)| {
      k := OfMember(reviews[..n], feedback, i);
    } else {
      k := n;
    }
  }

  // A review this console recorded.
  ghost predicate Own(w: World, review: Review) {
    exists position :: position in w.own && position < |w.log| && w.log[position] == review
  }

  lemma SoundAccepted(log: seq<Review>, feedback: string, basis: ReviewState)
    requires Sound(log, feedback, basis)
    ensures Accepts(log, feedback, Sent(basis)) <==> basis.count == |Of(log, feedback)|
    ensures Accepts(log, feedback, Sent(basis)) <==> basis == StateAfter(Of(log, feedback))
  {
    CurrentIsStateAfter(log, feedback);
    SentMatches(StateAfter(Of(log, feedback)), basis);
  }

  /** No update is lost in any run: a submission on its way, whatever was on screen when it was sent and
      whatever has happened since, is accepted exactly when the console had counted all the reviews there
      are by now, and then what it was sent against is the state they have left. */
  lemma AcceptedIffAllSeen(steps: seq<Step>, request: nat)
    requires request in Run(steps).calls && Run(steps).calls[request].Submitting?
    ensures var w, c := Run(steps), Run(steps).calls[request];
            && (Accepts(w.log, c.feedback, Sent(c.basis)) <==> c.basis.count == |Of(w.log, c.feedback)|)
            && (Accepts(w.log, c.feedback, Sent(c.basis)) <==> c.basis == StateAfter(Of(w.log, c.feedback)))
  {
    var w := Run(steps);
    RunKeepsInv(steps);
    assert CallOk(w.log, w.extra, w.own, request == w.panel.requestId, w.calls[request]);
    SoundAccepted(w.log, w.calls[request].feedback, w.calls[request].basis);
  }

  // What a submission for a feedback would count now: the row, if it counts as many as are visible.
  lemma BasisCounts(w: World, feedback: string)
    ensures var visible, row := |Of(w.panel.shown, feedback)|, RowOf(w, feedback);
            Basis(w, feedback).count == if row.Some? && row.value.count >= visible then row.value.count else visible
  {
  }

  /** A conflict can be resolved, and when: a submission that is sent and served at this moment is accepted
      exactly when all the reviews there are of the feedback are on screen, or its queue row counts them all. */
  lemma AcceptedNowIff(steps: seq<Step>, feedback: string)
    ensures var w := Run(steps);
            Accepts(w.log, feedback, Sent(Basis(w, feedback))) <==>
              || |Of(w.panel.shown, feedback)| == |Of(w.log, feedback)|
              || (RowOf(w, feedback).Some? && RowOf(w, feedback).value.count == |Of(w.log, feedback)|)
  {
    var w := Run(steps);
    RunKeepsInv(steps);
    BasisSound(w, feedback);
    SoundAccepted(w.log, feedback, Basis(w, feedback));
    BasisCounts(w, feedback);
    var n, picks := ShownShape(w.panel.shown, w.log, w.base, w.extra, w.own, feedback);
    ShownCounts(w.panel.shown, w.log, feedback, n, picks);
  }

  /** `loading` shows exactly while the newest load or submission has not come to its end. */
  lemma LoadingIff(steps: seq<Step>)
    ensures Run(steps).panel.loadingId.Some? <==> Run(steps).panel.requestId in Run(steps).calls
  {
    RunKeepsInv(steps);
  }

  // The feedback a call is about.
  function About(w: World, c: Call): Option<string> {
    match c
    case Loading(f, _) => Some(f)
    case Submitting(f, _) => Some(f)
    case Accepted(position) => if position < |w.log| then Some(w.log[position].feedback) else None
    case Refused(f) => Some(f)
    case Refreshing(f, _, _) => Some(f)
    case Ending(_) => None
  }

  // While the newest request is on its way its feedback is shown as loading, and no error is shown.
  predicate BusyOk(w: World) {
    w.panel.requestId in w.calls ==>
      && w.panel.error == None && w.panel.loadingId.Some?
      && (About(w, w.calls[w.panel.requestId]).Some? ==> w.panel.loadingId == About(w, w.calls[w.panel.requestId]))
  }

  lemma ServeKeepsBusy(w: World, request: nat, review: Review)
    requires Inv(w) && BusyOk(w) && Possible(w, Serve(request, review))
    ensures BusyOk(Served(w, request, review))
  {
    var newest := w.panel.requestId;
    assert newest in w.calls ==> CallOk(w.log, w.extra, w.own, true, w.calls[newest]);
    assert forall i :: 0 <= i < |w.log| ==> (w.log + [review])[i] == w.log[i];
    assert (w.log + [review])[|w.log|] == review;
  }

  lemma AppendKeepsBusy(w: World, review: Review)
    requires Inv(w) && BusyOk(w)
    ensures BusyOk(w.(log := w.log + [review]))
  {
    var newest := w.panel.requestId;
    assert newest in w.calls ==> CallOk(w.log, w.extra, w.own, true, w.calls[newest]);
    assert forall i :: 0 <= i < |w.log| ==> (w.log + [review])[i] == w.log[i];
  }

  lemma BeginKeepsBusy(w: World, feedback: string)
    requires Inv(w)
    ensures BusyOk(Opened(w, feedback)) && BusyOk(Submitted(w, feedback))
  {
  }

  lemma ShowKeepsBusy(w: World, step: Step)
    requires BusyOk(w) && Possible(w, step) && (step.ShowLoad? || step.ShowAccepted? || step.ShowRefresh?)
    ensures BusyOk(Next(w, step))
  {
  }

  lemma NextKeepsBusy(w: World, step: Step)
    requires Inv(w) && BusyOk(w)
    ensures BusyOk(Next(w, step))
  {
    if Possible(w, step) {
      match step
      case Open(f) => BeginKeepsBusy(w, f);
      case Submit(f) => BeginKeepsBusy(w, f);
      case Serve(r, review) => ServeKeepsBusy(w, r, review);
      case Other(review) => AppendKeepsBusy(w, review);
      case ShowLoad(_, _) => ShowKeepsBusy(w, step);
      case ShowAccepted(_) => ShowKeepsBusy(w, step);
      case ShowRefresh(_, _) => ShowKeepsBusy(w, step);
      case _ =>
    }
  }

  /** In every run the newest request, while it is on its way, shows its own feedback as loading, and no
      error: an error is shown only once the newest request has come to its end. */
  lemma {:induction false} BusyShowsTheNewest(steps: seq<Step>)
    ensures BusyOk(Run(steps))
  {
    if steps != [] {
      BusyShowsTheNewest(steps[..|steps| - 1]);
      RunKeepsInv(steps[..|steps| - 1]);
      NextKeepsBusy(Run(steps[..|steps| - 1]), steps[|steps| - 1]);
    }
  }

  /** Latest wins among loads: the trail on screen is of the feedback the newest load was for, or of one
      whose refresh was shown since; with no refresh since, it is at least as new as that load. */
  lemma LatestLoadWins(steps: seq<Step>)
    requires Run(steps).base.Some?
    ensures var w, shownFor := Run(steps), Run(steps).base.value.feedback;
            && (shownFor in w.refreshed || (w.lastOpen.Some? && shownFor == w.lastOpen.value.feedback))
            && (w.refreshed == {} ==> w.lastOpen.Some? && w.lastOpen.value.upTo <= w.base.value.upTo <= |w.log|)
  {
    RunKeepsInv(steps);
  }

  // ---------------------------------------------------------------- when another trail can come on screen

  // Of another feedback than the one opened last.
  predicate Another(w: World, feedback: string) {
    w.lastOpen.None? || feedback != w.lastOpen.value.feedback
  }

  // The trail on screen is of another feedback than the one opened last.
  predicate Astray(w: World) {
    w.base.Some? && Another(w, w.base.value.feedback)
  }

  // A submission for another feedback that may still be refused, or was and is yet to refresh the trail.
  predicate MayRefresh(w: World, c: Call) {
    match c
    case Submitting(f, _) => Another(w, f)
    case Refused(f) => Another(w, f)
    case Refreshing(f, _, _) => Another(w, f)
    case _ => false
  }

  ghost predicate RefreshDue(w: World) {
    exists r :: r in w.calls && MayRefresh(w, w.calls[r])
  }

  // Neither opens a feedback nor submits a review.
  predicate Waiting(steps: seq<Step>) {
    forall i :: 0 <= i < |steps| ==> !steps[i].Open? && !steps[i].Submit?
  }

  lemma CallsStayHarmless(w: World, w': World)
    requires !RefreshDue(w) && w'.lastOpen == w.lastOpen
    requires forall r :: r in w'.calls ==> (r in w.calls && w'.calls[r] == w.calls[r]) || !MayRefresh(w', w'.calls[r])
    ensures !RefreshDue(w')
  {
    forall r | r in w'.calls ensures !MayRefresh(w', w'.calls[r]) {
      if r in w.calls && w'.calls[r] == w.calls[r] {
        assert !MayRefresh(w, w.calls[r]);
      }
    }
  }

  // Only a load or a refresh puts a trail on screen.
  lemma TrailStays(w: World, step: Step)
    requires Inv(w) && !Astray(w) && !RefreshDue(w) && !step.Open? && !step.Submit?
    ensures !Astray(Next(w, step)) && Next(w, step).lastOpen == w.lastOpen
  {
    if Possible(w, step) && step.ShowRefresh? {
      assert !MayRefresh(w, w.calls[step.request]);
    }
  }

  lemma CallsStay(w: World, step: Step)
    requires !RefreshDue(w) && !step.Open? && !step.Submit?
    ensures !RefreshDue(Next(w, step))
  {
    if Possible(w, step) {
      match step
      case Serve(r, review) => assert !MayRefresh(w, w.calls[r]);
      case Conflict(r, _) => assert !MayRefresh(w, w.calls[r]);
      case _ =>
    }
    CallsStayHarmless(w, Next(w, step));
  }

  lemma StepStaysOnTrail(w: World, step: Step)
    requires Inv(w) && !Astray(w) && !RefreshDue(w) && !step.Open? && !step.Submit?
    ensures !Astray(Next(w, step)) && !RefreshDue(Next(w, step)) && Next(w, step).lastOpen == w.lastOpen
  {
    TrailStays(w, step);
    CallsStay(w, step);
  }

  lemma {:induction false} StaysOnTrail(steps: seq<Step>, more: seq<Step>)
    requires !Astray(Run(steps)) && !RefreshDue(Run(steps)) && Waiting(more)
    ensures !Astray(Run(steps + more)) && !RefreshDue(Run(steps + more))
  {
    if more == [] {
      assert steps + more == steps;
    } else {
      var init, last := more[..|more| - 1], more[|more| - 1];
      StaysOnTrail(steps, init);
      RunKeepsInv(steps + init);
      RunNext(steps + init, last);
      assert steps + init + [last] == steps + more;
      StepStaysOnTrail(Run(steps + init), last);
    }
  }

  lemma WaitingMore(step: Step, more: seq<Step>)
    requires !step.Open? && !step.Submit? && Waiting(more)
    ensures Waiting([step] + more)
  {
    var all := [step] + more;
    forall i | 0 <= i < |all| ensures !all[i].Open? && !all[i].Submit? {
      assert all[i] == if i == 0 then step else more[i - 1];
    }
  }

  // One more step before a continuation.
  lemma StepThen(steps: seq<Step>, step: Step, more: seq<Step>)
    requires !step.Open? && !step.Submit? && Waiting(more)
    ensures Waiting([step] + more) && steps + ([step] + more) == steps + [step] + more
    ensures Run(steps + [step]) == Next(Run(steps), step)
  {
    WaitingMore(step, more);
    RunNext(steps, step);
    assert steps + ([step] + more) == steps + [step] + more;
  }

  lemma RefreshStrays(steps: seq<Step>, r: nat) returns (more: seq<Step>)
    requires r in Run(steps).calls && Run(steps).calls[r].Refreshing? && MayRefresh(Run(steps), Run(steps).calls[r])
    ensures Waiting(more) && Astray(Run(steps + more))
  {
    RunKeepsInv(steps);
    var w := Run(steps);
    assert CallOk(w.log, w.extra, w.own, r == w.panel.requestId, w.calls[r]);
    more := [ShowRefresh(r, |w.log|)];
    RunNext(steps, more[0]);
  }

  lemma RefusalStrays(steps: seq<Step>, r: nat) returns (more: seq<Step>)
    requires r in Run(steps).calls && Run(steps).calls[r].Refused? && MayRefresh(Run(steps), Run(steps).calls[r])
    ensures Waiting(more) && Astray(Run(steps + more))
  {
    RunNext(steps, Conflict(r, ""));
    var rest := RefreshStrays(steps + [Conflict(r, "")], r);
    StepThen(steps, Conflict(r, ""), rest);
    more := [Conflict(r, "")] + rest;
  }

  // A submission that somebody else's review overtakes is refused.
  lemma OvertakenIsRefused(w: World, r: nat, x: Review)
    requires Inv(w) && r in w.calls && w.calls[r].Submitting? && x.feedback == w.calls[r].feedback
    ensures var w' := Next(w, Other(x)); Next(w', Serve(r, x)) == w'.(calls := w'.calls[r := Refused(x.feedback)])
  {
    var basis := w.calls[r].basis;
    assert CallOk(w.log, w.extra, w.own, r == w.panel.requestId, w.calls[r]);
    SoundAppend(w.log, x, x.feedback, basis);
    SoundAccepted(w.log + [x], x.feedback, basis);
    assert (w.log + [x])[..|w.log|] == w.log;
  }

  lemma SubmissionStrays(steps: seq<Step>, r: nat) returns (more: seq<Step>)
    requires r in Run(steps).calls && Run(steps).calls[r].Submitting? && MayRefresh(Run(steps), Run(steps).calls[r])
    ensures Waiting(more) && Astray(Run(steps + more))
  {
    var w := Run(steps);
    var x := Review("", w.calls[r].feedback, "", 0, None);
    RunKeepsInv(steps);
    OvertakenIsRefused(w, r, x);
    RunNext(steps, Other(x));
    RunNext(steps + [Other(x)], Serve(r, x));
    var rest := RefusalStrays(steps + [Other(x)] + [Serve(r, x)], r);
    StepThen(steps + [Other(x)], Serve(r, x), rest);
    StepThen(steps, Other(x), [Serve(r, x)] + rest);
    more := [Other(x)] + ([Serve(r, x)] + rest);
  }

  /** When latest does not win. From any state of any run in which the trail on screen is not already astray,
      another feedback's trail can come on screen, with nothing opened or submitted, exactly when a
      submission for another feedback has not been answered, or was refused and has not refreshed. */
  lemma CanStrayIff(steps: seq<Step>)
    requires !Astray(Run(steps))
    ensures (exists more :: Waiting(more) && Astray(Run(steps + more))) <==> RefreshDue(Run(steps))
  {
    var w := Run(steps);
    if RefreshDue(w) {
      var r :| r in w.calls && MayRefresh(w, w.calls[r]);
      var more;
      match w.calls[r] {
        case Submitting(_, _) => more := SubmissionStrays(steps, r);
        case Refused(_) => more := RefusalStrays(steps, r);
        case Refreshing(_, _, _) => more := RefreshStrays(steps, r);
      }
    } else {
      forall more | Waiting(more) ensures !Astray(Run(steps + more)) {
        StaysOnTrail(steps, more);
      }
    }
  }

  lemma RunNext(steps: seq<Step>, step: Step)
    ensures Run(steps + [step]) == Next(Run(steps), step)
  {
    assert (steps + [step])[..|steps|] == steps;
  }

  lemma OfSingle(x: Review, feedback: string)
    ensures Of([x], feedback) == if x.feedback == feedback then [x] else []
    ensures Of([], feedback) == []
  {
    assert [x][..0] == [];
  }

  // A submission for `f` is refused because of a review by someone else.
  lemma ReachRefused(f: string, x: Review) returns (steps: seq<Step>)
    requires x.feedback == f
    ensures Run(steps) == START.(panel := Panel(1, Some(f), [], None), log := [x], calls := map[1 := Refused(f)])
  {
    var unseen := ReviewState("unreviewed", 0, None, None, None);
    OfSingle(x, f);
    steps := [];
    RunNext(steps, Submit(f));
    steps := steps + [Submit(f)];
    assert Run(steps) == START.(panel := Panel(1, Some(f), [], None), calls := map[1 := Submitting(f, unseen)]);
    RunNext(steps, Other(x));
    steps := steps + [Other(x)];
    RunNext(steps, Serve(1, x));
    steps := steps + [Serve(1, x)];
    CurrentIsStateAfter([x], f);
    SentMatches(StateAfter([x]), unseen);
  }

  /** A refresh is not gated by the request number: it can put the trail of one feedback on screen after
      another has been opened and loaded. */
  lemma RefreshCanShowAnother(f: string, g: string, message: string, x: Review) returns (steps: seq<Step>)
    requires f != g && x.feedback == f
    ensures Run(steps).lastOpen == Some(Base(g, 1)) && Run(steps).panel.shown == [x]
            && Run(steps).panel.loadingId == None
    ensures Astray(Run(steps))
  {
    OfSingle(x, f);
    OfSingle(x, g);
    assert [x][..1] == [x];
    steps := ReachRefused(f, x);
    RunNext(steps, Open(g));
    steps := steps + [Open(g)];
    RunNext(steps, ShowLoad(2, 1));
    steps := steps + [ShowLoad(2, 1)];
    RunNext(steps, Conflict(1, message));
    steps := steps + [Conflict(1, message)];
    RunNext(steps, ShowRefresh(1, 1));
    steps := steps + [ShowRefresh(1, 1)];
  }
}
