/** Feedback reviews: the server's compare-and-append, and the console fingerprint it compares with. */
module FeedbackReview {
  import opened Wrappers

  datatype Review = Review(id: string, feedback: string, status: string, at: int, assignee: Option<string>)

  datatype ReviewState = ReviewState(
    status: string,
    count: nat,
    latestId: Option<string>,
    latestAt: Option<int>,
    assignee: Option<string>)

  // The reviews of one feedback, oldest first.
  function Of(log: seq<Review>, feedback: string): seq<Review> {
    if log == [] then []
    else
      var rest := Of(log[..|log| - 1], feedback);
      if log[|log| - 1].feedback == feedback then rest + [log[|log| - 1]] else rest
  }

  // The state a sequence of reviews leaves a feedback in.
  function StateAfter(reviews: seq<Review>): ReviewState {
    if reviews == [] then ReviewState("unreviewed", 0, None, None, None)
    else
      var latest := reviews[|reviews| - 1];
      ReviewState(latest.status, |reviews|, Some(latest.id), Some(latest.at), latest.assignee)
  }

  // ---------------------------------------------------------------- the server

  datatype Field<+T> = Absent | Given(value: T)

  // What a request says it expects: only the fields it carries are compared.
  datatype Expected = Expected(
    status: Field<Option<string>>,
    count: Field<Option<nat>>,
    latestId: Field<Option<string>>,
    latestAt: Field<Option<int>>,
    assignee: Field<Option<string>>)

  predicate Agrees<T(==)>(field: Field<T>, current: T) {
    field == Absent || field == Given(current)
  }

  predicate Matches(current: ReviewState, e: Expected) {
    && Agrees(e.status, Some(current.status)) && Agrees(e.count, Some(current.count))
    && Agrees(e.latestId, current.latestId) && Agrees(e.latestAt, current.latestAt)
       && Agrees(e.assignee, current.assignee)
  }

  // The names of the fields that differ, in the order they are compared.
  method Mismatches(current: ReviewState, expected: Option<Expected>) returns (names: seq<string>)
    ensures names == [] <==> expected == None || Matches(current, expected.value)
    ensures expected.Some? ==>
              && ("current_status" in names <==> !Agrees(expected.value.status, Some(current.status)))
              && ("review_count" in names <==> !Agrees(expected.value.count, Some(current.count)))
              && ("latest_review_id" in names <==> !Agrees(expected.value.latestId, current.latestId))
              && ("latest_review_at" in names <==> !Agrees(expected.value.latestAt, current.latestAt))
              && ("assignee_user_id" in names <==> !Agrees(expected.value.assignee, current.assignee))
  {
    names := [];
    if expected == None {
      return;
    }
    var e := expected.value;
    if e.status.Given? && e.status.value != Some(current.status) {
      names := names + ["current_status"];
    }
    if e.count.Given? && e.count.value != Some(current.count) {
      names := names + ["review_count"];
    }
    if e.latestId.Given? && e.latestId.value != current.latestId {
      names := names + ["latest_review_id"];
    }
    if e.latestAt.Given? && e.latestAt.value != current.latestAt {
      names := names + ["latest_review_at"];
    }
    if e.assignee.Given? && e.assignee.value != current.assignee {
      names := names + ["assignee_user_id"];
    }
  }

  // The state is read with two queries: the newest review, and a count.
  function Newest(log: seq<Review>, feedback: string): Option<Review> {
    if log == [] then None
    else if log[|log| - 1].feedback == feedback then Some(log[|log| - 1])
    else Newest(log[..|log| - 1], feedback)
  }

  function Count(log: seq<Review>, feedback: string): nat {
    if log == [] then 0
    else Count(log[..|log| - 1], feedback) + if log[|log| - 1].feedback == feedback then 1 else 0
  }

  function CurrentReviewState(log: seq<Review>, feedback: string): ReviewState {
    var latest := Newest(log, feedback);
    if latest == None then ReviewState("unreviewed", Count(log, feedback), None, None, None)
    else ReviewState(latest.value.status, Count(log, feedback), Some(latest.value.id), Some(latest.value.at),
                     latest.value.assignee)
  }

  lemma {:induction false} CurrentIsStateAfter(log: seq<Review>, feedback: string)
    ensures CurrentReviewState(log, feedback) == StateAfter(Of(log, feedback))
  {
    if log != [] {
      CurrentIsStateAfter(log[..|log| - 1], feedback);
    }
  }

  // The places of one feedback's reviews in the log.
  function Places(log: seq<Review>, feedback: string): set<nat> {
    set i: nat | i < |log| && log[i].feedback == feedback
  }

  lemma PlacesAppend(log: seq<Review>, feedback: string)
    requires log != []
    ensures Places(log, feedback)
         == Places(log[..|log| - 1], feedback)
            + if log[|log| - 1].feedback == feedback then {(|log| - 1) as nat} else {}
  {
  }

  /** The current state of a feedback: that of its newest review in the log, with the number of all of them. */
  lemma {:induction false} CurrentStateIs(log: seq<Review>, feedback: string)
    ensures var places, state := Places(log, feedback), CurrentReviewState(log, feedback);
            && state.count == |places|
            && (places == {} ==> state == ReviewState("unreviewed", 0, None, None, None))
            && forall last :: last in places && (forall i :: i in places ==> i <= last) ==>
                 state == ReviewState(log[last].status, |places|, Some(log[last].id), Some(log[last].at),
                                      log[last].assignee)
  {
    if log != [] {
      CurrentStateIs(log[..|log| - 1], feedback);
      PlacesAppend(log, feedback);
    }
  }

  // One review request, served as one step.
  predicate Accepts(log: seq<Review>, feedback: string, expected: Option<Expected>) {
    expected == None || Matches(CurrentReviewState(log, feedback), expected.value)
  }

  // ---------------------------------------------------------------- the console

  const TRAIL_LIMIT := 50

  // The review trail the console loads: the oldest reviews up to the limit.
  function Trail(reviews: seq<Review>): (trail: seq<Review>)
    ensures trail <= reviews && |trail| == if |reviews| <= TRAIL_LIMIT then |reviews| else TRAIL_LIMIT
  {
    if |reviews| <= TRAIL_LIMIT then reviews else reviews[..TRAIL_LIMIT]
  }

  // The fingerprint of what is on screen: the queue row when it counts at least the visible reviews.
  function Fingerprint(feedback: string, shown: seq<Review>, row: Option<ReviewState>): ReviewState {
    var visible := Of(shown, feedback);
    if row.Some? && row.value.count >= |visible| then row.value else StateAfter(visible)
  }

  // The gateway forwards all five fields.
  function Sent(state: ReviewState): Option<Expected> {
    Some(Expected(Given(Some(state.status)), Given(Some(state.count)), Given(state.latestId), Given(state.latestAt),
                  Given(state.assignee)))
  }

  predicate HasId(reviews: seq<Review>, id: string) {
    exists i :: 0 <= i < |reviews| && reviews[i].id == id
  }

  // ---------------------------------------------------------------- what a fingerprint stands for

  lemma {:induction false} OfOne(reviews: seq<Review>, feedback: string)
    requires forall i :: 0 <= i < |reviews| ==> reviews[i].feedback == feedback
    ensures Of(reviews, feedback) == reviews
  {
    if reviews != [] {
      OfOne(reviews[..|reviews| - 1], feedback);
    }
  }

  lemma {:induction false} OfIsOne(log: seq<Review>, feedback: string)
    ensures forall i :: 0 <= i < |Of(log, feedback)| ==> Of(log, feedback)[i].feedback == feedback
  {
    if log != [] {
      OfIsOne(log[..|log| - 1], feedback);
    }
  }

  // A longer log only appends reviews.
  lemma {:induction false} OfGrows(log: seq<Review>, feedback: string, k: nat)
    requires k <= |log|
    ensures Of(log[..k], feedback) <= Of(log, feedback)
  {
    if k == |log| {
      assert log[..k] == log;
    } else {
      OfGrows(log[..|log| - 1], feedback, k);
      assert log[..|log| - 1][..k] == log[..k];
    }
  }

  // How many reviews the fingerprint stands for, when the trail was loaded after `t` reviews and the row,
  // if any, after `q`.
  function Seen(t: nat, q: Option<nat>): nat {
    var visible := if t <= TRAIL_LIMIT then t else TRAIL_LIMIT;
    if q.Some? && q.value >= visible then q.value else visible
  }

  function Row(reviews: seq<Review>, q: Option<nat>): Option<ReviewState>
    requires q.Some? ==> q.value <= |reviews|
  {
    if q.Some? then Some(StateAfter(reviews[..q.value])) else None
  }

  lemma VisibleTrail(reviews: seq<Review>, feedback: string, t: nat)
    requires forall i :: 0 <= i < |reviews| ==> reviews[i].feedback == feedback
    requires t <= |reviews|
    ensures Seen(t, None) <= |reviews| && Of(Trail(reviews[..t]), feedback) == reviews[..Seen(t, None)]
  {
    var trail := Trail(reviews[..t]);
    assert trail == reviews[..Seen(t, None)];
    OfOne(trail, feedback);
  }

  lemma StateCounts(reviews: seq<Review>)
    ensures StateAfter(reviews).count == |reviews|
  {
  }

  lemma FingerprintIsPrefixState(reviews: seq<Review>, feedback: string, t: nat, q: Option<nat>)
    requires forall i :: 0 <= i < |reviews| ==> reviews[i].feedback == feedback
    requires t <= |reviews| && (q.Some? ==> q.value <= |reviews|)
    ensures Seen(t, q) <= |reviews|
    ensures Fingerprint(feedback, Trail(reviews[..t]), Row(reviews, q)) == StateAfter(reviews[..Seen(t, q)])
  {
    VisibleTrail(reviews, feedback, t);
    if q.Some? {
      StateCounts(reviews[..q.value]);
    }
  }

  // Different numbers of reviews are different states.
  lemma StateTellsCount(reviews: seq<Review>, m: nat, n: nat)
    requires m <= |reviews| && n <= |reviews|
    ensures StateAfter(reviews[..m]) == StateAfter(reviews[..n]) <==> m == n
  {
    assert StateAfter(reviews[..m]).count == m && StateAfter(reviews[..n]).count == n;
  }

  /** The fingerprint is the state of the longer of the two prefixes the console has seen, except when
      only the trail has seen them all and it was cut at its limit. */
  lemma FingerprintIsLongerPrefix(reviews: seq<Review>, feedback: string, t: nat, q: Option<nat>)
    requires forall i :: 0 <= i < |reviews| ==> reviews[i].feedback == feedback
    requires t <= |reviews| && (q.Some? ==> q.value <= |reviews|)
    ensures var longer := if q.Some? && q.value >= t then q.value else t;
            Fingerprint(feedback, Trail(reviews[..t]), Row(reviews, q)) == StateAfter(reviews[..longer])
            <==> t <= TRAIL_LIMIT || (q.Some? && q.value >= t)
  {
    FingerprintIsPrefixState(reviews, feedback, t, q);
    var longer := if q.Some? && q.value >= t then q.value else t;
    StateTellsCount(reviews, Seen(t, q), longer);
  }

  lemma SentMatches(current: ReviewState, state: ReviewState)
    ensures Matches(current, Sent(state).value) <==> current == state
  {
  }

  /** No update is lost: a review sent from the console is accepted exactly when nobody has appended since
      the reviews it was shown. */
  lemma AcceptedIffNobodyAppended(log: seq<Review>, feedback: string, t: nat, q: Option<nat>)
    requires t <= |Of(log, feedback)| && (q.Some? ==> q.value <= |Of(log, feedback)|)
    ensures Accepts(log, feedback,
                    Sent(Fingerprint(feedback, Trail(Of(log, feedback)[..t]), Row(Of(log, feedback), q))))
       <==> Seen(t, q) == |Of(log, feedback)|
  {
    var reviews := Of(log, feedback);
    OfIsOne(log, feedback);
    FingerprintIsPrefixState(reviews, feedback, t, q);
    StateTellsCount(reviews, Seen(t, q), |reviews|);
    assert reviews[..|reviews|] == reviews;
    CurrentIsStateAfter(log, feedback);
    SentMatches(StateAfter(reviews), StateAfter(reviews[..Seen(t, q)]));
  }

  /** So a submission is refused though nobody appended when the trail was cut and no queue row counts it
      all: no refresh can help, and the row has to be read again. */
  lemma CutTrailIsRefused(log: seq<Review>, feedback: string, q: Option<nat>)
    requires |Of(log, feedback)| > TRAIL_LIMIT && (q.Some? ==> q.value < |Of(log, feedback)|)
    ensures var reviews := Of(log, feedback);
            !Accepts(log, feedback, Sent(Fingerprint(feedback, Trail(reviews), Row(reviews, q))))
  {
    var reviews := Of(log, feedback);
    assert reviews[..|reviews|] == reviews;
    AcceptedIffNobodyAppended(log, feedback, |reviews|, q);
  }

  // The shortest trail that is cut.
  lemma FiftyOneReviews(x: Review) returns (log: seq<Review>)
    ensures |log| == 51 && Of(log, x.feedback) == log
    ensures forall i, j :: 0 <= i < j < |log| ==> log[i].id != log[j].id
    ensures !Accepts(log, x.feedback, Sent(Fingerprint(x.feedback, Trail(log), None)))
  {
    log := seq(51, i requires 0 <= i < 51 => x.(id := seq(i, _ => 'r')));
    assert forall i :: 0 <= i < 51 ==> |log[i].id| == i;
    OfOne(log, x.feedback);
    CutTrailIsRefused(log, x.feedback, None);
  }

  /** After its own review was recorded, the console's next fingerprint is current exactly when the trail
      was complete; otherwise the older queue row is used and the server refuses it. */
  lemma AfterOwnReview(reviews: seq<Review>, feedback: string, t: nat, q: Option<nat>, own: Review)
    requires forall i :: 0 <= i < |reviews| ==> reviews[i].feedback == feedback
    requires own.feedback == feedback && !HasId(reviews, own.id)
    requires t <= |reviews| && (q.Some? ==> q.value <= |reviews|) && Seen(t, q) == |reviews|
    ensures Fingerprint(feedback, Trail(reviews[..t]) + [own], Row(reviews, q)) == StateAfter(reviews + [own])
       <==> Trail(reviews[..t]) == reviews
  {
    var trail := Trail(reviews[..t]);
    OfOne(trail + [own], feedback);
    if trail != reviews {
      assert |trail| < |reviews|;
      assert Row(reviews, q).value.count == |reviews|;
    }
  }

  // ---------------------------------------------------------------- the chain over a run

  // A recorded review, and the complete state it was sent against, when it was sent from a console.
  datatype Entry = Entry(review: Review, basis: Option<ReviewState>)

  datatype Submission = Submission(review: Review, basis: Option<ReviewState>)

  function Reviews(entries: seq<Entry>): seq<Review> {
    seq(|entries|, i requires 0 <= i < |entries| => entries[i].review)
  }

  function Expectation(basis: Option<ReviewState>): Option<Expected> {
    if basis.Some? then Sent(basis.value) else None
  }

  // Requests are served one at a time; each is recorded or refused.
  function Serve(entries: seq<Entry>, s: Submission): seq<Entry> {
    if Accepts(Reviews(entries), s.review.feedback, Expectation(s.basis)) then entries + [Entry(s.review, s.basis)]
    else entries
  }

  function Run(submissions: seq<Submission>): seq<Entry> {
    if submissions == [] then []
    else Serve(Run(submissions[..|submissions| - 1]), submissions[|submissions| - 1])
  }

  /** A linear chain: every console review was sent against the state all earlier reviews of that feedback
      had left. */
  lemma {:induction false} ChainIsLinear(submissions: seq<Submission>, j: nat)
    requires j < |Run(submissions)| && Run(submissions)[j].basis.Some?
    ensures Run(submissions)[j].basis.value
         == StateAfter(Of(Reviews(Run(submissions))[..j], Run(submissions)[j].review.feedback))
  {
    var before, s := Run(submissions[..|submissions| - 1]), submissions[|submissions| - 1];
    var after := Run(submissions);
    if j < |before| {
      ChainIsLinear(submissions[..|submissions| - 1], j);
      assert Reviews(after)[..j] == Reviews(before)[..j];
    } else {
      assert Reviews(after)[..j] == Reviews(before);
      CurrentIsStateAfter(Reviews(before), s.review.feedback);
      SentMatches(StateAfter(Of(Reviews(before), s.review.feedback)), s.basis.value);
    }
  }

  /** Two console reviews of one feedback never build on the same state. */
  lemma NoTwoFromOneState(submissions: seq<Submission>, i: nat, j: nat)
    requires i < j < |Run(submissions)| && Run(submissions)[i].review.feedback == Run(submissions)[j].review.feedback
    requires Run(submissions)[i].basis.Some? && Run(submissions)[j].basis.Some?
    ensures Run(submissions)[i].basis.value.count < Run(submissions)[j].basis.value.count
  {
    var log := Reviews(Run(submissions));
    var feedback := log[i].feedback;
    ChainIsLinear(submissions, i);
    ChainIsLinear(submissions, j);
    assert log[..i + 1][..i] == log[..i] && log[..j][..i + 1] == log[..i + 1];
    OfGrows(log[..j], feedback, i + 1);
    assert |Of(log[..i + 1], feedback)| == |Of(log[..i], feedback)| + 1;
  }
}
