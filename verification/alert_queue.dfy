/** The console's alert queue: filtering and sorting, the difference between two snapshots, and the
    selection carried from one snapshot to the next. */
module AlertQueue {
  import opened Text
  import opened StableSort
  import opened Wrappers

  datatype Alert = Alert(
    severity: string,
    key: string,
    count: int,
    reason: string,
    lastSeenAt: string,
    sampleEventIds: seq<string>,
    sampleRunIds: seq<string>,
    status: string,
    assignee: Option<string>,
    newSinceTriage: bool)

  datatype SortMode = Severity | Newest | MostFrequent

  // `severity` and `status` are filter values; "all" lets everything through.
  datatype Filters = Filters(query: string, severity: string, status: string, onlyNew: bool, sort: SortMode)

  // The parts of the platform the queue is built on: case folding, timestamp parsing, and the collation
  // of `localeCompare`.
  datatype Platform = Platform(lower: string -> string, parse: string -> int, collate: (string, string) -> int)

  // ---------------------------------------------------------------- filtering

  predicate NeedsAttention(a: Alert) {
    a.status != "silenced" && (a.status != "resolved" || a.newSinceTriage)
  }

  predicate Includes(text: string, query: string) {
    query <= text || (text != "" && Includes(text[1..], query))
  }

  function SearchText(a: Alert): string {
    Join([a.key, a.reason, a.status, if a.assignee.Some? then a.assignee.value else ""] + a.sampleRunIds
        + a.sampleEventIds, ' ')
  }

  predicate SeverityPasses(f: Filters, a: Alert) {
    f.severity == "all" || a.severity == f.severity
  }

  predicate StatusPasses(f: Filters, a: Alert) {
    if f.status == "all" then true
    else if f.status == "active" then NeedsAttention(a)
    else a.status == f.status
  }

  predicate NewPasses(f: Filters, a: Alert) {
    !f.onlyNew || a.newSinceTriage
  }

  // `query` is trimmed and folded already.
  predicate QueryPasses(p: Platform, query: string, a: Alert) {
    query == "" || Includes(p.lower(SearchText(a)), query)
  }

  predicate Passes(p: Platform, f: Filters, a: Alert) {
    SeverityPasses(f, a) && StatusPasses(f, a) && NewPasses(f, a) && QueryPasses(p, p.lower(Trim(JsSpace, f.query)), a)
  }

  // ---------------------------------------------------------------- sorting

  function SeverityRank(severity: string): int {
    if severity == "P0" then 0 else if severity == "P1" then 1 else if severity == "P2" then 2
        else if severity == "P3" then 3 else 9
  }

  // The comparison of the sort call; `||` falls through on zero.
  function Compare(p: Platform, mode: SortMode, a: Alert, b: Alert): int {
    var severity := SeverityRank(a.severity) - SeverityRank(b.severity);
    match mode
    case Newest => p.parse(b.lastSeenAt) - p.parse(a.lastSeenAt)
    case MostFrequent => if b.count != a.count then b.count - a.count else severity
    case Severity =>
      if severity != 0 then severity else if b.count != a.count then b.count - a.count else p.collate(a.key, b.key)
  }

  function Before(p: Platform, mode: SortMode): Order<Alert> {
    (a, b) => Compare(p, mode, a, b) <= 0
  }

  function FilterAndSort(p: Platform, alerts: seq<Alert>, f: Filters): seq<Alert> {
    var query := p.lower(Trim(JsSpace, f.query));
    var severe := Filter(a => SeverityPasses(f, a), alerts);
    var inStatus := Filter(a => StatusPasses(f, a), severe);
    var unseen := Filter(a => NewPasses(f, a), inStatus);
    Sort(Before(p, f.sort), Filter(a => QueryPasses(p, query, a), unseen))
  }

  // A collation orders strings totally, though it may tie different ones.
  ghost predicate Collation(collate: (string, string) -> int) {
    && (forall a, b :: collate(a, b) <= 0 <==> collate(b, a) >= 0)
    && (forall a, b, c :: collate(a, b) <= 0 && collate(b, c) <= 0 ==> collate(a, c) <= 0)
  }

  lemma CompareIsTotalPreorder(p: Platform, mode: SortMode)
    requires Collation(p.collate)
    ensures TotalPreorder(Before(p, mode))
  {
    var le := Before(p, mode);
    forall a, b ensures le(a, b) || le(b, a) {
      assert p.collate(a.key, b.key) <= 0 <==> p.collate(b.key, a.key) >= 0;
    }
    forall a, b, c | le(a, b) && le(b, c) ensures le(a, c) {
      assert p.collate(a.key, b.key) <= 0 && p.collate(b.key, c.key) <= 0 ==> p.collate(a.key, c.key) <= 0;
    }
  }

  lemma {:induction false} FilterTwice<T>(first: T -> bool, second: T -> bool, both: T -> bool, s: seq<T>)
    requires forall x :: both(x) <==> first(x) && second(x)
    ensures Filter(second, Filter(first, s)) == Filter(both, s)
  {
    if s != [] {
      var init, x := s[..|s| - 1], s[|s| - 1];
      FilterTwice(first, second, both, init);
      assert s == init + [x];
      FilterAppend(first, init, x);
      FilterAppend(both, init, x);
      if first(x) {
        FilterAppend(second, Filter(first, init), x);
      } else {
        assert Filter(first, s) == Filter(first, init);
      }
    }
  }

  lemma FourFilters(p: Platform, alerts: seq<Alert>, f: Filters)
    ensures FilterAndSort(p, alerts, f) == Sort(Before(p, f.sort), Filter(a => Passes(p, f, a), alerts))
  {
    var query := p.lower(Trim(JsSpace, f.query));
    var severe, inStatus, unseen, found :=
        a => SeverityPasses(f, a), a => StatusPasses(f, a), a => NewPasses(f, a), a => QueryPasses(p, query, a);
    var two, three := a => SeverityPasses(f, a) && StatusPasses(f, a), a => SeverityPasses(f, a) && StatusPasses(f, a)
        && NewPasses(f, a);
    FilterTwice(severe, inStatus, two, alerts);
    FilterTwice(two, unseen, three, alerts);
    FilterTwice(three, found, a => Passes(p, f, a), alerts);
  }

  /** The queue shown is a sorted permutation of exactly the alerts that pass all four filters. */
  lemma QueueIsSortedSelection(p: Platform, alerts: seq<Alert>, f: Filters)
    requires Collation(p.collate)
    ensures Sorted(Before(p, f.sort), FilterAndSort(p, alerts, f))
    ensures forall a :: multiset(FilterAndSort(p, alerts, f))[a] == if Passes(p, f, a) then multiset(alerts)[a] else 0
  {
    CompareIsTotalPreorder(p, f.sort);
    FourFilters(p, alerts, f);
    SortSorts(Before(p, f.sort), Filter(a => Passes(p, f, a), alerts));
    forall a ensures multiset(FilterAndSort(p, alerts, f))[a] == if Passes(p, f, a) then multiset(alerts)[a] else 0 {
      FilterMultiset(b => Passes(p, f, b), alerts, a);
    }
  }

  // ---------------------------------------------------------------- what passes, and in what order

  predicate StandsAt(text: string, query: string, i: nat) {
    i + |query| <= |text| && text[i..i + |query|] == query
  }

  lemma {:induction false} IncludedStands(text: string, query: string) returns (i: nat)
    requires Includes(text, query)
    ensures StandsAt(text, query, i)
  {
    i := 0;
    if !(query <= text) {
      var k := IncludedStands(text[1..], query);
      i := k + 1;
      assert text[i..i + |query|] == text[1..][k..k + |query|];
    }
  }

  lemma {:induction false} StandingIsIncluded(text: string, query: string, i: nat)
    requires StandsAt(text, query, i)
    ensures Includes(text, query)
  {
    if i == 0 {
      assert text[..|query|] == query;
    } else {
      assert text[1..][i - 1..i - 1 + |query|] == text[i..i + |query|];
      StandingIsIncluded(text[1..], query, i - 1);
    }
  }

  lemma IncludesIff(text: string, query: string)
    ensures Includes(text, query) <==> exists i :: StandsAt(text, query, i)
  {
    if Includes(text, query) {
      var i := IncludedStands(text, query);
    }
    if i: nat :| StandsAt(text, query, i) {
      StandingIsIncluded(text, query, i);
    }
  }

  // Each with a blank before it.
  function Spaced(parts: seq<string>): string {
    if parts == [] then "" else [' '] + parts[0] + Spaced(parts[1..])
  }

  lemma {:induction false} JoinIsSpaced(first: string, rest: seq<string>)
    ensures Join([first] + rest, ' ') == first + Spaced(rest)
    decreases |rest|
  {
    if rest != [] {
      assert ([first] + rest)[1..] == rest == [rest[0]] + rest[1..];
      JoinIsSpaced(rest[0], rest[1..]);
    }
  }

  lemma {:induction false} SpacedConcat(a: seq<string>, b: seq<string>)
    ensures Spaced(a + b) == Spaced(a) + Spaced(b)
  {
    if a == [] {
      assert a + b == b;
    } else {
      assert (a + b)[1..] == a[1..] + b;
      SpacedConcat(a[1..], b);
    }
  }

  lemma SpacedThree(x: string, y: string, z: string)
    ensures Spaced([x, y, z]) == [' '] + x + [' '] + y + [' '] + z
  {
    assert [x, y, z][1..] == [y, z] && [y, z][1..] == [z] && [z][1..] == [];
    assert Spaced([z]) == [' '] + z;
    assert Spaced([y, z]) == [' '] + y + Spaced([z]);
  }

  // The text that is searched: every identifying text of the alert, and all its samples.
  lemma SearchTextIs(a: Alert)
    ensures SearchText(a)
         == a.key + ([' '] + a.reason + [' '] + a.status + [' ']
             + (if a.assignee == None then "" else a.assignee.value))
            + Spaced(a.sampleRunIds) + Spaced(a.sampleEventIds)
  {
    var assignee := if a.assignee.Some? then a.assignee.value else "";
    var head := [a.reason, a.status, assignee];
    assert [a.key, a.reason, a.status, assignee] + a.sampleRunIds + a.sampleEventIds
        == [a.key] + (head + a.sampleRunIds + a.sampleEventIds);
    JoinIsSpaced(a.key, head + a.sampleRunIds + a.sampleEventIds);
    SpacedConcat(head + a.sampleRunIds, a.sampleEventIds);
    SpacedConcat(head, a.sampleRunIds);
    SpacedThree(a.reason, a.status, assignee);
  }

  /** An alert passes exactly when each filter that is set admits it, in the alert's own fields. */
  lemma PassesIff(p: Platform, f: Filters, a: Alert)
    ensures var query, text := p.lower(Trim(JsSpace, f.query)), p.lower(SearchText(a));
            Passes(p, f, a) <==>
              && (f.severity != "all" ==> a.severity == f.severity)
              && (f.status == "active" ==> a.status != "silenced" && (a.status == "resolved" ==> a.newSinceTriage))
              && (f.status != "all" && f.status != "active" ==> a.status == f.status)
              && (f.onlyNew ==> a.newSinceTriage)
              && (query != "" ==> exists i :: StandsAt(text, query, i))
  {
    IncludesIff(p.lower(SearchText(a)), p.lower(Trim(JsSpace, f.query)));
  }

  // The known severities, worst first; every other one ranks behind them.
  const WORST_FIRST := ["P0", "P1", "P2", "P3"]

  // At every cut through that list, whatever is on its worse side stays there.
  predicate NoWorse(severity: string, worse: string) {
    forall k :: 0 <= k <= |WORST_FIRST| && severity in WORST_FIRST[..k] ==> worse in WORST_FIRST[..k]
  }

  lemma RankIsPlace(severity: string)
    ensures severity in WORST_FIRST[..0] <==> SeverityRank(severity) < 0
    ensures severity in WORST_FIRST[..1] <==> SeverityRank(severity) < 1
    ensures severity in WORST_FIRST[..2] <==> SeverityRank(severity) < 2
    ensures severity in WORST_FIRST[..3] <==> SeverityRank(severity) < 3
    ensures severity in WORST_FIRST[..4] <==> SeverityRank(severity) < 4
    ensures SeverityRank(severity) == 9 || 0 <= SeverityRank(severity) < 4
  {
    assert WORST_FIRST[..1] == ["P0"] && WORST_FIRST[..2] == ["P0", "P1"] && WORST_FIRST[..3] == ["P0", "P1", "P2"];
    assert WORST_FIRST[..4] == ["P0", "P1", "P2", "P3"];
  }

  lemma NoWorseIff(a: string, b: string)
    ensures NoWorse(b, a) <==> SeverityRank(a) <= SeverityRank(b)
  {
    RankIsPlace(a);
    RankIsPlace(b);
    if SeverityRank(a) > SeverityRank(b) {
      assert b in WORST_FIRST[..SeverityRank(b) + 1] && a !in WORST_FIRST[..SeverityRank(b) + 1];
    }
  }

  // What standing before another alert means, in each mode.
  predicate StandsBefore(p: Platform, mode: SortMode, a: Alert, b: Alert) {
    match mode
    case Newest => p.parse(a.lastSeenAt) >= p.parse(b.lastSeenAt)
    case MostFrequent => a.count > b.count || (a.count == b.count && NoWorse(b.severity, a.severity))
    case Severity =>
      && NoWorse(b.severity, a.severity)
      && (NoWorse(a.severity, b.severity) ==>
            a.count > b.count || (a.count == b.count && p.collate(a.key, b.key) <= 0))
  }

  lemma BeforeIff(p: Platform, mode: SortMode, a: Alert, b: Alert)
    ensures Before(p, mode)(a, b) <==> StandsBefore(p, mode, a, b)
  {
    NoWorseIff(a.severity, b.severity);
    NoWorseIff(b.severity, a.severity);
  }

  /** The order of the queue, in the alerts' own fields: by severity from P0 to P3 and the rest, then by count
      downwards, then by key; by count downwards and then severity; or by time downwards. */
  lemma QueueOrder(p: Platform, alerts: seq<Alert>, f: Filters, i: nat, j: nat)
    requires Collation(p.collate) && i < j < |FilterAndSort(p, alerts, f)|
    ensures StandsBefore(p, f.sort, FilterAndSort(p, alerts, f)[i], FilterAndSort(p, alerts, f)[j])
  {
    QueueIsSortedSelection(p, alerts, f);
    BeforeIff(p, f.sort, FilterAndSort(p, alerts, f)[i], FilterAndSort(p, alerts, f)[j]);
  }

  // ---------------------------------------------------------------- canonical order

  // The queue does not depend on the order the alerts came in.
  ghost predicate Canonical(p: Platform, alerts: seq<Alert>, f: Filters) {
    forall other :: Permutation(other, alerts) ==> FilterAndSort(p, other, f) == FilterAndSort(p, alerts, f)
  }

  ghost predicate EqualOnlyIfSame(p: Platform, alerts: seq<Alert>, f: Filters) {
    forall a, b :: a in alerts && b in alerts && Passes(p, f, a) && Passes(p, f, b) && Compare(p, f.sort, a, b) == 0 ==>
      a == b
  }

  lemma CanonicalIsOfSort(p: Platform, alerts: seq<Alert>, f: Filters)
    ensures Canonical(p, alerts, f) <==> IgnoresOrder(Before(p, f.sort), a => Passes(p, f, a), alerts)
  {
    var le, keep := Before(p, f.sort), a => Passes(p, f, a);
    forall other ensures FilterAndSort(p, other, f) == Sort(le, Filter(keep, other)) {
      FourFilters(p, other, f);
    }
  }

  /** In any sort mode the queue is independent of the order the alerts came in exactly when no two
      different alerts that pass compare as equal. */
  lemma QueueIsCanonicalIff(p: Platform, alerts: seq<Alert>, f: Filters)
    requires Collation(p.collate)
    ensures Canonical(p, alerts, f) <==> EqualOnlyIfSame(p, alerts, f)
  {
    CompareIsTotalPreorder(p, f.sort);
    CanonicalIsOfSort(p, alerts, f);
    OrderMattersOnlyForTies(Before(p, f.sort), a => Passes(p, f, a), alerts);
    TiesAreZeros(p, alerts, f);
  }

  lemma CompareZero(p: Platform, mode: SortMode, a: Alert, b: Alert)
    requires Collation(p.collate)
    ensures Tie(Before(p, mode), a, b) <==> Compare(p, mode, a, b) == 0
  {
    assert p.collate(a.key, b.key) <= 0 <==> p.collate(b.key, a.key) >= 0;
    assert p.collate(b.key, a.key) <= 0 <==> p.collate(a.key, b.key) >= 0;
  }

  lemma TiesAreZeros(p: Platform, alerts: seq<Alert>, f: Filters)
    requires Collation(p.collate)
    ensures TiesAreEqual(Before(p, f.sort), Filter(a => Passes(p, f, a), alerts))
       <==> EqualOnlyIfSame(p, alerts, f)
  {
    var le, kept := Before(p, f.sort), Filter(a => Passes(p, f, a), alerts);
    FilterMembers(a => Passes(p, f, a), alerts);
    forall a, b ensures Tie(le, a, b) <==> Compare(p, f.sort, a, b) == 0 {
      CompareZero(p, f.sort, a, b);
    }
    if TiesAreEqual(le, kept) {
      forall a, b | a in alerts && b in alerts && Passes(p, f, a) && Passes(p, f, b) && Compare(p, f.sort, a, b) == 0
        ensures a == b
      {
        assert a in kept && b in kept;
        var i :| 0 <= i < |kept| && kept[i] == a;
        var j :| 0 <= j < |kept| && kept[j] == b;
        assert Tie(le, kept[i], kept[j]);
      }
    } else {
      var i, j :| 0 <= i < |kept| && 0 <= j < |kept| && Tie(le, kept[i], kept[j]) && kept[i] != kept[j];
      assert kept[i] in kept && kept[j] in kept;
    }
  }

  /** By severity, with keys the collation tells apart, the queue is the same for every order of the input. */
  lemma SeverityQueueIsCanonical(p: Platform, alerts: seq<Alert>, other: seq<Alert>, f: Filters)
    requires Collation(p.collate) && f.sort == Severity && Permutation(other, alerts)
    requires forall a, b :: a in alerts && b in alerts && p.collate(a.key, b.key) == 0 ==> a == b
    ensures FilterAndSort(p, other, f) == FilterAndSort(p, alerts, f)
  {
    QueueIsCanonicalIff(p, alerts, f);
  }

  // By newest or by count, unique keys are not enough.
  lemma CountOrderIsNotCanonical(p: Platform, f: Filters, a: Alert, b: Alert)
    requires Collation(p.collate) && f.sort != Severity && Passes(p, f, a) && Passes(p, f, b) && a.key != b.key
    requires a.severity == b.severity && a.count == b.count && a.lastSeenAt == b.lastSeenAt
    ensures !Canonical(p, [a, b], f)
  {
    QueueIsCanonicalIff(p, [a, b], f);
    TiedPair(p, [a, b], f, a, b);
  }

  lemma TiedPair(p: Platform, alerts: seq<Alert>, f: Filters, a: Alert, b: Alert)
    requires a in alerts && b in alerts && Passes(p, f, a) && Passes(p, f, b) && Compare(p, f.sort, a, b) == 0 && a != b
    ensures !EqualOnlyIfSame(p, alerts, f)
  {
  }

  // ---------------------------------------------------------------- what changed between two snapshots

  predicate Changed(a: Alert, b: Alert) {
    || a.severity != b.severity || a.count != b.count || a.reason != b.reason || a.lastSeenAt != b.lastSeenAt
    || a.status != b.status || a.assignee != b.assignee || a.newSinceTriage != b.newSinceTriage
    || Join(a.sampleRunIds, '\n') != Join(b.sampleRunIds, '\n')
    || Join(a.sampleEventIds, '\n') != Join(b.sampleEventIds, '\n')
  }

  // The previous alert of a key: the last one, as a map built from the list keeps it.
  function Previous(alerts: seq<Alert>, key: string): Option<Alert> {
    if alerts == [] then None
    else if alerts[|alerts| - 1].key == key then Some(alerts[|alerts| - 1])
    else Previous(alerts[..|alerts| - 1], key)
  }

  datatype Diff = Diff(newKeys: seq<string>, updatedKeys: seq<string>, changedKeys: seq<string>)

  predicate IsNew(previous: seq<Alert>, a: Alert) {
    Previous(previous, a.key) == None
  }

  predicate IsUpdated(previous: seq<Alert>, a: Alert) {
    Previous(previous, a.key).Some? && Changed(Previous(previous, a.key).value, a)
  }

  function Keys(alerts: seq<Alert>): seq<string> {
    seq(|alerts|, i requires 0 <= i < |alerts| => alerts[i].key)
  }

  // The map built from a list keeps the last alert of each key.
  method ByKey(alerts: seq<Alert>) returns (byKey: map<string, Alert>)
    ensures forall k :: Previous(alerts, k) == if k in byKey then Some(byKey[k]) else None
  {
    byKey := map[];
    for i := 0 to |alerts|
      invariant forall k :: Previous(alerts[..i], k) == if k in byKey then Some(byKey[k]) else None
    {
      assert alerts[..i + 1][..i] == alerts[..i];
      byKey := byKey[alerts[i].key := alerts[i]];
    }
    assert alerts[..|alerts|] == alerts;
  }

  lemma KeysAppend(keep: Alert -> bool, alerts: seq<Alert>, i: nat)
    requires i < |alerts|
    ensures Keys(Filter(keep, alerts[..i + 1])) == Keys(Filter(keep, alerts[..i])) + if keep(alerts[i])
            then [alerts[i].key] else []
  {
    assert alerts[..i + 1] == alerts[..i] + [alerts[i]];
    FilterAppend(keep, alerts[..i], alerts[i]);
  }

  method DiffAlertQueue(previous: Option<seq<Alert>>, next: seq<Alert>) returns (d: Diff)
    ensures previous == None ==> d == Diff([], [], [])
    ensures previous.Some? ==>
              && d.newKeys == Keys(Filter(a => IsNew(previous.value, a), next))
              && d.updatedKeys == Keys(Filter(a => IsUpdated(previous.value, a), next))
    ensures d.changedKeys == d.newKeys + d.updatedKeys
  {
    if previous == None {
      return Diff([], [], []);
    }
    var byKey := ByKey(previous.value);
    ghost var isNew, isUpdated := a => IsNew(previous.value, a), a => IsUpdated(previous.value, a);
    var newKeys, updatedKeys := [], [];
    for i := 0 to |next|
      invariant newKeys == Keys(Filter(isNew, next[..i]))
      invariant updatedKeys == Keys(Filter(isUpdated, next[..i]))
    {
      KeysAppend(isNew, next, i);
      KeysAppend(isUpdated, next, i);
      if next[i].key !in byKey {
        newKeys := newKeys + [next[i].key];
      } else if Changed(byKey[next[i].key], next[i]) {
        updatedKeys := updatedKeys + [next[i].key];
      }
    }
    assert next[..|next|] == next;
    d := Diff(newKeys, updatedKeys, newKeys + updatedKeys);
  }

  lemma KeyIn(alerts: seq<Alert>, keep: Alert -> bool, key: string)
    ensures key in Keys(Filter(keep, alerts)) <==> exists a :: a in alerts && keep(a) && a.key == key
  {
    FilterMembers(keep, alerts);
    var kept := Filter(keep, alerts);
    if key in Keys(kept) {
      var i :| 0 <= i < |Keys(kept)| && Keys(kept)[i] == key;
      assert kept[i] in kept;
    }
    if a :| a in alerts && keep(a) && a.key == key {
      assert a in kept;
      var i :| 0 <= i < |kept| && kept[i] == a;
      assert Keys(kept)[i] == key;
    }
  }

  /** New and updated keys are disjoint, and together they name exactly the alerts that are absent from the
      previous queue or differ from its alert of the same key. */
  lemma DiffIsExact(previous: seq<Alert>, next: seq<Alert>, key: string)
    ensures var unseen, updated :=
            Keys(Filter(a => IsNew(previous, a), next)), Keys(Filter(a => IsUpdated(previous, a), next));
            && !(key in unseen && key in updated)
            && (key in unseen || key in updated <==>
                  exists a :: a in next && a.key == key
                              && (Previous(previous, key) == None || Changed(Previous(previous, key).value, a)))
  {
    KeyIn(next, a => IsNew(previous, a), key);
    KeyIn(next, a => IsUpdated(previous, a), key);
  }

  lemma {:induction false} PreviousIsUnique(alerts: seq<Alert>, i: nat)
    requires i < |alerts| && forall j, k :: 0 <= j < k < |alerts| ==> alerts[j].key != alerts[k].key
    ensures Previous(alerts, alerts[i].key) == Some(alerts[i])
  {
    if i < |alerts| - 1 {
      PreviousIsUnique(alerts[..|alerts| - 1], i);
    }
  }

  /** An unchanged queue with unique keys, in any order, has no difference. */
  lemma SameQueueNoDiff(previous: seq<Alert>, next: seq<Alert>, key: string)
    requires forall j, k :: 0 <= j < k < |previous| ==> previous[j].key != previous[k].key
    requires forall a :: a in next ==> a in previous
    ensures key !in Keys(Filter(a => IsNew(previous, a), next))
            && key !in Keys(Filter(a => IsUpdated(previous, a), next))
  {
    DiffIsExact(previous, next, key);
    forall a | a in next && a.key == key ensures Previous(previous, key) == Some(a) {
      var i :| 0 <= i < |previous| && previous[i] == a;
      PreviousIsUnique(previous, i);
    }
  }

  /** Joined by newlines, sample lists without newlines compare as equal exactly when they are, except that
      no samples and one empty sample look alike. */
  lemma SameSamplesIff(a: seq<string>, b: seq<string>)
    requires forall i :: 0 <= i < |a| ==> '\n' !in a[i]
    requires forall i :: 0 <= i < |b| ==> '\n' !in b[i]
    ensures Join(a, '\n') == Join(b, '\n') <==> a == b || (a == [] && b == [""]) || (a == [""] && b == [])
  {
    if a != [] {
      SplitJoin(a, '\n');
    }
    if b != [] {
      SplitJoin(b, '\n');
    }
    assert Split("", '\n') == [""];
  }

  predicate Alike(a: seq<string>, b: seq<string>) {
    a == b || (a == [] && b == [""]) || (a == [""] && b == [])
  }

  predicate OneLine(samples: seq<string>) {
    forall i :: 0 <= i < |samples| ==> '\n' !in samples[i]
  }

  /** Two alerts of one key count as unchanged exactly when they are equal field by field, up to no samples
      looking like one empty sample. */
  lemma UnchangedIff(a: Alert, b: Alert)
    requires a.key == b.key
    requires OneLine(a.sampleRunIds) && OneLine(a.sampleEventIds) && OneLine(b.sampleRunIds)
            && OneLine(b.sampleEventIds)
    ensures !Changed(a, b) <==>
              && Alike(a.sampleRunIds, b.sampleRunIds) && Alike(a.sampleEventIds, b.sampleEventIds)
              && a.(sampleRunIds := b.sampleRunIds, sampleEventIds := b.sampleEventIds) == b
  {
    SameSamplesIff(a.sampleRunIds, b.sampleRunIds);
    SameSamplesIff(a.sampleEventIds, b.sampleEventIds);
  }

  // ---------------------------------------------------------------- the selection over a new snapshot

  datatype Snapshot = Snapshot(alerts: seq<Alert>, activeAlertKey: Option<string>, activeRunId: Option<string>)

  datatype Selection = Selection(runId: Option<string>, alertKey: Option<string>, runQuery: string)

  // A non-empty key of an alert on the list; the empty string counts as none.
  predicate Listed(alerts: seq<Alert>, key: Option<string>) {
    key.Some? && key.value != "" && key.value in Keys(alerts)
  }

  function Fallback(s: Snapshot): Option<string> {
    if Listed(s.alerts, s.activeAlertKey) then s.activeAlertKey
    else if s.alerts == [] then None
    else Some(s.alerts[0].key)
  }

  function Reconcile(s: Snapshot, current: Selection, preserve: bool): Selection {
    if !preserve then
      Selection(s.activeRunId, Fallback(s), if s.activeRunId.Some? then s.activeRunId.value else "")
    else
      var runId := if current.runId.Some? then current.runId else s.activeRunId;
      Selection(runId,
                if Listed(s.alerts, current.alertKey) then current.alertKey else Fallback(s),
                if current.runQuery != "" then current.runQuery else if runId.Some? then runId.value else "")
  }

  /** The selected alert is always one of the new snapshot's, or none when it has none. */
  lemma SelectionIsListed(s: Snapshot, current: Selection, preserve: bool)
    ensures var key := Reconcile(s, current, preserve).alertKey;
            if s.alerts == [] then key == None else key.Some? && key.value in Keys(s.alerts)
  {
    if s.alerts != [] {
      assert Keys(s.alerts)[0] == s.alerts[0].key;
    }
  }

  predicate HasAlert(s: Snapshot, key: Option<string>) {
    key.Some? && key.value != "" && exists a :: a in s.alerts && a.key == key.value
  }

  lemma ListedIff(s: Snapshot, key: Option<string>)
    ensures Listed(s.alerts, key) <==> HasAlert(s, key)
  {
    if Listed(s.alerts, key) {
      var i :| 0 <= i < |Keys(s.alerts)| && Keys(s.alerts)[i] == key.value;
      assert s.alerts[i] in s.alerts;
    }
    if HasAlert(s, key) {
      var a :| a in s.alerts && a.key == key.value;
      var i :| 0 <= i < |s.alerts| && s.alerts[i] == a;
      assert Keys(s.alerts)[i] == key.value;
    }
  }

  /** What a new snapshot leaves of the selection: what can be preserved is, an alert that has gone gives way
      to the snapshot's own choice or else to its first alert, and the run search follows the run. */
  lemma SelectionIs(s: Snapshot, current: Selection, preserve: bool)
    ensures var after := Reconcile(s, current, preserve);
            && after.alertKey == (if preserve && HasAlert(s, current.alertKey) then current.alertKey
                                  else if HasAlert(s, s.activeAlertKey) then s.activeAlertKey
                                  else if s.alerts == [] then None
                                  else Some(s.alerts[0].key))
            && after.runId == (if preserve && current.runId.Some? then current.runId else s.activeRunId)
            && after.runQuery == (if preserve && current.runQuery != "" then current.runQuery
                                  else if after.runId == None then ""
                                  else after.runId.value)
  {
    ListedIff(s, current.alertKey);
    ListedIff(s, s.activeAlertKey);
  }

  /** Reconciling twice against the same snapshot changes nothing more. */
  lemma ReconcileIdempotent(s: Snapshot, current: Selection, preserve: bool)
    ensures Reconcile(s, Reconcile(s, current, preserve), true) == Reconcile(s, current, preserve)
  {
  }
}
