/** The incident timeline: entries from several sources, deduplicated, ordered, clipped and renumbered. */
module Timeline {
  import opened StableSort

  // A moment and the offset it was written with; only the moment is compared, both are printed.
  datatype Instant = Instant(micros: int, offset: int)

  datatype Entry = Entry(
    occurredAt: Instant,
    sequence: int,
    source: string,
    eventType: string,
    title: string,
    detail: string,
    tone: string,
    evidence: map<string, string>)

  // Two entries of one key are the same incident fact; sorted JSON makes evidence compare as a mapping.
  datatype Key = Key(source: string, eventType: string, occurredAt: Instant, evidence: map<string, string>)

  function KeyOf(e: Entry): Key {
    Key(e.source, e.eventType, e.occurredAt, e.evidence)
  }

  // ---------------------------------------------------------------- deduplication

  predicate HasKey(entries: seq<Entry>, key: Key) {
    exists i :: 0 <= i < |entries| && KeyOf(entries[i]) == key
  }

  function Deduped(entries: seq<Entry>): seq<Entry> {
    if entries == [] then []
    else
      var before, e := Deduped(entries[..|entries| - 1]), entries[|entries| - 1];
      if HasKey(entries[..|entries| - 1], KeyOf(e)) then before else before + [e]
  }

  method DedupeEntries(entries: seq<Entry>) returns (deduped: seq<Entry>)
    ensures deduped == Deduped(entries)
  {
    var seen: set<Key> := {};
    deduped := [];
    for i := 0 to |entries|
      invariant deduped == Deduped(entries[..i])
      invariant forall key :: key in seen <==> HasKey(entries[..i], key)
    {
      assert entries[..i + 1][..i] == entries[..i];
      var key := KeyOf(entries[i]);
      ghost var known := seen;
      if key !in seen {
        seen := seen + {key};
        deduped := deduped + [entries[i]];
      }
      forall k ensures k in seen <==> HasKey(entries[..i + 1], k) {
        HasKeyAppend(entries[..i], entries[i], k);
        assert entries[..i + 1] == entries[..i] + [entries[i]];
      }
    }
    assert entries[..|entries|] == entries;
  }

  lemma HasKeyAppend(entries: seq<Entry>, e: Entry, key: Key)
    ensures HasKey(entries + [e], key) <==> HasKey(entries, key) || KeyOf(e) == key
  {
    if HasKey(entries, key) {
      var i :| 0 <= i < |entries| && KeyOf(entries[i]) == key;
      assert KeyOf((entries + [e])[i]) == key;
    }
    if KeyOf(e) == key {
      assert KeyOf((entries + [e])[|entries|]) == key;
    }
  }

  predicate DistinctKeys(entries: seq<Entry>) {
    forall i, j :: 0 <= i < j < |entries| ==> KeyOf(entries[i]) != KeyOf(entries[j])
  }

  lemma HasKeyTail(entries: seq<Entry>, key: Key)
    requires entries != [] && KeyOf(entries[0]) != key
    ensures HasKey(entries[1..], key) <==> HasKey(entries, key)
  {
    if HasKey(entries, key) {
      var i :| 0 <= i < |entries| && KeyOf(entries[i]) == key;
      assert KeyOf(entries[1..][i - 1]) == key;
    }
    if HasKey(entries[1..], key) {
      var i :| 0 <= i < |entries[1..]| && KeyOf(entries[1..][i]) == key;
      assert KeyOf(entries[i + 1]) == key;
    }
  }

  // The first entry of a key.
  function First(entries: seq<Entry>, key: Key): Entry
    requires HasKey(entries, key)
  {
    if KeyOf(entries[0]) == key then entries[0]
    else
      HasKeyTail(entries, key);
      First(entries[1..], key)
  }

  lemma {:induction false} FirstAppend(entries: seq<Entry>, e: Entry, key: Key)
    requires HasKey(entries + [e], key)
    ensures First(entries + [e], key) == if HasKey(entries, key) then First(entries, key) else e
  {
    HasKeyAppend(entries, e, key);
    if entries != [] && KeyOf(entries[0]) != key {
      assert (entries + [e])[1..] == entries[1..] + [e];
      HasKeyTail(entries, key);
      HasKeyTail(entries + [e], key);
      FirstAppend(entries[1..], e, key);
    }
  }

  lemma {:induction false} DedupedKeys(entries: seq<Entry>)
    ensures forall key :: HasKey(Deduped(entries), key) <==> HasKey(entries, key)
    ensures DistinctKeys(Deduped(entries))
  {
    if entries != [] {
      var init, e := entries[..|entries| - 1], entries[|entries| - 1];
      assert entries == init + [e];
      DedupedKeys(init);
      forall key ensures HasKey(Deduped(entries), key) <==> HasKey(entries, key) {
        HasKeyAppend(init, e, key);
        HasKeyAppend(Deduped(init), e, key);
      }
    }
  }

  // Deduplication keeps the first entry of each key.
  lemma {:induction false} DedupedAreFirst(entries: seq<Entry>, i: nat)
    requires i < |Deduped(entries)|
    ensures HasKey(entries, KeyOf(Deduped(entries)[i]))
            && Deduped(entries)[i] == First(entries, KeyOf(Deduped(entries)[i]))
  {
    var init, e := entries[..|entries| - 1], entries[|entries| - 1];
    assert entries == init + [e];
    var key := KeyOf(Deduped(entries)[i]);
    HasKeyAppend(init, e, key);
    if i < |Deduped(init)| {
      DedupedAreFirst(init, i);
    }
    FirstAppend(init, e, key);
  }

  function KeySet(entries: seq<Entry>): set<Key> {
    set i | 0 <= i < |entries| :: KeyOf(entries[i])
  }

  lemma {:induction false} DistinctKeysCount(entries: seq<Entry>)
    requires DistinctKeys(entries)
    ensures |KeySet(entries)| == |entries|
  {
    if entries == [] {
      assert KeySet(entries) == {};
    } else {
      var init, e := entries[..|entries| - 1], entries[|entries| - 1];
      DistinctKeysCount(init);
      assert entries == init + [e];
      forall key ensures key in KeySet(entries) <==> key in KeySet(init) + {KeyOf(e)} {
        HasKeyAppend(init, e, key);
        assert key in KeySet(entries) <==> HasKey(entries, key);
        assert key in KeySet(init) <==> HasKey(init, key);
      }
      assert KeySet(entries) == KeySet(init) + {KeyOf(e)};
    }
  }

  // ---------------------------------------------------------------- order

  // Strings compare by code point, a prefix first.
  predicate TextBefore(a: string, b: string) {
    a == "" || (b != "" && (a[0] < b[0] || (a[0] == b[0] && TextBefore(a[1..], b[1..]))))
  }

  lemma {:induction false} TextTotal(a: string, b: string)
    ensures TextBefore(a, b) || TextBefore(b, a)
  {
    if a != "" && b != "" && a[0] == b[0] {
      TextTotal(a[1..], b[1..]);
    }
  }

  lemma {:induction false} TextTransitive(a: string, b: string, c: string)
    requires TextBefore(a, b) && TextBefore(b, c)
    ensures TextBefore(a, c)
  {
    if a != "" && a[0] == b[0] == c[0] {
      TextTransitive(a[1..], b[1..], c[1..]);
    }
  }

  lemma {:induction false} TextAntisymmetric(a: string, b: string)
    requires TextBefore(a, b) && TextBefore(b, a)
    ensures a == b
  {
    if a != "" {
      TextAntisymmetric(a[1..], b[1..]);
      assert a == [a[0]] + a[1..] && b == [b[0]] + b[1..];
    }
  }

  // By time, then the sequence an entry was made with, then its type.
  predicate Before(a: Entry, b: Entry) {
    if a.occurredAt.micros != b.occurredAt.micros then a.occurredAt.micros < b.occurredAt.micros
    else if a.sequence != b.sequence then a.sequence < b.sequence
    else TextBefore(a.eventType, b.eventType)
  }

  lemma BeforeIsTotalPreorder()
    ensures TotalPreorder(Before)
  {
    forall a, b ensures Before(a, b) || Before(b, a) {
      TextTotal(a.eventType, b.eventType);
    }
    forall a, b, c | Before(a, b) && Before(b, c) ensures Before(a, c) {
      if TextBefore(a.eventType, b.eventType) && TextBefore(b.eventType, c.eventType) {
        TextTransitive(a.eventType, b.eventType, c.eventType);
      }
    }
  }

  // ---------------------------------------------------------------- the timeline

  function Ordered(entries: seq<Entry>): seq<Entry> {
    Sort(Before, Deduped(entries))
  }

  function Clipped(entries: seq<Entry>, limit: nat): seq<Entry> {
    if limit < |Ordered(entries)| then Ordered(entries)[..limit] else Ordered(entries)
  }

  function Timeline(entries: seq<Entry>, limit: nat): seq<Entry> {
    var clipped := Clipped(entries, limit);
    seq(|clipped|, i requires 0 <= i < |clipped| => clipped[i].(sequence := i))
  }

  method BuildTimeline(entries: seq<Entry>, limit: nat) returns (timeline: seq<Entry>)
    ensures timeline == Timeline(entries, limit)
  {
    var deduped := DedupeEntries(entries);
    var ordered := Sort(Before, deduped);
    var clipped := if limit < |ordered| then ordered[..limit] else ordered;
    timeline := seq(|clipped|, i requires 0 <= i < |clipped| => clipped[i].(sequence := i));
  }

  // A permutation of distinctly keyed entries has distinct keys.
  lemma PermutedKeys(a: seq<Entry>, b: seq<Entry>)
    requires multiset(a) == multiset(b) && DistinctKeys(a)
    ensures DistinctKeys(b)
  {
    forall i, j | 0 <= i < j < |b| ensures KeyOf(b[i]) != KeyOf(b[j]) {
      if KeyOf(b[i]) == KeyOf(b[j]) {
        SameMembers(a, b);
        assert b[i] in a && b[j] in a;
        assert b[i] == b[j];
        TwiceIn(b, i, j);
        OnceIn(a, b[i]);
      }
    }
  }

  lemma TwiceIn<T>(s: seq<T>, i: nat, j: nat)
    requires i < j < |s| && s[i] == s[j]
    ensures multiset(s)[s[i]] >= 2
  {
    assert s == s[..i] + [s[i]] + s[i + 1..j] + [s[j]] + s[j + 1..];
  }

  lemma {:induction false} OnceIn(s: seq<Entry>, e: Entry)
    requires DistinctKeys(s)
    ensures multiset(s)[e] <= 1
  {
    if s != [] {
      var n := |s| - 1;
      assert s == s[..n] + [s[n]];
      OnceIn(s[..n], e);
      if s[n] == e {
        assert e !in s[..n];
        assert e !in multiset(s[..n]);
      }
    }
  }

  /** Ordered by time, and before renumbering by the whole sort key. */
  lemma TimelineIsOrdered(entries: seq<Entry>, limit: nat, i: nat, j: nat)
    requires i < j < |Timeline(entries, limit)|
    ensures Before(Clipped(entries, limit)[i], Clipped(entries, limit)[j])
    ensures Timeline(entries, limit)[i].occurredAt.micros <= Timeline(entries, limit)[j].occurredAt.micros
  {
    BeforeIsTotalPreorder();
    SortSorts(Before, Deduped(entries));
  }

  lemma OrderedCount(entries: seq<Entry>)
    ensures |Ordered(entries)| == |KeySet(entries)|
  {
    DedupedKeys(entries);
    DistinctKeysCount(Deduped(entries));
    SameKeySet(entries, Deduped(entries));
    SameMembers(Deduped(entries), Ordered(entries));
  }

  lemma SameKeySet(a: seq<Entry>, b: seq<Entry>)
    requires forall key :: HasKey(a, key) <==> HasKey(b, key)
    ensures KeySet(a) == KeySet(b)
  {
    forall key ensures key in KeySet(a) <==> key in KeySet(b) {
      assert key in KeySet(a) <==> HasKey(a, key);
      assert key in KeySet(b) <==> HasKey(b, key);
    }
  }

  /** Every entry is numbered by its position, and they are as many as the distinct keys allow. */
  lemma TimelineIsNumbered(entries: seq<Entry>, limit: nat)
    ensures |Timeline(entries, limit)| == if limit < |KeySet(entries)| then limit else |KeySet(entries)|
    ensures forall i :: 0 <= i < |Timeline(entries, limit)| ==> Timeline(entries, limit)[i].sequence == i
  {
    OrderedCount(entries);
  }

  /** No two entries share a key, and each is the first of its key, with only its number changed. */
  lemma TimelineKeepsFirsts(entries: seq<Entry>, limit: nat)
    ensures DistinctKeys(Timeline(entries, limit))
    ensures forall i :: 0 <= i < |Timeline(entries, limit)| ==>
              var e := Timeline(entries, limit)[i];
              HasKey(entries, KeyOf(e)) && e == First(entries, KeyOf(e)).(sequence := i)
  {
    DedupedKeys(entries);
    PermutedKeys(Deduped(entries), Ordered(entries));
    SameMembers(Deduped(entries), Ordered(entries));
    var clipped, timeline := Clipped(entries, limit), Timeline(entries, limit);
    forall i, j | 0 <= i < j < |timeline| ensures KeyOf(timeline[i]) != KeyOf(timeline[j]) {
      assert KeyOf(clipped[i]) != KeyOf(clipped[j]);
    }
    forall i | 0 <= i < |timeline|
      ensures HasKey(entries, KeyOf(timeline[i])) && timeline[i] == First(entries, KeyOf(timeline[i])).(sequence := i)
    {
      assert clipped[i] in Ordered(entries) && clipped[i] in Deduped(entries);
      var k :| 0 <= k < |Deduped(entries)| && Deduped(entries)[k] == clipped[i];
      DedupedAreFirst(entries, k);
    }
  }

  // Where the first entry of a key stands in the order.
  lemma PlaceOf(entries: seq<Entry>, key: Key) returns (d: nat)
    requires HasKey(entries, key)
    ensures d < |Ordered(entries)| && Ordered(entries)[d] == First(entries, key) && KeyOf(Ordered(entries)[d]) == key
  {
    DedupedKeys(entries);
    assert HasKey(Deduped(entries), key);
    var k :| 0 <= k < |Deduped(entries)| && KeyOf(Deduped(entries)[k]) == key;
    DedupedAreFirst(entries, k);
    SameMembers(Deduped(entries), Ordered(entries));
    assert Deduped(entries)[k] in Ordered(entries);
    d :| 0 <= d < |Ordered(entries)| && Ordered(entries)[d] == Deduped(entries)[k];
  }

  /** What the limit drops sorts no earlier than anything kept. */
  lemma DroppedComeLast(entries: seq<Entry>, limit: nat, key: Key, i: nat)
    requires HasKey(entries, key) && !HasKey(Timeline(entries, limit), key) && i < |Timeline(entries, limit)|
    ensures Before(Clipped(entries, limit)[i], First(entries, key))
  {
    BeforeIsTotalPreorder();
    SortSorts(Before, Deduped(entries));
    var d := PlaceOf(entries, key);
    assert d < |Timeline(entries, limit)| ==> KeyOf(Timeline(entries, limit)[d]) == key;
  }

  // ---------------------------------------------------------------- when the order of the sources matters

  // Two entries that share a key, or a place in the order, are the same entry.
  ghost predicate Unambiguous(entries: seq<Entry>) {
    forall i, j :: 0 <= i < |entries| && 0 <= j < |entries| && Clash(entries[i], entries[j]) ==>
        entries[i] == entries[j]
  }

  predicate Clash(a: Entry, b: Entry) {
    KeyOf(a) == KeyOf(b) || SamePlace(a, b)
  }

  predicate SamePlace(a: Entry, b: Entry) {
    a.occurredAt.micros == b.occurredAt.micros && a.sequence == b.sequence && a.eventType == b.eventType
  }

  lemma {:induction false} TextReflexive(a: string)
    ensures TextBefore(a, a)
  {
    if a != "" {
      TextReflexive(a[1..]);
    }
  }

  lemma TieIsSamePlace(a: Entry, b: Entry)
    ensures Tie(Before, a, b) <==> SamePlace(a, b)
  {
    if Tie(Before, a, b) {
      TextAntisymmetric(a.eventType, b.eventType);
    } else if SamePlace(a, b) {
      TextReflexive(a.eventType);
    }
  }

  // With one entry for each key, the deduplicated list holds each entry once.
  lemma DedupedCounts(entries: seq<Entry>, e: Entry)
    requires Unambiguous(entries)
    ensures multiset(Deduped(entries))[e] == if e in entries then 1 else 0
  {
    DedupedKeys(entries);
    OnceIn(Deduped(entries), e);
    if e in entries {
      assert HasKey(entries, KeyOf(e));
      var k :| 0 <= k < |Deduped(entries)| && KeyOf(Deduped(entries)[k]) == KeyOf(e);
      DedupedMember(entries, k);
      assert Clash(Deduped(entries)[k], e);
      assert Deduped(entries)[k] in multiset(Deduped(entries));
    } else if e in multiset(Deduped(entries)) {
      var k :| 0 <= k < |Deduped(entries)| && Deduped(entries)[k] == e;
      DedupedMember(entries, k);
    }
  }

  lemma {:induction false} FirstMember(entries: seq<Entry>, key: Key)
    requires HasKey(entries, key)
    ensures First(entries, key) in entries && KeyOf(First(entries, key)) == key
  {
    if KeyOf(entries[0]) != key {
      HasKeyTail(entries, key);
      FirstMember(entries[1..], key);
    }
  }

  lemma DedupedMember(entries: seq<Entry>, k: nat)
    requires k < |Deduped(entries)|
    ensures Deduped(entries)[k] in entries
  {
    DedupedAreFirst(entries, k);
    FirstMember(entries, KeyOf(Deduped(entries)[k]));
  }

  lemma SameOrdered(entries: seq<Entry>, t: seq<Entry>)
    requires Permutation(t, entries) && Unambiguous(entries)
    ensures Ordered(t) == Ordered(entries)
  {
    SameMembers(t, entries);
    assert Unambiguous(t) by {
      forall i, j | 0 <= i < |t| && 0 <= j < |t| && Clash(t[i], t[j]) ensures t[i] == t[j] {
        assert t[i] in entries && t[j] in entries;
      }
    }
    var a, b := multiset(Deduped(entries)), multiset(Deduped(t));
    forall e ensures a[e] == b[e] {
      DedupedCounts(entries, e);
      DedupedCounts(t, e);
    }
    SameCounts(a, b);
    DedupedTies(entries);
    BeforeIsTotalPreorder();
    SortIgnoresOrder(Before, Deduped(entries), Deduped(t));
  }

  lemma DedupedTies(entries: seq<Entry>)
    requires Unambiguous(entries)
    ensures TiesAreEqual(Before, Deduped(entries))
  {
    var d := Deduped(entries);
    forall i, j | 0 <= i < |d| && 0 <= j < |d| && Tie(Before, d[i], d[j]) ensures d[i] == d[j] {
      TieIsSamePlace(d[i], d[j]);
      DedupedMember(entries, i);
      DedupedMember(entries, j);
      assert Clash(d[i], d[j]);
    }
  }

  lemma HeadIsFirst(e: Entry, rest: seq<Entry>)
    ensures HasKey([e] + rest, KeyOf(e)) && First([e] + rest, KeyOf(e)) == e
  {
    assert ([e] + rest)[0] == e;
  }

  // The head of a list stands in its order, and no other entry of its key does.
  lemma HeadStays(e: Entry, rest: seq<Entry>, other: Entry)
    ensures e in Ordered([e] + rest)
    ensures KeyOf(other) == KeyOf(e) && other in Ordered([e] + rest) ==> other == e
  {
    var t := [e] + rest;
    HeadIsFirst(e, rest);
    var d := PlaceOf(t, KeyOf(e));
    DedupedKeys(t);
    PermutedKeys(Deduped(t), Ordered(t));
    if other in Ordered(t) && KeyOf(other) == KeyOf(e) {
      var k :| 0 <= k < |Ordered(t)| && Ordered(t)[k] == other;
      assert k == d;
    }
  }

  // Two entries of one key: whichever comes first is the one that stays.
  lemma KeyClashShows(a: Entry, b: Entry, rest: seq<Entry>)
    requires a != b && KeyOf(a) == KeyOf(b)
    ensures Ordered([a] + ([b] + rest)) != Ordered([b] + ([a] + rest))
  {
    HeadStays(a, [b] + rest, b);
    HeadStays(b, [a] + rest, a);
  }

  lemma {:induction false} DedupedPrefix(a: seq<Entry>, b: seq<Entry>) returns (rest: seq<Entry>)
    ensures Deduped(a + b) == Deduped(a) + rest
  {
    if b == [] {
      assert a + b == a;
      rest := [];
    } else {
      var init, e := b[..|b| - 1], b[|b| - 1];
      assert (a + b)[..|a + b| - 1] == a + init;
      rest := DedupedPrefix(a, init);
      if !HasKey(a + init, KeyOf(e)) {
        rest := rest + [e];
      }
    }
  }

  lemma DedupedTwo(a: Entry, b: Entry, tail: seq<Entry>) returns (rest: seq<Entry>)
    requires KeyOf(a) != KeyOf(b)
    ensures Deduped([a] + ([b] + tail)) == [a] + ([b] + rest)
  {
    assert [a] + ([b] + tail) == [a, b] + tail;
    rest := DedupedPrefix([a, b], tail);
    assert [a, b][..1] == [a] && [a][..0] == [];
    assert Deduped([a]) == [a];
    assert Deduped([a, b]) == [a, b];
  }

  lemma PlaceClashShows(a: Entry, b: Entry, tail: seq<Entry>)
    requires KeyOf(a) != KeyOf(b) && SamePlace(a, b)
    ensures Ordered([a] + ([b] + tail)) != Ordered([b] + ([a] + tail))
  {
    var rest := DedupedTwo(a, b, tail);
    var rest' := DedupedTwo(b, a, tail);
    TieIsSamePlace(a, b);
    BeforeIsTotalPreorder();
    TieShows(Before, a, b, rest, rest');
  }

  lemma ClashShows(entries: seq<Entry>) returns (t: seq<Entry>, u: seq<Entry>)
    requires !Unambiguous(entries)
    ensures Permutation(t, entries) && Permutation(u, entries) && Ordered(t) != Ordered(u)
  {
    var i, j :| 0 <= i < |entries| && 0 <= j < |entries| && Clash(entries[i], entries[j]) && entries[i] != entries[j];
    var k, l := if i < j then i else j, if i < j then j else i;
    var a, b := entries[k], entries[l];
    var rest := PullTwo(entries, k, l);
    t, u := [a] + ([b] + rest), [b] + ([a] + rest);
    if KeyOf(a) == KeyOf(b) {
      KeyClashShows(a, b, rest);
    } else {
      PlaceClashShows(a, b, rest);
    }
  }

  // Whatever order the sources deliver their entries in, the ordered list is the same.
  ghost predicate IgnoresSourceOrder(entries: seq<Entry>) {
    forall t :: Permutation(t, entries) ==> Ordered(t) == Ordered(entries)
  }

  /** The ordered entries do not depend on the order of the sources exactly when entries that share a key, or
      time, sequence and type, are the same entry. */
  lemma SourceOrderMattersIff(entries: seq<Entry>)
    ensures IgnoresSourceOrder(entries) <==> Unambiguous(entries)
  {
    if Unambiguous(entries) {
      forall t | Permutation(t, entries) ensures Ordered(t) == Ordered(entries) {
        SameOrdered(entries, t);
      }
    } else {
      var t, u := ClashShows(entries);
    }
  }

  /** Then neither does the timeline, at any limit. */
  lemma TimelineIgnoresSourceOrder(entries: seq<Entry>, t: seq<Entry>, limit: nat)
    requires Unambiguous(entries) && Permutation(t, entries)
    ensures Timeline(t, limit) == Timeline(entries, limit)
  {
    SameOrdered(entries, t);
  }

  // ---------------------------------------------------------------- the same, in the entries' own fields

  // The same incident fact: source, type, moment as written, and evidence.
  predicate SameFact(a: Entry, b: Entry) {
    && a.source == b.source && a.eventType == b.eventType
    && a.occurredAt.micros == b.occurredAt.micros && a.occurredAt.offset == b.occurredAt.offset
    && a.evidence == b.evidence
  }

  lemma KeyIsFact(a: Entry, b: Entry)
    ensures KeyOf(a) == KeyOf(b) <==> SameFact(a, b)
  {
  }

  lemma HasKeyIs(entries: seq<Entry>, e: Entry)
    ensures HasKey(entries, KeyOf(e)) <==> exists x :: x in entries && SameFact(x, e)
  {
    if HasKey(entries, KeyOf(e)) {
      var i :| 0 <= i < |entries| && KeyOf(entries[i]) == KeyOf(e);
      assert entries[i] in entries && SameFact(entries[i], e);
    }
    if x :| x in entries && SameFact(x, e) {
      var i :| 0 <= i < |entries| && entries[i] == x;
      assert KeyOf(entries[i]) == KeyOf(e);
    }
  }

  lemma {:induction false} FirstStands(entries: seq<Entry>, key: Key) returns (k: nat)
    requires HasKey(entries, key)
    ensures k < |entries| && entries[k] == First(entries, key) && KeyOf(entries[k]) == key
    ensures forall j :: 0 <= j < k ==> KeyOf(entries[j]) != key
  {
    if KeyOf(entries[0]) == key {
      k := 0;
    } else {
      HasKeyTail(entries, key);
      var k' := FirstStands(entries[1..], key);
      k := k' + 1;
      forall j | 0 <= j < k ensures KeyOf(entries[j]) != key {
        assert j > 0 ==> entries[j] == entries[1..][j - 1];
      }
    }
  }

  /** No two timeline entries tell the same fact, and each is, but for its number, the first of those given
      that tell it. */
  lemma FactsAreToldOnce(entries: seq<Entry>, limit: nat, i: nat)
    requires i < |Timeline(entries, limit)|
    ensures forall j :: 0 <= j < |Timeline(entries, limit)| && j != i ==>
              !SameFact(Timeline(entries, limit)[i], Timeline(entries, limit)[j])
    ensures exists k :: 0 <= k < |entries| && Timeline(entries, limit)[i] == entries[k].(sequence := i)
                        && forall j :: 0 <= j < k ==> !SameFact(entries[j], entries[k])
  {
    TimelineKeepsFirsts(entries, limit);
    var e := Timeline(entries, limit)[i];
    forall j | 0 <= j < |Timeline(entries, limit)| && j != i ensures !SameFact(e, Timeline(entries, limit)[j]) {
      KeyIsFact(e, Timeline(entries, limit)[j]);
    }
    var k := FirstStands(entries, KeyOf(e));
    forall j | 0 <= j < k ensures !SameFact(entries[j], entries[k]) {
      KeyIsFact(entries[j], entries[k]);
    }
    assert e == entries[k].(sequence := i);
  }

  /** And no fact is lost but to the limit. */
  lemma FactsAreKept(entries: seq<Entry>, limit: nat, e: Entry)
    requires e in entries && |entries| <= limit
    ensures exists x :: x in Timeline(entries, limit) && SameFact(x, e)
  {
    HasKeyIs(entries, e);
    assert SameFact(e, e);
    var d := PlaceOf(entries, KeyOf(e));
    FewerThanGiven(entries);
    var x := Timeline(entries, limit)[d];
    KeyIsFact(x, e);
    assert x in Timeline(entries, limit);
  }

  lemma {:induction false} FewerThanGiven(entries: seq<Entry>)
    ensures |Ordered(entries)| <= |entries|
  {
    DedupedCount(entries);
    SameMembers(Deduped(entries), Ordered(entries));
  }

  lemma {:induction false} DedupedCount(entries: seq<Entry>)
    ensures |Deduped(entries)| <= |entries|
  {
    if entries != [] {
      DedupedCount(entries[..|entries| - 1]);
    }
  }

  // One text comes before another when it is a beginning of it, or smaller where they first differ.
  lemma {:induction false} TextBeforeIff(a: string, b: string)
    ensures TextBefore(a, b) <==> a <= b || exists k :: SmallerAt(a, b, k)
  {
    if a != "" && b != "" && a[0] == b[0] {
      TextBeforeIff(a[1..], b[1..]);
      assert a == [a[0]] + a[1..] && b == [b[0]] + b[1..];
      if k: nat :| SmallerAt(a[1..], b[1..], k) {
        SmallerNext(a, b, k);
      }
      if k: nat :| SmallerAt(a, b, k) {
        assert k > 0;
        SmallerBefore(a, b, k - 1);
      }
    } else if a != "" && b != "" {
      assert a[0] < b[0] ==> SmallerAt(a, b, 0);
      forall k: nat | SmallerAt(a, b, k) ensures k == 0 {}
    }
  }

  predicate SmallerAt(a: string, b: string, k: nat) {
    k < |a| && k < |b| && a[k] < b[k] && a[..k] == b[..k]
  }

  lemma SmallerNext(a: string, b: string, k: nat)
    requires a != "" && b != "" && a[0] == b[0] && SmallerAt(a[1..], b[1..], k)
    ensures SmallerAt(a, b, k + 1)
  {
    assert a[..k + 1] == [a[0]] + a[1..][..k] && b[..k + 1] == [b[0]] + b[1..][..k];
  }

  lemma SmallerBefore(a: string, b: string, k: nat)
    requires a != "" && b != "" && a[0] == b[0] && SmallerAt(a, b, k + 1)
    ensures SmallerAt(a[1..], b[1..], k)
  {
    assert a[1..][..k] == a[..k + 1][1..] && b[1..][..k] == b[..k + 1][1..];
  }

  /** Whole key: before renumbering, entries stand by moment, then by the number they were made with, then by
      type as text. */
  lemma OrderIs(entries: seq<Entry>, limit: nat, i: nat, j: nat)
    requires i < j < |Timeline(entries, limit)|
    ensures var a, b := Clipped(entries, limit)[i], Clipped(entries, limit)[j];
            && a.occurredAt.micros <= b.occurredAt.micros
            && (a.occurredAt.micros == b.occurredAt.micros ==> a.sequence <= b.sequence)
            && (a.occurredAt.micros == b.occurredAt.micros && a.sequence == b.sequence ==>
                  a.eventType <= b.eventType || exists k :: SmallerAt(a.eventType, b.eventType, k))
  {
    TimelineIsOrdered(entries, limit, i, j);
    TextBeforeIff(Clipped(entries, limit)[i].eventType, Clipped(entries, limit)[j].eventType);
  }
}
