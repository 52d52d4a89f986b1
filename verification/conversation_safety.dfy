/** Every interleaving of chat turns, restarts and retention: memory agrees with the log, each
    conversation has one owner, and hydration rebuilds what a restart lost. */
module ConversationSafety {
  import opened Conversation

  // ---------------------------------------------------------------- runs

  datatype Turn = Turn(conversation: string, user: string)

  // `pending` are the turns suspended at an await; `purged` records that retention has run.
  datatype World = World(states: States, log: seq<Event>, pending: multiset<Turn>, purged: bool)

  datatype Step =
    | Start(conversation: string, user: string, content: string)
    | Finish(turn: Turn, answer: string, meanwhile: seq<Event>)
    | Abandon(turn: Turn)
    | List(conversation: string, user: string)
    | Append(event: Event)
    | Purge(cut: nat)
    | Restart

  // What else is appended to the same log: other tenants' events, and types replay does not read.
  predicate Unrelated(tenant: string, e: Event) {
    e.tenant != tenant || !Replayed(e)
  }

  predicate AllUnrelated(tenant: string, events: seq<Event>) {
    forall i :: 0 <= i < |events| ==> Unrelated(tenant, events[i])
  }

  // Retention of one tenant: its events among the oldest `cut` are gone.
  function Kept(log: seq<Event>, tenant: string): seq<Event> {
    if log == [] then []
    else
      var rest := Kept(log[..|log| - 1], tenant);
      if log[|log| - 1].tenant == tenant then rest else rest + [log[|log| - 1]]
  }

  function Purged(log: seq<Event>, tenant: string, cut: nat): seq<Event>
    requires cut <= |log|
  {
    Kept(log[..cut], tenant) + log[cut..]
  }

  function Next(learn: Learn, tenant: string, w: World, step: Step): World {
    match step
    case Start(c, u, text) =>
      var f := Begin(learn, tenant, w.states, w.log, c, u, text);
      w.(states := f.states, log := f.log, pending := if f.error.Ok? then w.pending + multiset{Turn(c, u)}
          else w.pending)
    case Finish(t, text, meanwhile) =>
      if t !in w.pending || !AllUnrelated(tenant, meanwhile) then w
      else
        var f := Finalize(learn, tenant, w.states, w.log, t.conversation, t.user, text, meanwhile);
        w.(states := f.states, log := f.log, pending := w.pending - multiset{t})
    case Abandon(t) => w.(pending := w.pending - multiset{t})
    case List(c, u) =>
      var r := Hydrate(learn, tenant, w.states, w.log, c, u);
      if r.Ok? then w.(states := r.value) else w
    case Append(e) => if Unrelated(tenant, e) then w.(log := w.log + [e]) else w
    case Purge(cut) =>
      if cut <= |w.log| then w.(log := Purged(w.log, tenant, cut), purged := true) else w
    case Restart => w.(states := map[], pending := multiset{})
  }

  const EMPTY := World(map[], [], multiset{}, false)

  function Run(learn: Learn, tenant: string, steps: seq<Step>): World {
    if steps == [] then EMPTY
    else Next(learn, tenant, Run(learn, tenant, steps[..|steps| - 1]), steps[|steps| - 1])
  }

  // The messages of a conversation in the log, oldest first.
  function Logged(log: seq<Event>, tenant: string, conversation: string): seq<Message> {
    if log == [] then []
    else
      var rest := Logged(log[..|log| - 1], tenant, conversation);
      var e := log[|log| - 1];
      if e.tenant == tenant && e.conversation == conversation && e.body.Said? then rest + [e.body.message] else rest
  }

  // ---------------------------------------------------------------- invariant

  predicate OwnedBy(messages: seq<Message>, tenant: string, conversation: string, user: string) {
    forall i :: 0 <= i < |messages| ==>
      messages[i].tenant == tenant && messages[i].conversation == conversation && messages[i].user == user
  }

  // What the user messages among `messages` taught, in order.
  function Learned(learn: Learn, messages: seq<Message>): Thread {
    if messages == [] then BLANK
    else
      var before := Learned(learn, messages[..|messages| - 1]);
      var m := messages[|messages| - 1];
      if m.role == User then learn(before, messages, m.content) else before
  }

  function StateOf(learn: Learn, tenant: string, conversation: string, user: string, messages: seq<Message>): State {
    State(tenant, conversation, user, messages, Learned(learn, messages))
  }

  predicate IsSuffix<T(==)>(s: seq<T>, t: seq<T>) {
    |s| <= |t| && s == t[|t| - |s|..]
  }

  // A loaded state `s` of conversation `c`, against the messages logged for it.
  ghost predicate Agrees(learn: Learn, tenant: string, c: string, s: State, logged: seq<Message>, purged: bool) {
    && s == StateOf(learn, tenant, c, s.user, s.messages)
    && s.messages != []
    && OwnedBy(s.messages, tenant, c, s.user)
    && IsSuffix(logged, s.messages)
    && (!purged ==> logged == s.messages)
  }

  ghost predicate OneOwner(messages: seq<Message>) {
    forall i :: 0 <= i < |messages| ==> messages[i].user == messages[0].user
  }

  ghost predicate LogOk(tenant: string, log: seq<Event>) {
    forall i :: 0 <= i < |log| && log[i].tenant == tenant && Replayed(log[i]) ==> Valid(log[i])
  }

  ghost predicate Inv(learn: Learn, tenant: string, w: World) {
    && LogOk(tenant, w.log)
    && AllAgree(learn, tenant, w.states, w.log, w.purged)
    && AllOneOwner(tenant, w.log)
    && AllPendingLoaded(w.states, w.pending)
  }

  ghost predicate AllAgree(learn: Learn, tenant: string, states: States, log: seq<Event>, purged: bool) {
    forall c :: c in states ==> Agrees(learn, tenant, c, states[c], Logged(log, tenant, c), purged)
  }

  ghost predicate AllOneOwner(tenant: string, log: seq<Event>) {
    forall c :: OneOwner(Logged(log, tenant, c))
  }

  ghost predicate AllPendingLoaded(states: States, pending: multiset<Turn>) {
    forall t :: t in pending ==> t.conversation in states && states[t.conversation].user == t.user
  }

  // ---------------------------------------------------------------- listings

  lemma {:induction false} LoggedIsListed(log: seq<Event>, tenant: string, c: string)
    ensures Messages(Listing(log, tenant, c)) == Logged(log, tenant, c)
  {
    if log != [] {
      LoggedIsListed(log[..|log| - 1], tenant, c);
      MessagesAppend(Listing(log[..|log| - 1], tenant, c), log[|log| - 1]);
    }
  }

  lemma MessagesAppend(events: seq<Event>, e: Event)
    ensures Messages(events + [e]) == Messages(events) + if e.body.Said? then [e.body.message] else []
  {
    assert (events + [e])[..|events|] == events;
  }

  lemma LoggedAppend(log: seq<Event>, e: Event, tenant: string, c: string)
    ensures Logged(log + [e], tenant, c)
         == Logged(log, tenant, c)
            + if e.tenant == tenant && e.conversation == c && e.body.Said? then [e.body.message] else []
  {
    assert (log + [e])[..|log|] == log;
  }

  lemma {:induction false} LoggedConcat(a: seq<Event>, b: seq<Event>, tenant: string, c: string)
    ensures Logged(a + b, tenant, c) == Logged(a, tenant, c) + Logged(b, tenant, c)
  {
    if b == [] {
      assert a + b == a;
    } else {
      var b', e := b[..|b| - 1], b[|b| - 1];
      LoggedConcat(a, b', tenant, c);
      assert a + b == (a + b') + [e] && b == b' + [e];
      LoggedAppend(a + b', e, tenant, c);
      LoggedAppend(b', e, tenant, c);
    }
  }

  lemma {:induction false} KeptIsForeign(log: seq<Event>, tenant: string)
    ensures forall i :: 0 <= i < |Kept(log, tenant)| ==> Kept(log, tenant)[i].tenant != tenant
  {
    if log != [] {
      KeptIsForeign(log[..|log| - 1], tenant);
    }
  }

  lemma {:induction false} ForeignLogsNothing(log: seq<Event>, tenant: string, c: string)
    requires forall i :: 0 <= i < |log| ==> log[i].tenant != tenant
    ensures Logged(log, tenant, c) == []
  {
    if log != [] {
      ForeignLogsNothing(log[..|log| - 1], tenant, c);
    }
  }

  // Listed events belong to the conversation, come from the log, and are valid when the log is.
  lemma {:induction false} ListingFits(log: seq<Event>, tenant: string, c: string, i: nat)
    requires LogOk(tenant, log) && i < |Listing(log, tenant, c)|
    ensures var e := Listing(log, tenant, c)[i]; e.tenant == tenant && e.conversation == c && Replayed(e) && Valid(e)
  {
    if i < |Listing(log[..|log| - 1], tenant, c)| {
      ListingFits(log[..|log| - 1], tenant, c, i);
    }
  }

  lemma {:induction false} MessagesFrom(events: seq<Event>, i: nat) returns (j: nat)
    requires i < |Messages(events)|
    ensures j < |events| && events[j].body == Said(Messages(events)[i])
  {
    var init := events[..|events| - 1];
    if i < |Messages(init)| {
      j := MessagesFrom(init, i);
    } else {
      j := |events| - 1;
    }
  }

  // ---------------------------------------------------------------- replay

  // A conversation's entry alone, absent when it has no messages.
  function Entry(learn: Learn, tenant: string, c: string, user: string, messages: seq<Message>): States {
    if messages == [] then map[] else map[c := StateOf(learn, tenant, c, user, messages)]
  }

  lemma AddBuilds(learn: Learn, tenant: string, c: string, user: string, before: seq<Message>, m: Message)
    requires m.tenant == tenant && m.conversation == c && m.user == user
    ensures AddMessage(learn, Entry(learn, tenant, c, user, before), m)
            == Ok(Entry(learn, tenant, c, user, before + [m]))
  {
    assert (before + [m])[..|before|] == before;
    var thread := if m.role == User then learn(Learned(learn, before), before + [m], m.content)
        else Learned(learn, before);
    assert Learned(learn, before + [m]) == thread;
    var r := AddMessage(learn, Entry(learn, tenant, c, user, before), m);
    assert r.Ok? && r.value[c].messages == before + [m];
    assert r.value == map[c := StateOf(learn, tenant, c, user, before + [m])];
  }

  // Replaying well-formed events of one owner builds that owner's state.
  lemma {:induction false} ReplayAllBuilds(learn: Learn, tenant: string, c: string, user: string, events: seq<Event>)
    requires forall i :: 0 <= i < |events| ==>
            events[i].tenant == tenant && events[i].conversation == c && Valid(events[i])
    requires OwnedBy(Messages(events), tenant, c, user)
    ensures ReplayAll(learn, c, events) == Ok(Entry(learn, tenant, c, user, Messages(events)))
  {
    if events != [] {
      var init, e := events[..|events| - 1], events[|events| - 1];
      var before := Messages(init);
      assert OwnedBy(before, tenant, c, user) by {
        forall i | 0 <= i < |before| ensures before[i] == Messages(events)[i] {}
      }
      ReplayAllBuilds(learn, tenant, c, user, init);
      if e.body.Said? {
        assert Messages(events)[|before|] == e.body.message;
        AddBuilds(learn, tenant, c, user, before, e.body.message);
      }
    }
  }

  /** Hydrating a conversation that is not loaded: what it yields in every case. */
  lemma HydrateOutcome(learn: Learn, tenant: string, w: World, c: string, user: string)
    requires Inv(learn, tenant, w) && c !in w.states
    ensures Hydrate(learn, tenant, w.states, w.log, c, user)
         == (var logged := Logged(w.log, tenant, c);
             if Listing(w.log, tenant, c) == [] then Ok(w.states)
             else if c == "" || logged == [] then Raised(ValueError)
             else if logged[0].user != user then Raised(PermissionError)
             else Ok(w.states[c := StateOf(learn, tenant, c, user, logged)]))
    ensures Logged(w.log, tenant, c) != [] ==>
            OwnedBy(Logged(w.log, tenant, c), tenant, c, Logged(w.log, tenant, c)[0].user)
  {
    var events := Listing(w.log, tenant, c);
    var logged := Logged(w.log, tenant, c);
    LoggedIsListed(w.log, tenant, c);
    forall i | 0 <= i < |events|
      ensures events[i].tenant == tenant && events[i].conversation == c && Valid(events[i])
    {
      ListingFits(w.log, tenant, c, i);
    }
    forall i | 0 <= i < |logged| ensures logged[i].tenant == tenant && logged[i].conversation == c {
      var j := MessagesFrom(events, i);
    }
    if events != [] {
      var owner := if logged == [] then "" else logged[0].user;
      assert OneOwner(Logged(w.log, tenant, c));
      ReplayAllBuilds(learn, tenant, c, owner, events);
    }
  }

  // ---------------------------------------------------------------- steps keep the invariant

  lemma EmptyInv(learn: Learn, tenant: string)
    ensures Inv(learn, tenant, EMPTY)
  {
  }

  lemma RebuiltAgrees(learn: Learn, tenant: string, c: string, user: string, logged: seq<Message>, purged: bool)
    requires logged != [] && OwnedBy(logged, tenant, c, user)
    ensures Agrees(learn, tenant, c, StateOf(learn, tenant, c, user, logged), logged, purged)
  {
  }

  // Replacing one conversation's state and log by an agreeing pair.
  lemma GrownAgree(learn: Learn, tenant: string, states: States, log: seq<Event>, log': seq<Event>, purged: bool,
                   c: string, s: State)
    requires AllAgree(learn, tenant, states, log, purged)
    requires forall d :: d != c ==> Logged(log', tenant, d) == Logged(log, tenant, d)
    requires Agrees(learn, tenant, c, s, Logged(log', tenant, c), purged)
    ensures AllAgree(learn, tenant, states[c := s], log', purged)
  {
    forall d | d in states[c := s]
      ensures Agrees(learn, tenant, d, states[c := s][d], Logged(log', tenant, d), purged)
    {
      if d != c {
        assert Agrees(learn, tenant, d, states[d], Logged(log, tenant, d), purged);
        assert Logged(log', tenant, d) == Logged(log, tenant, d);
      }
    }
  }

  lemma GrownOneOwner(tenant: string, log: seq<Event>, log': seq<Event>, c: string)
    requires AllOneOwner(tenant, log) && OneOwner(Logged(log', tenant, c))
    requires forall d :: d != c ==> Logged(log', tenant, d) == Logged(log, tenant, d)
    ensures AllOneOwner(tenant, log')
  {
    forall d ensures OneOwner(Logged(log', tenant, d)) {
      assert OneOwner(Logged(log, tenant, d));
      if d != c {
        assert Logged(log', tenant, d) == Logged(log, tenant, d);
      }
    }
  }

  lemma GrownPending(states: States, pending: multiset<Turn>, c: string, s: State)
    requires AllPendingLoaded(states, pending) && (c in states ==> s.user == states[c].user)
    ensures AllPendingLoaded(states[c := s], pending)
  {
  }

  // The user may go on with `c`: it is loaded as theirs, or nothing is logged for it.
  ghost predicate MaySay(tenant: string, w: World, c: string, user: string) {
    if c in w.states then w.states[c].user == user else Logged(w.log, tenant, c) == []
  }

  lemma LoadKeepsInv(learn: Learn, tenant: string, w: World, c: string, user: string)
    requires Inv(learn, tenant, w) && c !in w.states
    requires Logged(w.log, tenant, c) != [] && OwnedBy(Logged(w.log, tenant, c), tenant, c, user)
    ensures Inv(learn, tenant, w.(states := w.states[c := StateOf(learn, tenant, c, user, Logged(w.log, tenant, c))]))
  {
    var logged := Logged(w.log, tenant, c);
    var s := StateOf(learn, tenant, c, user, logged);
    RebuiltAgrees(learn, tenant, c, user, logged, w.purged);
    GrownAgree(learn, tenant, w.states, w.log, w.log, w.purged, c, s);
    GrownPending(w.states, w.pending, c, s);
  }

  // What an unloaded conversation hydrates to, when it does.
  lemma HydratedStates(learn: Learn, tenant: string, w: World, c: string, user: string)
    requires Inv(learn, tenant, w) && c !in w.states && Hydrate(learn, tenant, w.states, w.log, c, user).Ok?
    ensures var logged := Logged(w.log, tenant, c);
            if logged == [] then Hydrate(learn, tenant, w.states, w.log, c, user).value == w.states
            else
              && Hydrate(learn, tenant, w.states, w.log, c, user).value
                 == w.states[c := StateOf(learn, tenant, c, user, logged)]
              && OwnedBy(logged, tenant, c, user)
  {
    HydrateOutcome(learn, tenant, w, c, user);
    LoggedIsListed(w.log, tenant, c);
  }

  // Hydration keeps what is loaded; a conversation it leaves unloaded has nothing logged.
  lemma HydrateKeepsInv(learn: Learn, tenant: string, w: World, c: string, user: string)
    requires Inv(learn, tenant, w) && Hydrate(learn, tenant, w.states, w.log, c, user).Ok?
    ensures var states := Hydrate(learn, tenant, w.states, w.log, c, user).value;
            && Inv(learn, tenant, w.(states := states))
            && MaySay(tenant, w.(states := states), c, user)
  {
    if c !in w.states {
      HydratedStates(learn, tenant, w, c, user);
      if Logged(w.log, tenant, c) != [] {
        LoadKeepsInv(learn, tenant, w, c, user);
      }
    }
  }

  // A logged message, the run event after an answer, and unrelated events all keep the log well formed.
  lemma LogOkAppend(tenant: string, log: seq<Event>, e: Event)
    requires LogOk(tenant, log) && (e.tenant == tenant && Replayed(e) ==> Valid(e))
    ensures LogOk(tenant, log + [e])
  {
  }

  lemma UnloggedEventKeepsInv(learn: Learn, tenant: string, w: World, e: Event)
    requires Inv(learn, tenant, w) && (e.tenant == tenant && Replayed(e) ==> e.body.RunCompleted? && Valid(e))
    ensures Inv(learn, tenant, w.(log := w.log + [e]))
  {
    LogOkAppend(tenant, w.log, e);
    forall c ensures Logged(w.log + [e], tenant, c) == Logged(w.log, tenant, c) {
      LoggedAppend(w.log, e, tenant, c);
    }
  }

  lemma {:induction false} UnrelatedKeepInv(learn: Learn, tenant: string, w: World, events: seq<Event>)
    requires Inv(learn, tenant, w) && AllUnrelated(tenant, events)
    ensures Inv(learn, tenant, w.(log := w.log + events))
  {
    if events == [] {
      assert w.log + events == w.log;
    } else {
      var init, e := events[..|events| - 1], events[|events| - 1];
      UnrelatedKeepInv(learn, tenant, w, init);
      UnloggedEventKeepsInv(learn, tenant, w.(log := w.log + init), e);
      assert w.log + init + [e] == w.log + events;
    }
  }

  lemma SaidAgrees(learn: Learn, tenant: string, c: string, s: State, logged: seq<Message>, purged: bool, m: Message)
    requires Agrees(learn, tenant, c, s, logged, purged) && m.tenant == tenant && m.conversation == c
            && m.user == s.user
    ensures Agrees(learn, tenant, c, StateOf(learn, tenant, c, s.user, s.messages + [m]), logged + [m], purged)
  {
  }

  lemma OneOwnerAppend(messages: seq<Message>, m: Message)
    requires OneOwner(messages) && (messages != [] ==> messages[0].user == m.user)
    ensures OneOwner(messages + [m])
  {
  }

  // What remembering does to the one entry it touches.
  lemma AddMessageOutcome(learn: Learn, tenant: string, states: States, m: Message, before: seq<Message>)
    requires m.tenant == tenant
    requires if m.conversation in states
            then states[m.conversation] == StateOf(learn, tenant, m.conversation, m.user, before)
             else before == []
    ensures AddMessage(learn, states, m)
         == Ok(states[m.conversation := StateOf(learn, tenant, m.conversation, m.user, before + [m])])
  {
    assert (before + [m])[..|before|] == before;
    var thread := if m.role == User then learn(Learned(learn, before), before + [m], m.content)
        else Learned(learn, before);
    assert Learned(learn, before + [m]) == thread;
  }

  lemma SaidState(learn: Learn, tenant: string, w: World, m: Message) returns (s: State)
    requires Inv(learn, tenant, w) && m.tenant == tenant && MaySay(tenant, w, m.conversation, m.user)
    ensures AddMessage(learn, w.states, m) == Ok(w.states[m.conversation := s]) && s.user == m.user
    ensures m.conversation in w.states ==> s.user == w.states[m.conversation].user
    ensures Agrees(learn, tenant, m.conversation, s, Logged(w.log, tenant, m.conversation) + [m], w.purged)
    ensures OneOwner(Logged(w.log, tenant, m.conversation) + [m])
  {
    var c := m.conversation;
    var logged := Logged(w.log, tenant, c);
    var before := if c in w.states then w.states[c].messages else [];
    s := StateOf(learn, tenant, c, m.user, before + [m]);
    assert OneOwner(logged);
    if c in w.states {
      assert Agrees(learn, tenant, c, w.states[c], logged, w.purged);
      SaidAgrees(learn, tenant, c, w.states[c], logged, w.purged, m);
      OwnerOfLogged(learn, tenant, c, w.states[c], logged, w.purged);
    } else {
      RebuiltAgrees(learn, tenant, c, m.user, [m], w.purged);
    }
    AddMessageOutcome(learn, tenant, w.states, m, before);
    OneOwnerAppend(logged, m);
  }

  lemma SaidLog(tenant: string, log: seq<Event>, m: Message)
    requires m.tenant == tenant
    ensures Logged(log + [EventOf(m)], tenant, m.conversation) == Logged(log, tenant, m.conversation) + [m]
    ensures forall d :: d != m.conversation ==> Logged(log + [EventOf(m)], tenant, d) == Logged(log, tenant, d)
  {
    LoggedAppend(log, EventOf(m), tenant, m.conversation);
    forall d | d != m.conversation ensures Logged(log + [EventOf(m)], tenant, d) == Logged(log, tenant, d) {
      LoggedAppend(log, EventOf(m), tenant, d);
    }
  }

  lemma SaidKeepsInv(learn: Learn, tenant: string, w: World, m: Message, s: State)
    requires Inv(learn, tenant, w) && m.tenant == tenant
    requires m.conversation in w.states ==> s.user == w.states[m.conversation].user
    requires Agrees(learn, tenant, m.conversation, s, Logged(w.log, tenant, m.conversation) + [m], w.purged)
    requires OneOwner(Logged(w.log, tenant, m.conversation) + [m])
    ensures Inv(learn, tenant, World(w.states[m.conversation := s], w.log + [EventOf(m)], w.pending, w.purged))
  {
    var log' := w.log + [EventOf(m)];
    LogOkAppend(tenant, w.log, EventOf(m));
    SaidLog(tenant, w.log, m);
    GrownAgree(learn, tenant, w.states, w.log, log', w.purged, m.conversation, s);
    GrownOneOwner(tenant, w.log, log', m.conversation);
    GrownPending(w.states, w.pending, m.conversation, s);
  }

  // Remembering and logging a message of the conversation's owner.
  lemma SayKeepsInv(learn: Learn, tenant: string, w: World, m: Message) returns (s: State)
    requires Inv(learn, tenant, w) && m.tenant == tenant && MaySay(tenant, w, m.conversation, m.user)
    ensures AddMessage(learn, w.states, m) == Ok(w.states[m.conversation := s]) && s.user == m.user
    ensures Inv(learn, tenant, World(w.states[m.conversation := s], w.log + [EventOf(m)], w.pending, w.purged))
  {
    s := SaidState(learn, tenant, w, m);
    SaidKeepsInv(learn, tenant, w, m, s);
  }

  lemma OwnerOfLogged(learn: Learn, tenant: string, c: string, s: State, logged: seq<Message>, purged: bool)
    requires Agrees(learn, tenant, c, s, logged, purged)
    ensures OwnedBy(logged, tenant, c, s.user)
  {
    forall i | 0 <= i < |logged| ensures logged[i] == s.messages[|s.messages| - |logged| + i] {}
  }

  lemma PurgedKeepsSuffix(log: seq<Event>, tenant: string, cut: nat, c: string)
    requires cut <= |log|
    ensures IsSuffix(Logged(Purged(log, tenant, cut), tenant, c), Logged(log, tenant, c))
  {
    assert log == log[..cut] + log[cut..];
    LoggedConcat(log[..cut], log[cut..], tenant, c);
    LoggedConcat(Kept(log[..cut], tenant), log[cut..], tenant, c);
    KeptIsForeign(log[..cut], tenant);
    ForeignLogsNothing(Kept(log[..cut], tenant), tenant, c);
  }

  lemma PurgedLogOk(tenant: string, log: seq<Event>, cut: nat)
    requires cut <= |log| && LogOk(tenant, log)
    ensures LogOk(tenant, Purged(log, tenant, cut))
  {
    var kept := Kept(log[..cut], tenant);
    KeptIsForeign(log[..cut], tenant);
    forall i | |kept| <= i < |kept + log[cut..]| ensures (kept + log[cut..])[i] == log[cut + i - |kept|] {}
  }

  // Losing the oldest messages keeps what was said of all of them.
  lemma ShrunkAgree(learn: Learn, tenant: string, states: States, log: seq<Event>, log': seq<Event>, purged: bool)
    requires AllAgree(learn, tenant, states, log, purged) && AllOneOwner(tenant, log)
    requires forall c :: IsSuffix(Logged(log', tenant, c), Logged(log, tenant, c))
    ensures AllAgree(learn, tenant, states, log', true) && AllOneOwner(tenant, log')
  {
    forall c ensures OneOwner(Logged(log', tenant, c)) {
      assert OneOwner(Logged(log, tenant, c));
      SuffixKeepsOwner(Logged(log, tenant, c), Logged(log', tenant, c));
    }
    forall c | c in states ensures Agrees(learn, tenant, c, states[c], Logged(log', tenant, c), true) {
      assert Agrees(learn, tenant, c, states[c], Logged(log, tenant, c), purged);
      SuffixTransitive(Logged(log', tenant, c), Logged(log, tenant, c), states[c].messages);
    }
  }

  lemma PurgeKeepsInv(learn: Learn, tenant: string, w: World, cut: nat)
    requires Inv(learn, tenant, w) && cut <= |w.log|
    ensures Inv(learn, tenant, w.(log := Purged(w.log, tenant, cut), purged := true))
  {
    PurgedLogOk(tenant, w.log, cut);
    forall c ensures IsSuffix(Logged(Purged(w.log, tenant, cut), tenant, c), Logged(w.log, tenant, c)) {
      PurgedKeepsSuffix(w.log, tenant, cut, c);
    }
    ShrunkAgree(learn, tenant, w.states, w.log, Purged(w.log, tenant, cut), w.purged);
  }

  lemma SuffixKeepsOwner(a: seq<Message>, b: seq<Message>)
    requires OneOwner(a) && IsSuffix(b, a)
    ensures OneOwner(b)
  {
    forall i | 0 <= i < |b| ensures b[i].user == a[0].user {
      assert b[i] == a[|a| - |b| + i];
    }
  }

  lemma SuffixTransitive<T>(a: seq<T>, b: seq<T>, c: seq<T>)
    requires IsSuffix(a, b) && IsSuffix(b, c)
    ensures IsSuffix(a, c)
  {
  }

  lemma PendingKeepsInv(learn: Learn, tenant: string, w: World, pending: multiset<Turn>)
    requires Inv(learn, tenant, w) && AllPendingLoaded(w.states, pending)
    ensures Inv(learn, tenant, w.(pending := pending))
  {
  }

  lemma BegunPending(states: States, pending: multiset<Turn>, t: Turn)
    requires AllPendingLoaded(states, pending) && t.conversation in states && states[t.conversation].user == t.user
    ensures AllPendingLoaded(states, pending + multiset{t})
  {
  }

  lemma EndedPending(states: States, pending: multiset<Turn>, t: Turn)
    requires AllPendingLoaded(states, pending)
    ensures AllPendingLoaded(states, pending - multiset{t})
  {
  }

  // The world a turn leaves at its first await, from the hydrated one.
  lemma BegunWorld(learn: Learn, tenant: string, w: World, t: Turn, m: Message) returns (w': World)
    requires Inv(learn, tenant, w) && MaySay(tenant, w, t.conversation, t.user)
    requires m.tenant == tenant && m.conversation == t.conversation && m.user == t.user
    ensures Inv(learn, tenant, w') && w'.pending == w.pending + multiset{t} && w'.purged == w.purged
    ensures AddMessage(learn, w.states, m) == Ok(w'.states) && w'.log == w.log + [EventOf(m)]
  {
    var s := SayKeepsInv(learn, tenant, w, m);
    var said := World(w.states[t.conversation := s], w.log + [EventOf(m)], w.pending, w.purged);
    BegunPending(said.states, said.pending, t);
    PendingKeepsInv(learn, tenant, said, said.pending + multiset{t});
    w' := said.(pending := said.pending + multiset{t});
  }

  lemma StartKeepsInv(learn: Learn, tenant: string, w: World, c: string, user: string, content: string)
    requires Inv(learn, tenant, w)
    ensures Inv(learn, tenant, Next(learn, tenant, w, Start(c, user, content)))
  {
    var h := Hydrate(learn, tenant, w.states, w.log, c, user);
    if h.Ok? {
      HydrateKeepsInv(learn, tenant, w, c, user);
      var w' := BegunWorld(learn, tenant, w.(states := h.value), Turn(c, user),
                           Message(tenant, c, user, User, content));
      assert Next(learn, tenant, w, Start(c, user, content)) == w';
    }
  }

  // The world a turn leaves at its end.
  lemma FinishedWorld(learn: Learn, tenant: string, w: World, t: Turn, answer: string, meanwhile: seq<Event>)
    returns (w': World)
    requires Inv(learn, tenant, w) && t in w.pending && AllUnrelated(tenant, meanwhile)
    ensures Inv(learn, tenant, w') && w'.pending == w.pending - multiset{t} && w'.purged == w.purged
    ensures Finalize(learn, tenant, w.states, w.log, t.conversation, t.user, answer, meanwhile)
         == Effect(w'.states, w'.log, Ok(()))
  {
    var m, run := Message(tenant, t.conversation, t.user, Assistant, answer), RunEvent(tenant, t.conversation, t.user);
    var s := SayKeepsInv(learn, tenant, w, m);
    var said := World(w.states[t.conversation := s], w.log + [EventOf(m)], w.pending, w.purged);
    UnrelatedKeepInv(learn, tenant, said, meanwhile);
    var ran := said.(log := said.log + meanwhile);
    UnloggedEventKeepsInv(learn, tenant, ran, run);
    EndedPending(ran.states, ran.pending, t);
    PendingKeepsInv(learn, tenant, ran.(log := ran.log + [run]), ran.pending - multiset{t});
    w' := ran.(log := ran.log + [run], pending := ran.pending - multiset{t});
  }

  /** The end of a suspended turn never meets another owner: its message is always remembered and logged. */
  lemma FinishSucceeds(learn: Learn, tenant: string, w: World, t: Turn, answer: string, meanwhile: seq<Event>)
    requires Inv(learn, tenant, w) && t in w.pending && AllUnrelated(tenant, meanwhile)
    ensures Finalize(learn, tenant, w.states, w.log, t.conversation, t.user, answer, meanwhile).error == Ok(())
    ensures Inv(learn, tenant, Next(learn, tenant, w, Finish(t, answer, meanwhile)))
  {
    var w' := FinishedWorld(learn, tenant, w, t, answer, meanwhile);
    assert Next(learn, tenant, w, Finish(t, answer, meanwhile)) == w';
  }

  lemma FinishKeepsInv(learn: Learn, tenant: string, w: World, t: Turn, text: string, meanwhile: seq<Event>)
    requires Inv(learn, tenant, w)
    ensures Inv(learn, tenant, Next(learn, tenant, w, Finish(t, text, meanwhile)))
  {
    if t in w.pending && AllUnrelated(tenant, meanwhile) {
      FinishSucceeds(learn, tenant, w, t, text, meanwhile);
    }
  }

  lemma AbandonKeepsInv(learn: Learn, tenant: string, w: World, t: Turn)
    requires Inv(learn, tenant, w)
    ensures Inv(learn, tenant, Next(learn, tenant, w, Abandon(t)))
  {
    EndedPending(w.states, w.pending, t);
    PendingKeepsInv(learn, tenant, w, w.pending - multiset{t});
  }

  lemma AppendKeepsInv(learn: Learn, tenant: string, w: World, e: Event)
    requires Inv(learn, tenant, w)
    ensures Inv(learn, tenant, Next(learn, tenant, w, Append(e)))
  {
    if Unrelated(tenant, e) {
      UnloggedEventKeepsInv(learn, tenant, w, e);
    }
  }

  lemma CutKeepsInv(learn: Learn, tenant: string, w: World, cut: nat)
    requires Inv(learn, tenant, w)
    ensures Inv(learn, tenant, Next(learn, tenant, w, Purge(cut)))
  {
    if cut <= |w.log| {
      PurgeKeepsInv(learn, tenant, w, cut);
    }
  }

  lemma RestartKeepsInv(learn: Learn, tenant: string, w: World)
    requires Inv(learn, tenant, w)
    ensures Inv(learn, tenant, Next(learn, tenant, w, Restart))
  {
  }

  lemma NextKeepsInv(learn: Learn, tenant: string, w: World, step: Step)
    requires Inv(learn, tenant, w)
    ensures Inv(learn, tenant, Next(learn, tenant, w, step))
  {
    match step
    case Start(c, u, text) => StartKeepsInv(learn, tenant, w, c, u, text);
    case Finish(t, text, meanwhile) => FinishKeepsInv(learn, tenant, w, t, text, meanwhile);
    case Abandon(t) => AbandonKeepsInv(learn, tenant, w, t);
    case List(c, u) => ListKeepsInv(learn, tenant, w, c, u);
    case Append(e) => AppendKeepsInv(learn, tenant, w, e);
    case Purge(cut) => CutKeepsInv(learn, tenant, w, cut);
    case Restart => RestartKeepsInv(learn, tenant, w);
  }

  lemma ListKeepsInv(learn: Learn, tenant: string, w: World, c: string, user: string)
    requires Inv(learn, tenant, w)
    ensures Inv(learn, tenant, Next(learn, tenant, w, List(c, user)))
  {
    if Hydrate(learn, tenant, w.states, w.log, c, user).Ok? {
      HydrateKeepsInv(learn, tenant, w, c, user);
    }
  }

  lemma {:induction false} RunKeepsInv(learn: Learn, tenant: string, steps: seq<Step>)
    ensures Inv(learn, tenant, Run(learn, tenant, steps))
  {
    if steps == [] {
      EmptyInv(learn, tenant);
    } else {
      RunKeepsInv(learn, tenant, steps[..|steps| - 1]);
      NextKeepsInv(learn, tenant, Run(learn, tenant, steps[..|steps| - 1]), steps[|steps| - 1]);
    }
  }

  // ---------------------------------------------------------------- theorems

  lemma StaysUnpurged(learn: Learn, tenant: string, w: World, step: Step)
    requires !w.purged && !step.Purge?
    ensures !Next(learn, tenant, w, step).purged
  {
  }

  lemma {:induction false} PurgedOnlyByPurge(learn: Learn, tenant: string, steps: seq<Step>)
    requires forall i :: 0 <= i < |steps| ==> !steps[i].Purge?
    ensures !Run(learn, tenant, steps).purged
  {
    if steps != [] {
      var init := steps[..|steps| - 1];
      PurgedOnlyByPurge(learn, tenant, init);
      StaysUnpurged(learn, tenant, Run(learn, tenant, init), steps[|steps| - 1]);
    }
  }

  /** Memory is the log: without retention the loaded messages are exactly the logged ones, in order. */
  lemma MemoryIsTheLog(learn: Learn, tenant: string, steps: seq<Step>, c: string)
    requires forall i :: 0 <= i < |steps| ==> !steps[i].Purge?
    requires c in Run(learn, tenant, steps).states
    ensures Run(learn, tenant, steps).states[c].messages == Logged(Run(learn, tenant, steps).log, tenant, c)
  {
    RunKeepsInv(learn, tenant, steps);
    PurgedOnlyByPurge(learn, tenant, steps);
  }

  /** With retention, what is left of the log is the end of what is loaded. */
  lemma LogIsTheEndOfMemory(learn: Learn, tenant: string, steps: seq<Step>, c: string)
    requires c in Run(learn, tenant, steps).states
    ensures IsSuffix(Logged(Run(learn, tenant, steps).log, tenant, c), Run(learn, tenant, steps).states[c].messages)
  {
    RunKeepsInv(learn, tenant, steps);
  }

  /** One tenant and one user own every message of a conversation, loaded or only logged. */
  lemma StableOwnership(learn: Learn, tenant: string, steps: seq<Step>, c: string) returns (owner: string)
    ensures var w := Run(learn, tenant, steps);
            && OwnedBy(Logged(w.log, tenant, c), tenant, c, owner)
            && (c in w.states ==> w.states[c].tenant == tenant && w.states[c].user == owner
                                  && OwnedBy(w.states[c].messages, tenant, c, owner))
  {
    var w := Run(learn, tenant, steps);
    var logged := Logged(w.log, tenant, c);
    RunKeepsInv(learn, tenant, steps);
    if c in w.states {
      owner := w.states[c].user;
      OwnerOfLogged(learn, tenant, c, w.states[c], logged, w.purged);
    } else {
      owner := if logged == [] then "" else logged[0].user;
      HydrateOutcome(learn, tenant, w, c, owner);
    }
  }

  /** After a restart, in every run: hydrating for the owner rebuilds the very same state exactly when the
      identifier is not empty and the log still holds every loaded message. */
  lemma RestartRebuilds(learn: Learn, tenant: string, steps: seq<Step>, c: string)
    requires c in Run(learn, tenant, steps).states
    ensures var w := Run(learn, tenant, steps);
            Hydrate(learn, tenant, map[], w.log, c, w.states[c].user) == Ok(map[c := w.states[c]])
            <==> c != "" && Logged(w.log, tenant, c) == w.states[c].messages
  {
    var w := Run(learn, tenant, steps);
    RunKeepsInv(learn, tenant, steps);
    if Logged(w.log, tenant, c) == w.states[c].messages {
      RebuildAfterRestart(learn, tenant, w, c);
    } else {
      LostMessagesStayLost(learn, tenant, w, c);
    }
  }

  lemma LostMessagesStayLost(learn: Learn, tenant: string, w: World, c: string)
    requires Inv(learn, tenant, w) && c in w.states && Logged(w.log, tenant, c) != w.states[c].messages
    ensures Hydrate(learn, tenant, map[], w.log, c, w.states[c].user) != Ok(map[c := w.states[c]])
  {
    var restarted := w.(states := map[], pending := multiset{});
    var none: States := map[];
    assert Inv(learn, tenant, restarted);
    HydrateOutcome(learn, tenant, restarted, c, w.states[c].user);
    assert c !in none && c in map[c := w.states[c]];
    assert none[c := StateOf(learn, tenant, c, w.states[c].user, Logged(w.log, tenant, c))][c] != w.states[c];
  }

  /** Without retention it holds them all, so a restart loses nothing a turn was interpreted with, unless
      the identifier is empty, which replay refuses. */
  lemma UnpurgedRestartRebuilds(learn: Learn, tenant: string, steps: seq<Step>, c: string)
    requires forall i :: 0 <= i < |steps| ==> !steps[i].Purge?
    requires c in Run(learn, tenant, steps).states
    ensures Hydrate(learn, tenant, map[], Run(learn, tenant, steps).log, c, Run(learn, tenant, steps).states[c].user)
         == if c == "" then Raised(ValueError) else Ok(map[c := Run(learn, tenant, steps).states[c]])
  {
    var w := Run(learn, tenant, steps);
    MemoryIsTheLog(learn, tenant, steps, c);
    RunKeepsInv(learn, tenant, steps);
    RebuildAfterRestart(learn, tenant, w, c);
  }

  lemma RebuildAfterRestart(learn: Learn, tenant: string, w: World, c: string)
    requires Inv(learn, tenant, w) && c in w.states && Logged(w.log, tenant, c) == w.states[c].messages
    ensures Hydrate(learn, tenant, map[], w.log, c, w.states[c].user)
         == if c == "" then Raised(ValueError) else Ok(map[c := w.states[c]])
  {
    var s, restarted := w.states[c], w.(states := map[], pending := multiset{});
    assert Agrees(learn, tenant, c, s, Logged(w.log, tenant, c), w.purged);
    LoggedIsListed(w.log, tenant, c);
    assert Inv(learn, tenant, restarted);
    HydrateOutcome(learn, tenant, restarted, c, s.user);
    assert s.messages[0].user == s.user;
  }

  /** After retention, hydration of a conversation that is not loaded fails with a value error exactly
      when its identifier is empty or only run events of it are left. */
  lemma HydrationFailsIff(learn: Learn, tenant: string, steps: seq<Step>, c: string, user: string)
    requires c !in Run(learn, tenant, steps).states
    ensures Hydrate(learn, tenant, Run(learn, tenant, steps).states, Run(learn, tenant, steps).log, c, user)
            == Raised(ValueError)
       <==> Listing(Run(learn, tenant, steps).log, tenant, c) != []
            && (c == "" || Logged(Run(learn, tenant, steps).log, tenant, c) == [])
  {
    RunKeepsInv(learn, tenant, steps);
    HydrateOutcome(learn, tenant, Run(learn, tenant, steps), c, user);
  }

  // In a conversation's listing, an answer at `i` is followed at once by the run that gave it.
  predicate AnswerHasRun(listed: seq<Event>, tenant: string, i: nat)
    requires i < |listed|
  {
    listed[i].body.Said? && listed[i].body.message.role == Assistant ==>
      i + 1 < |listed| && listed[i + 1] == RunEvent(tenant, listed[i].conversation, listed[i].user)
  }

  predicate AnswersHaveRuns(listed: seq<Event>, tenant: string) {
    forall i :: 0 <= i < |listed| ==> AnswerHasRun(listed, tenant, i)
  }

  ghost predicate AllAnswersHaveRuns(log: seq<Event>, tenant: string) {
    forall c :: AnswersHaveRuns(Listing(log, tenant, c), tenant)
  }

  predicate Answer(e: Event) {
    e.body.Said? && e.body.message.role == Assistant
  }

  lemma ListingAppend(log: seq<Event>, e: Event, tenant: string, c: string)
    ensures Listing(log + [e], tenant, c)
         == Listing(log, tenant, c) + if e.tenant == tenant && e.conversation == c && Replayed(e) then [e] else []
  {
    assert (log + [e])[..|log|] == log;
  }

  lemma {:induction false} ListingConcat(a: seq<Event>, b: seq<Event>, tenant: string, c: string)
    ensures Listing(a + b, tenant, c) == Listing(a, tenant, c) + Listing(b, tenant, c)
  {
    if b == [] {
      assert a + b == a;
    } else {
      var b', e := b[..|b| - 1], b[|b| - 1];
      ListingConcat(a, b', tenant, c);
      assert a + b == (a + b') + [e] && b == b' + [e];
      ListingAppend(a + b', e, tenant, c);
      ListingAppend(b', e, tenant, c);
    }
  }

  lemma {:induction false} UnlistedEvents(events: seq<Event>, tenant: string, c: string)
    requires AllUnrelated(tenant, events)
    ensures Listing(events, tenant, c) == []
  {
    if events != [] {
      UnlistedEvents(events[..|events| - 1], tenant, c);
    }
  }

  lemma AppendKeepsRuns(listed: seq<Event>, tenant: string, e: Event)
    requires AnswersHaveRuns(listed, tenant) && !Answer(e)
    ensures AnswersHaveRuns(listed + [e], tenant)
  {
    forall i | 0 <= i < |listed + [e]| ensures AnswerHasRun(listed + [e], tenant, i) {
      assert i < |listed| ==> AnswerHasRun(listed, tenant, i);
    }
  }

  lemma AnswerKeepsRuns(listed: seq<Event>, tenant: string, m: Message)
    requires AnswersHaveRuns(listed, tenant) && m.tenant == tenant
    ensures AnswersHaveRuns(listed + [EventOf(m)] + [RunEvent(tenant, m.conversation, m.user)], tenant)
  {
    var listed' := listed + [EventOf(m)] + [RunEvent(tenant, m.conversation, m.user)];
    forall i | 0 <= i < |listed'| ensures AnswerHasRun(listed', tenant, i) {
      assert i < |listed| ==> AnswerHasRun(listed, tenant, i);
    }
  }

  lemma EventKeepsAllRuns(log: seq<Event>, tenant: string, e: Event)
    requires AllAnswersHaveRuns(log, tenant) && !(e.tenant == tenant && Answer(e))
    ensures AllAnswersHaveRuns(log + [e], tenant)
  {
    forall c ensures AnswersHaveRuns(Listing(log + [e], tenant, c), tenant) {
      assert AnswersHaveRuns(Listing(log, tenant, c), tenant);
      ListingAppend(log, e, tenant, c);
      if e.tenant == tenant {
        AppendKeepsRuns(Listing(log, tenant, c), tenant, e);
      }
    }
  }

  // What a finished turn adds to each listing, whatever was appended between its two writes.
  lemma FinishListed(log: seq<Event>, tenant: string, m: Message, meanwhile: seq<Event>, c: string)
    requires m.tenant == tenant && AllUnrelated(tenant, meanwhile)
    ensures Listing(log + [EventOf(m)] + meanwhile + [RunEvent(tenant, m.conversation, m.user)], tenant, c)
         == Listing(log, tenant, c)
            + if m.conversation == c then [EventOf(m)] + [RunEvent(tenant, m.conversation, m.user)] else []
  {
    ListingAppend(log, EventOf(m), tenant, c);
    ListingConcat(log + [EventOf(m)], meanwhile, tenant, c);
    UnlistedEvents(meanwhile, tenant, c);
    ListingAppend(log + [EventOf(m)] + meanwhile, RunEvent(tenant, m.conversation, m.user), tenant, c);
  }

  lemma FinishKeepsAllRuns(log: seq<Event>, tenant: string, m: Message, meanwhile: seq<Event>)
    requires AllAnswersHaveRuns(log, tenant) && m.tenant == tenant && AllUnrelated(tenant, meanwhile)
    ensures AllAnswersHaveRuns(log + [EventOf(m)] + meanwhile + [RunEvent(tenant, m.conversation, m.user)], tenant)
  {
    var log' := log + [EventOf(m)] + meanwhile + [RunEvent(tenant, m.conversation, m.user)];
    forall c ensures AnswersHaveRuns(Listing(log', tenant, c), tenant) {
      var listed := Listing(log, tenant, c);
      assert AnswersHaveRuns(listed, tenant);
      FinishListed(log, tenant, m, meanwhile, c);
      if m.conversation == c {
        AnswerKeepsRuns(listed, tenant, m);
        assert Listing(log', tenant, c) == listed + [EventOf(m)] + [RunEvent(tenant, m.conversation, m.user)];
      } else {
        assert Listing(log', tenant, c) == listed;
      }
    }
  }

  lemma SuffixKeepsRuns(listed: seq<Event>, rest: seq<Event>, tenant: string)
    requires AnswersHaveRuns(listed, tenant) && IsSuffix(rest, listed)
    ensures AnswersHaveRuns(rest, tenant)
  {
    var k := |listed| - |rest|;
    forall i | 0 <= i < |rest| ensures AnswerHasRun(rest, tenant, i) {
      assert AnswerHasRun(listed, tenant, k + i) && rest[i] == listed[k + i];
      assert i + 1 < |rest| ==> rest[i + 1] == listed[k + i + 1];
    }
  }

  lemma {:induction false} ForeignListsNothing(log: seq<Event>, tenant: string, c: string)
    requires forall i :: 0 <= i < |log| ==> log[i].tenant != tenant
    ensures Listing(log, tenant, c) == []
  {
    if log != [] {
      ForeignListsNothing(log[..|log| - 1], tenant, c);
    }
  }

  // Retention takes the oldest events of a listing.
  lemma PurgedListsSuffix(log: seq<Event>, tenant: string, cut: nat, c: string)
    requires cut <= |log|
    ensures IsSuffix(Listing(Purged(log, tenant, cut), tenant, c), Listing(log, tenant, c))
  {
    var kept := Kept(log[..cut], tenant);
    KeptIsForeign(log[..cut], tenant);
    assert log == log[..cut] + log[cut..];
    ForeignListsNothing(kept, tenant, c);
    ListingConcat(kept, log[cut..], tenant, c);
    ListingConcat(log[..cut], log[cut..], tenant, c);
  }

  lemma PurgeKeepsAllRuns(log: seq<Event>, tenant: string, cut: nat)
    requires AllAnswersHaveRuns(log, tenant) && cut <= |log|
    ensures AllAnswersHaveRuns(Purged(log, tenant, cut), tenant)
  {
    forall c ensures AnswersHaveRuns(Listing(Purged(log, tenant, cut), tenant, c), tenant) {
      assert AnswersHaveRuns(Listing(log, tenant, c), tenant);
      PurgedListsSuffix(log, tenant, cut, c);
      SuffixKeepsRuns(Listing(log, tenant, c), Listing(Purged(log, tenant, cut), tenant, c), tenant);
    }
  }

  /** In every run, retention included, every answer a conversation lists is followed at once by the run
      that gave it, whatever turns, restarts and other threads' events are interleaved. */
  lemma {:induction false} EveryAnswerHasItsRun(learn: Learn, tenant: string, steps: seq<Step>)
    ensures AllAnswersHaveRuns(Run(learn, tenant, steps).log, tenant)
  {
    if steps != [] {
      var w, step := Run(learn, tenant, steps[..|steps| - 1]), steps[|steps| - 1];
      EveryAnswerHasItsRun(learn, tenant, steps[..|steps| - 1]);
      StepKeepsAllRuns(learn, tenant, w, step);
    }
  }

  lemma StepKeepsAllRuns(learn: Learn, tenant: string, w: World, step: Step)
    requires AllAnswersHaveRuns(w.log, tenant)
    ensures AllAnswersHaveRuns(Next(learn, tenant, w, step).log, tenant)
  {
    match step
    case Start(c, u, text) => EventKeepsAllRuns(w.log, tenant, EventOf(Message(tenant, c, u, User, text)));
    case Finish(t, text, meanwhile) =>
      if AllUnrelated(tenant, meanwhile) {
        FinishKeepsAllRuns(w.log, tenant, Message(tenant, t.conversation, t.user, Assistant, text), meanwhile);
      }
    case Append(e) =>
      if Unrelated(tenant, e) {
        EventKeepsAllRuns(w.log, tenant, e);
      }
    case Purge(cut) =>
      if cut <= |w.log| {
        PurgeKeepsAllRuns(w.log, tenant, cut);
      }
    case Abandon(_) =>
    case List(_, _) =>
    case Restart =>
  }
}
