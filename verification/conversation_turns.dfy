/** What each turn of a conversation adds, to memory and to the log, and which event lists replay accepts. */
module ConversationTurns {
  import opened Conversation
  import opened ConversationSafety

  lemma RunStep(learn: Learn, tenant: string, steps: seq<Step>, step: Step)
    ensures Run(learn, tenant, steps + [step]) == Next(learn, tenant, Run(learn, tenant, steps), step)
  {
    assert (steps + [step])[..|steps|] == steps;
  }

  // ---------------------------------------------------------------- what a turn adds

  // Memory of one conversation after one more message, and of no other conversation.
  predicate Heard(learn: Learn, before: States, after: States, m: Message, messages: seq<Message>, thread: Thread) {
    && m.conversation in after && after == before[m.conversation := after[m.conversation]]
    && var s := after[m.conversation];
       && s.tenant == m.tenant && s.conversation == m.conversation && s.user == m.user
       && s.messages == messages + [m]
       && s.thread == if m.role == User then learn(thread, messages + [m], m.content) else thread
  }

  lemma AddHears(learn: Learn, tenant: string, w: World, m: Message)
    requires Inv(learn, tenant, w) && m.tenant == tenant && m.conversation in w.states
    requires w.states[m.conversation].user == m.user
    ensures AddMessage(learn, w.states, m).Ok?
    ensures Heard(learn, w.states, AddMessage(learn, w.states, m).value, m, w.states[m.conversation].messages,
                  w.states[m.conversation].thread)
  {
    var c := m.conversation;
    assert Agrees(learn, tenant, c, w.states[c], Logged(w.log, tenant, c), w.purged);
  }

  lemma AddOpens(learn: Learn, states: States, m: Message)
    requires m.conversation !in states
    ensures AddMessage(learn, states, m).Ok?
    ensures Heard(learn, states, AddMessage(learn, states, m).value, m, [], BLANK)
  {
    assert [] + [m] == [m];
  }

  /** In every run, a suspended turn that finishes adds exactly the answer, as the assistant's, and then its
      run, whatever other threads append in between; memory hears the answer and learns nothing from it. */
  lemma FinishAdds(learn: Learn, tenant: string, steps: seq<Step>, t: Turn, text: string, meanwhile: seq<Event>)
    requires t in Run(learn, tenant, steps).pending && AllUnrelated(tenant, meanwhile)
    ensures var w, w' := Run(learn, tenant, steps), Run(learn, tenant, steps + [Finish(t, text, meanwhile)]);
            var m := Message(tenant, t.conversation, t.user, Assistant, text);
            && w'.log == w.log + [Event(tenant, t.conversation, t.user, Said(m))] + meanwhile
                         + [Event(tenant, t.conversation, t.user, RunCompleted(tenant, t.conversation, t.user))]
            && w'.pending == w.pending - multiset{t} && t.conversation in w.states
            && Heard(learn, w.states, w'.states, m, w.states[t.conversation].messages, w.states[t.conversation].thread)
  {
    var w := Run(learn, tenant, steps);
    RunKeepsInv(learn, tenant, steps);
    RunStep(learn, tenant, steps, Finish(t, text, meanwhile));
    AddHears(learn, tenant, w, Message(tenant, t.conversation, t.user, Assistant, text));
  }

  /** So the listing of that conversation grows by exactly these two events, and no other listing grows. */
  lemma FinishLists(learn: Learn, tenant: string, steps: seq<Step>, t: Turn, text: string, meanwhile: seq<Event>,
                    c: string)
    requires t in Run(learn, tenant, steps).pending && AllUnrelated(tenant, meanwhile)
    ensures Listing(Run(learn, tenant, steps + [Finish(t, text, meanwhile)]).log, tenant, c)
         == Listing(Run(learn, tenant, steps).log, tenant, c)
            + if c != t.conversation then []
              else [Event(tenant, c, t.user, Said(Message(tenant, c, t.user, Assistant, text))),
                    Event(tenant, c, t.user, RunCompleted(tenant, c, t.user))]
  {
    var m := Message(tenant, t.conversation, t.user, Assistant, text);
    FinishAdds(learn, tenant, steps, t, text, meanwhile);
    ConversationSafety.FinishListed(Run(learn, tenant, steps).log, tenant, m, meanwhile, c);
    assert [EventOf(m)] + [RunEvent(tenant, m.conversation, m.user)]
        == [EventOf(m), RunEvent(tenant, m.conversation, m.user)];
  }

  // Who may speak: the owner of a loaded conversation, the owner of a logged one that has a name and
  // messages, and anyone in a new one.
  predicate MaySpeak(tenant: string, w: World, c: string, user: string) {
    if c in w.states then w.states[c].user == user
    else
      || Listing(w.log, tenant, c) == []
      || (c != "" && Logged(w.log, tenant, c) != [] && Logged(w.log, tenant, c)[0].user == user)
  }

  // The messages and thread facts a user's message is heard after.
  function MessagesBefore(tenant: string, w: World, c: string): seq<Message> {
    if c in w.states then w.states[c].messages else Logged(w.log, tenant, c)
  }

  function ThreadBefore(learn: Learn, tenant: string, w: World, c: string): Thread {
    if c in w.states then w.states[c].thread else Learned(learn, Logged(w.log, tenant, c))
  }

  lemma NothingListedNothingLogged(log: seq<Event>, tenant: string, c: string)
    requires Listing(log, tenant, c) == []
    ensures Logged(log, tenant, c) == []
  {
    LoggedIsListed(log, tenant, c);
  }

  // Hydration lets in exactly who may speak, and brings back what was logged.
  lemma HydratesForSpeaker(learn: Learn, tenant: string, w: World, c: string, user: string)
    requires Inv(learn, tenant, w)
    ensures Hydrate(learn, tenant, w.states, w.log, c, user).Ok? <==> MaySpeak(tenant, w, c, user)
    ensures MaySpeak(tenant, w, c, user) ==>
              Hydrate(learn, tenant, w.states, w.log, c, user).value
              == if c in w.states || Logged(w.log, tenant, c) == [] then w.states
                 else w.states[c := StateOf(learn, tenant, c, user, Logged(w.log, tenant, c))]
  {
    if c in w.states {
      assert Agrees(learn, tenant, c, w.states[c], Logged(w.log, tenant, c), w.purged);
    } else {
      HydrateOutcome(learn, tenant, w, c, user);
      LoggedIsListed(w.log, tenant, c);
    }
  }

  // What the entry of the conversation was before makes no difference to the others.
  lemma HeardOver(learn: Learn, states: States, s: State, after: States, m: Message, messages: seq<Message>,
                  thread: Thread)
    requires Heard(learn, states[m.conversation := s], after, m, messages, thread)
    ensures Heard(learn, states, after, m, messages, thread)
  {
    var c := m.conversation;
    assert states[c := s][c := after[c]] == states[c := after[c]];
  }

  lemma OwnerIsHeard(learn: Learn, tenant: string, w: World, m: Message)
    requires Inv(learn, tenant, w) && m.tenant == tenant && m.conversation !in w.states
    requires Logged(w.log, tenant, m.conversation) != [] && m.conversation != ""
    requires Logged(w.log, tenant, m.conversation)[0].user == m.user
    ensures var c, logged := m.conversation, Logged(w.log, tenant, m.conversation);
            var hydrated := w.states[c := StateOf(learn, tenant, c, m.user, logged)];
            && AddMessage(learn, hydrated, m).Ok?
            && Heard(learn, w.states, AddMessage(learn, hydrated, m).value, m, logged, Learned(learn, logged))
  {
    var c, logged := m.conversation, Logged(w.log, tenant, m.conversation);
    var s := StateOf(learn, tenant, c, m.user, logged);
    HydrateOutcome(learn, tenant, w, c, m.user);
    LoadKeepsInv(learn, tenant, w, c, m.user);
    AddHears(learn, tenant, w.(states := w.states[c := s]), m);
    HeardOver(learn, w.states, s, AddMessage(learn, w.states[c := s], m).value, m, logged, Learned(learn, logged));
  }

  lemma SpeakerIsHeard(learn: Learn, tenant: string, w: World, m: Message)
    requires Inv(learn, tenant, w) && MaySpeak(tenant, w, m.conversation, m.user) && m.tenant == tenant
    ensures var hydrated := Hydrate(learn, tenant, w.states, w.log, m.conversation, m.user);
            && hydrated.Ok? && AddMessage(learn, hydrated.value, m).Ok?
            && Heard(learn, w.states, AddMessage(learn, hydrated.value, m).value, m,
                     MessagesBefore(tenant, w, m.conversation), ThreadBefore(learn, tenant, w, m.conversation))
  {
    var c := m.conversation;
    HydratesForSpeaker(learn, tenant, w, c, m.user);
    if c in w.states {
      AddHears(learn, tenant, w, m);
    } else if Logged(w.log, tenant, c) == [] {
      AddOpens(learn, w.states, m);
    } else {
      if Listing(w.log, tenant, c) == [] {
        NothingListedNothingLogged(w.log, tenant, c);
      }
      OwnerIsHeard(learn, tenant, w, m);
    }
  }

  /** In every run, a message begins a turn exactly when its user may speak; then exactly that message, as the
      user's, is logged and heard, and otherwise nothing changes. */
  lemma StartAdds(learn: Learn, tenant: string, steps: seq<Step>, c: string, user: string, text: string)
    ensures var w, w' := Run(learn, tenant, steps), Run(learn, tenant, steps + [Start(c, user, text)]);
            var m := Message(tenant, c, user, User, text);
            if MaySpeak(tenant, w, c, user) then
              && w'.log == w.log + [Event(tenant, c, user, Said(m))]
                 && w'.pending == w.pending + multiset{Turn(c, user)}
              && Heard(learn, w.states, w'.states, m, MessagesBefore(tenant, w, c), ThreadBefore(learn, tenant, w, c))
            else w' == w
  {
    var w := Run(learn, tenant, steps);
    RunKeepsInv(learn, tenant, steps);
    RunStep(learn, tenant, steps, Start(c, user, text));
    HydratesForSpeaker(learn, tenant, w, c, user);
    if MaySpeak(tenant, w, c, user) {
      SpeakerIsHeard(learn, tenant, w, Message(tenant, c, user, User, text));
    }
  }

  // ---------------------------------------------------------------- every run has its answer

  // A listed run follows its answer at once; only retention can have taken the answer from the front.
  predicate RunHasAnswer(listed: seq<Event>, tenant: string, purged: bool, i: nat)
    requires i < |listed|
  {
    listed[i].body.RunCompleted? ==>
      if i == 0 then purged
      else listed[i - 1].body.Said? && listed[i - 1].body.message.role == Assistant
           && listed[i] == Event(tenant, listed[i - 1].conversation, listed[i - 1].user,
                                 RunCompleted(tenant, listed[i - 1].conversation, listed[i - 1].user))
  }

  predicate RunsHaveAnswers(listed: seq<Event>, tenant: string, purged: bool) {
    forall i :: 0 <= i < |listed| ==> RunHasAnswer(listed, tenant, purged, i)
  }

  ghost predicate AllRunsHaveAnswers(w: World, tenant: string) {
    forall c :: RunsHaveAnswers(Listing(w.log, tenant, c), tenant, w.purged)
  }

  lemma SaidKeepsAnswers(listed: seq<Event>, tenant: string, purged: bool, e: Event)
    requires RunsHaveAnswers(listed, tenant, purged) && !e.body.RunCompleted?
    ensures RunsHaveAnswers(listed + [e], tenant, purged)
  {
    forall i | 0 <= i < |listed + [e]| ensures RunHasAnswer(listed + [e], tenant, purged, i) {
      assert i < |listed| ==> RunHasAnswer(listed, tenant, purged, i);
    }
  }

  lemma AnsweredKeepsAnswers(listed: seq<Event>, tenant: string, purged: bool, m: Message)
    requires RunsHaveAnswers(listed, tenant, purged) && m.tenant == tenant && m.role == Assistant
    ensures RunsHaveAnswers(listed + ([EventOf(m)] + [RunEvent(tenant, m.conversation, m.user)]), tenant, purged)
  {
    var after := listed + ([EventOf(m)] + [RunEvent(tenant, m.conversation, m.user)]);
    forall i | 0 <= i < |after| ensures RunHasAnswer(after, tenant, purged, i) {
      assert i < |listed| ==> RunHasAnswer(listed, tenant, purged, i);
    }
  }

  lemma SuffixKeepsAnswers(listed: seq<Event>, rest: seq<Event>, tenant: string, purged: bool)
    requires RunsHaveAnswers(listed, tenant, purged) && IsSuffix(rest, listed)
    ensures RunsHaveAnswers(rest, tenant, true)
  {
    var k := |listed| - |rest|;
    forall i | 0 <= i < |rest| ensures RunHasAnswer(rest, tenant, true, i) {
      assert RunHasAnswer(listed, tenant, purged, k + i) && rest[i] == listed[k + i];
      assert i > 0 ==> rest[i - 1] == listed[k + i - 1];
    }
  }

  lemma AppendKeepsAnswers(w: World, tenant: string, e: Event)
    requires AllRunsHaveAnswers(w, tenant) && !(e.tenant == tenant && e.body.RunCompleted?)
    ensures AllRunsHaveAnswers(w.(log := w.log + [e]), tenant)
  {
    forall c ensures RunsHaveAnswers(Listing(w.log + [e], tenant, c), tenant, w.purged) {
      assert RunsHaveAnswers(Listing(w.log, tenant, c), tenant, w.purged);
      ListingAppend(w.log, e, tenant, c);
      if e.tenant == tenant {
        SaidKeepsAnswers(Listing(w.log, tenant, c), tenant, w.purged, e);
      }
    }
  }

  lemma FinishKeepsAnswers(w: World, tenant: string, m: Message, meanwhile: seq<Event>)
    requires AllRunsHaveAnswers(w, tenant) && m.tenant == tenant && m.role == Assistant
            && AllUnrelated(tenant, meanwhile)
    ensures var log' := w.log + [EventOf(m)] + meanwhile + [RunEvent(tenant, m.conversation, m.user)];
            AllRunsHaveAnswers(w.(log := log'), tenant)
  {
    var log' := w.log + [EventOf(m)] + meanwhile + [RunEvent(tenant, m.conversation, m.user)];
    forall c ensures RunsHaveAnswers(Listing(log', tenant, c), tenant, w.purged) {
      assert RunsHaveAnswers(Listing(w.log, tenant, c), tenant, w.purged);
      FinishListed(w.log, tenant, m, meanwhile, c);
      if m.conversation == c {
        AnsweredKeepsAnswers(Listing(w.log, tenant, c), tenant, w.purged, m);
      } else {
        assert Listing(log', tenant, c) == Listing(w.log, tenant, c);
      }
    }
  }

  lemma PurgeKeepsAnswers(w: World, tenant: string, cut: nat)
    requires AllRunsHaveAnswers(w, tenant) && cut <= |w.log|
    ensures AllRunsHaveAnswers(w.(log := Purged(w.log, tenant, cut), purged := true), tenant)
  {
    forall c ensures RunsHaveAnswers(Listing(Purged(w.log, tenant, cut), tenant, c), tenant, true) {
      assert RunsHaveAnswers(Listing(w.log, tenant, c), tenant, w.purged);
      PurgedListsSuffix(w.log, tenant, cut, c);
      SuffixKeepsAnswers(Listing(w.log, tenant, c), Listing(Purged(w.log, tenant, cut), tenant, c), tenant, w.purged);
    }
  }

  lemma StepKeepsAnswers(learn: Learn, tenant: string, w: World, step: Step)
    requires Inv(learn, tenant, w) && AllRunsHaveAnswers(w, tenant)
    ensures AllRunsHaveAnswers(Next(learn, tenant, w, step), tenant)
  {
    match step
    case Start(c, u, text) => AppendKeepsAnswers(w, tenant, EventOf(Message(tenant, c, u, User, text)));
    case Finish(t, text, meanwhile) =>
      if AllUnrelated(tenant, meanwhile) {
        FinishKeepsAnswers(w, tenant, Message(tenant, t.conversation, t.user, Assistant, text), meanwhile);
      }
    case Append(e) =>
      if Unrelated(tenant, e) {
        AppendKeepsAnswers(w, tenant, e);
      }
    case Purge(cut) =>
      if cut <= |w.log| {
        PurgeKeepsAnswers(w, tenant, cut);
      }
    case Abandon(_) =>
    case List(_, _) =>
    case Restart =>
  }

  /** In every run, every run a conversation lists is preceded at once by the answer it gave, to the same
      user; it stands first only when retention has taken its answer. */
  lemma {:induction false} EveryRunHasItsAnswer(learn: Learn, tenant: string, steps: seq<Step>)
    ensures AllRunsHaveAnswers(Run(learn, tenant, steps), tenant)
  {
    if steps != [] {
      var init, last := steps[..|steps| - 1], steps[|steps| - 1];
      EveryRunHasItsAnswer(learn, tenant, init);
      RunKeepsInv(learn, tenant, init);
      StepKeepsAnswers(learn, tenant, Run(learn, tenant, init), last);
    }
  }

  // ---------------------------------------------------------------- what replay accepts

  // An event that fits its conversation and its own payload.
  predicate Fits(e: Event, c: string) {
    && e.conversation == c
    && (e.body.Said? ==>
          && e.body.message.tenant == e.tenant && e.body.message.conversation == c
          && (e.user == "" || e.user == e.body.message.user))
    && (e.body.RunCompleted? ==>
          && e.body.runTenant == e.tenant && e.body.runConversation == c
          && (e.user == "" || e.user == e.body.runUser))
  }

  predicate AllFit(events: seq<Event>, c: string) {
    forall i :: 0 <= i < |events| ==> Fits(events[i], c)
  }

  predicate OneSpeaker(messages: seq<Message>) {
    forall i, j :: 0 <= i < |messages| && 0 <= j < |messages| ==>
      messages[i].tenant == messages[j].tenant && messages[i].user == messages[j].user
  }

  // What a replay that goes through has built.
  predicate Built(learn: Learn, c: string, messages: seq<Message>, states: States) {
    if messages == [] then states == map[]
    else states == map[c := StateOf(learn, messages[0].tenant, c, messages[0].user, messages)]
  }

  lemma ReplayOneAdds(learn: Learn, c: string, states: States, e: Event, before: seq<Message>)
    requires Built(learn, c, before, states) && OneSpeaker(before)
    requires forall i :: 0 <= i < |before| ==> before[i].conversation == c
    ensures var after := before + if e.body.Said? then [e.body.message] else [];
            && (ReplayOne(learn, c, states, e).Ok? <==> Fits(e, c) && OneSpeaker(after))
            && (ReplayOne(learn, c, states, e).Ok? ==> Built(learn, c, after, ReplayOne(learn, c, states, e).value))
  {
    if e.body.Said? && Fits(e, c) {
      AddBuildsOn(learn, c, states, e.body.message, before);
    } else if !e.body.Said? {
      assert before + [] == before;
    }
  }

  lemma AddBuildsOn(learn: Learn, c: string, states: States, m: Message, before: seq<Message>)
    requires Built(learn, c, before, states) && OneSpeaker(before) && m.conversation == c
    ensures AddMessage(learn, states, m).Ok? <==> OneSpeaker(before + [m])
    ensures AddMessage(learn, states, m).Ok? ==> Built(learn, c, before + [m], AddMessage(learn, states, m).value)
  {
    var after := before + [m];
    assert after[..|before|] == before && after[|before|] == m;
    if before != [] {
      assert after[0] == before[0];
      SpeakerJoins(before, m);
    } else {
      assert after == [m];
    }
    if AddMessage(learn, states, m).Ok? {
      AddedState(learn, c, states, m, before);
    }
  }

  lemma SpeakerJoins(before: seq<Message>, m: Message)
    requires before != [] && OneSpeaker(before)
    ensures OneSpeaker(before + [m]) <==> m.tenant == before[0].tenant && m.user == before[0].user
  {
    var after := before + [m];
    assert after[0] == before[0] && after[|before|] == m;
  }

  lemma AddedState(learn: Learn, c: string, states: States, m: Message, before: seq<Message>)
    requires Built(learn, c, before, states) && m.conversation == c && AddMessage(learn, states, m).Ok?
    ensures Built(learn, c, before + [m], AddMessage(learn, states, m).value)
  {
    var after := before + [m];
    assert after[..|before|] == before && after[|before|] == m;
    var thread := if m.role == User then learn(Learned(learn, before), after, m.content) else Learned(learn, before);
    assert Learned(learn, after) == thread;
    var s := AddMessage(learn, states, m).value;
    assert s == map[c := StateOf(learn, after[0].tenant, c, after[0].user, after)];
  }

  lemma MessagesFit(events: seq<Event>, c: string)
    requires AllFit(events, c)
    ensures forall i :: 0 <= i < |Messages(events)| ==> Messages(events)[i].conversation == c
  {
    forall i | 0 <= i < |Messages(events)| ensures Messages(events)[i].conversation == c {
      var j := MessagesFrom(events, i);
      assert Fits(events[j], c);
    }
  }

  lemma {:induction false} ReplayAllIff(learn: Learn, c: string, events: seq<Event>)
    ensures ReplayAll(learn, c, events).Ok? <==> AllFit(events, c) && OneSpeaker(Messages(events))
    ensures ReplayAll(learn, c, events).Ok? ==> Built(learn, c, Messages(events), ReplayAll(learn, c, events).value)
  {
    if events != [] {
      var init, e := events[..|events| - 1], events[|events| - 1];
      ReplayAllIff(learn, c, init);
      assert AllFit(events, c) <==> AllFit(init, c) && Fits(e, c);
      var before := Messages(init);
      assert Messages(events) == before + if e.body.Said? then [e.body.message] else [];
      if ReplayAll(learn, c, init).Ok? {
        MessagesFit(init, c);
        ReplayOneAdds(learn, c, ReplayAll(learn, c, init).value, e, before);
      } else {
        SpeakersBefore(before, Messages(events));
      }
    }
  }

  lemma SpeakersBefore(before: seq<Message>, after: seq<Message>)
    requires before <= after
    ensures OneSpeaker(after) ==> OneSpeaker(before)
  {
    assert forall i :: 0 <= i < |before| ==> before[i] == after[i];
  }

  /** Replay accepts a list of events exactly when it is not empty, its conversation is named, every event
      fits that conversation and its own payload, and there are messages, all of one tenant and user; then it
      builds the state of exactly these messages. */
  lemma ReplayIff(learn: Learn, events: seq<Event>)
    ensures Replay(learn, events).Ok? <==>
              && events != [] && events[0].conversation != "" && AllFit(events, events[0].conversation)
              && Messages(events) != [] && OneSpeaker(Messages(events))
    ensures Replay(learn, events).Ok? ==>
              var m := Messages(events)[0];
              Replay(learn, events).value
              == StateOf(learn, m.tenant, events[0].conversation, m.user, Messages(events))
  {
    if events != [] {
      ReplayAllIff(learn, events[0].conversation, events);
    }
  }
}
