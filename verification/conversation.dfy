/** Conversation memory as a cache of the event log: the steps between two awaits of a chat turn,
    hydration by replay, restarts, and retention of old events. */
module Conversation {

  // ---------------------------------------------------------------- messages, events, state

  datatype Role = User | Assistant

  datatype Message = Message(tenant: string, conversation: string, user: string, role: Role, content: string)

  // The payload decides the event type; `Other` is every type that replay does not read.
  datatype Body = Said(message: Message) | RunCompleted(runTenant: string, runConversation: string, runUser: string)
      | Other(kind: string)

  datatype Event = Event(tenant: string, conversation: string, user: string, body: Body)

  // The facts and the working summary that later turns are interpreted with.
  datatype Thread = Thread(facts: map<string, string>, summary: string)

  // How a user message changes them: pattern matching over the text, left uninterpreted.
  type Learn = (Thread, seq<Message>, string) -> Thread

  datatype State = State(tenant: string, conversation: string, user: string, messages: seq<Message>, thread: Thread)

  type States = map<string, State>

  datatype Error = ValueError | PermissionError

  datatype Outcome<+T> = Ok(value: T) | Raised(error: Error)

  const BLANK := Thread(map[], "")

  // ---------------------------------------------------------------- memory

  function AddMessage(learn: Learn, states: States, m: Message): Outcome<States> {
    var state := if m.conversation in states then states[m.conversation]
                 else State(m.tenant, m.conversation, m.user, [], BLANK);
    var messages := state.messages + [m];
    if state.tenant != m.tenant || state.user != m.user then Raised(PermissionError)
    else
      var thread := if m.role == User then learn(state.thread, messages, m.content) else state.thread;
      Ok(states[m.conversation := state.(messages := messages, thread := thread)])
  }

  // ---------------------------------------------------------------- the log

  predicate Replayed(e: Event) {
    !e.body.Other?
  }

  // The events replay reads, oldest first.
  function Listing(log: seq<Event>, tenant: string, conversation: string): seq<Event> {
    if log == [] then []
    else
      var rest := Listing(log[..|log| - 1], tenant, conversation);
      var e := log[|log| - 1];
      if e.tenant == tenant && e.conversation == conversation && Replayed(e) then rest + [e] else rest
  }

  function Messages(events: seq<Event>): seq<Message> {
    if events == [] then []
    else
      var rest := Messages(events[..|events| - 1]);
      var e := events[|events| - 1];
      if e.body.Said? then rest + [e.body.message] else rest
  }

  // ---------------------------------------------------------------- replay

  // An event's own user may be blank; a message or run names one.
  predicate Valid(e: Event) {
    match e.body
    case Said(m) => e.tenant == m.tenant && e.conversation == m.conversation && (e.user == "" || e.user == m.user)
    case RunCompleted(t, c, u) => e.tenant == t && e.conversation == c && (e.user == "" || e.user == u)
    case Other(_) => true
  }

  function ReplayOne(learn: Learn, conversation: string, states: States, e: Event): Outcome<States> {
    if e.conversation != conversation || !Valid(e) then Raised(ValueError)
    else if e.body.Said? then AddMessage(learn, states, e.body.message)
    else Ok(states)
  }

  function ReplayAll(learn: Learn, conversation: string, events: seq<Event>): Outcome<States> {
    if events == [] then Ok(map[])
    else
      match ReplayAll(learn, conversation, events[..|events| - 1])
      case Raised(x) => Raised(x)
      case Ok(states) => ReplayOne(learn, conversation, states, events[|events| - 1])
  }

  function Replay(learn: Learn, events: seq<Event>): Outcome<State> {
    if events == [] || events[0].conversation == "" then Raised(ValueError)
    else
      match ReplayAll(learn, events[0].conversation, events)
      case Raised(x) => Raised(x)
      case Ok(states) =>
        if events[0].conversation in states then Ok(states[events[0].conversation]) else Raised(ValueError)
  }

  lemma {:induction false} ReplayStops(learn: Learn, conversation: string, events: seq<Event>, k: nat)
    requires k <= |events| && ReplayAll(learn, conversation, events[..k]).Raised?
    ensures ReplayAll(learn, conversation, events) == ReplayAll(learn, conversation, events[..k])
  {
    if k < |events| {
      assert events[..|events| - 1][..k] == events[..k];
      ReplayStops(learn, conversation, events[..|events| - 1], k);
    } else {
      assert events[..k] == events;
    }
  }

  method ReplayConversationMemory(learn: Learn, events: seq<Event>) returns (r: Outcome<State>)
    ensures r == Replay(learn, events)
  {
    if events == [] || events[0].conversation == "" {
      return Raised(ValueError);
    }
    var conversation := events[0].conversation;
    var states: States := map[];
    for i := 0 to |events|
      invariant ReplayAll(learn, conversation, events[..i]) == Ok(states)
    {
      var e := events[i];
      assert events[..i + 1][..i] == events[..i];
      var next := ReplayOne(learn, conversation, states, e);
      if next.Raised? {
        ReplayStops(learn, conversation, events, i + 1);
        return Raised(next.error);
      }
      states := next.value;
    }
    assert events[..|events|] == events;
    if conversation !in states {
      return Raised(ValueError);
    }
    r := Ok(states[conversation]);
  }

  // ---------------------------------------------------------------- the orchestrator's atomic steps

  function Hydrate(learn: Learn, tenant: string, states: States, log: seq<Event>, conversation: string,
                   user: string): Outcome<States> {
    if conversation in states then
      if states[conversation].tenant != tenant || states[conversation].user != user then Raised(PermissionError)
          else Ok(states)
    else
      var events := Listing(log, tenant, conversation);
      if events == [] then Ok(states)
      else
        match Replay(learn, events)
        case Raised(x) => Raised(x)
        case Ok(state) =>
          if state.tenant != tenant || state.user != user then Raised(PermissionError)
              else Ok(states[conversation := state])
  }

  datatype Effect = Effect(states: States, log: seq<Event>, error: Outcome<()>)

  function EventOf(m: Message): Event {
    Event(m.tenant, m.conversation, m.user, Said(m))
  }

  function RunEvent(tenant: string, conversation: string, user: string): Event {
    Event(tenant, conversation, user, RunCompleted(tenant, conversation, user))
  }

  // A turn up to its first await: hydrate, remember and log the user's (redacted) message.
  function Begin(learn: Learn, tenant: string, states: States, log: seq<Event>, conversation: string, user: string,
                 content: string): Effect {
    match Hydrate(learn, tenant, states, log, conversation, user)
    case Raised(x) => Effect(states, log, Raised(x))
    case Ok(hydrated) =>
      var m := Message(tenant, conversation, user, User, content);
      match AddMessage(learn, hydrated, m)
      case Raised(x) => Effect(hydrated, log, Raised(x))
      case Ok(added) => Effect(added, log + [EventOf(m)], Ok(()))
  }

  // The end of a turn: remember and log the answer, then log the run. These are two writes, and `meanwhile`
  // is what handlers on other threads append between them.
  function Finalize(learn: Learn, tenant: string, states: States, log: seq<Event>, conversation: string,
                    user: string, content: string, meanwhile: seq<Event>): Effect {
    var m := Message(tenant, conversation, user, Assistant, content);
    match AddMessage(learn, states, m)
    case Raised(x) => Effect(states, log, Raised(x))
    case Ok(added) => Effect(added, log + [EventOf(m)] + meanwhile + [RunEvent(tenant, conversation, user)], Ok(()))
  }

  class SupportAgentOrchestrator {
    const tenant: string
    const learn: Learn
    var states: States
    var log: seq<Event>

    constructor (tenant: string, learn: Learn, log: seq<Event>)
      ensures this.tenant == tenant && this.learn == learn && this.log == log && states == map[]
    {
      this.tenant := tenant;
      this.learn := learn;
      this.log := log;
      states := map[];
    }

    method HydrateMemoryFromEvents(conversation: string, user: string) returns (error: Outcome<()>)
      modifies this`states
      ensures match old(Hydrate(learn, tenant, states, log, conversation, user))
              case Ok(hydrated) => error == Ok(()) && states == hydrated
              case Raised(x) => error == Raised(x) && states == old(states)
    {
      error := Ok(());
      if conversation in states {
        var state := states[conversation];
        if state.tenant != tenant || state.user != user {
          error := Raised(PermissionError);
        }
        return;
      }
      var events := Listing(log, tenant, conversation);
      if events == [] {
        return;
      }
      var replay := ReplayConversationMemory(learn, events);
      if replay.Raised? {
        error := Raised(replay.error);
      } else if replay.value.tenant != tenant || replay.value.user != user {
        error := Raised(PermissionError);
      } else {
        states := states[conversation := replay.value];
      }
    }

    method Remember(m: Message) returns (error: Outcome<()>)
      modifies this`states
      ensures match old(AddMessage(learn, states, m))
              case Ok(added) => error == Ok(()) && states == added
              case Raised(x) => error == Raised(x) && states == old(states)
    {
      var state := if m.conversation in states then states[m.conversation]
                   else State(m.tenant, m.conversation, m.user, [], BLANK);
      if state.tenant != m.tenant || state.user != m.user {
        return Raised(PermissionError);
      }
      state := state.(messages := state.messages + [m]);
      if m.role == User {
        state := state.(thread := learn(state.thread, state.messages, m.content));
      }
      states := states[m.conversation := state];
      error := Ok(());
    }

    method BeginMessage(conversation: string, user: string, content: string) returns (error: Outcome<()>)
      modifies this
      ensures Effect(states, log, error) == old(Begin(learn, tenant, states, log, conversation, user, content))
    {
      error := HydrateMemoryFromEvents(conversation, user);
      if error.Ok? {
        var m := Message(tenant, conversation, user, User, content);
        error := Remember(m);
        if error.Ok? {
          log := log + [EventOf(m)];
        }
      }
    }

    method FinalizeMessage(conversation: string, user: string, content: string, meanwhile: seq<Event>)
        returns (error: Outcome<()>)
      modifies this
      ensures Effect(states, log, error)
           == old(Finalize(learn, tenant, states, log, conversation, user, content, meanwhile))
    {
      var m := Message(tenant, conversation, user, Assistant, content);
      error := Remember(m);
      if error.Ok? {
        log := log + [EventOf(m)];
        log := log + meanwhile;
        log := log + [RunEvent(tenant, conversation, user)];
      }
    }
  }
}
