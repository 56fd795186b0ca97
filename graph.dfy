/**
 * The agent's graph (f_agent.py:182-194) walked node by node: `start` then
 * `chat`, the conditional edge out of `chat`, `search` back to `chat`, at
 * most `MAX_RECURSION` node runs per `graph.invoke`. A node's `messages` are
 * appended to the state and its other fields replace the state's. The
 * model's answers are given as a sequence (`answers(k)` for the k-th chat
 * call; `None` when the call raises) and the search tool as a function.
 *
 * The walk is run on three versions of the program: as written; with the
 * routing corrected (`RouteTurn` ends a turn on a reply with no search
 * request) but the search tool still called as written; and with both
 * corrected.
 */
module Graph {
  import opened Wrappers
  import opened Text
  import opened Messages
  import opened FlightTools
  import opened Agent

  /** `Config.MAX_RECURSION`. */
  const MaxRecursion := 50

  datatype Node = AtStart | AtChat | AtSearch | AtEnd

  datatype Version = AsWritten | RoutingFixed | Corrected

  function NodeFor(t: Target): Node {
    match t
    case End => AtEnd
    case Chat => AtChat
    case Search => AtSearch
  }

  /** The conditional edge out of `chat`. */
  function AfterChat(version: Version, state: BookingState): (r: Node)
    requires state.messages != []
    ensures r != AtStart
    ensures version != AsWritten ==> r != AtChat
  {
    if version == AsWritten then NodeFor(Route(state)) else NodeFor(RouteTurn(state))
  }

  /** The state once the start node's update is merged into it. */
  function AfterStart(state: BookingState): (r: BookingState)
    ensures !r.completed && r.flightOptions == []
  {
    var update := StartNode(state);
    update.(messages := state.messages + update.messages)
  }

  /** The chat node's update merged into the state: the answer appended. */
  function Answered(state: BookingState, reply: Message): (r: BookingState)
    ensures r.completed == state.completed && r.flightOptions == state.flightOptions
    ensures r.messages == state.messages + [reply]
  {
    state.(messages := state.messages + [reply])
  }

  /** The last message, when the search node can run on the state. */
  predicate Searchable(state: BookingState) {
    state.messages != [] && state.messages[|state.messages| - 1].AI?
  }

  /** The search node's update merged into the state: the tool replies
      appended and the flight options replaced. */
  function Searched(state: BookingState, search: SearchArgs -> SearchResult): (r: BookingState)
    requires Searchable(state)
    ensures r.completed == state.completed
  {
    var calls := state.messages[|state.messages| - 1].toolCalls;
    state.(messages := state.messages + Outbound(calls, search),
           flightOptions := OptionsAfter(calls, state.flightOptions, search))
  }

  /** Whether the search node raises before answering. As written it calls
      `FlightTools.search_flights(**tool_call["args"])`, but `@tool` has made
      `search_flights` a LangChain tool object, whose `__call__` takes a single
      `tool_input` and no keyword arguments: the first `search_flights` call
      raises `TypeError`, and the node has no handler. The corrected node
      hands the arguments to the tool (`search_flights.invoke(args)`). */
  predicate SearchRaises(version: Version, state: BookingState)
    requires Searchable(state)
  {
    version != Corrected && SearchCalls(state.messages[|state.messages| - 1].toolCalls) != []
  }

  /** Whether the chat node gets as far as calling the model: only a flight
      option without segments makes it raise first. */
  predicate CanAsk(state: BookingState) {
    forall i :: 0 <= i < |state.flightOptions| ==> state.flightOptions[i].segments != []
  }

  lemma CanAskIff(state: BookingState)
    ensures CanAsk(state) <==> ChatRequest(state).Some?
  {
  }

  /** Where a walk stands: the state, the chat calls made so far and the
      node to run next. */
  datatype Cursor = Cursor(state: BookingState, calls: nat, at: Node)

  /** One node run from `at`, or `None` when the node raises. */
  function Step(version: Version, state: BookingState, answers: nat -> Option<Message>, k: nat,
                search: SearchArgs -> SearchResult, at: Node): Option<Cursor>
    requires at != AtEnd
  {
    match at
    case AtStart => Some(Cursor(AfterStart(state), k, AtChat))
    case AtChat =>
      if !CanAsk(state) then None
      else
        var next := Answered(state, ChatReply(answers(k)));
        Some(Cursor(next, k + 1, AfterChat(version, next)))
    case AtSearch =>
      if !Searchable(state) || SearchRaises(version, state) then None
      else Some(Cursor(Searched(state, search), k, AtChat))
  }

  /** The rest of a `graph.invoke` from node `at`, with `fuel` node runs left
      and `k` chat calls made so far. */
  function Run(version: Version, state: BookingState, answers: nat -> Option<Message>, k: nat,
               search: SearchArgs -> SearchResult, at: Node, fuel: nat): GraphOutcome
    decreases fuel
  {
    if at == AtEnd then Finished(state)
    else if fuel == 0 then Failed
    else match Step(version, state, answers, k, search, at)
      case None => Failed
      case Some(c) => Run(version, c.state, answers, c.calls, search, c.at, fuel - 1)
  }

  /** A node run only appends messages, and only the start node touches
      `completed` (it clears it). */
  lemma StepKeepsHistory(version: Version, state: BookingState, answers: nat -> Option<Message>, k: nat,
                         search: SearchArgs -> SearchResult, at: Node)
    requires at != AtEnd
    ensures var c := Step(version, state, answers, k, search, at);
      && (c.Some? ==> |state.messages| <= |c.value.state.messages|
                      && c.value.state.messages[..|state.messages|] == state.messages)
      && (c.Some? && (at == AtStart || !state.completed) ==> !c.value.state.completed)
  {
    var c := Step(version, state, answers, k, search, at);
    if c.Some? {
      var added := c.value.state.messages[|state.messages|..];
      assert c.value.state.messages == state.messages + added;
    }
  }

  lemma PrefixOfPrefix(a: seq<Message>, b: seq<Message>, c: seq<Message>)
    requires |c| <= |b| <= |a| && a[..|b|] == b && b[..|c|] == c
    ensures a[..|c|] == c
  {
    assert a[..|c|] == a[..|b|][..|c|];
  }

  /** A walk only appends messages. */
  lemma {:induction false} RunAppends(version: Version, state: BookingState, answers: nat -> Option<Message>,
                                      k: nat, search: SearchArgs -> SearchResult, at: Node, fuel: nat)
    ensures var r := Run(version, state, answers, k, search, at, fuel);
      r.Finished? ==> |state.messages| <= |r.state.messages| && r.state.messages[..|state.messages|] == state.messages
    decreases fuel
  {
    if at != AtEnd && fuel > 0 {
      var c := Step(version, state, answers, k, search, at);
      if c.Some? {
        var next := c.value;
        StepKeepsHistory(version, state, answers, k, search, at);
        RunAppends(version, next.state, answers, next.calls, search, next.at, fuel - 1);
        var r := Run(version, state, answers, k, search, at, fuel);
        assert r == Run(version, next.state, answers, next.calls, search, next.at, fuel - 1);
        if r.Finished? {
          PrefixOfPrefix(r.state.messages, next.state.messages, state.messages);
        }
      }
    }
  }

  /** A walk that starts at `start`, or on an uncompleted session, ends
      uncompleted. */
  lemma {:induction false} RunStaysOpen(version: Version, state: BookingState, answers: nat -> Option<Message>,
                                        k: nat, search: SearchArgs -> SearchResult, at: Node, fuel: nat)
    requires at == AtStart || !state.completed
    ensures var r := Run(version, state, answers, k, search, at, fuel);
      r.Finished? ==> !r.state.completed
    decreases fuel
  {
    if at != AtEnd && fuel > 0 {
      var c := Step(version, state, answers, k, search, at);
      if c.Some? {
        var next := c.value;
        StepKeepsHistory(version, state, answers, k, search, at);
        RunStaysOpen(version, next.state, answers, next.calls, search, next.at, fuel - 1);
        assert Run(version, state, answers, k, search, at, fuel)
               == Run(version, next.state, answers, next.calls, search, next.at, fuel - 1);
      }
    }
  }

  /** Hence a walk only appends messages, and ends uncompleted when it
      starts from `start` or from an uncompleted state. */
  lemma RunKeepsHistory(version: Version, state: BookingState, answers: nat -> Option<Message>,
                        k: nat, search: SearchArgs -> SearchResult, at: Node, fuel: nat)
    ensures var r := Run(version, state, answers, k, search, at, fuel);
      && (r.Finished? ==> |state.messages| <= |r.state.messages|
                          && r.state.messages[..|state.messages|] == state.messages)
      && (r.Finished? && (at == AtStart || !state.completed) ==> !r.state.completed)
  {
    RunAppends(version, state, answers, k, search, at, fuel);
    if at == AtStart || !state.completed {
      RunStaysOpen(version, state, answers, k, search, at, fuel);
    }
  }

  /** `graph.invoke(state, {"recursion_limit": 50})`: a finished walk keeps
      the history it was given and ends uncompleted. */
  function Invoke(version: Version, state: BookingState, answers: nat -> Option<Message>,
                  search: SearchArgs -> SearchResult): (r: GraphOutcome)
    ensures r.Finished? ==> |state.messages| <= |r.state.messages|
                            && r.state.messages[..|state.messages|] == state.messages && !r.state.completed
  {
    RunKeepsHistory(version, state, answers, 0, search, AtStart, MaxRecursion);
    Run(version, state, answers, 0, search, AtStart, MaxRecursion)
  }

  /** As written, a chat step on a session that is not completed moves on
      to `chat` or `search`, never to END, and the session stays
      uncompleted. */
  lemma AsWrittenChatStep(state: BookingState, answers: nat -> Option<Message>, k: nat,
                          search: SearchArgs -> SearchResult)
    requires !state.completed
    ensures var c := Step(AsWritten, state, answers, k, search, AtChat);
      c.Some? ==> !c.value.state.completed && (c.value.at == AtChat || c.value.at == AtSearch)
  {
  }

  /** A search step leaves `completed` alone and always returns to `chat`. */
  lemma SearchStepReturns(version: Version, state: BookingState, answers: nat -> Option<Message>, k: nat,
                          search: SearchArgs -> SearchResult)
    ensures var c := Step(version, state, answers, k, search, AtSearch);
      c.Some? ==> c.value.state.completed == state.completed && c.value.at == AtChat
  {
  }

  /** As written, no walk ever reaches END: the start node clears
      `completed`, no other node sets it, and `Route` answers END only for a
      completed session. One lemma per node the walk can be at. */
  lemma {:induction false} AsWrittenStartFails(state: BookingState, answers: nat -> Option<Message>, k: nat,
                                               search: SearchArgs -> SearchResult, fuel: nat)
    ensures Run(AsWritten, state, answers, k, search, AtStart, fuel) == Failed
    decreases fuel, 2
  {
    if fuel > 0 {
      AsWrittenChatFails(AfterStart(state), answers, k, search, fuel - 1);
    }
  }

  lemma {:induction false} AsWrittenChatFails(state: BookingState, answers: nat -> Option<Message>, k: nat,
                                              search: SearchArgs -> SearchResult, fuel: nat)
    requires !state.completed
    ensures Run(AsWritten, state, answers, k, search, AtChat, fuel) == Failed
    decreases fuel, 1
  {
    if fuel > 0 {
      var c := Step(AsWritten, state, answers, k, search, AtChat);
      AsWrittenChatStep(state, answers, k, search);
      if c.Some? {
        var next := c.value;
        if next.at == AtChat {
          AsWrittenChatFails(next.state, answers, next.calls, search, fuel - 1);
        } else {
          AsWrittenSearchFails(next.state, answers, next.calls, search, fuel - 1);
        }
      }
    }
  }

  lemma {:induction false} AsWrittenSearchFails(state: BookingState, answers: nat -> Option<Message>, k: nat,
                                                search: SearchArgs -> SearchResult, fuel: nat)
    requires !state.completed
    ensures Run(AsWritten, state, answers, k, search, AtSearch, fuel) == Failed
    decreases fuel, 0
  {
    if fuel > 0 {
      var c := Step(AsWritten, state, answers, k, search, AtSearch);
      SearchStepReturns(AsWritten, state, answers, k, search);
      if c.Some? {
        AsWrittenChatFails(c.value.state, answers, c.value.calls, search, fuel - 1);
      }
    }
  }

  /** Hence, as written, every non-blank user turn ends in the exception
      handler of `process_streamlit_input`: the reply is always the apology. */
  lemma AsWrittenTurnAlwaysApologises(state: BookingState, answers: nat -> Option<Message>,
                                      search: SearchArgs -> SearchResult)
    ensures TurnOutcome(state, Invoke(AsWritten, state, answers, search))
            == ErrorState(state.messages + [AI(RetryText, [])])
  {
    AsWrittenStartFails(state, answers, 0, search, MaxRecursion);
  }

  /** With the corrected routing, a first answer that asks for no search
      ends the turn right after it: start, one chat call, END. */
  lemma CorrectedPlainAnswerEndsTurn(state: BookingState, answers: nat -> Option<Message>,
                                     search: SearchArgs -> SearchResult)
    requires !HasSearchCall(ChatReply(answers(0)))
    ensures var started := AfterStart(state);
      Invoke(Corrected, state, answers, search)
      == Finished(started.(messages := started.messages + [ChatReply(answers(0))]))
  {
    var started := AfterStart(state);
    assert CanAsk(started);
    var next := Answered(started, ChatReply(answers(0)));
    assert AfterChat(Corrected, next) == AtEnd;
  }

  /** The corrected turn then replies with that answer alone, on top of the
      user's history, and with the session fields the start node reset. */
  lemma CorrectedTurnReplies(state: BookingState, answers: nat -> Option<Message>,
                             search: SearchArgs -> SearchResult)
    requires answers(0).Some? && answers(0).value.AI? && answers(0).value.toolCalls == []
    requires !IsBlank(answers(0).value.content)
    ensures TurnOutcome(state, Invoke(Corrected, state, answers, search))
            == NewState(BookingState(state.messages + [AI(answers(0).value.content, [])], map[], [], None, false, false))
  {
    CorrectedPlainAnswerEndsTurn(state, answers, search);
    var started := AfterStart(state);
    var final := started.messages + [ChatReply(answers(0))];
    assert LastAIText(final) == Some(answers(0).value.content);
  }

  /** With the corrected routing, an answer asking for searches is followed
      by the search node and one more chat call; if that second answer asks
      for nothing more, the turn ends with the options the searches found. */
  lemma CorrectedSearchThenAnswer(state: BookingState, answers: nat -> Option<Message>,
                                  search: SearchArgs -> SearchResult)
    requires HasSearchCall(ChatReply(answers(0))) && !HasSearchCall(ChatReply(answers(1)))
    requires var calls := ChatReply(answers(0)).toolCalls;
      forall o :: o in OptionsAfter(calls, [], search) ==> o.segments != []
    ensures var started := AfterStart(state);
      var asked := started.messages + [ChatReply(answers(0))];
      var calls := ChatReply(answers(0)).toolCalls;
      var options := OptionsAfter(calls, [], search);
      Invoke(Corrected, state, answers, search)
      == Finished(started.(messages := asked + Outbound(calls, search) + [ChatReply(answers(1))],
                           flightOptions := options))
  {
    var started := AfterStart(state);
    var asked := Answered(started, ChatReply(answers(0)));
    assert CanAsk(started);
    assert AfterChat(Corrected, asked) == AtSearch;
    var calls := ChatReply(answers(0)).toolCalls;
    var searched := Searched(asked, search);
    assert searched.flightOptions == OptionsAfter(calls, [], search);
    assert CanAsk(searched) by {
      var options := searched.flightOptions;
      assert forall i :: 0 <= i < |options| ==> options[i].segments != [] by {
        forall i | 0 <= i < |options| ensures options[i].segments != [] {
          assert options[i] in options;
        }
      }
    }
    var answered := Answered(searched, ChatReply(answers(1)));
    assert AfterChat(Corrected, answered) == AtEnd;
  }

  /** A message with a `search_flights` call gives the search node something
      to call. */
  lemma SearchCallFound(m: Message)
    requires HasSearchCall(m)
    ensures SearchCalls(m.toolCalls) != []
  {
    var calls := m.toolCalls;
    var i :| 0 <= i < |calls| && calls[i].name == SearchToolName;
    assert calls == calls[..i] + [calls[i]] + calls[i + 1..];
    SearchCallsAppend(calls[..i] + [calls[i]], calls[i + 1..]);
    SearchCallsAppend(calls[..i], [calls[i]]);
    SearchCallsAppend([calls[i]], []);
  }

  /** With the routing corrected but the tool still called with keyword
      arguments, a turn whose first answer asks for a search ends in the
      exception handler: the search node raises before answering. */
  lemma RoutingFixedSearchApologises(state: BookingState, answers: nat -> Option<Message>,
                                     search: SearchArgs -> SearchResult)
    requires HasSearchCall(ChatReply(answers(0)))
    ensures TurnOutcome(state, Invoke(RoutingFixed, state, answers, search))
            == ErrorState(state.messages + [AI(RetryText, [])])
  {
    var started := AfterStart(state);
    assert CanAsk(started);
    var asked := Answered(started, ChatReply(answers(0)));
    assert AfterChat(RoutingFixed, asked) == AtSearch;
    SearchCallFound(ChatReply(answers(0)));
    assert SearchRaises(RoutingFixed, asked);
  }

  /** A chat or start step whose answer asks for no search does not consult
      the search tool and does not lead to the search node; only the start
      node changes the flight options (it clears them). */
  lemma ToolFreeStep(version: Version, state: BookingState, answers: nat -> Option<Message>, k: nat,
                     s1: SearchArgs -> SearchResult, s2: SearchArgs -> SearchResult, at: Node)
    requires at == AtStart || at == AtChat
    requires !HasSearchCall(ChatReply(answers(k)))
    ensures Step(version, state, answers, k, s1, at) == Step(version, state, answers, k, s2, at)
    ensures var c := Step(version, state, answers, k, s1, at);
      c.Some? ==> c.value.at != AtSearch && c.value.at != AtStart
                  && c.value.state.flightOptions == (if at == AtStart then [] else state.flightOptions)
  {
  }

  /** A model that never asks for a search, such as the plain
      `ChatGoogleGenerativeAI` the chat node calls (no tool schema is bound
      to it), makes the walk never reach the search node: the outcome does
      not depend on the search tool, and the flight options are the ones the
      walk started from. */
  lemma {:induction false} ToolFreeRunIgnoresSearch(version: Version, state: BookingState,
                                                    answers: nat -> Option<Message>, k: nat,
                                                    s1: SearchArgs -> SearchResult, s2: SearchArgs -> SearchResult,
                                                    at: Node, fuel: nat)
    requires at != AtSearch
    requires forall j :: !HasSearchCall(ChatReply(answers(j)))
    ensures Run(version, state, answers, k, s1, at, fuel) == Run(version, state, answers, k, s2, at, fuel)
    ensures var r := Run(version, state, answers, k, s1, at, fuel);
      r.Finished? ==> r.state.flightOptions == (if at == AtStart then [] else state.flightOptions)
    decreases fuel
  {
    if at != AtEnd && fuel > 0 {
      ToolFreeStep(version, state, answers, k, s1, s2, at);
      var c := Step(version, state, answers, k, s1, at);
      if c.Some? {
        var next := c.value;
        ToolFreeRunIgnoresSearch(version, next.state, answers, next.calls, s1, s2, next.at, fuel - 1);
      }
    }
  }

  /** Hence, with the model as written, no turn ever searches: whatever the
      provider would answer, the turn's outcome is the same, and a finished
      walk holds no flight options. */
  lemma ToolFreeTurnNeverSearches(version: Version, state: BookingState, answers: nat -> Option<Message>,
                                  s1: SearchArgs -> SearchResult, s2: SearchArgs -> SearchResult)
    requires forall j :: !HasSearchCall(ChatReply(answers(j)))
    ensures Invoke(version, state, answers, s1) == Invoke(version, state, answers, s2)
    ensures Invoke(version, state, answers, s1).Finished? ==> Invoke(version, state, answers, s1).state.flightOptions == []
  {
    ToolFreeRunIgnoresSearch(version, state, answers, 0, s1, s2, AtStart, MaxRecursion);
  }

  /** `process_streamlit_input` on an agent whose graph is the one as
      written: every non-blank input is appended and answered by the
      apology. */
  method StreamlitTurnAsWritten(agent: FlightBookingAgent, userInput: string, session: SessionState,
                                answers: nat -> Option<Message>) returns (r: TurnReply)
    requires forall s :: agent.graph(s) == Invoke(AsWritten, s, answers, agent.search)
    requires !IsBlank(userInput)
    modifies session, agent, agent.llm, agent.clock
    ensures session.messages == old(session.messages) + [Human(userInput)]
    ensures r == ErrorState(old(session.messages) + [Human(userInput), AI(RetryText, [])])
  {
    r := agent.ProcessStreamlitInput(userInput, session);
    AsWrittenTurnAlwaysApologises(session.Snapshot(), answers, agent.search);
    assert session.Snapshot().messages + [AI(RetryText, [])]
           == old(session.messages) + [Human(userInput), AI(RetryText, [])];
  }
}
