/**
 * `FlightBookingAgent` (f_agent.py:175-311): the graph's node functions,
 * its routing decision, the tool dispatch of the search node and the
 * Streamlit entry point. The nodes return what the Python nodes return:
 * the start and search nodes a whole `BookingState` whose `messages` hold
 * the messages to add, the chat node one message.
 */
module Agent {
  import opened Wrappers
  import opened Text
  import opened Messages
  import opened Json
  import opened FlightTools
  import opened RateLimit

  const SystemPrompt :=
    "You are FlightAgent, a professional flight booking assistant. Key responsibilities:\n\n"
    + "1. Find flights using real-time data\n2. Provide clear flight options\n"
    + "3. Collect booking details\n4. Explain policies clearly\n\n"
    + "Rules:\n- Be concise but thorough\n- Verify details before confirming\n"
    + "- Stay focused on flight-related queriesy"
  const WelcomeText := "Welcome! Where would you like to fly?"
  const FlightOptionsHeader := "Flight options:\n"
  const HelpText := "How can I help with your travel plans?"
  const FallbackText := "Let me check that for you..."
  const RetryText := "Please give me a moment and try again."
  /** The arrow between origin and destination, as the source file spells it
      (a UTF-8 `→` that was read back as Mac Roman). */
  const Arrow := "\U{201a}\U{dc}\U{ed}"

  /** The graph's targets after the chat node. */
  datatype Target = End | Chat | Search

  /** What `graph.invoke` gives back: the final state, or an exception (the
      recursion limit, or one a node raised). */
  datatype GraphOutcome = Finished(state: BookingState) | Failed

  /** `_start_node`: the system prompt and the welcome message, and every
      other field back at its initial value. */
  function StartNode(state: BookingState): (r: BookingState)
    ensures r.messages == [System(SystemPrompt), AI(WelcomeText, [])]
    ensures r.searchParams == map[] && r.flightOptions == [] && r.selectedFlight.None?
    ensures !r.bookingInProgress && !r.completed
  {
    BookingState([System(SystemPrompt), AI(WelcomeText, [])], map[], [], None, false, false)
  }

  /** The start node forgets everything about the session it is given. */
  lemma StartNodeForgets(s1: BookingState, s2: BookingState)
    ensures StartNode(s1) == StartNode(s2)
  {
  }

  /** One line of `_format_flights`: number, first segment, price. */
  function FlightLine(number: nat, option: FlightOption): string
    requires option.segments != []
  {
    var seg := option.segments[0];
    (NatToString(number) + ". ")
    + (seg.airline + " " + seg.flightNumber + " " + "(" + seg.origin + Arrow + seg.destination + ") ")
    + (option.price + " " + option.currency)
  }

  /** The lines of `_format_flights`, numbered from `first`. */
  function FlightLines(options: seq<FlightOption>, first: nat): (r: seq<string>)
    requires forall i :: 0 <= i < |options| ==> options[i].segments != []
    ensures |r| == |options|
    ensures forall i :: 0 <= i < |options| ==> r[i] == FlightLine(first + i, options[i])
  {
    if options == [] then [] else [FlightLine(first, options[0])] + FlightLines(options[1..], first + 1)
  }

  /** `_format_flights`: one line per option joined by newlines; `None` when
      an option has no segment and `segments[0]` raises. */
  function FormatFlights(options: seq<FlightOption>): (r: Option<string>)
    ensures r.Some? <==> forall i :: 0 <= i < |options| ==> options[i].segments != []
    ensures r.Some? ==> r.value == Join("\n", FlightLines(options, 1))
  {
    if forall i :: 0 <= i < |options| ==> options[i].segments != []
    then Some(Join("\n", FlightLines(options, 1)))
    else None
  }

  /** Every line starts with its option's position, counted from 1, and
      names the option's price and currency. */
  lemma FlightLinesNumbered(options: seq<FlightOption>, i: nat)
    requires forall k :: 0 <= k < |options| ==> options[k].segments != []
    requires i < |options|
    ensures StartsWith(FlightLines(options, 1)[i], NatToString(i + 1) + ". ")
    ensures EndsWith(FlightLines(options, 1)[i], options[i].price + " " + options[i].currency)
  {
    var seg := options[i].segments[0];
    var head := NatToString(i + 1) + ". ";
    var middle := seg.airline + " " + seg.flightNumber + " " + "(" + seg.origin + Arrow + seg.destination + ") ";
    var tail := options[i].price + " " + options[i].currency;
    assert FlightLines(options, 1)[i] == head + middle + tail;
    ConcatEnds(head, middle, tail);
  }

  /** The messages whose content is not blank, in their order. */
  function NonBlank(messages: seq<Message>): (r: seq<Message>)
    ensures |r| <= |messages|
    ensures forall i :: 0 <= i < |r| ==> !IsBlank(r[i].content) && r[i] in messages
    ensures forall m :: m in messages && !IsBlank(m.content) ==> m in r
  {
    if messages == [] then []
    else if IsBlank(messages[0].content) then NonBlank(messages[1..])
    else [messages[0]] + NonBlank(messages[1..])
  }

  /** The filter distributes over concatenation, and keeps a single message
      exactly when it is not blank: this fixes the result to the
      comprehension's, order and repeats included. */
  lemma {:induction false} NonBlankAppend(a: seq<Message>, b: seq<Message>)
    ensures NonBlank(a + b) == NonBlank(a) + NonBlank(b)
    ensures |a| == 1 ==> NonBlank(a) == (if IsBlank(a[0].content) then [] else a)
  {
    if a == [] {
      assert a + b == b;
    } else {
      assert (a + b)[0] == a[0];
      assert (a + b)[1..] == a[1..] + b;
      NonBlankAppend(a[1..], b);
    }
  }

  /** The list `_chat_node` hands to the model: the non-blank messages, a
      digest of the flight options if there are any, and a prompt of last
      resort when the list would otherwise be empty. `None` when formatting
      the options raises (before the `try`, so the node itself raises). */
  function ChatRequest(state: BookingState): (r: Option<seq<Message>>)
    ensures r.None? <==> state.flightOptions != [] && FormatFlights(state.flightOptions).None?
    ensures r.Some? ==> r.value != []
  {
    var kept := NonBlank(state.messages);
    if state.flightOptions != [] && FormatFlights(state.flightOptions).None? then None
    else
      var withDigest :=
        if state.flightOptions != [] && FormatFlights(state.flightOptions).value != ""
        then kept + [AI(FlightOptionsHeader + FormatFlights(state.flightOptions).value, [])]
        else kept;
      Some(if withDigest == [] then [AI(HelpText, [])] else withDigest)
  }

  /** The model is never called with an empty list; the non-blank history
      comes first and unchanged; a digest follows exactly when there are
      flight options, and the help prompt appears only for a blank history. */
  lemma ChatRequestShape(state: BookingState)
    requires ChatRequest(state).Some?
    ensures var request := ChatRequest(state).value;
      var kept := NonBlank(state.messages);
      && request != []
      && (kept != [] ==> request[..|kept|] == kept)
      && (state.flightOptions == [] && kept != [] ==> request == kept)
      && (state.flightOptions != [] ==>
            request == kept + [AI(FlightOptionsHeader + FormatFlights(state.flightOptions).value, [])])
      && (state.flightOptions == [] && kept == [] ==> request == [AI(HelpText, [])])
  {
    if state.flightOptions != [] {
      var options := state.flightOptions;
      assert FlightLines(options, 1) != [];
      assert FlightLines(options, 1)[0] != "" by {
        assert |FlightLine(1, options[0])| > 0;
      }
      JoinNonEmpty("\n", FlightLines(options, 1));
    }
  }

  lemma JoinNonEmpty(sep: string, parts: seq<string>)
    requires parts != [] && parts[0] != ""
    ensures Join(sep, parts) != ""
  {
  }

  /** The message the chat node adds: the model's answer, or a fixed
      apology when the call raises. */
  function ChatReply(answer: Option<Message>): (r: Message)
    ensures answer.Some? ==> r == answer.value
    ensures answer.None? ==> r.AI? && !HasSearchCall(r) && !IsBlank(r.content)
  {
    assert !IsSpace(FallbackText[0]);
    answer.GetOr(AI(FallbackText, []))
  }

  /** `_route_based_on_tools`. */
  function Route(state: BookingState): (r: Target)
    requires state.completed || state.messages != []
    ensures r == End <==> state.completed
    ensures !state.completed ==> (r == Search <==> HasSearchCall(state.messages[|state.messages| - 1]))
    ensures r != End ==> r == Search || r == Chat
  {
    if state.completed then End
    else if HasSearchCall(state.messages[|state.messages| - 1]) then Search
    else Chat
  }

  /** The corrected routing: a turn ends when the last message asks for no
      search (the graph then waits for the user), as well as when the session
      is completed. */
  function RouteTurn(state: BookingState): (r: Target)
    requires state.completed || state.messages != []
    ensures r != Chat
    ensures r == End <==> state.completed || !HasSearchCall(state.messages[|state.messages| - 1])
  {
    if state.completed || !HasSearchCall(state.messages[|state.messages| - 1]) then End else Search
  }

  /** The tool calls that `_search_node` acts on, in request order. */
  function SearchCalls(calls: seq<ToolCall>): (r: seq<ToolCall>)
    ensures |r| <= |calls|
    ensures forall i :: 0 <= i < |r| ==> r[i].name == SearchToolName
  {
    if calls == [] then []
    else SearchCalls(calls[..|calls| - 1])
         + (if calls[|calls| - 1].name == SearchToolName then [calls[|calls| - 1]] else [])
  }

  /** Selecting the search calls distributes over concatenation, and keeps
      a single call exactly when it is a `search_flights` call: every such
      call is kept, in request order. */
  lemma {:induction false} SearchCallsAppend(a: seq<ToolCall>, b: seq<ToolCall>)
    ensures SearchCalls(a + b) == SearchCalls(a) + SearchCalls(b)
    ensures |a| == 1 ==> SearchCalls(a) == (if a[0].name == SearchToolName then a else [])
  {
    if b == [] {
      assert a + b == a;
    } else {
      var front := b[..|b| - 1];
      var last := b[|b| - 1];
      var tail: seq<ToolCall> := if last.name == SearchToolName then [last] else [];
      assert (a + b)[..|a + b| - 1] == a + front;
      assert (a + b)[|a + b| - 1] == last;
      assert SearchCalls(a + b) == SearchCalls(a + front) + tail;
      assert SearchCalls(b) == SearchCalls(front) + tail;
      SearchCallsAppend(a, front);
    }
  }

  /** The messages answering one search call: a tool message carrying the
      call's id and either the error payload followed by an `Error:` AI
      message, or the number of options found. */
  function Answer(call: ToolCall, result: SearchResult): (r: seq<Message>)
    ensures 1 <= |r| <= 2 && (|r| == 2 <==> result.SearchError?)
    ensures r[0].Tool? && r[0].toolCallId == call.id && r[0].name == call.name
    ensures |r| == 2 ==> r[1].AI? && r[1].toolCalls == []
  {
    match result
    case SearchError(e) => [Tool(ErrorObject(e), call.name, call.id), AI("Error: " + e, [])]
    case Options(options) => [Tool(CountObject(|options|), call.name, call.id)]
  }

  /** The `outbound` list `_search_node` builds for a list of tool calls. */
  function Outbound(calls: seq<ToolCall>, search: SearchArgs -> SearchResult): seq<Message> {
    if calls == [] then []
    else
      var call := calls[|calls| - 1];
      Outbound(calls[..|calls| - 1], search)
      + (if call.name == SearchToolName then Answer(call, search(call.args)) else [])
  }

  /** The `flight_options` after `_search_node`: replaced by each successful
      search in turn, untouched by failed ones. */
  function OptionsAfter(calls: seq<ToolCall>, options: seq<FlightOption>, search: SearchArgs -> SearchResult): (r: seq<FlightOption>)
    ensures SearchCalls(calls) == [] ==> r == options
  {
    if calls == [] then options
    else
      var call := calls[|calls| - 1];
      var before := OptionsAfter(calls[..|calls| - 1], options, search);
      if call.name == SearchToolName && search(call.args).Options? then search(call.args).options else before
  }

  /** The search tool bound to a provider, as `_search_node` calls it. */
  function Searcher(amadeus: Amadeus): SearchArgs -> SearchResult {
    args => SearchFlights(amadeus, args)
  }

  /** The tool messages of a list, in order. */
  function ToolReplies(messages: seq<Message>): (r: seq<Message>)
    ensures forall i :: 0 <= i < |r| ==> r[i].Tool?
  {
    if messages == [] then []
    else ToolReplies(messages[..|messages| - 1])
         + (if messages[|messages| - 1].Tool? then [messages[|messages| - 1]] else [])
  }

  lemma {:induction false} ToolRepliesAppend(a: seq<Message>, b: seq<Message>)
    ensures ToolReplies(a + b) == ToolReplies(a) + ToolReplies(b)
  {
    if b != [] {
      assert (a + b)[..|a + b| - 1] == a + b[..|b| - 1];
      ToolRepliesAppend(a, b[..|b| - 1]);
    } else {
      assert a + b == a;
    }
  }

  lemma AnswerReplies(call: ToolCall, result: SearchResult)
    ensures ToolReplies(Answer(call, result)) == [Answer(call, result)[0]]
  {
    var a := Answer(call, result);
    assert ToolReplies([a[0]]) == [a[0]] by {
      assert [a[0]][..0] == [];
    }
    if |a| == 2 {
      assert a[..1] == [a[0]];
      assert ToolReplies(a) == ToolReplies(a[..1]) + [];
    } else {
      assert a == [a[0]];
    }
  }

  /** Each `search_flights` call is answered by one or two messages, and
      nothing answers the other calls. */
  lemma {:induction false} OutboundSize(calls: seq<ToolCall>, search: SearchArgs -> SearchResult)
    ensures |SearchCalls(calls)| <= |Outbound(calls, search)| <= 2 * |SearchCalls(calls)|
  {
    if calls != [] {
      OutboundSize(calls[..|calls| - 1], search);
    }
  }

  /** Correlation: one tool message per `search_flights` call, in request
      order, each named `search_flights` and carrying that call's id. */
  lemma {:induction false} OutboundCorrelates(calls: seq<ToolCall>, search: SearchArgs -> SearchResult)
    ensures var replies := ToolReplies(Outbound(calls, search));
      var searches := SearchCalls(calls);
      && |replies| == |searches|
      && forall i :: 0 <= i < |replies| ==>
           replies[i].toolCallId == searches[i].id && replies[i].name == SearchToolName
  {
    if calls != [] {
      var prefix := calls[..|calls| - 1];
      var call := calls[|calls| - 1];
      OutboundCorrelates(prefix, search);
      if call.name == SearchToolName {
        var answer := Answer(call, search(call.args));
        var before := ToolReplies(Outbound(prefix, search));
        assert Outbound(calls, search) == Outbound(prefix, search) + answer;
        assert SearchCalls(calls) == SearchCalls(prefix) + [call];
        ToolRepliesAppend(Outbound(prefix, search), answer);
        AnswerReplies(call, search(call.args));
        assert ToolReplies(Outbound(calls, search)) == before + [answer[0]];
      } else {
        assert Outbound(calls, search) == Outbound(prefix, search);
        assert SearchCalls(calls) == SearchCalls(prefix);
      }
    }
  }

  /** Calls to other tools produce nothing: the search node behaves as if
      they were not there. */
  lemma {:induction false} OtherToolsIgnored(calls: seq<ToolCall>, search: SearchArgs -> SearchResult, options: seq<FlightOption>)
    ensures Outbound(calls, search) == Outbound(SearchCalls(calls), search)
    ensures OptionsAfter(calls, options, search) == OptionsAfter(SearchCalls(calls), options, search)
  {
    if calls != [] {
      var prefix := calls[..|calls| - 1];
      var call := calls[|calls| - 1];
      OtherToolsIgnored(prefix, search, options);
      var s := SearchCalls(calls);
      if call.name == SearchToolName {
        assert s[..|s| - 1] == SearchCalls(prefix);
        assert s[|s| - 1] == call;
      } else {
        assert s == SearchCalls(prefix);
        assert Outbound(calls, search) == Outbound(prefix, search);
        assert OptionsAfter(calls, options, search) == OptionsAfter(prefix, options, search);
      }
    }
  }

  /** One more call handled by the search node. */
  lemma SearchStep(calls: seq<ToolCall>, i: nat, options: seq<FlightOption>, search: SearchArgs -> SearchResult)
    requires i < |calls|
    ensures var call := calls[i];
      && Outbound(calls[..i + 1], search)
         == Outbound(calls[..i], search) + (if call.name == SearchToolName then Answer(call, search(call.args)) else [])
      && OptionsAfter(calls[..i + 1], options, search)
         == (if call.name == SearchToolName && search(call.args).Options? then search(call.args).options
             else OptionsAfter(calls[..i], options, search))
      && (SearchCalls(calls[..i + 1]) == [] <==> SearchCalls(calls[..i]) == [] && call.name != SearchToolName)
  {
    assert calls[..i + 1][..i] == calls[..i];
  }

  /** Whether call `i` is a search that succeeded. */
  predicate Succeeds(calls: seq<ToolCall>, i: int, search: SearchArgs -> SearchResult)
    requires 0 <= i < |calls|
  {
    calls[i].name == SearchToolName && search(calls[i].args).Options?
  }

  /** Outcomes: `flight_options` is untouched unless a search succeeds, and
      then it is wholly the result of the last successful search. */
  lemma {:induction false} OptionsFromLastSuccess(calls: seq<ToolCall>, options: seq<FlightOption>, search: SearchArgs -> SearchResult)
    ensures (forall i :: 0 <= i < |calls| ==> !Succeeds(calls, i, search)) ==>
              OptionsAfter(calls, options, search) == options
    ensures (exists i :: 0 <= i < |calls| && Succeeds(calls, i, search)) ==>
              exists i :: 0 <= i < |calls| && Succeeds(calls, i, search)
                && OptionsAfter(calls, options, search) == search(calls[i].args).options
                && forall j :: i < j < |calls| ==> !Succeeds(calls, j, search)
  {
    if calls != [] {
      var n := |calls|;
      var prefix := calls[..n - 1];
      OptionsFromLastSuccess(prefix, options, search);
      forall i | 0 <= i < n - 1
        ensures Succeeds(prefix, i, search) == Succeeds(calls, i, search)
      {
        assert prefix[i] == calls[i];
      }
      if Succeeds(calls, n - 1, search) {
        assert OptionsAfter(calls, options, search) == search(calls[n - 1].args).options;
      } else {
        assert OptionsAfter(calls, options, search) == OptionsAfter(prefix, options, search);
        if exists i :: 0 <= i < n && Succeeds(calls, i, search) {
          var i :| 0 <= i < n && Succeeds(calls, i, search);
          assert Succeeds(prefix, i, search);
          var w :| 0 <= w < n - 1 && Succeeds(prefix, w, search)
                   && OptionsAfter(prefix, options, search) == search(prefix[w].args).options
                   && forall j :: w < j < n - 1 ==> !Succeeds(prefix, j, search);
          assert Succeeds(calls, w, search) && search(calls[w].args).options == OptionsAfter(calls, options, search);
          assert forall j :: w < j < n ==> !Succeeds(calls, j, search);
        }
      }
    }
  }

  /** A failed search is answered by its error payload and an `Error:` AI
      message right after it; a successful one by the option count alone. */
  lemma AnswerShape(call: ToolCall, result: SearchResult)
    ensures result.SearchError? ==>
              Answer(call, result) == [Tool(ErrorObject(result.error), call.name, call.id), AI("Error: " + result.error, [])]
              && Unescape(Escape(result.error)) == Some(result.error)
    ensures result.Options? ==> Answer(call, result) == [Tool(CountObject(|result.options|), call.name, call.id)]
  {
    if result.SearchError? {
      EscapeRoundTrip(result.error);
    }
  }

  /** The text of the last AI message with non-blank content. */
  function LastAIText(messages: seq<Message>): (r: Option<string>)
    ensures r.None? <==> forall i :: 0 <= i < |messages| ==> !(messages[i].AI? && !IsBlank(messages[i].content))
    ensures r.Some? ==> exists i :: 0 <= i < |messages| && messages[i].AI? && messages[i].content == r.value
                         && !IsBlank(r.value)
                         && forall j :: i < j < |messages| ==> !(messages[j].AI? && !IsBlank(messages[j].content))
  {
    if messages == [] then None
    else
      var m := messages[|messages| - 1];
      if m.AI? && !IsBlank(m.content) then Some(m.content) else LastAIText(messages[..|messages| - 1])
  }

  /** What `process_streamlit_input` returns: the very dictionary it was
      given, a new one, or the error dictionary (which holds only the
      messages and `"status": "error"`). */
  datatype TurnReply = SameState | NewState(state: BookingState) | ErrorState(messages: seq<Message>)

  /** The reply once the user message is in `state`: on an exception, the
      history plus an apology; otherwise, if the graph's final state holds
      an AI message with content, the history plus that text alone and the
      graph's side fields; else the given state. */
  function TurnOutcome(state: BookingState, outcome: GraphOutcome): (r: TurnReply)
    ensures r.ErrorState? <==> outcome.Failed?
    ensures r.ErrorState? ==> r.messages == state.messages + [AI(RetryText, [])]
    ensures r.SameState? <==> outcome.Finished? && LastAIText(outcome.state.messages).None?
    ensures r.NewState? ==> |r.state.messages| == |state.messages| + 1
                            && r.state.messages[..|state.messages|] == state.messages
  {
    match outcome
    case Failed => ErrorState(state.messages + [AI(RetryText, [])])
    case Finished(final) =>
      match LastAIText(final.messages)
      case None => SameState
      case Some(text) =>
        NewState(BookingState(state.messages + [AI(text, [])], final.searchParams, final.flightOptions,
                              final.selectedFlight, final.bookingInProgress, final.completed))
  }

  /** A turn that returns a new state adds exactly one AI message to the
      history it was given, whose text is the graph's last non-blank AI text. */
  lemma TurnAddsOneReply(state: BookingState, outcome: GraphOutcome)
    requires TurnOutcome(state, outcome).NewState?
    ensures outcome.Finished? && LastAIText(outcome.state.messages).Some?
    ensures var r := TurnOutcome(state, outcome).state;
      && |r.messages| == |state.messages| + 1
      && r.messages[..|state.messages|] == state.messages
      && r.messages[|state.messages|] == AI(LastAIText(outcome.state.messages).value, [])
      && !IsBlank(r.messages[|state.messages|].content)
  {
    assert (state.messages + [AI(LastAIText(outcome.state.messages).value, [])])[..|state.messages|] == state.messages;
  }

  /** The session dictionary the Streamlit page keeps and `process_streamlit_input` appends to. */
  class SessionState {
    var messages: seq<Message>
    var searchParams: map<string, string>
    var flightOptions: seq<FlightOption>
    var selectedFlight: Option<FlightOption>
    var bookingInProgress: bool
    var completed: bool

    constructor (state: BookingState)
      ensures Snapshot() == state
    {
      messages := state.messages;
      searchParams := state.searchParams;
      flightOptions := state.flightOptions;
      selectedFlight := state.selectedFlight;
      bookingInProgress := state.bookingInProgress;
      completed := state.completed;
    }

    function Snapshot(): BookingState
      reads this
    {
      BookingState(messages, searchParams, flightOptions, selectedFlight, bookingInProgress, completed)
    }

    method AppendMessage(m: Message)
      modifies this
      ensures Snapshot() == old(Snapshot()).(messages := old(messages) + [m])
    {
      messages := messages + [m];
    }
  }

  class FlightBookingAgent {
    /** The module-level rate-limited model the chat node calls. */
    const llm: RateLimitedLLM
    /** The flight data provider the search tool calls. */
    const amadeus: Amadeus
    /** `self.tools`: the search tool bound to that provider. */
    const search: SearchArgs -> SearchResult
    /** `self.graph.invoke(state, {"recursion_limit": 50})`. */
    const graph: BookingState -> GraphOutcome
    /** The clock `time.time()` reads; the limiter's as well. */
    const clock: Clock
    var lastToolUse: int

    constructor (llm: RateLimitedLLM, amadeus: Amadeus, graph: BookingState -> GraphOutcome)
      ensures this.llm == llm && this.amadeus == amadeus && this.graph == graph
      ensures search == Searcher(amadeus)
      ensures clock == llm.clock && lastToolUse == 0
    {
      this.llm := llm;
      this.amadeus := amadeus;
      this.search := Searcher(amadeus);
      this.graph := graph;
      this.clock := llm.clock;
      lastToolUse := 0;
    }

    /** `_chat_node`: builds the request, calls the limiter once and adds
        its answer, or the apology if the call raises. `None` when building
        the request raises, in which case the model is not called. */
    method ChatNode(state: BookingState) returns (r: Option<Message>)
      requires llm.Valid()
      modifies llm, llm.clock
      ensures llm.Valid()
      ensures ChatRequest(state).None? ==> r.None? && unchanged(llm) && unchanged(llm.clock)
      ensures ChatRequest(state).Some? ==>
                && llm.Forwarded == old(llm.Forwarded) + [ChatRequest(state).value]
                && r == Some(ChatReply(llm.service(ChatRequest(state).value)))
                && llm.Admitted == old(llm.Admitted) + [llm.lastCallTime]
                && llm.lastCallTime == llm.clock.now >= old(llm.lastCallTime) + RequestDelay
                && llm.callCount == (if old(llm.callCount) < MaxRequestsPerMinute then old(llm.callCount) + 1 else 1)
                && llm.clock.now == (if old(llm.clock.now) - old(llm.lastCallTime) < RequestDelay
                                     then old(llm.lastCallTime) + RequestDelay else old(llm.clock.now))
                                    + (if old(llm.callCount) >= MaxRequestsPerMinute then CapWait else 0)
    {
      var request := ChatRequest(state);
      if request.None? {
        return None;
      }
      var answer := llm.Invoke(request.value);
      r := Some(ChatReply(answer));
    }

    /** `_search_node`: waits out `REQUEST_DELAY` since the last tool use,
        then answers each `search_flights` call of the last message in order,
        replacing `flight_options` on success. The returned state holds the
        new messages in `messages`. */
    method SearchNode(state: BookingState) returns (r: BookingState)
      requires state.messages != [] && state.messages[|state.messages| - 1].AI?
      modifies this, clock
      ensures var calls := state.messages[|state.messages| - 1].toolCalls;
        && r == state.(messages := Outbound(calls, search),
                       flightOptions := OptionsAfter(calls, state.flightOptions, search))
        && lastToolUse == (if SearchCalls(calls) == [] then old(lastToolUse) else clock.now)
      ensures clock.now == if old(clock.now) - old(lastToolUse) < RequestDelay
                           then old(lastToolUse) + RequestDelay else old(clock.now)
    {
      var currentTime := clock.now;
      if currentTime - lastToolUse < RequestDelay {
        clock.Sleep(RequestDelay - (currentTime - lastToolUse));
      }
      var calls := state.messages[|state.messages| - 1].toolCalls;
      var outbound: seq<Message> := [];
      var options := state.flightOptions;
      ghost var start, now := lastToolUse, clock.now;
      var i := 0;
      while i < |calls|
        invariant 0 <= i <= |calls|
        invariant outbound == Outbound(calls[..i], search)
        invariant options == OptionsAfter(calls[..i], state.flightOptions, search)
        invariant clock.now == now
        invariant lastToolUse == if SearchCalls(calls[..i]) == [] then start else now
        modifies this
      {
        var call := calls[i];
        if call.name == SearchToolName {
          var result := search(call.args);
          if result.SearchError? {
            outbound := outbound + [Tool(ErrorObject(result.error), call.name, call.id),
                                    AI("Error: " + result.error, [])];
          } else {
            options := result.options;
            outbound := outbound + [Tool(CountObject(|result.options|), call.name, call.id)];
          }
          assert && outbound == Outbound(calls[..i + 1], search)
                 && options == OptionsAfter(calls[..i + 1], state.flightOptions, search)
                 && SearchCalls(calls[..i + 1]) != [] by {
            SearchStep(calls, i, state.flightOptions, search);
          }
          lastToolUse := clock.now;
        } else {
          assert && outbound == Outbound(calls[..i + 1], search)
                 && options == OptionsAfter(calls[..i + 1], state.flightOptions, search)
                 && (SearchCalls(calls[..i + 1]) == []) == (SearchCalls(calls[..i]) == []) by {
            SearchStep(calls, i, state.flightOptions, search);
          }
        }
        i := i + 1;
      }
      assert calls[..i] == calls;
      r := state.(messages := outbound, flightOptions := options);
    }

    /** `process_streamlit_input`: a blank input changes nothing; otherwise
        the user's message is appended to the session in place, the graph is
        run on it, and the reply is built from the graph's outcome. */
    method ProcessStreamlitInput(userInput: string, session: SessionState) returns (r: TurnReply)
      modifies session, this, llm, clock
      ensures IsBlank(userInput) ==> r == SameState && session.Snapshot() == old(session.Snapshot())
      ensures !IsBlank(userInput) ==>
                && session.Snapshot() == old(session.Snapshot()).(messages := old(session.messages) + [Human(userInput)])
                && r == TurnOutcome(session.Snapshot(), graph(session.Snapshot()))
    {
      StripEmptyIffBlank(userInput);
      if Strip(userInput) == [] {
        return SameState;
      }
      session.AppendMessage(Human(userInput));
      var state := session.Snapshot();
      r := TurnOutcome(state, graph(state));
    }
  }
}
