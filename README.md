# flight-agent, modelled in Dafny

A model of the decision logic of the flight-booking agent: its rate-limited
language-model wrapper, its flight search tool, the nodes and the routing of
its conversation graph, the Streamlit entry point, and the display helpers
that render flight offers and price checks.

The model is split into modules that follow the program:

- `wrappers.dfy` (`Wrappers`) holds `Option` and `Result`.
- `text.dfy` (`Text`) holds the Python `str` operations the code relies on: `strip`, `isspace`, slicing, `replace`, `lower`, `upper`, `str(n)`, `join` and `*`.
- `messages.dfy` (`Messages`) holds the LangChain messages, the tool calls, the flight options and the `BookingState` session dictionary.
- `offers.dfy` (`Offers`) holds the provider's flight offers.
- `json.dfy` (`Json`) models the `json.dumps` payloads the search node sends, together with their decoder.
- `flight_tools.dfy` (`FlightTools`) models `search_flights`, `_get_airport_code` and `_format_flight_results`.
- `rate_limit.dfy` (`RateLimit`) holds `RateLimitedLLM` as a class over a shared integer `Clock`, counted in milliseconds.
- `agent.dfy` (`Agent`) models the node functions, `_route_based_on_tools`, `_format_flights` and `process_streamlit_input`. The agent and the session dictionary are classes there.
- `graph.dfy` (`Graph`) is a node-by-node walk of the compiled graph, with the recursion limit of 50. It runs three versions of the program: as written, with the routing corrected, and with both the routing and the search-tool call corrected.
- `format_flights.dfy` (`FlightFormat`) models `format_flight_results`, `format_price_verification` (its guard, requirements list and baggage line), `get_airline_name`, `format_duration` and `get_baggage_info`.

The language model and the two provider endpoints are function-valued
parameters. A call that raises is `None`. `format_time` and the
floating-point tax text are passed in as a `Renderers` value.

## Model

| member | source | states |
|---|---|---|
| RateLimit.RateLimitedLLM.Invoke | f_agent.py:46-61 | Invoke never refuses a call and forwards the messages exactly once, returning the service's answer. The new `last_call_time` is the clock after the sleeps and at least `REQUEST_DELAY` after the previous one. The counter ends between 1 and the cap. Below the cap it grows by one. At the cap there is an extra 60 s wait and the counter restarts at 1. The clock moves by exactly the two sleeps. |
| RateLimit.Clock.Sleep | f_agent.py:52 | `time.sleep(d)` advances the clock by exactly `d`. |
| RateLimit.AtMostQuotaPerMinute | f_agent.py:25-26 | Calls spaced `REQUEST_DELAY` (6 s) apart number at most `MAX_REQUESTS_PER_MINUTE` (10) in any one-minute window. |
| RateLimit.LimiterKeepsQuota | f_agent.py:47-58 | The calls a limiter has admitted so far respect that quota in every minute. |
| RateLimit.CallsInCapacity | f_agent.py:47-52 | A spaced run of calls ending at `x` holds no more calls in a window than fit at that spacing. |
| FlightTools.GetAirportCode | f_agent.py:144-153 | The result is `None` exactly when the lookup raises or returns no airport. Otherwise it is the first airport's `iataCode`. |
| FlightTools.ToSegments | f_agent.py:162-170 | There is one flight segment per provider segment, in order, each built field by field from it. |
| FlightTools.FormatFlightResults | f_agent.py:156-172 | The projection succeeds exactly when every offer projects. It then has one option per offer, in input order, with `id`, price `total` and `currency` copied verbatim, the first itinerary's segments and the first cabin class. Otherwise it fails with the error of the first offer that does not project. |
| FlightTools.Query | f_agent.py:117-131 | A search is issued exactly when both airport codes resolve. |
| FlightTools.SearchFlights | f_agent.py:112-141 | A successful search has at least one option. Every failure is one of the code's texts: "Invalid airport codes", "No flights found", `API error: …` or `Search failed: …`. |
| FlightTools.QueryShape | f_agent.py:118-131 | An issued search asks for `max=3` offers, using the two looked-up codes (both non-empty), the requested date, the given adults (default 1) and the upper-cased cabin class (default `ECONOMY`). |
| FlightTools.InvalidCodesSkipSearch | f_agent.py:121-122 | When either code does not resolve, the answer is "Invalid airport codes", whatever the flight search would have returned. |
| FlightTools.EmptyDataNoFlights | f_agent.py:133-134 | An empty `data` answers "No flights found". |
| FlightTools.SearchOutcome | f_agent.py:124-141 | Once both codes resolve, a `ResponseError` answers `API error: <text>`, any other exception `Search failed: <text>`, and a non-empty `data` its projection, or `Search failed: <error>` with the error of the first offer the projection cannot take. |
| FlightTools.SearchSuccess | f_agent.py:124-136 | A successful search comes from a non-empty `data` and is exactly the projection of those offers: one option per offer, in order, with ids unchanged. |
| Agent.StartNode | f_agent.py:196-204 | The start node returns the system prompt and the welcome message, with every other field at its initial value. |
| Agent.StartNodeForgets | f_agent.py:196-204 | The start node's update does not depend on the state it is given. |
| Agent.FlightLines | f_agent.py:271-276 | There is one line per option, and line `i` renders option `i` under number `first + i`. |
| Agent.FormatFlights | f_agent.py:269-276 | The text exists exactly when every option has a segment, and it is then the lines joined by newlines. |
| Agent.FlightLinesNumbered | f_agent.py:271-275 | Line `i` starts with `i + 1` and a period, and ends with the option's price and currency. |
| Agent.NonBlank | f_agent.py:207 | The kept messages are non-blank and come from the input. Every non-blank message of the input is kept. |
| Agent.NonBlankAppend | f_agent.py:207 | The filter distributes over concatenation and keeps a single message exactly when it is not blank. This fixes the order and the repeats to those of the comprehension. |
| Agent.ChatRequest | f_agent.py:206-215 | Building the request raises exactly when there are options and one of them has no segment. A request that is built is never empty. |
| Agent.ChatReply | f_agent.py:217-222 | The model's answer is added unchanged. When the call raises, the added message is the non-blank apology, with no tool call. |
| Agent.ChatRequestShape | f_agent.py:206-215 | The model is never sent an empty list. The non-blank history comes first and unchanged. The options digest follows exactly when there are options. The help prompt is sent only for a blank history with no options. |
| Agent.Route | f_agent.py:258-267 | The route is END exactly when `completed` is set. Otherwise it is "search" exactly when the last message has a `search_flights` call, and "chat" in every other case. |
| Agent.RouteTurn | f_agent.py:258-267 | In the corrected routing, the route is END exactly when the session is completed or the last message asks for no search. It is never "chat". |
| Agent.SearchCalls | f_agent.py:232-233 | The calls acted on are all `search_flights` calls, and no more than there are calls. |
| Agent.SearchCallsAppend | f_agent.py:232-233 | The selection distributes over concatenation and keeps a single call exactly when it is named `search_flights`. This fixes the result to the calls in request order. |
| Agent.Answer | f_agent.py:236-253 | A search call is answered by one tool message carrying the call's id and name. An `Error:` AI message without tool calls follows it exactly when the search failed. |
| Agent.Outbound | f_agent.py:230-254 | The messages the search node returns, built call by call. Its properties are stated by `Agent.OutboundSize` and `Agent.OutboundCorrelates`. |
| Agent.OutboundSize | f_agent.py:232-254 | Each `search_flights` call adds one or two messages, and other calls add none. |
| Agent.OptionsAfter | f_agent.py:245-246 | With no `search_flights` call, the options are the ones the node was given. |
| Agent.OutboundCorrelates | f_agent.py:232-254 | The search node emits exactly one tool message per `search_flights` call, in request order, each with that call's id and name. |
| Agent.OtherToolsIgnored | f_agent.py:233 | Calls to other tools change neither the messages nor the options. |
| Agent.OptionsFromLastSuccess | f_agent.py:245-246 | The options are unchanged when no search succeeds. Otherwise they are wholly the result of the last successful search. |
| Agent.AnswerShape | f_agent.py:236-253 | A failed search is answered by its `{"error": …}` payload followed by an `Error: …` AI message. The escaped string inside that payload decodes back to the error text; the JSON object around it is not parsed. A successful search is answered by `{"count": n}` alone. |
| Agent.LastAIText | f_agent.py:288-292 | The result is the last AI message with non-blank content, and `None` exactly when there is none. |
| Agent.TurnOutcome | f_agent.py:285-311 | The reply is the error dictionary exactly when the graph raised, and it then holds the history plus the apology. It is the untouched state exactly when the graph finished with no non-blank AI text. A new state extends the given history by one message. |
| Agent.TurnAddsOneReply | f_agent.py:294-302 | A turn that returns a new state adds exactly one AI message, holding the graph's last non-blank AI text, to the history it was given. |
| Agent.SessionState.AppendMessage | f_agent.py:283 | The session gets one message appended in place, and every other field is unchanged. |
| Agent.FlightBookingAgent.ChatNode | f_agent.py:206-222 | When formatting the options raises, the node raises, and neither the limiter nor the clock changes. Otherwise the limiter forwards the built request once, and the node returns the model's answer (or the apology if the call raises). The limiter state and the clock move exactly as `invoke` moves them. |
| Agent.FlightBookingAgent.SearchNode | f_agent.py:224-256 | The node waits out `REQUEST_DELAY` since the last tool use, and the clock moves by exactly that wait. It returns the outbound messages and the options after the searches. `last_tool_use` moves to the clock exactly when some search ran. |
| Agent.FlightBookingAgent.ProcessStreamlitInput | f_agent.py:278-311 | Blank input returns the state untouched. Otherwise exactly one human message is appended in place and the reply is built from the graph's outcome on the new session. |
| Json.EscapeRoundTrip | f_agent.py:239 | The escaped text inside the JSON string decodes back to the original error text. |
| Json.EscapePrintable | f_agent.py:239 | `ensure_ascii` holds: the escaped text is printable ASCII whatever the input. |
| Json.StepChar | f_agent.py:239 | Each character's escape decodes back to that character and consumes exactly the escape, including surrogate pairs above U+FFFF. |
| Json.Hex4RoundTrip | f_agent.py:239 | The four hex digits of a `\uXXXX` escape read back as the code unit. |
| Text.StripEmptyIffBlank | f_agent.py:280 | `s.strip()` is empty exactly when every character of `s` is whitespace. |
| Text.NatToStringRoundTrip | f_agent.py:249 | The decimal text of a count reads back as that count. |
| Graph.AfterStart | f_agent.py:196-204 | After the start node, the session is not completed and has no options. |
| Graph.AfterChat | f_agent.py:189-191 | The edge out of `chat` never leads back to `start`. Once the routing is corrected it never leads back to `chat` either. |
| Graph.Run | f_agent.py:182-194 | The walk from a node: one node run per unit of fuel, raising when the fuel or a node raises. Its properties are stated by the lemmas below. |
| Graph.StepKeepsHistory | f_agent.py:196-256 | A node run only appends messages. A run of `start`, or of any node on an uncompleted session, leaves the session uncompleted. |
| Graph.RunAppends | f_agent.py:182-194 | A finished walk extends the history it was given. |
| Graph.RunStaysOpen | f_agent.py:182-194 | A walk that starts at `start`, or on an uncompleted session, ends uncompleted. |
| Graph.RunKeepsHistory | f_agent.py:182-194 | A finished walk extends the history it was given. It ends uncompleted when it starts at `start` or on an uncompleted session. |
| Graph.Invoke | f_agent.py:286 | A finished `graph.invoke` extends the history it was given and ends with `completed` unset. |
| Graph.CanAskIff | f_agent.py:209-212 | The chat node reaches the model exactly when the request can be built. |
| Graph.AsWrittenChatStep | f_agent.py:258-267 | As written, a chat run on an uncompleted session leads to `chat` or `search`, and the session stays uncompleted. |
| Graph.SearchStepReturns | f_agent.py:192 | A search run leaves `completed` alone and always leads back to `chat`. |
| Graph.AsWrittenStartFails | f_agent.py:182-194 | With the routing as written, no walk from `start` ever reaches END. |
| Graph.AsWrittenChatFails | f_agent.py:258-267 | With the routing as written, no walk from `chat` on an uncompleted session reaches END. |
| Graph.AsWrittenSearchFails | f_agent.py:192 | With the routing as written, no walk from `search` on an uncompleted session reaches END. |
| Graph.AsWrittenTurnAlwaysApologises | f_agent.py:285-311 | As written, every non-blank turn ends in the exception handler, whatever the model answers. |
| Graph.CorrectedPlainAnswerEndsTurn | f_agent.py:189-191 | With the corrected routing, a first answer with no search ends the graph after start, one chat call and END. |
| Graph.CorrectedTurnReplies | f_agent.py:285-302 | With the corrected routing, that turn replies with the model's answer on top of the user's history. |
| Graph.CorrectedSearchThenAnswer | f_agent.py:189-192 | With the corrected routing, a search request is followed by the search node and a second chat call. The turn ends with the options the searches found. |
| Graph.SearchCallFound | f_agent.py:232-233 | A message with a `search_flights` call gives the search node at least one call to act on. |
| Graph.RoutingFixedSearchApologises | f_agent.py:234 | With the routing corrected but the tool still called with keyword arguments, a turn whose first answer asks for a search ends in the exception handler. |
| Graph.ToolFreeStep | f_agent.py:189-191 | A start or chat run whose answer asks for no search does not use the search tool and does not lead to `search`. Only `start` changes the options, and it clears them. |
| Graph.ToolFreeRunIgnoresSearch | f_agent.py:182-194 | When no answer asks for a search, the walk's outcome does not depend on the search tool. A finished walk keeps the options it started with (none, from `start`). |
| Graph.ToolFreeTurnNeverSearches | f_agent.py:218 | With a model that never asks for a search, as the plain model the chat node calls, no turn depends on the search tool, and a finished turn holds no flight options. |
| Graph.StreamlitTurnAsWritten | f_agent.py:278-311 | `process_streamlit_input` on the graph as written appends the user's message to the session and always returns the apology on top of it. |
| FlightFormat.AirlineName | format_flights.py:132-140 | `QR`, `EK` and `AA` map to their names, and any other code is returned as it is. |
| FlightFormat.FormatDuration | format_flights.py:148-150 | The result has no surrounding whitespace, whatever the input. |
| FlightFormat.FormatDurationClean | format_flights.py:148-150 | For any input, the result has no `H` or `M` left. |
| FlightFormat.DurationHoursMinutes | format_flights.py:148-150 | `PT<h>H<m>M` becomes `<h>h <m>m` (`PT4H5M` gives `4h 5m`). |
| FlightFormat.DurationHoursOnly | format_flights.py:150 | `PT<h>H` becomes `<h>h`, because the trailing space is stripped. |
| FlightFormat.ItineraryDuration | format_flights.py:17 | The label is the duration without its first two characters, lower-cased character by character. |
| FlightFormat.ItineraryDurationHoursMinutes | format_flights.py:17 | `PT<h>H<m>M` becomes `<h>h<m>m` (`PT4H5M` gives `4h5m`). |
| FlightFormat.StopsText | format_flights.py:21 | The text is "Nonstop" exactly when there are no stops, and `<n> stop(s)` otherwise. |
| FlightFormat.FirstMatch | format_flights.py:154-157 | The result is the first position whose segment id matches, or `None` exactly when none matches. |
| FlightFormat.FirstBagsAppend | format_flights.py:154-155 | Scanning two lists in a row finds the first match in the first list, or else the first in the second. |
| FlightFormat.CheckedBags | format_flights.py:152-158 | The nested traveler-then-segment scan finds what one scan of all fare details finds. |
| FlightFormat.BaggageInfo | format_flights.py:152-158 | The first matching segment's quantity is rendered as "<q> checked bags". "Baggage info not available" appears exactly when nothing matches. |
| FlightFormat.SegmentTexts | format_flights.py:19-32 | There is one text per segment. |
| FlightFormat.ItineraryTexts | format_flights.py:14-37 | There is one text per itinerary. |
| FlightFormat.RenderSegments | format_flights.py:19-32 | The segment loop builds exactly the rendered segments, in order. |
| FlightFormat.RenderItineraries | format_flights.py:14-37 | The itinerary loop builds exactly the rendered itineraries, in order. |
| FlightFormat.Shown | format_flights.py:7 | The shown flights are the first `min(n, 5)` flights of the input. |
| FlightFormat.Entries | format_flights.py:39-45 | There is one entry per shown flight. |
| FlightFormat.EntriesAt | format_flights.py:7 | Entry `i` renders flight `i` under number `first + i`. |
| FlightFormat.FormatFlightResults | format_flights.py:1-47 | The loop returns the empty message for no flights. Otherwise it returns the numbered entries of the first five between two rules. |
| FlightFormat.FlightResults | format_flights.py:1-47 | "No flights found matching your criteria." is returned exactly for an empty list. |
| FlightFormat.EntryShape | format_flights.py:40-44 | An entry starts with its number and a period, and ends with the offer id line. |
| FlightFormat.ShownInOrder | format_flights.py:7 | Entry `i` is numbered `i + 1` and carries the id of the `i`-th input flight. |
| FlightFormat.EntryHoldsId | format_flights.py:44 | Each shown entry contains its offer's id verbatim. |
| FlightFormat.ResultsListOfferIds | format_flights.py:44-47 | Each of the first five offers has its id in the returned text. |
| FlightFormat.OnlyFirstFiveShown | format_flights.py:7 | Flights after the fifth do not change the text. |
| FlightFormat.AmongMembers | format_flights.py:89-97 | A requirement is listed exactly when it is a candidate whose flag is set. |
| FlightFormat.CollectRequirements | format_flights.py:89-97 | The four `if`s build exactly the lines of the listed requirements. |
| FlightFormat.RequirementsSpelled | format_flights.py:89-97 | The list is email, phone, immediate payment and credit card, each present exactly when its flag is set, in that order. |
| FlightFormat.RequirementsFaithful | format_flights.py:89-97 | A requirement is listed exactly when its flag is set, in the fixed order and without repeats. |
| FlightFormat.OrderKept | format_flights.py:89-97 | Keeping the requirements whose flags are set preserves the fixed order. |
| FlightFormat.NoRequirementsIff | format_flights.py:117 | "No special requirements" is shown exactly when no flag is set. |
| FlightFormat.BaggageAllowance | format_flights.py:118-121 | "Baggage info not available" is shown exactly when the traveler has no fare details or the first one has no checked bags. Otherwise the line is `  - <q> checked bags included`, where `q` is the first fare detail's checked-bag quantity. |
| FlightFormat.PriceVerificationAsWritten | format_flights.py:49-128 | As written, the text is "No valid pricing information available." exactly for a missing offer or missing `flightOffers`. Among the modelled inputs, the handler's error text is returned exactly for an empty `flightOffers` or a first flight without traveler pricings. Otherwise the summary shows the requirements of the first flight and the baggage line of its last traveler. |
| FlightFormat.AsWrittenNoTravelersFails | format_flights.py:106-119 | As written, a priced offer with no traveler pricings yields the error text instead of a summary. |
| FlightFormat.PriceVerification | format_flights.py:49-128 | The corrected summary returns "No valid pricing information available." exactly for a missing offer or missing `flightOffers`. It fails only on an empty `flightOffers`. Otherwise it shows the requirements block of the first flight. Its baggage line is "Baggage info not available" when the first flight has no traveler pricings, and otherwise the last traveler's allowance. |
| FlightFormat.PriceVerificationAgrees | format_flights.py:106-121 | The correction agrees with the code wherever the code produced a summary. It produces a summary wherever the code failed only for lack of travelers. |

## Left out

- The language model is an uninterpreted function. So are the provider's location and offer searches. An exception from any of them is `None` or a failure value.
- LangGraph's runtime is not modelled. `Graph.Run` walks the compiled graph itself, node by node, with the `recursion_limit` of 50 as fuel. The `add_messages` reducer is modelled as a plain append.
- Agent.FlightBookingAgent.ProcessStreamlitInput: its frame includes the agent, the limiter and the clock, but its contract says nothing about them after a turn. `Graph.Step` takes the model's answers as given and does not go through `RateLimitedLLM`. So the limiter updates and the waits of a turn's chat calls are not modelled: as written, dozens of calls, each at least 6 s apart, with a further 60 s after every tenth. Nor is the `last_tool_use` update of its search calls.
- Graph.StreamlitTurnAsWritten: the same frame and the same gap for the as-written turn.
- Agent.FlightBookingAgent.SearchNode: the provider calls take no time in the model, so `last_tool_use` is the clock reading right after the initial wait.
- Agent.FlightBookingAgent.ChatNode: the model's answers are arbitrary, so the contract covers a model with the search tool bound as well as the plain one. As written, the node calls the module-level `llm`, whose `ChatGoogleGenerativeAI` has no tool bound; `self.llm_with_tools` is built but never used. `Graph.ToolFreeTurnNeverSearches` states what follows from that.
- Agent.FlightBookingAgent.SearchNode: it models the corrected tool call, which hands the arguments to the tool. As written the call raises; `Graph.SearchRaises` models that in the graph. Tool calls whose arguments do not fit `search_flights` also raise in the source; they are not modelled, because `SearchArgs` is typed.
- `_search_node` assigns `state["flight_options"]` in the dictionary it was given. `Agent.FlightBookingAgent.SearchNode` instead returns a new state with the new options, so the aliasing of that dictionary is not modelled.
- Time is an integer number of milliseconds. Fractional parts of `time.time()` below a millisecond are not modelled.
- `format_time` (`datetime.fromisoformat`/`strftime`) and the floating-point tax text are parameters of `FlightFormat.Renderers`. `Renderers.formatTime` is total, but `datetime.fromisoformat` raises on a malformed time, and `format_flight_results` has no handler for it (format_flights.py:27-28). The model renders a text where the source raises.
- The `KeyError` from a missing checked-bag quantity and the `ValueError` from `float()` (format_flights.py:104) reach the handler of `format_price_verification` in the source. Neither is among the modelled inputs.
- Of `format_price_verification`, only the missing-data guard, the requirements block and the baggage line are modelled. The traveler pricing details, the price breakdown, the other summary lines and the raw-dump text of the exception handler are not.
- Missing keys in offers (`KeyError`) are not modelled. The exceptions are a missing `class` key, `itineraries[0]` on an empty list and `segments[0]` on an option without segments, which are modelled because the agent's control flow depends on them.
- `Text.Lower` and `Text.Upper` map ASCII letters only. Python's `lower` and `upper` also map other letters. The durations and cabin classes the code feeds them are ASCII.
- The Streamlit page (`main`), the configuration check and `load_dotenv`, and logging are not modelled.
- FlightFormat.SegmentTexts: its contract states the count only. The content of each segment text is its definition, which `FlightFormat.RenderSegments` is proved equal to.
- FlightFormat.ItineraryTexts: its contract states the count only, for the same reason.

## Findings

| source | as written | input that shows it | evidently intended | confidence | as-written member | corrected member |
|---|---|---|---|---|---|---|
| f_agent.py:258-267 | Nothing sets `completed`, and the route out of `chat` is "chat" for any answer without a search. So every walk cycles until `recursion_limit` raises, and `process_streamlit_input` always returns "Please give me a moment and try again." | any non-blank user input, with any model answers | a reply without a search request ends the turn (END) and is shown to the user | high; not executed | Graph.AsWrittenTurnAlwaysApologises | Graph.CorrectedTurnReplies |
| f_agent.py:217-218 | The chat node calls the module-level `llm`, which wraps a `ChatGoogleGenerativeAI` with no tool bound. `self.llm_with_tools` (f_agent.py:178) is never used, so the model is not offered `search_flights`. | any request for flights | the chat node calls the tool-bound model, so it can ask for a search | medium; not executed | Graph.ToolFreeTurnNeverSearches | Graph.CorrectedSearchThenAnswer |
| f_agent.py:234 | `FlightTools.search_flights(**tool_call["args"])` calls the `@tool` object with keyword arguments. A LangChain tool's `__call__` takes one `tool_input` argument, so this raises `TypeError`, and the node has no handler. | a model answer with a `search_flights` call | the tool is invoked with the call's arguments and the search runs | medium; not executed | Graph.RoutingFixedSearchApologises | Graph.CorrectedSearchThenAnswer |
| format_flights.py:106-119 | The loop variable `traveler` is read after the traveler loop. With no traveler pricings it is unbound, and the handler's error text is returned. | a priced offer whose first flight has `"travelerPricings": []` | the summary with "Baggage info not available" | high; not executed | FlightFormat.AsWrittenNoTravelersFails | FlightFormat.PriceVerification |
