/**
 * The conversation vocabulary of the agent: LangChain's four message kinds,
 * the tool calls an AI message carries, the flight options kept in the
 * session, and the session dictionary `BookingState` (f_agent.py).
 */
module Messages {
  import opened Wrappers

  /** The keyword arguments of a `search_flights` tool call; `adults` and
      `cabin_class` may be omitted and then take their defaults. */
  datatype SearchArgs = SearchArgs(
    origin: string,
    destination: string,
    departureDate: string,
    adults: Option<int>,
    cabinClass: Option<string>)

  /** One entry of `AIMessage.tool_calls`: a tool name, its arguments and the
      correlation id that the answering `ToolMessage` must carry. */
  datatype ToolCall = ToolCall(name: string, args: SearchArgs, id: string)

  datatype Message =
    | System(content: string)
    | Human(content: string)
    | AI(content: string, toolCalls: seq<ToolCall>)
    | Tool(content: string, name: string, toolCallId: string)

  /** The `FlightSegment` fields of the flight options stored in the session. */
  datatype FlightSegment = FlightSegment(
    airline: string,
    flightNumber: string,
    origin: string,
    destination: string,
    departure: string,
    arrival: string,
    duration: string)

  /** A flight option: `id` is the provider's opaque offer id. */
  datatype FlightOption = FlightOption(
    id: string,
    price: string,
    currency: string,
    segments: seq<FlightSegment>,
    cabinClass: string)

  /** The `BookingState` dictionary that the graph threads through its nodes. */
  datatype BookingState = BookingState(
    messages: seq<Message>,
    searchParams: map<string, string>,
    flightOptions: seq<FlightOption>,
    selectedFlight: Option<FlightOption>,
    bookingInProgress: bool,
    completed: bool)

  /** The name under which the flight search tool is registered. */
  const SearchToolName := "search_flights"

  /** The tool calls of a message; only AI messages have the attribute. */
  predicate HasSearchCall(m: Message) {
    m.AI? && exists i :: 0 <= i < |m.toolCalls| && m.toolCalls[i].name == SearchToolName
  }
}
