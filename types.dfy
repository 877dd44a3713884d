/**
 * Shared vocabulary of the CopilotKit LangGraph agent model: the values an
 * agent state holds, chat messages, the events the graph engine streams, and
 * the emit-state directive a node attaches to its events.
 */
module Types {

  datatype Option<+T> = None | Some(value: T)

  /** Python truthiness of an optional string: `None` and `""` are falsy. */
  predicate Truthy(s: Option<string>)
  {
    s.Some? && s.value != ""
  }

  /** The sentinel node name LangGraph uses for the end of a graph. */
  const END: string := "__end__"

  /** Event kinds the translator reacts to (LangGraph `astream_events` v1). */
  const ON_CHAT_MODEL_START: string := "on_chat_model_start"
  const ON_CHAT_MODEL_STREAM: string := "on_chat_model_stream"
  const ON_CHAIN_END: string := "on_chain_end"

  datatype MessageKind = SystemMessage | HumanMessage | AIMessage | ToolMessage

  /**
   * A LangChain message. The merge looks only at its kind and its id;
   * `content` stands for all of its other fields (`tool_calls`,
   * `additional_kwargs`, …), which Python's `==` also compares.
   */
  datatype Message = Message(id: Option<string>, kind: MessageKind, content: string)

  /**
   * A value stored in the agent state: JSON-like data and, as leaves,
   * deserialised LangChain messages. A `Value` stands for a Python value up
   * to Python's `==`, which is how the stream loop compares states: each
   * number is kept as its literal text in one canonical form, so that
   * numbers Python deems equal (`1 == 1.0`) are encoded alike. A bool and a
   * number always compare unequal here, unlike Python's `True == 1`.
   */
  datatype Value =
    | Null
    | Bool(b: bool)
    | Num(literal: string)
    | Str(s: string)
    | List(items: seq<Value>)
    | Dict(fields: map<string, Value>)
    | Msg(message: Message)

  /** The agent state: a Python dict from keys to values. */
  type State = map<string, Value>

  /**
   * One entry of an emit-state directive: mirror the arguments of tool
   * `tool` (or its field `argument`, when one is given) into state key `key`.
   */
  datatype DirectiveEntry = DirectiveEntry(key: string, tool: Option<string>, argument: Option<string>)

  /** Directive entries are unique by state key (the directive is a dict). */
  predicate DistinctKeys(d: seq<DirectiveEntry>)
  {
    forall i, j :: 0 <= i < j < |d| ==> d[i].key != d[j].key
  }

  /** The emit-state directive, in dict iteration order. */
  type Directive = d: seq<DirectiveEntry> | DistinctKeys(d) witness []

  /** The first tool-call fragment of a streamed chat-model chunk. */
  datatype ToolCallChunk = ToolCallChunk(name: Option<string>, args: string)

  /**
   * One engine event: its `name`, its kind (`event`), its `run_id`, the
   * `copilotkit:emit-state` entry of its metadata and, for chat-model stream
   * events, the first of the chunk's tool-call fragments.
   */
  datatype Event = Event(
    name: string,
    kind: string,
    runId: string,
    emitState: Option<Directive>,
    chunk: Option<ToolCallChunk>)

  /** Python truthiness of the event's directive: absent and `{}` are falsy. */
  predicate Directed(e: Event)
  {
    e.emitState.Some? && |e.emitState.value| > 0
  }

  /**
   * The tolerant partial-JSON parser, an external library: `None` stands for
   * the exception it raises on text it cannot make sense of.
   */
  type Parser = string -> Option<Value>
}
