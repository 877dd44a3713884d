/**
 * The agents: the descriptor an agent reports of itself (`dict_repr`), and
 * `LangGraphAgent.execute`, which merges the request into the state, picks
 * the run mode and thread id, seeds the graph engine in continue mode, and
 * streams the translated events.
 */
module Agents {
  import opened Types
  import opened MergeState
  import opened EventStream

  /** The fields of `Agent` that take part in its descriptor. */
  datatype Agent = Agent(name: string, description: Option<string>)

  /** `Agent.dict_repr`: the name, and the description or "" when it is absent or empty. */
  function DictRepr(a: Agent): (r: map<string, string>)
    ensures r.Keys == {"name", "description"}
    ensures r["name"] == a.name
    ensures a.description.None? ==> r["description"] == ""
    ensures a.description.Some? ==> r["description"] == a.description.value
  {
    map["name" := a.name, "description" := if Truthy(a.description) then a.description.value else ""]
  }

  /** `LangGraphAgent.dict_repr`: the base descriptor plus exactly one key, "type", set to "langgraph". */
  function LangGraphDictRepr(a: Agent): (r: map<string, string>)
    ensures r.Keys == DictRepr(a).Keys + {"type"}
    ensures r["type"] == "langgraph"
    ensures forall k :: k in DictRepr(a) ==> r[k] == DictRepr(a)[k]
  {
    DictRepr(a)["type" := "langgraph"]
  }

  // ---------------------------------------------------------------------
  // Run mode and thread id

  datatype Mode = Start | Continue

  /** Continue an existing thread when one is named and not at its end node. */
  function SelectMode(threadId: Option<string>, nodeName: Option<string>): (m: Mode)
    ensures m == Continue <==> Truthy(threadId) && nodeName != Some(END)
  {
    if Truthy(threadId) && nodeName != Some(END) then Continue else Start
  }

  /** The thread id used for the run: the caller's, or `freshId` when it names none. */
  function ResolveThreadId(threadId: Option<string>, freshId: string): (id: string)
    ensures Truthy(threadId) ==> id == threadId.value
    ensures !Truthy(threadId) ==> id == freshId
  {
    if Truthy(threadId) then threadId.value else freshId
  }

  /** A continued run always stays on the caller's thread; a fresh id implies a new run. */
  lemma ContinueKeepsThread(threadId: Option<string>, nodeName: Option<string>, freshId: string)
    ensures SelectMode(threadId, nodeName) == Continue ==> ResolveThreadId(threadId, freshId) == threadId.value
    ensures ResolveThreadId(threadId, freshId) != freshId ==> Truthy(threadId)
    ensures !Truthy(threadId) ==> SelectMode(threadId, nodeName) == Start && ResolveThreadId(threadId, freshId) == freshId
  {
  }

  // ---------------------------------------------------------------------
  // The LangGraph agent

  /** The agent's `merge_state`: the default merge or a caller-supplied function. */
  datatype MergeStrategy =
    | DefaultMerge
    | CustomMerge(merge: (State, seq<Message>, Value) -> State)

  datatype LangGraphAgent = LangGraphAgent(base: Agent, mergeState: MergeStrategy)

  /**
   * The state a strategy produces: a custom merge is applied as given; the
   * default one (which needs the state's messages to be messages) keeps every
   * other key, writes the merged messages and the action catalogue.
   */
  function Merged(strategy: MergeStrategy, state: State, messages: seq<Message>, actions: Value): (r: State)
    requires strategy.DefaultMerge? ==> HasMessageList(state)
    ensures strategy.CustomMerge? ==> r == strategy.merge(state, messages, actions)
    ensures strategy.DefaultMerge? ==>
      && r.Keys == state.Keys + {"messages", "copilotkit"}
      && (forall k :: k in state && k != "messages" && k != "copilotkit" ==> r[k] == state[k])
      && r["copilotkit"] == Dict(map["actions" := actions])
      && HasMessageList(r) && StateMessages(r) == MergedMessages(state, messages)
  {
    match strategy
    case DefaultMerge =>
      MergedStateKeys(state, messages, actions);
      MergedState(state, messages, actions)
    case CustomMerge(f) => f(state, messages, actions)
  }

  /** A call of `update_state`: thread, new values, and the node they are written as. */
  datatype StateUpdate = StateUpdate(threadId: string, values: State, asNode: Option<string>)

  /** A call of `astream_events`: thread and input (none when continuing). */
  datatype StreamRequest = StreamRequest(threadId: string, input: Option<State>)

  /**
   * The compiled graph as the agent sees it: its top-level node names, and
   * the record of the calls the agent makes on it.
   */
  class GraphEngine {
    const nodes: set<string>
    var updates: seq<StateUpdate>
    var streams: seq<StreamRequest>

    constructor (nodes: set<string>)
      ensures this.nodes == nodes && updates == [] && streams == []
    {
      this.nodes := nodes;
      updates := [];
      streams := [];
    }

    /** `update_state(config, values, as_node)`. */
    method UpdateState(threadId: string, values: State, asNode: Option<string>)
      modifies this
      ensures updates == old(updates) + [StateUpdate(threadId, values, asNode)]
      ensures streams == old(streams)
    {
      updates := updates + [StateUpdate(threadId, values, asNode)];
    }

    /** `astream_events(input, config)`: only the request is recorded. */
    method StreamEventsFrom(threadId: string, input: Option<State>)
      modifies this
      ensures streams == old(streams) + [StreamRequest(threadId, input)]
      ensures updates == old(updates)
    {
      streams := streams + [StreamRequest(threadId, input)];
    }
  }

  /**
   * `LangGraphAgent.execute` together with the stream it returns. The
   * engine's answer to the run (its events, the state it reports while each
   * one is processed, and its state afterwards) and the fresh thread id are
   * inputs.
   */
  method Execute(agent: LangGraphAgent, engine: GraphEngine, state: State, messages: seq<Message>,
                 threadId: Option<string>, nodeName: Option<string>, actions: Value, freshId: string,
                 events: seq<Event>, snapshots: seq<State>, fin: FinalSnapshot, parse: Parser)
    returns (frames: seq<Frame>)
    requires agent.mergeState.DefaultMerge? ==> HasMessageList(state)
    requires |events| > 0 && |snapshots| == |events| && |fin.writes| > 0
    requires RunExtractable(RunConfig(agent.base.name, ResolveThreadId(threadId, freshId), engine.nodes),
                            Initial(nodeName, Merged(agent.mergeState, state, messages, actions)), events, snapshots, parse)
    modifies engine
    ensures var merged := Merged(agent.mergeState, state, messages, actions);
      var mode, id := SelectMode(threadId, nodeName), ResolveThreadId(threadId, freshId);
      && engine.updates == old(engine.updates) + (if mode == Continue then [StateUpdate(id, merged, nodeName)] else [])
      && engine.streams == old(engine.streams) + [StreamRequest(id, if mode == Start then Some(merged) else None)]
      && frames == Run(RunConfig(agent.base.name, id, engine.nodes), Initial(nodeName, merged), events, snapshots, parse).1
                   + [FinalFrame(RunConfig(agent.base.name, id, engine.nodes), events[|events| - 1].runId, fin)]
  {
    var merged;
    match agent.mergeState {
      case DefaultMerge =>
        merged := DefaultMergeState(state, messages, actions);
      case CustomMerge(f) =>
        merged := f(state, messages, actions);
    }
    var mode := if Truthy(threadId) && nodeName != Some(END) then Continue else Start;
    var id := if Truthy(threadId) then threadId.value else freshId;
    if mode == Continue {
      engine.UpdateState(id, merged, nodeName);
    }
    var initialState := if mode == Start then Some(merged) else None;
    engine.StreamEventsFrom(id, initialState);
    frames := StreamEvents(RunConfig(agent.base.name, id, engine.nodes), nodeName, merged, events, snapshots, fin, parse);
  }
}
