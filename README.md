# CopilotKit LangGraph agent: state synchronisation, in Dafny

This project models the state-synchronisation core of the CopilotKit Python
SDK's LangGraph agent (`copilotkit/agent.py`). It also proves properties of the model.

When a LangGraph agent is executed, the following happens:

1. The incoming messages are merged into the agent state (`langgraph_default_merge_state`).
2. The run mode is chosen: start a new run, or continue an existing thread.
3. In continue mode, the graph engine is seeded with the merged state.
4. The engine's event stream is translated (`_stream_events`):
   - every event the frontend should see is passed through;
   - before it, when the state, the node or the node's completion calls for it, a synthesised `on_copilotkit_state_sync` frame is emitted;
   - one final sync frame follows the stream.
5. While a node streams a tool call whose arguments a node's emit-state directive mirrors into the state, the `_StreamingStateExtractor` does three things:
   - it buffers the argument text;
   - it parses it with a tolerant JSON parser;
   - it maps the parsed values (or the cached ones when parsing fails) onto state keys.

   `_stream_events` lays these extracted values over the engine's state while the emit-state window is open.

Layout:

- `types.dfy` (`Types`) holds the shared vocabulary: state values, messages, engine events, and the emit-state directive.
  - The directive is an ordered sequence of entries with distinct state keys, because the code depends on dict iteration order.
- `extractor.dfy` (`StreamingState`) models the streaming state extractor.
  - The pure functions on the value `Extraction` specify `buffer_tool_calls`, `get_emit_state_config` and `extract_state`.
  - The class `StreamingStateExtractor` has the Python object's mutable fields. Its methods are proved against those functions.
- `merge.dfy` (`MergeState`) models the default state merge.
  - It is a loop method proved against the function `MergedState`, plus lemmas on de-duplication, order and idempotence.
- `stream.dfy` (`EventStream`) models the event translator.
  - `Step` (one event) and `Run` (a left fold over the events) are its specification.
  - `StreamEvents` is the loop, proved to yield exactly `Run`'s frames followed by `FinalFrame`.
  - Lemmas cover the frames of a whole run and of each event.
- `agent.dfy` (`Agents`) models the agent descriptors, the choice of mode and thread id, and `Execute`.
  - `Execute` runs against a `GraphEngine` object that records the `update_state` and `astream_events` calls made on it.

Two behaviours of the code are easy to miss:

- Repeated inbound ids are all kept: the id set is built once, before the loop (copilotkit/agent.py:62-66), and never grows.
  - `MergeState.UnseenKeepsNewIds` states this.
- Events that arrive before any node is known yield no frames, not even a passthrough (copilotkit/agent.py:176-177).
  - `EventStream.StepFrames` and `EventStream.RunPassthroughs` state this.

## Model

| member | source | states |
|---|---|---|
| StreamingState.Buffered | copilotkit/agent.py:258-268 | An event without tool-call fragments changes nothing. A named fragment makes its tool current and replaces that tool's buffer. A nameless one appends to the current tool's buffer, and changes nothing when no tool is current. No other tool's buffer changes. The buffer keys grow by the written tool only. |
| StreamingState.UnnamedFragmentsAppend | copilotkit/agent.py:265-268 | A run of nameless fragments appends all of their argument text, in order, to the current tool's buffer. Without a current tool they leave the extractor unchanged. |
| StreamingState.ToolCallAccumulates | copilotkit/agent.py:262-268 | A named fragment and the nameless ones after it leave exactly their concatenated text in that tool's buffer. That tool is current, and other tools' buffers are unchanged. |
| StreamingState.FirstEntryFor | copilotkit/agent.py:273-277 | Gives the index of the first directive entry whose tool is the name: no earlier entry names it, and no index means that no entry names it. |
| StreamingState.ConfigKeyDetermined | copilotkit/agent.py:273-275 | Two tools that get the same configured state key are the same tool, because state keys are unique in the directive. So the order in which buffers are visited cannot change the result. |
| StreamingState.AfterExtract | copilotkit/agent.py:292-300 | After extraction the cache holds the value used for every emitted tool. Other cache entries are kept. Buffers, cursor and directive are unchanged. |
| StreamingState.ContributionStep | copilotkit/agent.py:286-305 | Visiting one more buffered tool adds exactly its own state key and value, or nothing when it does not emit. |
| StreamingState.ExtractionOfTool | copilotkit/agent.py:286-305 | A configured buffered tool emits the projection of its parsed value. When parsing fails it emits the projection of the cached value. With neither, it emits nothing. |
| StreamingState.ExtractedKeysConfigured | copilotkit/agent.py:286-290 | The extracted state only has keys that the directive configures for buffered tools. |
| StreamingState.UnconfiguredToolIgnored | copilotkit/agent.py:287-290 | A tool with no configured state key neither contributes to the extracted state nor changes the cache: removing its buffer changes nothing. |
| StreamingState.ContributionCongruence | copilotkit/agent.py:286-305 | The extracted state and the cache update depend only on which tools emit and on the values they resolve to. |
| StreamingState.BridgedResolve | copilotkit/agent.py:292-300 | After one extraction, a fragment that makes the current tool's buffer unparsable still resolves every tool to the same value, thanks to the cache. |
| StreamingState.CacheBridgesParseFailure | copilotkit/agent.py:292-300 | Once a tool's buffer has parsed and been extracted, a later fragment that leaves it unparsable yields the same extracted state. |
| StreamingState.StreamingStateExtractor.constructor | copilotkit/agent.py:251-256 | A new extractor holds the given directive, no buffers, no current tool and an empty cache. |
| StreamingState.StreamingStateExtractor.BufferToolCalls | copilotkit/agent.py:258-268 | Changes the object's fields exactly as `Buffered` says. |
| StreamingState.StreamingStateExtractor.GetEmitStateConfig | copilotkit/agent.py:270-277 | The loop over the directive returns (argument, state key) of the first entry for the tool, or (None, None) when there is none. |
| StreamingState.StreamingStateExtractor.ExtractTool | copilotkit/agent.py:287-305 | One loop iteration adds the tool's contribution to the state being built and records the value it used in the cache. |
| StreamingState.StreamingStateExtractor.ExtractState | copilotkit/agent.py:280-307 | Returns the extracted state of the fields before the call. The only field updated is the cache, as `AfterExtract` describes. |
| MergeState.DropLeadingSystem | copilotkit/agent.py:56-58 | A leading system message is removed. Otherwise the inbound messages are unchanged. |
| MergeState.DefaultMergeState | copilotkit/agent.py:49-74 | The result is the merged state: existing messages, then the new inbound ones, and "copilotkit" set to the actions. |
| MergeState.AppendUnseen | copilotkit/agent.py:62-66 | The loop appends to the existing messages exactly those inbound messages whose id is not among the given ids, in inbound order. |
| MergeState.MergedStateKeys | copilotkit/agent.py:68-74 | Every other state key keeps its value. "messages" holds the merged list, and "copilotkit" is `{"actions": actions}`. |
| MergeState.UnseenMembers | copilotkit/agent.py:64-66 | A message is kept if and only if it is inbound and its id is not an existing id. |
| MergeState.UnseenConcat | copilotkit/agent.py:64-66 | De-duplication keeps inbound order: it distributes over concatenation. |
| MergeState.UnseenKeepsNewIds | copilotkit/agent.py:62-66 | The id set is the existing ids only, so inbound messages with new ids are all kept, repeated ids included. |
| MergeState.UnseenDropsKnownIds | copilotkit/agent.py:64-66 | Inbound messages whose ids all exist already add nothing. |
| MergeState.UnseenLength | copilotkit/agent.py:64-66 | De-duplication never adds messages. |
| MergeState.MergedMessagesShape | copilotkit/agent.py:56-66 | The merged messages start with the existing ones in their order. The rest are exactly the inbound messages (system message aside) with ids not among the existing ones. |
| MergeState.MergedMessagesReadBack | copilotkit/agent.py:61-74 | The merged state stores messages that read back as the merged list. |
| MergeState.MergeIdempotent | copilotkit/agent.py:49-74 | Merging the same messages and actions a second time changes nothing. |
| EventStream.Prepared | copilotkit/agent.py:182-189 | Resetting on a directed chat-model start and buffering a directed stream chunk keep the extractor consistent: the current tool is always buffered. |
| EventStream.Extracted | copilotkit/agent.py:191-195 | Extraction, done only while the window is open, keeps the extractor consistent. |
| EventStream.Step | copilotkit/agent.py:162-221 | One event, when defined (`Extractable`: every argument it looks up is in a dict), keeps the extractor consistent. |
| EventStream.Run | copilotkit/agent.py:161-221 | The fold over the events, when each of its steps is defined (`RunExtractable`), keeps the extractor consistent. |
| EventStream.RunExtractablePrefix | copilotkit/agent.py:161-221 | A run whose every step is defined is defined on every prefix of its events. |
| EventStream.RunSnoc | copilotkit/agent.py:161-221 | The fold over one more event is the fold so far followed by one defined step. |
| EventStream.Initial | copilotkit/agent.py:155-159 | Builds the loop variables these lines set up; its contract states that the extractor it starts from is consistent. |
| EventStream.FinalFrame | copilotkit/agent.py:223-239 | The final frame is a sync frame with active false and running true. It carries the engine's final values, the thread, and the last event's run id. Its node is "__end__" when no node is pending, else the first written key. |
| EventStream.StepFrames | copilotkit/agent.py:172-221 | No frames (and nothing changed) while no node is known. Otherwise the passthrough comes last, preceded by a sync frame if and only if the overlaid state differs from the last one, the node differs from the last emitted one, or the node is ending. The sync frame carries the node, the run id, the new state, active as the negation of exiting, and running true. |
| EventStream.NodeOnlyTopLevel | copilotkit/agent.py:172-173 | The tracked node only ever changes to an event name that is a top-level node. |
| EventStream.WindowLifecycle | copilotkit/agent.py:179-201 | The window opens at the tracked node on a directed event while none is open. It closes on an undirected chain end of its own node, and otherwise stays as it is. |
| EventStream.ResetForgetsEarlierToolCalls | copilotkit/agent.py:182-184 | A directed chat-model start replaces the extractor with a fresh one, so whether the event is defined and what it yields do not depend on earlier tool calls. |
| EventStream.OverlayPrecedence | copilotkit/agent.py:186-195 | With no window the snapshot is used unchanged. With one open, the extracted keys are laid over it and win on collision. |
| EventStream.FirstProcessed | copilotkit/agent.py:172-177 | The index of the first processed event is at most the number of events; it equals it when none is processed, since an index below it is processed only when a node is known at the start or that event names a top-level node. |
| EventStream.FirstProcessedIsFirst | copilotkit/agent.py:172-177 | Without an initial node, no event before the first processed one names a top-level node, and the first processed one does. |
| EventStream.RunPassthroughs | copilotkit/agent.py:172-221 | The passthrough frames of a run are exactly the events from the first processed one on, in order. A node is known afterwards exactly when some event was processed or one was known at the start. |
| EventStream.StepPassthroughs | copilotkit/agent.py:172-221 | One event passes itself through exactly when a node is known. |
| EventStream.StepShape | copilotkit/agent.py:158-221 | One event yields no frames, or a passthrough preceded by at most one sync frame naming the tracked node. The sync frame is always present while no node has been emitted. |
| EventStream.RunStartsWithSync | copilotkit/agent.py:158-219 | Since no node has been emitted at the start, the first frame of a run is a sync frame. |
| EventStream.RunNode | copilotkit/agent.py:172-173 | The tracked node is always a top-level node or the node the run started from. |
| EventStream.RunSyncNodes | copilotkit/agent.py:172-219 | Every sync frame of a run names a top-level node or the node the run started from. |
| EventStream.RunEndsInPassthrough | copilotkit/agent.py:209-221 | The frames of a run are empty or end with a passthrough. |
| EventStream.FollowEmitState | copilotkit/agent.py:179-201 | The emit-state part of an iteration does six things to the object and the window, exactly as `Step` specifies: open the window, reset the extractor, read the snapshot, buffer, overlay, close the window. |
| EventStream.ProcessEvent | copilotkit/agent.py:162-221 | One loop iteration updates the loop variables and yields the frames exactly as `Step` does. |
| EventStream.StreamEvents | copilotkit/agent.py:146-239 | The frames are those of `Run` over all the events, followed by exactly one final frame. |
| Agents.DictRepr | copilotkit/agent.py:42-47 | The descriptor has exactly the keys "name" and "description". The description is "" when absent. |
| Agents.LangGraphDictRepr | copilotkit/agent.py:243-248 | The LangGraph descriptor is the base one plus the key "type" set to "langgraph". |
| Agents.Merged | copilotkit/agent.py:126-130 | A custom merge is applied as given. The default one keeps every other key, sets "copilotkit" to the actions and stores messages that read back as the merged list. |
| Agents.SelectMode | copilotkit/agent.py:132 | The mode is continue if and only if a non-empty thread id is given and the node is not "__end__". |
| Agents.ResolveThreadId | copilotkit/agent.py:133 | A non-empty thread id is kept. Otherwise the fresh id is used. |
| Agents.ContinueKeepsThread | copilotkit/agent.py:132-133 | A continued run stays on the caller's thread. Without a thread id the run starts on the fresh id. |
| Agents.GraphEngine.UpdateState | copilotkit/agent.py:136-137 | Records one `update_state` call, with its thread, values and node. |
| Agents.GraphEngine.StreamEventsFrom | copilotkit/agent.py:157-161 | Records one `astream_events` call, with its thread and input. |
| Agents.Execute | copilotkit/agent.py:115-144 | Merges, then calls `update_state` only in continue mode, with the merged state as the given node. It streams with the merged state as input in start mode and no input in continue mode. It returns the translated frames of that thread, agent and start node. |

## Left out

- The partial-JSON parser (`partialjson`) is a parameter `parse: string -> Option<Value>`. `None` stands for the exception it raises. Its own behaviour on truncated text is not modelled.
- The graph engine is not modelled; the names below are its calls.
  - `astream_events`: its events are an input sequence. Only the call's thread and input are recorded.
  - `get_state` during the loop: its answers are an input sequence aligned with the events.
  - `get_state` after the loop: its answer is an input record (values, pending nodes, written keys).
  - `agent.nodes`: the set of top-level node names.
  - `update_state`: only recorded.
- `uuid.uuid4()` is the parameter `freshId` of `Agents.Execute`.
- `copilotkit_messages_to_langchain` is not part of this model, so `Agents.Execute` takes LangChain messages directly. It lives in copilotkit/langchain.py, which this model does not cover.
- `langchain_dumps` and `langchain_load` are not modelled. Frames are the datatype `Frame` and messages are records with an id, so the state's "messages" must hold messages (`MergeState.HasMessageList`).
- Several fixed parts of the frame are implicit in the constructor `StateSync`: the event name `on_copilotkit_state_sync`, the role "assistant" and the trailing newline.
- Python's equality between a bool and a number (`True == 1`) is not modelled: `Types.Value` keeps them apart, so a snapshot value that changes from `1` to `True` gives a sync frame in the model where the code (copilotkit/agent.py:209) gives none.
- A message's fields other than its id and its kind are not modelled one by one. `content` stands for all of them (`tool_calls`, `additional_kwargs`, …), so the state comparison at copilotkit/agent.py:209 agrees with Python's `==` on messages only under that encoding.
- Async iteration, cancellation and the interleaving of the consumer with the generator are not modelled: the stream is modelled after it has ended.
- Only the first tool-call fragment of a streamed chunk is read by the code. It is the event field `chunk`, and `None` stands for an empty fragment list.
- Runtime failures the code does not handle are preconditions:
  - `.get` on a parsed value that is not a dict (copilotkit/agent.py:305). The precondition is exact: `EventStream.RunExtractable` asks, for each event that extracts, that every emitting tool whose directive entry names an argument resolves to a dict (`StreamingState.ProjectionsDefined`). Values of tools without a named argument may be of any kind;
  - a stream without events, so that `run_id` is unbound (copilotkit/agent.py:229);
  - an empty `writes` map (copilotkit/agent.py:226). Its first key is read even when no node is pending.
- Agents.Execute: a custom `merge_state` is any function on (state, messages, actions). Nothing is proved about it.
- The demo server modules (`coagents/demo.py`, `copilotkit/demo.py`) hold no state-synchronisation logic and are not part of this model.
