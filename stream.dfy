/**
 * The event-stream translator (`LangGraphAgent._stream_events`): a fold over
 * the engine's events that tracks the current top-level node, an emit-state
 * window and the last state it synchronised, drives the streaming state
 * extractor, and decides for each event whether a state-sync frame precedes
 * the passthrough frame. One final state-sync frame follows the events.
 *
 * `Step` and `Run` are the specification; `StreamEvents` is the loop, proved
 * to produce `Run`'s frames followed by `FinalFrame`.
 */
module EventStream {
  import opened Types
  import opened StreamingState

  /** What the translator knows about its run: agent name, thread id, top-level nodes. */
  datatype RunConfig = RunConfig(agentName: string, threadId: string, nodes: set<string>)

  /**
   * An output frame: a synthesised `on_copilotkit_state_sync` record (whose
   * role is always "assistant") or the original event, serialised as is.
   */
  datatype Frame =
    | StateSync(threadId: string, runId: string, agentName: string, nodeName: string,
                active: bool, state: State, running: bool)
    | Passthrough(event: Event)

  /**
   * The loop variables: `node_name`, `prev_node_name`, `emit_state_until_end`,
   * the last synchronised `state` and the extractor.
   */
  datatype Tracker = Tracker(
    node: Option<string>,
    prevNode: Option<string>,
    window: Option<string>,
    last: State,
    extractor: Extraction)

  /** The engine's state after its stream ends: values, pending nodes, and the keys of its last writes. */
  datatype FinalSnapshot = FinalSnapshot(values: State, next: seq<string>, writes: seq<string>)

  predicate Sound(t: Tracker)
  {
    Consistent(t.extractor)
  }

  // ---------------------------------------------------------------------
  // One event

  /** The tracked node: only names of top-level nodes replace it. */
  function TrackedNode(cfg: RunConfig, t: Tracker, e: Event): Option<string>
  {
    if e.name in cfg.nodes then Some(e.name) else t.node
  }

  /** The window opens at the tracked node on the first directed event. */
  function OpenedWindow(window: Option<string>, e: Event, node: Option<string>): Option<string>
  {
    if Directed(e) && window.None? then node else window
  }

  /** The extractor after the reset on a chat-model start and the buffering of a stream chunk. */
  function Prepared(x: Extraction, e: Event): (r: Extraction)
    requires Consistent(x)
    ensures Consistent(r)
  {
    var reset := if Directed(e) && e.kind == ON_CHAT_MODEL_START then Fresh(e.emitState.value) else x;
    if Directed(e) && e.kind == ON_CHAT_MODEL_STREAM then Buffered(reset, e.chunk) else reset
  }

  /** The engine snapshot with the extracted state laid over it while the window is open. */
  function Overlaid(window: Option<string>, x: Extraction, snapshot: State, parse: Parser): State
    requires window.Some? ==> ProjectionsDefined(x, parse)
  {
    if window.Some? then snapshot + ExtractedState(x, parse) else snapshot
  }

  /** The extractor after the extraction, which only happens while the window is open. */
  function Extracted(window: Option<string>, x: Extraction, parse: Parser): (r: Extraction)
    requires Consistent(x) && (window.Some? ==> ProjectionsDefined(x, parse))
    ensures Consistent(r)
  {
    if window.Some? then AfterExtract(x, parse) else x
  }

  /** The window closes on a chain end of its own node that carries no directive. */
  function ClosedWindow(window: Option<string>, e: Event): Option<string>
  {
    if !Directed(e) && window == Some(e.name) && e.kind == ON_CHAIN_END then None else window
  }

  /** The event is the tracked node's own completion. */
  predicate Exiting(node: Option<string>, e: Event)
  {
    node == Some(e.name) && e.kind == ON_CHAIN_END
  }

  /**
   * The iteration on `e` is defined: when it extracts (a node is known and
   * the window is open), every emitting tool whose directive names an
   * argument has parsed to a dict, so that the argument can be looked up.
   */
  predicate Extractable(cfg: RunConfig, t: Tracker, e: Event, parse: Parser)
    requires Sound(t)
  {
    var node := TrackedNode(cfg, t, e);
    node.Some? && OpenedWindow(t.window, e, node).Some? ==> ProjectionsDefined(Prepared(t.extractor, e), parse)
  }

  /** One loop iteration: the new loop variables and the frames it yields. */
  function Step(cfg: RunConfig, t: Tracker, e: Event, snapshot: State, parse: Parser): (r: (Tracker, seq<Frame>))
    requires Sound(t) && Extractable(cfg, t, e, parse)
    ensures Sound(r.0)
  {
    var node := TrackedNode(cfg, t, e);
    if node.None? then (t, [])
    else
      var window := OpenedWindow(t.window, e, node);
      var x := Prepared(t.extractor, e);
      var updated := Overlaid(window, x, snapshot, parse);
      var x' := Extracted(window, x, parse);
      var window' := ClosedWindow(window, e);
      Synced(cfg, t, e, node.value, window', updated, x')
  }

  /**
   * The end of an iteration on a known node: a state-sync frame precedes the
   * passthrough when the state changed, the node changed or the node exits.
   */
  function Synced(cfg: RunConfig, t: Tracker, e: Event, node: string, window: Option<string>,
                  updated: State, x: Extraction): (r: (Tracker, seq<Frame>))
  {
    var exiting := Exiting(Some(node), e);
    if updated != t.last || t.prevNode != Some(node) || exiting then
      (Tracker(Some(node), Some(node), window, updated, x),
       [StateSync(cfg.threadId, e.runId, cfg.agentName, node, !exiting, updated, true), Passthrough(e)])
    else
      (Tracker(Some(node), t.prevNode, window, t.last, x), [Passthrough(e)])
  }

  /** Every iteration of the loop over `events` is defined (`Extractable`). */
  predicate RunExtractable(cfg: RunConfig, t0: Tracker, events: seq<Event>, snapshots: seq<State>, parse: Parser)
    requires Sound(t0) && |snapshots| == |events|
    decreases |events|, 0
  {
    var n := |events| - 1;
    events == [] ||
    (RunExtractable(cfg, t0, events[..n], snapshots[..n], parse)
     && Extractable(cfg, Run(cfg, t0, events[..n], snapshots[..n], parse).0, events[n], parse))
  }

  /** The loop over `events`, `snapshots[i]` being the engine state read while event `i` is processed. */
  function Run(cfg: RunConfig, t0: Tracker, events: seq<Event>, snapshots: seq<State>, parse: Parser): (r: (Tracker, seq<Frame>))
    requires Sound(t0) && |snapshots| == |events| && RunExtractable(cfg, t0, events, snapshots, parse)
    ensures Sound(r.0)
    decreases |events|, 1
  {
    if events == [] then (t0, [])
    else
      var n := |events| - 1;
      var before := Run(cfg, t0, events[..n], snapshots[..n], parse);
      var step := Step(cfg, before.0, events[n], snapshots[n], parse);
      (step.0, before.1 + step.1)
  }

  /** The loop variables before the first event. */
  function Initial(nodeName: Option<string>, state: State): (t: Tracker)
    ensures Sound(t)
  {
    Tracker(nodeName, None, None, state, Fresh([]))
  }

  /** The frame yielded after the last event. */
  function FinalFrame(cfg: RunConfig, runId: string, fin: FinalSnapshot): (f: Frame)
    requires |fin.writes| > 0
    ensures f.StateSync? && !f.active && f.running
    ensures f.threadId == cfg.threadId && f.runId == runId && f.state == fin.values
    ensures fin.next == [] ==> f.nodeName == END
    ensures fin.next != [] ==> f.nodeName == fin.writes[0]
  {
    StateSync(cfg.threadId, runId, cfg.agentName, if fin.next != [] then fin.writes[0] else END, false, fin.values, true)
  }

  /** A run that is defined on all events is defined on every prefix of them. */
  lemma {:induction false} RunExtractablePrefix(cfg: RunConfig, t0: Tracker, events: seq<Event>, snapshots: seq<State>,
                                                parse: Parser, i: nat)
    requires Sound(t0) && |snapshots| == |events| && RunExtractable(cfg, t0, events, snapshots, parse)
    requires i <= |events|
    ensures RunExtractable(cfg, t0, events[..i], snapshots[..i], parse)
    decreases |events|
  {
    if i < |events| {
      var n := |events| - 1;
      RunExtractablePrefix(cfg, t0, events[..n], snapshots[..n], parse, i);
      assert events[..n][..i] == events[..i] && snapshots[..n][..i] == snapshots[..i];
    } else {
      assert events[..i] == events && snapshots[..i] == snapshots;
    }
  }

  /** The fold over one more event is one more step, and that step is defined. */
  lemma RunSnoc(cfg: RunConfig, t0: Tracker, events: seq<Event>, snapshots: seq<State>, parse: Parser, i: nat)
    requires Sound(t0) && |snapshots| == |events| && RunExtractable(cfg, t0, events, snapshots, parse)
    requires i < |events|
    ensures RunExtractable(cfg, t0, events[..i], snapshots[..i], parse)
    ensures Extractable(cfg, Run(cfg, t0, events[..i], snapshots[..i], parse).0, events[i], parse)
    ensures RunExtractable(cfg, t0, events[..i + 1], snapshots[..i + 1], parse)
    ensures var before := Run(cfg, t0, events[..i], snapshots[..i], parse);
      var step := Step(cfg, before.0, events[i], snapshots[i], parse);
      Run(cfg, t0, events[..i + 1], snapshots[..i + 1], parse) == (step.0, before.1 + step.1)
  {
    RunExtractablePrefix(cfg, t0, events, snapshots, parse, i + 1);
    assert events[..i + 1][..i] == events[..i] && snapshots[..i + 1][..i] == snapshots[..i];
  }

  // ---------------------------------------------------------------------
  // Properties of one event

  /**
   * The frames of one event: none while no node is known; otherwise the
   * passthrough, preceded by a state-sync frame exactly when the state, the
   * node or the node's completion calls for one. A sync frame carries the
   * tracked node, the event's run id, the state it records, `active` as the
   * negation of the node's exit, and `running`.
   */
  lemma StepFrames(cfg: RunConfig, t: Tracker, e: Event, snapshot: State, parse: Parser)
    requires Sound(t) && Extractable(cfg, t, e, parse)
    ensures var r := Step(cfg, t, e, snapshot, parse);
      var node := TrackedNode(cfg, t, e);
      && (r.1 == [] <==> node.None?)
      && (node.None? ==> r.0 == t)
      && (node.Some? ==>
            var updated := Overlaid(OpenedWindow(t.window, e, node), Prepared(t.extractor, e), snapshot, parse);
            var due := updated != t.last || t.prevNode != node || Exiting(node, e);
            && r.1[|r.1| - 1] == Passthrough(e)
            && (|r.1| == 2 <==> due)
            && (!due ==> |r.1| == 1 && r.0.last == t.last && r.0.prevNode == t.prevNode)
            && (due ==> r.0.last == updated && r.0.prevNode == node
                        && r.1[0] == StateSync(cfg.threadId, e.runId, cfg.agentName, node.value,
                                               !Exiting(node, e), updated, true)))
  {
  }

  /** The tracked node only ever becomes the name of a top-level node. */
  lemma NodeOnlyTopLevel(cfg: RunConfig, t: Tracker, e: Event, snapshot: State, parse: Parser)
    requires Sound(t) && Extractable(cfg, t, e, parse)
    ensures var r := Step(cfg, t, e, snapshot, parse);
      r.0.node != t.node ==> r.0.node == Some(e.name) && e.name in cfg.nodes
  {
  }

  /**
   * The window opens at the tracked node on the first directed event while
   * none is open, and closes on an undirected chain end of its own node;
   * otherwise it stays as it is.
   */
  lemma WindowLifecycle(cfg: RunConfig, t: Tracker, e: Event, snapshot: State, parse: Parser)
    requires Sound(t) && Extractable(cfg, t, e, parse)
    requires TrackedNode(cfg, t, e).Some?
    ensures var w := Step(cfg, t, e, snapshot, parse).0.window;
      && (Directed(e) && t.window.None? ==> w == TrackedNode(cfg, t, e))
      && (!Directed(e) && t.window == Some(e.name) && e.kind == ON_CHAIN_END ==> w.None?)
      && (Directed(e) && t.window.Some? ==> w == t.window)
      && (!Directed(e) && (t.window != Some(e.name) || e.kind != ON_CHAIN_END) ==> w == t.window)
  {
  }

  /**
   * A directed chat-model start replaces the extractor with a fresh one for
   * its directive: what the event yields does not depend on the earlier
   * extractor, so earlier tool calls contribute nothing any more.
   */
  lemma ResetForgetsEarlierToolCalls(cfg: RunConfig, t: Tracker, y: Extraction, e: Event, snapshot: State, parse: Parser)
    requires Sound(t) && Consistent(y) && Extractable(cfg, t, e, parse)
    requires Directed(e) && e.kind == ON_CHAT_MODEL_START && TrackedNode(cfg, t, e).Some?
    ensures Prepared(t.extractor, e) == Fresh(e.emitState.value)
    ensures Extractable(cfg, t.(extractor := y), e, parse)
    ensures Step(cfg, t, e, snapshot, parse) == Step(cfg, t.(extractor := y), e, snapshot, parse)
  {
  }

  /**
   * The extractor's output is laid over the engine snapshot only while the
   * window is open, and its keys win over the snapshot's.
   */
  lemma OverlayPrecedence(window: Option<string>, x: Extraction, snapshot: State, parse: Parser)
    requires window.Some? ==> ProjectionsDefined(x, parse)
    ensures window.None? ==> Overlaid(window, x, snapshot, parse) == snapshot
    ensures window.Some? ==>
      var extracted, r := ExtractedState(x, parse), Overlaid(window, x, snapshot, parse);
      && r.Keys == snapshot.Keys + extracted.Keys
      && (forall k :: k in extracted ==> r[k] == extracted[k])
      && (forall k :: k in snapshot && k !in extracted ==> r[k] == snapshot[k])
  {
  }

  // ---------------------------------------------------------------------
  // Properties of a whole run

  /** The frames' passthrough events, in order. */
  function Passthroughs(frames: seq<Frame>): seq<Event>
    decreases |frames|
  {
    if frames == [] then []
    else
      var n := |frames| - 1;
      Passthroughs(frames[..n]) + (if frames[n].Passthrough? then [frames[n].event] else [])
  }

  /**
   * The index of the first event processed: zero when a node is already
   * known, else the first event naming a top-level node (`|events|` if none).
   */
  function FirstProcessed(cfg: RunConfig, node0: Option<string>, events: seq<Event>): (k: nat)
    ensures k <= |events|
    ensures k < |events| ==> node0.Some? || events[k].name in cfg.nodes
    decreases |events|
  {
    if node0.Some? || events == [] then 0
    else
      var n := |events| - 1;
      var k := FirstProcessed(cfg, node0, events[..n]);
      if k < n then k else if events[n].name in cfg.nodes then n else n + 1
  }

  /** `FirstProcessed` is what its name says: every earlier event names no top-level node. */
  lemma {:induction false} FirstProcessedIsFirst(cfg: RunConfig, node0: Option<string>, events: seq<Event>)
    requires node0.None?
    ensures var k := FirstProcessed(cfg, node0, events);
      && (forall j :: 0 <= j < k ==> events[j].name !in cfg.nodes)
      && (k < |events| ==> events[k].name in cfg.nodes)
    decreases |events|
  {
    if events != [] {
      var n := |events| - 1;
      FirstProcessedIsFirst(cfg, node0, events[..n]);
    }
  }

  /**
   * Every event from the first processed one on is passed through, in order,
   * and no earlier one is; a node is known from then on.
   */
  lemma {:induction false} RunPassthroughs(cfg: RunConfig, t0: Tracker, events: seq<Event>, snapshots: seq<State>, parse: Parser)
    requires Sound(t0) && |snapshots| == |events| && RunExtractable(cfg, t0, events, snapshots, parse)
    ensures var r, k := Run(cfg, t0, events, snapshots, parse), FirstProcessed(cfg, t0.node, events);
      && Passthroughs(r.1) == events[k..]
      && (r.0.node.Some? <==> k < |events| || t0.node.Some?)
    decreases |events|
  {
    if events != [] {
      var n := |events| - 1;
      var before := Run(cfg, t0, events[..n], snapshots[..n], parse);
      RunPassthroughs(cfg, t0, events[..n], snapshots[..n], parse);
      var k := FirstProcessed(cfg, t0.node, events[..n]);
      var step := Step(cfg, before.0, events[n], snapshots[n], parse);
      StepPassthroughs(cfg, before.0, events[n], snapshots[n], parse);
      PassthroughsConcat(before.1, step.1);
      var r := Run(cfg, t0, events, snapshots, parse);
      assert r == (step.0, before.1 + step.1);
      var known := TrackedNode(cfg, before.0, events[n]).Some?;
      assert known <==> k < n || t0.node.Some? || events[n].name in cfg.nodes;
      var K := FirstProcessed(cfg, t0.node, events);
      if known {
        assert K <= n && (K < n ==> K == k);
        SuffixSnoc(events, K);
      } else {
        assert K == n + 1 && k == n;
        assert events[..n][k..] == [];
      }
    }
  }

  lemma SuffixSnoc<T>(s: seq<T>, k: nat)
    requires k < |s|
    ensures s[k..] == s[..|s| - 1][k..] + [s[|s| - 1]]
  {
  }

  /** One event passes itself through exactly when a node is known. */
  lemma StepPassthroughs(cfg: RunConfig, t: Tracker, e: Event, snapshot: State, parse: Parser)
    requires Sound(t) && Extractable(cfg, t, e, parse)
    ensures var r := Step(cfg, t, e, snapshot, parse);
      && Passthroughs(r.1) == (if TrackedNode(cfg, t, e).Some? then [e] else [])
      && r.0.node == TrackedNode(cfg, t, e)
  {
    var node := TrackedNode(cfg, t, e);
    if node.Some? {
      var window := OpenedWindow(t.window, e, node);
      var x := Prepared(t.extractor, e);
      var s := Synced(cfg, t, e, node.value, ClosedWindow(window, e),
                      Overlaid(window, x, snapshot, parse), Extracted(window, x, parse));
      assert Step(cfg, t, e, snapshot, parse) == s;
      SyncedPassthroughs(s.1, e);
    }
  }

  /**
   * The shape of one event's frames: none, leaving the loop variables as
   * they were, or a passthrough preceded by at most one sync frame, which
   * names the tracked node and is always there while no node has been
   * emitted yet.
   */
  lemma StepShape(cfg: RunConfig, t: Tracker, e: Event, snapshot: State, parse: Parser)
    requires Sound(t) && Extractable(cfg, t, e, parse)
    ensures var r := Step(cfg, t, e, snapshot, parse);
      && r.0.node == TrackedNode(cfg, t, e)
      && (r.1 == [] ==> r.0 == t)
      && (r.1 != [] ==>
            && r.0.node.Some?
            && 1 <= |r.1| <= 2 && r.1[|r.1| - 1] == Passthrough(e)
            && (|r.1| == 2 ==> r.1[0].StateSync? && r.1[0].nodeName == r.0.node.value)
            && (t.prevNode.None? ==> |r.1| == 2))
  {
    var node := TrackedNode(cfg, t, e);
    if node.Some? {
      var window := OpenedWindow(t.window, e, node);
      var x := Prepared(t.extractor, e);
      assert Step(cfg, t, e, snapshot, parse) == Synced(cfg, t, e, node.value, ClosedWindow(window, e),
        Overlaid(window, x, snapshot, parse), Extracted(window, x, parse));
    }
  }

  /** The frames of a known node's event pass that event through once. */
  lemma SyncedPassthroughs(frames: seq<Frame>, e: Event)
    requires frames == [Passthrough(e)] || (|frames| == 2 && frames[0].StateSync? && frames[1] == Passthrough(e))
    ensures Passthroughs(frames) == [e]
  {
    assert frames[..|frames| - 1] == [] || frames[..|frames| - 1] == [frames[0]];
    if |frames| == 2 {
      assert Passthroughs([frames[0]]) == Passthroughs([]) + [];
    }
  }

  lemma {:induction false} PassthroughsConcat(a: seq<Frame>, b: seq<Frame>)
    ensures Passthroughs(a + b) == Passthroughs(a) + Passthroughs(b)
    decreases |b|
  {
    if b == [] {
      assert a + b == a;
    } else {
      var n := |b| - 1;
      PassthroughsConcat(a, b[..n]);
      assert (a + b)[..|a + b| - 1] == a + b[..n];
    }
  }

  /**
   * With no node emitted yet, the first frame of a run is a state sync: the
   * first processed event always differs from the (absent) last node.
   */
  lemma {:induction false} RunStartsWithSync(cfg: RunConfig, t0: Tracker, events: seq<Event>, snapshots: seq<State>, parse: Parser)
    requires Sound(t0) && |snapshots| == |events| && RunExtractable(cfg, t0, events, snapshots, parse)
    requires t0.prevNode.None?
    ensures var r := Run(cfg, t0, events, snapshots, parse);
      && (r.1 == [] ==> r.0.prevNode.None?)
      && (r.1 != [] ==> r.1[0].StateSync?)
    decreases |events|
  {
    if events != [] {
      var n := |events| - 1;
      var before := Run(cfg, t0, events[..n], snapshots[..n], parse);
      RunStartsWithSync(cfg, t0, events[..n], snapshots[..n], parse);
      StepShape(cfg, before.0, events[n], snapshots[n], parse);
    }
  }

  /** The tracked node of a run is a top-level node or the node it started from. */
  lemma {:induction false} RunNode(cfg: RunConfig, t0: Tracker, events: seq<Event>, snapshots: seq<State>, parse: Parser)
    requires Sound(t0) && |snapshots| == |events| && RunExtractable(cfg, t0, events, snapshots, parse)
    ensures var node := Run(cfg, t0, events, snapshots, parse).0.node;
      node.Some? ==> node.value in cfg.nodes || node == t0.node
    decreases |events|
  {
    if events != [] {
      var n := |events| - 1;
      var before := Run(cfg, t0, events[..n], snapshots[..n], parse);
      RunNode(cfg, t0, events[..n], snapshots[..n], parse);
      StepShape(cfg, before.0, events[n], snapshots[n], parse);
    }
  }

  /**
   * Every state-sync frame of a run names a top-level node or the node the
   * run started from.
   */
  lemma {:induction false} RunSyncNodes(cfg: RunConfig, t0: Tracker, events: seq<Event>, snapshots: seq<State>, parse: Parser)
    requires Sound(t0) && |snapshots| == |events| && RunExtractable(cfg, t0, events, snapshots, parse)
    ensures var frames := Run(cfg, t0, events, snapshots, parse).1;
      forall i :: 0 <= i < |frames| && frames[i].StateSync? ==>
        frames[i].nodeName in cfg.nodes || Some(frames[i].nodeName) == t0.node
    decreases |events|
  {
    if events != [] {
      var n := |events| - 1;
      var before := Run(cfg, t0, events[..n], snapshots[..n], parse);
      RunSyncNodes(cfg, t0, events[..n], snapshots[..n], parse);
      RunNode(cfg, t0, events[..n], snapshots[..n], parse);
      var step := Step(cfg, before.0, events[n], snapshots[n], parse);
      StepShape(cfg, before.0, events[n], snapshots[n], parse);
      var frames := before.1 + step.1;
      assert Run(cfg, t0, events, snapshots, parse).1 == frames;
      forall i | 0 <= i < |frames| && frames[i].StateSync?
        ensures frames[i].nodeName in cfg.nodes || Some(frames[i].nodeName) == t0.node
      {
        if i >= |before.1| {
          assert frames[i] == step.1[i - |before.1|];
        }
      }
    }
  }

  /** The frames of a run are empty or end in a passthrough. */
  lemma {:induction false} RunEndsInPassthrough(cfg: RunConfig, t0: Tracker, events: seq<Event>, snapshots: seq<State>, parse: Parser)
    requires Sound(t0) && |snapshots| == |events| && RunExtractable(cfg, t0, events, snapshots, parse)
    ensures var frames := Run(cfg, t0, events, snapshots, parse).1;
      frames != [] ==> frames[|frames| - 1].Passthrough?
    decreases |events|
  {
    if events != [] {
      var n := |events| - 1;
      var before := Run(cfg, t0, events[..n], snapshots[..n], parse);
      RunEndsInPassthrough(cfg, t0, events[..n], snapshots[..n], parse);
      StepShape(cfg, before.0, events[n], snapshots[n], parse);
    }
  }

  // ---------------------------------------------------------------------
  // The loop

  /**
   * The emit-state part of one iteration: open the window, reset the
   * extractor on a chat-model start, read the engine state, buffer a stream
   * chunk, overlay the extracted state and close the window.
   */
  method FollowEmitState(extractor: StreamingStateExtractor, window: Option<string>, node: Option<string>,
                         event: Event, snapshot: State, parse: Parser)
    returns (extractor': StreamingStateExtractor, window': Option<string>, updatedState: State)
    requires extractor.Valid()
    requires OpenedWindow(window, event, node).Some? ==> ProjectionsDefined(Prepared(extractor.Model(), event), parse)
    modifies extractor
    ensures extractor' == extractor || fresh(extractor')
    ensures extractor'.Valid()
    ensures var w := OpenedWindow(window, event, node);
      var x := Prepared(old(extractor.Model()), event);
      && window' == ClosedWindow(w, event)
      && updatedState == Overlaid(w, x, snapshot, parse)
      && extractor'.Model() == Extracted(w, x, parse)
  {
    var directed := Directed(event);
    extractor', window' := extractor, window;
    if directed && window'.None? {
      window' := node;
    }
    if directed && event.kind == ON_CHAT_MODEL_START {
      extractor' := new StreamingStateExtractor(event.emitState.value);
    }
    updatedState := snapshot;
    if directed && event.kind == ON_CHAT_MODEL_STREAM {
      extractor'.BufferToolCalls(event);
    }
    ghost var x := Prepared(old(extractor.Model()), event);
    assert extractor'.Model() == x;
    if window'.Some? {
      var extracted := extractor'.ExtractState(parse);
      updatedState := updatedState + extracted;
      assert updatedState == snapshot + ExtractedState(x, parse);
    }
    if !directed && Some(event.name) == window' && event.kind == ON_CHAIN_END {
      window' := None;
    }
  }

  /**
   * One iteration of the loop on the loop variables, yielding the frames it
   * emits; `node.None?` on return means the event preceded every known node.
   */
  method ProcessEvent(cfg: RunConfig, extractor: StreamingStateExtractor, node: Option<string>,
                      prevNodeName: Option<string>, emitStateUntilEnd: Option<string>, lastState: State,
                      event: Event, snapshot: State, parse: Parser)
    returns (extractor': StreamingStateExtractor, node': Option<string>, prevNodeName': Option<string>,
             emitStateUntilEnd': Option<string>, lastState': State, emitted: seq<Frame>)
    requires extractor.Valid()
    requires Extractable(cfg, Tracker(node, prevNodeName, emitStateUntilEnd, lastState, extractor.Model()), event, parse)
    modifies extractor
    ensures extractor' == extractor || fresh(extractor')
    ensures extractor'.Valid()
    ensures (Tracker(node', prevNodeName', emitStateUntilEnd', lastState', extractor'.Model()), emitted)
            == Step(cfg, Tracker(node, prevNodeName, emitStateUntilEnd, lastState, old(extractor.Model())), event, snapshot, parse)
  {
    ghost var t := Tracker(node, prevNodeName, emitStateUntilEnd, lastState, extractor.Model());
    extractor', node', prevNodeName', emitStateUntilEnd', lastState' := extractor, node, prevNodeName, emitStateUntilEnd, lastState;
    var currentNodeName := event.name;
    var eventType := event.kind;
    if currentNodeName in cfg.nodes {
      node' := Some(currentNodeName);
    }
    if node'.None? {
      emitted := [];
      return;
    }
    var updatedState;
    extractor', emitStateUntilEnd', updatedState := FollowEmitState(extractor, emitStateUntilEnd, node', event, snapshot, parse);
    assert Step(cfg, t, event, snapshot, parse)
      == Synced(cfg, t, event, node'.value, emitStateUntilEnd', updatedState, extractor'.Model());
    var exitingNode := node' == Some(currentNodeName) && eventType == ON_CHAIN_END;
    emitted := [Passthrough(event)];
    if updatedState != lastState' || prevNodeName' != node' || exitingNode {
      lastState' := updatedState;
      prevNodeName' := node';
      emitted := [StateSync(cfg.threadId, event.runId, cfg.agentName, node'.value, !exitingNode, lastState', true), Passthrough(event)];
    }
  }

  /** `_stream_events` over a finished engine stream. */
  method StreamEvents(cfg: RunConfig, nodeName: Option<string>, state: State,
                      events: seq<Event>, snapshots: seq<State>, fin: FinalSnapshot, parse: Parser)
    returns (frames: seq<Frame>)
    requires |events| > 0 && |snapshots| == |events| && |fin.writes| > 0
    requires RunExtractable(cfg, Initial(nodeName, state), events, snapshots, parse)
    ensures frames == Run(cfg, Initial(nodeName, state), events, snapshots, parse).1
                      + [FinalFrame(cfg, events[|events| - 1].runId, fin)]
  {
    var extractor := new StreamingStateExtractor([]);
    var node := nodeName;
    var prevNodeName: Option<string> := None;
    var emitStateUntilEnd: Option<string> := None;
    var lastState := state;
    var runId := "";
    frames := [];
    var i := 0;
    while i < |events|
      invariant 0 <= i <= |events|
      invariant fresh(extractor) && extractor.Valid()
      invariant RunExtractable(cfg, Initial(nodeName, state), events[..i], snapshots[..i], parse)
      invariant (Tracker(node, prevNodeName, emitStateUntilEnd, lastState, extractor.Model()), frames)
                == Run(cfg, Initial(nodeName, state), events[..i], snapshots[..i], parse)
      invariant i > 0 ==> runId == events[i - 1].runId
    {
      RunSnoc(cfg, Initial(nodeName, state), events, snapshots, parse, i);
      runId := events[i].runId;
      var emitted;
      extractor, node, prevNodeName, emitStateUntilEnd, lastState, emitted :=
        ProcessEvent(cfg, extractor, node, prevNodeName, emitStateUntilEnd, lastState, events[i], snapshots[i], parse);
      frames := frames + emitted;
      i := i + 1;
    }
    assert events[..i] == events && snapshots[..i] == snapshots;
    var isEndNode := fin.next == [];
    var finalNode := fin.writes[0];
    frames := frames + [StateSync(cfg.threadId, runId, cfg.agentName, if !isEndNode then finalNode else END, false, fin.values, true)];
  }
}
