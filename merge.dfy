/**
 * The default state merge of the LangGraph agent
 * (`langgraph_default_merge_state`): inbound messages are appended to the
 * state's messages unless a message with the same id is already there, a
 * leading system message is dropped, and the action catalogue is attached
 * under the reserved key "copilotkit".
 */
module MergeState {
  import opened Types

  /** The inbound messages without a leading system message. */
  function DropLeadingSystem(ms: seq<Message>): (r: seq<Message>)
    ensures |ms| > 0 && ms[0].kind == SystemMessage ==> r == ms[1..]
    ensures |ms| == 0 || ms[0].kind != SystemMessage ==> r == ms
  {
    if |ms| > 0 && ms[0].kind == SystemMessage then ms[1..] else ms
  }

  function IdsOf(ms: seq<Message>): set<Option<string>>
  {
    set m | m in ms :: m.id
  }

  /** The messages of `ms` whose id is not in `ids`, in their order. */
  function Unseen(ms: seq<Message>, ids: set<Option<string>>): seq<Message>
    decreases |ms|
  {
    if ms == [] then []
    else Unseen(ms[..|ms| - 1], ids) + (if ms[|ms| - 1].id in ids then [] else [ms[|ms| - 1]])
  }

  /** The state's "messages" entry, when present, is a list of messages. */
  predicate HasMessageList(state: State)
  {
    "messages" in state ==>
      state["messages"].List? &&
      forall i :: 0 <= i < |state["messages"].items| ==> state["messages"].items[i].Msg?
  }

  /** The messages already in the state (`state.get("messages", [])`). */
  function StateMessages(state: State): seq<Message>
    requires HasMessageList(state)
  {
    if "messages" !in state then []
    else
      var items := state["messages"].items;
      seq(|items|, i requires 0 <= i < |items| => items[i].message)
  }

  function AsValues(ms: seq<Message>): seq<Value>
  {
    seq(|ms|, i requires 0 <= i < |ms| => Msg(ms[i]))
  }

  /** The merged message list. */
  function MergedMessages(state: State, messages: seq<Message>): seq<Message>
    requires HasMessageList(state)
  {
    var existing := StateMessages(state);
    existing + Unseen(DropLeadingSystem(messages), IdsOf(existing))
  }

  /** The merged state. */
  function MergedState(state: State, messages: seq<Message>, actions: Value): State
    requires HasMessageList(state)
  {
    state["messages" := List(AsValues(MergedMessages(state, messages)))]
         ["copilotkit" := Dict(map["actions" := actions])]
  }

  /** `langgraph_default_merge_state`. */
  method DefaultMergeState(state: State, messages: seq<Message>, actions: Value) returns (merged: State)
    requires HasMessageList(state)
    ensures merged == MergedState(state, messages, actions)
  {
    var inbound := messages;
    if |inbound| > 0 && inbound[0].kind == SystemMessage {
      inbound := inbound[1..];
    }
    var mergedMessages := StateMessages(state);
    var existingIds := set m | m in mergedMessages :: m.id;
    mergedMessages := AppendUnseen(mergedMessages, inbound, existingIds);
    merged := state["messages" := List(AsValues(mergedMessages))]["copilotkit" := Dict(map["actions" := actions])];
  }

  /** The merge loop: append each inbound message whose id is not among `ids`. */
  method AppendUnseen(existing: seq<Message>, inbound: seq<Message>, ids: set<Option<string>>)
    returns (mergedMessages: seq<Message>)
    ensures mergedMessages == existing + Unseen(inbound, ids)
  {
    mergedMessages := existing;
    var i := 0;
    while i < |inbound|
      invariant 0 <= i <= |inbound|
      invariant mergedMessages == existing + Unseen(inbound[..i], ids)
    {
      UnseenSnoc(inbound, i, ids);
      if inbound[i].id !in ids {
        assert existing + Unseen(inbound[..i], ids) + [inbound[i]]
            == existing + (Unseen(inbound[..i], ids) + [inbound[i]]);
        mergedMessages := mergedMessages + [inbound[i]];
      }
      i := i + 1;
    }
    assert inbound[..i] == inbound;
  }

  /** De-duplicating one more inbound message. */
  lemma UnseenSnoc(ms: seq<Message>, i: nat, ids: set<Option<string>>)
    requires i < |ms|
    ensures Unseen(ms[..i + 1], ids) == Unseen(ms[..i], ids) + (if ms[i].id in ids then [] else [ms[i]])
  {
    assert ms[..i + 1][..i] == ms[..i];
  }

  /**
   * The merge keeps every other key of the state, writes the merged
   * messages, and overwrites "copilotkit" with the action catalogue.
   */
  lemma MergedStateKeys(state: State, messages: seq<Message>, actions: Value)
    requires HasMessageList(state)
    ensures var merged := MergedState(state, messages, actions);
      && merged.Keys == state.Keys + {"messages", "copilotkit"}
      && (forall k :: k in state && k != "messages" && k != "copilotkit" ==> merged[k] == state[k])
      && merged["copilotkit"] == Dict(map["actions" := actions])
      && merged["messages"] == List(AsValues(MergedMessages(state, messages)))
  {
  }

  // ---------------------------------------------------------------------
  // Properties of the de-duplication

  /** A message is kept exactly when it is inbound and its id is not among `ids`. */
  lemma {:induction false} UnseenMembers(ms: seq<Message>, ids: set<Option<string>>, m: Message)
    ensures m in Unseen(ms, ids) <==> m in ms && m.id !in ids
    decreases |ms|
  {
    if ms != [] {
      var init := ms[..|ms| - 1];
      UnseenMembers(init, ids, m);
      assert ms == init + [ms[|ms| - 1]];
    }
  }

  /** De-duplication keeps the inbound order: it distributes over concatenation. */
  lemma {:induction false} UnseenConcat(a: seq<Message>, b: seq<Message>, ids: set<Option<string>>)
    ensures Unseen(a + b, ids) == Unseen(a, ids) + Unseen(b, ids)
    decreases |b|
  {
    if b == [] {
      assert a + b == a;
    } else {
      var init := b[..|b| - 1];
      UnseenConcat(a, init, ids);
      assert (a + b)[..|a + b| - 1] == a + init;
    }
  }

  /**
   * Only ids already in the state are filtered out: inbound messages whose
   * ids are new are all kept, repeated ids included.
   */
  lemma {:induction false} UnseenKeepsNewIds(ms: seq<Message>, ids: set<Option<string>>)
    requires forall i :: 0 <= i < |ms| ==> ms[i].id !in ids
    ensures Unseen(ms, ids) == ms
    decreases |ms|
  {
    if ms != [] {
      UnseenKeepsNewIds(ms[..|ms| - 1], ids);
    }
  }

  /** Inbound messages whose ids are all known add nothing. */
  lemma {:induction false} UnseenDropsKnownIds(ms: seq<Message>, ids: set<Option<string>>)
    requires forall i :: 0 <= i < |ms| ==> ms[i].id in ids
    ensures Unseen(ms, ids) == []
    decreases |ms|
  {
    if ms != [] {
      UnseenDropsKnownIds(ms[..|ms| - 1], ids);
    }
  }

  /**
   * The merged messages are the existing ones, in order, followed by the
   * inbound messages (a leading system message aside) whose ids are not
   * among the existing ids.
   */
  lemma MergedMessagesShape(state: State, messages: seq<Message>)
    requires HasMessageList(state)
    ensures var existing, r := StateMessages(state), MergedMessages(state, messages);
      && |existing| <= |r| <= |existing| + |messages|
      && r[..|existing|] == existing
      && forall m :: m in r[|existing|..] <==> m in DropLeadingSystem(messages) && m.id !in IdsOf(existing)
  {
    var existing, r := StateMessages(state), MergedMessages(state, messages);
    var inbound := DropLeadingSystem(messages);
    UnseenLength(inbound, IdsOf(existing));
    assert r[|existing|..] == Unseen(inbound, IdsOf(existing));
    forall m ensures m in r[|existing|..] <==> m in inbound && m.id !in IdsOf(existing) {
      UnseenMembers(inbound, IdsOf(existing), m);
    }
  }

  lemma {:induction false} UnseenLength(ms: seq<Message>, ids: set<Option<string>>)
    ensures |Unseen(ms, ids)| <= |ms|
    decreases |ms|
  {
    if ms != [] {
      UnseenLength(ms[..|ms| - 1], ids);
    }
  }

  /** The merged state stores its messages so that they read back unchanged. */
  lemma MergedMessagesReadBack(state: State, messages: seq<Message>, actions: Value)
    requires HasMessageList(state)
    ensures HasMessageList(MergedState(state, messages, actions))
    ensures StateMessages(MergedState(state, messages, actions)) == MergedMessages(state, messages)
  {
    var ms := MergedMessages(state, messages);
    var s := MergedState(state, messages, actions);
    assert s["messages"] == List(AsValues(ms));
  }

  /** Merging the same messages and actions a second time changes nothing. */
  lemma MergeIdempotent(state: State, messages: seq<Message>, actions: Value)
    requires HasMessageList(state)
    ensures HasMessageList(MergedState(state, messages, actions))
    ensures MergedState(MergedState(state, messages, actions), messages, actions) == MergedState(state, messages, actions)
  {
    var once := MergedState(state, messages, actions);
    var existing := StateMessages(state);
    var inbound := DropLeadingSystem(messages);
    var merged := MergedMessages(state, messages);
    MergedMessagesReadBack(state, messages, actions);
    forall i | 0 <= i < |inbound| ensures inbound[i].id in IdsOf(merged) {
      var m := inbound[i];
      if m.id in IdsOf(existing) {
        var e :| e in existing && e.id == m.id;
        assert e in merged;
      } else {
        UnseenMembers(inbound, IdsOf(existing), m);
        assert m in merged;
      }
    }
    UnseenDropsKnownIds(inbound, IdsOf(merged));
    assert MergedMessages(once, messages) == merged;
  }
}
