/**
 * The streaming state extractor (`_StreamingStateExtractor`): one append-only
 * argument buffer per tool name, a "current tool" cursor, a cache of the last
 * value that parsed for each tool, and the emit-state directive that maps
 * buffered tool-call arguments onto state keys.
 *
 * The pure functions on `Extraction` are the specification; the class
 * `StreamingStateExtractor` is the object the translator mutates, and each of
 * its methods is proved against them.
 */
module StreamingState {
  import opened Types

  /** The fields of one extractor, as a value. */
  datatype Extraction = Extraction(
    directive: Directive,
    buffer: map<string, string>,
    current: Option<string>,
    cache: map<string, Value>)

  /** Once set, the current tool always has a buffer. */
  predicate Consistent(x: Extraction)
  {
    x.current.Some? ==> x.current.value in x.buffer
  }

  /** A newly constructed extractor for directive `d`. */
  function Fresh(d: Directive): Extraction
  {
    Extraction(d, map[], None, map[])
  }

  // ---------------------------------------------------------------------
  // buffer_tool_calls

  /** The tool whose buffer a fragment writes to, if any. */
  function Target(x: Extraction, chunk: Option<ToolCallChunk>): Option<string>
  {
    match chunk
    case None => None
    case Some(c) => if c.name.Some? then c.name else x.current
  }

  /** `buffer_tool_calls` on an event whose first tool-call fragment is `chunk`. */
  function Buffered(x: Extraction, chunk: Option<ToolCallChunk>): (r: Extraction)
    requires Consistent(x)
    ensures Consistent(r)
    ensures r.directive == x.directive && r.cache == x.cache
    ensures chunk.None? ==> r == x
    ensures forall t :: t in x.buffer && Some(t) != Target(x, chunk) ==> t in r.buffer && r.buffer[t] == x.buffer[t]
    ensures r.buffer.Keys == if Target(x, chunk).Some? then x.buffer.Keys + {Target(x, chunk).value} else x.buffer.Keys
    ensures chunk.Some? && chunk.value.name.Some? ==>
      var name := chunk.value.name.value;
      r.current == chunk.value.name && name in r.buffer && r.buffer[name] == chunk.value.args
    ensures chunk.Some? && chunk.value.name.None? && x.current.Some? ==>
      var cur := x.current.value;
      r.current == x.current && cur in r.buffer && cur in x.buffer && r.buffer[cur] == x.buffer[cur] + chunk.value.args
    ensures chunk.Some? && chunk.value.name.None? && x.current.None? ==> r == x
  {
    match chunk
    case None => x
    case Some(c) =>
      if c.name.Some? then
        x.(current := c.name, buffer := x.buffer[c.name.value := c.args])
      else if x.current.Some? then
        x.(buffer := x.buffer[x.current.value := x.buffer[x.current.value] + c.args])
      else
        x
  }

  /** Feeding the fragments `cs` one event at a time. */
  function BufferAll(x: Extraction, cs: seq<ToolCallChunk>): (r: Extraction)
    requires Consistent(x)
    ensures Consistent(r)
    decreases |cs|
  {
    if cs == [] then x else BufferAll(Buffered(x, Some(cs[0])), cs[1..])
  }

  /** The argument text of the fragments `cs`, concatenated. */
  function ArgsOf(cs: seq<ToolCallChunk>): string
    decreases |cs|
  {
    if cs == [] then "" else cs[0].args + ArgsOf(cs[1..])
  }

  predicate Unnamed(cs: seq<ToolCallChunk>)
  {
    forall i :: 0 <= i < |cs| ==> cs[i].name.None?
  }

  /**
   * Nameless fragments only ever append to the current tool's buffer; without
   * a current tool they change nothing.
   */
  lemma {:induction false} UnnamedFragmentsAppend(x: Extraction, cs: seq<ToolCallChunk>)
    requires Consistent(x) && Unnamed(cs)
    ensures x.current.None? ==> BufferAll(x, cs) == x
    ensures x.current.Some? ==>
      var r := BufferAll(x, cs);
      && r.current == x.current
      && r.buffer.Keys == x.buffer.Keys
      && r.buffer[x.current.value] == x.buffer[x.current.value] + ArgsOf(cs)
      && forall t :: t in x.buffer && t != x.current.value ==> r.buffer[t] == x.buffer[t]
    decreases |cs|
  {
    if cs != [] {
      var y := Buffered(x, Some(cs[0]));
      assert Unnamed(cs[1..]) by {
        forall i | 0 <= i < |cs[1..]| ensures cs[1..][i].name.None? { assert cs[1..][i] == cs[i + 1]; }
      }
      UnnamedFragmentsAppend(y, cs[1..]);
      if x.current.Some? {
        var c := x.current.value;
        assert x.buffer[c] + cs[0].args + ArgsOf(cs[1..]) == x.buffer[c] + ArgsOf(cs);
      }
    }
  }

  /**
   * After a named fragment and any number of nameless ones, that tool's
   * buffer holds exactly the concatenated argument text of the call, and the
   * buffers of all other tools are as they were.
   */
  lemma {:induction false} ToolCallAccumulates(x: Extraction, name: string, first: string, rest: seq<ToolCallChunk>)
    requires Consistent(x) && Unnamed(rest)
    ensures
      var r := BufferAll(x, [ToolCallChunk(Some(name), first)] + rest);
      && r.current == Some(name)
      && r.buffer.Keys == x.buffer.Keys + {name}
      && r.buffer[name] == first + ArgsOf(rest)
      && forall t :: t in x.buffer && t != name ==> r.buffer[t] == x.buffer[t]
  {
    var cs := [ToolCallChunk(Some(name), first)] + rest;
    assert cs[1..] == rest;
    var y := Buffered(x, Some(cs[0]));
    UnnamedFragmentsAppend(y, rest);
  }

  // ---------------------------------------------------------------------
  // get_emit_state_config

  /** Index of the first directive entry whose tool is `name`. */
  function FirstEntryFor(d: seq<DirectiveEntry>, name: string): (r: Option<nat>)
    ensures r.Some? ==> r.value < |d| && d[r.value].tool == Some(name)
    ensures r.Some? ==> forall j :: 0 <= j < r.value ==> d[j].tool != Some(name)
    ensures r.None? ==> forall j :: 0 <= j < |d| ==> d[j].tool != Some(name)
    decreases |d|
  {
    if d == [] then None
    else if d[0].tool == Some(name) then Some(0)
    else match FirstEntryFor(d[1..], name)
      case None => None
      case Some(i) => Some(i + 1)
  }

  /** `get_emit_state_config`: (argument, state key) of the first entry for `name`. */
  function Config(d: Directive, name: string): (Option<string>, Option<string>)
  {
    match FirstEntryFor(d, name)
    case None => (None, None)
    case Some(i) => (d[i].argument, Some(d[i].key))
  }

  /** Two buffered tools never feed the same state key. */
  lemma ConfigKeyDetermined(d: Directive, t1: string, t2: string)
    requires Config(d, t1).1.Some? && Config(d, t1).1 == Config(d, t2).1
    ensures t1 == t2
  {
  }

  // ---------------------------------------------------------------------
  // extract_state

  /**
   * The value used for tool `t`: what the parser makes of its buffer or, when
   * the parser fails, the value cached for `t`, if any.
   */
  function Resolve(x: Extraction, parse: Parser, t: string): Option<Value>
    requires t in x.buffer
  {
    match parse(x.buffer[t])
    case Some(v) => Some(v)
    case None => if t in x.cache then Some(x.cache[t]) else None
  }

  /** Tool `t` contributes to the extracted state. */
  predicate Emits(x: Extraction, parse: Parser, t: string)
  {
    t in x.buffer && Config(x.directive, t).1.Some? && Resolve(x, parse, t).Some?
  }

  /** Wherever an argument name is configured, the value is a dict (no `.get` failure). */
  predicate ProjectionsDefined(x: Extraction, parse: Parser)
  {
    forall t :: t in x.buffer && Emits(x, parse, t) && Config(x.directive, t).0.Some? ==> Resolve(x, parse, t).value.Dict?
  }

  /** The whole value, or its field `argument` (`None` when absent) when one is named. */
  function Project(v: Value, argument: Option<string>): Value
    requires argument.Some? ==> v.Dict?
  {
    if argument.None? then v
    else if argument.value in v.fields then v.fields[argument.value]
    else Null
  }

  function KeyOf(x: Extraction, t: string): string
    requires Config(x.directive, t).1.Some?
  {
    Config(x.directive, t).1.value
  }

  function ValueOf(x: Extraction, parse: Parser, t: string): Value
    requires Emits(x, parse, t) && ProjectionsDefined(x, parse)
  {
    Project(Resolve(x, parse, t).value, Config(x.directive, t).0)
  }

  /** What the tools in `done` contribute, keyed by their state keys. */
  function Contribution(x: Extraction, parse: Parser, done: set<string>): State
    requires ProjectionsDefined(x, parse)
  {
    forall t1, t2 | Emits(x, parse, t1) && Emits(x, parse, t2) && KeyOf(x, t1) == KeyOf(x, t2)
      ensures t1 == t2
    {
      ConfigKeyDetermined(x.directive, t1, t2);
    }
    map t | t in done && Emits(x, parse, t) :: KeyOf(x, t) := ValueOf(x, parse, t)
  }

  /** The parsed values of the tools in `done`, keyed by tool. */
  function CacheUpdate(x: Extraction, parse: Parser, done: set<string>): map<string, Value>
  {
    map t | t in done && Emits(x, parse, t) :: Resolve(x, parse, t).value
  }

  /** The result of `extract_state`. */
  function ExtractedState(x: Extraction, parse: Parser): State
    requires ProjectionsDefined(x, parse)
  {
    Contribution(x, parse, x.buffer.Keys)
  }

  /** The extractor after `extract_state`: only the cache changes. */
  function AfterExtract(x: Extraction, parse: Parser): (r: Extraction)
    ensures r.directive == x.directive && r.buffer == x.buffer && r.current == x.current
    ensures forall t :: Emits(x, parse, t) ==> t in r.cache && r.cache[t] == Resolve(x, parse, t).value
    ensures forall t :: t in x.cache && !Emits(x, parse, t) ==> t in r.cache && r.cache[t] == x.cache[t]
    ensures r.cache.Keys == x.cache.Keys + set t | t in x.buffer && Emits(x, parse, t)
  {
    x.(cache := x.cache + CacheUpdate(x, parse, x.buffer.Keys))
  }

  /** An emitting tool of `done` has its value under its key. */
  lemma ContributionAt(x: Extraction, parse: Parser, done: set<string>, u: string)
    requires ProjectionsDefined(x, parse) && u in done && Emits(x, parse, u)
    ensures KeyOf(x, u) in Contribution(x, parse, done)
    ensures Contribution(x, parse, done)[KeyOf(x, u)] == ValueOf(x, parse, u)
  {
  }

  /** Every key of a contribution comes from one emitting tool of `done`. */
  lemma ContributionSource(x: Extraction, parse: Parser, done: set<string>, k: string) returns (u: string)
    requires ProjectionsDefined(x, parse) && k in Contribution(x, parse, done)
    ensures u in done && Emits(x, parse, u) && KeyOf(x, u) == k
  {
    u :| u in done && Emits(x, parse, u) && KeyOf(x, u) == k;
  }

  /** Adding one more tool to `done` adds exactly its own contribution. */
  lemma ContributionStep(x: Extraction, parse: Parser, done: set<string>, t: string)
    requires ProjectionsDefined(x, parse) && t !in done
    ensures Emits(x, parse, t) ==>
      Contribution(x, parse, done + {t}) == Contribution(x, parse, done)[KeyOf(x, t) := ValueOf(x, parse, t)]
    ensures !Emits(x, parse, t) ==> Contribution(x, parse, done + {t}) == Contribution(x, parse, done)
  {
    var a, c := Contribution(x, parse, done + {t}), Contribution(x, parse, done);
    var b := if Emits(x, parse, t) then c[KeyOf(x, t) := ValueOf(x, parse, t)] else c;
    forall k | k in a ensures k in b && a[k] == b[k] {
      var u := ContributionSource(x, parse, done + {t}, k);
      ContributionAt(x, parse, done + {t}, u);
      if u != t {
        ContributionAt(x, parse, done, u);
        if Emits(x, parse, t) && k == KeyOf(x, t) { ConfigKeyDetermined(x.directive, u, t); }
      }
    }
    forall k | k in b ensures k in a {
      if Emits(x, parse, t) && k == KeyOf(x, t) {
        ContributionAt(x, parse, done + {t}, t);
      } else {
        var u := ContributionSource(x, parse, done, k);
        ContributionAt(x, parse, done + {t}, u);
      }
    }
    assert a == b;
  }

  /**
   * What `extract_state` emits for a buffered tool `t` whose entry names
   * state key `k`: the projection of the parsed value, or of the cached one
   * when parsing fails, and nothing when there is neither.
   */
  lemma ExtractionOfTool(x: Extraction, parse: Parser, t: string)
    requires ProjectionsDefined(x, parse)
    requires t in x.buffer && Config(x.directive, t).1.Some?
    ensures var r, k, arg := ExtractedState(x, parse), KeyOf(x, t), Config(x.directive, t).0;
      && (parse(x.buffer[t]).Some? ==> k in r && r[k] == Project(parse(x.buffer[t]).value, arg))
      && (parse(x.buffer[t]).None? && t in x.cache ==> k in r && r[k] == Project(x.cache[t], arg))
      && (parse(x.buffer[t]).None? && t !in x.cache ==> k !in r)
  {
    var r, k := ExtractedState(x, parse), KeyOf(x, t);
    if Emits(x, parse, t) {
      ContributionAt(x, parse, x.buffer.Keys, t);
    } else if k in r {
      var u := ContributionSource(x, parse, x.buffer.Keys, k);
      ConfigKeyDetermined(x.directive, u, t);
      assert false;
    }
  }

  /** The extracted state only holds state keys configured for buffered tools. */
  lemma ExtractedKeysConfigured(x: Extraction, parse: Parser)
    requires ProjectionsDefined(x, parse)
    ensures ExtractedState(x, parse).Keys <=
      set t | t in x.buffer && Config(x.directive, t).1.Some? :: Config(x.directive, t).1.value
  {
    forall k | k in ExtractedState(x, parse)
      ensures k in set t | t in x.buffer && Config(x.directive, t).1.Some? :: Config(x.directive, t).1.value
    {
      var u :| u in x.buffer && Emits(x, parse, u) && KeyOf(x, u) == k;
    }
  }

  /** One more tool in `done` adds at most its own cache entry. */
  lemma CacheUpdateStep(x: Extraction, parse: Parser, done: set<string>, t: string)
    requires t !in done
    ensures CacheUpdate(x, parse, done + {t}) ==
      if Emits(x, parse, t) then CacheUpdate(x, parse, done)[t := Resolve(x, parse, t).value]
      else CacheUpdate(x, parse, done)
  {
  }

  /** Contributions depend only on which tools emit and on the values they resolve to. */
  lemma ContributionCongruence(x: Extraction, y: Extraction, parse: Parser, done: set<string>)
    requires ProjectionsDefined(x, parse) && ProjectionsDefined(y, parse) && x.directive == y.directive
    requires forall u :: u in done ==> (Emits(x, parse, u) <==> Emits(y, parse, u))
    requires forall u :: u in done && Emits(x, parse, u) && Emits(y, parse, u) ==> Resolve(x, parse, u) == Resolve(y, parse, u)
    ensures Contribution(x, parse, done) == Contribution(y, parse, done)
    ensures CacheUpdate(x, parse, done) == CacheUpdate(y, parse, done)
  {
    var a, b := Contribution(x, parse, done), Contribution(y, parse, done);
    forall k | k in a ensures k in b && a[k] == b[k] {
      var u := ContributionSource(x, parse, done, k);
      ContributionAt(x, parse, done, u);
      ContributionAt(y, parse, done, u);
    }
    forall k | k in b ensures k in a {
      var u := ContributionSource(y, parse, done, k);
      ContributionAt(x, parse, done, u);
    }
    assert a == b;
  }

  /** A tool without a configured state key is ignored entirely. */
  lemma UnconfiguredToolIgnored(x: Extraction, parse: Parser, t: string)
    requires ProjectionsDefined(x, parse) && Config(x.directive, t).1.None?
    ensures ProjectionsDefined(x.(buffer := x.buffer - {t}), parse)
    ensures ExtractedState(x, parse) == ExtractedState(x.(buffer := x.buffer - {t}), parse)
    ensures AfterExtract(x, parse).cache == AfterExtract(x.(buffer := x.buffer - {t}), parse).cache
  {
    var y := x.(buffer := x.buffer - {t});
    forall u | u in y.buffer ensures Resolve(y, parse, u) == Resolve(x, parse, u) && (Emits(x, parse, u) <==> Emits(y, parse, u)) {
    }
    if t in x.buffer {
      assert !Emits(x, parse, t) && !Emits(y, parse, t);
      ContributionCongruence(x, y, parse, x.buffer.Keys);
      ContributionStep(y, parse, y.buffer.Keys, t);
      CacheUpdateStep(y, parse, y.buffer.Keys, t);
      assert y.buffer.Keys + {t} == x.buffer.Keys;
    } else {
      assert y == x;
    }
  }

  /** Every tool resolves as before once the cache has absorbed a parsed value. */
  lemma BridgedResolve(x: Extraction, parse: Parser, t: string, c: ToolCallChunk)
    requires Consistent(x) && ProjectionsDefined(x, parse)
    requires x.current == Some(t) && Config(x.directive, t).1.Some?
    requires parse(x.buffer[t]).Some? && c.name.None? && parse(x.buffer[t] + c.args).None?
    ensures var y := Buffered(AfterExtract(x, parse), Some(c));
      && y.directive == x.directive && y.buffer.Keys == x.buffer.Keys
      && forall u :: u in y.buffer ==> Resolve(y, parse, u) == Resolve(x, parse, u)
  {
    var x' := AfterExtract(x, parse);
    var y := Buffered(x', Some(c));
    assert y.buffer == x.buffer[t := x.buffer[t] + c.args];
    assert Emits(x, parse, t);
    forall u | u in y.buffer
      ensures Resolve(y, parse, u) == Resolve(x, parse, u)
    {
      if u == t {
        assert t in x'.cache && x'.cache[t] == Resolve(x, parse, t).value;
      } else if Emits(x, parse, u) {
        assert y.buffer[u] == x.buffer[u] && u in x'.cache && x'.cache[u] == Resolve(x, parse, u).value;
      } else {
        assert y.buffer[u] == x.buffer[u] && (u in x'.cache <==> u in x.cache);
      }
    }
  }

  /**
   * The cache bridges a parse failure: once a tool's buffer has parsed and
   * been extracted, a later fragment that leaves it unparsable still yields
   * the earlier value.
   */
  lemma CacheBridgesParseFailure(x: Extraction, parse: Parser, t: string, c: ToolCallChunk)
    requires Consistent(x) && ProjectionsDefined(x, parse)
    requires x.current == Some(t) && Config(x.directive, t).1.Some?
    requires parse(x.buffer[t]).Some? && c.name.None? && parse(x.buffer[t] + c.args).None?
    ensures var y := Buffered(AfterExtract(x, parse), Some(c));
      && ProjectionsDefined(y, parse)
      && ExtractedState(y, parse) == ExtractedState(x, parse)
  {
    var y := Buffered(AfterExtract(x, parse), Some(c));
    BridgedResolve(x, parse, t, c);
    assert forall u :: Emits(x, parse, u) <==> Emits(y, parse, u);
    assert ProjectionsDefined(y, parse);
    ContributionCongruence(x, y, parse, x.buffer.Keys);
  }

  lemma UnionUpdate<K, V>(a: map<K, V>, b: map<K, V>, k: K, v: V)
    ensures (a + b)[k := v] == a + b[k := v]
  {
  }

  // ---------------------------------------------------------------------
  // The mutable object

  class StreamingStateExtractor {
    const emitState: Directive
    var toolCallBuffer: map<string, string>
    var currentToolCall: Option<string>
    var previouslyParsableState: map<string, Value>

    function Model(): Extraction
      reads this
    {
      Extraction(emitState, toolCallBuffer, currentToolCall, previouslyParsableState)
    }

    predicate Valid()
      reads this
    {
      Consistent(Model())
    }

    constructor (emitState: Directive)
      ensures Valid() && Model() == Fresh(emitState)
    {
      this.emitState := emitState;
      toolCallBuffer := map[];
      currentToolCall := None;
      previouslyParsableState := map[];
    }

    /** Buffers the first tool-call fragment of a chat-model stream event. */
    method BufferToolCalls(event: Event)
      requires Valid()
      modifies this
      ensures Valid() && Model() == Buffered(old(Model()), event.chunk)
    {
      if event.chunk.Some? {
        var chunk := event.chunk.value;
        if chunk.name.Some? {
          currentToolCall := chunk.name;
          toolCallBuffer := toolCallBuffer[currentToolCall.value := chunk.args];
        } else if currentToolCall.Some? {
          toolCallBuffer := toolCallBuffer[currentToolCall.value := toolCallBuffer[currentToolCall.value] + chunk.args];
        }
      }
    }

    /** (argument, state key) of the first directive entry for the tool. */
    method GetEmitStateConfig(currentToolName: string) returns (argument: Option<string>, stateKey: Option<string>)
      ensures (argument, stateKey) == Config(emitState, currentToolName)
      ensures stateKey.None? <==> forall j :: 0 <= j < |emitState| ==> emitState[j].tool != Some(currentToolName)
      ensures stateKey.None? ==> argument.None?
    {
      var i := 0;
      while i < |emitState|
        invariant 0 <= i <= |emitState|
        invariant forall j :: 0 <= j < i ==> emitState[j].tool != Some(currentToolName)
      {
        if Some(currentToolName) == emitState[i].tool {
          return emitState[i].argument, Some(emitState[i].key);
        }
        i := i + 1;
      }
      return None, None;
    }

    /**
     * One iteration of `extract_state`: add tool `key`'s contribution to
     * `state` and record the value it used in the cache.
     */
    method ExtractTool(parse: Parser, key: string, state: State, ghost x: Extraction, ghost done: set<string>)
      returns (state': State)
      requires Consistent(x) && ProjectionsDefined(x, parse)
      requires key in x.buffer && key !in done && done <= x.buffer.Keys
      requires toolCallBuffer == x.buffer && currentToolCall == x.current && emitState == x.directive
      requires state == Contribution(x, parse, done)
      requires previouslyParsableState == x.cache + CacheUpdate(x, parse, done)
      modifies this`previouslyParsableState
      ensures state' == Contribution(x, parse, done + {key})
      ensures previouslyParsableState == x.cache + CacheUpdate(x, parse, done + {key})
    {
      var argumentName, stateKey := GetEmitStateConfig(key);
      ContributionStep(x, parse, done, key);
      CacheUpdateStep(x, parse, done, key);
      assert key !in CacheUpdate(x, parse, done);
      state' := state;
      if stateKey.Some? {
        var parsed := parse(toolCallBuffer[key]);
        if parsed.Some? || key in previouslyParsableState {
          var parsedValue := if parsed.Some? then parsed.value else previouslyParsableState[key];
          assert Emits(x, parse, key) && Resolve(x, parse, key) == Some(parsedValue);
          UnionUpdate(x.cache, CacheUpdate(x, parse, done), key, parsedValue);
          previouslyParsableState := previouslyParsableState[key := parsedValue];
          if argumentName.None? {
            state' := state'[stateKey.value := parsedValue];
          } else {
            state' := state'[stateKey.value := if argumentName.value in parsedValue.fields then parsedValue.fields[argumentName.value] else Null];
          }
        } else {
          assert !Emits(x, parse, key);
        }
      } else {
        assert !Emits(x, parse, key);
      }
    }

    /** Extracts the streamed state, refreshing the cache of parsed values. */
    method ExtractState(parse: Parser) returns (state: State)
      requires Valid() && ProjectionsDefined(Model(), parse)
      modifies this`previouslyParsableState
      ensures Valid()
      ensures state == ExtractedState(old(Model()), parse)
      ensures Model() == AfterExtract(old(Model()), parse)
    {
      ghost var x := Model();
      state := map[];
      var todo := toolCallBuffer.Keys;
      ghost var done: set<string> := {};
      while todo != {}
        invariant todo + done == x.buffer.Keys && todo !! done
        invariant toolCallBuffer == x.buffer && currentToolCall == x.current && emitState == x.directive
        invariant state == Contribution(x, parse, done)
        invariant previouslyParsableState == x.cache + CacheUpdate(x, parse, done)
        decreases todo
      {
        var key :| key in todo;
        state := ExtractTool(parse, key, state, x, done);
        todo := todo - {key};
        done := done + {key};
      }
    }
  }
}
