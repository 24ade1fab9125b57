/**
  The orchestration core of the MCP client (`client/mcp_client.py`,
  class `MinimalOpenAIMCPBot`): it keeps one session per connected server,
  aggregates the tools, prompts and resources the servers advertise into
  lists and name-to-server dictionaries, and answers a query by letting the
  language model request tool calls, dispatching each to the session of the
  server that owns the tool, for a bounded number of round-trips.

  The outside world is plain data: a session is a function from tool name
  and arguments to a reply, the language model is a function from the
  conversation so far (and the tool list) to its next completion, and
  `json.loads` is a function from the argument text to a JSON value, or to
  `None` when the text is not JSON.
*/
module McpClient {
  import opened Wrappers
  import opened Dicts
  import opened Text

  // ---------------------------------------------------------------------
  // Values exchanged with servers
  // ---------------------------------------------------------------------

  /** A JSON value (numbers restricted to integers); objects keep their key order. */
  datatype Json =
    | JNull
    | JBool(b: bool)
    | JNumber(n: int)
    | JString(s: string)
    | JArray(elements: seq<Json>)
    | JObject(members: Dict<string, Json>)

  /** The decoded arguments of a tool call: a JSON object. */
  type Arguments = Dict<string, Json>

  /** One element of a tool result's `content` list. */
  datatype ContentItem = TextContent(text: string) | OtherContent(typeName: string)

  /** What `session.call_tool` does: return a result, or raise with a message. */
  datatype ToolReply = ToolContent(content: seq<ContentItem>) | ToolRaised(message: string)

  /** A connected, initialised session, reduced to its `call_tool`. */
  datatype Session = Session(callTool: (string, Arguments) -> ToolReply)

  /**
    An advertised tool; also the entry `all_tools` holds for it. The client
    only forwards the input schema to the language model, so it is kept as
    the schema's JSON text.
  */
  datatype ToolInfo = ToolInfo(name: string, description: Option<string>, inputSchema: string)

  datatype PromptArgument = PromptArgument(name: string, description: Option<string>, required: bool)

  /** An advertised prompt; also the entry `all_prompts` holds for it. */
  datatype PromptInfo = PromptInfo(name: string, description: Option<string>, arguments: Option<seq<PromptArgument>>)

  /** An advertised resource; `name` is `None` when the object has no `name` attribute. */
  datatype ResourceInfo = ResourceInfo(uri: string, name: Option<string>, description: Option<string>)

  /** The entry `all_resources` holds for a resource: its uri, display name, description and owner. */
  datatype ResourceEntry = ResourceEntry(uri: string, name: string, description: Option<string>, server: string)

  /** The answer to `list_tools`, `list_prompts` or `list_resources`: the items, or an exception. */
  datatype Listing<T> = Listed(items: seq<T>) | ListingFailed(error: string)

  /**
    How one configured server behaves: whether transport, session and
    `initialize` succeed, the session it then provides, and what each of the
    three listings returns.
  */
  datatype ServerBehaviour = ServerBehaviour(
    connects: bool,
    session: Session,
    tools: Listing<ToolInfo>,
    prompts: Listing<PromptInfo>,
    resources: Listing<ResourceInfo>)

  // ---------------------------------------------------------------------
  // Capability registration (connect_to_server, connect_to_servers)
  // ---------------------------------------------------------------------

  /** The seven fields of the bot that registration fills. */
  datatype Registry = Registry(
    sessions: Dict<string, Session>,
    allTools: seq<ToolInfo>,
    allPrompts: seq<PromptInfo>,
    allResources: seq<ResourceEntry>,
    toolToServer: Dict<string, string>,
    promptToServer: Dict<string, string>,
    resourceToServer: Dict<string, string>)

  /** The registry as `__init__` leaves it. */
  function EmptyRegistry(): Registry {
    Registry([], [], [], [], [], [], [])
  }

  /** The items a listing contributes: none when the listing raised. */
  function Advertised<T>(l: Listing<T>): seq<T> {
    if l.Listed? then l.items else []
  }

  function ToolName(t: ToolInfo): string { t.name }

  function PromptName(p: PromptInfo): string { p.name }

  /** `getattr(resource, 'name', str(resource.uri))`. */
  function ResourceName(r: ResourceInfo): string { r.name.GetOr(r.uri) }

  function EntryName(e: ResourceEntry): string { e.name }

  lemma ResourceEntriesStep(prefix: seq<ResourceEntry>, server: string, rs: seq<ResourceInfo>, i: nat)
    requires i < |rs|
    ensures prefix + ResourceEntries(server, rs[..i]) + [ResourceEntry(rs[i].uri, ResourceName(rs[i]), rs[i].description, server)]
         == prefix + ResourceEntries(server, rs[..i + 1])
  {
    assert ResourceEntries(server, rs[..i + 1]) ==
      ResourceEntries(server, rs[..i]) + [ResourceEntry(rs[i].uri, ResourceName(rs[i]), rs[i].description, server)];
  }

  function ResourceEntries(server: string, rs: seq<ResourceInfo>): (es: seq<ResourceEntry>)
    ensures |es| == |rs|
    ensures forall i :: 0 <= i < |rs| ==> es[i].server == server && es[i].name == ResourceName(rs[i])
  {
    seq(|rs|, i requires 0 <= i < |rs| => ResourceEntry(rs[i].uri, ResourceName(rs[i]), rs[i].description, server))
  }

  /**
    The effect of `connect_to_server(name, ...)`: nothing when the connection
    or `initialize` fails; otherwise the session is stored and each kind of
    capability is registered on its own, a kind whose listing raised
    contributing nothing.
  */
  function Register(reg: Registry, name: string, srv: ServerBehaviour): Registry {
    if !srv.connects then reg
    else
      var tools := Advertised(srv.tools);
      var prompts := Advertised(srv.prompts);
      var resources := Advertised(srv.resources);
      Registry(
        Put(reg.sessions, name, srv.session),
        reg.allTools + tools,
        reg.allPrompts + prompts,
        reg.allResources + ResourceEntries(name, resources),
        PutEach(reg.toolToServer, tools, ToolName, name),
        PutEach(reg.promptToServer, prompts, PromptName, name),
        PutEach(reg.resourceToServer, resources, ResourceName, name))
  }

  /** `Register` field by field. */
  lemma RegisterFields(reg: Registry, name: string, srv: ServerBehaviour, r: Registry)
    requires srv.connects
    requires r.sessions == Put(reg.sessions, name, srv.session)
    requires r.allTools == reg.allTools + Advertised(srv.tools)
    requires r.allPrompts == reg.allPrompts + Advertised(srv.prompts)
    requires r.allResources == reg.allResources + ResourceEntries(name, Advertised(srv.resources))
    requires r.toolToServer == PutEach(reg.toolToServer, Advertised(srv.tools), ToolName, name)
    requires r.promptToServer == PutEach(reg.promptToServer, Advertised(srv.prompts), PromptName, name)
    requires r.resourceToServer == PutEach(reg.resourceToServer, Advertised(srv.resources), ResourceName, name)
    ensures r == Register(reg, name, srv)
  {
  }

  /** The effect of connecting to every configured server, in configuration order. */
  function RegisterAll(reg: Registry, config: Dict<string, ServerBehaviour>): Registry
    decreases |config|
  {
    if config == [] then reg
    else
      var last := config[|config| - 1];
      Register(RegisterAll(reg, config[..|config| - 1]), last.0, last.1)
  }

  /**
    The invariant registration keeps: every dictionary holds each key once;
    the names in each aggregated list are exactly the keys of the matching
    dictionary; and every server a capability is attributed to has a session.
  */
  ghost predicate Consistent(reg: Registry) {
    && Wf(reg.sessions) && Wf(reg.toolToServer) && Wf(reg.promptToServer) && Wf(reg.resourceToServer)
    && (forall n :: n in Keys(reg.toolToServer) <==> n in MapSeq(ToolName, reg.allTools))
    && (forall n :: n in Keys(reg.promptToServer) <==> n in MapSeq(PromptName, reg.allPrompts))
    && (forall n :: n in Keys(reg.resourceToServer) <==> n in MapSeq(EntryName, reg.allResources))
    && (forall s :: s in Values(reg.toolToServer) ==> s in Keys(reg.sessions))
    && (forall s :: s in Values(reg.promptToServer) ==> s in Keys(reg.sessions))
    && (forall s :: s in Values(reg.resourceToServer) ==> s in Keys(reg.sessions))
    && (forall e :: e in reg.allResources ==> e.server in Keys(reg.sessions))
  }

  /** Registration keeps the registry consistent. */
  lemma RegisterConsistent(reg: Registry, name: string, srv: ServerBehaviour)
    requires Consistent(reg)
    ensures Consistent(Register(reg, name, srv))
  {
    if srv.connects {
      var r := Register(reg, name, srv);
      var tools := Advertised(srv.tools);
      var prompts := Advertised(srv.prompts);
      var resources := Advertised(srv.resources);
      PutWf(reg.sessions, name, srv.session);
      PutEachKeys(reg.toolToServer, tools, ToolName, name);
      PutEachKeys(reg.promptToServer, prompts, PromptName, name);
      PutEachKeys(reg.resourceToServer, resources, ResourceName, name);
      MapSeqAppend(ToolName, reg.allTools, tools);
      MapSeqAppend(PromptName, reg.allPrompts, prompts);
      MapSeqAppend(EntryName, reg.allResources, ResourceEntries(name, resources));
      assert MapSeq(EntryName, ResourceEntries(name, resources)) == MapSeq(ResourceName, resources);
      forall s | s in Values(r.toolToServer) ensures s in Keys(r.sessions) {
        PutEachValues(reg.toolToServer, tools, ToolName, name, s);
      }
      forall s | s in Values(r.promptToServer) ensures s in Keys(r.sessions) {
        PutEachValues(reg.promptToServer, prompts, PromptName, name, s);
      }
      forall s | s in Values(r.resourceToServer) ensures s in Keys(r.sessions) {
        PutEachValues(reg.resourceToServer, resources, ResourceName, name, s);
      }
    }
  }

  lemma EmptyConsistent()
    ensures Consistent(EmptyRegistry())
  {
  }

  lemma {:induction false} RegisterAllConsistent(reg: Registry, config: Dict<string, ServerBehaviour>)
    requires Consistent(reg)
    ensures Consistent(RegisterAll(reg, config))
    decreases |config|
  {
    if config != [] {
      var last := config[|config| - 1];
      RegisterAllConsistent(reg, config[..|config| - 1]);
      RegisterConsistent(RegisterAll(reg, config[..|config| - 1]), last.0, last.1);
    }
  }

  /**
    Registration after a successful `initialize`: every listed tool, prompt
    and resource name ends up owned by this server (the last registration of
    a name wins), every other name keeps its owner, and each aggregated list
    grows by exactly the listed items, in order, duplicates included.
  */
  lemma RegisterOwnership(reg: Registry, name: string, srv: ServerBehaviour, k: string)
    requires srv.connects
    ensures var r := Register(reg, name, srv);
      && Get(r.sessions, name) == Some(srv.session)
      && Get(r.toolToServer, k) ==
           (if k in MapSeq(ToolName, Advertised(srv.tools)) then Some(name) else Get(reg.toolToServer, k))
      && Get(r.promptToServer, k) ==
           (if k in MapSeq(PromptName, Advertised(srv.prompts)) then Some(name) else Get(reg.promptToServer, k))
      && Get(r.resourceToServer, k) ==
           (if k in MapSeq(ResourceName, Advertised(srv.resources)) then Some(name) else Get(reg.resourceToServer, k))
      && r.allTools == reg.allTools + Advertised(srv.tools)
      && r.allPrompts == reg.allPrompts + Advertised(srv.prompts)
      && |r.allResources| == |reg.allResources| + |Advertised(srv.resources)|
  {
    PutEachGet(reg.toolToServer, Advertised(srv.tools), ToolName, name, k);
    PutEachGet(reg.promptToServer, Advertised(srv.prompts), PromptName, name, k);
    PutEachGet(reg.resourceToServer, Advertised(srv.resources), ResourceName, name, k);
  }

  /**
    Each capability kind is registered in its own failure scope: whatever
    the prompt and resource listings do, the tools registered are the same,
    and likewise for each other kind.
  */
  lemma KindsIndependent(reg: Registry, name: string, srv: ServerBehaviour, other: ServerBehaviour)
    requires srv.connects && other.connects && srv.session == other.session
    ensures srv.tools == other.tools ==>
      Register(reg, name, srv).toolToServer == Register(reg, name, other).toolToServer
      && Register(reg, name, srv).allTools == Register(reg, name, other).allTools
    ensures srv.prompts == other.prompts ==>
      Register(reg, name, srv).promptToServer == Register(reg, name, other).promptToServer
      && Register(reg, name, srv).allPrompts == Register(reg, name, other).allPrompts
    ensures srv.resources == other.resources ==>
      Register(reg, name, srv).resourceToServer == Register(reg, name, other).resourceToServer
      && Register(reg, name, srv).allResources == Register(reg, name, other).allResources
    ensures Register(reg, name, srv).sessions == Register(reg, name, other).sessions
  {
  }

  /**
    A server whose prompt listing is empty or raised leaves the prompt list
    unchanged and is attributed no prompt it was not already attributed.
  */
  lemma NoPromptsNoAttribution(reg: Registry, name: string, srv: ServerBehaviour)
    requires Advertised(srv.prompts) == []
    ensures Register(reg, name, srv).allPrompts == reg.allPrompts
    ensures Register(reg, name, srv).promptToServer == reg.promptToServer
  {
  }

  lemma RegisterSessions(reg: Registry, name: string, srv: ServerBehaviour)
    ensures Register(reg, name, srv).sessions == if srv.connects then Put(reg.sessions, name, srv.session) else reg.sessions
  {
  }

  /**
    Connecting to every configured server: the servers with a session are the
    ones already connected plus the configured servers whose connection
    succeeded; a server whose connection fails is simply absent.
  */
  lemma {:induction false} RegisterAllSessions(reg: Registry, config: Dict<string, ServerBehaviour>, n: string)
    ensures n in Keys(RegisterAll(reg, config).sessions) <==>
      n in Keys(reg.sessions) || exists i :: 0 <= i < |config| && config[i].0 == n && config[i].1.connects
    decreases |config|
  {
    if config != [] {
      var init := config[..|config| - 1];
      var last := config[|config| - 1];
      RegisterAllSessions(reg, init, n);
      RegisterSessions(RegisterAll(reg, init), last.0, last.1);
      ConnectingStep(config, n);
    }
  }

  /** A server connecting somewhere in the configuration connects before its last entry or at it. */
  lemma ConnectingStep(config: Dict<string, ServerBehaviour>, n: string)
    requires config != []
    ensures var init, last := config[..|config| - 1], config[|config| - 1];
      (exists i :: 0 <= i < |config| && config[i].0 == n && config[i].1.connects) <==>
      (exists i :: 0 <= i < |init| && init[i].0 == n && init[i].1.connects) || (last.0 == n && last.1.connects)
  {
    var init := config[..|config| - 1];
    if exists i :: 0 <= i < |config| && config[i].0 == n && config[i].1.connects {
      var i :| 0 <= i < |config| && config[i].0 == n && config[i].1.connects;
      if i < |config| - 1 {
        assert init[i] == config[i];
      }
    }
  }

  /** How `connect_to_servers` ends. */
  datatype Startup =
    | Ready
    | NoServersConfigured     // "No servers found in config": returns without error
    | NoServerConnected       // raises "No servers connected successfully!"

  /** The outcome `connect_to_servers` reports, given the registry it leaves. */
  function StartupOutcome(config: Dict<string, ServerBehaviour>, after: Registry): Startup {
    if config == [] then NoServersConfigured
    else if after.sessions == [] then NoServerConnected
    else Ready
  }

  /**
    Starting from the empty registry, start-up fails exactly when servers are
    configured but none of them connects, and succeeds quietly when none is
    configured.
  */
  lemma StartupRule(config: Dict<string, ServerBehaviour>)
    ensures var out := StartupOutcome(config, RegisterAll(EmptyRegistry(), config));
      && (out == NoServersConfigured <==> config == [])
      && (out == NoServerConnected <==>
            config != [] && forall i :: 0 <= i < |config| ==> !config[i].1.connects)
  {
    var after := RegisterAll(EmptyRegistry(), config);
    if config != [] {
      if forall i :: 0 <= i < |config| ==> !config[i].1.connects {
        if after.sessions != [] {
          RegisterAllSessions(EmptyRegistry(), config, after.sessions[0].0);
        }
      } else {
        var i :| 0 <= i < |config| && config[i].1.connects;
        RegisterAllSessions(EmptyRegistry(), config, config[i].0);
      }
    }
  }

  // ---------------------------------------------------------------------
  // Tool dispatch and the query loop (process_query)
  // ---------------------------------------------------------------------

  /** A tool call the model requests: its id, the tool name and the raw JSON argument text. */
  datatype ToolCall = ToolCall(id: string, name: string, arguments: string)

  /** One turn of the conversation sent to the model. */
  datatype Message =
    | UserTurn(query: string)
    | AssistantTurn(content: Option<string>, toolCalls: seq<ToolCall>)
    | ToolTurn(toolCallId: string, output: string)

  /** The model's next message, or the exception the completion request raised. */
  datatype Completion =
    | Completion(content: Option<string>, toolCalls: seq<ToolCall>)
    | CompletionFailed(error: string)

  /** What a query needs from the bot and from the outside world. */
  datatype Wiring = Wiring(
    toolToServer: Dict<string, string>,
    sessions: Dict<string, Session>,
    tools: seq<ToolInfo>,
    model: (seq<Message>, seq<ToolInfo>) -> Completion,
    parse: string -> Option<Json>)

  /** An exception that leaves `process_query`. */
  datatype Escape =
    | ModelError(message: string)
    | ArgumentsNotJson(callId: string)      // json.loads raised
    | ArgumentsNotObject(callId: string)    // tool_args.keys() raised

  datatype Outcome =
    | Answered(text: Option<string>)   // a reply without tool calls; its text is printed if any
    | LimitReached                     // "Max iterations reached"
    | NeverAsked                       // max_iterations <= 0: the loop body never runs
    | Raised(error: Escape)

  /** How a query ended, the history it built, and the number of model round-trips. */
  datatype QueryResult = QueryResult(outcome: Outcome, messages: seq<Message>, rounds: nat)

  /** `tool_to_server.get(name, "unknown")`. */
  function ServerFor(toolToServer: Dict<string, string>, name: string): (server: string)
    ensures Get(toolToServer, name).None? ==> server == "unknown"
    ensures Get(toolToServer, name).Some? ==> server == Get(toolToServer, name).value
  {
    Get(toolToServer, name).GetOr("unknown")
  }

  /**
    The result text of a session call: the text of the first content item,
    "No result" for empty content, and "Error: <message>" for an exception,
    including the one raised when the first item has no `text`.
  */
  function ReplyText(reply: ToolReply): (result: string)
    ensures reply.ToolRaised? ==> result == "Error: " + reply.message
    ensures reply == ToolContent([]) ==> result == "No result"
    ensures reply.ToolContent? && reply.content != [] && reply.content[0].TextContent? ==>
              result == reply.content[0].text
  {
    match reply
    case ToolRaised(m) => "Error: " + m
    case ToolContent(items) =>
      if items == [] then "No result"
      else match items[0]
        case TextContent(t) => t
        case OtherContent(ty) => "Error: '" + ty + "' object has no attribute 'text'"
  }

  /** The text `process_query` records for one call whose arguments decoded to `args`. */
  function CallTool(toolToServer: Dict<string, string>, sessions: Dict<string, Session>,
                    name: string, args: Arguments): string
  {
    var server := ServerFor(toolToServer, name);
    match Get(sessions, server)
    case None => "Error: Server '" + server + "' not connected"
    case Some(session) => ReplyText(session.callTool(name, args))
  }

  /**
    Dispatch: a tool resolves to its mapped server, or to "unknown" when it
    is not mapped; with no session under that name the result is exactly the
    not-connected error, and otherwise it is the reply of that session - the
    sessions of all other servers play no part.
  */
  lemma DispatchRule(toolToServer: Dict<string, string>, sessions: Dict<string, Session>,
                     others: Dict<string, Session>, name: string, args: Arguments)
    requires Get(others, ServerFor(toolToServer, name)) == Get(sessions, ServerFor(toolToServer, name))
    ensures var server := if name in Keys(toolToServer) then Get(toolToServer, name).value else "unknown";
      && CallTool(toolToServer, sessions, name, args) ==
           (if server in Keys(sessions) then ReplyText(Get(sessions, server).value.callTool(name, args))
            else "Error: Server '" + server + "' not connected")
      && CallTool(toolToServer, others, name, args) == CallTool(toolToServer, sessions, name, args)
  {
  }

  /** `json.loads(arguments)` followed by the `tool_args.keys()` in the progress line. */
  function DecodeArguments(parse: string -> Option<Json>, call: ToolCall): (r: Result<Arguments, Escape>)
    ensures r.Ok? <==> parse(call.arguments).Some? && parse(call.arguments).value.JObject?
  {
    match parse(call.arguments)
    case None => Err(ArgumentsNotJson(call.id))
    case Some(JObject(members)) => Ok(members)
    case Some(_) => Err(ArgumentsNotObject(call.id))
  }

  predicate Decodes(parse: string -> Option<Json>, call: ToolCall) {
    DecodeArguments(parse, call).Ok?
  }

  /** The tool turn `process_query` appends for one call whose arguments decode. */
  function ToolResultTurn(w: Wiring, call: ToolCall): Message
    requires Decodes(w.parse, call)
  {
    ToolTurn(call.id, CallTool(w.toolToServer, w.sessions, call.name, DecodeArguments(w.parse, call).value))
  }

  /** The history after a batch of tool calls ran, or the exception that interrupted it. */
  datatype Batch = Completed(history: seq<Message>) | Aborted(error: Escape, history: seq<Message>)

  /** Running the calls of one model turn in order; the turns already in the history are kept. */
  function RunCalls(w: Wiring, history: seq<Message>, calls: seq<ToolCall>): (b: Batch)
    ensures history <= b.history
    decreases |calls|
  {
    if calls == [] then Completed(history)
    else match DecodeArguments(w.parse, calls[0])
      case Err(e) => Aborted(e, history)
      case Ok(args) => RunCalls(w, history + [ToolResultTurn(w, calls[0])], calls[1..])
  }

  /**
    Tool failures never interrupt a batch: it completes exactly when every
    call's arguments decode to a JSON object, and it then appends one tool
    turn per call, in request order, each carrying its call's id and result.
  */
  lemma {:induction false} RunCallsCompleted(w: Wiring, history: seq<Message>, calls: seq<ToolCall>)
    ensures var b := RunCalls(w, history, calls);
      && (b.Completed? <==> forall k :: 0 <= k < |calls| ==> Decodes(w.parse, calls[k]))
      && (b.Completed? ==>
            && |b.history| == |history| + |calls|
            && forall k :: 0 <= k < |calls| ==> b.history[|history| + k] == ToolResultTurn(w, calls[k]))
    decreases |calls|
  {
    if calls != [] && Decodes(w.parse, calls[0]) {
      var h1 := history + [ToolResultTurn(w, calls[0])];
      RunCallsCompleted(w, h1, calls[1..]);
      assert forall k :: 1 <= k < |calls| ==> calls[k] == calls[1..][k - 1];
      var b := RunCalls(w, h1, calls[1..]);
      assert RunCalls(w, history, calls) == b;
      if b.Completed? {
        forall k | 0 <= k < |calls|
          ensures b.history[|history| + k] == ToolResultTurn(w, calls[k])
        {
          if k == 0 {
            assert b.history[..|h1|] == h1;
            assert b.history[|history|] == h1[|history|];
          } else {
            assert b.history[|history| + k] == b.history[|h1| + (k - 1)];
          }
        }
      }
    }
  }

  /**
    Otherwise the batch raises, with the exception of the first call whose
    arguments do not decode, after running the tool turns of the calls before it.
  */
  lemma {:induction false} RunCallsAborts(w: Wiring, history: seq<Message>, calls: seq<ToolCall>, k: nat)
    requires k < |calls| && !Decodes(w.parse, calls[k])
    requires forall j :: 0 <= j < k ==> Decodes(w.parse, calls[j])
    ensures var b := RunCalls(w, history, calls);
      && b.Aborted? && b.error == DecodeArguments(w.parse, calls[k]).error
      && |b.history| == |history| + k
    decreases k
  {
    if k > 0 {
      var h1 := history + [ToolResultTurn(w, calls[0])];
      assert forall j :: 0 <= j < k - 1 ==> calls[1..][j] == calls[j + 1];
      RunCallsAborts(w, h1, calls[1..], k - 1);
    }
  }

  /**
    The rounds of the loop from round `round` on, with `messages` so far: ask
    the model; a reply without tool calls ends the query; otherwise record one
    assistant turn listing the calls, run them, and stop once `limit` rounds
    have been made.
  */
  function RoundsFrom(w: Wiring, messages: seq<Message>, round: nat, limit: nat): (r: QueryResult)
    requires 1 <= round <= limit
    ensures round <= r.rounds <= limit
    ensures r.outcome == LimitReached ==> r.rounds == limit
    ensures !r.outcome.NeverAsked?
    ensures messages <= r.messages
    decreases limit - round
  {
    match w.model(messages, w.tools)
    case CompletionFailed(e) => QueryResult(Raised(ModelError(e)), messages, round)
    case Completion(content, calls) =>
      if |calls| == 0 then QueryResult(Answered(content), messages, round)
      else
        var start := messages + [AssistantTurn(content, calls)];
        match RunCalls(w, start, calls)
        case Aborted(e, h) => QueryResult(Raised(e), h, round)
        case Completed(h) =>
          assert messages <= start <= h;
          if round >= limit then QueryResult(LimitReached, h, round)
          else RoundsFrom(w, h, round + 1, limit)
  }

  /** `process_query(query)` with `max_iterations == limit`. */
  function Query(w: Wiring, query: string, limit: nat): (r: QueryResult)
    ensures r.messages != [] && r.messages[0] == UserTurn(query)
    ensures r.rounds <= limit
    ensures limit > 0 ==> 1 <= r.rounds && !r.outcome.NeverAsked?
    ensures limit == 0 ==> r == QueryResult(NeverAsked, [UserTurn(query)], 0)
  {
    if limit == 0 then QueryResult(NeverAsked, [UserTurn(query)], 0)
    else RoundsFrom(w, [UserTurn(query)], 1, limit)
  }

  /** `turns` answers `calls`: one tool turn per call, in order, carrying the call's id. */
  predicate AnswersCalls(calls: seq<ToolCall>, turns: seq<Message>) {
    |turns| == |calls| &&
    forall k :: 0 <= k < |calls| ==> turns[k].ToolTurn? && turns[k].toolCallId == calls[k].id
  }

  /** One complete round: an assistant turn listing calls, then the tool turns answering them. */
  ghost predicate IsRound(block: seq<Message>) {
    && block != [] && block[0].AssistantTurn? && |block[0].toolCalls| > 0
    && |block| == 1 + |block[0].toolCalls|
    && AnswersCalls(block[0].toolCalls, block[1..])
  }

  /**
    The number of complete rounds `h` consists of, or nothing when `h` is not
    a sequence of complete rounds. A round's length is fixed by its first
    turn, so the split is unique.
  */
  ghost function RoundCount(h: seq<Message>): Option<nat>
    decreases |h|
  {
    if h == [] then Some(0)
    else if !h[0].AssistantTurn? then None
    else
      var c := 1 + |h[0].toolCalls|;
      if c <= |h| && IsRound(h[..c]) then
        match RoundCount(h[c..])
        case Some(n) => Some(n + 1)
        case None => None
      else None
  }

  /** `h` consists of exactly `n` complete rounds. */
  ghost predicate Rounds(h: seq<Message>, n: nat) {
    RoundCount(h) == Some(n)
  }

  /** Rounds put one after the other: the counts add up. */
  lemma {:induction false} RoundsAppend(a: seq<Message>, m: nat, b: seq<Message>, n: nat)
    requires Rounds(a, m) && Rounds(b, n)
    ensures Rounds(a + b, m + n)
    decreases |a|
  {
    if a == [] {
      assert a + b == b;
    } else {
      var c := 1 + |a[0].toolCalls|;
      var ab := a + b;
      assert ab[0] == a[0];
      assert ab[..c] == a[..c];
      assert ab[c..] == a[c..] + b;
      RoundsAppend(a[c..], m - 1, b, n);
    }
  }

  /** One completed batch extends the history by one complete round. */
  lemma BatchIsRound(w: Wiring, messages: seq<Message>, content: Option<string>, calls: seq<ToolCall>)
    requires |calls| > 0
    requires RunCalls(w, messages + [AssistantTurn(content, calls)], calls).Completed?
    ensures var h := RunCalls(w, messages + [AssistantTurn(content, calls)], calls).history;
      messages <= h && Rounds(h[|messages|..], 1)
  {
    var start := messages + [AssistantTurn(content, calls)];
    var h := RunCalls(w, start, calls).history;
    var block := h[|messages|..];
    RunCallsCompleted(w, start, calls);
    assert h[..|start|] == start;
    assert block[0] == AssistantTurn(content, calls);
    assert block[1..] == h[|start|..];
    forall k | 0 <= k < |calls|
      ensures block[1..][k].ToolTurn? && block[1..][k].toolCallId == calls[k].id
    {
      assert block[1..][k] == h[|start| + k] == ToolResultTurn(w, calls[k]);
    }
    assert block[..1 + |calls|] == block;
    assert IsRound(block);
    assert block[1 + |calls|..] == [];
  }

  /** The history after a completed batch is the old history followed by one more round. */
  lemma ExtendRounds(w: Wiring, messages: seq<Message>, n: nat, content: Option<string>, calls: seq<ToolCall>)
    requires messages != [] && messages[0].UserTurn? && Rounds(messages[1..], n)
    requires |calls| > 0
    requires RunCalls(w, messages + [AssistantTurn(content, calls)], calls).Completed?
    ensures var h := RunCalls(w, messages + [AssistantTurn(content, calls)], calls).history;
      h != [] && h[0] == messages[0] && Rounds(h[1..], n + 1)
  {
    var h := RunCalls(w, messages + [AssistantTurn(content, calls)], calls).history;
    BatchIsRound(w, messages, content, calls);
    RoundsAppend(messages[1..], n, h[|messages|..], 1);
    assert h[1..] == messages[1..] + h[|messages|..];
  }

  /**
    The shape of a query that ended normally: an answer is the model's reply,
    without tool calls, to a history of complete rounds, one fewer than the
    rounds made; at the limit, every round made asked for tools.
  */
  ghost predicate Shaped(w: Wiring, r: QueryResult) {
    && (r.outcome.Answered? ==>
          && r.messages != [] && r.rounds >= 1
          && Rounds(r.messages[1..], r.rounds - 1)
          && w.model(r.messages, w.tools) == Completion(r.outcome.text, []))
    && (r.outcome.LimitReached? ==> r.messages != [] && Rounds(r.messages[1..], r.rounds))
  }

  lemma {:induction false} RoundsFromShape(w: Wiring, messages: seq<Message>, round: nat, limit: nat)
    requires 1 <= round <= limit
    requires messages != [] && messages[0].UserTurn? && Rounds(messages[1..], round - 1)
    ensures Shaped(w, RoundsFrom(w, messages, round, limit))
    decreases limit - round
  {
    match w.model(messages, w.tools)
    case CompletionFailed(e) =>
    case Completion(content, calls) =>
      if calls != [] && RunCalls(w, messages + [AssistantTurn(content, calls)], calls).Completed? {
        ExtendRounds(w, messages, round - 1, content, calls);
        if round < limit {
          NextRound(w, messages, round, limit, content, calls);
          RoundsFromShape(w, RunCalls(w, messages + [AssistantTurn(content, calls)], calls).history, round + 1, limit);
        }
      }
  }

  /** A round whose calls all ran, before the limit, hands over to the next round. */
  lemma NextRound(w: Wiring, messages: seq<Message>, round: nat, limit: nat, content: Option<string>, calls: seq<ToolCall>)
    requires 1 <= round < limit
    requires w.model(messages, w.tools) == Completion(content, calls) && calls != []
    requires RunCalls(w, messages + [AssistantTurn(content, calls)], calls).Completed?
    ensures RoundsFrom(w, messages, round, limit) ==
      RoundsFrom(w, RunCalls(w, messages + [AssistantTurn(content, calls)], calls).history, round + 1, limit)
  {
  }

  /**
    The history of a query that ends normally is the user turn followed by
    complete rounds: the final answer is the model's reply, without tool
    calls, to that history, made in the last round; reaching the limit means
    every one of the `limit` rounds asked for tools.
  */
  lemma QueryShape(w: Wiring, query: string, limit: nat)
    ensures var r := Query(w, query, limit);
      && (r.outcome.Answered? ==>
            Rounds(r.messages[1..], r.rounds - 1) && w.model(r.messages, w.tools) == Completion(r.outcome.text, []))
      && (r.outcome.LimitReached? ==> r.rounds == limit && Rounds(r.messages[1..], limit))
  {
    if limit > 0 {
      assert [UserTurn(query)][1..] == [];
      RoundsFromShape(w, [UserTurn(query)], 1, limit);
    }
  }

  /**
    A first reply without tool calls ends the query after exactly one
    round-trip, with the history holding only the user turn.
  */
  lemma FirstReplyFinal(w: Wiring, query: string, limit: nat, text: Option<string>)
    requires limit >= 1
    requires w.model([UserTurn(query)], w.tools) == Completion(text, [])
    ensures Query(w, query, limit) == QueryResult(Answered(text), [UserTurn(query)], 1)
  {
  }

  /** The model asks for at least one tool call, all with decodable arguments. */
  predicate RequestsTools(w: Wiring, h: seq<Message>) {
    var c := w.model(h, w.tools);
    c.Completion? && |c.toolCalls| > 0 && forall k :: 0 <= k < |c.toolCalls| ==> Decodes(w.parse, c.toolCalls[k])
  }

  lemma {:induction false} AlwaysToolsFrom(w: Wiring, messages: seq<Message>, round: nat, limit: nat)
    requires 1 <= round <= limit
    requires forall h :: RequestsTools(w, h)
    ensures RoundsFrom(w, messages, round, limit).outcome == LimitReached
    decreases limit - round
  {
    var c := w.model(messages, w.tools);
    assert RequestsTools(w, messages);
    RunCallsCompleted(w, messages + [AssistantTurn(c.content, c.toolCalls)], c.toolCalls);
    if round < limit {
      var h := RunCalls(w, messages + [AssistantTurn(c.content, c.toolCalls)], c.toolCalls).history;
      AlwaysToolsFrom(w, h, round + 1, limit);
    }
  }

  /**
    A model that always asks for tools makes the query stop, without an
    exception, after exactly `limit` round-trips.
  */
  lemma AlwaysToolsReachesLimit(w: Wiring, query: string, limit: nat)
    requires limit >= 1
    requires forall h :: RequestsTools(w, h)
    ensures Query(w, query, limit).outcome == LimitReached
    ensures Query(w, query, limit).rounds == limit
  {
    AlwaysToolsFrom(w, [UserTurn(query)], 1, limit);
  }

  /**
    Argument decoding is not guarded: when a call's arguments are not a JSON
    object, the exception leaves the query in that round instead of becoming
    a tool turn, even though the calls before it did run.
  */
  lemma MalformedArgumentsEscape(w: Wiring, query: string, limit: nat, k: nat)
    requires limit >= 1
    requires w.model([UserTurn(query)], w.tools).Completion?
    requires var calls := w.model([UserTurn(query)], w.tools).toolCalls;
      k < |calls| && !Decodes(w.parse, calls[k]) && forall j :: 0 <= j < k ==> Decodes(w.parse, calls[j])
    ensures var calls := w.model([UserTurn(query)], w.tools).toolCalls;
      var r := Query(w, query, limit);
      && r.outcome == Raised(DecodeArguments(w.parse, calls[k]).error)
      && r.rounds == 1 && |r.messages| == 2 + k
  {
    var c := w.model([UserTurn(query)], w.tools);
    RunCallsAborts(w, [UserTurn(query)] + [AssistantTurn(c.content, c.toolCalls)], c.toolCalls, k);
  }

  // ---------------------------------------------------------------------
  // Listing capabilities by server (_show_tools, _show_prompts, _show_resources)
  // ---------------------------------------------------------------------

  /**
    The `by_server` dictionary the listings build from (item, server) pairs:
    a server gets an empty list the first time it is seen, and each item is
    appended to its server's list.
  */
  function GroupBy<T>(pairs: seq<(T, string)>): Dict<string, seq<T>>
    decreases |pairs|
  {
    if pairs == [] then []
    else
      var g := GroupBy(pairs[..|pairs| - 1]);
      var last := pairs[|pairs| - 1];
      Put(g, last.1, Get(g, last.1).GetOr([]) + [last.0])
  }

  /** One more iteration of the grouping loop. */
  lemma GroupByStep<T>(pairs: seq<(T, string)>, i: nat)
    requires i < |pairs|
    ensures var g := GroupBy(pairs[..i]);
      GroupBy(pairs[..i + 1]) == Put(g, pairs[i].1, Get(g, pairs[i].1).GetOr([]) + [pairs[i].0])
  {
    assert pairs[..i + 1][..i] == pairs[..i];
  }

  /** The items of `pairs` owned by `server`, in order. */
  function Members<T>(pairs: seq<(T, string)>, server: string): seq<T>
    decreases |pairs|
  {
    if pairs == [] then []
    else
      var last := pairs[|pairs| - 1];
      Members(pairs[..|pairs| - 1], server) + (if last.1 == server then [last.0] else [])
  }

  /** `vs` without repetitions, each value where it first appears. */
  function FirstAppearances(vs: seq<string>): (r: seq<string>)
    ensures forall v :: v in r <==> v in vs
    ensures Distinct(r)
    decreases |vs|
  {
    if vs == [] then []
    else
      var r := FirstAppearances(vs[..|vs| - 1]);
      assert vs == vs[..|vs| - 1] + [vs[|vs| - 1]];
      if vs[|vs| - 1] in r then r else r + [vs[|vs| - 1]]
  }

  /**
   * `FirstAppearances` keeps the order in which the values first appear: wherever a
   * listed value occurs in `vs`, every value listed before it has already occurred.
   */
  lemma {:induction false} FirstAppearancesOrder(vs: seq<string>)
    ensures forall i, j, k ::
      0 <= i < j < |FirstAppearances(vs)| && 0 <= k < |vs| && vs[k] == FirstAppearances(vs)[j] ==>
      FirstAppearances(vs)[i] in vs[..k]
    decreases |vs|
  {
    if vs != [] {
      var init, x := vs[..|vs| - 1], vs[|vs| - 1];
      var r0 := FirstAppearances(init);
      FirstAppearancesOrder(init);
      var r := if x in r0 then r0 else r0 + [x];
      assert FirstAppearances(vs) == r;
      forall i, j, k | 0 <= i < j < |r| && 0 <= k < |vs| && vs[k] == r[j]
        ensures r[i] in vs[..k]
      {
        assert r[i] == r0[i] && r0[i] in init;
        if k < |init| {
          assert vs[k] == init[k] && vs[..k] == init[..k];
          assert r[j] == r0[j];
        } else {
          assert vs[..k] == init;
        }
      }
    }
  }

  lemma {:induction false} MembersOfAbsent<T>(pairs: seq<(T, string)>, server: string)
    requires server !in Values(pairs)
    ensures Members(pairs, server) == []
    decreases |pairs|
  {
    if pairs != [] {
      ValuesSnoc(pairs);
      MembersOfAbsent(pairs[..|pairs| - 1], server);
    }
  }

  /**
    Each server with at least one item gets exactly one group, holding all of
    its items in their original order; no other server gets a group.
  */
  lemma {:induction false} GroupByContents<T>(pairs: seq<(T, string)>, server: string)
    ensures Get(GroupBy(pairs), server) ==
      if server in Values(pairs) then Some(Members(pairs, server)) else None
    decreases |pairs|
  {
    if pairs != [] {
      var init := pairs[..|pairs| - 1];
      var last := pairs[|pairs| - 1];
      var g := GroupBy(init);
      var v := Get(g, last.1).GetOr([]) + [last.0];
      assert GroupBy(pairs) == Put(g, last.1, v);
      ValuesSnoc(pairs);
      GroupByContents(init, server);
      assert Members(pairs, server) == Members(init, server) + (if last.1 == server then [last.0] else []);
      assert server in Values(pairs) <==> server in Values(init) || server == last.1;
      if server == last.1 {
        if server !in Values(init) {
          MembersOfAbsent(init, server);
          assert v == [last.0];
        } else {
          assert v == Members(init, server) + [last.0];
        }
        assert Get(Put(g, last.1, v), server) == Some(v);
      } else {
        assert Get(GroupBy(pairs), server) == Get(g, server);
        assert Members(init, server) + [] == Members(init, server);
      }
    }
  }

  /** The groups appear in the order in which their servers first appear. */
  lemma {:induction false} GroupByOrder<T>(pairs: seq<(T, string)>)
    ensures Keys(GroupBy(pairs)) == FirstAppearances(Values(pairs))
    ensures Wf(GroupBy(pairs))
    decreases |pairs|
  {
    if pairs != [] {
      var init := pairs[..|pairs| - 1];
      var last := pairs[|pairs| - 1];
      var g := GroupBy(init);
      var v := Get(g, last.1).GetOr([]) + [last.0];
      assert GroupBy(pairs) == Put(g, last.1, v);
      GroupByOrder(init);
      GroupByContents(init, last.1);
      ValuesSnoc(pairs);
      var vs := Values(pairs);
      assert vs[..|vs| - 1] == Values(init);
      assert FirstAppearances(vs) ==
        if last.1 in FirstAppearances(Values(init)) then FirstAppearances(Values(init))
        else FirstAppearances(Values(init)) + [last.1];
      PutWf(g, last.1, v);
    }
  }

  /**
    Grouping a name-to-server dictionary lists a name under a server exactly
    when the dictionary maps it to that server, so every name appears under
    exactly one server.
  */
  lemma {:induction false} GroupedUnderOwner(d: Dict<string, string>, server: string, name: string)
    requires Wf(d)
    ensures name in Members(d, server) <==> Get(d, name) == Some(server)
    ensures Distinct(Members(d, server))
    decreases |d|
  {
    if d != [] {
      var init := d[..|d| - 1];
      var last := d[|d| - 1];
      assert d == init + [last];
      assert Keys(init) == Keys(d)[..|d| - 1];
      assert Wf(init);
      GroupedUnderOwner(init, server, name);
      GroupedUnderOwner(init, server, last.0);
      GetSnoc(init, last.0, last.1, name);
      assert Keys(d)[|d| - 1] == last.0;
      assert last.0 !in Keys(init);
      MembersSnocDistinct(Members(init, server), last.1 == server, last.0);
    }
  }

  /** Appending a value that is not yet there keeps a list free of repeats. */
  lemma MembersSnocDistinct(m: seq<string>, add: bool, x: string)
    requires Distinct(m) && (add ==> x !in m)
    ensures Distinct(m + (if add then [x] else []))
  {
    if !add {
      assert m + [] == m;
    }
  }

  /** A resource entry paired with the server it belongs to. */
  function OwnedEntry(e: ResourceEntry): (ResourceEntry, string) { (e, e.server) }

  // ---------------------------------------------------------------------
  // The command loop (chat_loop)
  // ---------------------------------------------------------------------

  /** What one line of input asks for. */
  datatype Command = Quit | Blank | ListTools | ListPrompts | ListResources | Ask(query: string)

  /**
    The line is stripped first; the words quit, exit and q end the loop and
    tools, prompts and resources list capabilities, all regardless of case;
    a blank line is skipped; anything else is a query, passed on stripped but
    with its case kept.
  */
  function Classify(line: string): Command {
    ClassifyStripped(Strip(line))
  }

  function ClassifyStripped(query: string): Command {
    var word := Lower(query);
    if word == "quit" || word == "exit" || word == "q" then Quit
    else if query == "" then Blank
    else if word == "tools" then ListTools
    else if word == "prompts" then ListPrompts
    else if word == "resources" then ListResources
    else Ask(query)
  }

  /** Whitespace around a line never changes what it asks for. */
  lemma ClassifyIgnoresPadding(p: string, line: string, q: string)
    requires AllSpace(p) && AllSpace(q)
    ensures Classify(p + line + q) == Classify(line)
  {
    StripPadded(p, line, q);
  }

  lemma StrippedCaseInsensitive(query1: string, query2: string)
    requires Lower(query1) == Lower(query2)
    ensures ClassifyStripped(query1).Ask? <==> ClassifyStripped(query2).Ask?
    ensures !ClassifyStripped(query1).Ask? ==> ClassifyStripped(query1) == ClassifyStripped(query2)
  {
    assert |query1| == |Lower(query1)| == |Lower(query2)| == |query2|;
  }

  /**
    The command words are recognised in any letter case: two lines that
    differ only in case are both queries or both the same command.
  */
  lemma ClassifyCaseInsensitive(line1: string, line2: string)
    requires Lower(line1) == Lower(line2)
    ensures Classify(line1).Ask? <==> Classify(line2).Ask?
    ensures !Classify(line1).Ask? ==> Classify(line1) == Classify(line2)
  {
    StripLower(line1);
    StripLower(line2);
    StrippedCaseInsensitive(Strip(line1), Strip(line2));
  }

  /** What is sent as a query is the stripped line itself: never blank and never a command word. */
  lemma ClassifyQuery(line: string)
    requires Classify(line).Ask?
    ensures Classify(line).query == Strip(line) && Classify(line).query != ""
    ensures Lower(Strip(line)) !in ["quit", "exit", "q", "tools", "prompts", "resources"]
  {
  }

  /** What one pass of the command loop shows or answers. */
  datatype Event =
    | ToolsShown(tools: Dict<string, seq<string>>)
    | PromptsShown(prompts: Option<Dict<string, seq<string>>>)          // None: "No prompts available"
    | ResourcesShown(resources: Option<Dict<string, seq<ResourceEntry>>>) // None: "No resources available"
    | Answer(result: QueryResult)

  /** The wiring of a query against a registry. */
  function WiringOf(reg: Registry, model: (seq<Message>, seq<ToolInfo>) -> Completion,
                    parse: string -> Option<Json>): Wiring
  {
    Wiring(reg.toolToServer, reg.sessions, reg.allTools, model, parse)
  }

  /** The tool names of each server, as `_show_tools` lists them. */
  function ToolGroups(reg: Registry): Dict<string, seq<string>> {
    GroupBy(reg.toolToServer)
  }

  /** The prompt names of each server, or nothing when no prompt was registered. */
  function PromptGroups(reg: Registry): Option<Dict<string, seq<string>>> {
    if reg.allPrompts == [] then None else Some(GroupBy(reg.promptToServer))
  }

  /** The resource entries of each server, or nothing when no resource was registered. */
  function ResourceGroups(reg: Registry): Option<Dict<string, seq<ResourceEntry>>> {
    if reg.allResources == [] then None else Some(GroupBy(MapSeq(OwnedEntry, reg.allResources)))
  }

  /**
    The command loop over the classified input lines: it ends at a quit word
    or at the end of input, skips blank lines, and otherwise shows a listing
    or answers a query; an exception out of a query is reported and the loop
    goes on.
  */
  function Run(reg: Registry, limit: nat, model: (seq<Message>, seq<ToolInfo>) -> Completion,
               parse: string -> Option<Json>, commands: seq<Command>): seq<Event>
    decreases |commands|
  {
    if commands == [] || commands[0] == Quit then []
    else Respond(reg, limit, model, parse, commands[0]) + Run(reg, limit, model, parse, commands[1..])
  }

  /** What one command other than quit shows or answers. */
  function Respond(reg: Registry, limit: nat, model: (seq<Message>, seq<ToolInfo>) -> Completion,
                   parse: string -> Option<Json>, command: Command): seq<Event>
  {
    match command
    case Quit => []
    case Blank => []
    case ListTools => [ToolsShown(ToolGroups(reg))]
    case ListPrompts => [PromptsShown(PromptGroups(reg))]
    case ListResources => [ResourcesShown(ResourceGroups(reg))]
    case Ask(q) => [Answer(Query(WiringOf(reg, model, parse), q, limit))]
  }

  /** `chat_loop()` over the given input lines. */
  function Chat(reg: Registry, limit: nat, model: (seq<Message>, seq<ToolInfo>) -> Completion,
                parse: string -> Option<Json>, lines: seq<string>): seq<Event>
  {
    Run(reg, limit, model, parse, MapSeq(Classify, lines))
  }

  /** The loop's step at position `i`: a quit word ends it, any other command responds and goes on. */
  lemma RunStep(reg: Registry, limit: nat, model: (seq<Message>, seq<ToolInfo>) -> Completion,
                parse: string -> Option<Json>, commands: seq<Command>, i: nat)
    requires i < |commands|
    ensures Run(reg, limit, model, parse, commands[i..]) ==
      if commands[i] == Quit then []
      else Respond(reg, limit, model, parse, commands[i]) + Run(reg, limit, model, parse, commands[i + 1..])
  {
    assert commands[i..][1..] == commands[i + 1..];
  }

  lemma {:induction false} RunStopsAtQuit(reg: Registry, limit: nat, model: (seq<Message>, seq<ToolInfo>) -> Completion,
                                          parse: string -> Option<Json>, commands: seq<Command>, k: nat, more: seq<Command>)
    requires k < |commands| && commands[k] == Quit
    ensures Run(reg, limit, model, parse, commands + more) == Run(reg, limit, model, parse, commands)
    decreases k
  {
    assert (commands + more)[0] == commands[0];
    if k > 0 {
      assert (commands + more)[1..] == commands[1..] + more;
      RunStopsAtQuit(reg, limit, model, parse, commands[1..], k - 1, more);
    }
  }

  /** Nothing after a quit word is read: further input never changes what the loop does. */
  lemma ChatStopsAtQuit(reg: Registry, limit: nat, model: (seq<Message>, seq<ToolInfo>) -> Completion,
                        parse: string -> Option<Json>, lines: seq<string>, k: nat, more: seq<string>)
    requires k < |lines| && Classify(lines[k]) == Quit
    ensures Chat(reg, limit, model, parse, lines + more) == Chat(reg, limit, model, parse, lines)
  {
    MapSeqAppend(Classify, lines, more);
    RunStopsAtQuit(reg, limit, model, parse, MapSeq(Classify, lines), k, MapSeq(Classify, more));
  }

  /** The number of commands that are not blank lines. */
  function NonBlank(commands: seq<Command>): nat
    decreases |commands|
  {
    if commands == [] then 0 else (if commands[0] == Blank then 0 else 1) + NonBlank(commands[1..])
  }

  /**
    Without a quit word the loop produces exactly one event per line that is
    not blank, in input order.
  */
  lemma {:induction false} RunOneEventPerLine(reg: Registry, limit: nat, model: (seq<Message>, seq<ToolInfo>) -> Completion,
                                              parse: string -> Option<Json>, commands: seq<Command>)
    requires forall i :: 0 <= i < |commands| ==> commands[i] != Quit
    ensures |Run(reg, limit, model, parse, commands)| == NonBlank(commands)
    decreases |commands|
  {
    if commands != [] {
      assert commands[0] != Quit;
      RunOneEventPerLine(reg, limit, model, parse, commands[1..]);
    }
  }

  /**
    Every query line is answered by the query run with that line, stripped:
    when every line is a query, the events are their answers, in order.
  */
  lemma {:induction false} RunAnswersEachQuery(reg: Registry, limit: nat, model: (seq<Message>, seq<ToolInfo>) -> Completion,
                                               parse: string -> Option<Json>, commands: seq<Command>)
    requires forall i :: 0 <= i < |commands| ==> commands[i].Ask?
    ensures var events := Run(reg, limit, model, parse, commands);
      |events| == |commands| &&
      forall i :: 0 <= i < |commands| ==> events[i] == Answer(Query(WiringOf(reg, model, parse), commands[i].query, limit))
    decreases |commands|
  {
    if commands != [] {
      assert commands[0].Ask?;
      RunAnswersEachQuery(reg, limit, model, parse, commands[1..]);
      var events := Run(reg, limit, model, parse, commands);
      assert forall i :: 1 <= i < |commands| ==> events[i] == Run(reg, limit, model, parse, commands[1..])[i - 1];
    }
  }

  /** The queries among the commands, in order. */
  function Queries(commands: seq<Command>): seq<string>
    decreases |commands|
  {
    if commands == [] then []
    else (if commands[0].Ask? then [commands[0].query] else []) + Queries(commands[1..])
  }

  /** The query results among the events, in order. */
  function AnswersOf(events: seq<Event>): seq<QueryResult>
    decreases |events|
  {
    if events == [] then []
    else (if events[0].Answer? then [events[0].result] else []) + AnswersOf(events[1..])
  }

  lemma AnswersOfCons(head: seq<Event>, rest: seq<Event>)
    requires |head| <= 1
    ensures AnswersOf(head + rest) ==
      (if head != [] && head[0].Answer? then [head[0].result] else []) + AnswersOf(rest)
  {
    if head == [] {
      assert head + rest == rest;
    } else {
      assert (head + rest)[1..] == rest;
    }
  }

  /**
    Without a quit word, the answers the loop gives are, in order, the
    queries run with the query lines, stripped; the listings and blank lines
    between them play no part, and a query that raises is reported as its
    answer while the loop goes on.
  */
  lemma {:induction false} RunAnswersQueries(reg: Registry, limit: nat, model: (seq<Message>, seq<ToolInfo>) -> Completion,
                                             parse: string -> Option<Json>, commands: seq<Command>)
    requires forall i :: 0 <= i < |commands| ==> commands[i] != Quit
    ensures var answers, queries := AnswersOf(Run(reg, limit, model, parse, commands)), Queries(commands);
      |answers| == |queries| &&
      forall i :: 0 <= i < |queries| ==> answers[i] == Query(WiringOf(reg, model, parse), queries[i], limit)
    decreases |commands|
  {
    if commands != [] {
      assert commands[0] != Quit;
      var head := Respond(reg, limit, model, parse, commands[0]);
      var rest := Run(reg, limit, model, parse, commands[1..]);
      RunAnswersQueries(reg, limit, model, parse, commands[1..]);
      AnswersOfCons(head, rest);
      var a0 := if head != [] && head[0].Answer? then [head[0].result] else [];
      var q0 := if commands[0].Ask? then [commands[0].query] else [];
      assert |a0| == |q0|;
      assert q0 != [] ==> a0[0] == Query(WiringOf(reg, model, parse), q0[0], limit);
    }
  }

  // ---------------------------------------------------------------------
  // The bot
  // ---------------------------------------------------------------------

  /** `for item, server in pairs: by_server.setdefault(server, []).append(item)`. */
  method GroupByOwner<T>(pairs: seq<(T, string)>) returns (groups: Dict<string, seq<T>>)
    ensures groups == GroupBy(pairs)
  {
    groups := [];
    for i := 0 to |pairs|
      invariant groups == GroupBy(pairs[..i])
    {
      var (item, server) := pairs[i];
      ghost var before := groups;
      GroupByStep(pairs, i);
      if server !in Keys(groups) {
        groups := Put(groups, server, []);
        PutTwice(before, server, [], [item]);
        assert [] + [item] == [item];
      }
      var members := Get(groups, server).value;
      assert members == Get(before, server).GetOr([]);
      groups := Put(groups, server, members + [item]);
    }
    assert pairs[..|pairs|] == pairs;
  }

  /** `MinimalOpenAIMCPBot`: sessions and aggregated capabilities, updated in place. */
  class Bot {
    var sessions: Dict<string, Session>
    var allTools: seq<ToolInfo>
    var allPrompts: seq<PromptInfo>
    var allResources: seq<ResourceEntry>
    var toolToServer: Dict<string, string>
    var promptToServer: Dict<string, string>
    var resourceToServer: Dict<string, string>
    var maxIterations: nat

    /** The registration state of the bot as a value. */
    function Snapshot(): Registry
      reads this
    {
      Registry(sessions, allTools, allPrompts, allResources, toolToServer, promptToServer, resourceToServer)
    }

    constructor()
      ensures Snapshot() == EmptyRegistry() && maxIterations == 15
    {
      sessions := [];
      allTools := [];
      allPrompts := [];
      allResources := [];
      toolToServer := [];
      promptToServer := [];
      resourceToServer := [];
      maxIterations := 15;
    }

    /** The tool part of `connect_to_server`. */
    method RegisterTools(server: string, listing: Listing<ToolInfo>)
      modifies this`toolToServer, this`allTools
      ensures toolToServer == PutEach(old(toolToServer), Advertised(listing), ToolName, server)
      ensures allTools == old(allTools) + Advertised(listing)
      ensures Snapshot() == old(Snapshot()).(toolToServer := toolToServer, allTools := allTools)
    {
      if listing.ListingFailed? {
        return;
      }
      var tools := listing.items;
      for i := 0 to |tools|
        invariant toolToServer == PutEach(old(toolToServer), tools[..i], ToolName, server)
        invariant allTools == old(allTools) + tools[..i]
      {
        toolToServer := Put(toolToServer, tools[i].name, server);
        allTools := allTools + [tools[i]];
        PutEachStep(old(toolToServer), tools, i, ToolName, server);
        AppendStep(old(allTools), tools, i);
      }
      assert tools[..|tools|] == tools;
    }

    /** The prompt part of `connect_to_server`. */
    method RegisterPrompts(server: string, listing: Listing<PromptInfo>)
      modifies this`promptToServer, this`allPrompts
      ensures promptToServer == PutEach(old(promptToServer), Advertised(listing), PromptName, server)
      ensures allPrompts == old(allPrompts) + Advertised(listing)
      ensures Snapshot() == old(Snapshot()).(promptToServer := promptToServer, allPrompts := allPrompts)
    {
      if listing.ListingFailed? {
        return;
      }
      var prompts := listing.items;
      for i := 0 to |prompts|
        invariant promptToServer == PutEach(old(promptToServer), prompts[..i], PromptName, server)
        invariant allPrompts == old(allPrompts) + prompts[..i]
      {
        promptToServer := Put(promptToServer, prompts[i].name, server);
        allPrompts := allPrompts + [prompts[i]];
        PutEachStep(old(promptToServer), prompts, i, PromptName, server);
        AppendStep(old(allPrompts), prompts, i);
      }
      assert prompts[..|prompts|] == prompts;
    }

    /** The resource part of `connect_to_server`. */
    method RegisterResources(server: string, listing: Listing<ResourceInfo>)
      modifies this`resourceToServer, this`allResources
      ensures resourceToServer == PutEach(old(resourceToServer), Advertised(listing), ResourceName, server)
      ensures allResources == old(allResources) + ResourceEntries(server, Advertised(listing))
      ensures Snapshot() == old(Snapshot()).(resourceToServer := resourceToServer, allResources := allResources)
    {
      if listing.ListingFailed? {
        return;
      }
      var resources := listing.items;
      for i := 0 to |resources|
        invariant resourceToServer == PutEach(old(resourceToServer), resources[..i], ResourceName, server)
        invariant allResources == old(allResources) + ResourceEntries(server, resources[..i])
      {
        var resource := resources[i];
        var name := resource.name.GetOr(resource.uri);
        allResources := allResources + [ResourceEntry(resource.uri, name, resource.description, server)];
        resourceToServer := Put(resourceToServer, name, server);
        PutEachStep(old(resourceToServer), resources, i, ResourceName, server);
        ResourceEntriesStep(old(allResources), server, resources, i);
      }
      assert resources[..|resources|] == resources;
    }

    /** `connect_to_server(name, params)`, with the server's behaviour given. */
    method ConnectToServer(name: string, srv: ServerBehaviour)
      modifies this
      ensures Snapshot() == Register(old(Snapshot()), name, srv)
      ensures maxIterations == old(maxIterations)
    {
      if !srv.connects {
        return;
      }
      ghost var before := Snapshot();
      sessions := Put(sessions, name, srv.session);
      RegisterTools(name, srv.tools);
      RegisterPrompts(name, srv.prompts);
      RegisterResources(name, srv.resources);
      RegisterFields(before, name, srv, Snapshot());
    }

    /** `connect_to_servers()`, with the configured servers given in configuration order. */
    method ConnectToServers(config: Dict<string, ServerBehaviour>) returns (outcome: Startup)
      modifies this
      ensures Snapshot() == RegisterAll(old(Snapshot()), config)
      ensures outcome == StartupOutcome(config, Snapshot())
      ensures maxIterations == old(maxIterations)
    {
      if config == [] {
        return NoServersConfigured;
      }
      for i := 0 to |config|
        invariant Snapshot() == RegisterAll(old(Snapshot()), config[..i])
        invariant maxIterations == old(maxIterations)
      {
        ConnectToServer(config[i].0, config[i].1);
        assert config[..i + 1][..i] == config[..i];
      }
      assert config[..|config|] == config;
      if sessions == [] {
        return NoServerConnected;
      }
      return Ready;
    }

    /** `process_query(query)`, with the language model and `json.loads` given. */
    method ProcessQuery(query: string, model: (seq<Message>, seq<ToolInfo>) -> Completion,
                        parse: string -> Option<Json>) returns (result: QueryResult)
      ensures result == Query(WiringOf(Snapshot(), model, parse), query, maxIterations)
    {
      var w := WiringOf(Snapshot(), model, parse);
      var messages := [UserTurn(query)];
      var iteration := 0;
      while iteration < maxIterations
        invariant maxIterations == 0 ==> iteration == 0 && messages == [UserTurn(query)]
        invariant maxIterations > 0 ==>
          iteration < maxIterations && Query(w, query, maxIterations) == RoundsFrom(w, messages, iteration + 1, maxIterations)
        decreases maxIterations - iteration
      {
        iteration := iteration + 1;
        var completion := model(messages, allTools);
        if completion.CompletionFailed? {
          return QueryResult(Raised(ModelError(completion.error)), messages, iteration);
        }
        var calls := completion.toolCalls;
        if |calls| == 0 {
          return QueryResult(Answered(completion.content), messages, iteration);
        }
        messages := messages + [AssistantTurn(completion.content, calls)];
        ghost var start := messages;
        var i := 0;
        while i < |calls|
          invariant 0 <= i <= |calls|
          invariant RunCalls(w, start, calls) == RunCalls(w, messages, calls[i..])
        {
          var call := calls[i];
          var decoded := parse(call.arguments);
          if decoded.None? {
            return QueryResult(Raised(ArgumentsNotJson(call.id)), messages, iteration);
          }
          if !decoded.value.JObject? {
            return QueryResult(Raised(ArgumentsNotObject(call.id)), messages, iteration);
          }
          var args := decoded.value.members;
          var serverName := Get(toolToServer, call.name).GetOr("unknown");
          var session := Get(sessions, serverName);
          var text;
          if session.None? {
            text := "Error: Server '" + serverName + "' not connected";
          } else {
            var reply := session.value.callTool(call.name, args);
            if reply.ToolRaised? {
              text := "Error: " + reply.message;
            } else if reply.content == [] {
              text := "No result";
            } else if reply.content[0].TextContent? {
              text := reply.content[0].text;
            } else {
              text := "Error: '" + reply.content[0].typeName + "' object has no attribute 'text'";
            }
          }
          messages := messages + [ToolTurn(call.id, text)];
          assert calls[i..][1..] == calls[i + 1..];
          i := i + 1;
        }
        if iteration >= maxIterations {
          return QueryResult(LimitReached, messages, iteration);
        }
      }
      return QueryResult(NeverAsked, messages, 0);
    }

    /** `_show_tools()`: the tool names grouped by server. */
    method ShowTools() returns (groups: Dict<string, seq<string>>)
      ensures groups == ToolGroups(Snapshot())
    {
      groups := GroupByOwner(toolToServer);
    }

    /** `_show_prompts()`: nothing when no prompt is registered, else the prompt names grouped by server. */
    method ShowPrompts() returns (groups: Option<Dict<string, seq<string>>>)
      ensures groups == PromptGroups(Snapshot())
    {
      if allPrompts == [] {
        return None;
      }
      var byServer := GroupByOwner(promptToServer);
      return Some(byServer);
    }

    /** `_show_resources()`: nothing when no resource is registered, else the entries grouped by server. */
    method ShowResources() returns (groups: Option<Dict<string, seq<ResourceEntry>>>)
      ensures groups == ResourceGroups(Snapshot())
    {
      if allResources == [] {
        return None;
      }
      var byServer := GroupByOwner(MapSeq(OwnedEntry, allResources));
      return Some(byServer);
    }

    /** What the loop shows or answers for one input line that is not a quit word. */
    method HandleCommand(command: Command, model: (seq<Message>, seq<ToolInfo>) -> Completion,
                         parse: string -> Option<Json>) returns (response: seq<Event>)
      requires command != Quit
      ensures response == Respond(Snapshot(), maxIterations, model, parse, command)
    {
      match command {
        case Blank =>
          response := [];
        case ListTools =>
          var groups := ShowTools();
          response := [ToolsShown(groups)];
        case ListPrompts =>
          var groups := ShowPrompts();
          response := [PromptsShown(groups)];
        case ListResources =>
          var groups := ShowResources();
          response := [ResourcesShown(groups)];
        case Ask(query) =>
          var result := ProcessQuery(query, model, parse);
          response := [Answer(result)];
      }
    }

    /** `chat_loop()`, reading the given input lines in order until a quit word or their end. */
    method ChatLoop(lines: seq<string>, model: (seq<Message>, seq<ToolInfo>) -> Completion,
                    parse: string -> Option<Json>) returns (events: seq<Event>)
      ensures events == Chat(Snapshot(), maxIterations, model, parse, lines)
    {
      ghost var reg, limit := Snapshot(), maxIterations;
      ghost var commands := MapSeq(Classify, lines);
      ghost var all := Run(reg, limit, model, parse, commands);
      assert commands[0..] == commands;
      events := [];
      var i := 0;
      while i < |lines|
        invariant 0 <= i <= |lines|
        invariant all == events + Run(reg, limit, model, parse, commands[i..])
      {
        var command := Classify(lines[i]);
        RunStep(reg, limit, model, parse, commands, i);
        if command == Quit {
          return;
        }
        ghost var rest := Run(reg, limit, model, parse, commands[i + 1..]);
        var response := HandleCommand(command, model, parse);
        AppendAssoc(events, response, rest);
        events := events + response;
        i := i + 1;
      }
    }
  }
}
