# A model of the MCP research assistant

This project models the two pieces of sequential logic in the research
assistant and proves properties about them.

- **The client** (`client/mcp_client.py`, class `MinimalOpenAIMCPBot`).
  - It connects to the configured MCP servers.
  - It gathers their tools, prompts and resources into lists and into
    name-to-server dictionaries.
  - It answers a query by letting the language model ask for tool calls and
    sending each call to the session of the server that owns the tool. This
    goes on for at most `max_iterations` (15) model round-trips.
  - Its command loop sorts each input line into quit, skip, a listing or a
    query.
- **The research server's paper cache** (`server/research_server.py`).
  - Topics are normalised into folder names.
  - `search_papers` merges the arXiv results into the topic's
    `papers_info.json`.
  - `extract_info` searches the topic folders for the first one that holds a
    paper id.
  - Three text renderers: `get_available_folders`, `get_papers_in_topic` and
    `get_search_prompt`.

The files are:

- `wrappers.dfy`: `Option` and `Result`.
- `dicts.dfy`: Python dictionaries as ordered lists of pairs. Assigning to an
  existing key keeps its position; a new key goes at the end. So iteration
  order is insertion order, as in Python.
- `text.dfy`: the `str` operations used, namely `lower`, `replace`, `strip`,
  `join`, slicing and `str(int)`.
- `mcp_client.dfy`: the client.
  - Class `McpClient.Bot` has the bot's seven fields. Its methods update those
    fields in place, in loops.
  - Each method is proved equal to a pure specification function, and the
    properties are lemmas about those functions.
- `research_server.dfy`: the server.
  - The `papers` directory is a value: whether it exists, and its entries in
    listing order.
  - Each tool is a method with the source's loops, proved equal to a
    specification function.

The outside world is given as parameters:

- **The language model:** a function from the conversation so far (and the
  tool list) to its next completion, or to the exception the request raised.
- **`json.loads`:** a function from text to a JSON value, or to nothing when
  the text is not JSON.
- **A session:** a function from tool name and arguments to a result or an
  exception.
- **A server:** whether its connection and `initialize` succeed, plus what
  each of its three listings returns.
- **The arXiv search:** its results, or the error it raised.
- **Writing the cache file:** one of three outcomes.
  - The file is written.
  - `open(..., "w")` fails, which leaves the old file as it was.
  - Writing fails after `open` has emptied the file, which leaves a file
    that no longer parses.

## Model

| member | source | states |
|---|---|---|
| Text.Lower | server/research_server.py:64 | lower-casing keeps the length and lower-cases every character (ASCII) |
| Text.LowerIdempotent | server/research_server.py:196 | lower-casing twice is lower-casing once |
| Text.ReplaceChar | server/research_server.py:64 | replacing a character keeps the length and changes exactly the positions holding it |
| Text.TrimStart | client/mcp_client.py:145 | `lstrip` removes exactly the leading whitespace, and what is left does not start with whitespace |
| Text.TrimEnd | client/mcp_client.py:145 | `rstrip` removes exactly the trailing whitespace, and what is left does not end with whitespace |
| Text.Strip | client/mcp_client.py:145 | reference definition of `strip()` (no contract of its own); see TrimStart, TrimEnd, StripPadded and StripLower |
| Text.StripPadded | client/mcp_client.py:145 | whitespace added around a line does not change what `strip` returns |
| Text.StripLower | client/mcp_client.py:145-147 | stripping and lower-casing commute |
| Text.Take | server/research_server.py:219 | `s[:n]` is the first `n` characters, or all of `s` when it is shorter |
| Text.Join | server/research_server.py:216 | reference definition of `', '.join(...)` (no contract of its own) |
| Text.NatToString | server/research_server.py:229 | the decimal form of a natural is non-empty digits with no leading zero |
| Text.IntToString | server/research_server.py:229 | `str(int)` is non-empty and holds only digits and a minus sign |
| Text.NatToStringRoundTrip | server/research_server.py:229 | reading the decimal digits back gives the number |
| Text.IntToStringInjective | server/research_server.py:229 | different integers print differently |
| Text.SignShows | server/research_server.py:229 | a printed integer starts with `-` exactly when it is negative |
| Text.IntToStringNoSpace | server/research_server.py:229 | helper of SearchPromptInjective: a printed integer holds no space |
| Dicts.Get | client/mcp_client.py:88-92 | `d.get(k)` finds a value exactly when `k` is a key |
| Dicts.Put | client/mcp_client.py:261 | `d[k] = v`: `k` maps to `v`, other keys are unchanged, and a new key is added at the end |
| Dicts.PutWf | client/mcp_client.py:261 | assignment keeps each key held once |
| Dicts.GetAt | server/research_server.py:207 | in a dictionary the pair at a position is what `get` finds for its key |
| Dicts.PutEachGet | client/mcp_client.py:259-262 | after assigning every listed key to `v`, exactly those keys map to `v` and the others keep their value (last write wins) |
| Dicts.PutEachKeys | client/mcp_client.py:259-262 | assigning keys keeps the old keys as a prefix, adds only the listed keys, and keeps keys unique |
| Dicts.PutTwice | client/mcp_client.py:183-185 | a second assignment to the same key overwrites the first |
| Dicts.PutEachValues | client/mcp_client.py:259-262 | after the assignments every stored value is the one assigned or an old value |
| McpClient.Register | client/mcp_client.py:231-347 | reference definition of `connect_to_server` (no contract of its own): the registration by one server; its properties are the Register* lemmas and KindsIndependent |
| McpClient.RegisterAll | client/mcp_client.py:349-377 | reference definition of the `connect_to_servers` loop (no contract of its own): the servers registered in configuration order; see RegisterAllConsistent and RegisterAllSessions |
| McpClient.StartupOutcome | client/mcp_client.py:363-377 | reference definition (no contract of its own) of what start-up reports; see StartupRule |
| McpClient.CallTool | client/mcp_client.py:88-106 | reference definition (no contract of its own) of one dispatched tool call; see ServerFor, ReplyText and DispatchRule |
| McpClient.ResourceEntries | client/mcp_client.py:318-328 | one entry per listed resource, in order, owned by the server and named by `name`, or by the uri when there is no name |
| McpClient.RegisterConsistent | client/mcp_client.py:250-342 | one registration keeps the registry consistent: unique keys, list names equal dictionary keys, and every attributed server has a session |
| McpClient.EmptyConsistent | client/mcp_client.py:25-38 | the registry `__init__` builds is consistent |
| McpClient.RegisterAllConsistent | client/mcp_client.py:371-374 | connecting every configured server keeps the registry consistent |
| McpClient.RegisterOwnership | client/mcp_client.py:255-342 | after `initialize` succeeds, every listed name belongs to this server (last wins), other names keep their owner, and the lists grow by the listed items in order, duplicates included |
| McpClient.KindsIndependent | client/mcp_client.py:255-342 | each kind is registered on its own: one kind's listing failing or changing does not change what the other kinds register |
| McpClient.NoPromptsNoAttribution | client/mcp_client.py:283-311 | a prompt listing that is empty or raised leaves the prompt list and prompt map unchanged |
| McpClient.RegisterSessions | client/mcp_client.py:250 | a session is stored exactly when connection and `initialize` succeed |
| McpClient.RegisterAllSessions | client/mcp_client.py:344-374 | after connecting all servers, a name has a session exactly when it had one before or a configured server of that name connected |
| McpClient.StartupRule | client/mcp_client.py:363-377 | from the empty registry, start-up raises exactly when servers are configured and none connects, and returns quietly exactly when none is configured |
| McpClient.ServerFor | client/mcp_client.py:88 | a tool resolves to its mapped server, or to "unknown" when it is not mapped |
| McpClient.ReplyText | client/mcp_client.py:97-106 | a raised call gives "Error: <message>", empty content gives "No result", otherwise the text of the first content item |
| McpClient.DispatchRule | client/mcp_client.py:88-106 | a missing session gives exactly the not-connected error; otherwise the result is that session's reply, and no other session plays a part |
| McpClient.DecodeArguments | client/mcp_client.py:85-89 | the arguments are accepted exactly when `json.loads` gives a JSON object |
| McpClient.RunCalls | client/mcp_client.py:83-113 | running a batch never changes the turns already in the history |
| McpClient.RunCallsCompleted | client/mcp_client.py:83-113 | a batch completes exactly when every call's arguments decode; it then appends one tool turn per call, in request order, with the call's id and result |
| McpClient.RunCallsAborts | client/mcp_client.py:83-89 | otherwise the first undecodable call raises, after the tool turns of the calls before it |
| McpClient.RoundsFrom | client/mcp_client.py:46-124 | the rounds stay within the limit, hitting the limit means exactly `limit` rounds, and earlier turns are kept |
| McpClient.Query | client/mcp_client.py:40-124 | the history starts with the user turn; at most `max_iterations` round-trips; none when the limit is 0 |
| McpClient.RoundsAppend | client/mcp_client.py:66-113 | complete rounds placed one after another add up |
| McpClient.BatchIsRound | client/mcp_client.py:66-113 | a completed batch adds one assistant turn listing the calls, then one tool turn per call with that call's id |
| McpClient.ExtendRounds | client/mcp_client.py:66-113 | after a completed batch the history is the user turn followed by one more complete round |
| McpClient.RoundsFromShape | client/mcp_client.py:46-124 | every query that ends normally has a history made of complete rounds |
| McpClient.QueryShape | client/mcp_client.py:43-124 | the answer is the model's call-free reply to the user turn plus complete rounds; reaching the limit means all `limit` rounds asked for tools |
| McpClient.FirstReplyFinal | client/mcp_client.py:115-119 | a first reply without tool calls ends the query after one round-trip, with only the user turn in the history |
| McpClient.AlwaysToolsReachesLimit | client/mcp_client.py:121-124 | a model that always asks for tools stops, without an exception, after exactly `limit` round-trips |
| McpClient.MalformedArgumentsEscape | client/mcp_client.py:85 | arguments that are not a JSON object raise out of the query in that round, instead of becoming a tool turn |
| McpClient.GroupBy | client/mcp_client.py:181-187 | reference definition of the `by_server` grouping (no contract of its own); see GroupByContents, GroupByOrder and GroupedUnderOwner |
| McpClient.FirstAppearances | client/mcp_client.py:181-187 | a list without repeats holding the same values |
| McpClient.FirstAppearancesOrder | client/mcp_client.py:181-187 | the values are listed in the order they first appear: wherever a listed value occurs, every value listed before it has already occurred |
| McpClient.GroupByContents | client/mcp_client.py:181-185 | each server that has items gets one group with all its items in order; no other server gets a group |
| McpClient.GroupByOrder | client/mcp_client.py:181-187 | groups are in the order their servers first appear, each server once |
| McpClient.GroupedUnderOwner | client/mcp_client.py:182-185 | grouping a name-to-server map lists a name under a server exactly when the map gives it that server, and, when the map's keys are unique, lists each name once |
| McpClient.GroupByOwner | client/mcp_client.py:181-185 | the `by_server` loop builds exactly the grouping |
| McpClient.Classify | client/mcp_client.py:145-166 | reference definition (no contract of its own) of what one input line asks for; see ClassifyIgnoresPadding, ClassifyCaseInsensitive and ClassifyQuery |
| McpClient.ClassifyStripped | client/mcp_client.py:147-166 | reference definition (no contract of its own) of the command-word tests on a stripped line; see StrippedCaseInsensitive |
| McpClient.Run | client/mcp_client.py:143-176 | reference definition (no contract of its own) of the command loop over classified lines; see the Run* and ChatStopsAtQuit lemmas |
| McpClient.Respond | client/mcp_client.py:151-176 | reference definition (no contract of its own) of what one non-quit command shows or answers; see HandleCommand |
| McpClient.Chat | client/mcp_client.py:126-176 | reference definition (no contract of its own) of `chat_loop` over the input lines; see ChatLoop and ChatStopsAtQuit |
| McpClient.ClassifyIgnoresPadding | client/mcp_client.py:145 | whitespace around a line does not change what it asks for |
| McpClient.StrippedCaseInsensitive | client/mcp_client.py:147-162 | two stripped lines that agree up to case are both queries or both not, and when not, they are the same command |
| McpClient.ClassifyCaseInsensitive | client/mcp_client.py:145-162 | two lines that agree up to case are both queries or both not, and when not, they are the same command: command words are recognised in any letter case |
| McpClient.ClassifyQuery | client/mcp_client.py:151-166 | a query is sent as the stripped line; it is never blank and never a command word |
| McpClient.ChatStopsAtQuit | client/mcp_client.py:147-149 | input after a quit word never changes what the loop does |
| McpClient.RunOneEventPerLine | client/mcp_client.py:143-166 | without a quit word the loop gives exactly one response per non-blank line |
| McpClient.RunAnswersEachQuery | client/mcp_client.py:166-176 | when every line is a query, each is answered by the query run on it, in order; an exception from a query is reported and the loop goes on |
| McpClient.RunAnswersQueries | client/mcp_client.py:143-176 | without a quit word, the answers are exactly the queries run in order, one per query line, whatever listings and blank lines come between them |
| McpClient.Bot.constructor | client/mcp_client.py:25-38 | the bot starts with empty sessions, lists and maps, and `max_iterations == 15` |
| McpClient.Bot.RegisterTools | client/mcp_client.py:255-280 | the tool loop maps each listed tool to the server, appends it to `all_tools`, and changes nothing else |
| McpClient.Bot.RegisterPrompts | client/mcp_client.py:283-311 | the prompt loop maps each listed prompt to the server, appends it to `all_prompts`, and changes nothing else |
| McpClient.Bot.RegisterResources | client/mcp_client.py:314-342 | the resource loop appends one entry per resource and maps its name to the server, and changes nothing else |
| McpClient.Bot.ConnectToServer | client/mcp_client.py:231-347 | the bot's new state is the registration by that server, or is unchanged when the connection fails |
| McpClient.Bot.ConnectToServers | client/mcp_client.py:349-394 | the servers are registered in configuration order, and the reported outcome follows the start-up rule |
| McpClient.Bot.ProcessQuery | client/mcp_client.py:40-124 | the `while` loop and the per-call loop compute exactly `Query` over the bot's state |
| McpClient.Bot.ShowTools | client/mcp_client.py:178-190 | the tool names, grouped by server |
| McpClient.Bot.ShowPrompts | client/mcp_client.py:192-208 | nothing when no prompt is registered, otherwise the prompt names grouped by server |
| McpClient.Bot.ShowResources | client/mcp_client.py:210-229 | nothing when no resource is registered, otherwise the resource entries grouped by server |
| McpClient.Bot.HandleCommand | client/mcp_client.py:151-166 | one non-quit line gives the response the command loop specifies |
| McpClient.Bot.ChatLoop | client/mcp_client.py:126-176 | the command loop over the input lines gives exactly the events of `Chat` |
| ResearchServer.NormalizeTopic | server/research_server.py:64 | a folder name is as long as its topic, has no space and no upper-case letter |
| ResearchServer.NormalizeIdempotent | server/research_server.py:64 | normalising a folder name gives the same name |
| ResearchServer.SameFolder | server/research_server.py:64 | two topics share a folder exactly when they have the same length and agree at each position up to case, with space and `_` counted alike |
| ResearchServer.TopicVariants | server/research_server.py:196 | case variants and space/underscore variants of a topic name the folder that `search_papers` writes |
| ResearchServer.FirstAuthors | server/research_server.py:94 | the summary keeps exactly the first three authors, or all of them when there are fewer |
| ResearchServer.Merge | server/research_server.py:77-88 | reference definition of the merge loop (no contract of its own); see MergeGet, MergeKeys and SearchCacheContents |
| ResearchServer.MergeGet | server/research_server.py:77-88 | after the merge each fetched id maps to the record of the last paper with that id (overwriting), and every other id keeps its stored record |
| ResearchServer.MergeKeys | server/research_server.py:70-88 | the merge keeps every stored id in place, adds exactly the fetched ids, and keeps ids unique |
| ResearchServer.Search | server/research_server.py:30-111 | reference definition of `search_papers` (no contract of its own); see the Search* lemmas |
| ResearchServer.SearchPapers | server/research_server.py:30-111 | the tool's loops compute the specified directory and reply, for each of the three save outcomes |
| ResearchServer.SearchFailureKeepsCache | server/research_server.py:48-61 | an arXiv failure returns the error and the topic, and touches no topic folder |
| ResearchServer.SearchReplyFacts | server/research_server.py:91-111 | `count` equals the number of fetched papers; one summary per paper, in order, with its id and at most three authors |
| ResearchServer.SearchSaveFailures | server/research_server.py:98-103 | a failed `open` leaves the topic's old entry (or the new empty folder), a write failing after `open` leaves an unparsable file, and the reply is the same as for a saved search |
| ResearchServer.SearchStoresMerge | server/research_server.py:63-103 | a saved search leaves the merged cache in the topic's folder and changes no other entry |
| ResearchServer.SearchCacheContents | server/research_server.py:70-88 | fetched ids get their full record, all authors included; other ids keep theirs; a missing or unparsable file counts as empty |
| ResearchServer.Extract | server/research_server.py:114-152 | reference definition of `extract_info` (no contract of its own); see ExtractInfo, FirstMatchAt, FirstMatchNone and OnlyHolder |
| ResearchServer.FirstMatch | server/research_server.py:134-144 | reference definition of the folder search (no contract of its own); see FirstMatchAt and FirstMatchNone |
| ResearchServer.ExtractInfo | server/research_server.py:114-152 | the folder loop with early return computes the specified lookup; a missing directory gives its own error |
| ResearchServer.FirstMatchAt | server/research_server.py:134-144 | the lookup returns the record from the first folder, in listing order, whose parsed cache holds the id |
| ResearchServer.FirstMatchNone | server/research_server.py:134-152 | the lookup finds nothing exactly when no folder's parsed cache holds the id |
| ResearchServer.OnlyHolder | server/research_server.py:134-144 | when only one folder holds the id, the lookup returns that folder's record |
| ResearchServer.SearchThenExtract | server/research_server.py:63-144 | after a saved search, `extract_info` of a fetched id held by no other folder returns its fresh record |
| ResearchServer.FolderNames | server/research_server.py:168 | reference definition of the folder filter (no contract of its own); see FolderNamesExact and FolderNamesAppend |
| ResearchServer.FolderListing | server/research_server.py:170-178 | reference definition of the listing text (no contract of its own); see RenderListing and FolderLineAt |
| ResearchServer.FolderNamesExact | server/research_server.py:168 | the listed names are exactly the entries that are folders |
| ResearchServer.FolderNamesAppend | server/research_server.py:168 | folders are listed in directory order |
| ResearchServer.AvailableFolders | server/research_server.py:155-179 | an empty list when there is no `papers` directory, otherwise the Markdown listing of its folders |
| ResearchServer.RenderListing | server/research_server.py:170-178 | the header, one bullet per folder, then the `Use @<last folder>` hint, or "No folders found." when there are none |
| ResearchServer.FolderLineAt | server/research_server.py:172-174 | each folder's `- <folder>` line comes right after the header and the lines of the folders before it |
| ResearchServer.SearchThenListed | server/research_server.py:46-66 | a search that gets past arXiv leaves its topic's folder in the listing |
| ResearchServer.TopicPage | server/research_server.py:182-224 | reference definition of `get_papers_in_topic` (no contract of its own); see PapersInTopic and TopicPageHeading |
| ResearchServer.Section | server/research_server.py:208-219 | reference definition of one paper's section (no contract of its own); see AppendSection, SectionDefaults and SectionSummary |
| ResearchServer.PapersInTopic | server/research_server.py:182-224 | no cache file gives "No papers found", an unparsable file gives the read error, otherwise the heading and the sections |
| ResearchServer.RenderPapers | server/research_server.py:206-220 | the loop appends one section per stored paper, in map order |
| ResearchServer.AppendSection | server/research_server.py:208-219 | the six `+=` lines append exactly one paper's section |
| ResearchServer.SectionsAppend | server/research_server.py:207-219 | the sections of two runs of papers follow each other |
| ResearchServer.SectionDefaults | server/research_server.py:208-218 | missing fields render as Unknown Title, Unknown (authors), Unknown Date, `#` and No summary available |
| ResearchServer.SectionSummary | server/research_server.py:219 | a section ends with the summary line: the first 500 characters of the summary, or all of it when shorter, followed by `...` |
| ResearchServer.TopicPageHeading | server/research_server.py:199-224 | the page starts with the topic heading exactly when the topic's cache file parsed |
| ResearchServer.SearchThenRead | server/research_server.py:64-220 | after a saved search, any spelling of the topic that names the same folder reads the merged cache |
| ResearchServer.SearchPrompt | server/research_server.py:227-248 | reference definition of `get_search_prompt` (no contract of its own); see SearchPromptInjective |
| ResearchServer.Fill | server/research_server.py:229-248 | reference definition of filling the prompt text (no contract of its own); see FillInjective |
| ResearchServer.FillTailLength | server/research_server.py:229-248 | helper of FillInjective: the prompt fills in the topic five times and the count twice |
| ResearchServer.FillInjective | server/research_server.py:229-248 | a prompt template whose count is followed by a space determines its count and topic |
| ResearchServer.SearchTemplateAbout | server/research_server.py:229 | helper of SearchPromptInjective: in `get_search_prompt` the count is followed by a space |
| ResearchServer.SearchPromptInjective | server/research_server.py:227-248 | different topics or paper counts give different prompts |

## Left out

- **External services.** The OpenAI client and its model parameters, the
  MCP stdio transport, `ClientSession` and `AsyncExitStack` cleanup, and the
  arXiv client. These are foreign I/O, so they are parameters as described
  above.
- **Reading `servers_config.json`.** The missing-file and invalid-JSON errors
  are not modelled; the configured servers are given in configuration order.
- **Output.** All printing, logging and `traceback`. The `_show_*` helpers
  return the grouping they print.
- **Asynchrony.** `asyncio` is not modelled; the tools run one after another.
- **The real filesystem.** `os.makedirs`, `listdir`, `open`, `json.dump` and
  `json.load` are replaced by the `PaperDir` value.
  - Which order `listdir` returns is not known, so the order stored in the
    value is used.
  - A topic folder name taken by a plain file makes `os.makedirs` raise. This
    is the `FolderBlocked` reply.
- **Paths.** Path-joining edge cases are not modelled: a topic holding `/`
  or `..`, or an absolute topic.
- **Cache-file contents.** A cache file holding valid JSON that is not an
  object is not modelled. Nor is a file whose JSON repeats an id: `json.load`
  keeps the last of repeated keys, while the model's lookup finds the first.
  The parsed pairs are not required to have unique ids, so the lemmas about
  the model also hold for such lists.
- **Prompt and resource defaults.** A prompt entry keeps `description` and
  `arguments` as options, and a resource entry keeps `description` as an
  option. Python stores `""` or `[]` when the attribute is missing
  (client/mcp_client.py:295-296, 326). The client only passes these on.
- **arXiv results.** The date of `published` arrives already printed as
  `YYYY-MM-DD`, and a `pdf_url` of `None` is not modelled.
- **Characters.** `lower()` and `strip()` are modelled over ASCII only.
- **Tool schemas.** A tool's `inputSchema` is kept as its JSON text, because
  the client only passes it on to the model.
- **Registration mid-loop.** An exception inside a registration loop, after
  some items were registered, is not modelled. The model covers only the
  listing call itself raising, which registers nothing of that kind.
- **Interrupts.** `KeyboardInterrupt` in `chat_loop` is not modelled, and
  end of input (`EOFError`) is the end of the given lines.
- **Behaviour the model keeps as the code has it:**
  - Malformed tool arguments are not turned into a tool turn. `json.loads`
    (client/mcp_client.py:85) and `tool_args.keys()` (line 89) are outside
    the `try`, so they raise out of `process_query`, and `chat_loop` reports
    the exception.
  - Topic normalisation replaces only the space character, not other
    whitespace.
  - `get_available_folders` returns an empty list, not text, when the
    `papers` directory is missing.
- ResearchServer.SearchPapers: the topics `""` and `"."` are not modelled as
  the program treats them. For them the cache path is
  `papers/papers_info.json`, a plain file directly under `papers`, which
  `get_available_folders` does not list and `extract_info` skips
  (server/research_server.py:64-68, 136, 168). The model instead stores the
  cache in a folder named by the normalised topic. So SearchThenExtract and
  SearchThenListed hold in the model for these topics but not in the
  program. The same applies to ResearchServer.Search.
- ResearchServer.SearchThenExtract: for the topics `""` and `"."` the
  program's `extract_info` does not find the saved papers, as said above.
- ResearchServer.SearchThenListed: for the topics `""` and `"."` the
  program's listing does not show the cache, as said above.
- McpClient.RunAnswersEachQuery: covers only input made of queries. Input
  that mixes queries with listings and blank lines is covered by
  McpClient.RunAnswersQueries.
- McpClient.RegisterOwnership: states only the length of `all_resources`.
  The contents are stated by McpClient.ResourceEntries and
  McpClient.Bot.RegisterResources.
