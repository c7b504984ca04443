# BRRR Bot conversation core, modelled in Dafny

BRRR Bot is a Discord bot for a server that runs weekly coding projects. When a
user mentions it, it does the following:

- reads what it remembers about that user and the recent conversation in the
  channel;
- cleans both;
- asks a language model for an answer, letting the model call eleven project,
  task and idea tools for up to five rounds;
- records the user's turn and its own;
- saves any facts the model asked it to remember;
- replies, split into Discord messages of at most 2000 characters.

This project models that core:

- `chat.dfy`: the mention handler of the chat cog and the key normalisation of `/memory add`. The handler covers the history sanitiser, mention cleaning, the tool-round loop, persistence, memory saving and the chunked reply.
- `llm.dfy`: the post-processing the model client applies to a provider answer, the request payload, and the client's system prompt. Post-processing covers `choices` normalisation, the memory block, the acknowledgement, the length retry and the never-blank fallback.
- `tools.dfy`: the tool dispatcher and its eleven executors, as methods of a class over the store.
- `database.dfy`: the SQLite store as in-memory tables: the memory, conversation-history, project, task and idea tables. The statements that change them are methods of `Store`.
- `prompts.dfy`: the three prompt builders.
- `tool_schemas.dfy`: the tool schema list, the name registry and its lookups.
- `wrappers.dfy`, `seqs.dfy`, `text.dfy`, `json.dfy`, `sql.dfy`: support definitions. They cover Option and Result, sequence filters, Python string operations (`strip`, `rfind`, `replace`, `lower`, `join`, slicing into chunks, `str(int)`), decoded JSON with Python truthiness and `dict.get`, and how sqlite3 binds parameters.

The network, the clock and the JSON parser are parameters:

- The language model is a `Gateway`: a function from (request number, request) to an answer or an error.
- The provider API of the client is a function from payload to answer or error.
- `json.loads` is a partial function `string -> Option<Json>`.
- The current time is a `now` string.

`Converse`, `Answer` and `HandleMention` also return the requests they sent, as a ghost value. The handler returns no such thing: the value records what went to the model, so that the contracts can say it is the turn `Turn` defines.

The mention handler calls the client as `chat(user_message=..., conversation_context=...)` and `chat_with_tool_results(...)`. That is the interface of the test mock `tests/mocks/mock_llm.py`. `src/llm.py` itself defines `chat(messages=...)` and no `chat_with_tool_results`. The model therefore treats the model client as that interface (the `Gateway`). It models the post-processing of `src/llm.py` separately, as functions of the provider's answer. With the `src/llm.py` client as written, the handler's first call would raise `TypeError`. The `Failure` branch of `Chat.ChatCog.HandleMention` covers that outcome: the store is untouched and the error reply is sent.

Rows are kept in insertion order. `ORDER BY created_at` is that order, because the clock is taken to be non-decreasing.

Where a Python string literal contains mis-decoded UTF-8, the model keeps the characters as the file spells them. The wrench in the chat cog's error replies and the rocket in the client's closing line are written this way. `src/prompts.py` has a real rocket.

## Model

| member | source | states |
|---|---|---|
| `Chat.IndicatorHitIff` | src/cogs/chat.py:84-97 | a turn is dropped as command-like exactly when some indicator occurs in its text as written or in its lower-cased text |
| `Chat.MergeShape` | src/cogs/chat.py:99-108 | merging a turn into an alternating history keeps roles alternating, ends with the new turn, grows by at most one, and brings in nothing but the new turn |
| `Chat.CollapseShape` | src/cogs/chat.py:99-108 | the same-role collapse keeps at most as many turns as given, only given turns, alternating roles, and ends with the latest turn |
| `Chat.LaterTurnReplaces` | src/cogs/chat.py:101-105 | of two consecutive turns with the same role only the later one counts |
| `Chat.SanitizeStep` | src/cogs/chat.py:66-108 | one more stored turn: a kept turn is merged into the cleaned history, any other is ignored |
| `Chat.SanitizedShape` | src/cogs/chat.py:64-113 | the sanitised history has at most 4 turns, each a stored turn that passes every filter; roles alternate; it ends with the latest kept turn |
| `Chat.SanitizedTurns` | src/cogs/chat.py:64-113 | every turn that reaches the model is a stored turn that passes the filters |
| `Chat.SanitizedOrder` | src/cogs/chat.py:110-113 | at most four turns, alternating roles, ending with the latest kept turn |
| `Chat.LastFourCollapsed` | src/cogs/chat.py:110-113 | cutting a collapsed history to its last four keeps alternation and the latest turn |
| `Chat.Skipped` | src/cogs/chat.py:70-97 | the four `continue` tests of the loop, in order, skip a turn exactly when the filter predicate rejects it |
| `Chat.AddTurn` | src/cogs/chat.py:99-108 | the `history[-1] = msg` / `append` step equals `Merge`, and `last_role` becomes the new turn's role |
| `Chat.FilterHistory` | src/cogs/chat.py:64-108 | the loop leaves the collapse of the kept turns |
| `Chat.Visit` | src/cogs/chat.py:66-108 | one loop iteration turns the cleaned prefix of `i` turns into that of `i+1`, keeping `last_role` equal to the last role |
| `Chat.SanitizeHistory` | src/cogs/chat.py:64-113 | the loop and the cut to four equal `Sanitized(raw)`, whose properties are the lemmas above |
| `Chat.StripMentionsOnce` | src/cogs/chat.py:118-120 | the mention loop as written (one `replace` of each form per mentioned user) never lengthens the text |
| `Chat.MarkupSurvivesOnePass` | src/cogs/chat.py:118-120 | one pass over "<@<@42>42>" with mention 42 leaves "<@42>", a mention of that user |
| `Chat.UnchangedPassFoundNothing` | src/cogs/chat.py:118-120 | a pass that removes nothing leaves the text as it was and found no mention of any listed user |
| `Chat.StripMentions` | src/cogs/chat.py:118-120 | mention removal repeated to a fixed point leaves no `<@id>` or `<@!id>` of any mentioned user, and never lengthens the text |
| `Chat.MarkupFreeBody` | src/cogs/chat.py:121-124 | stripping whitespace, or falling back to "Hello!", brings no mention back |
| `Chat.MessageBody` | src/cogs/chat.py:117-124 | the body the handler sends is never blank. When the single mention pass leaves only whitespace it is "Hello!"; otherwise it is that pass's result stripped of surrounding whitespace, and no longer than the message |
| `Chat.OnceWithoutMentions` | src/cogs/chat.py:118-120 | a text with no mention of a listed user passes through the mention loop unchanged (the converse of `UnchangedPassFoundNothing`) |
| `Chat.MessageBodyAgrees` | src/cogs/chat.py:117-124 | on a message with no mention markup of its mentioned users, the body as written equals the mention-free body |
| `Chat.MessageBodyKeepsMention` | src/cogs/chat.py:117-124 | the message `<@<@42>42>` mentioning user 42 reaches the model as `<@42>`, still a mention of that user |
| `Chat.MessageBodyIntended` | src/cogs/chat.py:117-124 | with removal repeated to a fixed point, the body is never blank and holds no mention of a mentioned user; a message that is only mentions and whitespace becomes "Hello!" |
| `Chat.CleanedText` | src/cogs/chat.py:117-128 | the text sent to the model is never blank: the bot notice followed by the cleaned body for a bot author, the body alone otherwise |
| `Chat.Persona` | src/cogs/chat.py:52-56 | custom instructions are present exactly when a memory is stored under "persona_instructions" |
| `Chat.PersonaIsStored` | src/cogs/chat.py:50-56 | the persona read from the memory dict is the value `get_memory` returns for that key |
| `Chat.NoticeOnlyAfterFiveRounds` | src/cogs/chat.py:197-199 | the too-many-steps text replaces the model's answer only after exactly five tool rounds |
| `Chat.RoundOutcome` | src/cogs/chat.py:153-179 | a tool round gives one result per call |
| `Chat.RoundResultsMatch` | src/cogs/chat.py:161-179 | result `k` of a round carries call `k`'s id and name |
| `Chat.RoundOutcomeShape` | src/cogs/chat.py:161-179 | result `k` is what `execute_tool` replies to call `k`, with `{}` for undecodable arguments, on the tables the first `k` calls left |
| `Chat.RoundErrors` | src/cogs/chat.py:161-179 | in a round, an unknown tool is reported by name and non-object arguments fail on `.get`, whatever the calls before did |
| `Chat.Turn` | src/cogs/chat.py:136-199 | a turn sends 1 to 6 requests, starting with the opening one on the tables as they were, and records the tables each was sent with |
| `Chat.TurnFrom` | src/cogs/chat.py:153-195 | the turn from request `k` on sends at most `6 - k` requests, the first being `req` on `t` |
| `Chat.TurnAfter` | src/cogs/chat.py:157-195 | after an answer asking for tools at request `k`, at most `5 - k` further requests are sent |
| `Chat.TurnFromStep` | src/cogs/chat.py:153-195 | an answer asking for tools within five rounds is followed by the request carrying that round's results, sent on the tables the round left |
| `Chat.TurnFromStops` | src/cogs/chat.py:153 | a failed answer, one asking for no tool, or one after five rounds ends the turn with that request |
| `Chat.TurnFromEnds` | src/cogs/chat.py:153-199 | the last answer of a turn asks for tools only after five rounds |
| `Chat.TurnFromRunsTools` | src/cogs/chat.py:153-195 | every tool round of a turn ran on the tables the previous one left, and the next request carries its calls and results |
| `Chat.RoundsAnswer` | src/cogs/chat.py:161-179 | every round run through a tool runner answers each of its calls in order |
| `Chat.RanIsFollowUp` | src/cogs/chat.py:184-195 | a round whose results answer its calls is followed up by a request carrying those results |
| `Chat.TurnRunsTools` | src/cogs/chat.py:153-195 | for the whole turn: each request after the first carries the previous answer's calls and the results of running them on the tables the previous round left |
| `Chat.TurnEnds` | src/cogs/chat.py:153-199 | the whole turn's last answer asks for tools only after five rounds |
| `Chat.TurnStepAt` | src/cogs/chat.py:153-195 | a request of the turn whose answer asks for tools within five rounds is followed by the request carrying that round's results, on the tables it left |
| `Chat.TurnEndsAt` | src/cogs/chat.py:153 | a request whose answer stops the loop is the turn's last |
| `Chat.TurnSettles` | src/cogs/chat.py:153-199 | the request the loop stops at is the last: the turn is an exchange, and its outcome is what that answer settles on |
| `Chat.TurnIsExchange` | src/cogs/chat.py:136-199 | the requests of a turn whose rounds answer their calls form an `Exchange` |
| `Chat.FailureStops` | src/cogs/chat.py:205-214 | once a memory write raises, no later memory is written |
| `Chat.MemoryDefaults` | src/cogs/chat.py:207-214 | a memory without key, value or context is stored under "misc" with an empty value, and the log line then raises |
| `Chat.WellFormedMemoryStored` | src/cogs/chat.py:205-214 | a memory with a text key and value is saved without error and `get_memory` then returns its value |
| `Chat.MalformedMemoryRefused` | src/cogs/chat.py:205-213 | a null key or value, or a list or object field, fails to bind or violates NOT NULL: nothing is written and the turn errs |
| `Chat.ReplyText` | src/cogs/chat.py:218-220 | the text to send is never empty: the stripped answer, or the blank-brain notice for a blank answer |
| `Chat.Deliveries` | src/cogs/chat.py:223-229 | the first piece is a reply to the mention, every later piece a channel message, and the texts are the pieces in order |
| `Chat.Pieces` | src/cogs/chat.py:221-229 | the pieces concatenate to the text, each is non-empty and at most 2000 long, and there are ceil(n/2000) of them |
| `Chat.RepliesShape` | src/cogs/chat.py:216-229 | the reply is at least one message; the first replies to the mention and the rest go to the channel; together they spell the text; each holds 1..2000 characters, and there are as few as that allows |
| `Chat.NormalizeKey` | src/cogs/chat.py:366 | the key keeps its length; spaces become underscores and ASCII capitals lower case; no space or capital is left |
| `Chat.NormalizeKeyIdempotent` | src/cogs/chat.py:366 | normalising a normalised key changes nothing |
| `Chat.ConcludeShape` | src/cogs/chat.py:201-229 | a completed turn keeps the old history rows and appends the user's cleaned turn and then the bot's answer with consecutive ids. The memory table is what the saving loop leaves. The answer goes out in full unless a memory raised; otherwise the error reply goes out alone. |
| `Chat.OpeningRequest` | src/cogs/chat.py:49-143 | the first request carries all tools, the user's memories, and a context of 1 to 4 sanitised turns or none |
| `Chat.ChatCog.constructor` | src/cogs/chat.py:18-27 | the cog holds the store and whether a model client is configured |
| `Chat.ChatCog.RunToolRound` | src/cogs/chat.py:157-179 | the results and the tables are those of `RoundOutcome` with `execute_tool` as the runner: one result per call, in call order, with the call's id and name. An unknown name or non-object arguments give the dispatcher's error text; arguments that do not decode become `{}`. Memories and history are untouched. |
| `Chat.ChatCog.RunCall` | src/cogs/chat.py:162-173 | one call: arguments decoded or `{}`, then the reply and the tables are those `execute_tool` gives on the tables before the call; memories and history untouched |
| `Chat.ChatCog.FollowUpRound` | src/cogs/chat.py:157-195 | a tool round and the follow-up request: the request carries the calls and the round's results, and the tables are those the round leaves |
| `Chat.ChatCog.Converse` | src/cogs/chat.py:136-199 | the requests sent and the tables left are those of `Turn` with rounds run by `execute_tool`; they form an `Exchange`, and the outcome is what the last answer settles on (`Outcome`): the error, the answer, or the too-many-steps notice after five rounds |
| `Chat.ChatCog.ToolRounds` | src/cogs/chat.py:148-195 | the loop stops at request number `round` of the turn, on the tables of that request, with that request's answer, and the loop guard is false there |
| `Chat.ChatCog.TurnRound` | src/cogs/chat.py:153-195 | one pass of the loop: the next request of the turn is sent with the tables it records, and its answer comes back |
| `Chat.ChatCog.SaveMemory` | src/cogs/chat.py:206-214 | one memory write leaves the table and the raised flag that `MemoryStep` defines |
| `Chat.ChatCog.SaveMemories` | src/cogs/chat.py:205-214 | the loop leaves the table that `SaveMemoryRows` defines, stopping at the first memory that raises |
| `Chat.ChatCog.HandleMention` | src/cogs/chat.py:29-236 | without a client nothing happens. Otherwise the requests sent and the project, task and idea tables before the history is written are those of `Turn` from the opening request, so every tool call reaches the tables through its executor; the requests form an `Exchange`. A model error leaves history and memories untouched and sends the error reply. A completed exchange leaves the history, memories and messages that `Conclude` defines. |
| `Chat.ChatCog.Answer` | src/cogs/chat.py:136-236 | after the opening request: the requests and tables of `Turn`, the exchange, then the error reply or the concluded turn |
| `Chat.ChatCog.Prepare` | src/cogs/chat.py:39-128 | the opening request is built from the store as it was when the mention arrived |
| `Chat.ChatCog.Finish` | src/cogs/chat.py:201-229 | a model answer leaves exactly the history, memories and messages of `Conclude` |
| `Chat.ChatCog.StoreTurns` | src/cogs/chat.py:202-203 | exactly two rows are appended: the user's turn, then the assistant's, with the next two ids |
| `Chat.ChatCog.MemoryAdd` | src/cogs/chat.py:362-379 | the normalised key is upserted with the fixed context, `get_memory` then returns the value, and the confirmation quotes key and value |
| `Llm.ClientSystemPromptShows` | src/llm.py:135-219 | the client's prompt starts with the introduction and always contains: "You're chatting with {user_name}."; the custom section; the memory instructions; the memory section |
| `Llm.ChatPayload` | src/llm.py:233-246 | the system prompt comes first, then the caller's messages. `tools` and `tool_choice: "auto"` are present iff the tool list is non-empty. |
| `Llm.OrEmptyDict` | src/llm.py:254 | `x or {}` then `.get`: a falsy value acts as `{}`, a dict as itself, anything else raises |
| `Llm.AsDict` | src/llm.py:256-257 | `.get` succeeds exactly on a dict and raises `AttributeError` otherwise |
| `Llm.ChoicesNormalised` | src/llm.py:251-254 | missing or empty `choices` act as one empty choice; a non-list choice is used as is; otherwise the first element is taken |
| `Llm.ContentText` | src/llm.py:257-266 | null or falsy content is "", a string is itself, anything else raises |
| `Llm.FindBlock` | src/llm.py:271-273 | the block starts at the last "```json" and ends at the last "```" at least 7 characters later; none when there is no such closing fence |
| `Llm.ProbeMemories` | src/llm.py:276-277 | `"memories" in data` then `data["memories"]` finds a value exactly for a dict holding that key |
| `Llm.ExtractMemories` | src/llm.py:264-281 | without an applicable block nothing changes. Otherwise the text becomes the stripped text before the fence, and the memories are the parsed list when present. The block is stripped even without the key. A raised probe changes nothing. |
| `Llm.ExtractionStripsBlock` | src/llm.py:264-281 | a changed text is always the stripped text before the last opening fence, and memories come only from an applicable block |
| `Llm.ParseFailureIgnored` | src/llm.py:275-281 | a block that does not parse leaves text and memories as they were, without raising |
| `Llm.KeysOf` | src/llm.py:287 | the keys collected are truthy and no more than the memories |
| `Llm.Texts` | src/llm.py:289 | `", ".join` sees the keys' strings in order |
| `Llm.ShownKeys` | src/llm.py:287-289 | the acknowledgement names 1 to 5 keys: the first five truthy keys, when they are strings |
| `Llm.Acknowledge` | src/llm.py:283-294 | visible text is kept. Blank text with memories becomes a non-blank acknowledgement naming the shown keys, or the generic sentence. |
| `Llm.LastUserMessage` | src/llm.py:300-305 | the last message with role "user", or none exactly when there is no user message |
| `Llm.RetryRequest` | src/llm.py:310-320 | the retry uses the fixed fallback model, only the system prompt and the last user message, no tools, and at most 256 tokens |
| `Llm.RetryOutcome` | src/llm.py:321-336 | a retry contributes only a non-blank, stripped text; a failed call contributes nothing |
| `Llm.RetryStep` | src/llm.py:296-338 | exactly one retry iff the text is blank, `finish_reason` is "length" and a user message exists. The text changes only to the retry's non-blank stripped text. |
| `Llm.NeverBlank` | src/llm.py:340-342 | the result is never blank; non-blank text is kept |
| `Llm.Respond` | src/llm.py:250-349 | a non-dict answer raises. A successful result has non-blank content, the first choice's `tool_calls` unchanged, and the memories of the extraction. A retry has 2 messages and at most 256 tokens. |
| `Llm.ChoiceFault` | src/llm.py:113-117 | logging a choice raises exactly when the choice, or its `message`, is not a dict |
| `Llm.ChoicesFault` | src/llm.py:112-121 | the loop over the choices raises iff some choice cannot be logged, and then with the error of the first such choice |
| `Llm.LogFault` | src/llm.py:99-121 | the log raises iff the answer is not `LogsCleanly`; a non-dict answer or a non-dict `usage` raises its `AttributeError` first |
| `Llm.ApiCall` | src/llm.py:83-125 | a failed exchange raises; a received answer is returned unchanged iff the log describes it without raising |
| `Llm.LoggedAnswerHasMessage` | src/llm.py:110-117 | an answer that got past the log has a first choice whose `message` is a dict, so after `_api_call` only the content can make `chat` raise |
| `Llm.Chat` | src/llm.py:221-349 | the call raises when `_api_call` raises, and a successful result comes from an answer that logs cleanly; a successful result is never blank |
| `Tools.DispatchCoversRegistry` | src/tools.py:29-57 | a name has a dispatch branch exactly when it is registered in the tool schemas, so no registered name reaches "Unknown tool" |
| `Tools.LookupProject` | src/tools.py:93-98 | a falsy id is "missing", a list or dict id raises on binding, an id matching no row is "not found", otherwise the project with that id |
| `Tools.LookupTask` | src/tools.py:170-175 | the same four outcomes for task ids |
| `Tools.LookupIdea` | src/tools.py:221-226 | the same four outcomes for idea ids |
| `Tools.TaskLines` | src/tools.py:113-115 | one line per task, in order |
| `Tools.DoneAtMostAll` | src/tools.py:101-108 | the completed count never exceeds the task count, and equals it iff every task is done |
| `Tools.ProjectLines` | src/tools.py:74-75 | one "ID: … \| Title: … \| Status: …" line per project, in order |
| `Tools.IdeaLines` | src/tools.py:213-216 | one line per idea, in order |
| `Tools.GetProjectsReplyCases` | src/tools.py:66-76 | no guild gives the guild error before any read; a status that cannot be bound gives that binding error. The reply is "No projects found." iff the guild has no matching project; otherwise it is exactly the matching projects' lines, newest first, joined by newlines, so it contains every matching project's line. |
| `Tools.ProjectInfoLines` | src/tools.py:103-115 | five header lines (heading first, status second, progress fifth), then the task-list heading and one line per task when there are tasks |
| `Tools.ProjectInfoTextShows` | src/tools.py:103-117 | the info text starts with the project heading and shows the progress and every task |
| `Tools.TasksLines` | src/tools.py:160-166 | heading, one line per task, then the progress line |
| `Tools.TasksTextShows` | src/tools.py:156-167 | no tasks gives the "No tasks found" sentence; otherwise the text starts with the heading and shows every task and the progress |
| `Tools.IdeasTextShows` | src/tools.py:212-218 | the idea listing starts with "**Idea Pool:**" and shows every idea |
| `Tools.UnusedIdeasOnly` | src/tools.py:207 | with the flag set, only the guild's ideas that no project used are listed |
| `Tools.CreateProjectOutcome` | src/tools.py:78-90 | `_create_project` touches only the project table and advances its id counter by at most one. A reply that starts with "Error" comes with the tables unchanged. |
| `Tools.ArchiveProjectOutcome` | src/tools.py:119-131 | `_archive_project` touches only the project table. A reply that starts with "Error" comes with the tables unchanged. |
| `Tools.CreateTaskOutcome` | src/tools.py:137-146 | `_create_task` touches only the task table and advances its id counter by at most one. A reply that starts with "Error" comes with the tables unchanged. |
| `Tools.ToggleTaskOutcome` | src/tools.py:169-179 | `_toggle_task` touches only the task table. A reply that starts with "Error" comes with the tables unchanged. |
| `Tools.ToggleTaskTwice` | src/tools.py:169-179 | toggling the same task twice restores the tables, and the second reply reports the status the task first had |
| `Tools.DeleteTaskOutcome` | src/tools.py:181-190 | `_delete_task` touches only the task table. A reply that starts with "Error" comes with the tables unchanged. |
| `Tools.AddIdeaOutcome` | src/tools.py:196-201 | `_add_idea` touches only the idea table and advances its id counter by at most one. A reply that starts with "Error" comes with the tables unchanged. |
| `Tools.DeleteIdeaOutcome` | src/tools.py:220-229 | `_delete_idea` touches only the idea table. A reply that starts with "Error" comes with the tables unchanged. |
| `Tools.Dispatch` | src/tools.py:29-54 | the four listing tools change nothing; each writing tool touches only its own table and advances only its own id counter, by at most one. A reply that starts with "Error" comes with the tables unchanged. |
| `Tools.ToolOutcome` | src/tools.py:23-60 | an unknown name and non-object arguments give their errors and change nothing; no id counter ever goes back. A reply that starts with "Error" comes with the tables unchanged. |
| `Tools.CreatedProjectFound` | src/tools.py:84-117 | the id `_create_project` reports finds the new project: `_get_project_info` with it answers with that project's info, given ids below the counter and a counter within SQLite INTEGER |
| `Tools.CreatedTaskListed` | src/tools.py:137-167 | the id `_create_task` reports finds the new open task of the named project, and `_get_tasks` on that project shows its line, given ids below the counter and a counter within SQLite INTEGER |
| `Tools.TaskShownUnderProject` | src/tools.py:148-167 | `_get_tasks` on a project shows the line of every task stored under it |
| `Tools.AddedIdeaListed` | src/tools.py:196-218 | the idea `_add_idea` stores belongs to the guild and is unused, so `_get_ideas` for that guild lists it, with or without `unused_only` |
| `Tools.DeletedTaskGone` | src/tools.py:169-190 | after `_delete_task` the same id is "not found": a second delete answers so and changes nothing, and every other task reads back as before |
| `Tools.DeletedIdeaGone` | src/tools.py:220-229 | after `_delete_idea` the same id is "not found": a second delete answers so and changes nothing, and every other idea reads back as before |
| `Tools.ArchiveTwice` | src/tools.py:92-131 | after `_archive_project` a second call answers "already archived" without writing, and `_get_project_info` shows "Status: archived" |
| `Tools.ArchivedShown` | src/tools.py:103-105 | the info text of an archived project contains "Status: archived" |
| `Tools.ToolExecutor.constructor` | src/tools.py:20-21 | the executor works on the given store |
| `Tools.ToolExecutor.CreateProjectTool` | src/tools.py:78-90 | no guild or a falsy title changes nothing and says so. Otherwise one active project owned by the caller (if any) is appended with the next id, and the reply names title and id. Unbindable arguments give the driver's error. |
| `Tools.ToolExecutor.StoreProject` | src/tools.py:84-90 | the reply and the tables are those of `CreateProjectOutcome` once every check has passed |
| `Tools.ToolExecutor.ArchiveProjectTool` | src/tools.py:119-131 | missing, unbindable or unknown ids change nothing. An archived project is reported and left alone. Any other project is archived at `now`, whatever its guild. |
| `Tools.ToolExecutor.CreateTaskTool` | src/tools.py:137-146 | a falsy project id or label, or an unknown project, creates no task. Otherwise exactly one open task is appended, created by the caller, with the next id. |
| `Tools.ToolExecutor.StoreTask` | src/tools.py:145-146 | the reply and the tables are those of `CreateTaskOutcome` once the project is found and the label bound |
| `Tools.ToolExecutor.ToggleTaskTool` | src/tools.py:169-179 | an existing task, in any guild, is flipped once, and the reply states the negation of its old status; otherwise nothing changes |
| `Tools.ToolExecutor.DeleteTaskTool` | src/tools.py:181-190 | an existing task, in any guild, is removed and named; otherwise nothing changes |
| `Tools.ToolExecutor.AddIdeaTool` | src/tools.py:196-201 | no guild changes nothing. A null title fails the NOT NULL constraint. Otherwise one unused idea is appended with the next id. |
| `Tools.ToolExecutor.StoreIdea` | src/tools.py:200-201 | the reply and the tables are those of `AddIdeaOutcome` once title and description are bound |
| `Tools.ToolExecutor.DeleteIdeaTool` | src/tools.py:220-229 | an existing idea, in any guild, is removed and named; otherwise nothing changes |
| `Tools.ToolExecutor.RunProjectTool` | src/tools.py:29-36 | the reply and the tables are those of `Dispatch` for the project tools; the two listings change nothing |
| `Tools.ToolExecutor.RunTaskTool` | src/tools.py:39-46 | the task branches, likewise: the reply and tables of `Dispatch`, the listing changing nothing |
| `Tools.ToolExecutor.RunIdeaTool` | src/tools.py:49-54 | the idea branches, likewise, with `unused_only` defaulting to False |
| `Tools.ToolExecutor.ExecuteTool` | src/tools.py:23-60 | never raises. The reply and the tables after the call are those of `ToolOutcome`, so a known tool does what its executor function does. An unknown name gives "Error: Unknown tool '<name>'" and touches nothing. Arguments that are not an object give "Error executing tool: …". Memories and history are never touched. |
| `Database.SlotIndex` | src/database.py:87 | the position of the one row of a (user, guild, key) slot, none exactly when no row has it |
| `Database.GetMemory` | src/database.py:432-440 | `get_memory` returns a value stored in the slot, and `None` exactly when the slot is empty |
| `Database.RowIsMemoryOfItsSlot` | src/database.py:87 | under the UNIQUE constraint each row is the one found for its own slot |
| `Database.UpsertKeepsSlotsUnique` | src/database.py:416-430 | `set_memory` keeps the (user, guild, key) slots unique |
| `Database.UpsertThenRead` | src/database.py:421-428 | after `set_memory` the slot holds the new value and context, updated at `now`, keeping its old `created_at` |
| `Database.UpsertKeepsOthers` | src/database.py:416-430 | `set_memory` leaves every other slot as it was |
| `Database.UniqueSlotCount` | src/database.py:87 | under the UNIQUE constraint a slot holds one row if it is found and none otherwise |
| `Database.UpsertLeavesOneRow` | src/database.py:416-430 | after `set_memory` exactly one row holds the slot |
| `Database.DeleteSlotEffect` | src/database.py:457-465 | `delete_memory` empties its slot and no other |
| `Database.Entries` | src/database.py:451-455 | one entry per row with key, value, context and update time |
| `Database.AllMemoriesKeyed` | src/database.py:442-455 | the memories of (user, guild) have distinct keys, each entry is what `get_memory` returns, and every stored key is listed |
| `Database.ClearUserEffect` | src/database.py:467-475 | `clear_user_memories` removes all of one user's memories in one guild and nobody else's |
| `Database.Messages` | src/database.py:502 | the role and content of each row, in order |
| `Database.RecentMessages` | src/database.py:490-502 | the newest `limit` rows of (user, guild, channel), oldest first |
| `Database.RecentEndsWithNewest` | src/database.py:479-502 | after `add_message` the recent messages end with the new one and number at most `limit` |
| `Database.DeleteReport` | src/database.py:509-514 | a DELETE keeps exactly the rows it does not select and reports how many it removed |
| `Database.ClearWithoutFilters` | src/database.py:536-543 | with no filter `clear_conversation_history` empties the table and reports its size |
| `Database.GetProject` | src/database.py:151-159 | the project with that id, or none exactly when no row has it |
| `Database.GuildProjects` | src/database.py:161-176 | exactly the guild's projects, those with the status when one is given |
| `Database.GuildProjectsNewestFirst` | src/database.py:166-173 | projects come out newest first |
| `Database.ApplyFields` | src/database.py:188-192 | an update writes only the updatable columns and keeps id, guild, owners and creation time |
| `Database.UpdateRows` | src/database.py:192 | `UPDATE … WHERE id = ?` rewrites the row with that id and no other |
| `Database.ArchiveEffect` | src/database.py:196-202 | the project reads back archived at `now`, and every other project is unchanged |
| `Database.GetTask` | src/database.py:243-249 | the task with that id, or none exactly when no row has it |
| `Database.ProjectTasks` | src/database.py:232-241 | exactly the project's tasks |
| `Database.ToggleRows` | src/database.py:254-257 | `NOT is_done` on the task with that id only |
| `Database.ToggleEffect` | src/database.py:251-259 | `toggle_task` flips the task it names and no other |
| `Database.ToggleTwice` | src/database.py:251-259 | toggling twice restores the table |
| `Database.DeleteTaskEffect` | src/database.py:261-266 | the deleted task is gone and every other task is as it was |
| `Database.GetIdea` | src/database.py:360-368 | the idea with that id, or none exactly when no row has it |
| `Database.GuildIdeas` | src/database.py:326-341 | exactly the guild's ideas, only the unused ones when asked |
| `Database.MarkUsedRows` | src/database.py:343-351 | `used_project_id` is set on the idea with that id only |
| `Database.MarkUsedHidesIdea` | src/database.py:326-351 | an idea marked used no longer appears among the guild's unused ideas |
| `Database.DeleteIdeaEffect` | src/database.py:353-358 | the deleted idea is gone and every other idea is as it was |
| `Database.Store.constructor` | src/database.py:18-128 | fresh tables are empty and every id counter starts at 1 |
| `Database.Store.SetMemory` | src/database.py:416-430 | a null key or value violates NOT NULL and changes nothing; otherwise the slot is upserted |
| `Database.Store.DeleteMemory` | src/database.py:457-465 | the slot's row is removed and `True` returned |
| `Database.Store.ClearUserMemories` | src/database.py:467-475 | the user's rows in that guild are removed and `True` returned |
| `Database.Store.AddMessage` | src/database.py:479-488 | one row is appended with the next id, which is returned |
| `Database.Store.PruneOldMessages` | src/database.py:504-514 | rows stamped before the cutoff are removed and counted |
| `Database.Store.ClearConversationHistory` | src/database.py:516-543 | the rows matching every given filter (all rows without filters) are removed and counted |
| `Database.Store.CreateProject` | src/database.py:132-149 | a null title violates NOT NULL; otherwise an active project is appended with the next id, which is returned |
| `Database.Store.UpdateProject` | src/database.py:178-194 | no fields returns False and writes nothing; otherwise the fields are written to that project and True returned |
| `Database.Store.ArchiveProject` | src/database.py:196-202 | the project is set archived at `now` |
| `Database.Store.CreateTask` | src/database.py:222-230 | a null label violates NOT NULL; otherwise an open task is appended with the next id |
| `Database.Store.ToggleTask` | src/database.py:251-259 | `is_done` of that task is flipped |
| `Database.Store.DeleteTask` | src/database.py:261-266 | that task is removed |
| `Database.Store.CreateIdea` | src/database.py:311-324 | a null title violates NOT NULL; otherwise an unused idea is appended with the next id |
| `Database.Store.MarkIdeaUsed` | src/database.py:343-351 | that idea records the project |
| `Database.Store.DeleteIdea` | src/database.py:353-358 | that idea is removed |
| `Prompts.MemoryLines` | src/prompts.py:88-96 | one "- key: value" line per memory other than the persona, in order |
| `Prompts.PersonaNeverListed` | src/prompts.py:90-92 | every listed line comes from a memory other than `persona_instructions` |
| `Prompts.MemorySectionShows` | src/prompts.py:86-98 | the memory section is present iff some non-persona memory exists; it starts with the heading naming the user and lists every such memory |
| `Prompts.CustomSection` | src/prompts.py:100-107 | the custom section is present iff instructions are truthy, and then it quotes them under its heading |
| `Prompts.ContextLines` | src/prompts.py:112-119 | one line per user or assistant turn, other roles skipped, in order |
| `Prompts.ContextSectionEmpty` | src/prompts.py:109-125 | the context section is absent iff no user or assistant turn is given |
| `Prompts.ContextLineShown` | src/prompts.py:113-124 | every user or assistant turn has its line in the section |
| `Prompts.ContextSectionShows` | src/prompts.py:109-125 | present iff some turn renders. User turns appear as "{user_name}: content" and assistant turns as "You (BRRR Bot): content". |
| `Prompts.ChatPromptFromShows` | src/prompts.py:127-141 | whatever the fixed texts, the prompt starts with the introduction and contains every section and the "You're chatting with" line |
| `Prompts.ChatSystemPromptShows` | src/prompts.py:66-141 | the chat prompt starts with the introduction. It always contains "You're chatting with {user_name}. Respond to their NEW message below.", and it carries the custom, memory and context sections and the memory instructions. |
| `Prompts.PlanningContextLine` | src/prompts.py:180 | the context line is empty iff the user context is empty, and otherwise quotes it |
| `Prompts.PlanningPromptShows` | src/prompts.py:151-185 | the planning prompt names the project and description first and carries the context line |
| `Prompts.LabelList` | src/prompts.py:223-224 | the comma-separated labels, starting with the first, containing every label; the placeholder for no tasks |
| `Prompts.RetroPromptShows` | src/prompts.py:195-232 | the retro prompt starts with the project heading and carries the "completed/total" count line, the done line and the not-done line |
| `ToolSchemas.Names` | src/tool_schemas.py:283 | each schema's function name, in order |
| `ToolSchemas.Registry` | src/tool_schemas.py:282-285 | the registry's keys are exactly the schema names |
| `ToolSchemas.RegistryMapsEachName` | src/tool_schemas.py:282-285 | with distinct names each name maps to its own schema |
| `ToolSchemas.InsertionOrder` | src/tool_schemas.py:306 | the dict's keys in first-insertion order: distinct, and exactly the inserted names |
| `ToolSchemas.InsertionOrderOfDistinct` | src/tool_schemas.py:306 | distinct names keep their order |
| `ToolSchemas.GetToolSchema` | src/tool_schemas.py:288-297 | a schema exactly for registered names, and it is the schema with that name |
| `ToolSchemas.ToolSchemaNamesDistinct` | src/tool_schemas.py:256-273 | the eleven names are distinct and in the listed order |
| `ToolSchemas.ToolsSchemaShape` | src/tool_schemas.py:256-273 | eleven schemas, each of type "function" with "object" parameters |
| `ToolSchemas.RegistrySize` | src/tool_schemas.py:282-285 | the registry has eleven keys |
| `ToolSchemas.GetToolNamesInSchemaOrder` | src/tool_schemas.py:300-306 | `get_tool_names` lists the names in schema order |
| `ToolSchemas.RequiredAreProperties` | src/tool_schemas.py:28-248 | every required parameter of every tool is one of its properties |
| `Json.Get` | src/tools.py:30 | `dict.get(key, default)`: the value when the key is present, the default otherwise |
| `Sql.Bind` | src/database.py:137-147 | the driver binds every scalar except an integer outside the signed 64-bit range, and refuses lists and dicts; a bound integer keeps its value |
| `Sql.BindAt` | src/database.py:421-428 | binding fails exactly on a list, a dict or an integer outside the signed 64-bit range; a list or dict gives that parameter's "Error binding parameter" error and an integer the "Python int too large to convert to SQLite INTEGER" overflow; otherwise it gives the bound value |
| `Sql.TextValue` | src/database.py:82-84 | a TEXT column stores NULL for NULL and text otherwise |
| `Sql.IntegerKey` | src/database.py:155 | `WHERE id = ?` matches an integer as itself and never matches NULL |
| `Sql.ErrorMessage` | src/tools.py:58-60 | the text of a raised store error is never empty |
| `Text.Strip` | src/cogs/chat.py:121 | `strip()` is the slice between leading and trailing whitespace, and does not start or end with whitespace |
| `Text.StripEmptyIffBlank` | src/cogs/chat.py:71 | `not s.strip()` holds exactly when every character is whitespace |
| `Text.StripIdempotent` | src/cogs/chat.py:218 | stripping twice is stripping once |
| `Text.Lower` | src/cogs/chat.py:83 | `lower()` keeps the length and lowers each ASCII letter |
| `Text.LowerChar` | src/cogs/chat.py:366 | no capital survives lowering, and letters stay letters |
| `Text.RFind` | src/llm.py:271-272 | `rfind` gives the highest occurrence at or after the start, or none exactly when there is none |
| `Text.ChunksSpec` | src/cogs/chat.py:222 | the slices concatenate to the text, each is 1..n long, and there are ceil(len/n) of them |
| `Text.IntToString` | src/tools.py:90 | `str(id)` is never blank |
| `Sql.NatToStringValue` | src/tools.py:90 | the decimal digits `str(n)` writes read back as n |
| `Sql.IntToStringRoundTrip` | src/database.py:155 | an id the tools render with `str()` and the model passes back as text matches the same id under `WHERE id = ?` |

## Left out

- Discord: typing indicators, embeds, `message.reply` and `channel.send` as I/O. The model returns the list of messages to send, each marked as a reply or a channel message.
- The slash commands of the chat cog other than the key normalisation of `/memory add`: `/memory show|forget|clear`, `/chat`, `/persona …`. They are platform glue. `/chat` repeats the turn without tools.
- The HTTP transport, session, headers, timeouts and the global API lock of the model client (`src/llm.py:28-133`). The provider's HTTP exchange is the `api` parameter; the debug log `_api_call` writes about the answer is modelled by `Llm.ApiCall`. The chat model the cog talks to is the `Gateway` parameter.
- `generate_project_plan` and `generate_retro_summary` (`src/llm.py:351-400`) are single provider calls around the prompt builders, which are modelled.
- `json.loads` is a parameter. Its grammar is not modelled.
- The clock: timestamps are the `now` parameter. `prune_old_messages` takes its cutoff ready-made (the `timedelta` arithmetic is left out), and cutoffs compare as text, as SQLite compares the ISO strings.
- Logging calls, except those that can raise: the one at `src/cogs/chat.py:214` and the response log of `_api_call` (`src/llm.py:99-121`).
- Llm.LogFault: the content preview of `src/llm.py:117` raises for a content that is not a string when its `str()` is longer than 500 characters (slicing an `int`, a `dict`, or adding a list to "..."). `str()` of decoded JSON is not modelled, so this case is not detected.
- Llm.ChoicesNormalised: its non-list branch (a dict `choices`) is only reached by a direct call; behind `_api_call` a non-empty dict `choices` already raised in the log.
- Database.AllMemories: `get_all_memories` (`src/database.py:446-448`) has no `ORDER BY`, so SQLite returns the rows in an order it does not promise. The model lists them in table order; that order reaches the prompt through `Prompts.MemoryLines`.
- Database.Store: the connection, commits, the DDL and `guild_config`. Also `project_notes`, `task_notes`, `assign_task`, `unassign_task` and `get_user_tasks`: no modelled caller uses them.
- The `owners` and `tags` JSON columns, `thread_id` and `template`. Owners are a list of ints; tags, thread and template are not kept.
- Sql.IntegerKey: text that is not an optionally signed run of ASCII digits never matches an integer id. SQLite would also convert forms such as " 5", "+5" or "5.0", and those forms are not modelled.
- `str()` of a float argument: decoded JSON numbers are integers only.
- Text.Lower and Chat.NormalizeKey: only ASCII letters are lowered. Python's full Unicode case mapping is not modelled.
- Chat.ChatCog.HandleMention: the `except Exception` around the turn is modelled for:
  - errors the model raises;
  - the memory loop raising.

  Other Python exceptions are not modelled, because the modelled code cannot raise them on well-typed input. Examples: a `TypeError` on a non-string tool name, a `KeyError` in `tool_call["function"]`.
- Chat.ChatCog.Converse: the accumulators `all_tool_calls` and `all_tool_results` (`src/cogs/chat.py:150-151, 182-183`) are never read after the loop, so they are not kept.
- Llm.Respond: `usage` is passed through uninterpreted.

## Findings

| source | as written | input that shows it | evidently intended | confidence | as-written member | corrected member |
|---|---|---|---|---|---|---|
| src/cogs/chat.py:118-120 | each mention form is removed with a single `str.replace` pass, so removing an inner mention can join the surrounding text into a new mention | message text `<@<@42>42>` mentioning user 42 becomes `<@42>`, which is still a mention of user 42 | no `<@id>` or `<@!id>` of a mentioned user is left in the text sent to the model | not executed | `Chat.MessageBodyKeepsMention` (over `Chat.MessageBody`, which the handler uses) | `Chat.MessageBodyIntended` (over `Chat.StripMentions`) |
