/**
 * The model gateway's own logic: the request payload, the client's system
 * prompt, and what `chat` makes of the provider's answer: the first choice,
 * the memory block at the end of the text, the acknowledgement when only
 * memories came back, one retry after a length-truncated empty answer, and
 * the final never-blank fallback.  The JSON parser and the provider's HTTP
 * exchange are parameters: `parse` (None for a `JSONDecodeError`) and `api`
 * (Failure for any raised exception); the debug log `_api_call` writes about
 * each answer is modelled, because it raises on malformed answers.
 */
module Llm {
  import opened Wrappers
  import opened Seqs
  import opened Text
  import opened Json
  import opened Database
  import opened Prompts
  import opened ToolSchemas

  /** The model the length retry always uses. */
  const RetryModel := "openai/gpt-4o-mini"

  /** The tag that opens a memory block. */
  const Fence := "```json"

  const Acknowledgement := "Got it, I'll remember that"

  const Remembered := Acknowledgement + "."

  const NothingUsable :=
    "brrr... " + "I didn't quite get that. " + "Try asking in another way?"

  // ===================== request =====================

  /** The memory instructions of the client's prompt; here the f-string turns the doubled braces into single ones. */
  const ClientMemoryInstructions :=
    "**Memory System:**\n" + "You can remember things " + "about users. When you learn "
    + "something worth remembering " + "about a user (their preferences, " + "skills, current projects, "
    + "interests, timezone, etc.), " + "you should include it in " + "your response using this "
    + "JSON format at the END of " + "your message:\n" + "\n" + "```json\n"
    + "{\"memories\": [{\"key\": \"skill_python\", " + "\"value\": \"advanced\", \"context\": "
    + "\"mentioned they've been " + "coding Python for 5 years\"}]}\n" + "```\n" + "\n"
    + "Memory keys should be descriptive " + "like: current_project, skill_<language>, "
    + "interest_<topic>, timezone, " + "preferred_name, etc.\n" + "Only save memories that "
    + "would be useful for future " + "interactions. Don't save " + "trivial or temporary information."

  /** The closing line as the file spells it: the rocket emoji's UTF-8 bytes read back as Windows-1252 text. */
  const ClientOutro :=
    "Remember: You're here to " + "help make weekly projects " + "go BRRRRR! \U{F0}\U{178}\U{161}\U{20AC}"

  /** The line of the client's prompt that names the user. */
  function ClientChattingWith(userName: string): string {
    "You're chatting with " + userName + "."
  }

  /** `_build_system_prompt`: the same optional memory and custom sections as the chat prompt, no conversation
      section. */
  function ClientSystemPrompt(memories: seq<MemoryEntry>, userName: string, custom: Option<string>): string {
    Concat([ChatIntro, ChatGuide, CustomSection(custom), "\n", ClientMemoryInstructions, "\n", MemorySection(memories, userName),
      "\n\n**Current context:**\n", ClientChattingWith(userName), "\n\n" + ClientOutro])
  }

  /** The client's prompt opens with the introduction, names the user, and carries the optional sections and the
      memory instructions. */
  lemma ClientSystemPromptShows(memories: seq<MemoryEntry>, userName: string, custom: Option<string>)
    ensures StartsWith(ClientSystemPrompt(memories, userName, custom), ChatIntro)
    ensures Contains(ClientSystemPrompt(memories, userName, custom), CustomSection(custom))
    ensures Contains(ClientSystemPrompt(memories, userName, custom), ClientMemoryInstructions)
    ensures Contains(ClientSystemPrompt(memories, userName, custom), MemorySection(memories, userName))
    ensures Contains(ClientSystemPrompt(memories, userName, custom), ClientChattingWith(userName))
  {
    ConcatShowsParts([ChatIntro, ChatGuide, CustomSection(custom), "\n", ClientMemoryInstructions, "\n", MemorySection(memories, userName),
      "\n\n**Current context:**\n", ClientChattingWith(userName), "\n\n" + ClientOutro]);
  }

  /** A chat-completions request body. */
  datatype Payload = Payload(
    model: string, messages: seq<Message>, temperature: real, maxTokens: int,
    tools: Option<seq<ToolSchema>>, toolChoice: Option<string>)

  /** Python truthiness of the optional tool list. */
  predicate ToolsGiven(tools: Option<seq<ToolSchema>>) {
    tools.Some? && tools.value != []
  }

  /** The payload of `chat`: the system prompt before the caller's messages; `tools` and `tool_choice: "auto"` exactly when tools were given. */
  function ChatPayload(model: string, systemPrompt: string, messages: seq<Message>, temperature: real, maxTokens: int,
                       tools: Option<seq<ToolSchema>>): (r: Payload)
    ensures r.model == model && r.temperature == temperature && r.maxTokens == maxTokens
    ensures r.messages == [Message("system", systemPrompt)] + messages
    ensures r.tools.Some? <==> ToolsGiven(tools)
    ensures r.toolChoice.Some? <==> ToolsGiven(tools)
    ensures ToolsGiven(tools) ==> r.tools == tools && r.toolChoice == Some("auto")
  {
    var base := Payload(model, [Message("system", systemPrompt)] + messages, temperature, maxTokens, None, None);
    if ToolsGiven(tools) then base.(tools := tools, toolChoice := Some("auto")) else base
  }

  // ===================== the response log =====================

  /** Python's `TypeError` for a `for` loop over a value that is not iterable. */
  function NotIterable(j: Json): string {
    "'" + TypeName(j) + "' object is not iterable"
  }

  /** A choice the log can describe: `choice.get(...)` needs a dict, and so does its `message` (default `{}`). */
  predicate LogsChoice(choice: Json) {
    choice.JObject? && Get(choice.fields, "message", JObject(map[])).JObject?
  }

  /** The `AttributeError` that logging one choice raises, if any. */
  function ChoiceFault(choice: Json): (r: Option<string>)
    ensures r.None? <==> LogsChoice(choice)
  {
    if !choice.JObject? then Some(NoGetMessage(choice))
    else
      var message := Get(choice.fields, "message", JObject(map[]));
      if !message.JObject? then Some(NoGetMessage(message)) else None
  }

  /** The loop over a list of choices: it stops at the first choice that cannot be logged, with that choice's error. */
  function ChoicesFault(choices: seq<Json>): (r: Option<string>)
    ensures r.None? <==> forall i :: 0 <= i < |choices| ==> LogsChoice(choices[i])
    ensures r.Some? ==>
      exists i :: 0 <= i < |choices| && r == ChoiceFault(choices[i]) && (forall j :: 0 <= j < i ==> LogsChoice(choices[j]))
  {
    if choices == [] then None
    else
      match ChoiceFault(choices[0])
      case Some(e) => Some(e)
      case None =>
        var rest := ChoicesFault(choices[1..]);
        assert forall i :: 0 < i < |choices| ==> choices[i] == choices[1..][i - 1];
        if rest.Some? then
          var i :| 0 <= i < |choices| - 1 && rest == ChoiceFault(choices[1..][i]) &&
            forall j :: 0 <= j < i ==> LogsChoice(choices[1..][j]);
          assert rest == ChoiceFault(choices[i + 1]);
          rest
        else
          rest
  }

  /** An answer the debug log of `_api_call` describes without raising: a dict whose `usage` (default `{}`) is a dict
      and whose `choices` (default `[]`) is a list of loggable choices, or an empty dict or string (nothing to loop over). */
  predicate LogsCleanly(result: Json) {
    && result.JObject?
    && Get(result.fields, "usage", JObject(map[])).JObject?
    && var choices := Get(result.fields, "choices", JList([]));
    && (choices.JList? || choices == JObject(map[]) || choices == JString([]))
    && (choices.JList? ==> forall i :: 0 <= i < |choices.items| ==> LogsChoice(choices.items[i]))
  }

  /** The first exception the response log raises, in the order the log reads the answer, or None. */
  function LogFault(result: Json): (r: Option<string>)
    ensures r.None? <==> LogsCleanly(result)
    ensures !result.JObject? ==> r == Some(NoGetMessage(result))
    ensures result.JObject? && !Get(result.fields, "usage", JObject(map[])).JObject? ==>
      r == Some(NoGetMessage(Get(result.fields, "usage", JObject(map[]))))
  {
    if !result.JObject? then Some(NoGetMessage(result))
    else
      var usage := Get(result.fields, "usage", JObject(map[]));
      if !usage.JObject? then Some(NoGetMessage(usage))
      else
        match Get(result.fields, "choices", JList([]))
        case JList(xs) => ChoicesFault(xs)
        case JObject(m) => if m == map[] then None else Some(NoGetMessage(JString([])))
        case JString(s) => if s == [] then None else Some(NoGetMessage(JString([])))
        case other => Some(NotIterable(other))
  }

  /** `_api_call`: the provider's exchange `api`, then the debug log of the answer, whose f-strings raise on an answer
      that is not shaped as expected. */
  function ApiCall(api: Payload -> Result<Json, string>, payload: Payload): (r: Result<Json, string>)
    ensures api(payload).Failure? ==> r == api(payload)
    ensures r.Success? <==> api(payload).Success? && LogsCleanly(api(payload).value)
    ensures r.Success? ==> r.value == api(payload).value
  {
    match api(payload)
    case Failure(e) => Failure(e)
    case Success(result) =>
      match LogFault(result)
      case Some(e) => Failure(e)
      case None => Success(result)
  }

  /** An answer that got past the log always has a first choice with a dict `message`: after `_api_call`, only the
      content can still make `chat` raise. */
  lemma LoggedAnswerHasMessage(data: Json)
    requires LogsCleanly(data)
    ensures data.JObject? && FirstChoice(data.fields).Success?
    ensures AsDict(Get(FirstChoice(data.fields).value, "message", JObject(map[]))).Success?
  {
    var choices := Get(data.fields, "choices", JNull);
    if "choices" in data.fields && Truthy(choices) {
      assert choices.JList? && LogsChoice(choices.items[0]);
    }
  }

  // ===================== the first choice =====================

  /** `(x or {}).get(...)`: a falsy value acts as an empty dict, any other value that is not a dict has no `get`. */
  function OrEmptyDict(j: Json): (r: Result<map<string, Json>, string>)
    ensures !Truthy(j) ==> r == Success(map[])
    ensures j.JObject? ==> r == Success(j.fields)
    ensures Truthy(j) && !j.JObject? ==> r == Failure(NoGetMessage(j))
  {
    if j.JObject? then Success(j.fields)
    else if !Truthy(j) then Success(map[])
    else Failure(NoGetMessage(j))
  }

  /** `x.get(...)` on a value that must be a dict. */
  function AsDict(j: Json): (r: Result<map<string, Json>, string>)
    ensures r.Success? <==> j.JObject?
    ensures j.JObject? ==> r.value == j.fields
    ensures !j.JObject? ==> r.error == NoGetMessage(j)
  {
    if j.JObject? then Success(j.fields) else Failure(NoGetMessage(j))
  }

  /** `choices = data.get("choices") or [{}]`, a non-list wrapped in a list, then `choices[0] or {}`. */
  function FirstChoice(data: map<string, Json>): (r: Result<map<string, Json>, string>)
  {
    var choices := Get(data, "choices", JNull);
    if !Truthy(choices) then Success(map[])
    else if choices.JList? then OrEmptyDict(choices.items[0])
    else OrEmptyDict(choices)
  }

  /** Missing or empty `choices` count as one empty choice; a single choice that is not in a list is used as it is. */
  lemma ChoicesNormalised(data: map<string, Json>)
    ensures !Truthy(Get(data, "choices", JNull)) ==> FirstChoice(data) == Success(map[])
    ensures Get(data, "choices", JNull).JObject? ==> FirstChoice(data) == Success(Get(data, "choices", JNull).fields)
    ensures (Get(data, "choices", JNull).JList? && Truthy(Get(data, "choices", JNull))) ==>
      FirstChoice(data) == OrEmptyDict(Get(data, "choices", JNull).items[0])
  {
  }

  /** `content or ""` used as text: falsy content (including `None`) is "", a string is itself; any other value makes the
      `in` test (an `int` or `bool`) or the later `strip`/`rfind` (a list or dict) raise. */
  function ContentText(content: Json): (r: Result<string, string>)
    ensures !Truthy(content) ==> r == Success([])
    ensures content.JString? ==> r == Success(content.s)
    ensures Truthy(content) && !content.JString? ==> r.Failure?
  {
    match content
    case JString(s) => Success(s)
    case JNull => Success([])
    case JBool(b) => if b then Failure("argument of type 'bool' is not iterable") else Success([])
    case JInt(i) => if i != 0 then Failure("argument of type 'int' is not iterable") else Success([])
    case JList(xs) =>
      if xs == [] then Success([])
      else if JString(Fence) in xs && JString("\"memories\"") in xs then Failure("'list' object has no attribute 'rfind'")
      else Failure("'list' object has no attribute 'strip'")
    case JObject(m) =>
      if m == map[] then Success([])
      else if Fence in m && "\"memories\"" in m then Failure("'dict' object has no attribute 'rfind'")
      else Failure("'dict' object has no attribute 'strip'")
  }

  // ===================== the memory block =====================

  /** The last memory block: the last opening fence and the last closing "```" at least seven characters after it. */
  datatype Block = Block(start: nat, end: nat)

  function FindBlock(text: string): (r: Option<Block>)
    ensures r.Some? ==> r.value.start + |Fence| <= r.value.end <= |text|
    ensures r.Some? ==> OccursAt(text, Fence, r.value.start) && (forall j :: r.value.start < j ==> !OccursAt(text, Fence, j))
    ensures r.Some? ==> OccursAt(text, "```", r.value.end) && (forall j :: r.value.end < j ==> !OccursAt(text, "```", j))
    ensures r.None? && Contains(text, Fence) ==>
      exists s :: OccursAt(text, Fence, s) && forall j :: s + |Fence| <= j ==> !OccursAt(text, "```", j)
  {
    match RFind(text, Fence, 0)
    case None => None
    case Some(s) =>
      match RFind(text, "```", s + |Fence|)
      case None => None
      case Some(e) => Some(Block(s, e))
  }

  /** The text between the fences, stripped: what is handed to the JSON parser. */
  function BlockBody(text: string, b: Block): string
    requires b.start + |Fence| <= b.end <= |text|
  {
    Strip(text[b.start + |Fence|..b.end])
  }

  /** The outcome of `if "memories" in data: memories = data["memories"]`. */
  datatype MemoriesProbe = NoKey | Found(value: Json) | Raised

  /** For a dict a key test; for a list an element test and then a `TypeError` on the string index; for a string a
      substring test and then a `TypeError`; for a number, a boolean or `None` a `TypeError`. */
  function ProbeMemories(data: Json): (r: MemoriesProbe)
    ensures r.Found? <==> (data.JObject? && "memories" in data.fields)
    ensures r.Found? ==> r.value == data.fields["memories"]
  {
    match data
    case JObject(m) => if "memories" in m then Found(m["memories"]) else NoKey
    case JList(xs) => if JString("memories") in xs then Raised else NoKey
    case JString(s) => if Contains(s, "memories") then Raised else NoKey
    case _ => Raised
  }

  /** The displayed text and the memories to save. */
  datatype Extraction = Extraction(content: string, memories: Json)

  /** A memory block applies when the text has an opening fence and the quoted word "memories", the last opening fence
      has a closing fence after it, and what lies between parses. */
  predicate BlockApplies(text: string, parse: string -> Option<Json>) {
    && Contains(text, Fence) && Contains(text, "\"memories\"")
    && FindBlock(text).Some?
    && parse(BlockBody(text, FindBlock(text).value)).Some?
  }

  /** Lines 264-281 of `chat`. */
  function ExtractMemories(text: string, parse: string -> Option<Json>): (r: Extraction)
    ensures !BlockApplies(text, parse) ==> r == Extraction(text, JList([]))
    ensures BlockApplies(text, parse) ==>
      var data := parse(BlockBody(text, FindBlock(text).value)).value;
      && (ProbeMemories(data).Raised? ==> r == Extraction(text, JList([])))
      && (ProbeMemories(data).NoKey? ==> r == Extraction(Strip(text[..FindBlock(text).value.start]), JList([])))
      && (ProbeMemories(data).Found? ==> r == Extraction(Strip(text[..FindBlock(text).value.start]), ProbeMemories(data).value))
  {
    if !(Contains(text, Fence) && Contains(text, "\"memories\"")) then Extraction(text, JList([]))
    else
      match FindBlock(text)
      case None => Extraction(text, JList([]))
      case Some(b) =>
        match parse(BlockBody(text, b))
        case None => Extraction(text, JList([]))
        case Some(data) =>
          match ProbeMemories(data)
          case Raised => Extraction(text, JList([]))
          case NoKey => Extraction(Strip(text[..b.start]), JList([]))
          case Found(m) => Extraction(Strip(text[..b.start]), m)
  }

  /** Whenever the text changes, it becomes the stripped text before the last opening fence, so memories are
      never returned together with the block text they came from unless nothing was stripped. */
  lemma ExtractionStripsBlock(text: string, parse: string -> Option<Json>)
    ensures var r := ExtractMemories(text, parse);
      r.content != text ==>
        exists s :: 0 <= s <= |text| && OccursAt(text, Fence, s) && (forall j :: s < j ==> !OccursAt(text, Fence, j))
          && r.content == Strip(text[..s])
    ensures ExtractMemories(text, parse).memories != JList([]) ==> BlockApplies(text, parse)
  {
    var r := ExtractMemories(text, parse);
    if r.content != text {
      var s := FindBlock(text).value.start;
      assert OccursAt(text, Fence, s);
    }
  }

  /** A failed parse changes nothing and yields no memories. */
  lemma ParseFailureIgnored(text: string, parse: string -> Option<Json>)
    requires FindBlock(text).Some? && parse(BlockBody(text, FindBlock(text).value)).None?
    ensures ExtractMemories(text, parse) == Extraction(text, JList([]))
  {
  }

  // ===================== acknowledgement =====================

  /** `[m.get("key") for m in memories if isinstance(m, dict) and m.get("key")]`. */
  function KeysOf(items: seq<Json>): (r: seq<Json>)
    ensures |r| <= |items|
    ensures forall k :: k in r ==> Truthy(k)
    decreases |items|
  {
    if items == [] then []
    else
      var m := items[0];
      if m.JObject? && Truthy(Get(m.fields, "key", JNull)) then [Get(m.fields, "key", JNull)] + KeysOf(items[1..])
      else KeysOf(items[1..])
  }

  predicate AllText(ks: seq<Json>) {
    forall i :: 0 <= i < |ks| ==> ks[i].JString?
  }

  function Texts(ks: seq<Json>): (r: seq<string>)
    requires AllText(ks)
    ensures |r| == |ks|
    ensures forall i :: 0 <= i < |ks| ==> r[i] == ks[i].s
  {
    seq(|ks|, i requires 0 <= i < |ks| => ks[i].s)
  }

  /** The keys the acknowledgement names: the first five truthy keys of the dict memories, when they are all strings
      (otherwise `join` raises and the generic sentence is used).  Iterating anything but a list yields no dicts, or raises. */
  function ShownKeys(memories: Json): (r: Option<seq<string>>)
    ensures r.Some? ==> memories.JList? && 0 < |r.value| <= 5
    ensures r.Some? ==> AllText(Take(KeysOf(memories.items), 5)) && r.value == Texts(Take(KeysOf(memories.items), 5))
  {
    if !memories.JList? then None
    else
      var shown := Take(KeysOf(memories.items), 5);
      if shown != [] && AllText(shown) then Some(Texts(shown)) else None
  }

  /** Lines 283-294 of `chat`: visible text is kept; blank text with memories becomes an acknowledgement. */
  function Acknowledge(content: string, memories: Json): (r: string)
    ensures !IsBlank(content) || !Truthy(memories) ==> r == content
    ensures IsBlank(content) && Truthy(memories) ==> !IsBlank(r) && StartsWith(r, Acknowledgement)
    ensures IsBlank(content) && Truthy(memories) && ShownKeys(memories).Some? ==>
      forall k :: k in ShownKeys(memories).value ==> Contains(r, k)
    ensures IsBlank(content) && Truthy(memories) && ShownKeys(memories).None? ==> r == Remembered
  {
    if !IsBlank(content) || !Truthy(memories) then content
    else
      match ShownKeys(memories)
      case None =>
        assert Remembered[0] == 'G';
        assert Remembered[..|Acknowledgement|] == Acknowledgement;
        Remembered
      case Some(keys) =>
        var head := Acknowledgement + " (";
        var list := Join(keys, ", ");
        var r := head + list + ").";
        assert r[..|head|] == head;
        assert r[0] == 'G';
        forall k | k in keys ensures Contains(r, k) {
          var i :| 0 <= i < |keys| && keys[i] == k;
          JoinContainsPart(keys, ", ", i);
          ContainsExtended(head, list, ").", k);
        }
        r
  }

  // ===================== the length retry =====================

  /** The last message with role "user", if any. */
  function LastUserMessage(messages: seq<Message>): (r: Option<Message>)
    ensures r.None? <==> forall i :: 0 <= i < |messages| ==> messages[i].role != "user"
    ensures r.Some? ==> r.value.role == "user"
    ensures r.Some? ==> exists i :: (0 <= i < |messages| && messages[i] == r.value
      && forall j :: i < j < |messages| ==> messages[j].role != "user")
    decreases |messages|
  {
    if messages == [] then None
    else
      var last := messages[|messages| - 1];
      if last.role == "user" then Some(last)
      else
        var r := LastUserMessage(messages[..|messages| - 1]);
        assert forall i :: 0 <= i < |messages| - 1 ==> messages[..|messages| - 1][i] == messages[i];
        r
  }

  /** The retry request: a fixed model, the system prompt and the last user message only, at most 256 tokens, no tools. */
  function RetryRequest(systemPrompt: string, last: Message, temperature: real, maxTokens: int): (r: Payload)
    ensures r.maxTokens <= 256 && r.maxTokens <= maxTokens
    ensures r.messages == [Message("system", systemPrompt), last]
    ensures r.tools.None? && r.toolChoice.None? && r.model == RetryModel
  {
    Payload(RetryModel, [Message("system", systemPrompt), last], temperature, Min(maxTokens, 256), None, None)
  }

  datatype Retried = Retried(content: string, usage: Json)

  /** What the retry's answer contributes: its stripped content and its usage (the old usage when it has none), or nothing
      when the call failed, the answer was malformed or its content was blank. */
  function RetryOutcome(answer: Result<Json, string>, usage: Json): (r: Option<Retried>)
    ensures r.Some? ==> !IsBlank(r.value.content) && Strip(r.value.content) == r.value.content
    ensures answer.Failure? ==> r.None?
  {
    if answer.Failure? || !answer.value.JObject? then None
    else
      var data := answer.value.fields;
      match FirstChoice(data)
      case Failure(_) => None
      case Success(first) =>
        match AsDict(Get(first, "message", JObject(map[])))
        case Failure(_) => None
        case Success(message) =>
          var content := Get(message, "content", JString([]));
          if content.JString? && !IsBlank(content.s) then
            StripEmptyIffBlank(content.s);
            StripIdempotent(content.s);
            StripKeepsContent(content.s);
            Some(Retried(Strip(content.s), Get(data, "usage", usage)))
          else None
  }

  /** A string with non-space content stays non-blank when stripped. */
  lemma StripKeepsContent(s: string)
    requires !IsBlank(s)
    ensures !IsBlank(Strip(s))
  {
    StripEmptyIffBlank(s);
    var r := Strip(s);
    assert !IsSpace(r[0]);
  }

  /** The text, usage and retry request after the retry step. */
  datatype AfterRetry = AfterRetry(content: string, usage: Json, request: Option<Payload>)

  /** Lines 296-338 of `chat`: only blank text with finish reason "length" and some user message triggers the one retry,
      whose non-blank answer replaces the text. */
  function RetryStep(content: string, usage: Json, finishReason: Json, messages: seq<Message>, systemPrompt: string,
                     temperature: real, maxTokens: int, api: Payload -> Result<Json, string>): (r: AfterRetry)
    ensures r.request.Some? <==>
      IsBlank(content) && finishReason == JString("length") && exists i :: 0 <= i < |messages| && messages[i].role == "user"
    ensures r.request.Some? ==> r.request.value == RetryRequest(systemPrompt, LastUserMessage(messages).value, temperature, maxTokens)
    ensures r.request.None? ==> r == AfterRetry(content, usage, None)
    ensures r.content != content ==> r.request.Some? && !IsBlank(r.content) && Strip(r.content) == r.content
  {
    if !IsBlank(content) || finishReason != JString("length") then AfterRetry(content, usage, None)
    else
      match LastUserMessage(messages)
      case None => AfterRetry(content, usage, None)
      case Some(last) =>
        var request := RetryRequest(systemPrompt, last, temperature, maxTokens);
        match RetryOutcome(ApiCall(api, request), usage)
        case None => AfterRetry(content, usage, Some(request))
        case Some(t) => AfterRetry(t.content, t.usage, Some(request))
  }

  // ===================== the response =====================

  /** Lines 340-342 of `chat`: a blank text is replaced by the fixed apology. */
  function NeverBlank(content: string): (r: string)
    ensures !IsBlank(r)
    ensures !IsBlank(content) ==> r == content
    ensures IsBlank(content) ==> r == NothingUsable
  {
    if IsBlank(content) then
      assert NothingUsable[0] == 'b';
      NothingUsable
    else content
  }

  /** `LLMResponse`. */
  datatype LlmResponse = LlmResponse(content: string, memories: Json, usage: Json, toolCalls: Json)

  /** The response and the retry request sent, if one was. */
  datatype Answer = Answer(response: LlmResponse, retry: Option<Payload>)

  /** Lines 250-349 of `chat`: the provider's answer `data` turned into the response; malformed answers raise (Failure). */
  function Respond(data: Json, messages: seq<Message>, systemPrompt: string, temperature: real, maxTokens: int,
                   parse: string -> Option<Json>, api: Payload -> Result<Json, string>): (r: Result<Answer, string>)
    ensures !data.JObject? ==> r == Failure(NoGetMessage(data))
    ensures r.Success? ==> !IsBlank(r.value.response.content)
    ensures r.Success? ==>
      && data.JObject? && FirstChoice(data.fields).Success?
      && AsDict(Get(FirstChoice(data.fields).value, "message", JObject(map[]))).Success?
      && var message := AsDict(Get(FirstChoice(data.fields).value, "message", JObject(map[]))).value;
      && r.value.response.toolCalls == Get(message, "tool_calls", JNull)
      && ContentText(Get(message, "content", JString([]))).Success?
      && r.value.response.memories == ExtractMemories(ContentText(Get(message, "content", JString([]))).value, parse).memories
    ensures r.Success? && r.value.retry.Some? ==>
      r.value.retry.value.maxTokens <= 256 && |r.value.retry.value.messages| == 2
  {
    if !data.JObject? then Failure(NoGetMessage(data))
    else
      match FirstChoice(data.fields)
      case Failure(e) => Failure(e)
      case Success(first) =>
        match AsDict(Get(first, "message", JObject(map[])))
        case Failure(e) => Failure(e)
        case Success(message) =>
          match ContentText(Get(message, "content", JString([])))
          case Failure(e) => Failure(e)
          case Success(text) =>
            var extracted := ExtractMemories(text, parse);
            var acknowledged := Acknowledge(extracted.content, extracted.memories);
            var retried := RetryStep(acknowledged, Get(data.fields, "usage", JObject(map[])), Get(first, "finish_reason", JNull),
              messages, systemPrompt, temperature, maxTokens, api);
            Success(Answer(
              LlmResponse(NeverBlank(retried.content), extracted.memories, retried.usage, Get(message, "tool_calls", JNull)),
              retried.request))
  }

  /** `LLMClient.chat`: builds the prompt and payload, calls the provider once (plus at most the one retry), and
      post-processes the answer; a failed call raises. */
  function Chat(model: string, messages: seq<Message>, memories: seq<MemoryEntry>, userName: string, custom: Option<string>,
                temperature: real, maxTokens: int, tools: Option<seq<ToolSchema>>,
                parse: string -> Option<Json>, api: Payload -> Result<Json, string>): (r: Result<Answer, string>)
    ensures ApiCall(api, ChatPayload(model, ClientSystemPrompt(memories, userName, custom), messages, temperature, maxTokens, tools)).Failure? ==>
      r.Failure?
    ensures r.Success? ==>
      var payload := ChatPayload(model, ClientSystemPrompt(memories, userName, custom), messages, temperature, maxTokens, tools);
      api(payload).Success? && LogsCleanly(api(payload).value)
    ensures r.Success? ==> !IsBlank(r.value.response.content)
  {
    var systemPrompt := ClientSystemPrompt(memories, userName, custom);
    match ApiCall(api, ChatPayload(model, systemPrompt, messages, temperature, maxTokens, tools))
    case Failure(e) => Failure(e)
    case Success(data) => Respond(data, messages, systemPrompt, temperature, maxTokens, parse, api)
  }
}
