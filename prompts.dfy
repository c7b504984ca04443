/**
 * The system prompts sent to the model: the chat prompt with its optional
 * memory, custom-instruction and recent-conversation sections, and the user
 * prompts for project planning and weekly retrospectives.
 */
module Prompts {
  import opened Wrappers
  import opened Seqs
  import opened Text
  import opened Database

  /** The memory key under which a user's persona instructions are stored; it is never listed as a memory. */
  const PersonaKey := "persona_instructions"

  const ChatIntro :=
    "You are BRRR Bot, an energetic " + "and helpful assistant for " + "the BRRR Discord server "
    + "focused on weekly coding " + "projects."

  const ChatPersonality :=
    "**Your personality:**\n" + "- You go brrrrrrrrr (fast, " + "efficient, high-energy)\n"
    + "- You're enthusiastic about " + "coding projects and helping " + "people build cool stuff\n"
    + "- You keep responses concise " + "but helpful\n" + "- You use occasional \"brrr\" "
    + "sounds when excited\n" + "- You're supportive and " + "encourage people to ship " + "their projects"

  const ChatCapabilities :=
    "**Your capabilities:**\n" + "- Help plan and manage weekly " + "coding projects\n"
    + "- Answer coding questions\n" + "- Remember things about " + "users to personalize interactions\n"
    + "- Provide encouragement " + "and motivation"

  const ChatCommands :=
    "**Discord commands & features " + "(very important):**\n" + "- You are a Discord bot "
    + "with many slash commands. " + "When users ask what you " + "can do, how you help, or "
    + "whether you have commands, " + "you MUST mention these explicitly " + "and suggest using `/help` "
    + "for details.\n" + "- Global utility commands:\n" + "  - `/ping`  latency check.\n"
    + "  - `/brrr`  bot status " + "(LLM, guilds, active projects).\n" + "  - `/help`  overview of "
    + "all commands.\n" + "- Project workflow (`/project` " + "group):\n" + "  - `/project start`  start "
    + "a new project (modal).\n" + "  - `/project status` / " + "`/project info` / `/project " + "archive`.\n"
    + "  - `/project checklist " + "add|list|toggle|remove` " + " manage project tasks.\n"
    + "- Weekly workflow (`/week` " + "group):\n" + "  - `/week start`  weekly " + "overview.\n"
    + "  - `/week retro`  run retrospectives " + "(uses the LLM when available).\n" + "  - `/week summary`  quick "
    + "project stats.\n" + "- Idea workflow (`/idea` " + "group):\n" + "  - `/idea add`, `/idea "
    + "quick`, `/idea list`, `/idea " + "pick`, `/idea random`, `/idea " + "delete`.\n"
    + "- Memory & persona (`/memory` " + "and `/persona` groups):\n" + "  - `/memory show|add|forget|clear` "
    + "to inspect and adjust what " + "you remember.\n" + "  - `/persona set|preset|show|clear` "
    + "to customize how you respond " + "to each user.\n" + "- Direct chat:\n" + "  - Users can @mention you "
    + "in a channel, reply to your " + "messages, or use `/chat` " + "for a direct LLM response.\n" + "\n"
    + "When a user seems to need " + "structured help (projects, " + "weeks, ideas, memories, "
    + "persona), gently point them " + "to the relevant slash commands " + "as well as answering conversationally."

  /** The memory instructions; the constant is a plain string, so its doubled braces reach the model as written. */
  const ChatMemoryInstructions :=
    "**Memory System:**\n" + "You can remember things " + "about users. When you learn "
    + "something worth remembering " + "about a user (their preferences, " + "skills, current projects, "
    + "interests, timezone, etc.), " + "you should include it in " + "your response using this "
    + "JSON format at the END of " + "your message:\n" + "\n" + "```json\n" + "{{\"memories\": [{{\"key\": "
    + "\"skill_python\", \"value\": " + "\"advanced\", \"context\": \"mentioned " + "they've been coding Python "
    + "for 5 years\"}}]}}\n" + "```\n" + "\n" + "Memory keys should be descriptive "
    + "like: current_project, skill_<language>, " + "interest_<topic>, timezone, " + "preferred_name, etc.\n"
    + "Only save memories that " + "would be useful for future " + "interactions. Don't save "
    + "trivial or temporary information."

  const ChatOutro :=
    "Remember: You're here to " + "help make weekly projects " + "go BRRRRR! \U{1F680}"

  // ===================== memory section =====================

  function NotPersona(): MemoryEntry -> bool {
    (e: MemoryEntry) => e.key != PersonaKey
  }

  /** How one remembered fact is listed: the key and the stored value. */
  function MemoryLine(e: MemoryEntry): string {
    "- " + e.key + ": " + e.value
  }

  /** The loop over the memories: one line per memory, the persona entry skipped, in order. */
  function MemoryLines(ms: seq<MemoryEntry>): (r: seq<string>)
    ensures |r| == |Filter(ms, NotPersona())|
    ensures forall i :: 0 <= i < |r| ==> r[i] == MemoryLine(Filter(ms, NotPersona())[i])
    decreases |ms|
  {
    if ms == [] then []
    else if ms[0].key == PersonaKey then MemoryLines(ms[1..])
    else [MemoryLine(ms[0])] + MemoryLines(ms[1..])
  }

  /** Every listed line comes from a memory other than the persona instructions. */
  lemma PersonaNeverListed(ms: seq<MemoryEntry>, i: nat)
    requires i < |MemoryLines(ms)|
    ensures exists e :: e in ms && e.key != PersonaKey && MemoryLines(ms)[i] == MemoryLine(e)
  {
    var f := Filter(ms, NotPersona());
    FilterMembers(ms, NotPersona());
    assert f[i] in ms && NotPersona()(f[i]);
  }

  /** The "What I remember" section: a heading naming the user, then one line per listed memory. */
  function MemorySection(ms: seq<MemoryEntry>, userName: string): string {
    var lines := MemoryLines(ms);
    if lines == [] then [] else "\n\n**What I remember about " + userName + ":**\n" + Join(lines, "\n")
  }

  /** The section is present exactly when some memory other than the persona exists, and it lists each of them. */
  lemma MemorySectionShows(ms: seq<MemoryEntry>, userName: string)
    ensures MemorySection(ms, userName) == [] <==> (forall e :: e in ms ==> e.key == PersonaKey)
    ensures MemorySection(ms, userName) != [] ==> StartsWith(MemorySection(ms, userName), "\n\n**What I remember about " + userName + ":**\n")
    ensures forall e :: e in ms && e.key != PersonaKey ==> Contains(MemorySection(ms, userName), MemoryLine(e))
  {
    var lines := MemoryLines(ms);
    var f := Filter(ms, NotPersona());
    FilterMembers(ms, NotPersona());
    if lines == [] {
      forall e | e in ms ensures e.key == PersonaKey {
        var k :| 0 <= k < |ms| && ms[k] == e;
        assert !NotPersona()(ms[k]);
      }
    } else {
      var head := "\n\n**What I remember about " + userName + ":**\n";
      var r := head + Join(lines, "\n");
      assert r == MemorySection(ms, userName);
      assert r[..|head|] == head;
      assert f[0] in ms && f[0].key != PersonaKey;
      forall e | e in ms && e.key != PersonaKey ensures Contains(r, MemoryLine(e)) {
        var k :| 0 <= k < |ms| && ms[k] == e;
        assert NotPersona()(ms[k]);
        assert e in f;
        var i :| 0 <= i < |f| && f[i] == e;
        JoinContainsPart(lines, "\n", i);
        ContainsExtended(head, Join(lines, "\n"), [], MemoryLine(e));
        assert head + Join(lines, "\n") + [] == r;
      }
    }
  }

  // ===================== custom instructions =====================

  /** Python truthiness of an optional string. */
  predicate Given(s: Option<string>) {
    s.Some? && s.value != []
  }

  /** The custom-instructions section: present exactly when instructions were given, and it quotes them. */
  function CustomSection(instructions: Option<string>): (r: string)
    ensures r == [] <==> !Given(instructions)
    ensures Given(instructions) ==>
      StartsWith(r, "\n\n**User's Custom Instructions (IMPORTANT - follow these closely):**\n")
      && Contains(r, instructions.value)
  {
    if Given(instructions) then
      var head := "\n\n**User's Custom Instructions (IMPORTANT - follow these closely):**\n";
      ContainsMiddle(head, instructions.value, "\n");
      head + instructions.value + "\n"
    else []
  }

  // ===================== recent conversation =====================

  /** Only user and assistant turns are shown as context. */
  function Shown(): Message -> bool {
    (m: Message) => m.role == "user" || m.role == "assistant"
  }

  function ContextLine(m: Message, userName: string): string {
    if m.role == "user" then userName + ": " + m.content else "You (BRRR Bot): " + m.content
  }

  /** The loop over the recent turns: one line per user or assistant turn, other roles skipped, in order. */
  function ContextLines(msgs: seq<Message>, userName: string): (r: seq<string>)
    ensures |r| == |Filter(msgs, Shown())|
    ensures forall i :: 0 <= i < |r| ==> r[i] == ContextLine(Filter(msgs, Shown())[i], userName)
    decreases |msgs|
  {
    if msgs == [] then []
    else if Shown()(msgs[0]) then [ContextLine(msgs[0], userName)] + ContextLines(msgs[1..], userName)
    else ContextLines(msgs[1..], userName)
  }

  /** The heading of the recent-conversation section. */
  const ContextHeading :=
    "\n\n**Recent conversation context " + "(for reference only - respond " + "to the NEW message below, "
    + "not these):**\n"

  /** The recent-conversation section: a heading, then one line per user or assistant turn. */
  function ContextSection(msgs: seq<Message>, userName: string): string {
    var lines := ContextLines(msgs, userName);
    if lines == [] then [] else ContextHeading + Join(lines, "\n") + "\n"
  }

  /** The section is absent exactly when no user or assistant turn is given. */
  lemma ContextSectionEmpty(msgs: seq<Message>, userName: string)
    ensures ContextSection(msgs, userName) == [] <==> (forall m :: m in msgs ==> m.role != "user" && m.role != "assistant")
  {
    var f := Filter(msgs, Shown());
    FilterMembers(msgs, Shown());
    if ContextLines(msgs, userName) == [] {
      forall m | m in msgs ensures m.role != "user" && m.role != "assistant" {
        var k :| 0 <= k < |msgs| && msgs[k] == m;
        assert !Shown()(msgs[k]);
      }
    } else {
      assert f[0] in msgs && Shown()(f[0]);
    }
  }

  /** A user or assistant turn has its line in the section. */
  lemma ContextLineShown(msgs: seq<Message>, userName: string, m: Message)
    requires m in msgs && Shown()(m)
    ensures Contains(ContextSection(msgs, userName), ContextLine(m, userName))
  {
    var lines := ContextLines(msgs, userName);
    var f := Filter(msgs, Shown());
    FilterMembers(msgs, Shown());
    var k :| 0 <= k < |msgs| && msgs[k] == m;
    assert m in f;
    var i :| 0 <= i < |f| && f[i] == m;
    JoinContainsPart(lines, "\n", i);
    ContainsExtended(ContextHeading, Join(lines, "\n"), "\n", ContextLine(m, userName));
  }

  /** The section is present exactly when some user or assistant turn is given; a user turn is attributed to the
      user's name, an assistant turn to the bot. */
  lemma ContextSectionShows(msgs: seq<Message>, userName: string)
    ensures ContextSection(msgs, userName) == [] <==> (forall m :: m in msgs ==> m.role != "user" && m.role != "assistant")
    ensures forall m :: m in msgs && m.role == "user" ==> Contains(ContextSection(msgs, userName), userName + ": " + m.content)
    ensures forall m :: m in msgs && m.role == "assistant" ==> Contains(ContextSection(msgs, userName), "You (BRRR Bot): " + m.content)
  {
    ContextSectionEmpty(msgs, userName);
    forall m | m in msgs && Shown()(m) ensures Contains(ContextSection(msgs, userName), ContextLine(m, userName)) {
      ContextLineShown(msgs, userName, m);
    }
  }

  // ===================== the chat prompt =====================

  /** The line of the chat prompt that names the user. */
  function ChattingWith(userName: string): string {
    "You're chatting with " + userName + ". Respond to their NEW message below."
  }

  /** The fixed guidance between the introduction and the optional sections. */
  const ChatGuide := "\n\n" + ChatPersonality + "\n\n" + ChatCapabilities + "\n\n" + ChatCommands + "\n"

  /** `build_chat_system_prompt` around given fixed texts: the introduction, the guidance, the memory instructions
      and the closing line, with the optional sections between them. */
  function ChatPromptFrom(intro: string, guide: string, instructions: string, outro: string,
                          memories: seq<MemoryEntry>, userName: string, custom: Option<string>, context: seq<Message>): string {
    Concat([intro, guide, CustomSection(custom), "\n", instructions, "\n", MemorySection(memories, userName), "\n",
      ContextSection(context, userName), "\n**Current context:**\n",
      ChattingWith(userName), "\n\n" + outro])
  }

  /** Whatever the fixed texts, the prompt opens with the introduction, names the user and carries every section. */
  lemma ChatPromptFromShows(intro: string, guide: string, instructions: string, outro: string,
                            memories: seq<MemoryEntry>, userName: string, custom: Option<string>, context: seq<Message>)
    ensures var r := ChatPromptFrom(intro, guide, instructions, outro, memories, userName, custom, context);
      && StartsWith(r, intro)
      && Contains(r, ChattingWith(userName))
      && Contains(r, CustomSection(custom))
      && Contains(r, MemorySection(memories, userName))
      && Contains(r, ContextSection(context, userName))
      && Contains(r, instructions)
  {
    var parts := [intro, guide, CustomSection(custom), "\n", instructions, "\n", MemorySection(memories, userName), "\n",
      ContextSection(context, userName), "\n**Current context:**\n",
      ChattingWith(userName), "\n\n" + outro];
    ConcatShowsParts(parts);
  }

  /** `build_chat_system_prompt`. */
  function ChatSystemPrompt(memories: seq<MemoryEntry>, userName: string, custom: Option<string>, context: seq<Message>): string {
    ChatPromptFrom(ChatIntro, ChatGuide, ChatMemoryInstructions, ChatOutro, memories, userName, custom, context)
  }

  /** The chat prompt opens with the introduction, always names the user, and carries every optional section. */
  lemma ChatSystemPromptShows(memories: seq<MemoryEntry>, userName: string, custom: Option<string>, context: seq<Message>)
    ensures StartsWith(ChatSystemPrompt(memories, userName, custom, context), ChatIntro)
    ensures Contains(ChatSystemPrompt(memories, userName, custom, context), ChattingWith(userName))
    ensures Contains(ChatSystemPrompt(memories, userName, custom, context), CustomSection(custom))
    ensures Contains(ChatSystemPrompt(memories, userName, custom, context), MemorySection(memories, userName))
    ensures Contains(ChatSystemPrompt(memories, userName, custom, context), ContextSection(context, userName))
    ensures Contains(ChatSystemPrompt(memories, userName, custom, context), ChatMemoryInstructions)
  {
    ChatPromptFromShows(ChatIntro, ChatGuide, ChatMemoryInstructions, ChatOutro, memories, userName, custom, context);
  }

  // ===================== project planning =====================

  const PlanningSystemPrompt :=
    "You are a project planning " + "assistant. Be concise and " + "practical."

  /** What the planning prompt asks for, after the project and its context. */
  const PlanningAsk :=
    "\n\nCreate 5-10 actionable " + "tasks that break down this " + "project into manageable " + "steps.\n"
    + "Format each task as a simple " + "one-line item.\n" + "Focus on the most important "
    + "tasks to ship an MVP.\n\n" + "Respond with ONLY the task " + "list, one task per line, "
    + "no numbering or bullets."

  /** The planning prompt's context line: empty exactly when no context was given. */
  function PlanningContextLine(userContext: string): (r: string)
    ensures r == [] <==> userContext == []
    ensures userContext != [] ==> Contains(r, userContext)
  {
    if userContext != [] then
      ContainsMiddle("**Context:** ", userContext, []);
      assert "**Context:** " + userContext + [] == "**Context:** " + userContext;
      "**Context:** " + userContext
    else []
  }

  /** The planning prompt's opening, naming the project and its description. */
  function PlanningHeading(title: string, description: string): string {
    "Generate a concise project checklist for:\n\n**Project:** " + title + "\n**Description:** " + description + "\n"
  }

  /** `build_project_planning_prompt`: the heading, the optional context line, then the request. */
  function PlanningPrompt(title: string, description: string, userContext: string): string {
    Concat([PlanningHeading(title, description), PlanningContextLine(userContext), PlanningAsk])
  }

  /** The planning prompt names the project and its description first and carries the context line. */
  lemma PlanningPromptShows(title: string, description: string, userContext: string)
    ensures StartsWith(PlanningPrompt(title, description, userContext), PlanningHeading(title, description))
    ensures Contains(PlanningPrompt(title, description, userContext), PlanningContextLine(userContext))
  {
    ConcatShowsParts([PlanningHeading(title, description), PlanningContextLine(userContext), PlanningAsk]);
  }

  // ===================== retrospective =====================

  const RetroSystemPrompt :=
    "You are BRRR Bot, celebrating " + "weekly project progress. " + "Be enthusiastic!"

  function Label(): TaskRow -> string {
    (t: TaskRow) => t.text
  }

  /** A comma-separated list of the tasks' labels, or `none` for no tasks. */
  function LabelList(ts: seq<TaskRow>, none: string): (r: string)
    ensures ts == [] ==> r == none
    ensures ts != [] ==> StartsWith(r, ts[0].text)
    ensures forall t :: t in ts ==> Contains(r, t.text)
  {
    if ts == [] then none
    else
      var r := Join(Map(ts, Label()), ", ");
      JoinStartsWithFirst(Map(ts, Label()), ", ");
      forall t | t in ts ensures Contains(r, t.text) {
        var k :| 0 <= k < |ts| && ts[k] == t;
        JoinContainsPart(Map(ts, Label()), ", ", k);
      }
      r
  }

  /** What the retrospective prompt asks for, after the counts and the labels. */
  const RetroAsk :=
    "\nWrite a 2-3 sentence summary " + "celebrating wins and noting " + "what to carry forward.\nBe "
    + "encouraging and positive!"

  /** The retrospective prompt's opening, naming the project. */
  function RetroHeading(title: string): string {
    "Generate a brief retro summary for this week's project:\n\n**Project:** " + title + "\n"
  }

  /** The completed count over the total. */
  function CountLine(completed: seq<TaskRow>, incomplete: seq<TaskRow>): string {
    "**Completed tasks:** " + IntToString(|completed|) + "/" + IntToString(|completed| + |incomplete|) + "\n"
  }

  /** The labels of the completed tasks, or "None". */
  function DoneLine(completed: seq<TaskRow>): string {
    "**Done:** " + LabelList(completed, "None") + "\n"
  }

  /** The labels of the tasks still open, or "All done!". */
  function NotDoneLine(incomplete: seq<TaskRow>): string {
    "**Not done:** " + LabelList(incomplete, "All done!") + "\n"
  }

  /** `build_retro_summary_prompt`: the heading, the count, the done and not-done labels, then the request. */
  function RetroPrompt(title: string, completed: seq<TaskRow>, incomplete: seq<TaskRow>): string {
    Concat([RetroHeading(title), CountLine(completed, incomplete), DoneLine(completed), NotDoneLine(incomplete), RetroAsk])
  }

  /** The retrospective prompt names the project, counts the completed tasks against all of them, and lists both kinds. */
  lemma RetroPromptShows(title: string, completed: seq<TaskRow>, incomplete: seq<TaskRow>)
    ensures StartsWith(RetroPrompt(title, completed, incomplete), RetroHeading(title))
    ensures Contains(RetroPrompt(title, completed, incomplete), CountLine(completed, incomplete))
    ensures Contains(RetroPrompt(title, completed, incomplete), DoneLine(completed))
    ensures Contains(RetroPrompt(title, completed, incomplete), NotDoneLine(incomplete))
  {
    ConcatShowsParts([RetroHeading(title), CountLine(completed, incomplete), DoneLine(completed), NotDoneLine(incomplete), RetroAsk]);
  }
}
