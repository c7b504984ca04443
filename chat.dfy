/**
 * The chat cog: what the bot does when it is mentioned.  It reads the
 * author's memories and the recent conversation, cleans the history and the
 * message, talks to the model (letting it call tools for up to five rounds),
 * records both turns, stores the memories the model asked to keep and
 * replies, split into messages of at most 2000 characters.  Also the key
 * normalisation of `/memory add`.
 */
module Chat {
  import opened Wrappers
  import opened Seqs
  import opened Text
  import opened Json
  import opened Sql
  import opened Database
  import opened Tools
  import ToolSchemas
  import Prompts

  // ===================== history sanitiser =====================

  /** Texts that mark a stored turn as a command request or as the bot's own help text. */
  const Indicators: seq<string> := [
    "describe the projects",
    "/help", "/project", "/idea", "/week", "/memory", "/persona",
    "what commands", "list commands", "show commands",
    "what can you do", "how do you help",
    "Quick things I can do",
    "Start/manage projects:",
    "Useful commands",
    "Quick commands to get started",
    "/ping (latency)",
    "/brrr (bot status)"]

  /** The indicator test of the sanitiser, one indicator after the other. */
  function IndicatorHit(content: string, inds: seq<string>): bool
    decreases |inds|
  {
    if inds == [] then false
    else Contains(content, inds[0]) || Contains(Lower(content), inds[0]) || IndicatorHit(content, inds[1..])
  }

  /** A turn hits the indicators exactly when some indicator occurs in its text as written or lower-cased. */
  lemma {:induction false} IndicatorHitIff(content: string, inds: seq<string>)
    ensures IndicatorHit(content, inds) <==>
      exists i :: 0 <= i < |inds| && (Contains(content, inds[i]) || Contains(Lower(content), inds[i]))
    decreases |inds|
  {
    if inds != [] {
      IndicatorHitIff(content, inds[1..]);
      assert forall i :: 1 <= i < |inds| ==> inds[i] == inds[1..][i - 1];
    }
  }

  /** A stored turn survives the filters: not blank, not the bot's "didn't quite get that" fallback,
      not a slash command, and free of every indicator. */
  predicate Kept(m: Message) {
    && !IsBlank(m.content)
    && !(m.role == "assistant" && Contains(m.content, "didn't quite get that"))
    && !StartsWith(m.content, "/")
    && !IndicatorHit(m.content, Indicators)
  }

  function KeptTurn(): Message -> bool {
    (m: Message) => Kept(m)
  }

  /** Adds a turn to the cleaned history: a turn with the same role as the last one replaces it. */
  function Merge(h: seq<Message>, m: Message): seq<Message> {
    if h != [] && h[|h| - 1].role == m.role then h[..|h| - 1] + [m] else h + [m]
  }

  predicate Alternating(h: seq<Message>) {
    forall i :: 0 <= i < |h| - 1 ==> h[i].role != h[i + 1].role
  }

  /** Merging into an alternating history keeps it alternating and ends it with the new turn. */
  lemma MergeShape(h: seq<Message>, m: Message)
    requires Alternating(h)
    ensures |Merge(h, m)| <= |h| + 1
    ensures Alternating(Merge(h, m))
    ensures Merge(h, m) != [] && Merge(h, m)[|Merge(h, m)| - 1] == m
    ensures forall x :: x in Merge(h, m) ==> x in h || x == m
  {
    if h != [] && h[|h| - 1].role == m.role {
      var r := h[..|h| - 1] + [m];
      forall i | 0 <= i < |r| - 1
        ensures r[i].role != r[i + 1].role
      {
        assert r[i] == h[i];
        if i + 1 < |r| - 1 {
          assert r[i + 1] == h[i + 1];
        }
      }
    } else {
      var r := h + [m];
      forall i | 0 <= i < |r| - 1
        ensures r[i].role != r[i + 1].role
      {
        assert r[i] == h[i];
      }
    }
  }

  /** The turns folded through `Merge`, from the first to the last. */
  function Collapse(ms: seq<Message>): seq<Message>
    decreases |ms|
  {
    if ms == [] then [] else Merge(Collapse(ms[..|ms| - 1]), ms[|ms| - 1])
  }

  /** Collapsing keeps no more turns than it is given, only turns it is given, roles alternate, and the
      latest turn survives. */
  lemma {:induction false} CollapseShape(ms: seq<Message>)
    ensures |Collapse(ms)| <= |ms|
    ensures forall x :: x in Collapse(ms) ==> x in ms
    ensures Alternating(Collapse(ms))
    ensures ms != [] ==> Collapse(ms) != [] && Collapse(ms)[|Collapse(ms)| - 1] == ms[|ms| - 1]
    decreases |ms|
  {
    if ms != [] {
      var init := ms[..|ms| - 1];
      CollapseShape(init);
      MergeShape(Collapse(init), ms[|ms| - 1]);
      assert forall x :: x in init ==> x in ms;
    }
  }

  /** Of two consecutive turns with the same role only the later one counts. */
  lemma LaterTurnReplaces(ms: seq<Message>, x: Message, y: Message)
    requires x.role == y.role
    ensures Collapse(ms + [x, y]) == Collapse(ms + [y])
  {
    var a := ms + [x];
    var b := ms + [x, y];
    var c := ms + [y];
    assert b[..|b| - 1] == a && b[|b| - 1] == y;
    assert a[..|a| - 1] == ms && a[|a| - 1] == x;
    assert c[..|c| - 1] == ms && c[|c| - 1] == y;
    var h := Collapse(ms);
    assert Collapse(a) == Merge(h, x);
    assert Collapse(b) == Merge(Merge(h, x), y);
    assert Collapse(c) == Merge(h, y);
    if h != [] && h[|h| - 1].role == x.role {
      assert Merge(h, x) == h[..|h| - 1] + [x];
      assert (h[..|h| - 1] + [x])[..|h| - 1] == h[..|h| - 1];
    } else {
      assert Merge(h, x) == h + [x];
      assert (h + [x])[..|h|] == h;
    }
  }

  /** The cleaned history after the first `i` stored turns. */
  function CleanedPrefix(raw: seq<Message>, i: nat): seq<Message>
    requires i <= |raw|
  {
    Collapse(Filter(raw[..i], KeptTurn()))
  }

  /** One more stored turn: a kept turn is merged into the cleaned history, any other is ignored. */
  lemma SanitizeStep(raw: seq<Message>, i: nat)
    requires i < |raw|
    ensures CleanedPrefix(raw, i + 1) ==
      if KeptTurn()(raw[i]) then Merge(CleanedPrefix(raw, i), raw[i]) else CleanedPrefix(raw, i)
  {
    var msg := raw[i];
    var kept := Filter(raw[..i], KeptTurn());
    assert raw[..i + 1] == raw[..i] + [msg];
    FilterAppend(raw[..i], [msg], KeptTurn());
    if KeptTurn()(msg) {
      assert Filter([msg], KeptTurn()) == [msg];
      CollapseSnoc(kept, msg);
    } else {
      assert Filter([msg], KeptTurn()) == [];
      assert kept + [] == kept;
    }
  }

  /** Collapsing one more turn merges it into the collapsed turns before it. */
  lemma CollapseSnoc(ms: seq<Message>, x: Message)
    ensures Collapse(ms + [x]) == Merge(Collapse(ms), x)
  {
    assert (ms + [x])[..|ms|] == ms;
  }

  /** The history passed to the model: the kept turns, collapsed, at most the last four. */
  function Sanitized(raw: seq<Message>): seq<Message> {
    Last(Collapse(Filter(raw, KeptTurn())), 4)
  }

  /** At most four turns reach the model, each of them a stored turn that passes the filters, their roles
      alternate, and the latest kept turn is always among them. */
  lemma SanitizedShape(raw: seq<Message>)
    ensures |Sanitized(raw)| <= 4
    ensures forall i :: 0 <= i < |Sanitized(raw)| ==> Sanitized(raw)[i] in raw && KeptTurn()(Sanitized(raw)[i])
    ensures Alternating(Sanitized(raw))
    ensures Filter(raw, KeptTurn()) != [] ==>
      Sanitized(raw) != [] && Sanitized(raw)[|Sanitized(raw)| - 1] == Filter(raw, KeptTurn())[|Filter(raw, KeptTurn())| - 1]
  {
    SanitizedTurns(raw);
    SanitizedOrder(raw);
  }

  /** Every turn that reaches the model is a stored turn that passes the filters. */
  lemma SanitizedTurns(raw: seq<Message>)
    ensures forall i :: 0 <= i < |Sanitized(raw)| ==> Sanitized(raw)[i] in raw && KeptTurn()(Sanitized(raw)[i])
  {
    var f := Filter(raw, KeptTurn());
    var c := Collapse(f);
    CollapseShape(f);
    FilterMembers(raw, KeptTurn());
    var r := Sanitized(raw);
    var d := |c| - |r|;
    forall i | 0 <= i < |r|
      ensures r[i] in raw && KeptTurn()(r[i])
    {
      assert r[i] == c[d + i] && c[d + i] in c;
      var k :| 0 <= k < |f| && f[k] == c[d + i];
    }
  }

  /** At most four turns reach the model, with alternating roles, ending with the latest kept turn. */
  lemma SanitizedOrder(raw: seq<Message>)
    ensures |Sanitized(raw)| <= 4
    ensures Alternating(Sanitized(raw))
    ensures Filter(raw, KeptTurn()) != [] ==>
      Sanitized(raw) != [] && Sanitized(raw)[|Sanitized(raw)| - 1] == Filter(raw, KeptTurn())[|Filter(raw, KeptTurn())| - 1]
  {
    LastFourCollapsed(Filter(raw, KeptTurn()));
  }

  /** The last four turns of a collapsed history alternate and end with the latest turn. */
  lemma LastFourCollapsed(f: seq<Message>)
    ensures |Last(Collapse(f), 4)| <= 4
    ensures Alternating(Last(Collapse(f), 4))
    ensures f != [] ==> Last(Collapse(f), 4) != [] && Last(Collapse(f), 4)[|Last(Collapse(f), 4)| - 1] == f[|f| - 1]
  {
    var c := Collapse(f);
    CollapseShape(f);
    var r := Last(c, 4);
    var d := |c| - |r|;
    assert r == c[d..];
    forall i | 0 <= i < |r| - 1
      ensures r[i].role != r[i + 1].role
    {
      assert c[d + i].role != c[d + i + 1].role;
    }
    if f != [] {
      assert |r| > 0 && r[|r| - 1] == c[|c| - 1];
    }
  }

  /** The four filters of the sanitiser, in the order the loop tries them. */
  method Skipped(msg: Message) returns (skip: bool)
    ensures skip == !KeptTurn()(msg)
  {
    if IsBlank(msg.content) {
      return true;
    }
    if msg.role == "assistant" && Contains(msg.content, "didn't quite get that") {
      return true;
    }
    if StartsWith(msg.content, "/") {
      return true;
    }
    if IndicatorHit(msg.content, Indicators) {
      return true;
    }
    return false;
  }

  /** A kept turn joins the history: one with the same role as the last replaces it, any other is appended. */
  method AddTurn(history: seq<Message>, lastRole: Option<string>, msg: Message)
    returns (history': seq<Message>, lastRole': Option<string>)
    requires lastRole == (if history == [] then None else Some(history[|history| - 1].role))
    ensures history' == Merge(history, msg)
    ensures lastRole' == Some(msg.role) && history' != [] && history'[|history'| - 1] == msg
  {
    if Some(msg.role) == lastRole {
      if history != [] && history[|history| - 1].role == msg.role {
        return history[..|history| - 1] + [msg], lastRole;
      }
    }
    return history + [msg], Some(msg.role);
  }

  /** The loop of `handle_mention` that filters the recent turns and keeps only the latest of a run of
      turns with the same role. */
  method FilterHistory(raw: seq<Message>) returns (history: seq<Message>)
    ensures history == Collapse(Filter(raw, KeptTurn()))
  {
    history := [];
    var lastRole: Option<string> := None;
    var i := 0;
    while i < |raw|
      invariant 0 <= i <= |raw|
      invariant history == CleanedPrefix(raw, i)
      invariant lastRole == (if history == [] then None else Some(history[|history| - 1].role))
    {
      history, lastRole := Visit(raw, i, history, lastRole);
      i := i + 1;
    }
    assert raw[..|raw|] == raw;
    assert history == CleanedPrefix(raw, |raw|);
  }

  /** One turn of the sanitiser loop: a filtered turn is skipped, a kept one joins the history. */
  method Visit(raw: seq<Message>, i: nat, history: seq<Message>, lastRole: Option<string>)
    returns (history': seq<Message>, lastRole': Option<string>)
    requires i < |raw| && history == CleanedPrefix(raw, i)
    requires lastRole == (if history == [] then None else Some(history[|history| - 1].role))
    ensures history' == CleanedPrefix(raw, i + 1)
    ensures lastRole' == (if history' == [] then None else Some(history'[|history'| - 1].role))
  {
    var msg := raw[i];
    SanitizeStep(raw, i);
    var skip := Skipped(msg);
    if skip {
      return history, lastRole;
    }
    history', lastRole' := AddTurn(history, lastRole, msg);
  }

  /** The sanitiser of `handle_mention`: the filtering loop, then the cut to the last four turns. */
  method SanitizeHistory(raw: seq<Message>) returns (history: seq<Message>)
    ensures history == Sanitized(raw)
  {
    history := FilterHistory(raw);
    if |history| > 4 {
      history := history[|history| - 4..];
    }
  }

  // ===================== mention cleaning =====================

  /** `<@id>`, how a user mention is written in message text. */
  function Plain(id: int): string { "<@" + IntToString(id) + ">" }

  /** `<@!id>`, the nickname form of the same mention. */
  function Nick(id: int): string { "<@!" + IntToString(id) + ">" }

  /** The mention loop as written: one `str.replace` of each form per mentioned user. */
  function StripMentionsOnce(s: string, ids: seq<int>): (r: string)
    ensures |r| <= |s|
    decreases |ids|
  {
    if ids == [] then s
    else
      var once := ReplaceAll(ReplaceAll(s, Plain(ids[0]), []), Nick(ids[0]), []);
      RemoveShrinks(s, Plain(ids[0]));
      RemoveShrinks(ReplaceAll(s, Plain(ids[0]), []), Nick(ids[0]));
      StripMentionsOnce(once, ids[1..])
  }

  /** Removing a mention can join the text around it into a new mention: one pass leaves `<@42>` behind. */
  lemma MarkupSurvivesOnePass()
    ensures StripMentionsOnce("<@<@42>42>", [42]) == "<@42>"
    ensures Contains(StripMentionsOnce("<@<@42>42>", [42]), Plain(42))
  {
    MentionsOf42();
    SampleFirstReplace();
    assert ReplaceAll("<@42>", "<@!42>", []) == "<@42>";
    assert StripMentionsOnce("<@42>", []) == "<@42>";
    assert OccursAt("<@42>", "<@42>", 0);
  }

  /** The two mention forms of user 42. */
  lemma MentionsOf42()
    ensures Plain(42) == "<@42>" && Nick(42) == "<@!42>"
  {
    assert IntToString(42) == "42" by {
      assert NatToString(4) == "4";
      assert NatToString(42) == NatToString(4) + [Digit(2)];
    }
  }

  /** `"<@<@42>42>".replace("<@42>", "")`: the inner mention goes, and the outer halves meet. */
  lemma SampleFirstReplace()
    ensures ReplaceAll("<@<@42>42>", "<@42>", []) == "<@42>"
  {
    var s := "<@<@42>42>";
    var p := "<@42>";
    assert s[..5][2] != p[2];
    assert s[1..][..5][0] != p[0];
    assert s[2..][..5] == p;
    assert ReplaceAll(s[7..], p, []) == "42>";
    assert ReplaceAll(s[2..], p, []) == "42>";
    assert ReplaceAll(s[1..], p, []) == "@42>";
  }

  /** A pass that removes nothing found no mention of any listed user, and left the text as it was. */
  lemma {:induction false} UnchangedPassFoundNothing(s: string, ids: seq<int>)
    requires |StripMentionsOnce(s, ids)| == |s|
    ensures StripMentionsOnce(s, ids) == s
    ensures forall i :: 0 <= i < |ids| ==> !Contains(s, Plain(ids[i])) && !Contains(s, Nick(ids[i]))
    decreases |ids|
  {
    if ids != [] {
      var a := ReplaceAll(s, Plain(ids[0]), []);
      var b := ReplaceAll(a, Nick(ids[0]), []);
      RemoveShrinks(s, Plain(ids[0]));
      RemoveShrinks(a, Nick(ids[0]));
      assert |StripMentionsOnce(s, ids)| <= |b|;
      ReplaceAbsent(s, Plain(ids[0]), []);
      ReplaceAbsent(a, Nick(ids[0]), []);
      UnchangedPassFoundNothing(b, ids[1..]);
      forall i | 0 <= i < |ids|
        ensures !Contains(s, Plain(ids[i])) && !Contains(s, Nick(ids[i]))
      {
        if i > 0 {
          assert ids[i] == ids[1..][i - 1];
        }
      }
    }
  }

  /** Mention removal repeated until nothing changes: no mention of a listed user is left. */
  function StripMentions(s: string, ids: seq<int>): (r: string)
    ensures |r| <= |s|
    ensures forall i :: 0 <= i < |ids| ==> !Contains(r, Plain(ids[i])) && !Contains(r, Nick(ids[i]))
    decreases |s|
  {
    var t := StripMentionsOnce(s, ids);
    if |t| == |s| then
      UnchangedPassFoundNothing(s, ids);
      s
    else StripMentions(t, ids)
  }

  /** A slice of a text contains only what the text contains. */
  lemma SliceContains(s: string, lo: nat, hi: nat, t: string)
    requires lo <= hi <= |s| && Contains(s[lo..hi], t)
    ensures Contains(s, t)
  {
    assert OccursAt(s, s[lo..hi], lo);
    ContainsWithin(s, s[lo..hi], t);
  }

  /** Nothing that begins with `<` occurs in "Hello!". */
  lemma NoMarkupInGreeting(t: string)
    requires t != [] && t[0] == '<'
    ensures !Contains("Hello!", t)
  {
    forall i | 0 <= i <= |"Hello!"| - |t|
      ensures !OccursAt("Hello!", t, i)
    {
      assert "Hello!"[i] != '<';
    }
  }

  /** Stripping a text without mentions, or falling back to the greeting, brings no mention back. */
  lemma MarkupFreeBody(s: string, ids: seq<int>)
    requires forall i :: 0 <= i < |ids| ==> !Contains(s, Plain(ids[i])) && !Contains(s, Nick(ids[i]))
    ensures forall i :: 0 <= i < |ids| ==> !Contains(Strip(s), Plain(ids[i])) && !Contains(Strip(s), Nick(ids[i]))
    ensures forall i :: 0 <= i < |ids| ==> !Contains("Hello!", Plain(ids[i])) && !Contains("Hello!", Nick(ids[i]))
  {
    forall i | 0 <= i < |ids|
      ensures !Contains(Strip(s), Plain(ids[i])) && !Contains(Strip(s), Nick(ids[i]))
      ensures !Contains("Hello!", Plain(ids[i])) && !Contains("Hello!", Nick(ids[i]))
    {
      NoMarkupInGreeting(Plain(ids[i]));
      NoMarkupInGreeting(Nick(ids[i]));
      StripKeepsAbsent(s, Plain(ids[i]));
      StripKeepsAbsent(s, Nick(ids[i]));
    }
  }

  /** What a text does not contain, its stripped form does not contain either. */
  lemma StripKeepsAbsent(s: string, x: string)
    requires !Contains(s, x)
    ensures !Contains(Strip(s), x)
  {
    var t := Strip(s);
    var lo := LeadingSpaces(s);
    if Contains(t, x) {
      SliceContains(s, lo, lo + |t|, x);
    }
  }

  /** The author's words as the handler computes them: one pass of mention removal, surrounding whitespace
      stripped, "Hello!" when nothing is left. */
  function MessageBody(content: string, ids: seq<int>): (r: string)
    ensures !IsBlank(r)
    ensures IsBlank(StripMentionsOnce(content, ids)) ==> r == "Hello!"
    ensures !IsBlank(StripMentionsOnce(content, ids)) ==> r == Strip(StripMentionsOnce(content, ids))
    ensures r == "Hello!" || |r| <= |content|
  {
    var s := StripMentionsOnce(content, ids);
    StripEmptyIffBlank(s);
    assert !IsSpace("Hello!"[0]);
    if Strip(s) == [] then "Hello!" else Strip(s)
  }

  /** The body the handler evidently means: mentions removed until none of a listed user is left. */
  function MessageBodyIntended(content: string, ids: seq<int>): (r: string)
    ensures !IsBlank(r)
    ensures forall i :: 0 <= i < |ids| ==> !Contains(r, Plain(ids[i])) && !Contains(r, Nick(ids[i]))
    ensures IsBlank(StripMentions(content, ids)) ==> r == "Hello!"
  {
    var s := StripMentions(content, ids);
    StripEmptyIffBlank(s);
    MarkupFreeBody(s, ids);
    assert !IsSpace("Hello!"[0]);
    if Strip(s) == [] then "Hello!" else Strip(s)
  }

  /** A text with no mention of a listed user passes through the mention loop unchanged. */
  lemma {:induction false} OnceWithoutMentions(s: string, ids: seq<int>)
    requires forall i :: 0 <= i < |ids| ==> !Contains(s, Plain(ids[i])) && !Contains(s, Nick(ids[i]))
    ensures StripMentionsOnce(s, ids) == s
    decreases |ids|
  {
    if ids != [] {
      ReplaceAbsent(s, Plain(ids[0]), []);
      ReplaceAbsent(s, Nick(ids[0]), []);
      assert forall i :: 0 <= i < |ids[1..]| ==> ids[1..][i] == ids[i + 1];
      OnceWithoutMentions(s, ids[1..]);
    }
  }

  /** On a message with no mention markup of its mentioned users, the one pass and the repeated removal give
      the same body. */
  lemma MessageBodyAgrees(content: string, ids: seq<int>)
    requires forall i :: 0 <= i < |ids| ==> !Contains(content, Plain(ids[i])) && !Contains(content, Nick(ids[i]))
    ensures MessageBody(content, ids) == MessageBodyIntended(content, ids)
  {
    OnceWithoutMentions(content, ids);
    assert StripMentions(content, ids) == content;
  }

  /** The message `<@<@42>42>` mentioning user 42 reaches the model as `<@42>`, still a mention of that user. */
  lemma MessageBodyKeepsMention()
    ensures MessageBody("<@<@42>42>", [42]) == "<@42>"
    ensures Contains(MessageBody("<@<@42>42>", [42]), Plain(42))
  {
    MarkupSurvivesOnePass();
    var s := StripMentionsOnce("<@<@42>42>", [42]);
    assert !IsSpace(s[0]) && !IsSpace(s[|s| - 1]);
    assert LStrip(s) == s;
    assert RStrip(s) == s;
  }

  /** The notice put before a message written by another bot. */
  function BotNotice(name: string): string {
    "[This message is from another bot named " + name + "] "
  }

  // ===================== the turn =====================

  /** A message that mentions the bot: author, where it was posted, its text and the users it mentions. */
  datatype Incoming = Incoming(
    authorId: int, displayName: string, isBot: bool,
    guild: Option<int>, channelId: int, content: string, mentions: seq<int>)

  /** `message.guild.id if message.guild else 0`. */
  function GuildOf(m: Incoming): int {
    if m.guild.Some? then m.guild.value else 0
  }

  /** The text sent to the model and stored as the user's turn. */
  function Cleaned(m: Incoming): string {
    var body := MessageBody(m.content, m.mentions);
    if m.isBot then BotNotice(m.displayName) + body else body
  }

  /** The cleaned message is never blank: a bot's message is the notice followed by its cleaned body,
      anyone else's is the cleaned body alone. */
  lemma CleanedText(m: Incoming)
    ensures !IsBlank(Cleaned(m))
    ensures var notice := if m.isBot then BotNotice(m.displayName) else [];
      && notice <= Cleaned(m)
      && Cleaned(m)[|notice|..] == MessageBody(m.content, m.mentions)
  {
    var body := MessageBody(m.content, m.mentions);
    var notice := if m.isBot then BotNotice(m.displayName) else [];
    assert Cleaned(m) == notice + body;
    PrefixedText(notice, body);
  }

  function IsPersona(): MemoryEntry -> bool {
    (e: MemoryEntry) => e.key == Prompts.PersonaKey
  }

  /** The custom persona instructions: the value stored under "persona_instructions", if any. */
  function Persona(memories: seq<MemoryEntry>): (r: Option<string>)
    ensures r.Some? <==> exists i :: 0 <= i < |memories| && memories[i].key == Prompts.PersonaKey
  {
    match Find(memories, IsPersona())
    case Some(e) => Some(e.value)
    case None => None
  }

  /** The persona the bot reads from a user's memories is the one `get_memory` returns for its key. */
  lemma PersonaIsStored(rows: seq<MemoryRow>, userId: int, guildId: int)
    requires UniqueSlots(rows)
    ensures Persona(AllMemories(rows, userId, guildId)) == GetMemory(rows, userId, guildId, Prompts.PersonaKey)
  {
    var ms := AllMemories(rows, userId, guildId);
    AllMemoriesKeyed(rows, userId, guildId, Prompts.PersonaKey);
    match Find(ms, IsPersona())
    case Some(e) =>
      var i :| 0 <= i < |ms| && ms[i] == e;
      assert GetMemory(rows, userId, guildId, ms[i].key) == Some(ms[i].value);
    case None =>
      forall i | 0 <= i < |ms|
        ensures ms[i].key != Prompts.PersonaKey
      {
        assert !IsPersona()(ms[i]);
      }
  }

  /** A tool call requested by the model: its id, the tool's name and the JSON text of its arguments. */
  datatype ToolCall = ToolCall(id: Json, name: string, arguments: string)

  /** The model's answer: its text, the memories it asked to keep and the tools it wants called. */
  datatype Reply = Reply(content: string, memories: seq<Json>, toolCalls: seq<ToolCall>)

  datatype ToolResult = ToolResult(toolCallId: Json, name: string, result: string)

  /** The opening request of a turn, or a follow-up carrying one round of tool calls and their results. */
  datatype Round = Opening | AfterTools(calls: seq<ToolCall>, results: seq<ToolResult>)

  /** What the bot sends to the model (`chat` or `chat_with_tool_results`). */
  datatype Request = Request(
    userMessage: string, memories: seq<MemoryEntry>, userName: string, custom: Option<string>,
    context: Option<seq<Message>>, tools: seq<ToolSchemas.ToolSchema>, round: Round)

  /** The model behind the network: the answer to the `n`-th request of a turn, or the error it raised. */
  type Gateway = (nat, Request) -> Result<Reply, string>

  const MaxToolRounds: nat := 5

  const TooManySteps := "I tried to complete your request but it required too many steps. Please try breaking it into smaller requests."

  /** Every result answers its call: same count, same ids, same names, in order. */
  predicate ResultsMatch(calls: seq<ToolCall>, results: seq<ToolResult>) {
    |results| == |calls|
    && forall k :: 0 <= k < |calls| ==> results[k].toolCallId == calls[k].id && results[k].name == calls[k].name
  }

  /** `next` follows up the answer to request number `k`: that answer asked for tools, and `next` repeats
      the opening request with those calls and a result for each. */
  predicate FollowUp(gateway: Gateway, k: nat, req: Request, next: Request, opening: Request) {
    && gateway(k, req).Success?
    && gateway(k, req).value.toolCalls != []
    && next.round.AfterTools?
    && next == opening.(round := AfterTools(gateway(k, req).value.toolCalls, next.round.results))
    && ResultsMatch(next.round.calls, next.round.results)
  }

  /** The requests of one turn: the opening one, then one follow-up per tool round, and the last answer
      still asks for tools only when all five rounds were used. */
  predicate Exchange(gateway: Gateway, opening: Request, sent: seq<Request>) {
    && 1 <= |sent| <= MaxToolRounds + 1
    && sent[0] == opening
    && (forall k :: 0 <= k < |sent| - 1 ==> FollowUp(gateway, k, sent[k], sent[k + 1], opening))
    && (gateway(|sent| - 1, sent[|sent| - 1]).Success? && gateway(|sent| - 1, sent[|sent| - 1]).value.toolCalls != []
        ==> |sent| == MaxToolRounds + 1)
  }

  /** What the turn settles on: the last answer, its text replaced by the too-many-steps notice when it
      still asks for tools, or the error the model raised. */
  function Outcome(gateway: Gateway, sent: seq<Request>): Result<Reply, string>
    requires sent != []
  {
    Settle(gateway(|sent| - 1, sent[|sent| - 1]))
  }

  /** The last answer as the turn settles on it: an answer still asking for tools has its text replaced by
      the too-many-steps notice; any other answer, and the error the model raised, stand as they are. */
  function Settle(answer: Result<Reply, string>): Result<Reply, string> {
    match answer
    case Failure(e) => Failure(e)
    case Success(rep) => if rep.toolCalls != [] then Success(rep.(content := TooManySteps)) else Success(rep)
  }

  /** The too-many-steps notice replaces the model's text only after five tool rounds. */
  lemma NoticeOnlyAfterFiveRounds(gateway: Gateway, opening: Request, sent: seq<Request>)
    requires Exchange(gateway, opening, sent)
    requires Outcome(gateway, sent).Success?
    requires Outcome(gateway, sent).value.content != gateway(|sent| - 1, sent[|sent| - 1]).value.content
    ensures |sent| == MaxToolRounds + 1
    ensures Outcome(gateway, sent).value.content == TooManySteps
  {
  }

  /** The arguments handed to a tool: the decoded JSON, or `{}` when it does not decode. */
  function ArgumentsOf(parse: string -> Option<Json>, call: ToolCall): Json {
    match parse(call.arguments)
    case Some(j) => j
    case None => JObject(map[])
  }

  /** The results of one tool round, and the tables it leaves. */
  datatype RoundAnswer = RoundAnswer(results: seq<ToolResult>, tables: Tables)

  /** One tool round on the tables: each call goes to `run` in order, on the tables the calls before it
      left, with `{}` for arguments that do not decode. */
  function RoundOutcome(calls: seq<ToolCall>, t: Tables, run: ToolRun, parse: string -> Option<Json>): (r: RoundAnswer)
    ensures |r.results| == |calls|
    decreases |calls|
  {
    if calls == [] then RoundAnswer([], t)
    else
      var prev := RoundOutcome(calls[..|calls| - 1], t, run, parse);
      var c := calls[|calls| - 1];
      var a := run(c.name, ArgumentsOf(parse, c), prev.tables);
      RoundAnswer(prev.results + [ToolResult(c.id, c.name, a.reply)], a.tables)
  }

  /** The round over the first `i + 1` calls is the round over the first `i` followed by call `i`. */
  lemma RoundOutcomeStep(calls: seq<ToolCall>, i: nat, t: Tables, run: ToolRun, parse: string -> Option<Json>)
    requires i < |calls|
    ensures var prev := RoundOutcome(calls[..i], t, run, parse);
      var a := run(calls[i].name, ArgumentsOf(parse, calls[i]), prev.tables);
      RoundOutcome(calls[..i + 1], t, run, parse) == RoundAnswer(prev.results + [ToolResult(calls[i].id, calls[i].name, a.reply)], a.tables)
  {
    assert calls[..i + 1][..i] == calls[..i];
  }

  /** Every result of a round answers its call. */
  lemma {:induction false} RoundResultsMatch(calls: seq<ToolCall>, t: Tables, run: ToolRun, parse: string -> Option<Json>)
    ensures ResultsMatch(calls, RoundOutcome(calls, t, run, parse).results)
    decreases |calls|
  {
    if calls != [] {
      var init := calls[..|calls| - 1];
      RoundResultsMatch(init, t, run, parse);
      var r := RoundOutcome(calls, t, run, parse);
      var prev := RoundOutcome(init, t, run, parse);
      forall k | 0 <= k < |calls|
        ensures r.results[k].toolCallId == calls[k].id && r.results[k].name == calls[k].name
      {
        if k < |init| {
          assert init[k] == calls[k];
          assert r.results[k] == prev.results[k];
        }
      }
    }
  }

  /** Result `k` answers call `k` with what the tool replies on the tables the first `k` calls left. */
  lemma {:induction false} RoundOutcomeShape(calls: seq<ToolCall>, t: Tables, run: ToolRun, parse: string -> Option<Json>)
    ensures forall k :: 0 <= k < |calls| ==>
      RoundOutcome(calls, t, run, parse).results[k].result
      == run(calls[k].name, ArgumentsOf(parse, calls[k]), RoundOutcome(calls[..k], t, run, parse).tables).reply
    decreases |calls|
  {
    if calls != [] {
      var init := calls[..|calls| - 1];
      RoundOutcomeShape(init, t, run, parse);
      var r := RoundOutcome(calls, t, run, parse);
      var prev := RoundOutcome(init, t, run, parse);
      forall k | 0 <= k < |calls|
        ensures r.results[k].result == run(calls[k].name, ArgumentsOf(parse, calls[k]), RoundOutcome(calls[..k], t, run, parse).tables).reply
      {
        if k < |init| {
          assert init[k] == calls[k] && init[..k] == calls[..k];
          assert r.results[k] == prev.results[k];
        } else {
          assert calls[..k] == init;
        }
      }
    }
  }

  /** In a round run by `execute_tool`, an unknown tool is reported by name and arguments that are not an
      object fail on `.get`, whatever the calls before them did. */
  lemma RoundErrors(calls: seq<ToolCall>, t: Tables, guildId: int, userId: int, now: string, parse: string -> Option<Json>)
    ensures var r := RoundOutcome(calls, t, Executor(guildId, userId, now), parse);
      && (forall k :: 0 <= k < |calls| && ToolNamed(calls[k].name).None? ==>
            r.results[k].result == "Error: Unknown tool '" + calls[k].name + "'")
      && (forall k :: 0 <= k < |calls| && ToolNamed(calls[k].name).Some? && !ArgumentsOf(parse, calls[k]).JObject? ==>
            r.results[k].result == "Error executing tool: " + NoGetMessage(ArgumentsOf(parse, calls[k])))
  {
    RoundOutcomeShape(calls, t, Executor(guildId, userId, now), parse);
  }

  /** A tool round as a function of its calls and of the tables before it. */
  type RoundRun = (seq<ToolCall>, Tables) -> RoundAnswer

  /** The rounds of a turn whose calls go to `run`, with arguments decoded by `parse`. */
  function Rounds(run: ToolRun, parse: string -> Option<Json>): RoundRun {
    (calls: seq<ToolCall>, t: Tables) => RoundOutcome(calls, t, run, parse)
  }

  /** The requests of a turn from some point on, and the tables as each of them was sent. */
  datatype Talk = Talk(sent: seq<Request>, tables: seq<Tables>)

  /** The turn from request number `k` on: `req` is sent with the tables `t`; when its answer asks for tools
      and fewer than five rounds have run, the turn goes on with that round. */
  function TurnFrom(gateway: Gateway, opening: Request, k: nat, req: Request, t: Tables, play: RoundRun): (r: Talk)
    requires k <= MaxToolRounds
    ensures |r.sent| == |r.tables| && 1 <= |r.sent| <= MaxToolRounds - k + 1
    ensures r.sent[0] == req && r.tables[0] == t
    decreases MaxToolRounds - k, 1
  {
    match gateway(k, req)
    case Failure(_) => Talk([req], [t])
    case Success(rep) =>
      if rep.toolCalls == [] || k == MaxToolRounds then Talk([req], [t])
      else
        var rest := TurnAfter(gateway, opening, k, rep.toolCalls, t, play);
        Talk([req] + rest.sent, [t] + rest.tables)
  }

  /** The turn after the answer to request number `k` asked for `calls`: the round runs on `t`, and the
      follow-up request, carrying the round's results, is sent with the tables the round left. */
  function TurnAfter(gateway: Gateway, opening: Request, k: nat, calls: seq<ToolCall>, t: Tables, play: RoundRun): (r: Talk)
    requires k < MaxToolRounds
    ensures |r.sent| == |r.tables| && 1 <= |r.sent| <= MaxToolRounds - k
    decreases MaxToolRounds - k, 0
  {
    var round := play(calls, t);
    TurnFrom(gateway, opening, k + 1, opening.(round := AfterTools(calls, round.results)), round.tables, play)
  }

  /** The whole turn, from the opening request sent with the tables as they were. */
  function Turn(gateway: Gateway, opening: Request, t: Tables, play: RoundRun): (r: Talk)
    ensures |r.sent| == |r.tables| && 1 <= |r.sent| <= MaxToolRounds + 1
    ensures r.sent[0] == opening && r.tables[0] == t
  {
    TurnFrom(gateway, opening, 0, opening, t, play)
  }

  /** Round `k` ran the calls the answer to `req` asked for on the tables `t`: `next` is the opening request
      with those calls and the round's results, and `t'` the tables the round left. */
  predicate ToolsRan(gateway: Gateway, opening: Request, k: nat, req: Request, t: Tables, next: Request, t': Tables,
                     play: RoundRun) {
    && gateway(k, req).Success?
    && gateway(k, req).value.toolCalls != []
    && next == opening.(round := AfterTools(gateway(k, req).value.toolCalls, play(gateway(k, req).value.toolCalls, t).results))
    && t' == play(gateway(k, req).value.toolCalls, t).tables
  }

  /** When the answer to `req` asks for tools and fewer than five rounds have run, the turn goes on with
      the follow-up request, sent with the tables the round left. */
  lemma TurnFromStep(gateway: Gateway, opening: Request, k: nat, req: Request, t: Tables, play: RoundRun)
    requires k < MaxToolRounds && gateway(k, req).Success? && gateway(k, req).value.toolCalls != []
    ensures var calls := gateway(k, req).value.toolCalls;
      var round := play(calls, t);
      var rest := TurnFrom(gateway, opening, k + 1, opening.(round := AfterTools(calls, round.results)), round.tables, play);
      var r := TurnFrom(gateway, opening, k, req, t, play);
      && r == Talk([req] + rest.sent, [t] + rest.tables)
      && |r.sent| == |rest.sent| + 1
      && r.sent[|r.sent| - 1] == rest.sent[|rest.sent| - 1]
  {
  }

  /** When the answer to `req` fails, asks for no tool, or comes after five rounds, the turn ends with `req`. */
  lemma TurnFromStops(gateway: Gateway, opening: Request, k: nat, req: Request, t: Tables, play: RoundRun)
    requires k <= MaxToolRounds
    requires !(k < MaxToolRounds && gateway(k, req).Success? && gateway(k, req).value.toolCalls != [])
    ensures TurnFrom(gateway, opening, k, req, t, play) == Talk([req], [t])
  {
  }

  /** The turn from request `k` on stops at an answer that asks for tools only after five rounds. */
  lemma {:induction false} TurnFromEnds(gateway: Gateway, opening: Request, k: nat, req: Request, t: Tables, play: RoundRun)
    requires k <= MaxToolRounds
    ensures var r := TurnFrom(gateway, opening, k, req, t, play);
      var last := k + |r.sent| - 1;
      gateway(last, r.sent[|r.sent| - 1]).Success? && gateway(last, r.sent[|r.sent| - 1]).value.toolCalls != [] ==>
        last == MaxToolRounds
    decreases MaxToolRounds - k
  {
    if k < MaxToolRounds && gateway(k, req).Success? && gateway(k, req).value.toolCalls != [] {
      var calls := gateway(k, req).value.toolCalls;
      var round := play(calls, t);
      var next := opening.(round := AfterTools(calls, round.results));
      var rest := TurnFrom(gateway, opening, k + 1, next, round.tables, play);
      TurnFromStep(gateway, opening, k, req, t, play);
      TurnFromEnds(gateway, opening, k + 1, next, round.tables, play);
      var r := TurnFrom(gateway, opening, k, req, t, play);
      assert k + |r.sent| - 1 == (k + 1) + |rest.sent| - 1;
    } else {
      TurnFromStops(gateway, opening, k, req, t, play);
    }
  }

  /** Every tool round of `sent`, numbered from `k`, ran on the tables the previous one left, and the next
      request carries its calls and results. */
  ghost predicate RanFrom(gateway: Gateway, opening: Request, k: nat, sent: seq<Request>, tables: seq<Tables>,
                          play: RoundRun) {
    && |sent| == |tables|
    && forall j :: 0 <= j < |sent| - 1 ==>
         ToolsRan(gateway, opening, k + j, sent[j], tables[j], sent[j + 1], tables[j + 1], play)
  }

  /** A tool round that led to the first of some rounds that ran extends them by one. */
  lemma RanCons(gateway: Gateway, opening: Request, k: nat, req: Request, t: Tables, sent: seq<Request>,
                tables: seq<Tables>, play: RoundRun)
    requires sent != [] && RanFrom(gateway, opening, k + 1, sent, tables, play)
    requires ToolsRan(gateway, opening, k, req, t, sent[0], tables[0], play)
    ensures RanFrom(gateway, opening, k, [req] + sent, [t] + tables, play)
  {
    var s, u := [req] + sent, [t] + tables;
    forall j | 0 <= j < |s| - 1
      ensures ToolsRan(gateway, opening, k + j, s[j], u[j], s[j + 1], u[j + 1], play)
    {
      if j > 0 {
        var i := j - 1;
        assert ToolsRan(gateway, opening, (k + 1) + i, sent[i], tables[i], sent[i + 1], tables[i + 1], play);
        assert (k + 1) + i == k + j && s[j] == sent[i] && s[j + 1] == sent[i + 1];
        assert u[j] == tables[i] && u[j + 1] == tables[i + 1];
      }
    }
  }

  /** Every tool round of the turn from request `k` on runs on the tables the previous one left, and the
      next request carries its calls and results. */
  lemma {:induction false} TurnFromRunsTools(gateway: Gateway, opening: Request, k: nat, req: Request, t: Tables,
                                             play: RoundRun)
    requires k <= MaxToolRounds
    ensures var r := TurnFrom(gateway, opening, k, req, t, play);
      RanFrom(gateway, opening, k, r.sent, r.tables, play)
    decreases MaxToolRounds - k
  {
    var r := TurnFrom(gateway, opening, k, req, t, play);
    if k < MaxToolRounds && gateway(k, req).Success? && gateway(k, req).value.toolCalls != [] {
      var calls := gateway(k, req).value.toolCalls;
      var round := play(calls, t);
      var next := opening.(round := AfterTools(calls, round.results));
      var rest := TurnFrom(gateway, opening, k + 1, next, round.tables, play);
      TurnFromStep(gateway, opening, k, req, t, play);
      TurnFromRunsTools(gateway, opening, k + 1, next, round.tables, play);
      assert ToolsRan(gateway, opening, k, req, t, rest.sent[0], rest.tables[0], play);
      RanCons(gateway, opening, k, req, t, rest.sent, rest.tables, play);
    } else {
      TurnFromStops(gateway, opening, k, req, t, play);
    }
  }

  /** Every round `play` runs answers each of its calls, in order. */
  ghost predicate Answers(play: RoundRun) {
    forall calls: seq<ToolCall>, u: Tables :: ResultsMatch(calls, play(calls, u).results)
  }

  /** The rounds that run their calls through a tool runner answer each call. */
  lemma RoundsAnswer(run: ToolRun, parse: string -> Option<Json>)
    ensures Answers(Rounds(run, parse))
  {
    forall calls: seq<ToolCall>, u: Tables
      ensures ResultsMatch(calls, Rounds(run, parse)(calls, u).results)
    {
      RoundResultsMatch(calls, u, run, parse);
    }
  }

  /** A round whose results answer its calls is followed up by a request carrying those results. */
  lemma RanIsFollowUp(gateway: Gateway, opening: Request, k: nat, req: Request, t: Tables, next: Request, t': Tables,
                      play: RoundRun)
    requires Answers(play)
    requires ToolsRan(gateway, opening, k, req, t, next, t', play)
    ensures FollowUp(gateway, k, req, next, opening)
  {
    var calls := gateway(k, req).value.toolCalls;
    assert ResultsMatch(calls, play(calls, t).results);
  }

  /** Every tool round of the whole turn ran on the tables the previous one left, its follow-up carrying
      the round's calls and results. */
  lemma TurnRunsTools(gateway: Gateway, opening: Request, t: Tables, play: RoundRun)
    ensures var r := Turn(gateway, opening, t, play);
      forall j :: 0 <= j < |r.sent| - 1 ==>
        ToolsRan(gateway, opening, j, r.sent[j], r.tables[j], r.sent[j + 1], r.tables[j + 1], play)
  {
    var r := Turn(gateway, opening, t, play);
    assert r == TurnFrom(gateway, opening, 0, opening, t, play);
    TurnFromRunsTools(gateway, opening, 0, opening, t, play);
    assert RanFrom(gateway, opening, 0, r.sent, r.tables, play);
    forall j | 0 <= j < |r.sent| - 1
      ensures ToolsRan(gateway, opening, j, r.sent[j], r.tables[j], r.sent[j + 1], r.tables[j + 1], play)
    {
      assert 0 + j == j;
    }
  }

  /** The last answer of the whole turn asks for tools only after five rounds. */
  lemma TurnEnds(gateway: Gateway, opening: Request, t: Tables, play: RoundRun)
    ensures var r := Turn(gateway, opening, t, play);
      (gateway(|r.sent| - 1, r.sent[|r.sent| - 1]).Success?
       && gateway(|r.sent| - 1, r.sent[|r.sent| - 1]).value.toolCalls != []) ==> |r.sent| - 1 == MaxToolRounds
  {
    var r := Turn(gateway, opening, t, play);
    assert r == TurnFrom(gateway, opening, 0, opening, t, play);
    TurnFromEnds(gateway, opening, 0, opening, t, play);
    assert 0 + |r.sent| - 1 == |r.sent| - 1;
  }

  /** A request of the turn whose answer asks for tools within five rounds is followed by the request carrying
      that round's results, sent with the tables the round left. */
  lemma TurnStepAt(gateway: Gateway, opening: Request, t: Tables, play: RoundRun, k: nat)
    requires k < |Turn(gateway, opening, t, play).sent|
    requires var req := Turn(gateway, opening, t, play).sent[k];
      gateway(k, req).Success? && gateway(k, req).value.toolCalls != [] && k < MaxToolRounds
    ensures var r := Turn(gateway, opening, t, play);
      var calls := gateway(k, r.sent[k]).value.toolCalls;
      && k < |r.sent| - 1
      && r.sent[k + 1] == opening.(round := AfterTools(calls, play(calls, r.tables[k]).results))
      && r.tables[k + 1] == play(calls, r.tables[k]).tables
  {
    var r := Turn(gateway, opening, t, play);
    TurnEnds(gateway, opening, t, play);
    TurnRunsTools(gateway, opening, t, play);
    assert ToolsRan(gateway, opening, k, r.sent[k], r.tables[k], r.sent[k + 1], r.tables[k + 1], play);
  }

  /** A request of the turn whose answer fails, asks for no tool, or comes after five rounds is its last. */
  lemma TurnEndsAt(gateway: Gateway, opening: Request, t: Tables, play: RoundRun, k: nat)
    requires k < |Turn(gateway, opening, t, play).sent|
    requires var req := Turn(gateway, opening, t, play).sent[k];
      !(gateway(k, req).Success? && gateway(k, req).value.toolCalls != [] && k < MaxToolRounds)
    ensures |Turn(gateway, opening, t, play).sent| == k + 1 && |Turn(gateway, opening, t, play).tables| == k + 1
  {
    TurnRunsTools(gateway, opening, t, play);
  }

  /** The request the loop stops at is the turn's last: the turn is an exchange, and its outcome is what
      the answer to that request settles on. */
  lemma TurnSettles(gateway: Gateway, opening: Request, t: Tables, play: RoundRun, k: nat, req: Request)
    requires Answers(play)
    requires k < |Turn(gateway, opening, t, play).sent| && req == Turn(gateway, opening, t, play).sent[k]
    requires !(gateway(k, req).Success? && gateway(k, req).value.toolCalls != [] && k < MaxToolRounds)
    ensures var r := Turn(gateway, opening, t, play);
      && |r.sent| == k + 1 && |r.tables| == k + 1
      && Exchange(gateway, opening, r.sent)
      && Outcome(gateway, r.sent) == Settle(gateway(k, req))
  {
    TurnEndsAt(gateway, opening, t, play, k);
    TurnIsExchange(gateway, opening, t, play);
  }

  /** The requests of a turn whose rounds answer their calls form an exchange. */
  lemma TurnIsExchange(gateway: Gateway, opening: Request, t: Tables, play: RoundRun)
    requires Answers(play)
    ensures Exchange(gateway, opening, Turn(gateway, opening, t, play).sent)
  {
    var r := Turn(gateway, opening, t, play);
    TurnRunsTools(gateway, opening, t, play);
    forall j | 0 <= j < |r.sent| - 1
      ensures FollowUp(gateway, j, r.sent[j], r.sent[j + 1], opening)
    {
      RanIsFollowUp(gateway, opening, j, r.sent[j], r.tables[j], r.sent[j + 1], r.tables[j + 1], play);
    }
  }

  // ===================== memories the model asked to keep =====================

  /** The memory table after some writes, and whether the loop got through without an exception. */
  datatype Saved = Saved(rows: seq<MemoryRow>, ok: bool)

  /** One memory of `memories_to_save`: `.get` on a non-dict raises; the key, value and context are bound
      as parameters 3, 4 and 5 of `set_memory` (a list or dict cannot be bound, a `null` key or value
      violates NOT NULL); after the write, the log line reads `mem['key']` and `mem['value']`, which raises
      when either was missing. */
  function MemoryStep(rows: seq<MemoryRow>, userId: int, guildId: int, mem: Json, now: string): Saved {
    if !mem.JObject? then Saved(rows, false)
    else
      var f := mem.fields;
      var key := Bind(Get(f, "key", JString("misc")));
      var value := Bind(Get(f, "value", JString([])));
      var context := Bind(Get(f, "context", JNull));
      if key.None? || value.None? || context.None? then Saved(rows, false)
      else
        match (TextValue(key.value), TextValue(value.value))
        case (Some(k), Some(v)) =>
          Saved(Upsert(rows, Slot(userId, guildId, k), v, TextValue(context.value), now), "key" in f && "value" in f)
        case _ => Saved(rows, false)
  }

  /** The memories saved in order, stopping at the first one that raises. */
  function SaveMemoryRows(rows: seq<MemoryRow>, userId: int, guildId: int, mems: seq<Json>, now: string): Saved
    decreases |mems|
  {
    if mems == [] then Saved(rows, true)
    else
      var prev := SaveMemoryRows(rows, userId, guildId, mems[..|mems| - 1], now);
      if !prev.ok then prev else MemoryStep(prev.rows, userId, guildId, mems[|mems| - 1], now)
  }

  /** Once a memory raised, the later ones are not written. */
  lemma {:induction false} FailureStops(rows: seq<MemoryRow>, userId: int, guildId: int, mems: seq<Json>, i: nat, now: string)
    requires i <= |mems| && !SaveMemoryRows(rows, userId, guildId, mems[..i], now).ok
    ensures SaveMemoryRows(rows, userId, guildId, mems, now) == SaveMemoryRows(rows, userId, guildId, mems[..i], now)
    decreases |mems|
  {
    if i < |mems| {
      var init := mems[..|mems| - 1];
      assert init[..i] == mems[..i];
      FailureStops(rows, userId, guildId, init, i, now);
    } else {
      assert mems[..i] == mems;
    }
  }

  /** A memory given with only some of its fields is stored under "misc" with an empty value, and then the
      log line raises, so the turn ends with the error reply. */
  lemma MemoryDefaults(rows: seq<MemoryRow>, userId: int, guildId: int, f: map<string, Json>, now: string)
    requires "key" !in f && "value" !in f && "context" !in f
    ensures MemoryStep(rows, userId, guildId, JObject(f), now) == Saved(Upsert(rows, Slot(userId, guildId, "misc"), [], None, now), false)
  {
  }

  /** A memory with a text key and value is stored, and `get_memory` then returns its value. */
  lemma WellFormedMemoryStored(rows: seq<MemoryRow>, userId: int, guildId: int, key: string, value: string, now: string)
    requires UniqueSlots(rows)
    ensures MemoryStep(rows, userId, guildId, JObject(map["key" := JString(key), "value" := JString(value)]), now).ok
    ensures GetMemory(MemoryStep(rows, userId, guildId, JObject(map["key" := JString(key), "value" := JString(value)]), now).rows,
                      userId, guildId, key) == Some(value)
  {
    UpsertThenRead(rows, Slot(userId, guildId, key), value, None, now);
  }

  /** A `null` key or value, or a list or object in any field, is refused and writes nothing. */
  lemma MalformedMemoryRefused(rows: seq<MemoryRow>, userId: int, guildId: int, f: map<string, Json>, now: string)
    requires ("key" in f && (f["key"].JNull? || f["key"].JList? || f["key"].JObject?))
          || ("value" in f && (f["value"].JNull? || f["value"].JList? || f["value"].JObject?))
          || ("context" in f && (f["context"].JList? || f["context"].JObject?))
    ensures MemoryStep(rows, userId, guildId, JObject(f), now) == Saved(rows, false)
  {
  }

  // ===================== the reply =====================

  /** A message the bot sends: a reply to the mention, or a plain message in the channel. */
  datatype Outgoing = ReplyWith(text: string) | SendToChannel(text: string)

  const Wrench := "\U{F0}\U{178}\U{201D}\U{A7}"

  const BlankReply := "brrr... my brain went blank! Try asking again? " + Wrench

  const Broken := "brrr... something went wrong! Try again? " + Wrench

  /** The text to send: the answer stripped, or the blank-brain notice. */
  function ReplyText(content: string): (r: string)
    ensures r != []
    ensures IsBlank(content) ==> r == BlankReply
    ensures !IsBlank(content) ==> r == Strip(content)
  {
    StripEmptyIffBlank(content);
    var t := Strip(content);
    if t == [] then BlankReply else t
  }

  function TextOf(): Outgoing -> string {
    (o: Outgoing) => o.text
  }

  const MessageLimit: nat := 2000

  /** The first piece replies to the mention, the others are sent to the channel. */
  function Deliveries(pieces: seq<string>): (r: seq<Outgoing>)
    ensures |r| == |pieces| && Map(r, TextOf()) == pieces
    ensures pieces != [] ==> r[0].ReplyWith?
    ensures forall i :: 1 <= i < |r| ==> r[i].SendToChannel?
  {
    seq(|pieces|, i requires 0 <= i < |pieces| => if i == 0 then ReplyWith(pieces[i]) else SendToChannel(pieces[i]))
  }

  /** The pieces the text is sent in: itself when it fits in one message, otherwise 2000-character chunks. */
  function Pieces(text: string): (r: seq<string>)
    requires text != []
    ensures r != [] && Concat(r) == text
    ensures forall i :: 0 <= i < |r| ==> 0 < |r[i]| <= MessageLimit
    ensures (|r| - 1) * MessageLimit < |text| <= |r| * MessageLimit
  {
    ChunksSpec(text, MessageLimit);
    if |text| > MessageLimit then Chunks(text, MessageLimit)
    else
      assert Concat([text]) == text + Concat([]);
      [text]
  }

  /** The messages that carry the answer: the first replies to the mention, the others follow in the
      channel, together they spell the text, none is empty or longer than 2000 characters, and there are
      as few as that allows. */
  function Replies(content: string): seq<Outgoing> {
    Deliveries(Pieces(ReplyText(content)))
  }

  /** The messages that carry the answer: the first replies to the mention, the others follow in the
      channel, together they spell the text, none is empty or longer than 2000 characters, and there are
      as few as that allows. */
  lemma RepliesShape(content: string)
    ensures var r := Replies(content);
      && r != [] && r[0].ReplyWith?
      && (forall i :: 1 <= i < |r| ==> r[i].SendToChannel?)
      && Concat(Map(r, TextOf())) == ReplyText(content)
      && (forall i :: 0 <= i < |r| ==> 0 < |r[i].text| <= MessageLimit)
      && (|r| - 1) * MessageLimit < |ReplyText(content)| <= |r| * MessageLimit
  {
    var pieces := Pieces(ReplyText(content));
    var r := Deliveries(pieces);
    assert forall i :: 0 <= i < |r| ==> r[i].text == pieces[i];
  }

  // ===================== /memory add =====================

  /** `key.lower().replace(' ', '_')`: the same length, spaces become underscores, ASCII capitals lower case. */
  function NormalizeKey(key: string): (r: string)
    ensures |r| == |key|
    ensures forall i :: 0 <= i < |key| ==> r[i] == (if key[i] == ' ' then '_' else LowerChar(key[i]))
    ensures forall i :: 0 <= i < |r| ==> r[i] != ' ' && !('A' <= r[i] <= 'Z')
  {
    ReplaceCharwise(Lower(key), ' ', '_');
    ReplaceAll(Lower(key), " ", "_")
  }

  /** Normalising a normalised key changes nothing. */
  lemma NormalizeKeyIdempotent(key: string)
    ensures NormalizeKey(NormalizeKey(key)) == NormalizeKey(key)
  {
    var r := NormalizeKey(key);
    assert forall i :: 0 <= i < |r| ==> LowerChar(r[i]) == r[i];
    assert forall i :: 0 <= i < |r| ==> NormalizeKey(r)[i] == r[i];
  }

  const Check := "\U{E2}\U{153}\U{2026}"

  // ===================== the cog =====================

  /** The history table, the memory table and the messages sent, as a completed turn leaves them. */
  datatype Aftermath = Aftermath(history: seq<HistoryRow>, memories: seq<MemoryRow>, out: seq<Outgoing>)

  /** `Conclude` spelled out, for the methods that build it step by step. */
  lemma ConcludeParts(history: seq<HistoryRow>, nextId: int, memories: seq<MemoryRow>, message: Incoming, reply: Reply, now: string)
    ensures var saved := SaveMemoryRows(memories, message.authorId, GuildOf(message), reply.memories, now);
      Conclude(history, nextId, memories, message, reply, now)
      == Aftermath(history + [HistoryRow(nextId, message.authorId, GuildOf(message), message.channelId, "user", Cleaned(message), now),
                              HistoryRow(nextId + 1, message.authorId, GuildOf(message), message.channelId, "assistant", reply.content, now)],
                   saved.rows, if saved.ok then Replies(reply.content) else [ReplyWith(Broken)])
  {
  }

  /** The end of a turn the model answered: the user's turn and the bot's turn are appended with the
      next two ids, the requested memories are saved in order, and the answer is sent unless a memory
      raised, in which case the error reply is sent instead. */
  function Conclude(history: seq<HistoryRow>, nextId: int, memories: seq<MemoryRow>, message: Incoming, reply: Reply, now: string): Aftermath {
    var u := message.authorId;
    var g := GuildOf(message);
    var saved := SaveMemoryRows(memories, u, g, reply.memories, now);
    Aftermath(history + [HistoryRow(nextId, u, g, message.channelId, "user", Cleaned(message), now),
                         HistoryRow(nextId + 1, u, g, message.channelId, "assistant", reply.content, now)],
              saved.rows, if saved.ok then Replies(reply.content) else [ReplyWith(Broken)])
  }

  /** The history keeps its old rows and gains the user's turn and then the bot's, with consecutive ids;
      the memory table is the one the saving loop leaves; the answer goes out in full unless a memory
      raised, and the error reply goes out alone otherwise. */
  lemma ConcludeShape(history: seq<HistoryRow>, nextId: int, memories: seq<MemoryRow>, message: Incoming, reply: Reply, now: string)
    ensures var r := Conclude(history, nextId, memories, message, reply, now);
      var saved := SaveMemoryRows(memories, message.authorId, GuildOf(message), reply.memories, now);
      && |r.history| == |history| + 2 && r.history[..|history|] == history
      && r.history[|history|].role == "user" && r.history[|history|].content == Cleaned(message)
      && r.history[|history| + 1].role == "assistant" && r.history[|history| + 1].content == reply.content
      && r.history[|history|].id == nextId && r.history[|history| + 1].id == nextId + 1
      && r.memories == saved.rows
      && (saved.ok ==> r.out == Replies(reply.content))
      && (!saved.ok ==> r.out == [ReplyWith(Broken)])
  {
    var r := Conclude(history, nextId, memories, message, reply, now);
    assert r.history[..|history|] == history;
  }

  class ChatCog {
    const db: Store
    /** Whether a model client is configured (`self.llm` is truthy). */
    const llmReady: bool

    constructor (db: Store, llmReady: bool)
      ensures this.db == db && this.llmReady == llmReady
    {
      this.db := db;
      this.llmReady := llmReady;
    }

    /** One tool round: each call runs through the executor in order, with `{}` for arguments that do not
        decode; the results and the tables are those of the round run by `execute_tool`. */
    method RunToolRound(executor: ToolExecutor, calls: seq<ToolCall>, guildId: int, userId: int, now: string,
                        parse: string -> Option<Json>)
      returns (results: seq<ToolResult>)
      requires executor.db == db && db.Valid()
      modifies db`projects, db`nextProjectId, db`tasks, db`nextTaskId, db`ideas, db`nextIdeaId
      ensures db.Valid()
      ensures db.memories == old(db.memories) && db.history == old(db.history)
      ensures RoundAnswer(results, db.Snapshot()) == RoundOutcome(calls, old(db.Snapshot()), Executor(guildId, userId, now), parse)
      ensures ResultsMatch(calls, results)
      ensures forall k :: 0 <= k < |calls| && ToolNamed(calls[k].name).None? ==>
        results[k].result == "Error: Unknown tool '" + calls[k].name + "'"
      ensures forall k :: 0 <= k < |calls| && ToolNamed(calls[k].name).Some? && !ArgumentsOf(parse, calls[k]).JObject? ==>
        results[k].result == "Error executing tool: " + NoGetMessage(ArgumentsOf(parse, calls[k]))
    {
      ghost var t0 := db.Snapshot();
      results := RunCalls(executor, calls, guildId, userId, now, parse);
      RoundResultsMatch(calls, t0, Executor(guildId, userId, now), parse);
      RoundErrors(calls, t0, guildId, userId, now, parse);
    }

    /** The loop of a tool round: each call in turn, on the tables the calls before it left. */
    method RunCalls(executor: ToolExecutor, calls: seq<ToolCall>, guildId: int, userId: int, now: string,
                    parse: string -> Option<Json>)
      returns (results: seq<ToolResult>)
      requires executor.db == db && db.Valid()
      modifies db`projects, db`nextProjectId, db`tasks, db`nextTaskId, db`ideas, db`nextIdeaId
      ensures db.Valid()
      ensures db.memories == old(db.memories) && db.history == old(db.history)
      ensures RoundAnswer(results, db.Snapshot()) == RoundOutcome(calls, old(db.Snapshot()), Executor(guildId, userId, now), parse)
    {
      ghost var t0 := db.Snapshot();
      ghost var run := Executor(guildId, userId, now);
      results := [];
      var i := 0;
      while i < |calls|
        invariant 0 <= i <= |calls|
        invariant db.Valid()
        invariant db.memories == old(db.memories) && db.history == old(db.history)
        invariant RoundAnswer(results, db.Snapshot()) == RoundOutcome(calls[..i], t0, run, parse)
      {
        var call := calls[i];
        var r := RunCall(executor, call, guildId, userId, now, parse);
        RoundOutcomeStep(calls, i, t0, run, parse);
        results := results + [ToolResult(call.id, call.name, r)];
        i := i + 1;
      }
      assert calls[..|calls|] == calls;
    }

    /** One call of a tool round: its arguments decoded (`{}` when they do not decode) and handed to the executor. */
    method RunCall(executor: ToolExecutor, call: ToolCall, guildId: int, userId: int, now: string,
                   parse: string -> Option<Json>)
      returns (r: string)
      requires executor.db == db && db.Valid()
      modifies db`projects, db`nextProjectId, db`tasks, db`nextTaskId, db`ideas, db`nextIdeaId
      ensures db.Valid()
      ensures db.memories == old(db.memories) && db.history == old(db.history)
      ensures ToolAnswer(r, db.Snapshot()) == Executor(guildId, userId, now)(call.name, ArgumentsOf(parse, call), old(db.Snapshot()))
    {
      var arguments: Json;
      match parse(call.arguments) {
        case Some(j) => arguments := j;
        case None => arguments := JObject(map[]);
      }
      r := executor.ExecuteTool(call.name, arguments, guildId, userId, now);
    }

    /** A tool round for the calls of an answer, and the follow-up request carrying its results. */
    method FollowUpRound(executor: ToolExecutor, opening: Request, calls: seq<ToolCall>, guildId: int, userId: int,
                         now: string, parse: string -> Option<Json>)
      returns (next: Request)
      requires executor.db == db && db.Valid()
      modifies db`projects, db`nextProjectId, db`tasks, db`nextTaskId, db`ideas, db`nextIdeaId
      ensures db.Valid()
      ensures db.memories == old(db.memories) && db.history == old(db.history)
      ensures var round := Rounds(Executor(guildId, userId, now), parse)(calls, old(db.Snapshot()));
        next == opening.(round := AfterTools(calls, round.results)) && db.Snapshot() == round.tables
    {
      var results := RunToolRound(executor, calls, guildId, userId, now, parse);
      next := opening.(round := AfterTools(calls, results));
    }

    /** The model exchange of a turn: the opening request, then while the answer asks for tools and fewer
        than five rounds have run, a tool round and a follow-up request.  The requests sent and the tables
        left are those of the turn whose rounds run through `execute_tool`. */
    method Converse(executor: ToolExecutor, opening: Request, guildId: int, userId: int, now: string,
                    gateway: Gateway, parse: string -> Option<Json>)
      returns (outcome: Result<Reply, string>, ghost sent: seq<Request>)
      requires executor.db == db && db.Valid()
      modifies db`projects, db`nextProjectId, db`tasks, db`nextTaskId, db`ideas, db`nextIdeaId
      ensures db.Valid()
      ensures db.memories == old(db.memories) && db.history == old(db.history)
      ensures var talk := Turn(gateway, opening, old(db.Snapshot()), Rounds(Executor(guildId, userId, now), parse));
        sent == talk.sent && db.Snapshot() == talk.tables[|talk.tables| - 1]
      ensures Exchange(gateway, opening, sent)
      ensures outcome == Outcome(gateway, sent)
    {
      ghost var t := db.Snapshot();
      ghost var whole := Turn(gateway, opening, t, Rounds(Executor(guildId, userId, now), parse));
      var answer, round, req := ToolRounds(executor, opening, guildId, userId, now, gateway, parse, t, whole);
      RoundsAnswer(Executor(guildId, userId, now), parse);
      TurnSettles(gateway, opening, t, Rounds(Executor(guildId, userId, now), parse), round, req);
      sent := whole.sent;
      assert |sent| == round + 1 && sent[round] == req;
      outcome := Settle(answer);
    }

    /** The requests of a turn: while the answer asks for tools and fewer than five rounds have run, a tool
        round and a follow-up request.  The loop stops at request number `round` of the turn, `req`, with
        the tables that request was sent with and the model's answer to it. */
    method ToolRounds(executor: ToolExecutor, opening: Request, guildId: int, userId: int, now: string,
                      gateway: Gateway, parse: string -> Option<Json>, ghost t: Tables, ghost whole: Talk)
      returns (answer: Result<Reply, string>, round: nat, req: Request)
      requires executor.db == db && db.Valid() && db.Snapshot() == t
      requires whole == Turn(gateway, opening, t, Rounds(Executor(guildId, userId, now), parse))
      modifies db`projects, db`nextProjectId, db`tasks, db`nextTaskId, db`ideas, db`nextIdeaId
      ensures db.Valid()
      ensures round < |whole.sent| && req == whole.sent[round] && db.Snapshot() == whole.tables[round]
      ensures answer == gateway(round, req)
      ensures !(answer.Success? && answer.value.toolCalls != [] && round < MaxToolRounds)
    {
      req := opening;
      answer := gateway(0, req);
      round := 0;
      while answer.Success? && answer.value.toolCalls != [] && round < MaxToolRounds
        invariant round < |whole.sent| && req == whole.sent[round] && db.Snapshot() == whole.tables[round]
        invariant answer == gateway(round, req)
        invariant db.Valid()
        decreases MaxToolRounds - round
      {
        req, answer := TurnRound(executor, opening, guildId, userId, now, gateway, parse, t, whole, round, req);
        round := round + 1;
      }
    }

    /** One pass of the loop, placed in the turn: the tool round after request `round` leaves the tables
        of request `round + 1`, sends that request and takes the model's answer to it. */
    method TurnRound(executor: ToolExecutor, opening: Request, guildId: int, userId: int, now: string,
                     gateway: Gateway, parse: string -> Option<Json>, ghost t: Tables, ghost whole: Talk, round: nat,
                     req: Request)
      returns (next: Request, answer: Result<Reply, string>)
      requires executor.db == db && db.Valid()
      requires whole == Turn(gateway, opening, t, Rounds(Executor(guildId, userId, now), parse))
      requires round < |whole.sent| && req == whole.sent[round] && db.Snapshot() == whole.tables[round]
      requires gateway(round, req).Success? && gateway(round, req).value.toolCalls != [] && round < MaxToolRounds
      modifies db`projects, db`nextProjectId, db`tasks, db`nextTaskId, db`ideas, db`nextIdeaId
      ensures db.Valid()
      ensures round + 1 < |whole.sent| && next == whole.sent[round + 1] && db.Snapshot() == whole.tables[round + 1]
      ensures answer == gateway(round + 1, next)
    {
      TurnStepAt(gateway, opening, t, Rounds(Executor(guildId, userId, now), parse), round);
      next := FollowUpRound(executor, opening, gateway(round, req).value.toolCalls, guildId, userId, now, parse);
      answer := gateway(round + 1, next);
    }

    /** One pass of the loop over `memories_to_save`: the `.get` calls, the `set_memory` write and the log line. */
    method SaveMemory(userId: int, guildId: int, mem: Json, now: string) returns (ok: bool)
      requires db.Valid()
      modifies db`memories
      ensures db.Valid()
      ensures Saved(db.memories, ok) == MemoryStep(old(db.memories), userId, guildId, mem, now)
    {
      if !mem.JObject? {
        return false;
      }
      var f := mem.fields;
      var key := BindAt(Get(f, "key", JString("misc")), 3);
      var value := BindAt(Get(f, "value", JString([])), 4);
      var context := BindAt(Get(f, "context", JNull), 5);
      if key.Failure? || value.Failure? || context.Failure? {
        return false;
      }
      var r := db.SetMemory(userId, guildId, TextValue(key.value), TextValue(value.value), TextValue(context.value), now);
      if r.Failure? {
        return false;
      }
      ok := "key" in f && "value" in f;
    }

    /** The loop over `memories_to_save`, stopping at the first memory that raises. */
    method SaveMemories(userId: int, guildId: int, mems: seq<Json>, now: string) returns (ok: bool)
      requires db.Valid()
      modifies db`memories
      ensures db.Valid()
      ensures Saved(db.memories, ok) == SaveMemoryRows(old(db.memories), userId, guildId, mems, now)
    {
      var i := 0;
      while i < |mems|
        invariant 0 <= i <= |mems|
        invariant db.Valid()
        invariant Saved(db.memories, true) == SaveMemoryRows(old(db.memories), userId, guildId, mems[..i], now)
      {
        assert mems[..i + 1][..i] == mems[..i];
        assert mems[..i + 1][i] == mems[i];
        var saved := SaveMemory(userId, guildId, mems[i], now);
        if !saved {
          FailureStops(old(db.memories), userId, guildId, mems, i + 1, now);
          return false;
        }
        i := i + 1;
      }
      assert mems[..|mems|] == mems;
      return true;
    }

    /** `handle_mention`: without a model client nothing happens; otherwise the turn runs, an exception
        from the model leaves the store untouched and sends the error reply, and a completed exchange
        stores the user's and the bot's turn, saves the requested memories and sends the answer (or the
        error reply when a memory raised). */
    method HandleMention(message: Incoming, now: string, gateway: Gateway, parse: string -> Option<Json>)
      returns (out: seq<Outgoing>, ghost sent: seq<Request>)
      requires db.Valid()
      modifies db
      ensures db.Valid()
      ensures !llmReady ==> out == [] && sent == [] && unchanged(db)
      ensures llmReady ==> Exchange(gateway, OpeningRequest(old(db.memories), old(db.history), message), sent)
      ensures llmReady ==>
        var talk := Turn(gateway, OpeningRequest(old(db.memories), old(db.history), message), old(db.Snapshot()),
                         Rounds(Executor(GuildOf(message), message.authorId, now), parse));
        sent == talk.sent && db.Snapshot() == talk.tables[|talk.tables| - 1]
      ensures llmReady && sent != [] && Outcome(gateway, sent).Failure? ==>
        out == [ReplyWith(Broken)] && db.history == old(db.history) && db.memories == old(db.memories)
      ensures llmReady && sent != [] && Outcome(gateway, sent).Success? ==>
        Aftermath(db.history, db.memories, out)
        == Conclude(old(db.history), old(db.nextHistoryId), old(db.memories), message, Outcome(gateway, sent).value, now)
    {
      if !llmReady {
        return [], [];
      }
      var opening := Prepare(message);
      out, sent := Answer(message, opening, now, gateway, parse);
    }

    /** The rest of `handle_mention` once the opening request is ready: the exchange with the model, then
        either the error reply or the stored turn and the answer. */
    method Answer(message: Incoming, opening: Request, now: string, gateway: Gateway, parse: string -> Option<Json>)
      returns (out: seq<Outgoing>, ghost sent: seq<Request>)
      requires db.Valid()
      modifies db
      ensures db.Valid()
      ensures Exchange(gateway, opening, sent)
      ensures var talk := Turn(gateway, opening, old(db.Snapshot()), Rounds(Executor(GuildOf(message), message.authorId, now), parse));
        sent == talk.sent && db.Snapshot() == talk.tables[|talk.tables| - 1]
      ensures Outcome(gateway, sent).Failure? ==>
        out == [ReplyWith(Broken)] && db.history == old(db.history) && db.memories == old(db.memories)
      ensures Outcome(gateway, sent).Success? ==>
        Aftermath(db.history, db.memories, out)
        == Conclude(old(db.history), old(db.nextHistoryId), old(db.memories), message, Outcome(gateway, sent).value, now)
    {
      ghost var h0, n0, m0 := db.history, db.nextHistoryId, db.memories;
      var executor := new ToolExecutor(db);
      var outcome;
      outcome, sent := Converse(executor, opening, GuildOf(message), message.authorId, now, gateway, parse);
      assert db.history == h0 && db.nextHistoryId == n0 && db.memories == m0;
      if outcome.Failure? {
        return [ReplyWith(Broken)], sent;
      }
      out := Finish(message, outcome.value, now);
    }

    /** The start of `handle_mention`: the author's memories and persona, the sanitised recent history and
        the cleaned message, gathered into the opening request. */
    method Prepare(message: Incoming) returns (opening: Request)
      ensures opening == OpeningRequest(db.memories, db.history, message)
    {
      var userId := message.authorId;
      var guildId := GuildOf(message);
      var memories := AllMemories(db.memories, userId, guildId);
      var custom := Persona(memories);
      var raw := RecentMessages(db.history, userId, guildId, message.channelId, 5);
      var history := SanitizeHistory(raw);
      var content := Cleaned(message);
      opening := Request(content, memories, message.displayName, custom,
                         if history == [] then None else Some(history), ToolSchemas.ToolsSchema, Opening);
    }

    /** The end of `handle_mention` once the model has answered: both turns are stored, the memories saved,
        and the answer sent (or the error reply when a memory raised). */
    method Finish(message: Incoming, reply: Reply, now: string) returns (out: seq<Outgoing>)
      requires db.Valid()
      modifies db`history, db`nextHistoryId, db`memories
      ensures db.Valid()
      ensures Aftermath(db.history, db.memories, out) == Conclude(old(db.history), old(db.nextHistoryId), old(db.memories), message, reply, now)
    {
      ghost var m0 := db.memories;
      ConcludeParts(db.history, db.nextHistoryId, m0, message, reply, now);
      ghost var target := Conclude(db.history, db.nextHistoryId, m0, message, reply, now);
      ghost var saved := SaveMemoryRows(m0, message.authorId, GuildOf(message), reply.memories, now);
      StoreTurns(message.authorId, GuildOf(message), message.channelId, Cleaned(message), reply.content, now);
      assert db.history == target.history;
      assert db.memories == m0;
      var ok := SaveMemories(message.authorId, GuildOf(message), reply.memories, now);
      assert db.history == target.history;
      assert db.memories == target.memories && ok == saved.ok;
      out := if ok then Replies(reply.content) else [ReplyWith(Broken)];
      assert out == target.out;
    }

    /** The two `add_message` calls: the user's turn, then the bot's answer, in the same channel. */
    method StoreTurns(userId: int, guildId: int, channelId: int, question: string, answer: string, now: string)
      requires db.Valid()
      modifies db`history, db`nextHistoryId
      ensures db.Valid()
      ensures db.history == old(db.history) + [
        HistoryRow(old(db.nextHistoryId), userId, guildId, channelId, "user", question, now),
        HistoryRow(old(db.nextHistoryId) + 1, userId, guildId, channelId, "assistant", answer, now)]
    {
      ghost var before := db.history;
      var userRow := db.AddMessage(userId, guildId, channelId, "user", question, now);
      ghost var first := db.history[|db.history| - 1];
      var botRow := db.AddMessage(userId, guildId, channelId, "assistant", answer, now);
      assert before + [first] + [db.history[|db.history| - 1]] == before + [first, db.history[|db.history| - 1]];
    }

    /** `/memory add`: the key is normalised, the memory stored with a fixed context, and the user told. */
    method MemoryAdd(userId: int, guildId: int, key: string, value: string, now: string) returns (reply: string)
      requires db.Valid()
      modifies db`memories
      ensures db.Valid()
      ensures db.memories == Upsert(old(db.memories), Slot(userId, guildId, NormalizeKey(key)), value, Some("Manually added by user"), now)
      ensures GetMemory(db.memories, userId, guildId, NormalizeKey(key)) == Some(value)
      ensures reply == Check + " I'll remember: `" + NormalizeKey(key) + "` = `" + value + "`"
    {
      var k := NormalizeKey(key);
      UpsertThenRead(db.memories, Slot(userId, guildId, k), value, Some("Manually added by user"), now);
      var r := db.SetMemory(userId, guildId, Some(k), Some(value), Some("Manually added by user"), now);
      reply := Check + " I'll remember: `" + k + "` = `" + value + "`";
    }
  }

  /** The opening request of a turn, from the store as it was when the mention arrived. */
  function OpeningRequest(rows: seq<MemoryRow>, history: seq<HistoryRow>, m: Incoming): (r: Request)
    ensures r.round == Opening && r.tools == ToolSchemas.ToolsSchema
    ensures r.memories == AllMemories(rows, m.authorId, GuildOf(m))
    ensures r.context.Some? ==> 0 < |r.context.value| <= 4
  {
    var memories := AllMemories(rows, m.authorId, GuildOf(m));
    var raw := RecentMessages(history, m.authorId, GuildOf(m), m.channelId, 5);
    SanitizedShape(raw);
    var context := Sanitized(raw);
    Request(Cleaned(m), memories, m.displayName, Persona(memories),
            if context == [] then None else Some(context), ToolSchemas.ToolsSchema, Opening)
  }
}
