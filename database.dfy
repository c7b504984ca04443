/**
 * The bot's SQLite store, as in-memory tables.  Each table is a sequence of
 * rows in insertion order; `ORDER BY created_at` is that order, because the
 * clock that stamps rows is taken to be non-decreasing.  Queries are
 * functions of a table; the statements that change tables are methods of
 * `Store`, whose new state is stated by the functions below.
 */
module Database {
  import opened Wrappers
  import opened Seqs
  import opened Sql

  // ===================== user_memories =====================

  /** The identity of a memory: the `UNIQUE(user_id, guild_id, memory_key)` constraint. */
  datatype Slot = Slot(userId: int, guildId: int, key: string)

  datatype MemoryRow = MemoryRow(
    userId: int, guildId: int, key: string, value: string,
    context: Option<string>, createdAt: string, updatedAt: string)

  /** One entry of `get_all_memories`: the dict keyed by `memory_key`, as key/value pairs. */
  datatype MemoryEntry = MemoryEntry(key: string, value: string, context: Option<string>, updatedAt: string)

  function SlotOf(r: MemoryRow): Slot { Slot(r.userId, r.guildId, r.key) }

  function DistinctSlots(): (MemoryRow, MemoryRow) -> bool {
    (a: MemoryRow, b: MemoryRow) => SlotOf(a) != SlotOf(b)
  }

  /** No two rows share a slot. */
  predicate UniqueSlots(rows: seq<MemoryRow>) {
    Pairwise(rows, DistinctSlots())
  }

  /** The position of the row in `slot`, if there is one. */
  function SlotIndex(rows: seq<MemoryRow>, slot: Slot): (r: Option<nat>)
    ensures r.Some? ==> r.value < |rows| && SlotOf(rows[r.value]) == slot
    ensures r.Some? ==> forall i :: 0 <= i < r.value ==> SlotOf(rows[i]) != slot
    ensures r.None? <==> forall i :: 0 <= i < |rows| ==> SlotOf(rows[i]) != slot
    decreases |rows|
  {
    if rows == [] then None
    else if SlotOf(rows[0]) == slot then Some(0)
    else
      match SlotIndex(rows[1..], slot)
      case Some(i) => Some(i + 1)
      case None =>
        assert forall i :: 1 <= i < |rows| ==> rows[i] == rows[1..][i - 1];
        None
  }

  /** The row in `slot`, if there is one. */
  function MemoryOf(rows: seq<MemoryRow>, slot: Slot): Option<MemoryRow> {
    match SlotIndex(rows, slot)
    case Some(i) => Some(rows[i])
    case None => None
  }

  /** `get_memory`: the value stored for the key, or `None`. */
  function GetMemory(rows: seq<MemoryRow>, userId: int, guildId: int, key: string): (r: Option<string>)
    ensures r.None? <==> forall i :: 0 <= i < |rows| ==> SlotOf(rows[i]) != Slot(userId, guildId, key)
    ensures r.Some? ==> exists i :: 0 <= i < |rows| && SlotOf(rows[i]) == Slot(userId, guildId, key) && rows[i].value == r.value
  {
    match MemoryOf(rows, Slot(userId, guildId, key))
    case Some(row) => Some(row.value)
    case None => None
  }

  /** `INSERT ... ON CONFLICT(user_id, guild_id, memory_key) DO UPDATE`: the row in the slot gets the new
      value, context and update time and keeps its creation time; otherwise a new row is appended. */
  function Upsert(rows: seq<MemoryRow>, slot: Slot, value: string, context: Option<string>, now: string): seq<MemoryRow> {
    match SlotIndex(rows, slot)
    case Some(i) => rows[i := rows[i].(value := value, context := context, updatedAt := now)]
    case None => rows + [MemoryRow(slot.userId, slot.guildId, slot.key, value, context, now, now)]
  }

  /** In a table without duplicate slots, each row is the one found for its own slot. */
  lemma RowIsMemoryOfItsSlot(rows: seq<MemoryRow>, i: nat)
    requires UniqueSlots(rows) && i < |rows|
    ensures MemoryOf(rows, SlotOf(rows[i])) == Some(rows[i])
  {
  }

  /** Rewriting rows without changing their slots does not move any slot. */
  lemma SlotIndexSameSlots(a: seq<MemoryRow>, b: seq<MemoryRow>, slot: Slot)
    requires |a| == |b| && forall i :: 0 <= i < |a| ==> SlotOf(a[i]) == SlotOf(b[i])
    ensures SlotIndex(a, slot) == SlotIndex(b, slot)
  {
  }

  /** Appending a row in another slot does not change where a slot is found. */
  lemma SlotIndexAppend(rows: seq<MemoryRow>, row: MemoryRow, slot: Slot)
    requires SlotOf(row) != slot
    ensures SlotIndex(rows + [row], slot) == SlotIndex(rows, slot)
  {
    var t := rows + [row];
    if SlotIndex(rows, slot).Some? {
      var x := SlotIndex(rows, slot).value;
      assert SlotOf(t[x]) == slot;
      assert forall i :: 0 <= i < x ==> t[i] == rows[i];
    } else {
      assert forall i :: 0 <= i < |t| ==> SlotOf(t[i]) != slot by {
        forall i | 0 <= i < |t| ensures SlotOf(t[i]) != slot {
          if i < |rows| { assert t[i] == rows[i]; }
        }
      }
    }
  }

  /** An upsert keeps the table free of duplicate slots. */
  lemma UpsertKeepsSlotsUnique(rows: seq<MemoryRow>, slot: Slot, value: string, context: Option<string>, now: string)
    requires UniqueSlots(rows)
    ensures UniqueSlots(Upsert(rows, slot, value, context, now))
  {
    var t := Upsert(rows, slot, value, context, now);
    match SlotIndex(rows, slot)
    case Some(k) =>
      forall i, j | 0 <= i < j < |t|
        ensures DistinctSlots()(t[i], t[j])
      {
        assert SlotOf(t[i]) == SlotOf(rows[i]) && SlotOf(t[j]) == SlotOf(rows[j]);
        assert DistinctSlots()(rows[i], rows[j]);
      }
    case None =>
      var row := MemoryRow(slot.userId, slot.guildId, slot.key, value, context, now, now);
      AppendPairwise(rows, row, DistinctSlots());
  }

  /** After an upsert the slot holds the new value and context, stamped `now`; a row that was already
      there keeps its creation time, and a new one is created at `now`. */
  lemma UpsertThenRead(rows: seq<MemoryRow>, slot: Slot, value: string, context: Option<string>, now: string)
    ensures MemoryOf(Upsert(rows, slot, value, context, now), slot) ==
      Some(match MemoryOf(rows, slot)
           case Some(prev) => prev.(value := value, context := context, updatedAt := now)
           case None => MemoryRow(slot.userId, slot.guildId, slot.key, value, context, now, now))
  {
    var t := Upsert(rows, slot, value, context, now);
    match SlotIndex(rows, slot)
    case Some(k) =>
      SlotIndexSameSlots(rows, t, slot);
    case None =>
      var row := MemoryRow(slot.userId, slot.guildId, slot.key, value, context, now, now);
      assert SlotOf(t[|rows|]) == slot;
      assert SlotIndex(t, slot) == Some(|rows|);
  }

  /** An upsert leaves every other slot as it was. */
  lemma UpsertKeepsOthers(rows: seq<MemoryRow>, slot: Slot, value: string, context: Option<string>, now: string, other: Slot)
    requires other != slot
    ensures MemoryOf(Upsert(rows, slot, value, context, now), other) == MemoryOf(rows, other)
  {
    var t := Upsert(rows, slot, value, context, now);
    match SlotIndex(rows, slot)
    case Some(k) =>
      SlotIndexSameSlots(rows, t, other);
    case None =>
      SlotIndexAppend(rows, MemoryRow(slot.userId, slot.guildId, slot.key, value, context, now, now), other);
      if SlotIndex(rows, other).Some? {
        assert t[SlotIndex(rows, other).value] == rows[SlotIndex(rows, other).value];
      }
  }

  function AtSlot(slot: Slot): MemoryRow -> bool {
    (r: MemoryRow) => SlotOf(r) == slot
  }

  /** In a table without duplicate slots, a slot holds one row if it is found and none otherwise. */
  lemma {:induction false} UniqueSlotCount(rows: seq<MemoryRow>, slot: Slot)
    requires UniqueSlots(rows)
    ensures Count(rows, AtSlot(slot)) == if SlotIndex(rows, slot).Some? then 1 else 0
    decreases |rows|
  {
    if rows != [] {
      var tail := rows[1..];
      assert UniqueSlots(tail) by {
        forall i, j | 0 <= i < j < |tail|
          ensures DistinctSlots()(tail[i], tail[j])
        {
          assert DistinctSlots()(rows[i + 1], rows[j + 1]);
        }
      }
      UniqueSlotCount(tail, slot);
      if SlotOf(rows[0]) == slot {
        forall i | 0 <= i < |tail|
          ensures SlotOf(tail[i]) != slot
        {
          assert DistinctSlots()(rows[0], rows[i + 1]);
        }
      } else {
        assert SlotIndex(rows, slot).Some? <==> SlotIndex(tail, slot).Some?;
      }
    }
  }

  /** After `set_memory` exactly one row holds the slot. */
  lemma UpsertLeavesOneRow(rows: seq<MemoryRow>, slot: Slot, value: string, context: Option<string>, now: string)
    requires UniqueSlots(rows)
    ensures Count(Upsert(rows, slot, value, context, now), AtSlot(slot)) == 1
  {
    UpsertKeepsSlotsUnique(rows, slot, value, context, now);
    UpsertThenRead(rows, slot, value, context, now);
    UniqueSlotCount(Upsert(rows, slot, value, context, now), slot);
  }

  /** `DELETE FROM user_memories WHERE user_id = ? AND guild_id = ? AND memory_key = ?`. */
  function DeleteSlot(rows: seq<MemoryRow>, slot: Slot): seq<MemoryRow> {
    Filter(rows, Not(AtSlot(slot)))
  }

  /** Dropping a row outside `slot` from the front does not change what `slot` holds. */
  lemma MemoryOfTail(rows: seq<MemoryRow>, slot: Slot)
    requires rows != [] && SlotOf(rows[0]) != slot
    ensures MemoryOf(rows, slot) == MemoryOf(rows[1..], slot)
  {
  }

  /** `delete_memory` empties its slot and no other. */
  lemma {:induction false} DeleteSlotEffect(rows: seq<MemoryRow>, slot: Slot, other: Slot)
    ensures MemoryOf(DeleteSlot(rows, slot), slot) == None
    ensures other != slot ==> MemoryOf(DeleteSlot(rows, slot), other) == MemoryOf(rows, other)
    decreases |rows|
  {
    var d := DeleteSlot(rows, slot);
    if rows != [] {
      DeleteSlotEffect(rows[1..], slot, other);
      if SlotOf(rows[0]) != slot {
        assert d == [rows[0]] + DeleteSlot(rows[1..], slot);
        assert d[1..] == DeleteSlot(rows[1..], slot);
        if other != slot && SlotOf(rows[0]) != other {
          MemoryOfTail(rows, other);
          MemoryOfTail(d, other);
        }
      } else if other != slot {
        MemoryOfTail(rows, other);
      }
    }
  }

  function OfUser(userId: int, guildId: int): MemoryRow -> bool {
    (r: MemoryRow) => r.userId == userId && r.guildId == guildId
  }

  /** `DELETE FROM user_memories WHERE user_id = ? AND guild_id = ?`. */
  function ClearUser(rows: seq<MemoryRow>, userId: int, guildId: int): seq<MemoryRow> {
    Filter(rows, Not(OfUser(userId, guildId)))
  }

  function Entries(rows: seq<MemoryRow>): (r: seq<MemoryEntry>)
    ensures |r| == |rows|
    ensures forall i :: 0 <= i < |rows| ==> r[i] == MemoryEntry(rows[i].key, rows[i].value, rows[i].context, rows[i].updatedAt)
  {
    seq(|rows|, i requires 0 <= i < |rows| => MemoryEntry(rows[i].key, rows[i].value, rows[i].context, rows[i].updatedAt))
  }

  /** `get_all_memories`: the rows of one user in one guild, in table order (the query itself fixes no order). */
  function AllMemories(rows: seq<MemoryRow>, userId: int, guildId: int): seq<MemoryEntry> {
    Entries(Filter(rows, OfUser(userId, guildId)))
  }

  /** The memories of a user are keyed by `memory_key`: no key repeats, every entry is what
      `get_memory` returns for its key, and every key `get_memory` knows is listed. */
  lemma AllMemoriesKeyed(rows: seq<MemoryRow>, userId: int, guildId: int, key: string)
    requires UniqueSlots(rows)
    ensures forall i, j :: 0 <= i < j < |AllMemories(rows, userId, guildId)| ==>
      AllMemories(rows, userId, guildId)[i].key != AllMemories(rows, userId, guildId)[j].key
    ensures forall i :: 0 <= i < |AllMemories(rows, userId, guildId)| ==>
      GetMemory(rows, userId, guildId, AllMemories(rows, userId, guildId)[i].key) == Some(AllMemories(rows, userId, guildId)[i].value)
    ensures GetMemory(rows, userId, guildId, key).Some? ==>
      exists i :: 0 <= i < |AllMemories(rows, userId, guildId)| && AllMemories(rows, userId, guildId)[i].key == key
  {
    var f := Filter(rows, OfUser(userId, guildId));
    var e := AllMemories(rows, userId, guildId);
    FilterPairwise(rows, OfUser(userId, guildId), DistinctSlots());
    FilterMembers(rows, OfUser(userId, guildId));
    forall i, j | 0 <= i < j < |e|
      ensures e[i].key != e[j].key
    {
      assert DistinctSlots()(f[i], f[j]);
    }
    forall i | 0 <= i < |e|
      ensures GetMemory(rows, userId, guildId, e[i].key) == Some(e[i].value)
    {
      assert f[i] in rows;
      var k :| 0 <= k < |rows| && rows[k] == f[i];
      RowIsMemoryOfItsSlot(rows, k);
    }
    if GetMemory(rows, userId, guildId, key).Some? {
      var k := SlotIndex(rows, Slot(userId, guildId, key)).value;
      assert OfUser(userId, guildId)(rows[k]);
      assert rows[k] in f;
      var i :| 0 <= i < |f| && f[i] == rows[k];
      assert e[i].key == key;
    }
  }

  /** `clear_user_memories` removes all of one user's memories in one guild and nobody else's. */
  lemma ClearUserEffect(rows: seq<MemoryRow>, userId: int, guildId: int, otherUser: int, otherGuild: int)
    ensures AllMemories(ClearUser(rows, userId, guildId), userId, guildId) == []
    ensures (otherUser, otherGuild) != (userId, guildId) ==>
      AllMemories(ClearUser(rows, userId, guildId), otherUser, otherGuild) == AllMemories(rows, otherUser, otherGuild)
  {
    var c := ClearUser(rows, userId, guildId);
    FilterMembers(rows, Not(OfUser(userId, guildId)));
    FilterNone(c, OfUser(userId, guildId));
    if (otherUser, otherGuild) != (userId, guildId) {
      FilterFilter(rows, Not(OfUser(userId, guildId)), OfUser(otherUser, otherGuild));
    }
  }

  // ===================== conversation_history =====================

  /** A chat turn as the model sees it. */
  datatype Message = Message(role: string, content: string)

  datatype HistoryRow = HistoryRow(
    id: int, userId: int, guildId: int, channelId: int,
    role: string, content: string, createdAt: string)

  function HistoryOrder(): (HistoryRow, HistoryRow) -> bool {
    (a: HistoryRow, b: HistoryRow) => a.id < b.id
  }

  function InChannel(userId: int, guildId: int, channelId: int): HistoryRow -> bool {
    (r: HistoryRow) => r.userId == userId && r.guildId == guildId && r.channelId == channelId
  }

  function Messages(rows: seq<HistoryRow>): (r: seq<Message>)
    ensures |r| == |rows|
    ensures forall i :: 0 <= i < |rows| ==> r[i] == Message(rows[i].role, rows[i].content)
  {
    seq(|rows|, i requires 0 <= i < |rows| => Message(rows[i].role, rows[i].content))
  }

  lemma ReverseTakeReverse<T>(s: seq<T>, n: nat)
    ensures Reverse(Take(Reverse(s), n)) == Last(s, n)
  {
    var a := Reverse(Take(Reverse(s), n));
    var b := Last(s, n);
    assert |a| == |b|;
    forall i | 0 <= i < |a|
      ensures a[i] == b[i]
    {
      var m := Min(n, |s|);
      assert a[i] == Reverse(s)[m - 1 - i];
    }
  }

  /** `get_recent_messages`: `ORDER BY created_at DESC LIMIT ?` read back reversed, i.e. the newest
      `limit` turns of the conversation in chronological order (a negative limit means no limit). */
  function RecentMessages(rows: seq<HistoryRow>, userId: int, guildId: int, channelId: int, limit: int): (r: seq<Message>)
    ensures limit >= 0 ==> r == Messages(Last(Filter(rows, InChannel(userId, guildId, channelId)), limit))
    ensures limit < 0 ==> r == Messages(Filter(rows, InChannel(userId, guildId, channelId)))
  {
    var scope := Filter(rows, InChannel(userId, guildId, channelId));
    var newestFirst := Reverse(scope);
    if limit >= 0 then
      ReverseTakeReverse(scope, limit);
      Messages(Reverse(Take(newestFirst, limit)))
    else
      ReverseReverse(scope);
      Messages(Reverse(newestFirst))
  }

  lemma ReverseReverse<T>(s: seq<T>)
    ensures Reverse(Reverse(s)) == s
  {
    assert |Reverse(Reverse(s))| == |s|;
  }

  /** The newest message of a conversation is the last one read back, and at most `limit` come back. */
  lemma RecentEndsWithNewest(rows: seq<HistoryRow>, row: HistoryRow, limit: nat)
    requires limit > 0
    ensures var r := RecentMessages(rows + [row], row.userId, row.guildId, row.channelId, limit);
      |r| <= limit && r != [] && r[|r| - 1] == Message(row.role, row.content)
  {
    var p := InChannel(row.userId, row.guildId, row.channelId);
    FilterAppend(rows, [row], p);
    assert Filter([row], p) == [row];
  }

  /** Lexicographic `<` on text, as SQLite's BINARY collation compares timestamps. */
  predicate TextLess(a: string, b: string)
    decreases |a|
  {
    if a == [] then b != []
    else if b == [] then false
    else if a[0] != b[0] then a[0] < b[0]
    else TextLess(a[1..], b[1..])
  }

  function Before(cutoff: string): HistoryRow -> bool {
    (r: HistoryRow) => TextLess(r.createdAt, cutoff)
  }

  /** Which rows `clear_conversation_history` selects: every filter given must match; no filter selects all. */
  datatype HistoryFilter = HistoryFilter(userId: Option<int>, guildId: Option<int>, channelId: Option<int>)

  function Selected(f: HistoryFilter): HistoryRow -> bool {
    (r: HistoryRow) => (f.userId.None? || r.userId == f.userId.value)
      && (f.guildId.None? || r.guildId == f.guildId.value)
      && (f.channelId.None? || r.channelId == f.channelId.value)
  }

  /** A `DELETE` keeps exactly the rows it does not select, and reports as many rows as it removed. */
  lemma DeleteReport(rows: seq<HistoryRow>, p: HistoryRow -> bool)
    ensures |Filter(rows, Not(p))| == |rows| - Count(rows, p)
    ensures forall i :: 0 <= i < |Filter(rows, Not(p))| ==> !p(Filter(rows, Not(p))[i])
    ensures forall i :: 0 <= i < |rows| && !p(rows[i]) ==> rows[i] in Filter(rows, Not(p))
  {
    FilterCount(rows, p);
  }

  /** With no filter, `clear_conversation_history` removes the whole table and reports its size. */
  lemma ClearWithoutFilters(rows: seq<HistoryRow>)
    ensures Filter(rows, Not(Selected(HistoryFilter(None, None, None)))) == []
    ensures Count(rows, Selected(HistoryFilter(None, None, None))) == |rows|
  {
    var p := Selected(HistoryFilter(None, None, None));
    FilterNone(rows, Not(p));
    FilterCount(rows, p);
  }

  // ===================== projects =====================

  datatype ProjectRow = ProjectRow(
    id: int, guildId: int, title: string, description: Option<string>, owners: seq<int>,
    status: string, createdAt: string, archivedAt: Option<string>)

  /** The columns `update_project` can set. */
  datatype ProjectField =
    | SetTitle(title: string)
    | SetDescription(description: Option<string>)
    | SetStatus(status: string)
    | SetArchivedAt(archivedAt: Option<string>)

  function ProjectOrder(): (ProjectRow, ProjectRow) -> bool {
    (a: ProjectRow, b: ProjectRow) => a.id < b.id
  }

  function ProjectIdIs(id: int): ProjectRow -> bool {
    (r: ProjectRow) => r.id == id
  }

  /** `get_project`. */
  function GetProject(rows: seq<ProjectRow>, id: int): (r: Option<ProjectRow>)
    ensures r.Some? ==> r.value in rows && r.value.id == id
    ensures r.None? <==> forall i :: 0 <= i < |rows| ==> rows[i].id != id
  {
    Find(rows, ProjectIdIs(id))
  }

  function ProjectListed(guildId: int, status: string): ProjectRow -> bool {
    (r: ProjectRow) => r.guildId == guildId && (status == [] || r.status == status)
  }

  /** `get_guild_projects`: the guild's projects, only those with `status` when it is non-empty, newest first. */
  function GuildProjects(rows: seq<ProjectRow>, guildId: int, status: string): (r: seq<ProjectRow>)
    ensures forall i :: 0 <= i < |r| ==> r[i] in rows && r[i].guildId == guildId && (status == [] || r[i].status == status)
    ensures forall i :: 0 <= i < |rows| && rows[i].guildId == guildId && (status == [] || rows[i].status == status) ==> rows[i] in r
  {
    var f := Filter(rows, ProjectListed(guildId, status));
    FilterMembers(rows, ProjectListed(guildId, status));
    var r := Reverse(f);
    assert forall x :: x in r <==> x in f by {
      forall x | x in r ensures x in f {
        var i :| 0 <= i < |r| && r[i] == x;
        assert f[|f| - 1 - i] == x;
      }
      forall x | x in f ensures x in r {
        var i :| 0 <= i < |f| && f[i] == x;
        assert r[|f| - 1 - i] == x;
      }
    }
    r
  }

  /** With ascending ids in the table, the guild's projects come out with strictly decreasing ids. */
  lemma GuildProjectsNewestFirst(rows: seq<ProjectRow>, guildId: int, status: string)
    requires Pairwise(rows, ProjectOrder())
    ensures forall i, j :: 0 <= i < j < |GuildProjects(rows, guildId, status)| ==>
      GuildProjects(rows, guildId, status)[i].id > GuildProjects(rows, guildId, status)[j].id
  {
    var f := Filter(rows, ProjectListed(guildId, status));
    FilterPairwise(rows, ProjectListed(guildId, status), ProjectOrder());
    var r := GuildProjects(rows, guildId, status);
    forall i, j | 0 <= i < j < |r|
      ensures r[i].id > r[j].id
    {
      assert ProjectOrder()(f[|f| - 1 - j], f[|f| - 1 - i]);
    }
  }

  function ApplyFields(p: ProjectRow, fields: seq<ProjectField>): (r: ProjectRow)
    ensures r.id == p.id && r.guildId == p.guildId && r.owners == p.owners && r.createdAt == p.createdAt
    decreases |fields|
  {
    if fields == [] then p
    else
      var q := match fields[0]
        case SetTitle(t) => p.(title := t)
        case SetDescription(d) => p.(description := d)
        case SetStatus(s) => p.(status := s)
        case SetArchivedAt(a) => p.(archivedAt := a);
      ApplyFields(q, fields[1..])
  }

  /** `UPDATE projects SET ... WHERE id = ?`: the fields are written to the project with that id only. */
  function UpdateRows(rows: seq<ProjectRow>, id: int, fields: seq<ProjectField>): (r: seq<ProjectRow>)
    ensures |r| == |rows|
    ensures forall i :: 0 <= i < |rows| ==> r[i] == if rows[i].id == id then ApplyFields(rows[i], fields) else rows[i]
  {
    seq(|rows|, i requires 0 <= i < |rows| => if rows[i].id == id then ApplyFields(rows[i], fields) else rows[i])
  }

  /** What `archive_project` writes. */
  function ArchiveFields(now: string): seq<ProjectField> {
    [SetStatus("archived"), SetArchivedAt(Some(now))]
  }

  /** After `archive_project` the project reads back archived at `now`, and every other project is unchanged. */
  lemma ArchiveEffect(rows: seq<ProjectRow>, id: int, now: string, other: int)
    ensures GetProject(UpdateRows(rows, id, ArchiveFields(now)), id) ==
      if GetProject(rows, id).Some? then Some(GetProject(rows, id).value.(status := "archived", archivedAt := Some(now))) else None
    ensures other != id ==> GetProject(UpdateRows(rows, id, ArchiveFields(now)), other) == GetProject(rows, other)
  {
    var t := UpdateRows(rows, id, ArchiveFields(now));
    forall i | 0 <= i < |rows| && rows[i].id == id
      ensures t[i] == rows[i].(status := "archived", archivedAt := Some(now))
    {
      var p := rows[i];
      var fs := ArchiveFields(now);
      assert fs[0] == SetStatus("archived") && fs[1..] == [SetArchivedAt(Some(now))];
      assert ApplyFields(p, fs) == ApplyFields(p.(status := "archived"), fs[1..]);
      assert [SetArchivedAt(Some(now))][1..] == [];
      assert ApplyFields(p.(status := "archived"), [SetArchivedAt(Some(now))])
        == ApplyFields(p.(status := "archived", archivedAt := Some(now)), []);
    }
    FindRewritten(rows, t, ProjectIdIs(id), (p: ProjectRow) => p.(status := "archived", archivedAt := Some(now)));
    if other != id {
      FindRewritten(rows, t, ProjectIdIs(other), (p: ProjectRow) => p);
    }
  }

  // ===================== tasks =====================

  datatype TaskRow = TaskRow(id: int, projectId: int, text: string, isDone: bool, createdBy: Option<int>, createdAt: string)

  function TaskOrder(): (TaskRow, TaskRow) -> bool {
    (a: TaskRow, b: TaskRow) => a.id < b.id
  }

  function TaskIdIs(id: int): TaskRow -> bool {
    (r: TaskRow) => r.id == id
  }

  function OfProject(projectId: int): TaskRow -> bool {
    (r: TaskRow) => r.projectId == projectId
  }

  /** `get_task`. */
  function GetTask(rows: seq<TaskRow>, id: int): (r: Option<TaskRow>)
    ensures r.Some? ==> r.value in rows && r.value.id == id
    ensures r.None? <==> forall i :: 0 <= i < |rows| ==> rows[i].id != id
  {
    Find(rows, TaskIdIs(id))
  }

  /** `get_project_tasks`: the project's tasks, oldest first. */
  function ProjectTasks(rows: seq<TaskRow>, projectId: int): (r: seq<TaskRow>)
    ensures forall i :: 0 <= i < |r| ==> r[i] in rows && r[i].projectId == projectId
    ensures forall i :: 0 <= i < |rows| && rows[i].projectId == projectId ==> rows[i] in r
  {
    FilterMembers(rows, OfProject(projectId));
    Filter(rows, OfProject(projectId))
  }

  /** `UPDATE tasks SET is_done = NOT is_done WHERE id = ?`. */
  function ToggleRows(rows: seq<TaskRow>, id: int): (r: seq<TaskRow>)
    ensures |r| == |rows|
    ensures forall i :: 0 <= i < |rows| ==> r[i] == if rows[i].id == id then rows[i].(isDone := !rows[i].isDone) else rows[i]
  {
    seq(|rows|, i requires 0 <= i < |rows| => if rows[i].id == id then rows[i].(isDone := !rows[i].isDone) else rows[i])
  }

  /** `toggle_task` flips the task it names and no other. */
  lemma ToggleEffect(rows: seq<TaskRow>, id: int, other: int)
    ensures GetTask(ToggleRows(rows, id), id) ==
      if GetTask(rows, id).Some? then Some(GetTask(rows, id).value.(isDone := !GetTask(rows, id).value.isDone)) else None
    ensures other != id ==> GetTask(ToggleRows(rows, id), other) == GetTask(rows, other)
  {
    var t := ToggleRows(rows, id);
    FindRewritten(rows, t, TaskIdIs(id), (x: TaskRow) => x.(isDone := !x.isDone));
    if other != id {
      FindRewritten(rows, t, TaskIdIs(other), (x: TaskRow) => x);
    }
  }

  /** Toggling twice restores the table. */
  lemma ToggleTwice(rows: seq<TaskRow>, id: int)
    ensures ToggleRows(ToggleRows(rows, id), id) == rows
  {
    var t := ToggleRows(ToggleRows(rows, id), id);
    assert forall i :: 0 <= i < |rows| ==> t[i] == rows[i];
  }

  /** `DELETE FROM tasks WHERE id = ?`: the task is gone and every other task reads back as before. */
  lemma DeleteTaskEffect(rows: seq<TaskRow>, id: int, other: int)
    ensures GetTask(Filter(rows, Not(TaskIdIs(id))), id) == None
    ensures other != id ==> GetTask(Filter(rows, Not(TaskIdIs(id))), other) == GetTask(rows, other)
  {
    if other != id {
      FindFilter(rows, Not(TaskIdIs(id)), TaskIdIs(other));
    }
  }

  // ===================== ideas =====================

  datatype IdeaRow = IdeaRow(
    id: int, guildId: int, authorId: int, title: string, description: Option<string>,
    usedProjectId: Option<int>, createdAt: string)

  function IdeaOrder(): (IdeaRow, IdeaRow) -> bool {
    (a: IdeaRow, b: IdeaRow) => a.id < b.id
  }

  function IdeaIdIs(id: int): IdeaRow -> bool {
    (r: IdeaRow) => r.id == id
  }

  /** `get_idea`. */
  function GetIdea(rows: seq<IdeaRow>, id: int): (r: Option<IdeaRow>)
    ensures r.Some? ==> r.value in rows && r.value.id == id
    ensures r.None? <==> forall i :: 0 <= i < |rows| ==> rows[i].id != id
  {
    Find(rows, IdeaIdIs(id))
  }

  function IdeaListed(guildId: int, unusedOnly: bool): IdeaRow -> bool {
    (r: IdeaRow) => r.guildId == guildId && (!unusedOnly || r.usedProjectId.None?)
  }

  /** `get_guild_ideas`: the guild's ideas, only those no project used when `unusedOnly`, newest first. */
  function GuildIdeas(rows: seq<IdeaRow>, guildId: int, unusedOnly: bool): (r: seq<IdeaRow>)
    ensures |r| == |Filter(rows, IdeaListed(guildId, unusedOnly))|
    ensures forall i :: 0 <= i < |r| ==> r[i] in rows && r[i].guildId == guildId && (!unusedOnly || r[i].usedProjectId.None?)
    ensures forall i :: 0 <= i < |rows| && rows[i].guildId == guildId && (!unusedOnly || rows[i].usedProjectId.None?) ==> rows[i] in r
  {
    var f := Filter(rows, IdeaListed(guildId, unusedOnly));
    FilterMembers(rows, IdeaListed(guildId, unusedOnly));
    var r := Reverse(f);
    assert forall x :: x in r <==> x in f by {
      forall x | x in r ensures x in f {
        var i :| 0 <= i < |r| && r[i] == x;
        assert f[|f| - 1 - i] == x;
      }
      forall x | x in f ensures x in r {
        var i :| 0 <= i < |f| && f[i] == x;
        assert r[|f| - 1 - i] == x;
      }
    }
    r
  }

  /** `UPDATE ideas SET used_project_id = ? WHERE id = ?`. */
  function MarkUsedRows(rows: seq<IdeaRow>, id: int, projectId: Option<int>): (r: seq<IdeaRow>)
    ensures |r| == |rows|
    ensures forall i :: 0 <= i < |rows| ==> r[i] == if rows[i].id == id then rows[i].(usedProjectId := projectId) else rows[i]
  {
    seq(|rows|, i requires 0 <= i < |rows| => if rows[i].id == id then rows[i].(usedProjectId := projectId) else rows[i])
  }

  /** An idea marked used no longer appears among the guild's unused ideas. */
  lemma MarkUsedHidesIdea(rows: seq<IdeaRow>, id: int, projectId: int, guildId: int)
    ensures forall i :: 0 <= i < |GuildIdeas(MarkUsedRows(rows, id, Some(projectId)), guildId, true)| ==>
      GuildIdeas(MarkUsedRows(rows, id, Some(projectId)), guildId, true)[i].id != id
  {
    var t := MarkUsedRows(rows, id, Some(projectId));
    var r := GuildIdeas(t, guildId, true);
    forall i | 0 <= i < |r|
      ensures r[i].id != id
    {
      var k :| 0 <= k < |t| && t[k] == r[i];
    }
  }

  /** `DELETE FROM ideas WHERE id = ?`: the idea is gone and every other idea reads back as before. */
  lemma DeleteIdeaEffect(rows: seq<IdeaRow>, id: int, other: int)
    ensures GetIdea(Filter(rows, Not(IdeaIdIs(id))), id) == None
    ensures other != id ==> GetIdea(Filter(rows, Not(IdeaIdIs(id))), other) == GetIdea(rows, other)
  {
    if other != id {
      FindFilter(rows, Not(IdeaIdIs(id)), IdeaIdIs(other));
    }
  }

  // ===================== the store =====================

  /** The tables the tools read and write, with the ids their next rows get. */
  datatype Tables = Tables(
    projects: seq<ProjectRow>, nextProjectId: int,
    tasks: seq<TaskRow>, nextTaskId: int,
    ideas: seq<IdeaRow>, nextIdeaId: int)

  class Store {
    var memories: seq<MemoryRow>
    var history: seq<HistoryRow>
    var projects: seq<ProjectRow>
    var tasks: seq<TaskRow>
    var ideas: seq<IdeaRow>
    var nextHistoryId: int
    var nextProjectId: int
    var nextTaskId: int
    var nextIdeaId: int

    /** The memory key constraint holds, and every table's ids ascend and stay below its counter. */
    predicate Valid()
      reads this
    {
      && UniqueSlots(memories)
      && Pairwise(history, HistoryOrder()) && (forall i :: 0 <= i < |history| ==> history[i].id < nextHistoryId)
      && Pairwise(projects, ProjectOrder()) && (forall i :: 0 <= i < |projects| ==> projects[i].id < nextProjectId)
      && Pairwise(tasks, TaskOrder()) && (forall i :: 0 <= i < |tasks| ==> tasks[i].id < nextTaskId)
      && Pairwise(ideas, IdeaOrder()) && (forall i :: 0 <= i < |ideas| ==> ideas[i].id < nextIdeaId)
    }

    /** The project, task and idea tables as they are now. */
    function Snapshot(): Tables
      reads this
    {
      Tables(projects, nextProjectId, tasks, nextTaskId, ideas, nextIdeaId)
    }

    /** A freshly initialised database: empty tables, ids starting at 1. */
    constructor ()
      ensures Valid()
      ensures memories == [] && history == [] && projects == [] && tasks == [] && ideas == []
      ensures nextHistoryId == 1 && nextProjectId == 1 && nextTaskId == 1 && nextIdeaId == 1
    {
      memories, history, projects, tasks, ideas := [], [], [], [], [];
      nextHistoryId, nextProjectId, nextTaskId, nextIdeaId := 1, 1, 1, 1;
    }

    /** `set_memory`: a missing key or value violates NOT NULL and changes nothing; otherwise the slot is upserted. */
    method SetMemory(userId: int, guildId: int, key: Option<string>, value: Option<string>, context: Option<string>, now: string)
      returns (r: Result<bool, SqlError>)
      requires Valid()
      modifies this`memories
      ensures Valid()
      ensures key.None? ==> r == Failure(NotNull("user_memories", "memory_key")) && memories == old(memories)
      ensures key.Some? && value.None? ==> r == Failure(NotNull("user_memories", "memory_value")) && memories == old(memories)
      ensures key.Some? && value.Some? ==>
        r == Success(true) && memories == Upsert(old(memories), Slot(userId, guildId, key.value), value.value, context, now)
    {
      if key.None? {
        return Failure(NotNull("user_memories", "memory_key"));
      }
      if value.None? {
        return Failure(NotNull("user_memories", "memory_value"));
      }
      UpsertKeepsSlotsUnique(memories, Slot(userId, guildId, key.value), value.value, context, now);
      memories := Upsert(memories, Slot(userId, guildId, key.value), value.value, context, now);
      return Success(true);
    }

    /** `delete_memory`. */
    method DeleteMemory(userId: int, guildId: int, key: string) returns (r: bool)
      requires Valid()
      modifies this`memories
      ensures Valid() && r
      ensures memories == DeleteSlot(old(memories), Slot(userId, guildId, key))
    {
      FilterPairwise(memories, Not(AtSlot(Slot(userId, guildId, key))), DistinctSlots());
      memories := DeleteSlot(memories, Slot(userId, guildId, key));
      return true;
    }

    /** `clear_user_memories`. */
    method ClearUserMemories(userId: int, guildId: int) returns (r: bool)
      requires Valid()
      modifies this`memories
      ensures Valid() && r
      ensures memories == ClearUser(old(memories), userId, guildId)
    {
      FilterPairwise(memories, Not(OfUser(userId, guildId)), DistinctSlots());
      memories := ClearUser(memories, userId, guildId);
      return true;
    }

    /** `add_message`: appends one row with the next id and returns that id. */
    method AddMessage(userId: int, guildId: int, channelId: int, role: string, content: string, now: string)
      returns (id: int)
      requires Valid()
      modifies this`history, this`nextHistoryId
      ensures Valid()
      ensures id == old(nextHistoryId) && nextHistoryId == id + 1
      ensures history == old(history) + [HistoryRow(id, userId, guildId, channelId, role, content, now)]
    {
      id := nextHistoryId;
      var row := HistoryRow(id, userId, guildId, channelId, role, content, now);
      AppendPairwise(history, row, HistoryOrder());
      history := history + [row];
      nextHistoryId := id + 1;
    }

    /** `prune_old_messages` with the cutoff already computed: drops rows stamped before it and reports how many. */
    method PruneOldMessages(cutoff: string) returns (count: nat)
      requires Valid()
      modifies this`history
      ensures Valid()
      ensures history == Filter(old(history), Not(Before(cutoff)))
      ensures count == Count(old(history), Before(cutoff)) == |old(history)| - |history|
    {
      FilterPairwise(history, Not(Before(cutoff)), HistoryOrder());
      FilterMembers(history, Not(Before(cutoff)));
      FilterCount(history, Before(cutoff));
      count := Count(history, Before(cutoff));
      history := Filter(history, Not(Before(cutoff)));
    }

    /** `clear_conversation_history`: drops the rows the filter selects and reports how many. */
    method ClearConversationHistory(filter: HistoryFilter) returns (count: nat)
      requires Valid()
      modifies this`history
      ensures Valid()
      ensures history == Filter(old(history), Not(Selected(filter)))
      ensures count == Count(old(history), Selected(filter)) == |old(history)| - |history|
    {
      FilterPairwise(history, Not(Selected(filter)), HistoryOrder());
      FilterMembers(history, Not(Selected(filter)));
      FilterCount(history, Selected(filter));
      count := Count(history, Selected(filter));
      history := Filter(history, Not(Selected(filter)));
    }

    /** `create_project`: a missing title violates NOT NULL; otherwise an active project is appended with the next id. */
    method CreateProject(guildId: int, title: Option<string>, description: Option<string>, owners: seq<int>, now: string)
      returns (r: Result<int, SqlError>)
      requires Valid()
      modifies this`projects, this`nextProjectId
      ensures Valid()
      ensures title.None? ==> r == Failure(NotNull("projects", "title")) && projects == old(projects) && nextProjectId == old(nextProjectId)
      ensures title.Some? ==> (r == Success(old(nextProjectId)) && nextProjectId == old(nextProjectId) + 1
        && projects == old(projects) + [ProjectRow(r.value, guildId, title.value, description, owners, "active", now, None)])
    {
      if title.None? {
        return Failure(NotNull("projects", "title"));
      }
      var row := ProjectRow(nextProjectId, guildId, title.value, description, owners, "active", now, None);
      AppendPairwise(projects, row, ProjectOrder());
      projects := projects + [row];
      r := Success(nextProjectId);
      nextProjectId := nextProjectId + 1;
    }

    /** `update_project`: with no fields it reports `False` and writes nothing; otherwise it writes them and reports `True`,
        whether or not a project has that id. */
    method UpdateProject(id: int, fields: seq<ProjectField>) returns (r: bool)
      requires Valid()
      modifies this`projects
      ensures Valid()
      ensures r <==> fields != []
      ensures projects == if fields == [] then old(projects) else UpdateRows(old(projects), id, fields)
    {
      if fields == [] {
        return false;
      }
      var t := UpdateRows(projects, id, fields);
      assert forall i :: 0 <= i < |t| ==> t[i].id == projects[i].id;
      assert forall x :: x in t ==> x.id < nextProjectId by {
        forall x | x in t ensures x.id < nextProjectId {
          var i :| 0 <= i < |t| && t[i] == x;
          assert projects[i] in projects;
        }
      }
      assert Pairwise(t, ProjectOrder()) by {
        forall i, j | 0 <= i < j < |t| ensures ProjectOrder()(t[i], t[j]) {
          assert ProjectOrder()(projects[i], projects[j]);
        }
      }
      projects := t;
      return true;
    }

    /** `archive_project`: `update_project(status='archived', archived_at=now)`. */
    method ArchiveProject(id: int, now: string) returns (r: bool)
      requires Valid()
      modifies this`projects
      ensures Valid() && r
      ensures projects == UpdateRows(old(projects), id, ArchiveFields(now))
    {
      r := UpdateProject(id, ArchiveFields(now));
    }

    /** `create_task`: a missing label (`text`) violates NOT NULL; otherwise an open task is appended with the next id.
        The project id is not checked against `projects` (SQLite leaves foreign keys unenforced by default). */
    method CreateTask(projectId: int, text: Option<string>, createdBy: Option<int>, now: string)
      returns (r: Result<int, SqlError>)
      requires Valid()
      modifies this`tasks, this`nextTaskId
      ensures Valid()
      ensures text.None? ==> r == Failure(NotNull("tasks", "label")) && tasks == old(tasks) && nextTaskId == old(nextTaskId)
      ensures text.Some? ==> (r == Success(old(nextTaskId)) && nextTaskId == old(nextTaskId) + 1
        && tasks == old(tasks) + [TaskRow(r.value, projectId, text.value, false, createdBy, now)])
    {
      if text.None? {
        return Failure(NotNull("tasks", "label"));
      }
      var row := TaskRow(nextTaskId, projectId, text.value, false, createdBy, now);
      AppendPairwise(tasks, row, TaskOrder());
      tasks := tasks + [row];
      r := Success(nextTaskId);
      nextTaskId := nextTaskId + 1;
    }

    /** `toggle_task`: always reports `True`. */
    method ToggleTask(id: int) returns (r: bool)
      requires Valid()
      modifies this`tasks
      ensures Valid() && r
      ensures tasks == ToggleRows(old(tasks), id)
    {
      var t := ToggleRows(tasks, id);
      assert forall x :: x in t ==> x.id < nextTaskId by {
        forall x | x in t ensures x.id < nextTaskId {
          var i :| 0 <= i < |t| && t[i] == x;
          assert tasks[i] in tasks;
        }
      }
      assert Pairwise(t, TaskOrder()) by {
        forall i, j | 0 <= i < j < |t| ensures TaskOrder()(t[i], t[j]) {
          assert TaskOrder()(tasks[i], tasks[j]);
        }
      }
      tasks := t;
      return true;
    }

    /** `delete_task`: always reports `True`. */
    method DeleteTask(id: int) returns (r: bool)
      requires Valid()
      modifies this`tasks
      ensures Valid() && r
      ensures tasks == Filter(old(tasks), Not(TaskIdIs(id)))
    {
      FilterPairwise(tasks, Not(TaskIdIs(id)), TaskOrder());
      FilterMembers(tasks, Not(TaskIdIs(id)));
      tasks := Filter(tasks, Not(TaskIdIs(id)));
      return true;
    }

    /** `create_idea`: a missing title violates NOT NULL; otherwise an unused idea is appended with the next id. */
    method CreateIdea(guildId: int, authorId: int, title: Option<string>, description: Option<string>, now: string)
      returns (r: Result<int, SqlError>)
      requires Valid()
      modifies this`ideas, this`nextIdeaId
      ensures Valid()
      ensures title.None? ==> r == Failure(NotNull("ideas", "title")) && ideas == old(ideas) && nextIdeaId == old(nextIdeaId)
      ensures title.Some? ==> (r == Success(old(nextIdeaId)) && nextIdeaId == old(nextIdeaId) + 1
        && ideas == old(ideas) + [IdeaRow(r.value, guildId, authorId, title.value, description, None, now)])
    {
      if title.None? {
        return Failure(NotNull("ideas", "title"));
      }
      var row := IdeaRow(nextIdeaId, guildId, authorId, title.value, description, None, now);
      AppendPairwise(ideas, row, IdeaOrder());
      ideas := ideas + [row];
      r := Success(nextIdeaId);
      nextIdeaId := nextIdeaId + 1;
    }

    /** `mark_idea_used`: always reports `True`. */
    method MarkIdeaUsed(id: int, projectId: int) returns (r: bool)
      requires Valid()
      modifies this`ideas
      ensures Valid() && r
      ensures ideas == MarkUsedRows(old(ideas), id, Some(projectId))
    {
      var t := MarkUsedRows(ideas, id, Some(projectId));
      assert forall x :: x in t ==> x.id < nextIdeaId by {
        forall x | x in t ensures x.id < nextIdeaId {
          var i :| 0 <= i < |t| && t[i] == x;
          assert ideas[i] in ideas;
        }
      }
      assert Pairwise(t, IdeaOrder()) by {
        forall i, j | 0 <= i < j < |t| ensures IdeaOrder()(t[i], t[j]) {
          assert IdeaOrder()(ideas[i], ideas[j]);
        }
      }
      ideas := t;
      return true;
    }

    /** `delete_idea`: always reports `True`. */
    method DeleteIdea(id: int) returns (r: bool)
      requires Valid()
      modifies this`ideas
      ensures Valid() && r
      ensures ideas == Filter(old(ideas), Not(IdeaIdIs(id)))
    {
      FilterPairwise(ideas, Not(IdeaIdIs(id)), IdeaOrder());
      FilterMembers(ideas, Not(IdeaIdIs(id)));
      ideas := Filter(ideas, Not(IdeaIdIs(id)));
      return true;
    }
  }
}
