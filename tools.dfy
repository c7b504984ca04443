/**
 * The tool executor: dispatches a tool call from the model to one of the
 * eleven executors, which read or change the store and answer with text for
 * the model.  Arguments arrive as decoded JSON and reach SQLite as bound
 * parameters; every exception raised on the way is reported as
 * "Error executing tool: <message>".
 */
module Tools {
  import opened Wrappers
  import opened Seqs
  import opened Text
  import opened Json
  import opened Sql
  import opened Database
  import ToolSchemas

  /** The tools `execute_tool` dispatches on. */
  datatype Tool =
    | GetProjects | CreateProject | GetProjectInfo | ArchiveProject
    | CreateTask | GetTasks | ToggleTask | DeleteTask
    | AddIdea | GetIdeas | DeleteIdea

  /** The dispatch chain of `execute_tool`: the tool a name selects, or `None` for "Unknown tool". */
  function ToolNamed(name: string): Option<Tool> {
    match name
    case "get_projects" => Some(GetProjects)
    case "create_project" => Some(CreateProject)
    case "get_project_info" => Some(GetProjectInfo)
    case "archive_project" => Some(ArchiveProject)
    case "create_task" => Some(CreateTask)
    case "get_tasks" => Some(GetTasks)
    case "toggle_task" => Some(ToggleTask)
    case "delete_task" => Some(DeleteTask)
    case "add_idea" => Some(AddIdea)
    case "get_ideas" => Some(GetIdeas)
    case "delete_idea" => Some(DeleteIdea)
    case _ => None
  }

  /** Every registered tool name has a dispatch branch, and no other name has one. */
  lemma DispatchCoversRegistry(name: string)
    ensures ToolNamed(name).Some? <==> name in ToolSchemas.Names(ToolSchemas.ToolsSchema)
  {
    ToolSchemas.ToolSchemaNamesDistinct();
  }

  /** `f"Error executing tool: {str(e)}"`. */
  function ExecError(e: SqlError): string {
    "Error executing tool: " + ErrorMessage(e)
  }

  /** A row looked up by an id argument: no argument, an argument SQLite cannot bind, no row with that id, or the row. */
  datatype Lookup<T> = NoArg | ArgError(error: SqlError) | NoSuch | Got(row: T)

  /** The id an argument selects in `WHERE id = ?`, when it is bindable. */
  function KeyOf(j: Json): Option<int>
    requires Bind(j).Some?
  {
    IntegerKey(Bind(j).value)
  }

  function LookupProject(rows: seq<ProjectRow>, j: Json): (r: Lookup<ProjectRow>)
    ensures r.NoArg? <==> !Truthy(j)
    ensures r.ArgError? <==> Truthy(j) && Bind(j).None?
    ensures r.ArgError? ==> Bind(j).None? && r.error == BindError(j, 1)
    ensures r.NoSuch? ==> Bind(j).Some? && (KeyOf(j).None? || GetProject(rows, KeyOf(j).value).None?)
    ensures r.Got? ==> Bind(j).Some? && KeyOf(j).Some? && GetProject(rows, KeyOf(j).value) == Some(r.row)
  {
    if !Truthy(j) then NoArg
    else match BindAt(j, 1)
      case Failure(e) => ArgError(e)
      case Success(v) =>
        match IntegerKey(v)
        case None => NoSuch
        case Some(k) => match GetProject(rows, k) case Some(p) => Got(p) case None => NoSuch
  }

  function LookupTask(rows: seq<TaskRow>, j: Json): (r: Lookup<TaskRow>)
    ensures r.NoArg? <==> !Truthy(j)
    ensures r.ArgError? <==> Truthy(j) && Bind(j).None?
    ensures r.ArgError? ==> Bind(j).None? && r.error == BindError(j, 1)
    ensures r.NoSuch? ==> Bind(j).Some? && (KeyOf(j).None? || GetTask(rows, KeyOf(j).value).None?)
    ensures r.Got? ==> Bind(j).Some? && KeyOf(j).Some? && GetTask(rows, KeyOf(j).value) == Some(r.row)
  {
    if !Truthy(j) then NoArg
    else match BindAt(j, 1)
      case Failure(e) => ArgError(e)
      case Success(v) =>
        match IntegerKey(v)
        case None => NoSuch
        case Some(k) => match GetTask(rows, k) case Some(t) => Got(t) case None => NoSuch
  }

  function LookupIdea(rows: seq<IdeaRow>, j: Json): (r: Lookup<IdeaRow>)
    ensures r.NoArg? <==> !Truthy(j)
    ensures r.ArgError? <==> Truthy(j) && Bind(j).None?
    ensures r.ArgError? ==> Bind(j).None? && r.error == BindError(j, 1)
    ensures r.NoSuch? ==> Bind(j).Some? && (KeyOf(j).None? || GetIdea(rows, KeyOf(j).value).None?)
    ensures r.Got? ==> Bind(j).Some? && KeyOf(j).Some? && GetIdea(rows, KeyOf(j).value) == Some(r.row)
  {
    if !Truthy(j) then NoArg
    else match BindAt(j, 1)
      case Failure(e) => ArgError(e)
      case Success(v) =>
        match IntegerKey(v)
        case None => NoSuch
        case Some(k) => match GetIdea(rows, k) case Some(t) => Got(t) case None => NoSuch
  }

  /** `f"Error: {what} with ID {id} not found."` for an argument that binds. */
  function NotFound(what: string, j: Json): string
    requires Bind(j).Some?
  {
    "Error: " + what + " with ID " + PyStr(j) + " not found."
  }

  // ---------------- rendering ----------------

  const Done: string := "\U{2705}"
  const Open: string := "\U{2B1C}"

  function IsDone(): TaskRow -> bool {
    (t: TaskRow) => t.isDone
  }

  function TaskLine(t: TaskRow): string {
    "  " + (if t.isDone then Done else Open) + " [" + IntToString(t.id) + "] " + t.text
  }

  function TaskLines(ts: seq<TaskRow>): (r: seq<string>)
    ensures |r| == |ts|
    ensures forall i :: 0 <= i < |ts| ==> r[i] == TaskLine(ts[i])
  {
    seq(|ts|, i requires 0 <= i < |ts| => TaskLine(ts[i]))
  }

  /** `f"{completed}/{len(tasks)} completed"`. */
  function Progress(ts: seq<TaskRow>): string {
    IntToString(Count(ts, IsDone())) + "/" + IntToString(|ts|) + " completed"
  }

  /** The completed count never exceeds the number of tasks. */
  lemma {:induction false} DoneAtMostAll(ts: seq<TaskRow>)
    ensures Count(ts, IsDone()) <= |ts|
    ensures Count(ts, IsDone()) == |ts| <==> forall i :: 0 <= i < |ts| ==> ts[i].isDone
    decreases |ts|
  {
    if ts != [] {
      DoneAtMostAll(ts[1..]);
      assert forall i :: 1 <= i < |ts| ==> ts[i] == ts[1..][i - 1];
    }
  }

  function ProjectLine(p: ProjectRow): string {
    "ID: " + IntToString(p.id) + " | Title: " + p.title + " | Status: " + p.status
  }

  function ProjectLines(ps: seq<ProjectRow>): (r: seq<string>)
    ensures |r| == |ps|
    ensures forall i :: 0 <= i < |ps| ==> r[i] == ProjectLine(ps[i])
  {
    seq(|ps|, i requires 0 <= i < |ps| => ProjectLine(ps[i]))
  }

  /** `idea.get('used_project_id')` is truthy. */
  predicate IdeaUsed(i: IdeaRow) {
    i.usedProjectId.Some? && i.usedProjectId.value != 0
  }

  function IdeaLine(i: IdeaRow): string {
    "  [" + IntToString(i.id) + "] " + i.title
      + (if IdeaUsed(i) then " (used)" else "")
      + (if i.description.Some? && i.description.value != [] then " - " + Take(i.description.value, 50) + "..." else "")
  }

  function IdeaLines(xs: seq<IdeaRow>): (r: seq<string>)
    ensures |r| == |xs|
    ensures forall k :: 0 <= k < |xs| ==> r[k] == IdeaLine(xs[k])
  {
    seq(|xs|, k requires 0 <= k < |xs| => IdeaLine(xs[k]))
  }

  /** The `status` a call of `get_guild_projects` filters by: empty when the argument is falsy (no filter). */
  function StatusFilter(status: Json): string
    requires !Truthy(status) || Bind(status).Some?
  {
    if Truthy(status) then TextValue(Bind(status).value).value else ""
  }

  // ---------------- read-only executors ----------------

  /** `_get_projects`: the guild's projects (filtered by a truthy status), one line each, newest first. */
  function GetProjectsReply(projects: seq<ProjectRow>, guildId: int, status: Json): string {
    if guildId == 0 then "Error: No guild context"
    else if Truthy(status) && Bind(status).None? then ExecError(BindError(status, 2))
    else
      var listed := GuildProjects(projects, guildId, StatusFilter(status));
      if listed == [] then "No projects found." else Join(ProjectLines(listed), "\n")
  }

  /** What `_get_projects` answers: the guild and binding errors, "No projects found." exactly when no project
      of the guild has the status, and otherwise the project lines joined, each listed project's line among them. */
  lemma GetProjectsReplyCases(projects: seq<ProjectRow>, guildId: int, status: Json)
    ensures var r := GetProjectsReply(projects, guildId, status);
      guildId == 0 ==> r == "Error: No guild context"
    ensures var r := GetProjectsReply(projects, guildId, status);
      guildId != 0 && Truthy(status) && Bind(status).None? ==> r == ExecError(BindError(status, 2))
    ensures var r := GetProjectsReply(projects, guildId, status);
      guildId != 0 && (!Truthy(status) || Bind(status).Some?) ==>
      (r == "No projects found." <==> GuildProjects(projects, guildId, StatusFilter(status)) == [])
    ensures var r := GetProjectsReply(projects, guildId, status);
      guildId != 0 && (!Truthy(status) || Bind(status).Some?) ==>
      forall p :: p in GuildProjects(projects, guildId, StatusFilter(status)) ==> Contains(r, ProjectLine(p))
    ensures var r := GetProjectsReply(projects, guildId, status);
      guildId != 0 && (!Truthy(status) || Bind(status).Some?) && GuildProjects(projects, guildId, StatusFilter(status)) != [] ==>
      r == Join(ProjectLines(GuildProjects(projects, guildId, StatusFilter(status))), "\n")
  {
    if guildId != 0 && (!Truthy(status) || Bind(status).Some?) {
      ProjectLinesShow(GuildProjects(projects, guildId, StatusFilter(status)));
    }
  }

  /** The joined lines of a non-empty listing are not the empty-listing message and show every project. */
  lemma ProjectLinesShow(listed: seq<ProjectRow>)
    ensures listed != [] ==> Join(ProjectLines(listed), "\n") != "No projects found."
    ensures forall p :: p in listed ==> Contains(Join(ProjectLines(listed), "\n"), ProjectLine(p))
  {
    if listed != [] {
      var r := Join(ProjectLines(listed), "\n");
      JoinStartsWithFirst(ProjectLines(listed), "\n");
      assert r[0] == 'I';
      forall p | p in listed ensures Contains(r, ProjectLine(p)) {
        var k :| 0 <= k < |listed| && listed[k] == p;
        JoinContainsPart(ProjectLines(listed), "\n", k);
      }
    }
  }

  /** The lines of `_get_project_info` for a project and its tasks. */
  function ProjectInfoLines(p: ProjectRow, ts: seq<TaskRow>): (r: seq<string>)
    ensures |r| == if ts == [] then 5 else 6 + |ts|
    ensures r[0] == "**" + p.title + "** (ID: " + IntToString(p.id) + ")"
    ensures r[1] == "Status: " + p.status
    ensures r[4] == "Tasks: " + Progress(ts)
    ensures ts != [] ==> r[6..] == TaskLines(ts)
  {
    var head := [ "**" + p.title + "** (ID: " + IntToString(p.id) + ")",
      "Status: " + p.status,
      "Description: " + (if p.description.Some? && p.description.value != [] then p.description.value else "No description"),
      "Created: " + p.createdAt,
      "Tasks: " + Progress(ts) ];
    var tail := if ts == [] then [] else ["\nTask List:"] + TaskLines(ts);
    SplitAppend(head, tail);
    SplitAppend(["\nTask List:"], TaskLines(ts));
    head + tail
  }

  /** Lines that hold the task lines from `start` on, joined, contain the line of every task. */
  lemma TaskLinesJoined(lines: seq<string>, start: nat, ts: seq<TaskRow>)
    requires start + |ts| <= |lines| && lines[start..start + |ts|] == TaskLines(ts)
    ensures forall k :: 0 <= k < |ts| ==> Contains(Join(lines, "\n"), TaskLine(ts[k]))
  {
    forall k | 0 <= k < |ts| ensures Contains(Join(lines, "\n"), TaskLine(ts[k])) {
      TaskLineAt(lines, start, ts, k);
    }
  }

  /** The line at `start + k` is the line of the `k`-th task, so the joined lines contain it. */
  lemma TaskLineAt(lines: seq<string>, start: nat, ts: seq<TaskRow>, k: nat)
    requires start + |ts| <= |lines| && lines[start..start + |ts|] == TaskLines(ts)
    requires k < |ts|
    ensures lines[start + k] == TaskLine(ts[k])
    ensures Contains(Join(lines, "\n"), TaskLine(ts[k]))
  {
    assert lines[start + k] == lines[start..start + |ts|][k];
    JoinContainsPart(lines, "\n", start + k);
  }

  /** The text `_get_project_info` answers for a project it found. */
  function ProjectInfoText(p: ProjectRow, ts: seq<TaskRow>): string {
    Join(ProjectInfoLines(p, ts), "\n")
  }

  /** The answer starts with the project's heading and shows its progress and every task. */
  lemma ProjectInfoTextShows(p: ProjectRow, ts: seq<TaskRow>)
    ensures StartsWith(ProjectInfoText(p, ts), "**" + p.title + "** (ID: " + IntToString(p.id) + ")")
    ensures Contains(ProjectInfoText(p, ts), "Tasks: " + Progress(ts))
    ensures forall k :: 0 <= k < |ts| ==> Contains(ProjectInfoText(p, ts), TaskLine(ts[k]))
  {
    var lines := ProjectInfoLines(p, ts);
    JoinStartsWithFirst(lines, "\n");
    JoinContainsPart(lines, "\n", 4);
    TaskLinesJoined(lines, |lines| - |ts|, ts);
  }

  /** `_get_project_info`: any existing project, whichever guild it belongs to, with its progress and task list. */
  function ProjectInfoReply(projects: seq<ProjectRow>, tasks: seq<TaskRow>, projectId: Json): string {
    match LookupProject(projects, projectId)
    case NoArg => "Error: Missing project_id"
    case ArgError(e) => ExecError(e)
    case NoSuch => NotFound("Project", projectId)
    case Got(p) => ProjectInfoText(p, ProjectTasks(tasks, p.id))
  }

  function TasksLines(p: ProjectRow, ts: seq<TaskRow>): (r: seq<string>)
    ensures |r| == |ts| + 2
    ensures r[0] == "Tasks for **" + p.title + "**:"
    ensures r[|r| - 1] == "\nProgress: " + Progress(ts)
    ensures r[1..|r| - 1] == TaskLines(ts)
  {
    var r := ["Tasks for **" + p.title + "**:"] + TaskLines(ts) + ["\nProgress: " + Progress(ts)];
    assert r[1..|r| - 1] == TaskLines(ts);
    r
  }

  /** The text `_get_tasks` answers for a project it found: its tasks with their marks, then the progress line. */
  function TasksText(p: ProjectRow, ts: seq<TaskRow>): string {
    if ts == [] then "No tasks found for project '" + p.title + "'."
    else Join(TasksLines(p, ts), "\n")
  }

  /** Without tasks the answer says so; otherwise it starts with the heading and shows every task and the progress. */
  lemma TasksTextShows(p: ProjectRow, ts: seq<TaskRow>)
    ensures ts == [] ==> TasksText(p, ts) == "No tasks found for project '" + p.title + "'."
    ensures ts != [] ==> StartsWith(TasksText(p, ts), "Tasks for **" + p.title + "**:")
    ensures ts != [] ==> Contains(TasksText(p, ts), "\nProgress: " + Progress(ts))
    ensures forall k :: 0 <= k < |ts| ==> Contains(TasksText(p, ts), TaskLine(ts[k]))
  {
    if ts != [] {
      var lines := TasksLines(p, ts);
      JoinStartsWithFirst(lines, "\n");
      JoinContainsPart(lines, "\n", |lines| - 1);
      TaskLinesJoined(lines, 1, ts);
    }
  }

  /** What `_create_project` answers once the row is stored: the title as given and the new id, twice. */
  function ProjectCreated(title: string, id: int): string {
    "Project '" + title + "' created successfully! ID: " + IntToString(id)
      + ". You can now add tasks to this project using create_task with project_id=" + IntToString(id) + "."
  }

  /** `_get_tasks`: any existing project, whichever guild it belongs to. */
  function TasksReply(projects: seq<ProjectRow>, tasks: seq<TaskRow>, projectId: Json): string {
    match LookupProject(projects, projectId)
    case NoArg => "Error: Missing project_id"
    case ArgError(e) => ExecError(e)
    case NoSuch => NotFound("Project", projectId)
    case Got(p) => TasksText(p, ProjectTasks(tasks, p.id))
  }

  /** The idea pool `_get_ideas` lists when the guild has ideas to show. */
  function IdeasText(listed: seq<IdeaRow>): string {
    Join(["**Idea Pool:**"] + IdeaLines(listed), "\n")
  }

  /** The listing starts with its heading and shows every idea. */
  lemma IdeasTextShows(listed: seq<IdeaRow>)
    ensures StartsWith(IdeasText(listed), "**Idea Pool:**")
    ensures forall i :: i in listed ==> Contains(IdeasText(listed), IdeaLine(i))
  {
    var lines := ["**Idea Pool:**"] + IdeaLines(listed);
    JoinStartsWithFirst(lines, "\n");
    forall i | i in listed ensures Contains(IdeasText(listed), IdeaLine(i)) {
      var k :| 0 <= k < |listed| && listed[k] == i;
      assert lines[1 + k] == IdeaLine(i);
      JoinContainsPart(lines, "\n", 1 + k);
    }
  }

  /** `_get_ideas`: the guild's ideas (only unused ones when the flag is truthy), newest first. */
  function IdeasReply(ideas: seq<IdeaRow>, guildId: int, unusedOnly: Json): string {
    if guildId == 0 then "Error: No guild context"
    else
      var listed := GuildIdeas(ideas, guildId, Truthy(unusedOnly));
      if listed == [] then "No ideas" + (if Truthy(unusedOnly) then " (unused)" else "") + " found in the idea pool."
      else IdeasText(listed)
  }

  /** With the flag set, no idea a project has used is listed. */
  lemma UnusedIdeasOnly(ideas: seq<IdeaRow>, guildId: int, unusedOnly: Json)
    requires Truthy(unusedOnly)
    ensures forall i :: i in GuildIdeas(ideas, guildId, Truthy(unusedOnly)) ==> !IdeaUsed(i) && i.guildId == guildId
  {
    var listed := GuildIdeas(ideas, guildId, Truthy(unusedOnly));
    forall i | i in listed ensures !IdeaUsed(i) && i.guildId == guildId {
      var k :| 0 <= k < |listed| && listed[k] == i;
    }
  }

  // ---------------- the executor ----------------

  /** Arguments and context of one tool call. */
  function Arg(args: map<string, Json>, key: string): Json {
    Get(args, key, JNull)
  }

  // ---------------- what a call does to the tables ----------------

  /** What a tool call answers, and the tables it leaves behind. */
  datatype ToolAnswer = ToolAnswer(reply: string, tables: Tables)

  /** A reply that begins with any letter but 'E' is not an error report. */
  lemma NotAnError(reply: string)
    requires reply != [] && reply[0] != 'E'
    ensures !StartsWith(reply, "Error")
  {
  }

  /** `_create_project` on the tables. */
  function CreateProjectOutcome(t: Tables, guildId: int, userId: int, title: Json, description: Json, now: string): (r: ToolAnswer)
    ensures r.tables.(projects := t.projects, nextProjectId := t.nextProjectId) == t
    ensures r.tables.nextProjectId == t.nextProjectId || r.tables.nextProjectId == t.nextProjectId + 1
    ensures StartsWith(r.reply, "Error") ==> r.tables == t
  {
    if guildId == 0 then ToolAnswer("Error: No guild context", t)
    else if !Truthy(title) then ToolAnswer("Error: Missing project title", t)
    else if Bind(title).None? then ToolAnswer(ExecError(BindError(title, 2)), t)
    else if Bind(description).None? then ToolAnswer(ExecError(BindError(description, 3)), t)
    else
      var id := t.nextProjectId;
      var reply := ProjectCreated(PyStr(title), id);
      NotAnError(reply);
      ToolAnswer(reply,
        t.(projects := t.projects + [NewProject(id, guildId, userId, title, description, now)], nextProjectId := id + 1))
  }

  /** The row `_create_project` inserts: the title and description as SQLite stores them, the author as sole owner. */
  function NewProject(id: int, guildId: int, userId: int, title: Json, description: Json, now: string): ProjectRow
    requires Truthy(title) && Bind(title).Some? && Bind(description).Some?
  {
    ProjectRow(id, guildId, TextValue(Bind(title).value).value, TextValue(Bind(description).value),
               if userId != 0 then [userId] else [], "active", now, None)
  }

  /** A project call that passes every check appends the project with the next id and names that id. */
  lemma ProjectStored(t: Tables, guildId: int, userId: int, title: Json, description: Json, now: string)
    requires guildId != 0 && Truthy(title) && Bind(title).Some? && Bind(description).Some?
    ensures CreateProjectOutcome(t, guildId, userId, title, description, now) ==
      ToolAnswer(ProjectCreated(PyStr(title), t.nextProjectId),
        t.(projects := t.projects + [ProjectRow(t.nextProjectId, guildId, TextValue(Bind(title).value).value,
             TextValue(Bind(description).value), if userId != 0 then [userId] else [], "active", now, None)],
           nextProjectId := t.nextProjectId + 1))
  {
  }

  /** `_archive_project` on the tables. */
  function ArchiveProjectOutcome(t: Tables, projectId: Json, now: string): (r: ToolAnswer)
    ensures r.tables.(projects := t.projects) == t
    ensures StartsWith(r.reply, "Error") ==> r.tables == t
  {
    match LookupProject(t.projects, projectId)
    case NoArg => ToolAnswer("Error: Missing project_id", t)
    case ArgError(e) => ToolAnswer(ExecError(e), t)
    case NoSuch => ToolAnswer(NotFound("Project", projectId), t)
    case Got(p) =>
      if p.status == "archived" then ToolAnswer("Project '" + p.title + "' is already archived.", t)
      else
        var reply := "Project '" + p.title + "' has been archived.";
        NotAnError(reply);
        ToolAnswer(reply, t.(projects := UpdateRows(t.projects, p.id, ArchiveFields(now))))
  }

  /** `_create_task` on the tables. */
  function CreateTaskOutcome(t: Tables, projectId: Json, caption: Json, userId: int, now: string): (r: ToolAnswer)
    ensures r.tables.(tasks := t.tasks, nextTaskId := t.nextTaskId) == t
    ensures r.tables.nextTaskId == t.nextTaskId || r.tables.nextTaskId == t.nextTaskId + 1
    ensures StartsWith(r.reply, "Error") ==> r.tables == t
  {
    if !Truthy(projectId) || !Truthy(caption) then ToolAnswer("Error: Missing project_id or label", t)
    else match LookupProject(t.projects, projectId)
      case NoArg => ToolAnswer("Error: Missing project_id or label", t)
      case ArgError(e) => ToolAnswer(ExecError(e), t)
      case NoSuch => ToolAnswer(NotFound("Project", projectId), t)
      case Got(p) =>
        if Bind(caption).None? then ToolAnswer(ExecError(BindError(caption, 2)), t)
        else
          var id := t.nextTaskId;
          var row := TaskRow(id, p.id, TextValue(Bind(caption).value).value, false, Some(userId), now);
          var reply := "Task created successfully! ID: " + IntToString(id);
          NotAnError(reply);
          ToolAnswer(reply, t.(tasks := t.tasks + [row], nextTaskId := id + 1))
  }

  /** A task call naming an existing project with a bindable label appends the task with the next id and names that id. */
  lemma TaskStored(t: Tables, projectId: Json, caption: Json, userId: int, now: string)
    requires Truthy(projectId) && Truthy(caption) && LookupProject(t.projects, projectId).Got? && Bind(caption).Some?
    ensures CreateTaskOutcome(t, projectId, caption, userId, now) ==
      ToolAnswer("Task created successfully! ID: " + IntToString(t.nextTaskId),
        t.(tasks := t.tasks + [TaskRow(t.nextTaskId, LookupProject(t.projects, projectId).row.id,
             TextValue(Bind(caption).value).value, false, Some(userId), now)],
           nextTaskId := t.nextTaskId + 1))
  {
  }

  /** `_toggle_task` on the tables. */
  function ToggleTaskOutcome(t: Tables, taskId: Json): (r: ToolAnswer)
    ensures r.tables.(tasks := t.tasks) == t
    ensures StartsWith(r.reply, "Error") ==> r.tables == t
  {
    match LookupTask(t.tasks, taskId)
    case NoArg => ToolAnswer("Error: Missing task_id", t)
    case ArgError(e) => ToolAnswer(ExecError(e), t)
    case NoSuch => ToolAnswer(NotFound("Task", taskId), t)
    case Got(k) =>
      var reply := "Task '" + k.text + "' marked as " + (if !k.isDone then "completed " + Done else "incomplete " + Open);
      NotAnError(reply);
      ToolAnswer(reply, t.(tasks := ToggleRows(t.tasks, k.id)))
  }

  /** `_delete_task` on the tables. */
  function DeleteTaskOutcome(t: Tables, taskId: Json): (r: ToolAnswer)
    ensures r.tables.(tasks := t.tasks) == t
    ensures StartsWith(r.reply, "Error") ==> r.tables == t
  {
    match LookupTask(t.tasks, taskId)
    case NoArg => ToolAnswer("Error: Missing task_id", t)
    case ArgError(e) => ToolAnswer(ExecError(e), t)
    case NoSuch => ToolAnswer(NotFound("Task", taskId), t)
    case Got(k) =>
      var reply := "Task '" + k.text + "' has been deleted.";
      NotAnError(reply);
      ToolAnswer(reply, t.(tasks := Filter(t.tasks, Not(TaskIdIs(k.id)))))
  }

  /** `_add_idea` on the tables. */
  function AddIdeaOutcome(t: Tables, guildId: int, userId: int, title: Json, description: Json, now: string): (r: ToolAnswer)
    ensures r.tables.(ideas := t.ideas, nextIdeaId := t.nextIdeaId) == t
    ensures r.tables.nextIdeaId == t.nextIdeaId || r.tables.nextIdeaId == t.nextIdeaId + 1
    ensures StartsWith(r.reply, "Error") ==> r.tables == t
  {
    if guildId == 0 then ToolAnswer("Error: No guild context", t)
    else if Bind(title).None? then ToolAnswer(ExecError(BindError(title, 3)), t)
    else if Bind(description).None? then ToolAnswer(ExecError(BindError(description, 4)), t)
    else if title == JNull then ToolAnswer(ExecError(NotNull("ideas", "title")), t)
    else
      var id := t.nextIdeaId;
      var row := IdeaRow(id, guildId, userId, TextValue(Bind(title).value).value, TextValue(Bind(description).value), None, now);
      var reply := "Idea added! ID: " + IntToString(id);
      NotAnError(reply);
      ToolAnswer(reply, t.(ideas := t.ideas + [row], nextIdeaId := id + 1))
  }

  /** An idea call with a guild and a bindable, non-null title and description appends the idea with the next id. */
  lemma IdeaStored(t: Tables, guildId: int, userId: int, title: Json, description: Json, now: string)
    requires guildId != 0 && Bind(title).Some? && title != JNull && Bind(description).Some?
    ensures AddIdeaOutcome(t, guildId, userId, title, description, now) ==
      ToolAnswer("Idea added! ID: " + IntToString(t.nextIdeaId),
        t.(ideas := t.ideas + [IdeaRow(t.nextIdeaId, guildId, userId, TextValue(Bind(title).value).value,
             TextValue(Bind(description).value), None, now)],
           nextIdeaId := t.nextIdeaId + 1))
  {
  }

  /** `_delete_idea` on the tables. */
  function DeleteIdeaOutcome(t: Tables, ideaId: Json): (r: ToolAnswer)
    ensures r.tables.(ideas := t.ideas) == t
    ensures StartsWith(r.reply, "Error") ==> r.tables == t
  {
    match LookupIdea(t.ideas, ideaId)
    case NoArg => ToolAnswer("Error: Missing idea_id", t)
    case ArgError(e) => ToolAnswer(ExecError(e), t)
    case NoSuch => ToolAnswer(NotFound("Idea", ideaId), t)
    case Got(i) =>
      var reply := "Idea '" + i.title + "' has been deleted.";
      NotAnError(reply);
      ToolAnswer(reply, t.(ideas := Filter(t.ideas, Not(IdeaIdIs(i.id)))))
  }

  /** The executor a tool runs, on the tables: the four listing tools change nothing, and each tool that
      writes touches only its own table and may only advance that table's id counter, by one. */
  function Dispatch(tool: Tool, a: map<string, Json>, t: Tables, guildId: int, userId: int, now: string): (r: ToolAnswer)
    ensures tool.GetProjects? || tool.GetProjectInfo? || tool.GetTasks? || tool.GetIdeas? ==> r.tables == t
    ensures !tool.CreateProject? && !tool.ArchiveProject? ==> r.tables.projects == t.projects
    ensures !tool.CreateTask? && !tool.ToggleTask? && !tool.DeleteTask? ==> r.tables.tasks == t.tasks
    ensures !tool.AddIdea? && !tool.DeleteIdea? ==> r.tables.ideas == t.ideas
    ensures r.tables.nextProjectId == t.nextProjectId || (tool.CreateProject? && r.tables.nextProjectId == t.nextProjectId + 1)
    ensures r.tables.nextTaskId == t.nextTaskId || (tool.CreateTask? && r.tables.nextTaskId == t.nextTaskId + 1)
    ensures r.tables.nextIdeaId == t.nextIdeaId || (tool.AddIdea? && r.tables.nextIdeaId == t.nextIdeaId + 1)
    ensures StartsWith(r.reply, "Error") ==> r.tables == t
  {
    match tool
    case GetProjects => ToolAnswer(GetProjectsReply(t.projects, guildId, Arg(a, "status")), t)
    case CreateProject => CreateProjectOutcome(t, guildId, userId, Arg(a, "title"), Arg(a, "description"), now)
    case GetProjectInfo => ToolAnswer(ProjectInfoReply(t.projects, t.tasks, Arg(a, "project_id")), t)
    case ArchiveProject => ArchiveProjectOutcome(t, Arg(a, "project_id"), now)
    case CreateTask => CreateTaskOutcome(t, Arg(a, "project_id"), Arg(a, "label"), userId, now)
    case GetTasks => ToolAnswer(TasksReply(t.projects, t.tasks, Arg(a, "project_id")), t)
    case ToggleTask => ToggleTaskOutcome(t, Arg(a, "task_id"))
    case DeleteTask => DeleteTaskOutcome(t, Arg(a, "task_id"))
    case AddIdea => AddIdeaOutcome(t, guildId, userId, Arg(a, "title"), Arg(a, "description"), now)
    case GetIdeas => ToolAnswer(IdeasReply(t.ideas, guildId, Get(a, "unused_only", JBool(false))), t)
    case DeleteIdea => DeleteIdeaOutcome(t, Arg(a, "idea_id"))
  }

  /** `execute_tool` on the tables: an unknown name and arguments that are not an object are reported without
      touching anything; a known tool's call does what its executor does. */
  function ToolOutcome(name: string, args: Json, t: Tables, guildId: int, userId: int, now: string): (r: ToolAnswer)
    ensures ToolNamed(name).None? ==> r == ToolAnswer("Error: Unknown tool '" + name + "'", t)
    ensures ToolNamed(name).Some? && !args.JObject? ==> r == ToolAnswer("Error executing tool: " + NoGetMessage(args), t)
    ensures r.tables.nextProjectId >= t.nextProjectId && r.tables.nextTaskId >= t.nextTaskId && r.tables.nextIdeaId >= t.nextIdeaId
    ensures StartsWith(r.reply, "Error") ==> r.tables == t
  {
    match ToolNamed(name)
    case None => ToolAnswer("Error: Unknown tool '" + name + "'", t)
    case Some(tool) =>
      if !args.JObject? then ToolAnswer("Error executing tool: " + NoGetMessage(args), t)
      else Dispatch(tool, args.fields, t, guildId, userId, now)
  }

  /** `execute_tool` with the guild, the author and the clock of one message fixed: the tool's name, its
      arguments and the tables before the call give the reply and the tables after it. */
  type ToolRun = (string, Json, Tables) -> ToolAnswer

  /** The tool runner for a message from `userId` in `guildId` handled at `now`. */
  function Executor(guildId: int, userId: int, now: string): ToolRun {
    (name: string, args: Json, t: Tables) => ToolOutcome(name, args, t, guildId, userId, now)
  }

  /** Toggling the same task twice restores the task table, and the second answer reports the status the
      task had before the first. */
  lemma ToggleTaskTwice(t: Tables, taskId: Json)
    ensures ToggleTaskOutcome(ToggleTaskOutcome(t, taskId).tables, taskId).tables == t
    ensures LookupTask(t.tasks, taskId).Got? ==>
      var k := LookupTask(t.tasks, taskId).row;
      ToggleTaskOutcome(ToggleTaskOutcome(t, taskId).tables, taskId).reply
        == "Task '" + k.text + "' marked as " + (if k.isDone then "completed " + Done else "incomplete " + Open)
  {
    var l := LookupTask(t.tasks, taskId);
    if l.Got? {
      var key := KeyOf(taskId).value;
      var once := ToggleTaskOutcome(t, taskId).tables;
      assert once.tasks == ToggleRows(t.tasks, key);
      ToggleEffect(t.tasks, key, key);
      var l2 := LookupTask(once.tasks, taskId);
      assert l2 == Got(l.row.(isDone := !l.row.isDone));
      ToggleTwice(t.tasks, key);
    }
  }

  /** The id `create_project` names finds the new project: `get_project_info` with that id answers with the
      project just stored, given that every stored id is below the next one and that the id fits SQLite's
      INTEGER. */
  lemma CreatedProjectFound(t: Tables, guildId: int, userId: int, title: Json, description: Json, now: string)
    requires guildId != 0 && Truthy(title) && Bind(title).Some? && Bind(description).Some?
    requires 0 < t.nextProjectId <= MaxInt64
    requires forall i :: 0 <= i < |t.projects| ==> t.projects[i].id < t.nextProjectId
    ensures var after := CreateProjectOutcome(t, guildId, userId, title, description, now).tables;
      var id := t.nextProjectId;
      && LookupProject(after.projects, JInt(id)) == Got(after.projects[|after.projects| - 1])
      && after.projects[|after.projects| - 1].id == id
      && ProjectInfoReply(after.projects, after.tasks, JInt(id))
         == ProjectInfoText(after.projects[|after.projects| - 1], ProjectTasks(t.tasks, id))
  {
    ProjectStored(t, guildId, userId, title, description, now);
    var after := CreateProjectOutcome(t, guildId, userId, title, description, now).tables;
    var id := t.nextProjectId;
    var row := after.projects[|after.projects| - 1];
    assert after.projects == t.projects + [row];
    FindAppend(t.projects, row, ProjectIdIs(id));
    assert GetProject(t.projects, id).None?;
    assert GetProject(after.projects, id) == Some(row);
    assert KeyOf(JInt(id)) == Some(id);
  }

  /** The id `create_task` names finds the new open task, and `get_tasks` on its project lists it, given that
      every stored task id is below the next one and that the id fits SQLite's INTEGER. */
  lemma CreatedTaskListed(t: Tables, projectId: Json, caption: Json, userId: int, now: string)
    requires Truthy(projectId) && Truthy(caption) && LookupProject(t.projects, projectId).Got? && Bind(caption).Some?
    requires 0 < t.nextTaskId <= MaxInt64
    requires forall i :: 0 <= i < |t.tasks| ==> t.tasks[i].id < t.nextTaskId
    ensures var after := CreateTaskOutcome(t, projectId, caption, userId, now).tables;
      && |after.tasks| == |t.tasks| + 1
      && var row := after.tasks[|t.tasks|];
      && row.id == t.nextTaskId && row.projectId == LookupProject(t.projects, projectId).row.id && !row.isDone
      && LookupTask(after.tasks, JInt(t.nextTaskId)) == Got(row)
      && Contains(TasksReply(after.projects, after.tasks, projectId), TaskLine(row))
  {
    TaskStored(t, projectId, caption, userId, now);
    var after := CreateTaskOutcome(t, projectId, caption, userId, now).tables;
    var row := after.tasks[|t.tasks|];
    assert after.tasks == t.tasks + [row];
    NewTaskFound(t.tasks, row);
    var p := LookupProject(t.projects, projectId).row;
    assert LookupProject(after.projects, projectId) == Got(p);
    TaskShownUnderProject(p, after.tasks, |t.tasks|);
  }

  /** A task appended with an id above every stored one is what a lookup of that id finds. */
  lemma NewTaskFound(tasks: seq<TaskRow>, row: TaskRow)
    requires 0 < row.id <= MaxInt64
    requires forall i :: 0 <= i < |tasks| ==> tasks[i].id < row.id
    ensures LookupTask(tasks + [row], JInt(row.id)) == Got(row)
  {
    FindAppend(tasks, row, TaskIdIs(row.id));
    assert GetTask(tasks, row.id).None?;
    assert GetTask(tasks + [row], row.id) == Some(row);
    assert KeyOf(JInt(row.id)) == Some(row.id);
  }

  /** `get_tasks` on a project shows the line of every task stored under it. */
  lemma TaskShownUnderProject(p: ProjectRow, tasks: seq<TaskRow>, i: nat)
    requires i < |tasks| && tasks[i].projectId == p.id
    ensures Contains(TasksText(p, ProjectTasks(tasks, p.id)), TaskLine(tasks[i]))
  {
    var ts := ProjectTasks(tasks, p.id);
    assert tasks[i] in ts;
    var k :| 0 <= k < |ts| && ts[k] == tasks[i];
    TasksTextShows(p, ts);
  }

  /** The idea `add_idea` stores is unused, so `get_ideas` lists it for its guild, with or without `unused_only`. */
  lemma AddedIdeaListed(t: Tables, guildId: int, userId: int, title: Json, description: Json, now: string, unusedOnly: Json)
    requires guildId != 0 && Bind(title).Some? && title != JNull && Bind(description).Some?
    ensures var after := AddIdeaOutcome(t, guildId, userId, title, description, now).tables;
      && |after.ideas| == |t.ideas| + 1
      && var row := after.ideas[|t.ideas|];
      && row.id == t.nextIdeaId && row.guildId == guildId && !IdeaUsed(row)
      && Contains(IdeasReply(after.ideas, guildId, unusedOnly), IdeaLine(row))
  {
    IdeaStored(t, guildId, userId, title, description, now);
    var after := AddIdeaOutcome(t, guildId, userId, title, description, now).tables;
    var row := after.ideas[|t.ideas|];
    var listed := GuildIdeas(after.ideas, guildId, Truthy(unusedOnly));
    assert row in listed;
    IdeasTextShows(listed);
  }

  /** After `delete_task` the id finds nothing: deleting it again answers "not found" and changes nothing, and
      every other task reads back as before the first delete. */
  lemma DeletedTaskGone(t: Tables, taskId: Json)
    requires LookupTask(t.tasks, taskId).Got?
    ensures var once := DeleteTaskOutcome(t, taskId).tables;
      && LookupTask(once.tasks, taskId).NoSuch?
      && DeleteTaskOutcome(once, taskId) == ToolAnswer(NotFound("Task", taskId), once)
      && forall other :: other != KeyOf(taskId).value ==> GetTask(once.tasks, other) == GetTask(t.tasks, other)
  {
    var key := KeyOf(taskId).value;
    var once := DeleteTaskOutcome(t, taskId).tables;
    assert once.tasks == Filter(t.tasks, Not(TaskIdIs(key)));
    DeleteTaskEffect(t.tasks, key, key);
    forall other | other != key ensures GetTask(once.tasks, other) == GetTask(t.tasks, other) {
      DeleteTaskEffect(t.tasks, key, other);
    }
  }

  /** After `delete_idea` the id finds nothing: deleting it again answers "not found" and changes nothing, and
      every other idea reads back as before the first delete. */
  lemma DeletedIdeaGone(t: Tables, ideaId: Json)
    requires LookupIdea(t.ideas, ideaId).Got?
    ensures var once := DeleteIdeaOutcome(t, ideaId).tables;
      && LookupIdea(once.ideas, ideaId).NoSuch?
      && DeleteIdeaOutcome(once, ideaId) == ToolAnswer(NotFound("Idea", ideaId), once)
      && forall other :: other != KeyOf(ideaId).value ==> GetIdea(once.ideas, other) == GetIdea(t.ideas, other)
  {
    var key := KeyOf(ideaId).value;
    var once := DeleteIdeaOutcome(t, ideaId).tables;
    assert once.ideas == Filter(t.ideas, Not(IdeaIdIs(key)));
    DeleteIdeaEffect(t.ideas, key, key);
    forall other | other != key ensures GetIdea(once.ideas, other) == GetIdea(t.ideas, other) {
      DeleteIdeaEffect(t.ideas, key, other);
    }
  }

  /** Archiving a project leaves it archived: a second `archive_project` answers "already archived" without
      writing, and `get_project_info` shows "Status: archived". */
  lemma ArchiveTwice(t: Tables, projectId: Json, now: string)
    requires LookupProject(t.projects, projectId).Got?
    ensures var p := LookupProject(t.projects, projectId).row;
      var once := ArchiveProjectOutcome(t, projectId, now).tables;
      && ArchiveProjectOutcome(once, projectId, now) == ToolAnswer("Project '" + p.title + "' is already archived.", once)
      && Contains(ProjectInfoReply(once.projects, once.tasks, projectId), "Status: archived")
  {
    var p := LookupProject(t.projects, projectId).row;
    var key := KeyOf(projectId).value;
    var once := ArchiveProjectOutcome(t, projectId, now).tables;
    ArchiveEffect(t.projects, key, now, key);
    var q := if p.status == "archived" then p else p.(status := "archived", archivedAt := Some(now));
    assert GetProject(once.projects, key) == Some(q);
    assert LookupProject(once.projects, projectId) == Got(q);
    ArchivedShown(q, ProjectTasks(once.tasks, q.id));
  }

  /** `get_project_info` on an archived project says so on its second line. */
  lemma ArchivedShown(q: ProjectRow, ts: seq<TaskRow>)
    requires q.status == "archived"
    ensures Contains(ProjectInfoText(q, ts), "Status: archived")
  {
    var lines := ProjectInfoLines(q, ts);
    assert lines[1] == "Status: archived";
    JoinContainsPart(lines, "\n", 1);
  }

  class ToolExecutor {
    const db: Store

    constructor (db: Store)
      ensures this.db == db
    {
      this.db := db;
    }

    /** `_create_project`: needs a guild and a truthy title; the caller (if any) becomes the owner. */
    method CreateProjectTool(guildId: int, userId: int, title: Json, description: Json, now: string) returns (r: string)
      requires db.Valid()
      modifies db`projects, db`nextProjectId
      ensures db.Valid()
      ensures ToolAnswer(r, db.Snapshot()) == CreateProjectOutcome(old(db.Snapshot()), guildId, userId, title, description, now)
    {
      if guildId == 0 {
        return "Error: No guild context";
      }
      if !Truthy(title) {
        return "Error: Missing project title";
      }
      var t := BindAt(title, 2);
      if t.Failure? {
        return ExecError(t.error);
      }
      var d := BindAt(description, 3);
      if d.Failure? {
        return ExecError(d.error);
      }
      r := StoreProject(guildId, userId, title, description, now);
    }

    /** The `create_project` call of `_create_project` once the arguments are checked and bound. */
    method StoreProject(guildId: int, userId: int, title: Json, description: Json, now: string) returns (r: string)
      requires guildId != 0 && Truthy(title) && Bind(title).Some? && Bind(description).Some?
      requires db.Valid()
      modifies db`projects, db`nextProjectId
      ensures db.Valid()
      ensures ToolAnswer(r, db.Snapshot()) == CreateProjectOutcome(old(db.Snapshot()), guildId, userId, title, description, now)
    {
      ProjectStored(db.Snapshot(), guildId, userId, title, description, now);
      var owners := if userId != 0 then [userId] else [];
      var created := db.CreateProject(guildId, TextValue(Bind(title).value), TextValue(Bind(description).value), owners, now);
      r := ProjectCreated(PyStr(title), created.value);
    }

    /** `_archive_project`: any existing project; an archived one is reported and left alone. */
    method ArchiveProjectTool(projectId: Json, now: string) returns (r: string)
      requires db.Valid()
      modifies db`projects
      ensures db.Valid()
      ensures ToolAnswer(r, db.Snapshot()) == ArchiveProjectOutcome(old(db.Snapshot()), projectId, now)
    {
      var l := LookupProject(db.projects, projectId);
      match l
      case NoArg => return "Error: Missing project_id";
      case ArgError(e) => return ExecError(e);
      case NoSuch => return NotFound("Project", projectId);
      case Got(p) =>
        if p.status == "archived" {
          return "Project '" + p.title + "' is already archived.";
        }
        var _ := db.ArchiveProject(p.id, now);
        return "Project '" + p.title + "' has been archived.";
    }

    /** `_create_task`: needs a truthy project id and label and an existing project, in any guild. */
    method CreateTaskTool(projectId: Json, caption: Json, userId: int, now: string) returns (r: string)
      requires db.Valid()
      modifies db`tasks, db`nextTaskId
      ensures db.Valid()
      ensures ToolAnswer(r, db.Snapshot()) == CreateTaskOutcome(old(db.Snapshot()), projectId, caption, userId, now)
    {
      if !Truthy(projectId) || !Truthy(caption) {
        return "Error: Missing project_id or label";
      }
      var l := LookupProject(db.projects, projectId);
      match l
      case NoArg => return "Error: Missing project_id or label";
      case ArgError(e) => return ExecError(e);
      case NoSuch => return NotFound("Project", projectId);
      case Got(p) =>
        var b := BindAt(caption, 2);
        if b.Failure? {
          return ExecError(b.error);
        }
        r := StoreTask(projectId, caption, userId, now);
    }

    /** The `create_task` call of `_create_task` once the project is found and the label bound. */
    method StoreTask(projectId: Json, caption: Json, userId: int, now: string) returns (r: string)
      requires Truthy(projectId) && Truthy(caption) && LookupProject(db.projects, projectId).Got? && Bind(caption).Some?
      requires db.Valid()
      modifies db`tasks, db`nextTaskId
      ensures db.Valid()
      ensures ToolAnswer(r, db.Snapshot()) == CreateTaskOutcome(old(db.Snapshot()), projectId, caption, userId, now)
    {
      TaskStored(db.Snapshot(), projectId, caption, userId, now);
      var p := LookupProject(db.projects, projectId).row;
      var created := db.CreateTask(p.id, TextValue(Bind(caption).value), Some(userId), now);
      r := "Task created successfully! ID: " + IntToString(created.value);
    }

    /** `_toggle_task`: flips an existing task and reports the opposite of the status it had. */
    method ToggleTaskTool(taskId: Json) returns (r: string)
      requires db.Valid()
      modifies db`tasks
      ensures db.Valid()
      ensures ToolAnswer(r, db.Snapshot()) == ToggleTaskOutcome(old(db.Snapshot()), taskId)
    {
      var l := LookupTask(db.tasks, taskId);
      match l
      case NoArg => return "Error: Missing task_id";
      case ArgError(e) => return ExecError(e);
      case NoSuch => return NotFound("Task", taskId);
      case Got(t) =>
        var _ := db.ToggleTask(t.id);
        return "Task '" + t.text + "' marked as " + (if !t.isDone then "completed " + Done else "incomplete " + Open);
    }

    /** `_delete_task`: removes an existing task, in any guild. */
    method DeleteTaskTool(taskId: Json) returns (r: string)
      requires db.Valid()
      modifies db`tasks
      ensures db.Valid()
      ensures ToolAnswer(r, db.Snapshot()) == DeleteTaskOutcome(old(db.Snapshot()), taskId)
    {
      var l := LookupTask(db.tasks, taskId);
      match l
      case NoArg => return "Error: Missing task_id";
      case ArgError(e) => return ExecError(e);
      case NoSuch => return NotFound("Task", taskId);
      case Got(t) =>
        var _ := db.DeleteTask(t.id);
        return "Task '" + t.text + "' has been deleted.";
    }

    /** `_add_idea`: needs a guild; the title is not checked here, so a missing one fails the NOT NULL constraint. */
    method AddIdeaTool(guildId: int, userId: int, title: Json, description: Json, now: string) returns (r: string)
      requires db.Valid()
      modifies db`ideas, db`nextIdeaId
      ensures db.Valid()
      ensures ToolAnswer(r, db.Snapshot()) == AddIdeaOutcome(old(db.Snapshot()), guildId, userId, title, description, now)
    {
      if guildId == 0 {
        return "Error: No guild context";
      }
      var t := BindAt(title, 3);
      if t.Failure? {
        return ExecError(t.error);
      }
      var d := BindAt(description, 4);
      if d.Failure? {
        return ExecError(d.error);
      }
      r := StoreIdea(guildId, userId, title, description, now);
    }

    /** The `create_idea` call of `_add_idea` once title and description are bound. */
    method StoreIdea(guildId: int, userId: int, title: Json, description: Json, now: string) returns (r: string)
      requires guildId != 0 && Bind(title).Some? && Bind(description).Some?
      requires db.Valid()
      modifies db`ideas, db`nextIdeaId
      ensures db.Valid()
      ensures ToolAnswer(r, db.Snapshot()) == AddIdeaOutcome(old(db.Snapshot()), guildId, userId, title, description, now)
    {
      if title != JNull {
        IdeaStored(db.Snapshot(), guildId, userId, title, description, now);
      }
      var created := db.CreateIdea(guildId, userId, TextValue(Bind(title).value), TextValue(Bind(description).value), now);
      match created
      case Failure(e) => return ExecError(e);
      case Success(id) => return "Idea added! ID: " + IntToString(id);
    }

    /** `_delete_idea`: removes an existing idea, in any guild. */
    method DeleteIdeaTool(ideaId: Json) returns (r: string)
      requires db.Valid()
      modifies db`ideas
      ensures db.Valid()
      ensures ToolAnswer(r, db.Snapshot()) == DeleteIdeaOutcome(old(db.Snapshot()), ideaId)
    {
      var l := LookupIdea(db.ideas, ideaId);
      match l
      case NoArg => return "Error: Missing idea_id";
      case ArgError(e) => return ExecError(e);
      case NoSuch => return NotFound("Idea", ideaId);
      case Got(i) =>
        var _ := db.DeleteIdea(i.id);
        return "Idea '" + i.title + "' has been deleted.";
    }

    /** The project branches of `execute_tool`. */
    method RunProjectTool(tool: Tool, a: map<string, Json>, guildId: int, userId: int, now: string) returns (r: string)
      requires tool.GetProjects? || tool.CreateProject? || tool.GetProjectInfo? || tool.ArchiveProject?
      requires db.Valid()
      modifies db`projects, db`nextProjectId
      ensures db.Valid()
      ensures ToolAnswer(r, db.Snapshot()) == Dispatch(tool, a, old(db.Snapshot()), guildId, userId, now)
      ensures tool == GetProjects ==> r == GetProjectsReply(db.projects, guildId, Arg(a, "status")) && unchanged(db)
      ensures tool == GetProjectInfo ==> r == ProjectInfoReply(db.projects, db.tasks, Arg(a, "project_id")) && unchanged(db)
    {
      match tool
      case GetProjects => r := GetProjectsReply(db.projects, guildId, Arg(a, "status"));
      case CreateProject => r := CreateProjectTool(guildId, userId, Arg(a, "title"), Arg(a, "description"), now);
      case GetProjectInfo => r := ProjectInfoReply(db.projects, db.tasks, Arg(a, "project_id"));
      case ArchiveProject => r := ArchiveProjectTool(Arg(a, "project_id"), now);
    }

    /** The task branches of `execute_tool`. */
    method RunTaskTool(tool: Tool, a: map<string, Json>, guildId: int, userId: int, now: string) returns (r: string)
      requires tool.CreateTask? || tool.GetTasks? || tool.ToggleTask? || tool.DeleteTask?
      requires db.Valid()
      modifies db`tasks, db`nextTaskId
      ensures db.Valid()
      ensures ToolAnswer(r, db.Snapshot()) == Dispatch(tool, a, old(db.Snapshot()), guildId, userId, now)
      ensures tool == GetTasks ==> r == TasksReply(db.projects, db.tasks, Arg(a, "project_id")) && unchanged(db)
    {
      match tool
      case CreateTask => r := CreateTaskTool(Arg(a, "project_id"), Arg(a, "label"), userId, now);
      case GetTasks => r := TasksReply(db.projects, db.tasks, Arg(a, "project_id"));
      case ToggleTask => r := ToggleTaskTool(Arg(a, "task_id"));
      case DeleteTask => r := DeleteTaskTool(Arg(a, "task_id"));
    }

    /** The idea branches of `execute_tool`. */
    method RunIdeaTool(tool: Tool, a: map<string, Json>, guildId: int, userId: int, now: string) returns (r: string)
      requires tool.AddIdea? || tool.GetIdeas? || tool.DeleteIdea?
      requires db.Valid()
      modifies db`ideas, db`nextIdeaId
      ensures db.Valid()
      ensures ToolAnswer(r, db.Snapshot()) == Dispatch(tool, a, old(db.Snapshot()), guildId, userId, now)
      ensures tool == GetIdeas ==> r == IdeasReply(db.ideas, guildId, Get(a, "unused_only", JBool(false))) && unchanged(db)
    {
      match tool
      case AddIdea => r := AddIdeaTool(guildId, userId, Arg(a, "title"), Arg(a, "description"), now);
      case GetIdeas => r := IdeasReply(db.ideas, guildId, Get(a, "unused_only", JBool(false)));
      case DeleteIdea => r := DeleteIdeaTool(Arg(a, "idea_id"));
    }

    /** `execute_tool`: an unknown name is reported; arguments that are not a JSON object fail on `.get`;
        otherwise the named executor runs.  No tool touches memories or conversation history. */
    method ExecuteTool(name: string, args: Json, guildId: int, userId: int, now: string) returns (r: string)
      requires db.Valid()
      modifies db`projects, db`nextProjectId, db`tasks, db`nextTaskId, db`ideas, db`nextIdeaId
      ensures db.Valid()
      ensures db.memories == old(db.memories) && db.history == old(db.history)
      ensures ToolAnswer(r, db.Snapshot()) == ToolOutcome(name, args, old(db.Snapshot()), guildId, userId, now)
      ensures ToolNamed(name).None? ==> r == "Error: Unknown tool '" + name + "'" && unchanged(db)
      ensures ToolNamed(name).Some? && !args.JObject? ==> r == "Error executing tool: " + NoGetMessage(args) && unchanged(db)
      ensures ToolNamed(name) == Some(GetProjects) && args.JObject? ==>
        r == GetProjectsReply(db.projects, guildId, Arg(args.fields, "status")) && unchanged(db)
      ensures ToolNamed(name) == Some(GetIdeas) && args.JObject? ==>
        r == IdeasReply(db.ideas, guildId, Get(args.fields, "unused_only", JBool(false))) && unchanged(db)
    {
      var tool := ToolNamed(name);
      if tool.None? {
        return "Error: Unknown tool '" + name + "'";
      }
      if !args.JObject? {
        return "Error executing tool: " + NoGetMessage(args);
      }
      var t := tool.value;
      if t.GetProjects? || t.CreateProject? || t.GetProjectInfo? || t.ArchiveProject? {
        r := RunProjectTool(t, args.fields, guildId, userId, now);
      } else if t.CreateTask? || t.GetTasks? || t.ToggleTask? || t.DeleteTask? {
        r := RunTaskTool(t, args.fields, guildId, userId, now);
      } else {
        r := RunIdeaTool(t, args.fields, guildId, userId, now);
      }
    }
  }
}
