/**
 * The function-calling schemas offered to the model (OpenAI format), the
 * registry that maps each tool name to its schema, and the two lookups over it.
 */
module ToolSchemas {
  import opened Wrappers

  datatype ParamType = StringParam | IntegerParam | BooleanParam

  /** One entry of a schema's `properties`. */
  datatype Property = Property(name: string, kind: ParamType, description: string, enumValues: seq<string>)

  /** A schema's `parameters`: always of JSON type "object". */
  datatype Parameters = Parameters(kind: string, properties: seq<Property>, required: seq<string>)

  datatype FunctionSpec = FunctionSpec(name: string, description: string, parameters: Parameters)

  /** `{"type": "function", "function": {...}}`. */
  datatype ToolSchema = ToolSchema(kind: string, spec: FunctionSpec)

  function Tool(name: string, description: string, properties: seq<Property>, required: seq<string>): ToolSchema {
    ToolSchema("function", FunctionSpec(name, description, Parameters("object", properties, required)))
  }

  function ProjectIdProperty(description: string): Property {
    Property("project_id", IntegerParam, description, [])
  }

  function TaskIdProperty(description: string): Property {
    Property("task_id", IntegerParam, description, [])
  }

  const GetProjectsSchema := Tool("get_projects",
    "Get a list of projects for the current guild, optionally filtered by status.",
    [Property("status", StringParam, "Filter projects by status (e.g., 'active')", ["active", "archived", "completed"])],
    [])

  const CreateProjectSchema := Tool("create_project",
    "Create a new project for the guild. Use this when a user wants to start a new project.",
    [Property("title", StringParam, "The title/name of the project", []),
     Property("description", StringParam, "A description of what the project is about", [])],
    ["title"])

  const GetProjectInfoSchema := Tool("get_project_info",
    "Get detailed information about a specific project, including its tasks.",
    [ProjectIdProperty("The ID of the project to get info for")],
    ["project_id"])

  const ArchiveProjectSchema := Tool("archive_project",
    "Archive a project (mark it as no longer active).",
    [ProjectIdProperty("The ID of the project to archive")],
    ["project_id"])

  const CreateTaskSchema := Tool("create_task",
    "Create a new task for a specific project.",
    [ProjectIdProperty("The ID of the project to add the task to"),
     Property("label", StringParam, "The description of the task", [])],
    ["project_id", "label"])

  const GetTasksSchema := Tool("get_tasks",
    "Get all tasks for a specific project.",
    [ProjectIdProperty("The ID of the project to get tasks for")],
    ["project_id"])

  const ToggleTaskSchema := Tool("toggle_task",
    "Toggle a task's completion status (mark as done or undone).",
    [TaskIdProperty("The ID of the task to toggle")],
    ["task_id"])

  const DeleteTaskSchema := Tool("delete_task",
    "Delete a task from a project.",
    [TaskIdProperty("The ID of the task to delete")],
    ["task_id"])

  const AddIdeaSchema := Tool("add_idea",
    "Add a new project idea to the idea pool.",
    [Property("title", StringParam, "The title of the idea", []),
     Property("description", StringParam, "A detailed description of the idea", [])],
    ["title"])

  const GetIdeasSchema := Tool("get_ideas",
    "Get project ideas from the idea pool.",
    [Property("unused_only", BooleanParam, "If true, only return ideas that haven't been used for a project yet", [])],
    [])

  const DeleteIdeaSchema := Tool("delete_idea",
    "Delete an idea from the idea pool.",
    [Property("idea_id", IntegerParam, "The ID of the idea to delete", [])],
    ["idea_id"])

  /** `TOOLS_SCHEMA`: the list sent with every chat request. */
  const ToolsSchema: seq<ToolSchema> := [
    GetProjectsSchema, CreateProjectSchema, GetProjectInfoSchema, ArchiveProjectSchema,
    CreateTaskSchema, GetTasksSchema, ToggleTaskSchema, DeleteTaskSchema,
    AddIdeaSchema, GetIdeasSchema, DeleteIdeaSchema]

  function NameOf(s: ToolSchema): string { s.spec.name }

  function Names(schemas: seq<ToolSchema>): (r: seq<string>)
    ensures |r| == |schemas|
    ensures forall i :: 0 <= i < |schemas| ==> r[i] == NameOf(schemas[i])
  {
    seq(|schemas|, i requires 0 <= i < |schemas| => NameOf(schemas[i]))
  }

  predicate Distinct(names: seq<string>) {
    forall i, j :: 0 <= i < j < |names| ==> names[i] != names[j]
  }

  /** `{schema["function"]["name"]: schema for schema in schemas}`: a later schema with the same name overwrites an earlier one. */
  function Registry(schemas: seq<ToolSchema>): (r: map<string, ToolSchema>)
    ensures r.Keys == set i | 0 <= i < |schemas| :: NameOf(schemas[i])
    decreases |schemas|
  {
    if schemas == [] then map[]
    else
      var init := schemas[..|schemas| - 1];
      var last := schemas[|schemas| - 1];
      var r := Registry(init)[NameOf(last) := last];
      assert r.Keys == (set i | 0 <= i < |init| :: NameOf(init[i])) + {NameOf(last)};
      assert forall i :: 0 <= i < |init| ==> init[i] == schemas[i];
      r
  }

  /** With distinct names, the registry maps each schema's name to that schema. */
  lemma {:induction false} RegistryMapsEachName(schemas: seq<ToolSchema>)
    requires Distinct(Names(schemas))
    ensures forall i :: 0 <= i < |schemas| ==> Registry(schemas)[NameOf(schemas[i])] == schemas[i]
    decreases |schemas|
  {
    if schemas != [] {
      var init := schemas[..|schemas| - 1];
      assert Names(init) == Names(schemas)[..|schemas| - 1];
      RegistryMapsEachName(init);
      forall i | 0 <= i < |schemas|
        ensures Registry(schemas)[NameOf(schemas[i])] == schemas[i]
      {
        if i < |schemas| - 1 {
          assert Names(schemas)[i] != Names(schemas)[|schemas| - 1];
          assert init[i] == schemas[i];
        }
      }
    }
  }

  /** Keys in first-insertion order: what `list(d.keys())` lists for a dict built in this order. */
  function InsertionOrder(names: seq<string>): (r: seq<string>)
    ensures Distinct(r)
    ensures forall n :: n in r <==> n in names
    decreases |names|
  {
    if names == [] then []
    else
      var d := InsertionOrder(names[..|names| - 1]);
      var last := names[|names| - 1];
      assert forall n :: n in names <==> n in names[..|names| - 1] || n == last;
      if last in d then d else d + [last]
  }

  /** Names that are already distinct keep their order and all appear. */
  lemma {:induction false} InsertionOrderOfDistinct(names: seq<string>)
    requires Distinct(names)
    ensures InsertionOrder(names) == names
    decreases |names|
  {
    if names != [] {
      var init := names[..|names| - 1];
      InsertionOrderOfDistinct(init);
      assert names[|names| - 1] !in init;
      assert init + [names[|names| - 1]] == names;
    }
  }

  /** `TOOL_REGISTRY`. */
  function ToolRegistry(): map<string, ToolSchema> {
    Registry(ToolsSchema)
  }

  /** `get_tool_schema`: the registered schema, or `None` for an unknown name. */
  function GetToolSchema(name: string): (r: Option<ToolSchema>)
    ensures r.Some? <==> name in Names(ToolsSchema)
    ensures r.Some? ==> r.value in ToolsSchema && NameOf(r.value) == name
  {
    assert ToolRegistry().Keys == set n | n in Names(ToolsSchema);
    ToolSchemaNamesDistinct();
    RegistryMapsEachName(ToolsSchema);
    if name in ToolRegistry() then Some(ToolRegistry()[name]) else None
  }

  /** `get_tool_names`. */
  function GetToolNames(): seq<string> {
    InsertionOrder(Names(ToolsSchema))
  }

  lemma ToolSchemaNamesDistinct()
    ensures Distinct(Names(ToolsSchema))
    ensures Names(ToolsSchema) == ["get_projects", "create_project", "get_project_info", "archive_project",
      "create_task", "get_tasks", "toggle_task", "delete_task", "add_idea", "get_ideas", "delete_idea"]
  {
  }

  /** There are eleven tools, each of type "function" with "object" parameters. */
  lemma ToolsSchemaShape()
    ensures |ToolsSchema| == 11
    ensures forall i :: 0 <= i < |ToolsSchema| ==> ToolsSchema[i].kind == "function" && ToolsSchema[i].spec.parameters.kind == "object"
  {
  }

  /** The registry has one key per tool. */
  lemma RegistrySize()
    ensures |ToolRegistry().Keys| == |ToolsSchema| == 11
  {
    ToolSchemaNamesDistinct();
    var names := Names(ToolsSchema);
    assert ToolRegistry().Keys == set i | 0 <= i < |names| :: names[i];
    DistinctCard(names);
  }

  lemma {:induction false} DistinctCard(names: seq<string>)
    requires Distinct(names)
    ensures |set i | 0 <= i < |names| :: names[i]| == |names|
    decreases |names|
  {
    if names != [] {
      var init := names[..|names| - 1];
      DistinctCard(init);
      var s := set i | 0 <= i < |names| :: names[i];
      var t := set i | 0 <= i < |init| :: init[i];
      assert s == t + {names[|names| - 1]};
      assert names[|names| - 1] !in t;
    }
  }

  /** `get_tool_names` lists the tools in `TOOLS_SCHEMA` order. */
  lemma GetToolNamesInSchemaOrder()
    ensures GetToolNames() == Names(ToolsSchema)
  {
    ToolSchemaNamesDistinct();
    InsertionOrderOfDistinct(Names(ToolsSchema));
  }

  function PropertyNames(props: seq<Property>): (r: seq<string>)
    ensures |r| == |props|
    ensures forall i :: 0 <= i < |props| ==> r[i] == props[i].name
  {
    seq(|props|, i requires 0 <= i < |props| => props[i].name)
  }

  /** Every name in the schema's `required` list is one of its `properties`. */
  predicate RequiredDeclared(t: ToolSchema) {
    forall r :: r in t.spec.parameters.required ==> r in PropertyNames(t.spec.parameters.properties)
  }

  /** Every required parameter of every tool is one of its properties. */
  lemma RequiredAreProperties()
    ensures forall i :: 0 <= i < |ToolsSchema| ==> RequiredDeclared(ToolsSchema[i])
  {
    assert RequiredDeclared(CreateProjectSchema) by {
      assert PropertyNames(CreateProjectSchema.spec.parameters.properties)[0] == "title";
    }
    assert RequiredDeclared(CreateTaskSchema) by {
      assert PropertyNames(CreateTaskSchema.spec.parameters.properties) == ["project_id", "label"];
    }
    assert RequiredDeclared(AddIdeaSchema) by {
      assert PropertyNames(AddIdeaSchema.spec.parameters.properties)[0] == "title";
    }
    assert RequiredDeclared(GetProjectInfoSchema) by {
      assert PropertyNames(GetProjectInfoSchema.spec.parameters.properties)[0] == "project_id";
    }
    assert RequiredDeclared(ArchiveProjectSchema) by {
      assert PropertyNames(ArchiveProjectSchema.spec.parameters.properties)[0] == "project_id";
    }
    assert RequiredDeclared(GetTasksSchema) by {
      assert PropertyNames(GetTasksSchema.spec.parameters.properties)[0] == "project_id";
    }
    assert RequiredDeclared(ToggleTaskSchema) by {
      assert PropertyNames(ToggleTaskSchema.spec.parameters.properties)[0] == "task_id";
    }
    assert RequiredDeclared(DeleteTaskSchema) by {
      assert PropertyNames(DeleteTaskSchema.spec.parameters.properties)[0] == "task_id";
    }
    assert RequiredDeclared(DeleteIdeaSchema) by {
      assert PropertyNames(DeleteIdeaSchema.spec.parameters.properties)[0] == "idea_id";
    }
  }
}
