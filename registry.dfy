/**
  The tool registry `TOOLS` (app.py:64-234): the fifteen tools the server offers,
  each with its name, description and input schema, in the order `tools/list`
  reports them.
*/
module Registry {
  import opened Wrappers
  import opened Json

  /**
    One entry of a tool's `properties`: its JSON-Schema type, and the optional
    default, enumeration, item type and description.
  */
  datatype Property = Property(
    name: string,
    kind: string,
    default: Option<int>,
    choices: seq<string>,
    itemKind: Option<string>,
    description: Option<string>)

  /** A tool definition; `required` is None where the schema has no `required` list. */
  datatype Tool = Tool(name: string, description: string, properties: seq<Property>, required: Option<seq<string>>)
  {
    /** The keys a caller must supply. */
    function Required(): seq<string> {
        required.GetOr([])
    }
  }

  /** A property with only a type and a description. */
  function Described(name: string, kind: string, description: string): Property {
    Property(name, kind, None, [], None, Some(description))
  }

  // The entries of `TOOLS`, one per tool, each with the schema app.py gives it.

  const ListProjectsDef: Tool :=
    Tool("list_projects", "List all Vercel projects",
      [Property("limit", "integer", Some(20), [], None, Some("Max projects to return"))], None)

  const GetProjectDef: Tool :=
    Tool("get_project", "Get details of a specific project",
      [Described("project_id", "string", "Project ID or name")], Some(["project_id"]))

  const CreateProjectDef: Tool :=
    Tool("create_project", "Create a new Vercel project",
      [Described("name", "string", "Project name"),
       Described("framework", "string", "Framework preset (nextjs, react, vue, etc.)"),
       Described("git_repository", "object", "Git repository config {type, repo}")], Some(["name"]))

  const DeleteProjectDef: Tool :=
    Tool("delete_project", "Delete a Vercel project",
      [Described("project_id", "string", "Project ID or name")], Some(["project_id"]))

  const ListDeploymentsDef: Tool :=
    Tool("list_deployments", "List deployments for a project",
      [Described("project_id", "string", "Project ID or name"),
       Property("limit", "integer", Some(10), [], None, None),
       Property("state", "string", None, ["BUILDING", "ERROR", "INITIALIZING", "QUEUED", "READY", "CANCELED"], None, None)],
      None)

  const GetDeploymentDef: Tool :=
    Tool("get_deployment", "Get details of a specific deployment",
      [Described("deployment_id", "string", "Deployment ID or URL")], Some(["deployment_id"]))

  const CancelDeploymentDef: Tool :=
    Tool("cancel_deployment", "Cancel a running deployment",
      [Described("deployment_id", "string", "Deployment ID")], Some(["deployment_id"]))

  const ListDomainsDef: Tool :=
    Tool("list_domains", "List all domains",
      [Property("limit", "integer", Some(20), [], None, None)], None)

  const AddDomainDef: Tool :=
    Tool("add_domain", "Add a domain to a project",
      [Described("project_id", "string", "Project ID"),
       Described("domain", "string", "Domain name to add")], Some(["project_id", "domain"]))

  const RemoveDomainDef: Tool :=
    Tool("remove_domain", "Remove a domain from a project",
      [Described("project_id", "string", "Project ID"),
       Described("domain", "string", "Domain name to remove")], Some(["project_id", "domain"]))

  const ListEnvVarsDef: Tool :=
    Tool("list_env_vars", "List environment variables for a project",
      [Described("project_id", "string", "Project ID")], Some(["project_id"]))

  const CreateEnvVarDef: Tool :=
    Tool("create_env_var", "Create an environment variable",
      [Described("project_id", "string", "Project ID"),
       Described("key", "string", "Variable name"),
       Described("value", "string", "Variable value"),
       Property("target", "array", None, [], Some("string"), Some("Targets: production, preview, development"))],
      Some(["project_id", "key", "value"]))

  const DeleteEnvVarDef: Tool :=
    Tool("delete_env_var", "Delete an environment variable",
      [Described("project_id", "string", "Project ID"),
       Described("env_id", "string", "Environment variable ID")], Some(["project_id", "env_id"]))

  const RedeployDef: Tool :=
    Tool("redeploy", "Trigger a redeployment of the latest deployment",
      [Described("deployment_id", "string", "Deployment ID to redeploy")], Some(["deployment_id"]))

  const GetUserDef: Tool :=
    Tool("get_user", "Get current authenticated user info", [], None)

  /** The registry, in the order `tools/list` reports it. */
  const Tools: seq<Tool> := [
    ListProjectsDef,
    GetProjectDef,
    CreateProjectDef,
    DeleteProjectDef,
    ListDeploymentsDef,
    GetDeploymentDef,
    CancelDeploymentDef,
    ListDomainsDef,
    AddDomainDef,
    RemoveDomainDef,
    ListEnvVarsDef,
    CreateEnvVarDef,
    DeleteEnvVarDef,
    RedeployDef,
    GetUserDef
  ]

  /** The names of the registered tools, in registry order. */
  function Names(): seq<string> {
    seq(|Tools|, i requires 0 <= i < |Tools| => Tools[i].name)
  }

  /** The JSON form of a property schema: type, default, enum, items, description, in that order. */
  function PropertyJson(p: Property): Json {
    JObj([("type", JStr(p.kind))]
           + (if p.default.Some? then [("default", JInt(p.default.value))] else [])
           + (if p.choices != [] then [("enum", JArr(seq(|p.choices|, i requires 0 <= i < |p.choices| => JStr(p.choices[i]))))] else [])
           + (if p.itemKind.Some? then [("items", JObj([("type", JStr(p.itemKind.value))]))] else [])
           + (if p.description.Some? then [("description", JStr(p.description.value))] else []))
  }

  /** The strings of a JSON array whose items are all strings, or None. */
  function Strings(items: seq<Json>): (r: Option<seq<string>>)
    ensures r.Some? <==> forall i :: 0 <= i < |items| ==> items[i].JStr?
    ensures r.Some? ==> |r.value| == |items| && forall i :: 0 <= i < |items| ==> items[i] == JStr(r.value[i])
  {
    if items == [] then Some([])
    else if !items[0].JStr? then None
    else match Strings(items[1..])
      case None => None
      case Some(rest) => Some([items[0].s] + rest)
  }

  /**
    The `required` list a client reads from a tool's JSON form: the strings under
    `inputSchema.required`, or None when the schema has no such list.
  */
  function Advertised(j: Json): Option<seq<string>> {
    if !j.JObj? then None
    else match Get(j.fields, "inputSchema")
      case Some(JObj(schema)) =>
        (match Get(schema, "required")
         case Some(JArr(items)) => Strings(items)
         case _ => None)
      case _ => None
  }

  /**
    The JSON form of a tool definition, as it appears in `TOOLS`: a client reads back
    the tool's name and exactly the keys the tool requires, and finds no `required`
    list where the definition has none.
  */
  function ToolJson(t: Tool): (j: Json)
    ensures j.JObj? && Get(j.fields, "name") == Some(JStr(t.name))
    ensures Advertised(j) == t.required
  {
    var properties := seq(|t.properties|, i requires 0 <= i < |t.properties| =>
                              (t.properties[i].name, PropertyJson(t.properties[i])));
    var schema := [("type", JStr("object")), ("properties", JObj(properties))]
                    + (if t.required.Some?
                       then [("required", JArr(seq(|t.required.value|, i requires 0 <= i < |t.required.value| => JStr(t.required.value[i]))))]
                       else []);
    var fields := [("name", JStr(t.name)), ("description", JStr(t.description)), ("inputSchema", JObj(schema))];
    assert Get(fields, "inputSchema") == Some(JObj(schema)) by {
      Unfold(fields);
      Unfold(fields[1..]);
      assert fields[1..][1..] == [fields[2]];
    }
    assert Get(schema, "required") == if t.required.Some? then Some(schema[2].1) else None by {
      Unfold(schema);
      Unfold(schema[1..]);
      assert schema[1..][1..] == (if t.required.Some? then [schema[2]] else []);
    }
    assert t.required.Some? ==> Strings(schema[2].1.items) == t.required by {
      if t.required.Some? {
        var items := schema[2].1.items;
        assert forall i :: 0 <= i < |items| ==> items[i] == JStr(t.required.value[i]);
        var r := Strings(items).value;
        assert r == t.required.value by {
          forall i | 0 <= i < |r| ensures r[i] == t.required.value[i] {
            assert JStr(r[i]) == items[i];
          }
        }
      }
    }
    JObj(fields)
  }

  /**
    `TOOLS` as a JSON array: one object per registered tool, in registry order, each
    naming its tool and advertising that tool's required keys.
  */
  function ToolsJson(): (j: Json)
    ensures j.JArr? && |j.items| == |Tools|
    ensures forall i :: 0 <= i < |Tools| ==>
              j.items[i].JObj? && Get(j.items[i].fields, "name") == Some(JStr(Names()[i]))
    ensures forall i :: 0 <= i < |Tools| ==> Advertised(j.items[i]) == Tools[i].required
  {
    JArr(seq(|Tools|, i requires 0 <= i < |Tools| => ToolJson(Tools[i])))
  }

  /** The fifteen tool names are pairwise distinct, so a name identifies one tool. */
  lemma NamesDistinct()
    ensures |Tools| == 15
    ensures forall i, j :: 0 <= i < j < |Tools| ==> Tools[i].name != Tools[j].name
  {
  }
}
