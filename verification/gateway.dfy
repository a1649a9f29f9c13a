/**
 * The MCP tool gateway (src/index.ts): the four-tool catalog, presence-only
 * argument validation, dispatch by tool name and the classification of what
 * dispatch throws into protocol errors.
 *
 * The Backlog client is a parameter: `Backend` takes the call the gateway
 * makes and either returns the value to serialise or throws. A call that is
 * never made cannot influence the result, so "the backend is not invoked" is
 * stated as "the result is the same for every backend".
 */
module Gateway {
  import opened Wrappers
  import opened JsValues
  import opened Errors
  import opened Schemas

  // ---------------------------------------------------------------------------
  // Tools and the catalog

  datatype Tool = GetProjects | SearchIssues | GetIssue | UpdateIssue

  datatype ToolDescriptor = ToolDescriptor(name: string, description: string, inputSchema: Schema)

  /** The `ListTools` handler's answer. */
  const Catalog: seq<ToolDescriptor> := [
    ToolDescriptor("getProjects", "Backlogのプロジェクト一覧を取得します", GetProjectsSchema),
    ToolDescriptor("searchIssues", "Backlogの課題を検索します", SearchIssuesSchema),
    ToolDescriptor("getIssue", "特定のBacklog課題を取得します", GetIssueSchema),
    ToolDescriptor("updateIssue", "Backlog課題を更新します", UpdateIssueSchema)
  ]

  /** The `switch` on the requested tool name. */
  function ToolNamed(name: string): (t: Option<Tool>)
    ensures t.Some? <==> exists i :: 0 <= i < |Catalog| && Catalog[i].name == name
  {
    match name
    case "getProjects" => assert Catalog[0].name == name; Some(GetProjects)
    case "searchIssues" => assert Catalog[1].name == name; Some(SearchIssues)
    case "getIssue" => assert Catalog[2].name == name; Some(GetIssue)
    case "updateIssue" => assert Catalog[3].name == name; Some(UpdateIssue)
    case _ => None
  }

  /** The catalog lists exactly the four tools in a fixed order, each with its
      schema, under distinct names that dispatch resolves back to the tool. */
  lemma CatalogShape()
    ensures |Catalog| == 4
    ensures Catalog[0].name == "getProjects" && Catalog[0].inputSchema == GetProjectsSchema
    ensures Catalog[1].name == "searchIssues" && Catalog[1].inputSchema == SearchIssuesSchema
    ensures Catalog[2].name == "getIssue" && Catalog[2].inputSchema == GetIssueSchema
    ensures Catalog[3].name == "updateIssue" && Catalog[3].inputSchema == UpdateIssueSchema
    ensures forall i, j :: 0 <= i < j < |Catalog| ==> Catalog[i].name != Catalog[j].name
    ensures ToolNamed(Catalog[0].name) == Some(GetProjects)
    ensures ToolNamed(Catalog[1].name) == Some(SearchIssues)
    ensures ToolNamed(Catalog[2].name) == Some(GetIssue)
    ensures ToolNamed(Catalog[3].name) == Some(UpdateIssue)
  {

  }

  // ---------------------------------------------------------------------------
  // Validation

  /** Property `p` is required by `schema` but absent from `args`. A key that is
      present counts whatever its value, `undefined` included. */
  predicate MissingRequired(schema: Schema, args: Record, p: Property) {
    schema.Requires(p.name) && p.name !in args
  }

  /** The loop over `Object.entries(schema.properties)`: the index of the first
      property that is required and missing, if any. */
  function FirstMissing(schema: Schema, args: Record, props: seq<Property>): (r: Option<nat>)
    ensures r.Some? ==> r.value < |props| && MissingRequired(schema, args, props[r.value])
    ensures r.Some? ==> forall k :: 0 <= k < r.value ==> !MissingRequired(schema, args, props[k])
    ensures r.None? <==> forall k :: 0 <= k < |props| ==> !MissingRequired(schema, args, props[k])
    decreases |props|
  {
    if |props| == 0 then None
    else if MissingRequired(schema, args, props[0]) then Some(0)
    else
      match FirstMissing(schema, args, props[1..])
      case None => None
      case Some(k) => Some(k + 1)
  }

  /** `validateAndCastArguments`: absent arguments and the first missing
      required property (in declaration order) are rejected with InvalidParams;
      otherwise the arguments are returned unchanged. */
  function ValidateAndCastArguments(arguments: Option<Record>, schema: Schema): (r: Result<Record, Thrown>)
    ensures arguments.None? ==> r == Failure(McpError(InvalidParams, "Arguments are required"))
    ensures r.Success? ==> arguments == Some(r.value)
    ensures arguments.Some? ==>
      (r.Success? <==> forall k :: 0 <= k < |schema.properties| ==> !MissingRequired(schema, arguments.value, schema.properties[k]))
    ensures arguments.Some? && r.Failure? ==>
      exists k :: (0 <= k < |schema.properties|
        && MissingRequired(schema, arguments.value, schema.properties[k])
        && (forall j :: 0 <= j < k ==> !MissingRequired(schema, arguments.value, schema.properties[j]))
        && r.error == McpError(InvalidParams, "Missing required argument: " + schema.properties[k].name))
  {
    match arguments
    case None => Failure(McpError(InvalidParams, "Arguments are required"))
    case Some(args) =>
      match FirstMissing(schema, args, schema.properties)
      case Some(k) => Failure(McpError(InvalidParams, "Missing required argument: " + schema.properties[k].name))
      case None => Success(args)
  }

  /** When every required name is declared (as in all four schemas), validation
      succeeds exactly when every required name is present. */
  lemma ValidationChecksEveryRequiredName(args: Record, schema: Schema)
    requires schema.RequiredAreDeclared()
    ensures ValidateAndCastArguments(Some(args), schema).Success? <==>
      forall key :: schema.Requires(key) ==> key in args
  {

  }

  /** The concrete outcomes for each schema: presence of the one required key
      decides, and the schema without a `required` list accepts any arguments. */
  lemma SchemaValidationOutcomes(args: Record)
    ensures ValidateAndCastArguments(Some(args), SearchIssuesSchema)
      == (if "projectId" in args then Success(args) else Failure(McpError(InvalidParams, "Missing required argument: " + "projectId")))
    ensures ValidateAndCastArguments(Some(args), GetIssueSchema)
      == (if "issueId" in args then Success(args) else Failure(McpError(InvalidParams, "Missing required argument: " + "issueId")))
    ensures ValidateAndCastArguments(Some(args), UpdateIssueSchema)
      == (if "issueId" in args then Success(args) else Failure(McpError(InvalidParams, "Missing required argument: " + "issueId")))
    ensures ValidateAndCastArguments(Some(args), GetProjectsSchema) == Success(args)
  {

  }

  // ---------------------------------------------------------------------------
  // Dispatch

  /** A call into the Backlog client, with the arguments exactly as validated. */
  datatype Call = ProjectsCall | SearchIssuesCall(args: Record) | GetIssueCall(args: Record) | UpdateIssueCall(args: Record)

  type Backend = Call -> Result<Value, Thrown>

  /** The response `{ content: [{ type: 'text', text }] }` whose text is the
      pretty-printed JSON of `payload`. */
  datatype Reply = SingleText(payload: Value)

  function Respond(r: Result<Value, Thrown>): (reply: Result<Reply, Thrown>)
    ensures reply.Success? <==> r.Success?
    ensures r.Success? ==> reply.value.payload == r.value
    ensures r.Failure? ==> reply.error == r.error
  {
    match r
    case Success(v) => Success(SingleText(v))
    case Failure(e) => Failure(e)
  }

  /** The call the backend receives for a tool: the operation of the same
      name, with its arguments unchanged. */
  function CallFor(t: Tool, args: Record): (c: Call)
    ensures t == GetProjects <==> c == ProjectsCall
    ensures t == SearchIssues <==> c == SearchIssuesCall(args)
    ensures t == GetIssue <==> c == GetIssueCall(args)
    ensures t == UpdateIssue <==> c == UpdateIssueCall(args)
    ensures t != GetProjects ==> c.args == args
  {
    match t
    case GetProjects => ProjectsCall
    case SearchIssues => SearchIssuesCall(args)
    case GetIssue => GetIssueCall(args)
    case UpdateIssue => UpdateIssueCall(args)
  }

  /** The body of the `try` in the `CallTool` handler. */
  function Dispatch(name: string, arguments: Option<Record>, backend: Backend): Result<Reply, Thrown> {
    match ToolNamed(name)
    case None => Failure(McpError(MethodNotFound, "Unknown tool: " + name))
    case Some(GetProjects) => Respond(backend(CallFor(GetProjects, map[])))
    case Some(SearchIssues) =>
      var args :- ValidateAndCastArguments(arguments, SearchIssuesSchema);
      Respond(backend(CallFor(SearchIssues, args)))
    case Some(GetIssue) =>
      var args :- ValidateAndCastArguments(arguments, GetIssueSchema);
      Respond(backend(CallFor(GetIssue, args)))
    case Some(UpdateIssue) =>
      var args :- ValidateAndCastArguments(arguments, UpdateIssueSchema);
      Respond(backend(CallFor(UpdateIssue, args)))
  }

  /** The `catch`: protocol errors are rethrown as they are, anything else
      becomes InternalError naming the tool. */
  function Classify(name: string, e: Thrown): (r: Thrown)
    ensures r.McpError?
    ensures e.McpError? ==> r == e
    ensures !e.McpError? ==> r.code == InternalError
    ensures !e.McpError? ==> r.text == "Error executing tool " + name + ": " + e.Message()
  {
    if e.McpError? then e
    else McpError(InternalError, "Error executing tool " + name + ": " + e.Message())
  }

  /** A classified error is never wrapped a second time, whichever tool name
      the second classification carries. */
  lemma ClassifyDoesNotRewrap(name: string, other: string, e: Thrown)
    ensures Classify(other, Classify(name, e)) == Classify(name, e)
  {
  }

  /** The `CallTool` handler. */
  function CallTool(name: string, arguments: Option<Record>, backend: Backend): (r: Result<Reply, Thrown>)
    ensures r.Failure? ==> r.error.McpError?
    ensures r.Success? ==> ToolNamed(name).Some?
  {
    Dispatch(name, arguments, backend).MapFailure(e => Classify(name, e))
  }

  // ---------------------------------------------------------------------------
  // Properties of the gateway

  /** A name outside the catalog fails with MethodNotFound, whatever the
      arguments and the backend. */
  lemma UnknownToolIsMethodNotFound(name: string, arguments: Option<Record>, backend: Backend)
    requires forall i :: 0 <= i < |Catalog| ==> Catalog[i].name != name
    ensures CallTool(name, arguments, backend) == Failure(McpError(MethodNotFound, "Unknown tool: " + name))
    ensures CallTool(name, arguments, backend).error.code != InvalidParams
  {
  }

  /** For every cataloged tool that validates, a validation failure is the
      result of the call, and the backend plays no part in it. */
  lemma ValidationPrecedesBackend(i: nat, arguments: Option<Record>, backend1: Backend, backend2: Backend)
    requires 1 <= i < |Catalog|
    requires ValidateAndCastArguments(arguments, Catalog[i].inputSchema).Failure?
    ensures CallTool(Catalog[i].name, arguments, backend1) == CallTool(Catalog[i].name, arguments, backend2)
    ensures CallTool(Catalog[i].name, arguments, backend1)
         == Failure(ValidateAndCastArguments(arguments, Catalog[i].inputSchema).error)
    ensures CallTool(Catalog[i].name, arguments, backend1).error.code == InvalidParams
  {
  }

  /** `getProjects` never looks at its arguments: absent or arbitrary, the
      result is the backend's project list. */
  lemma GetProjectsIgnoresArguments(arguments: Option<Record>, backend: Backend)
    ensures CallTool("getProjects", arguments, backend) == CallTool("getProjects", None, backend)
    ensures backend(ProjectsCall).Success? ==>
      CallTool("getProjects", arguments, backend) == Success(SingleText(backend(ProjectsCall).value))
  {
  }

  /** Once validation passes, the backend sees the arguments as given, its
      value is the reply, a protocol error it throws comes back unchanged, and
      any other error comes back as InternalError naming the tool. */
  lemma BackendOutcomeIsClassified(i: nat, args: Record, backend: Backend)
    requires 0 <= i < |Catalog|
    requires ValidateAndCastArguments(Some(args), Catalog[i].inputSchema).Success?
    ensures var call := CallFor(ToolNamed(Catalog[i].name).value, args);
      var r := CallTool(Catalog[i].name, Some(args), backend);
      && (backend(call).Success? ==> r == Success(SingleText(backend(call).value)))
      && (backend(call).Failure? && backend(call).error.McpError? ==> r == Failure(backend(call).error))
      && (backend(call).Failure? && !backend(call).error.McpError? ==>
            r == Failure(McpError(InternalError, "Error executing tool " + Catalog[i].name + ": " + backend(call).error.Message())))
  {

  }
}
