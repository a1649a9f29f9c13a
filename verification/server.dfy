/**
 * The server as wired in src/index.ts: the gateway dispatching to the Backlog
 * client. Properties here follow a tool call from the protocol request down to
 * the HTTP request, with the HTTP client as the only parameter.
 */
module Server {
  import opened Wrappers
  import opened JsValues
  import opened Errors
  import Client
  import opened Gateway

  /** Each gateway call runs the client operation of the same name. */
  function ClientBackend(c: Client.Client, http: Client.Http): Backend {
    (call: Call) =>
      match call
      case ProjectsCall => Client.GetProjects(c, http)
      case SearchIssuesCall(args) => Client.SearchIssues(c, args, http)
      case GetIssueCall(args) => Client.GetIssue(c, args, http)
      case UpdateIssueCall(args) => Client.UpdateIssue(c, args, http)
  }

  /** `getProjects` runs the client's `getProjects`, whatever the arguments:
      its value is the reply and its error is classified under the tool's name. */
  lemma GetProjectsRunsClientMethod(c: Client.Client, arguments: Option<Record>, http: Client.Http)
    ensures CallTool("getProjects", arguments, ClientBackend(c, http))
         == Respond(Client.GetProjects(c, http)).MapFailure(e => Classify("getProjects", e))
  {

  }

  /** Validated `searchIssues` arguments go, unchanged, to the client's
      `searchIssues`. */
  lemma SearchIssuesRunsClientMethod(c: Client.Client, args: Record, http: Client.Http)
    ensures "projectId" in args ==>
      CallTool("searchIssues", Some(args), ClientBackend(c, http))
         == Respond(Client.SearchIssues(c, args, http)).MapFailure(e => Classify("searchIssues", e))
  {

  }

  /** Validated `getIssue` arguments go, unchanged, to the client's `getIssue`. */
  lemma GetIssueRunsClientMethod(c: Client.Client, args: Record, http: Client.Http)
    ensures "issueId" in args ==>
      CallTool("getIssue", Some(args), ClientBackend(c, http))
         == Respond(Client.GetIssue(c, args, http)).MapFailure(e => Classify("getIssue", e))
  {

  }

  /** Validated `updateIssue` arguments go, unchanged, to the client's
      `updateIssue`. */
  lemma UpdateIssueRunsClientMethod(c: Client.Client, args: Record, http: Client.Http)
    ensures "issueId" in args ==>
      CallTool("updateIssue", Some(args), ClientBackend(c, http))
         == Respond(Client.UpdateIssue(c, args, http)).MapFailure(e => Classify("updateIssue", e))
  {

  }

  /** `getIssue` without `issueId` is rejected by validation and no request is
      sent, whatever the HTTP client would have answered. */
  lemma MissingIssueIdSendsNothing(c: Client.Client, http1: Client.Http, http2: Client.Http)
    ensures CallTool("getIssue", Some(map[]), ClientBackend(c, http1))
         == CallTool("getIssue", Some(map[]), ClientBackend(c, http2))
    ensures CallTool("getIssue", Some(map[]), ClientBackend(c, http1))
         == Failure(McpError(InvalidParams, "Missing required argument: " + "issueId"))
  {

  }

  /** An update with an untranslatable status reaches the caller as
      InternalError naming the tool and the status, and sends no request; a
      status that cannot even be converted to a key reports the TypeError. */
  lemma InvalidStatusUpdateIsInternalError(c: Client.Client, args: Record, http1: Client.Http, http2: Client.Http)
    requires "issueId" in args
    requires Truthy(Field(args, "status")) && Client.StatusIdOf(Field(args, "status")).Failure?
    ensures CallTool("updateIssue", Some(args), ClientBackend(c, http1))
         == CallTool("updateIssue", Some(args), ClientBackend(c, http2))
    ensures Convertible(Field(args, "status")) ==>
      CallTool("updateIssue", Some(args), ClientBackend(c, http1))
         == Failure(McpError(InternalError,
              "Error executing tool " + "updateIssue" + ": " + ("Invalid status: " + JsString(Field(args, "status")))))
    ensures !Convertible(Field(args, "status")) ==>
      CallTool("updateIssue", Some(args), ClientBackend(c, http1))
         == Failure(McpError(InternalError, "Error executing tool " + "updateIssue" + ": " + CannotConvert))
  {

  }

  /** `getIssue` with an issue key that has its own `toString` field: building
      the path throws, no request is sent, and the caller sees InternalError
      with the TypeError's message. */
  lemma UnconvertibleIssueIdIsInternalError(c: Client.Client, args: Record, http1: Client.Http, http2: Client.Http)
    requires "issueId" in args && !Convertible(args["issueId"])
    ensures CallTool("getIssue", Some(args), ClientBackend(c, http1))
         == CallTool("getIssue", Some(args), ClientBackend(c, http2))
    ensures CallTool("getIssue", Some(args), ClientBackend(c, http1))
         == Failure(McpError(InternalError, "Error executing tool " + "getIssue" + ": " + CannotConvert))
  {

  }

  /** A transport failure without a remote message is reported with the
      transport's own description, wrapped once by the client and once by the
      gateway; `getProjects` does so whatever its arguments. */
  lemma ProjectsTransportFailure(c: Client.Client, http: Client.Http, arguments: Option<Record>, text: string)
    requires http(Client.GetRequest(c, "/projects", map[])) == Failure(AxiosError(None, text))
    ensures CallTool("getProjects", arguments, ClientBackend(c, http))
         == Failure(McpError(InternalError, "Error executing tool " + "getProjects" + ": " + (Client.ApiErrorPrefix + text)))
  {

  }

  /** A search for the closed status asks the remote API for status code 4 in
      the given project, and its answer is the reply. */
  lemma ClosedStatusSearch(c: Client.Client, http: Client.Http, projectId: int, issues: Value)
    requires http(Client.GetRequest(c, "/issues",
      map["projectId[]" := Arr([Num(projectId)]), "keyword" := Undefined, "statusId[]" := Arr([Num(4)])])) == Success(issues)
    ensures CallTool("searchIssues", Some(map["projectId" := Num(projectId), "status" := Arr([Str(Client.Status.Closed.Name())])]),
                     ClientBackend(c, http))
         == Success(SingleText(issues))
  {
    var args := map["projectId" := Num(projectId), "status" := Arr([Str(Client.Status.Closed.Name())])];
    SchemaValidationOutcomes(args);
    Client.ClosedStatusQuery(projectId);
    assert Client.SearchIssues(c, args, http) == Success(issues);
    assert ToolNamed("searchIssues") == Some(SearchIssues);
    assert Dispatch("searchIssues", Some(args), ClientBackend(c, http)) == Success(SingleText(issues));
  }
}
