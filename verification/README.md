# Backlog MCP server — a Dafny model of its tool gateway and REST client

The server exposes four Backlog issue-tracker operations (list projects, search
issues, fetch an issue, update an issue) as MCP tools. This project models the
decisions it makes on the way from a tool call to an HTTP request and back:

- `values.dfy` — `JsValues`: the untyped JavaScript values tool arguments are
  made of, with JavaScript truthiness, the `undefined` test and string
  conversion (template literals and property keys), including the TypeError
  that conversion throws for an object carrying its own `toString` field. Also `Errors`: the thrown
  errors (`McpError` with its protocol code, plain `Error`, HTTP-client error).
- `schemas.dfy` — `Schemas`: the four input-schema constants (properties in
  declaration order, `required` lists) and the argument interfaces
  `SearchIssuesArgs`, `GetIssueArgs`, `UpdateIssueArgs`.
- `client.dfy` — `Client`: the status-name table, base-URL normalisation, the
  search query and update payload, the four operations and the mapping of
  HTTP-client errors. The HTTP client is a function parameter (`Http`).
- `gateway.dfy` — `Gateway`: the tool catalog, presence-only argument
  validation, dispatch by tool name and error classification. The Backlog
  client is a function parameter (`Backend`).
- `server.dfy` — `Server`: the gateway wired to the client, for properties
  that follow a tool call down to the HTTP request.
- `wrappers.dfy` — `Option` and `Result`.

Since arguments are checked for presence only, the client receives whatever
values the caller sent; the model therefore reads fields with JavaScript
semantics (`if (args.status)`, `args.description !== undefined`,
`` `${args.issueId}` ``) rather than assuming the declared types. A call that is
never made cannot influence a result, so "the backend (or the network) is not
reached" is stated as "the result is the same for every backend (or HTTP
client)".

## Model

| member | source | states |
|---|---|---|
| `Client.GetStatusId` | src/backlog/client.ts:98-112 | 未対応→1, 処理中→2, 処理済み→3, 完了→4; every code returned is in 1..4 and decodes back to the name it came from; any name outside the table fails with `Invalid status: <name>`, never a default code |
| `Client.StatusIdOf` | src/backlog/client.ts:106-108 | `getStatusId` on an untyped value: the value is converted to a property key first, so an unconvertible object fails with the TypeError `Cannot convert object to primitive value`; a convertible one fails exactly when its text is outside the table, with `Invalid status: <text>`, and otherwise yields the code that decodes back to that text; a string behaves as `GetStatusId` |
| `Client.NumericStatusRejected` | src/backlog/client.ts:106-109 | a number passed to `getStatusId` (types are not checked) is converted to its numeral and is always rejected with `Invalid status: <numeral>`; in an update a falsy `0` never reaches it |
| `Client.StripTrailingSlash` | src/backlog/client.ts:20 | the result is a prefix of the URL, at most one character shorter, and shorter exactly when the URL ends in `/` |
| `Client.NewClient` | src/backlog/client.ts:18-28 | the base URL ends in `/api/v2`, and what precedes it plus at most one `/` is the space URL; the API key is kept as given |
| `Client.NormalizeError` | src/backlog/client.ts:43-47 | an HTTP-client error becomes `Backlog API error: ` + remote message if present, else the transport message; any other error is returned unchanged; the result is never an HTTP-client error (the same `catch` is at lines 58-62, 87-91, 121-125) |
| `Client.NormalizeErrorIdempotent` | src/backlog/client.ts:43-47 | normalising an already normalised error changes nothing |
| `Client.MapStatusIds` | src/backlog/client.ts:39 | the mapped list succeeds exactly when every element translates; then it has the same length and holds each element's code in order; otherwise the error is that of the first element that does not translate |
| `Client.StatusIds` | src/backlog/client.ts:39 | a `null` or absent status yields `undefined`; an array yields the mapped codes (each in 1..4) or the first element's error; any other value fails with the TypeError of calling a missing `map` |
| `Client.SearchParams` | src/backlog/client.ts:35-40 | the query has exactly the keys `projectId[]`, `keyword`, `statusId[]`; the project filter is the singleton of `projectId`; the keyword is passed verbatim; it fails exactly when the status list fails to map |
| `Client.SearchStatusFilter` | src/backlog/client.ts:34-41 | an absent or `null` `status` leaves `statusId[]` undefined; an array succeeds iff all elements translate and then yields their codes element-wise; any other value fails the search with the TypeError, whatever the HTTP client does |
| `Client.SearchQueryRoundTrip` | src/backlog/client.ts:35-40 | for arguments of the `SearchIssuesArgs` shape with valid names, the codes in the query decode back to the given status names in order, with the singleton project and the keyword as given |
| `Client.ClosedStatusQuery` | src/backlog/client.ts:35-40 | a search for `[完了]` filters on `statusId[] = [4]` in the one project, with no keyword |
| `Client.SearchIssues` | src/backlog/client.ts:33-49 | an error building the query is thrown unchanged and no request is made; otherwise the result is the answer to `GET /issues` with that query, errors normalised |
| `Client.InvalidStatusFailsSearchBeforeRequest` | src/backlog/client.ts:34-41 | an untranslatable element of `status` fails the search with the error of some element no later than it, whatever the HTTP client does |
| `Client.UpdatePayload` | src/backlog/client.ts:71-83 | the body has only `statusId`, `comment`, `description`; `statusId` iff `status` is truthy, with its code; `comment` iff truthy, verbatim; `description` iff not undefined (empty string included), verbatim; a truthy status that does not translate fails with its `StatusIdOf` error |
| `Client.UpdatePayloadRoundTrip` | src/backlog/client.ts:71-83 | for arguments of the `UpdateIssueArgs` shape, reading the payload back yields the arguments with an empty status and an empty comment dropped and an empty description kept |
| `Client.IssuePath` | src/backlog/client.ts:56 | the path is `/issues/` followed by the issue key's text, and fails with the TypeError exactly when the key cannot be converted |
| `Client.IssueIdOnlyInPath` | src/backlog/client.ts:85 | a built update is a PATCH of `/issues/<issueId>` with a convertible key, and `issueId` is never a key of the body |
| `Client.UpdateIssue` | src/backlog/client.ts:69-93 | an invalid status, and after it an unconvertible issue key, is thrown unchanged and no request is made; otherwise the result is the answer to the PATCH carrying the payload, errors normalised |
| `Client.InvalidStatusFailsUpdateBeforeRequest` | src/backlog/client.ts:73-75 | an untranslatable truthy status fails the update with `Invalid status: <status>`, or with the TypeError when it cannot be converted, whatever the HTTP client does |
| `Client.GetIssue` | src/backlog/client.ts:54-64 | an unconvertible issue key fails with the TypeError and no request; otherwise the result is the answer to `GET /issues/<issueId>`, errors normalised |
| `Client.GetProjects` | src/backlog/client.ts:117-127 | the result is the answer to `GET /projects`, errors normalised |
| `Client.TransportFailureMessage` | src/backlog/client.ts:121-125 | a failed project listing reports the remote message when there is one and the transport's own description otherwise |
| `Schemas.SchemaRequirements` | src/backlog/schemas.ts:4-107 | property order of each schema; `searchIssuesSchema` requires exactly `projectId`, `getIssueSchema` and `updateIssueSchema` exactly `issueId`, `getProjectsSchema` has no properties and requires nothing |
| `Schemas.SchemasRequireOnlyDeclaredNames` | src/backlog/schemas.ts:4-60 | every required name of each schema is one of its declared properties |
| `Schemas.InterfacesConformToSchemas` | src/backlog/schemas.ts:84-100 | arguments of the three interface shapes carry every required field, only declared fields, each of its declared type |
| `Gateway.ToolNamed` | src/index.ts:109-186 | a tool name is recognised exactly when it is the name of a catalog entry |
| `Gateway.CatalogShape` | src/index.ts:82-105 | the catalog has exactly four tools, getProjects, searchIssues, getIssue, updateIssue in that order, each with its schema, with distinct names that dispatch resolves to that tool |
| `Gateway.FirstMissing` | src/index.ts:72-76 | the index found is a required, absent property and no earlier property is; none is found exactly when no property is required and absent |
| `Gateway.ValidateAndCastArguments` | src/index.ts:66-79 | absent arguments fail with InvalidParams `Arguments are required`; otherwise success iff no required property is absent (a present key passes whatever its value, `undefined` included), and the arguments come back unchanged; a failure is InvalidParams `Missing required argument: <key>` for the first missing key in property order |
| `Gateway.ValidationChecksEveryRequiredName` | src/index.ts:72-76 | when every required name is declared, validation succeeds exactly when every required name is present |
| `Gateway.SchemaValidationOutcomes` | src/index.ts:126-173 | with each tool's schema, presence of `projectId` (search) or `issueId` (get, update) decides the outcome; the `getProjects` schema accepts any arguments |
| `Gateway.Respond` | src/index.ts:111-122 | a backend value becomes the single-text reply holding it; a thrown error passes through |
| `Gateway.Classify` | src/index.ts:188-197 | protocol errors are rethrown unchanged; any other error becomes InternalError `Error executing tool <name>: <message>` |
| `Gateway.ClassifyDoesNotRewrap` | src/index.ts:189-191 | a classified error is never wrapped again |
| `Gateway.CallTool` | src/index.ts:107-199 | every failure is a protocol error; a success only comes from a known tool |
| `Gateway.UnknownToolIsMethodNotFound` | src/index.ts:182-186 | a name outside the catalog fails with MethodNotFound `Unknown tool: <name>`, never InvalidParams, whatever the arguments and backend |
| `Gateway.ValidationPrecedesBackend` | src/index.ts:125-180 | for searchIssues, getIssue and updateIssue a validation failure is the call's InvalidParams result and the backend has no influence on it |
| `Gateway.GetProjectsIgnoresArguments` | src/index.ts:110-122 | getProjects gives the same result with absent or arbitrary arguments, and the backend's project list when it succeeds |
| `Gateway.CallFor` | src/index.ts:135-173 | each tool calls the backend operation of the same name, and the validating tools hand it their arguments unchanged |
| `Gateway.BackendOutcomeIsClassified` | src/index.ts:107-199 | after validation, a backend value is the reply, a protocol error from the backend comes back unchanged, and any other error becomes InternalError naming the tool |
| `Server.GetProjectsRunsClientMethod` | src/index.ts:110-122 | getProjects, with any arguments, replies with the value of the client's `getProjects` and reports its error classified under `getProjects` |
| `Server.SearchIssuesRunsClientMethod` | src/index.ts:125-142 | searchIssues with `projectId` present runs the client's `searchIssues` on the arguments as given; its value is the reply and its error is classified under `searchIssues` |
| `Server.GetIssueRunsClientMethod` | src/index.ts:144-161 | getIssue with `issueId` present runs the client's `getIssue` on the arguments as given; its value is the reply and its error is classified under `getIssue` |
| `Server.UpdateIssueRunsClientMethod` | src/index.ts:163-180 | updateIssue with `issueId` present runs the client's `updateIssue` on the arguments as given; its value is the reply and its error is classified under `updateIssue` |
| `Server.MissingIssueIdSendsNothing` | src/index.ts:144-154 | `getIssue` with `{}` fails with InvalidParams `Missing required argument: issueId`, whatever the HTTP client would answer |
| `Server.InvalidStatusUpdateIsInternalError` | src/index.ts:163-197 | an update with an untranslatable status reaches the caller as InternalError `Error executing tool updateIssue: Invalid status: <status>` (or with the TypeError's message for an unconvertible status), whatever the HTTP client would answer |
| `Server.UnconvertibleIssueIdIsInternalError` | src/backlog/client.ts:54-63 | `getIssue` with an issue key that has its own `toString` field reaches the caller as InternalError `Error executing tool getIssue: Cannot convert object to primitive value`, whatever the HTTP client would answer |
| `Server.ProjectsTransportFailure` | src/backlog/client.ts:117-126 | a transport failure without remote message reaches the caller as InternalError `Error executing tool getProjects: Backlog API error: <transport message>`, whatever the arguments |
| `Server.ClosedStatusSearch` | src/index.ts:125-142 | a search for `[完了]` sends `statusId[] = [4]` for the one project and replies with the remote answer |

## Left out

- HTTP and the remote Backlog API: the HTTP client is a function parameter; how it joins the base URL and the path, serialises query parameters (it drops `undefined` and `null` ones) and adds the API key is not modelled. A request records base URL, path, key, query and body separately.
- MCP SDK plumbing: the `Server` object, the stdio transport, handler registration, `run()`, the SIGINT shutdown and `console.error` logging.
- Reading `BACKLOG_SPACE_URL` / `BACKLOG_API_KEY` from the environment and the fatal startup check (src/index.ts:26-31): process configuration.
- `JSON.stringify(..., null, 2)` and the response envelope: `SingleText(payload)` stands for the single text item holding the pretty-printed payload.
- async/Promise scheduling: every call is modelled as one sequential evaluation.
- `Client.GetStatusId`: looks names up in a closed map, so keys inherited by plain JavaScript objects (`constructor`, `toString`, …), which the source's object lookup would find, are treated as unknown names.
- `Client.NormalizeError`: the remote message is an optional string; a response without a `data` body, where the source's `error.response?.data.message` itself throws a TypeError, and a non-string remote `message` are not modelled.
- `Client.StatusIds`: when `status` is present but neither nullish nor an array, the source throws a TypeError whose wording depends on the JavaScript engine and compilation target; the model uses the fixed text `args.status?.map is not a function`. Likewise `JsValues.ToJsString` uses V8's wording `Cannot convert object to primitive value` for an object whose own `toString` field hides the inherited method; the model only distinguishes whether such a field exists, not whether its value happens to be callable (parsed JSON never holds functions).
- Numbers are integers: fractional numbers, `NaN` and the exponent notation JavaScript uses for large magnitudes are not modelled in string conversion.
- `McpError` messages are kept as passed to the constructor; the SDK's `MCP error <code>: ` prefix on `.message` is not modelled.
- Errors thrown that are not `Error` objects (where `.message` would read `undefined`) are not modelled.
- The shapes of `BacklogIssue` and `Project`: response bodies are opaque values passed through.
