/**
 * The Backlog REST client (src/backlog/client.ts): status-name translation,
 * base-URL normalisation, the shaping of the outbound search query and update
 * payload, and the mapping of HTTP-client errors into plain errors.
 *
 * The HTTP client itself is a parameter: `Http` takes the request the client
 * builds and either returns the response body or throws. A request that is
 * never built is never sent, so "fails before the request" is stated as "the
 * result is the same whatever the transport does".
 */
module Client {
  import opened Wrappers
  import opened JsValues
  import opened Errors
  import opened Schemas

  // ---------------------------------------------------------------------------
  // Status names

  /** The table `getStatusId` consults. */
  const StatusMap: map<string, int> := map["未対応" := 1, "処理中" := 2, "処理済み" := 3, "完了" := 4]

  /** The four workflow states of an issue, with their Backlog names and codes. */
  datatype Status = Unstarted | InProgress | Resolved | Closed {
    function Name(): string {
      match this
      case Unstarted => "未対応"
      case InProgress => "処理中"
      case Resolved => "処理済み"
      case Closed => "完了"
    }

    function Code(): int {
      match this
      case Unstarted => 1
      case InProgress => 2
      case Resolved => 3
      case Closed => 4
    }
  }

  /** The state a status code stands for, if any. */
  function StatusOfCode(code: int): (s: Option<Status>)
    ensures s.Some? ==> s.value.Code() == code
    ensures s.None? ==> forall st: Status :: st.Code() != code
  {
    match code
    case 1 => Some(Unstarted)
    case 2 => Some(InProgress)
    case 3 => Some(Resolved)
    case 4 => Some(Closed)
    case _ => None
  }

  /** `getStatusId`: a name of the table yields its code; any other name, and
      a name whose code is falsy, is rejected rather than given a default. */
  function GetStatusId(statusName: string): (r: Result<int, Thrown>)
    ensures forall s: Status :: statusName == s.Name() ==> r == Success(s.Code())
    ensures r.Success? ==> 1 <= r.value <= 4
    ensures r.Success? ==> StatusOfCode(r.value).Some? && StatusOfCode(r.value).value.Name() == statusName
    ensures r.Failure? <==> statusName !in StatusMap
    ensures r.Failure? ==> r.error == PlainError("Invalid status: " + statusName)
  {
    if statusName in StatusMap && StatusMap[statusName] != 0 then Success(StatusMap[statusName])
    else Failure(PlainError("Invalid status: " + statusName))
  }

  /** `getStatusId` applied to an untyped argument: the table lookup converts
      the value to a property key, which throws for an unconvertible object
      before any name is compared. */
  function StatusIdOf(status: Value): (r: Result<int, Thrown>)
    ensures status.Str? ==> r == GetStatusId(status.s)
    ensures !Convertible(status) ==> r == Failure(PlainError(CannotConvert))
    ensures Convertible(status) ==> (r.Failure? <==> JsString(status) !in StatusMap)
    ensures Convertible(status) && r.Failure? ==> r.error == PlainError("Invalid status: " + JsString(status))
    ensures r.Success? ==> StatusOfCode(r.value).Some? && StatusOfCode(r.value).value.Name() == JsString(status)
  {
    var key :- ToJsString(status);
    GetStatusId(key)
  }

  // ---------------------------------------------------------------------------
  // Configuration and requests

  predicate EndsWithSlash(url: string) {
    |url| > 0 && url[|url| - 1] == '/'
  }

  /** `spaceUrl.replace(/\/$/, '')`: removes one trailing slash, if there is one. */
  function StripTrailingSlash(url: string): (r: string)
    ensures r <= url
    ensures |url| - |r| <= 1
    ensures |r| < |url| <==> EndsWithSlash(url)
  {
    if EndsWithSlash(url) then url[..|url| - 1] else url
  }

  const ApiPath := "/api/v2"

  /** The configured client: the API base URL and the key sent with every request. */
  datatype Client = Client(baseUrl: string, apiKey: string)

  function NewClient(spaceUrl: string, apiKey: string): (c: Client)
    ensures c.apiKey == apiKey
    ensures |c.baseUrl| >= |ApiPath| && c.baseUrl[|c.baseUrl| - |ApiPath|..] == ApiPath
    ensures spaceUrl == c.baseUrl[..|c.baseUrl| - |ApiPath|] + (if EndsWithSlash(spaceUrl) then "/" else "")
  {
    Client(StripTrailingSlash(spaceUrl) + ApiPath, apiKey)
  }

  datatype Verb = Get | Patch

  /** A request as handed to the HTTP client: the path relative to the base URL,
      the query parameters (a key whose value is `undefined` is kept, as in the
      source's object literal), and a body for PATCH. */
  datatype Request = Request(verb: Verb, baseUrl: string, apiKey: string, path: string, params: Record, body: Option<Record>)

  /** The HTTP client: the response body, or the error it throws. */
  type Http = Request -> Result<Value, Thrown>

  function GetRequest(c: Client, path: string, params: Record): Request {
    Request(Get, c.baseUrl, c.apiKey, path, params, None)
  }

  /** `` `/issues/${args.issueId}` ``: the template literal throws for an
      unconvertible issue key. */
  function IssuePath(args: Record): (r: Result<string, Thrown>)
    ensures r.Success? <==> Convertible(Field(args, "issueId"))
    ensures r.Success? ==> r.value == "/issues/" + JsString(Field(args, "issueId"))
    ensures r.Failure? ==> r.error == PlainError(CannotConvert)
  {
    var id :- ToJsString(Field(args, "issueId"));
    Success("/issues/" + id)
  }

  // ---------------------------------------------------------------------------
  // Error normalisation

  const ApiErrorPrefix := "Backlog API error: "

  /** The `catch` of every operation: an HTTP-client error becomes a plain error
      carrying the remote `message` if there is one, else the client's own
      message; any other error is rethrown as it is. */
  function NormalizeError(e: Thrown): (r: Thrown)
    ensures !r.AxiosError?
    ensures e.AxiosError? && e.remoteMessage.Some? ==> r == PlainError(ApiErrorPrefix + e.remoteMessage.value)
    ensures e.AxiosError? && e.remoteMessage.None? ==> r == PlainError(ApiErrorPrefix + e.text)
    ensures !e.AxiosError? ==> r == e
  {
    match e
    case AxiosError(remote, text) => PlainError(ApiErrorPrefix + remote.GetOr(text))
    case _ => e
  }

  /** Normalising twice is normalising once: a normalised error is never
      wrapped again. */
  lemma NormalizeErrorIdempotent(e: Thrown)
    ensures NormalizeError(NormalizeError(e)) == NormalizeError(e)
  {
  }

  /** `r` is the HTTP client's `answer`, with a thrown error normalised. */
  predicate IsOutcomeOf(r: Result<Value, Thrown>, answer: Result<Value, Thrown>) {
    && (r.Success? <==> answer.Success?)
    && (answer.Success? ==> r.value == answer.value)
    && (answer.Failure? ==> r.error == NormalizeError(answer.error))
  }

  /** The body of a `try` block: build the request (which may throw), send it,
      and normalise whatever was thrown on the way. */
  function Perform(request: Result<Request, Thrown>, http: Http): Result<Value, Thrown> {
    var sent := match request
      case Failure(e) => Failure(e)
      case Success(req) => http(req);
    sent.MapFailure(NormalizeError)
  }

  // ---------------------------------------------------------------------------
  // searchIssues

  /** The message of the TypeError thrown when `status` is neither nullish nor an
      array, so that it has no callable `map`. The exact wording is the engine's. */
  const StatusNotMappable := "args.status?.map is not a function"

  /** `items.map(getStatusId)`: the codes in order, or the error of the first
      element that does not translate. */
  function MapStatusIds(items: seq<Value>): (r: Result<seq<Value>, Thrown>)
    ensures r.Success? <==> forall i :: 0 <= i < |items| ==> StatusIdOf(items[i]).Success?
    ensures r.Success? ==> |r.value| == |items|
    ensures r.Success? ==> forall i :: 0 <= i < |items| ==>
      Convertible(items[i]) && r.value[i] == Num(StatusMap[JsString(items[i])])
    ensures r.Failure? ==> exists i :: (0 <= i < |items| && StatusIdOf(items[i]).Failure?
      && (forall j :: 0 <= j < i ==> StatusIdOf(items[j]).Success?)
      && r.error == StatusIdOf(items[i]).error)
  {
    if |items| == 0 then Success([])
    else
      var code :- StatusIdOf(items[0]);
      var rest :- MapStatusIds(items[1..]);
      Success([Num(code)] + rest)
  }

  /** `args.status?.map(getStatusId)`: `undefined` for a nullish status, the
      array of codes for an array, and a TypeError for anything else, which has
      no `map` method to call. */
  function StatusIds(status: Value): (r: Result<Value, Thrown>)
    ensures status.Undefined? || status.Null? ==> r == Success(Undefined)
    ensures status.Arr? ==> (r.Success? <==> MapStatusIds(status.items).Success?)
    ensures status.Arr? && r.Success? ==> r.value == Arr(MapStatusIds(status.items).value)
    ensures status.Arr? && r.Failure? ==> r.error == MapStatusIds(status.items).error
    ensures !(status.Undefined? || status.Null? || status.Arr?) ==> r == Failure(PlainError(StatusNotMappable))
    ensures r.Success? && r.value.Arr? ==> forall i :: 0 <= i < |r.value.items| ==>
      r.value.items[i].Num? && 1 <= r.value.items[i].n <= 4
  {
    match status
    case Undefined => Success(Undefined)
    case Null => Success(Undefined)
    case Arr(items) => var codes :- MapStatusIds(items); Success(Arr(codes))
    case _ => Failure(PlainError(StatusNotMappable))
  }

  /** The query parameters of the search. */
  function SearchParams(args: Record): (r: Result<Record, Thrown>)
    ensures r.Success? ==> r.value.Keys == {"projectId[]", "keyword", "statusId[]"}
    ensures r.Success? ==> r.value["projectId[]"] == Arr([Field(args, "projectId")])
    ensures r.Success? ==> r.value["keyword"] == Field(args, "keyword")
    ensures r.Failure? <==> StatusIds(Field(args, "status")).Failure?
  {
    var statusIds :- StatusIds(Field(args, "status"));
    Success(map["projectId[]" := Arr([Field(args, "projectId")]), "keyword" := Field(args, "keyword"), "statusId[]" := statusIds])
  }

  function SearchIssuesRequest(c: Client, args: Record): Result<Request, Thrown> {
    var params :- SearchParams(args);
    Success(GetRequest(c, "/issues", params))
  }

  /** `searchIssues`: an error while building the query is thrown unchanged and
      nothing is sent; otherwise the outcome is the HTTP client's answer to
      `GET /issues` with that query. */
  function SearchIssues(c: Client, args: Record, http: Http): (r: Result<Value, Thrown>)
    ensures SearchParams(args).Failure? ==> r == Failure(SearchParams(args).error)
    ensures SearchParams(args).Success? ==> IsOutcomeOf(r, http(GetRequest(c, "/issues", SearchParams(args).value)))
    ensures r.Failure? ==> !r.error.AxiosError?
  {
    Perform(SearchIssuesRequest(c, args), http)
  }

  /** The status filter: absent when `status` is absent or `null`, the codes of
      the names in the same order when it is an array, in which case the whole
      call fails on the first element that does not translate; any other value
      fails the call with the TypeError before a request is sent. */
  lemma SearchStatusFilter(c: Client, args: Record, http1: Http, http2: Http)
    ensures Field(args, "status") == Undefined || Field(args, "status") == Null ==>
      SearchParams(args).Success? && SearchParams(args).value["statusId[]"] == Undefined
    ensures Field(args, "status").Arr? ==>
      var names := Field(args, "status").items;
      (SearchParams(args).Success? <==> forall i :: 0 <= i < |names| ==> StatusIdOf(names[i]).Success?)
      && (SearchParams(args).Success? ==>
            SearchParams(args).value["statusId[]"].Arr?
            && |SearchParams(args).value["statusId[]"].items| == |names|
            && forall i :: 0 <= i < |names| ==>
                 SearchParams(args).value["statusId[]"].items[i] == Num(StatusMap[JsString(names[i])]))
    ensures !(Field(args, "status").Undefined? || Field(args, "status").Null? || Field(args, "status").Arr?) ==>
      SearchIssues(c, args, http1) == SearchIssues(c, args, http2) == Failure(PlainError(StatusNotMappable))
  {
  }

  /** For the arguments the `SearchIssuesArgs` interface describes: the project
      filter is the singleton project, the keyword is passed verbatim, and the
      status codes decode back to the names given, in order. */
  lemma SearchQueryRoundTrip(a: SearchIssuesArgs)
    requires a.status.Some? ==> forall i :: 0 <= i < |a.status.value| ==> a.status.value[i] in StatusMap
    ensures SearchParams(SearchIssuesRecord(a)).Success?
    ensures SearchParams(SearchIssuesRecord(a)).value["projectId[]"] == Arr([Num(a.projectId)])
    ensures SearchParams(SearchIssuesRecord(a)).value["keyword"] == (if a.keyword.Some? then Str(a.keyword.value) else Undefined)
    ensures a.status.None? ==> SearchParams(SearchIssuesRecord(a)).value["statusId[]"] == Undefined
    ensures a.status.Some? ==>
      var codes := SearchParams(SearchIssuesRecord(a)).value["statusId[]"];
      codes.Arr? && |codes.items| == |a.status.value|
      && forall i :: 0 <= i < |a.status.value| ==>
           codes.items[i].Num? && StatusOfCode(codes.items[i].n).Some?
           && StatusOfCode(codes.items[i].n).value.Name() == a.status.value[i]
  {
  }

  // ---------------------------------------------------------------------------
  // updateIssue

  /** The PATCH body: `statusId` when `status` is truthy, `comment` when it is
      truthy, `description` whenever it is not `undefined`; nothing else. An
      untranslatable status throws before any body exists. */
  function UpdatePayload(args: Record): (r: Result<Record, Thrown>)
    ensures r.Failure? <==> Truthy(Field(args, "status")) && StatusIdOf(Field(args, "status")).Failure?
    ensures r.Failure? ==> r.error == StatusIdOf(Field(args, "status")).error
    ensures r.Success? ==> r.value.Keys <= {"statusId", "comment", "description"}
    ensures r.Success? ==> ("statusId" in r.value <==> Truthy(Field(args, "status")))
    ensures r.Success? && "statusId" in r.value ==>
      Convertible(Field(args, "status")) && r.value["statusId"] == Num(StatusMap[JsString(Field(args, "status"))])
    ensures r.Success? ==> ("comment" in r.value <==> Truthy(Field(args, "comment")))
    ensures r.Success? && "comment" in r.value ==> r.value["comment"] == Field(args, "comment")
    ensures r.Success? ==> ("description" in r.value <==> Field(args, "description") != Undefined)
    ensures r.Success? && "description" in r.value ==> r.value["description"] == Field(args, "description")
  {
    var status := Field(args, "status");
    var comment := Field(args, "comment");
    var description := Field(args, "description");
    var withStatus: Record :-
      if Truthy(status) then
        var code :- StatusIdOf(status);
        Success(map["statusId" := Num(code)])
      else Success(map[]);
    var withComment := if Truthy(comment) then withStatus["comment" := comment] else withStatus;
    Success(if description != Undefined then withComment["description" := description] else withComment)
  }

  /** The body is built before the path, as the statements run in that order. */
  function UpdateIssueRequest(c: Client, args: Record): Result<Request, Thrown> {
    var body :- UpdatePayload(args);
    var path :- IssuePath(args);
    Success(Request(Patch, c.baseUrl, c.apiKey, path, map[], Some(body)))
  }

  /** `updateIssue`: an untranslatable status, and then an unconvertible issue
      key, is thrown unchanged and nothing is sent; otherwise the outcome is the
      HTTP client's answer to the PATCH of `/issues/<issueId>` with the payload
      as body. */
  function UpdateIssue(c: Client, args: Record, http: Http): (r: Result<Value, Thrown>)
    ensures UpdatePayload(args).Failure? ==> r == Failure(UpdatePayload(args).error)
    ensures UpdatePayload(args).Success? && !Convertible(Field(args, "issueId")) ==> r == Failure(PlainError(CannotConvert))
    ensures UpdatePayload(args).Success? && Convertible(Field(args, "issueId")) ==>
      IsOutcomeOf(r, http(Request(Patch, c.baseUrl, c.apiKey, "/issues/" + JsString(Field(args, "issueId")),
                                  map[], Some(UpdatePayload(args).value))))
    ensures r.Failure? ==> !r.error.AxiosError?
  {
    Perform(UpdateIssueRequest(c, args), http)
  }

  /** Drops an empty string, the value a truthiness test rejects. */
  function NonEmpty(o: Option<string>): Option<string> {
    if o == Some("") then None else o
  }

  /** Reads an update payload back into the arguments it carries: the status
      name is recovered from its code. */
  function PayloadArgs(issueId: string, payload: Record): UpdateIssueArgs {
    var status :=
      if "statusId" in payload && payload["statusId"].Num? && StatusOfCode(payload["statusId"].n).Some?
      then Some(StatusOfCode(payload["statusId"].n).value.Name()) else None;
    var description := if "description" in payload && payload["description"].Str? then Some(payload["description"].s) else None;
    var comment := if "comment" in payload && payload["comment"].Str? then Some(payload["comment"].s) else None;
    UpdateIssueArgs(issueId, status, description, comment)
  }

  /** For the arguments the `UpdateIssueArgs` interface describes, the payload
      carries exactly what was supplied, except that an empty status or comment
      is dropped, while an empty description is kept. */
  lemma UpdatePayloadRoundTrip(a: UpdateIssueArgs)
    requires a.status.Some? && a.status.value != "" ==> a.status.value in StatusMap
    ensures UpdatePayload(UpdateIssueRecord(a)).Success?
    ensures PayloadArgs(a.issueId, UpdatePayload(UpdateIssueRecord(a)).value)
         == a.(status := NonEmpty(a.status), comment := NonEmpty(a.comment))
  {

  }

  /** The issue key goes into the path only, never into the body. */
  lemma IssueIdOnlyInPath(c: Client, args: Record)
    requires UpdateIssueRequest(c, args).Success?
    ensures Convertible(Field(args, "issueId"))
    ensures UpdateIssueRequest(c, args).value.path == "/issues/" + JsString(Field(args, "issueId"))
    ensures UpdateIssueRequest(c, args).value.verb == Patch
    ensures "issueId" !in UpdateIssueRequest(c, args).value.body.value
  {
  }

  // ---------------------------------------------------------------------------
  // getIssue and getProjects

  /** `getIssue`: the outcome of `GET /issues/<issueId>`, or, for an
      unconvertible issue key, the TypeError without a request. */
  function GetIssue(c: Client, args: Record, http: Http): (r: Result<Value, Thrown>)
    ensures !Convertible(Field(args, "issueId")) ==> r == Failure(PlainError(CannotConvert))
    ensures Convertible(Field(args, "issueId")) ==>
      IsOutcomeOf(r, http(GetRequest(c, "/issues/" + JsString(Field(args, "issueId")), map[])))
    ensures r.Failure? ==> !r.error.AxiosError?
  {
    Perform(var path :- IssuePath(args); Success(GetRequest(c, path, map[])), http)
  }

  /** `getProjects`: the outcome of `GET /projects`. */
  function GetProjects(c: Client, http: Http): (r: Result<Value, Thrown>)
    ensures IsOutcomeOf(r, http(GetRequest(c, "/projects", map[])))
    ensures r.Failure? ==> !r.error.AxiosError?
  {
    Perform(Success(GetRequest(c, "/projects", map[])), http)
  }

  // ---------------------------------------------------------------------------
  // Properties of the operations

  /** An untranslatable status fails the update with `Invalid status` (or with
      the conversion's TypeError), unchanged by the error mapping, and whatever
      the HTTP client would have done. */
  lemma InvalidStatusFailsUpdateBeforeRequest(c: Client, args: Record, http1: Http, http2: Http)
    requires Truthy(Field(args, "status")) && StatusIdOf(Field(args, "status")).Failure?
    ensures UpdateIssue(c, args, http1) == UpdateIssue(c, args, http2)
    ensures Convertible(Field(args, "status")) ==>
      UpdateIssue(c, args, http1) == Failure(PlainError("Invalid status: " + JsString(Field(args, "status"))))
    ensures !Convertible(Field(args, "status")) ==> UpdateIssue(c, args, http1) == Failure(PlainError(CannotConvert))
  {
  }

  /** The same for the search: the first unknown name in `status` fails the
      call without a request. */
  lemma InvalidStatusFailsSearchBeforeRequest(c: Client, args: Record, http1: Http, http2: Http, i: nat)
    requires Field(args, "status").Arr? && i < |Field(args, "status").items|
    requires StatusIdOf(Field(args, "status").items[i]).Failure?
    ensures SearchIssues(c, args, http1) == SearchIssues(c, args, http2)
    ensures SearchIssues(c, args, http1).Failure? && SearchIssues(c, args, http1).error.PlainError?
    ensures exists j :: (0 <= j <= i && StatusIdOf(Field(args, "status").items[j]).Failure?
      && SearchIssues(c, args, http1).error == StatusIdOf(Field(args, "status").items[j]).error)
  {
  }

  /** Searching for the closed status alone filters on code 4 in the one project. */
  lemma ClosedStatusQuery(projectId: int)
    ensures SearchParams(map["projectId" := Num(projectId), "status" := Arr([Str(Closed.Name())])])
         == Success(map["projectId[]" := Arr([Num(projectId)]), "keyword" := Undefined, "statusId[]" := Arr([Num(4)])])
  {
    var names := [Str(Closed.Name())];
    assert MapStatusIds(names[1..]) == Success([]);
    assert [Num(4)] + [] == [Num(4)];
    assert MapStatusIds(names) == Success([Num(4)]);
  }

  /** A number given as status (the schema's type is not checked) never names
      a status: its numeral starts with a digit or a minus sign. */
  lemma NumericStatusRejected(n: int)
    ensures StatusIdOf(Num(n)) == Failure(PlainError("Invalid status: " + IntToDecimal(n)))
  {

  }

  /** A transport failure with no remote message surfaces as the transport's
      own description; one with a remote message prefers it. */
  lemma TransportFailureMessage(c: Client, http: Http, remote: Option<string>, text: string)
    requires http(GetRequest(c, "/projects", map[])) == Failure(AxiosError(remote, text))
    ensures remote.None? ==> GetProjects(c, http) == Failure(PlainError(ApiErrorPrefix + text))
    ensures remote.Some? ==> GetProjects(c, http) == Failure(PlainError(ApiErrorPrefix + remote.value))
  {
  }
}
