/** `GitHubClient` of `src/github.ts`: tasks stored as issues, the task's JSON in the issue body and
    its completion in the issue state. Its fields are written only by the constructor, so the
    client is a value here. */
module GitHubClient {
  import opened Wrappers
  import opened Strings
  import opened Values
  import opened Http
  import opened IssueTracker

  datatype Client = Client(apiUrl: string, token: string)

  /** `new GitHubClient(owner, repo, token)`. */
  function NewClient(owner: string, repo: string, token: string): (c: Client)
    ensures c.token == token
    ensures "https://api.github.com/repos/" + owner + "/" <= c.apiUrl
    ensures EndsWith(c.apiUrl, "/" + repo + "/issues")
  {
    Client("https://api.github.com/repos/" + owner + "/" + repo + "/issues", token)
  }

  function DefaultHeaders(c: Client): (h: map<string, string>)
    ensures h.Keys == {"Authorization", "Content-Type", "Accept", "User-Agent"}
    ensures h["Authorization"] == "token " + c.token && h["Content-Type"] == "application/json"
  {
    map["Authorization" := "token " + c.token, "Content-Type" := "application/json",
        "Accept" := "application/vnd.github.v3+json", "User-Agent" := "Cloudflare-Worker"]
  }

  /** `{ ...headers, ...options.headers }`: the caller's headers win on a clash, every other
      default is kept. */
  function RequestHeaders(c: Client, callerHeaders: map<string, string>): (h: map<string, string>)
    ensures h.Keys == DefaultHeaders(c).Keys + callerHeaders.Keys
    ensures forall k :: k in callerHeaders ==> h[k] == callerHeaders[k]
    ensures forall k :: k in DefaultHeaders(c) && k !in callerHeaders ==> h[k] == DefaultHeaders(c)[k]
  {
    DefaultHeaders(c) + callerHeaders
  }

  /** The body of a create or update: `{ title, body, state? }`. */
  datatype IssuePayload = IssuePayload(title: Value, body: JsonText, state: Option<string>)

  datatype IssueRequest = IssueRequest(verb: string, url: string, headers: map<string, string>, payload: Option<IssuePayload>)

  /** One request and what the operation returns or throws. */
  datatype Call<T> = Call(request: IssueRequest, result: Result<T, string>)

  /** `request(path, options)`: to `apiUrl + path`, with the default headers (no caller passes any). */
  function Send(c: Client, verb: string, path: string, payload: Option<IssuePayload>): (r: IssueRequest)
    ensures r.verb == verb && r.payload == payload
    ensures c.apiUrl <= r.url && r.url[|c.apiUrl|..] == path
    ensures r.headers == DefaultHeaders(c)
  {
    IssueRequest(verb, c.apiUrl + path, RequestHeaders(c, map[]), payload)
  }

  /** `JSON.parse(issue.body || '{}')`: a null or empty body reads as `{}`. */
  function ParsedBody(issue: Issue): (r: Result<Value, string>)
    ensures issue.body.None? || !TextTruthy(issue.body.value) ==> r == Success(Obj(map[]))
    ensures issue.body.Some? && issue.body.value.Serialized? ==> r == Success(issue.body.value.value)
    ensures r.Failure? <==> issue.body.Some? && issue.body.value.Malformed? && issue.body.value.text != ""
  {
    if issue.body.Some? && TextTruthy(issue.body.value) then Parse(issue.body.value)
    else Parse(Stringify(Obj(map[]), 0))
  }

  /** `{ id: issue.number, ...taskData, completed: issue.state === 'closed' }`. */
  function IssueToTask(issue: Issue): (r: Result<Record, string>)
    ensures r.Success? <==> ParsedBody(issue).Success?
    ensures r.Success? ==> r.value.Keys == Spread(ParsedBody(issue).value).Keys + {"id", "completed"}
    ensures r.Success? ==> r.value["completed"] == Bool(issue.state == Closed)
    ensures r.Success? ==> var body := Spread(ParsedBody(issue).value);
      r.value["id"] == if "id" in body then body["id"] else Num(issue.number)
    ensures r.Success? ==> var body := Spread(ParsedBody(issue).value);
      forall k :: k in body && k != "completed" ==> r.value[k] == body[k]
  {
    match ParsedBody(issue)
    case Failure(e) => Failure(e)
    case Success(taskData) => Success((map["id" := Num(issue.number)] + Spread(taskData))["completed" := Bool(issue.state == Closed)])
  }

  /** An issue without a body is the task `{ id, completed }`. */
  lemma NullBodyTask(issue: Issue)
    requires issue.body.None?
    ensures IssueToTask(issue) == Success(map["id" := Num(issue.number), "completed" := Bool(issue.state == Closed)])
  {
    assert ParsedBody(issue) == Success(Obj(map[]));
    assert map["id" := Num(issue.number)] + map[] == map["id" := Num(issue.number)];
  }

  /** `parsedIssues.map(...)`: every issue mapped, order kept; the first body that fails to parse throws. */
  function IssuesToTasks(issues: seq<Issue>): (r: Result<seq<Record>, string>)
    ensures r.Success? <==> forall i :: 0 <= i < |issues| ==> IssueToTask(issues[i]).Success?
    ensures r.Success? ==> |r.value| == |issues|
    ensures r.Success? ==> forall i :: 0 <= i < |issues| ==> Success(r.value[i]) == IssueToTask(issues[i])
  {
    if |issues| == 0 then Success([])
    else
      match IssueToTask(issues[0])
      case Failure(e) => Failure(e)
      case Success(t) =>
        match IssuesToTasks(issues[1..])
        case Failure(e) => Failure(e)
        case Success(rest) => Success([t] + rest)
  }

  /** `listIssues()`. */
  function ListIssues(c: Client, response: Response<seq<Issue>>): (r: Call<seq<Record>>)
    ensures r.request == Send(c, "GET", "", None)
    ensures !response.Ok() ==> r.result == Failure("Failed to list issues: " + response.statusText)
    ensures response.Ok() ==> r.result == IssuesToTasks(response.body)
  {
    var request := Send(c, "GET", "", None);
    if !response.Ok() then Call(request, Failure("Failed to list issues: " + response.statusText))
    else Call(request, IssuesToTasks(response.body))
  }

  /** `createIssue(taskData)`: the title is the task's name and the body its JSON. */
  function CreateIssue(c: Client, taskData: Record, response: Response<Issue>): (r: Call<Record>)
    ensures r.request.verb == "POST" && r.request.url == c.apiUrl && r.request.headers == DefaultHeaders(c)
    ensures r.request.payload.Some?
    ensures r.request.payload.value.title == Get(taskData, "name")
    ensures Parse(r.request.payload.value.body) == Success(Obj(taskData))
    ensures r.request.payload.value.state == None
    ensures !response.Ok() ==> r.result == Failure("Failed to create issue: " + response.statusText)
    ensures response.Ok() ==> r.result == IssueToTask(response.body)
  {
    var request := Send(c, "POST", "", Some(IssuePayload(Get(taskData, "name"), Stringify(Obj(taskData), 0), None)));
    if !response.Ok() then Call(request, Failure("Failed to create issue: " + response.statusText))
    else Call(request, IssueToTask(response.body))
  }

  /** `getIssue(issueNumber)`. */
  function GetIssue(c: Client, issueNumber: int, response: Response<Issue>): (r: Call<Record>)
    ensures r.request == Send(c, "GET", "/" + IntToString(issueNumber), None)
    ensures !response.Ok() ==> r.result == Failure("Failed to get issue: " + response.statusText)
    ensures response.Ok() ==> r.result == IssueToTask(response.body)
  {
    var request := Send(c, "GET", "/" + IntToString(issueNumber), None);
    if !response.Ok() then Call(request, Failure("Failed to get issue: " + response.statusText))
    else Call(request, IssueToTask(response.body))
  }

  /** The state an update asks for: `closed` exactly when the task's `completed` is truthy. */
  function UpdateState(taskData: Record): (s: string)
    ensures s == "closed" <==> Truthy(Get(taskData, "completed"))
    ensures s == "closed" || s == "open"
  {
    if Truthy(Get(taskData, "completed")) then "closed" else "open"
  }

  /** `updateIssue(issueNumber, taskData)`: title, JSON body and state, all from the task. */
  function UpdateIssue(c: Client, issueNumber: int, taskData: Record, response: Response<Issue>): (r: Call<Record>)
    ensures r.request.verb == "PATCH" && r.request.url == c.apiUrl + "/" + IntToString(issueNumber)
    ensures r.request.headers == DefaultHeaders(c)
    ensures r.request.payload == Some(IssuePayload(Get(taskData, "name"), Stringify(Obj(taskData), 0), Some(UpdateState(taskData))))
    ensures !response.Ok() ==> r.result == Failure("Failed to update issue: " + response.statusText)
    ensures response.Ok() ==> r.result == IssueToTask(response.body)
  {
    var payload := IssuePayload(Get(taskData, "name"), Stringify(Obj(taskData), 0), Some(UpdateState(taskData)));
    var request := Send(c, "PATCH", "/" + IntToString(issueNumber), Some(payload));
    if !response.Ok() then Call(request, Failure("Failed to update issue: " + response.statusText))
    else Call(request, IssueToTask(response.body))
  }

  /** The requests `closeIssue` makes and whether it throws. */
  datatype CloseRun = CloseRun(requests: seq<IssueRequest>, result: Result<(), string>)

  /** `closeIssue(issueNumber)`: read the task, then write it back with `completed: true`. */
  function CloseIssue(c: Client, issueNumber: int, getResponse: Response<Issue>, patchResponse: Response<Issue>): (r: CloseRun)
    ensures 1 <= |r.requests| <= 2
    ensures r.requests[0] == GetIssue(c, issueNumber, getResponse).request
    ensures |r.requests| == 1 <==> GetIssue(c, issueNumber, getResponse).result.Failure?
    ensures |r.requests| == 1 ==> r.result.Failure?
    ensures |r.requests| == 2 ==>
      var task := GetIssue(c, issueNumber, getResponse).result.value;
      && r.requests[1].verb == "PATCH"
      && r.requests[1].payload.Some?
      && r.requests[1].payload.value.state == Some("closed")
      && Parse(r.requests[1].payload.value.body) == Success(Obj(task["completed" := Bool(true)]))
      && r.requests[1] == UpdateIssue(c, issueNumber, task["completed" := Bool(true)], patchResponse).request
    ensures |r.requests| == 2 ==> (r.result.Success? <==> UpdateIssue(c, issueNumber, GetIssue(c, issueNumber, getResponse).result.value["completed" := Bool(true)], patchResponse).result.Success?)
  {
    var read := GetIssue(c, issueNumber, getResponse);
    if read.result.Failure? then CloseRun([read.request], Failure(read.result.error))
    else
      var written := UpdateIssue(c, issueNumber, read.result.value["completed" := Bool(true)], patchResponse);
      CloseRun([read.request, written.request], if written.result.Success? then Success(()) else Failure(written.result.error))
  }

  /** A created task reads back with the issue's number unless its own data carries an `id`,
      and is never completed while its issue is open. */
  lemma CreatedTaskIdentity(c: Client, taskData: Record, response: Response<Issue>)
    requires response.Ok() && response.body.state == Open
    requires response.body.body == Some(Stringify(Obj(taskData), 0))
    ensures var r := CreateIssue(c, taskData, response).result;
      && r.Success?
      && r.value["id"] == (if "id" in taskData then taskData["id"] else Num(response.body.number))
      && r.value["completed"] == Bool(false)
      && forall k :: k in taskData && k != "id" && k != "completed" ==> r.value[k] == taskData[k]
  {
  }
}
