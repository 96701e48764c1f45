/** The issue helpers of `src/lib/github-issues.ts`: records stored as the pretty-printed JSON body
    of an issue, found by label. */
module GitHubIssues {
  import opened Wrappers
  import opened Strings
  import opened Values
  import opened Http
  import opened IssueTracker
  import GitHubClient

  /** The bindings the helpers read. */
  datatype Env = Env(owner: string, repo: string, token: string)

  /** `getGitHubApiUrl(env, path = "")`. */
  function ApiUrl(env: Env, path: string): (u: string)
    ensures "https://api.github.com/repos/" + env.owner + "/" <= u
    ensures EndsWith(u, "/issues" + path)
  {
    "https://api.github.com/repos/" + env.owner + "/" + env.repo + "/issues" + path
  }

  function ApiHeaders(env: Env): (h: map<string, string>)
    ensures h.Keys == {"Authorization", "User-Agent", "Accept"}
    ensures h["Authorization"] == "token " + env.token && h["User-Agent"] == "task-manager-app"
  {
    map["Authorization" := "token " + env.token, "User-Agent" := "task-manager-app",
        "Accept" := "application/vnd.github.v3+json"]
  }

  /** The JSON bodies the helpers send. */
  datatype IssueBody =
    | CreateBody(title: Value, body: JsonText, labels: seq<string>)
    | EditBody(body: JsonText)
    | StateBody(state: string)

  datatype IssuesRequest = IssuesRequest(verb: string, url: string, headers: map<string, string>, payload: Option<IssueBody>)

  /** One request and what the helper resolves to or throws. */
  datatype Call<T> = Call(request: IssuesRequest, result: Result<T, string>)

  function ApiError<B>(response: Response<B>): string
  {
    "GitHub API error: " + NatToString(response.status) + " " + response.statusText
  }

  /** `labels = ["task"]`. */
  function LabelsOrDefault(labels: Option<seq<string>>): (r: seq<string>)
    ensures labels.None? ==> r == ["task"]
    ensures labels.Some? ==> r == labels.value
  {
    if labels.Some? then labels.value else ["task"]
  }

  /** `createIssue(env, title, body, labels)`: the record travels as `JSON.stringify(body, null, 2)`. */
  function CreateIssue(env: Env, title: Value, body: Record, labels: Option<seq<string>>, response: Response<Value>): (r: Call<Value>)
    ensures r.request.verb == "POST" && r.request.url == ApiUrl(env, "") && r.request.headers == ApiHeaders(env)
    ensures r.request.payload.Some? && r.request.payload.value.CreateBody?
    ensures r.request.payload.value.title == title
    ensures Parse(r.request.payload.value.body) == Success(Obj(body))
    ensures r.request.payload.value.labels == if labels.None? then ["task"] else labels.value
    ensures !response.Ok() ==> r.result == Failure(ApiError(response))
    ensures response.Ok() ==> r.result == Success(response.body)
  {
    var request := IssuesRequest("POST", ApiUrl(env, ""), ApiHeaders(env), Some(CreateBody(title, Stringify(Obj(body), 2), LabelsOrDefault(labels))));
    Call(request, if response.Ok() then Success(response.body) else Failure(ApiError(response)))
  }

  /** `JSON.parse(issue.body)`: a `null` body parses to `null`. */
  function ParseNullable(body: Option<JsonText>): (r: Result<Value, string>)
    ensures body.None? ==> r == Success(Null)
    ensures body.Some? ==> r == Parse(body.value)
  {
    if body.None? then Success(Null) else Parse(body.value)
  }

  /** `{ id: issue.number, ...JSON.parse(issue.body) }`: the body's own `id`, if any, wins. */
  function IssueRecord(issue: Issue): (r: Result<Record, string>)
    ensures r.Success? <==> issue.body.None? || issue.body.value.Serialized?
    ensures r.Success? ==> r.value.Keys == Spread(ParseNullable(issue.body).value).Keys + {"id"}
    ensures r.Success? ==> var data := Spread(ParseNullable(issue.body).value);
      r.value["id"] == if "id" in data then data["id"] else Num(issue.number)
    ensures r.Success? ==> var data := Spread(ParseNullable(issue.body).value);
      forall k :: k in data ==> r.value[k] == data[k]
  {
    match ParseNullable(issue.body)
    case Failure(e) => Failure(e)
    case Success(data) => Success(map["id" := Num(issue.number)] + Spread(data))
  }

  /** `getIssue(env, issueNumber)`: `null` for a missing issue, the record otherwise. */
  function GetIssue(env: Env, issueNumber: int, response: Response<Issue>): (r: Call<Option<Record>>)
    ensures r.request == IssuesRequest("GET", ApiUrl(env, "/" + IntToString(issueNumber)), ApiHeaders(env), None)
    ensures response.status == 404 ==> r.result == Success(None)
    ensures !response.Ok() && response.status != 404 ==> r.result == Failure(ApiError(response))
    ensures response.Ok() ==> (r.result.Success? <==> IssueRecord(response.body).Success?)
    ensures response.Ok() && r.result.Success? ==> r.result.value == Some(IssueRecord(response.body).value)
  {
    var request := IssuesRequest("GET", ApiUrl(env, "/" + IntToString(issueNumber)), ApiHeaders(env), None);
    if !response.Ok() then
      Call(request, if response.status == 404 then Success(None) else Failure(ApiError(response)))
    else
      Call(request, match IssueRecord(response.body) case Failure(e) => Failure(e) case Success(rec) => Success(Some(rec)))
  }

  /** `updateIssue(env, issueNumber, body)`: the issue body is replaced by the new record's JSON. */
  function UpdateIssue(env: Env, issueNumber: int, body: Record, response: Response<Value>): (r: Call<Value>)
    ensures r.request.verb == "PATCH" && r.request.url == ApiUrl(env, "/" + IntToString(issueNumber))
    ensures r.request.headers == ApiHeaders(env)
    ensures r.request.payload.Some? && r.request.payload.value.EditBody?
    ensures Parse(r.request.payload.value.body) == Success(Obj(body))
    ensures !response.Ok() ==> r.result == Failure(ApiError(response))
    ensures response.Ok() ==> r.result == Success(response.body)
  {
    var request := IssuesRequest("PATCH", ApiUrl(env, "/" + IntToString(issueNumber)), ApiHeaders(env), Some(EditBody(Stringify(Obj(body), 2))));
    Call(request, if response.Ok() then Success(response.body) else Failure(ApiError(response)))
  }

  /** `closeIssue(env, issueNumber)`: only the state is sent, the body is left as it is. */
  function CloseIssue(env: Env, issueNumber: int, response: Response<Value>): (r: Call<Value>)
    ensures r.request.verb == "PATCH" && r.request.url == ApiUrl(env, "/" + IntToString(issueNumber))
    ensures r.request.headers == ApiHeaders(env)
    ensures r.request.payload == Some(StateBody("closed"))
    ensures !response.Ok() ==> r.result == Failure(ApiError(response))
    ensures response.Ok() ==> r.result == Success(response.body)
  {
    var request := IssuesRequest("PATCH", ApiUrl(env, "/" + IntToString(issueNumber)), ApiHeaders(env), Some(StateBody("closed")));
    Call(request, if response.Ok() then Success(response.body) else Failure(ApiError(response)))
  }

  /** `labels.join(",")` inside `?labels=…&state=open`. */
  function ListQuery(labels: seq<string>): (q: string)
    ensures "?labels=" <= q && EndsWith(q, "&state=open")
    ensures |q| == 19 + |Join(labels, ",")| && q[8..|q| - 11] == Join(labels, ",")
  {
    "?labels=" + Join(labels, ",") + "&state=open"
  }

  /** `issues.map(...)`: every issue read as a record, in order. */
  function IssueRecords(issues: seq<Issue>): (r: Result<seq<Record>, string>)
    ensures r.Success? <==> forall i :: 0 <= i < |issues| ==> IssueRecord(issues[i]).Success?
    ensures r.Success? ==> |r.value| == |issues|
    ensures r.Success? ==> forall i :: 0 <= i < |issues| ==> Success(r.value[i]) == IssueRecord(issues[i])
  {
    if |issues| == 0 then Success([])
    else
      match IssueRecord(issues[0])
      case Failure(e) => Failure(e)
      case Success(head) =>
        match IssueRecords(issues[1..])
        case Failure(e) => Failure(e)
        case Success(rest) => Success([head] + rest)
  }

  /** `listIssues(env, labels)`: the open issues carrying the labels. */
  function ListIssues(env: Env, labels: Option<seq<string>>, response: Response<seq<Issue>>): (r: Call<seq<Record>>)
    ensures r.request == IssuesRequest("GET", ApiUrl(env, ListQuery(LabelsOrDefault(labels))), ApiHeaders(env), None)
    ensures !response.Ok() ==> r.result == Failure(ApiError(response))
    ensures response.Ok() ==> r.result == IssueRecords(response.body)
  {
    var request := IssuesRequest("GET", ApiUrl(env, ListQuery(LabelsOrDefault(labels))), ApiHeaders(env), None);
    if !response.Ok() then Call(request, Failure(ApiError(response)))
    else Call(request, IssueRecords(response.body))
  }

  /** The label filter is recoverable from the query: splitting the joined labels at `,` gives
      them back, provided there is at least one and none contains a comma. */
  lemma LabelQueryRoundTrip(labels: seq<string>)
    requires |labels| >= 1
    requires forall i :: 0 <= i < |labels| ==> ',' !in labels[i]

    ensures Split(Join(labels, ","), ",") == labels
  {
    SplitJoinChar(labels, ',');
  }

  /** An issue whose body is the JSON a create or an update wrote reads back as that record
      with the issue number as `id` (unless the record has its own). The update replaces the
      body wholesale: a property the new record lacks is gone. */
  lemma WrittenBodyReadsBack(env: Env, issueNumber: int, record: Record, issue: Issue, response: Response<Issue>)
    requires issue.body == Some(Stringify(Obj(record), 2))
    requires response.Ok() && response.body == issue
    ensures GetIssue(env, issueNumber, response).result == Success(Some(map["id" := Num(issue.number)] + record))
    ensures forall k :: k != "id" && k !in record ==> k !in GetIssue(env, issueNumber, response).result.value.value
  {
  }

  /** A missing issue is `null`, not an error; every other failure status throws. */
  lemma MissingIssueIsNull(env: Env, issueNumber: int, response: Response<Issue>)
    ensures GetIssue(env, issueNumber, response).result == Success(None) <==> response.status == 404
  {
  }

  /** The helpers and `GitHubClient` address the same issue for the same repository. */
  lemma SameIssueUrl(env: Env, issueNumber: int)
    ensures ApiUrl(env, "/" + IntToString(issueNumber))
         == GitHubClient.NewClient(env.owner, env.repo, env.token).apiUrl + "/" + IntToString(issueNumber)
  {
  }
}
