/** `TaskCreate` of `src/endpoints/tasks/taskCreate.ts`: a presence check, then one issue created
    with the label `task`. */
module TaskCreate {
  import opened Wrappers
  import opened Values
  import opened Http
  import GitHubIssues

  /** The issue request the handler made, if any, and its reply. */
  datatype HandlerRun = HandlerRun(request: Option<GitHubIssues.IssuesRequest>, reply: Reply)

  /** `TaskCreate(c)` for the JSON object `body`; `response` is the store's answer to the create. */
  function Handle(env: GitHubIssues.Env, body: Record, response: Response<Value>): (r: HandlerRun)
    ensures r.request.None? <==> !Truthy(Get(body, "name")) || !Truthy(Get(body, "slug"))
    ensures r.request.None? ==> r.reply == Reply(400, ErrorBody("Missing required fields"))
    ensures r.request.Some? ==> r.request.value == GitHubIssues.CreateIssue(env, Get(body, "name"), body, Some(["task"]), response).request
    ensures r.request.Some? && response.Ok() ==> r.reply == Reply(201, response.body)
    ensures r.request.Some? && !response.Ok() ==> r.reply == Reply(500, ErrorBody(GitHubIssues.ApiError(response)))
  {
    if !Truthy(Get(body, "name")) || !Truthy(Get(body, "slug")) then
      HandlerRun(None, Reply(400, ErrorBody("Missing required fields")))
    else
      var created := GitHubIssues.CreateIssue(env, Get(body, "name"), body, Some(["task"]), response);
      HandlerRun(Some(created.request),
                 match created.result
                 case Success(task) => Reply(201, task)
                 case Failure(message) => Reply(500, ErrorBody(message)))
  }

  /** The created issue carries the whole body, under the label `task` only, titled by its name. */
  lemma CreatedIssueCarriesBody(env: GitHubIssues.Env, body: Record, response: Response<Value>)
    requires Truthy(Get(body, "name")) && Truthy(Get(body, "slug"))
    ensures var p := Handle(env, body, response).request.value.payload.value;
      && p.title == body["name"]
      && p.labels == ["task"]
      && Parse(p.body) == Success(Obj(body))
  {
  }
}
