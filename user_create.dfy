/** `UserCreate` of `src/endpoints/users/userCreate.ts`: a presence check, then one issue created
    with the label `user`. */
module UserCreate {
  import opened Wrappers
  import opened Values
  import opened Http
  import GitHubIssues

  /** The issue request the handler made, if any, and its reply. */
  datatype HandlerRun = HandlerRun(request: Option<GitHubIssues.IssuesRequest>, reply: Reply)

  /** `UserCreate(c)` for the JSON object `body`; `response` is the store's answer to the create. */
  function Handle(env: GitHubIssues.Env, body: Record, response: Response<Value>): (r: HandlerRun)
    ensures r.request.None? <==> !Truthy(Get(body, "username")) || !Truthy(Get(body, "email"))
    ensures r.request.None? ==> r.reply == Reply(400, ErrorBody("Missing required fields"))
    ensures r.request.Some? ==> r.request.value == GitHubIssues.CreateIssue(env, Get(body, "username"), body, Some(["user"]), response).request
    ensures r.request.Some? && response.Ok() ==> r.reply == Reply(201, response.body)
    ensures r.request.Some? && !response.Ok() ==> r.reply == Reply(500, ErrorBody(GitHubIssues.ApiError(response)))
  {
    if !Truthy(Get(body, "username")) || !Truthy(Get(body, "email")) then
      HandlerRun(None, Reply(400, ErrorBody("Missing required fields")))
    else
      var created := GitHubIssues.CreateIssue(env, Get(body, "username"), body, Some(["user"]), response);
      HandlerRun(Some(created.request),
                 match created.result
                 case Success(user) => Reply(201, user)
                 case Failure(message) => Reply(500, ErrorBody(message)))
  }

  /** Only presence is checked: any non-empty `email` string is passed on to the store, whatever
      its format. A body with the text `invalid-email` is created with status 201. */
  lemma AnyEmailTextIsAccepted(env: GitHubIssues.Env, body: Record, response: Response<Value>)
    requires Truthy(Get(body, "username"))
    requires "email" in body && body["email"].Str? && body["email"].s != ""
    requires response.Ok()
    ensures Handle(env, body, response).request.Some?
    ensures Handle(env, body, response).reply.status == 201
  {
  }
}
