/** An issue as the Git hosting API returns it, shared by the two issue-backed clients. */
module IssueTracker {
  import opened Wrappers
  import opened Values

  datatype IssueState = Open | Closed

  /** The properties the clients read: `number`, the nullable JSON `body` and `state`. */
  datatype Issue = Issue(id: int, number: int, title: string, body: Option<JsonText>, state: IssueState)
}
