/**
 * The JSON records the frontend pages receive, with the fields they read. `null` and a
 * missing field both become `None`.
 */
module Views {
  import opened Common

  datatype IssueData = IssueData(
    id: int,
    title: string,
    description: Option<string>,
    status: string,
    priority: string,
    projectId: int,
    reporterId: int,
    assigneeId: Option<int>)

  /** The body of `GET /issues/`. */
  datatype IssueListData = IssueListData(items: seq<IssueData>, total: nat, skip: int, limit: int)

  datatype CommentData = CommentData(id: int, body: string, authorId: int)

  datatype ProjectData = ProjectData(id: int, name: string, key: string, description: Option<string>)

  /** The badge variants of the UI kit. */
  datatype Variant = Default | Secondary | Outline | Destructive
}
