/**
 * The database records of the issue tracker and the enumerations they use
 * (the `models` package of the backend).
 */
module Models {
  import opened Common

  /** `IssueStatus`: the four states an issue can be in. */
  datatype IssueStatus = Open | InProgress | Resolved | Closed

  /** `IssuePriority`: the four priority levels. */
  datatype IssuePriority = Low | Medium | High | Critical

  /** `Role`: the two roles a project membership can name. */
  datatype Role = Maintainer | Member

  /** The string value of each status, as stored and as sent over the wire. */
  function StatusValue(s: IssueStatus): string {
    match s
    case Open => "open"
    case InProgress => "in_progress"
    case Resolved => "resolved"
    case Closed => "closed"
  }

  function PriorityValue(p: IssuePriority): string {
    match p
    case Low => "low"
    case Medium => "medium"
    case High => "high"
    case Critical => "critical"
  }

  function RoleValue(r: Role): string {
    match r
    case Maintainer => "maintainer"
    case Member => "member"
  }

  /** Reading a status from its string: exactly the four values name a status, each a distinct one. */
  function ParseStatus(v: string): (r: Option<IssueStatus>)
    ensures r.Some? ==> StatusValue(r.value) == v
    ensures r.None? ==> forall s: IssueStatus :: StatusValue(s) != v
  {
    if v == "open" then Some(Open)
    else if v == "in_progress" then Some(InProgress)
    else if v == "resolved" then Some(Resolved)
    else if v == "closed" then Some(Closed)
    else None
  }

  /** Reading a priority from its string: exactly the four values name a priority. */
  function ParsePriority(v: string): (r: Option<IssuePriority>)
    ensures r.Some? ==> PriorityValue(r.value) == v
    ensures r.None? ==> forall p: IssuePriority :: PriorityValue(p) != v
  {
    if v == "low" then Some(Low)
    else if v == "medium" then Some(Medium)
    else if v == "high" then Some(High)
    else if v == "critical" then Some(Critical)
    else None
  }

  /** The role value that grants maintainer rights; memberships store roles as plain strings. */
  const MaintainerRole: string := RoleValue(Maintainer)

  /** Column defaults of the records. */
  const DefaultStatus: IssueStatus := Open
  const DefaultPriority: IssuePriority := Medium
  const DefaultMemberRole: string := "member"
  const DefaultUserRole: string := "user"

  /** A row of the `user` table (creation time left out). */
  datatype User = User(id: int, email: string, name: Option<string>, passwordHash: string, role: string)

  /** A row of the `project` table; `key` is required and unique across projects. */
  datatype Project = Project(id: int, name: string, key: string, description: Option<string>)

  /**
   * A row of the `projectmember` table. The role is a free string; the table itself has
   * no constraint that a (project, user) pair appears only once.
   */
  datatype ProjectMember = ProjectMember(id: int, projectId: int, userId: int, role: string)

  /** A row of the `issue` table; description and assignee may be absent. */
  datatype Issue = Issue(
    id: int,
    projectId: int,
    title: string,
    description: Option<string>,
    status: IssueStatus,
    priority: IssuePriority,
    reporterId: int,
    assigneeId: Option<int>)

  /** A row of the `comment` table. */
  datatype Comment = Comment(id: int, issueId: int, authorId: int, body: string)
}
