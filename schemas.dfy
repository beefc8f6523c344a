/**
 * The request and response bodies of the API (the `schemas` package of the backend):
 * what a client may send on create and update, and how an update is applied to a row.
 */
module Schemas {
  import opened Common
  import opened Models

  /** `IssueCreate`: the `IssueBase` fields plus the required `project_id`. */
  datatype IssueCreate = IssueCreate(
    title: string,
    description: Option<string>,
    status: IssueStatus,
    priority: IssuePriority,
    assigneeId: Option<int>,
    projectId: int)

  /** A create request that names only the required fields: the schema fills in the defaults. */
  function MinimalIssueCreate(title: string, projectId: int): (c: IssueCreate)
    ensures c.title == title && c.projectId == projectId
    ensures c.status == Open && c.priority == Medium
    ensures c.description.None? && c.assigneeId.None?
  {
    IssueCreate(title, None, DefaultStatus, DefaultPriority, None, projectId)
  }

  /**
   * `Issue(**issue_in.model_dump(), reporter_id=...)`: the row built from a create request.
   * The request has no reporter field, so the reporter is always the one given here.
   */
  function NewIssue(id: int, c: IssueCreate, reporterId: int): (i: Issue)
    ensures i.id == id && i.projectId == c.projectId && i.reporterId == reporterId
    ensures i.title == c.title && i.description == c.description && i.assigneeId == c.assigneeId
    ensures i.status == c.status && i.priority == c.priority
  {
    Issue(id, c.projectId, c.title, c.description, c.status, c.priority, reporterId, c.assigneeId)
  }

  /**
   * One field of a partial update: left out of the request (`Keep`), or sent with a value
   * (`Put`). For a nullable column the value itself may be `None` (JSON `null`).
   */
  datatype Patch<+T> = Keep | Put(value: T)

  /** `IssueUpdate`: every field optional; there is no `project_id` and no `reporter_id`. */
  datatype IssueUpdate = IssueUpdate(
    title: Patch<string>,
    description: Patch<Option<string>>,
    status: Patch<IssueStatus>,
    priority: Patch<IssuePriority>,
    assigneeId: Patch<Option<int>>)

  /** One (field, value) entry of `issue_in.model_dump(exclude_unset=True)`. */
  datatype IssueField =
    | TitleField(title: string)
    | DescriptionField(description: Option<string>)
    | StatusField(status: IssueStatus)
    | PriorityField(priority: IssuePriority)
    | AssigneeField(assigneeId: Option<int>)

  function PatchEntry<T, F>(p: Patch<T>, wrap: T -> F): seq<F> {
    match p
    case Keep => []
    case Put(v) => [wrap(v)]
  }

  /** `model_dump(exclude_unset=True)`: the fields the request set, in declaration order. */
  function IssueUpdateData(u: IssueUpdate): seq<IssueField> {
    PatchEntry(u.title, (t: string) => TitleField(t))
    + PatchEntry(u.description, (d: Option<string>) => DescriptionField(d))
    + PatchEntry(u.status, (s: IssueStatus) => StatusField(s))
    + PatchEntry(u.priority, (p: IssuePriority) => PriorityField(p))
    + PatchEntry(u.assigneeId, (a: Option<int>) => AssigneeField(a))
  }

  /** `setattr(issue, field, value)` for one entry. */
  function SetIssueField(i: Issue, f: IssueField): Issue {
    match f
    case TitleField(t) => i.(title := t)
    case DescriptionField(d) => i.(description := d)
    case StatusField(s) => i.(status := s)
    case PriorityField(p) => i.(priority := p)
    case AssigneeField(a) => i.(assigneeId := a)
  }

  /** The `setattr` loop so far: the entries applied one after another, in order. */
  function SetIssueFields(i: Issue, fs: seq<IssueField>): Issue
    decreases |fs|
  {
    if fs == [] then i else SetIssueField(SetIssueFields(i, fs[..|fs| - 1]), fs[|fs| - 1])
  }

  function Patched<T>(current: T, p: Patch<T>): T {
    match p
    case Keep => current
    case Put(v) => v
  }

  /**
   * The meaning of a partial update: each field the request set takes the sent value, every
   * other field keeps its value, and id, project and reporter never change.
   */
  function MergeIssue(i: Issue, u: IssueUpdate): (r: Issue)
    ensures r.id == i.id && r.projectId == i.projectId && r.reporterId == i.reporterId
    ensures u.title.Keep? ==> r.title == i.title
    ensures u.title.Put? ==> r.title == u.title.value
    ensures u.description.Keep? ==> r.description == i.description
    ensures u.description.Put? ==> r.description == u.description.value
    ensures u.status.Keep? ==> r.status == i.status
    ensures u.status.Put? ==> r.status == u.status.value
    ensures u.priority.Keep? ==> r.priority == i.priority
    ensures u.priority.Put? ==> r.priority == u.priority.value
    ensures u.assigneeId.Keep? ==> r.assigneeId == i.assigneeId
    ensures u.assigneeId.Put? ==> r.assigneeId == u.assigneeId.value
  {
    i.(title := Patched(i.title, u.title),
       description := Patched(i.description, u.description),
       status := Patched(i.status, u.status),
       priority := Patched(i.priority, u.priority),
       assigneeId := Patched(i.assigneeId, u.assigneeId))
  }

  lemma {:induction false} SetIssueFieldsConcat(i: Issue, a: seq<IssueField>, b: seq<IssueField>)
    ensures SetIssueFields(i, a + b) == SetIssueFields(SetIssueFields(i, a), b)
    decreases |b|
  {
    if b == [] {
      assert a + b == a;
    } else {
      assert (a + b)[..|a + b| - 1] == a + b[..|b| - 1];
      SetIssueFieldsConcat(i, a, b[..|b| - 1]);
    }
  }

  /** Applying the dumped fields one by one is the field-wise merge. */
  lemma {:induction false} SetIssueFieldsIsMerge(i: Issue, u: IssueUpdate)
    ensures SetIssueFields(i, IssueUpdateData(u)) == MergeIssue(i, u)
  {
    var t := PatchEntry(u.title, (t: string) => TitleField(t));
    var d := PatchEntry(u.description, (d: Option<string>) => DescriptionField(d));
    var s := PatchEntry(u.status, (s: IssueStatus) => StatusField(s));
    var p := PatchEntry(u.priority, (p: IssuePriority) => PriorityField(p));
    var a := PatchEntry(u.assigneeId, (a: Option<int>) => AssigneeField(a));
    assert IssueUpdateData(u) == t + d + s + p + a;
    SetIssueFieldsConcat(i, t + d + s + p, a);
    SetIssueFieldsConcat(i, t + d + s, p);
    SetIssueFieldsConcat(i, t + d, s);
    SetIssueFieldsConcat(i, t, d);
    SetIssueFieldsConcat(i, [], t);
    assert [] + t == t;
  }

  /** Applying the same partial update twice leaves the row as applying it once. */
  lemma MergeIssueIdempotent(i: Issue, u: IssueUpdate)
    ensures MergeIssue(MergeIssue(i, u), u) == MergeIssue(i, u)
  {
  }

  /** `IssueListResponse`: exactly the page of items, the filtered total, and the echoed paging. */
  datatype IssueListResponse = IssueListResponse(items: seq<Issue>, total: nat, skip: nat, limit: nat)

  /** `ProjectCreate`: name and key required, description optional. */
  datatype ProjectCreate = ProjectCreate(name: string, key: string, description: Option<string>)

  /** `ProjectUpdate`: every field optional. */
  datatype ProjectUpdate = ProjectUpdate(name: Patch<string>, key: Patch<string>, description: Patch<Option<string>>)

  /** One (field, value) entry of `project_in.model_dump(exclude_unset=True)`. */
  datatype ProjectField =
    | NameField(name: string)
    | KeyField(key: string)
    | ProjectDescriptionField(description: Option<string>)

  function ProjectUpdateData(u: ProjectUpdate): seq<ProjectField> {
    PatchEntry(u.name, (n: string) => NameField(n))
    + PatchEntry(u.key, (k: string) => KeyField(k))
    + PatchEntry(u.description, (d: Option<string>) => ProjectDescriptionField(d))
  }

  function SetProjectField(p: Project, f: ProjectField): Project {
    match f
    case NameField(n) => p.(name := n)
    case KeyField(k) => p.(key := k)
    case ProjectDescriptionField(d) => p.(description := d)
  }

  function SetProjectFields(p: Project, fs: seq<ProjectField>): Project
    decreases |fs|
  {
    if fs == [] then p else SetProjectField(SetProjectFields(p, fs[..|fs| - 1]), fs[|fs| - 1])
  }

  /** The meaning of a project update: set fields take the sent value, the others and the id stay. */
  function MergeProject(p: Project, u: ProjectUpdate): (r: Project)
    ensures r.id == p.id
    ensures u.name.Keep? ==> r.name == p.name
    ensures u.name.Put? ==> r.name == u.name.value
    ensures u.key.Keep? ==> r.key == p.key
    ensures u.key.Put? ==> r.key == u.key.value
    ensures u.description.Keep? ==> r.description == p.description
    ensures u.description.Put? ==> r.description == u.description.value
  {
    p.(name := Patched(p.name, u.name),
       key := Patched(p.key, u.key),
       description := Patched(p.description, u.description))
  }

  lemma {:induction false} SetProjectFieldsConcat(p: Project, a: seq<ProjectField>, b: seq<ProjectField>)
    ensures SetProjectFields(p, a + b) == SetProjectFields(SetProjectFields(p, a), b)
    decreases |b|
  {
    if b == [] {
      assert a + b == a;
    } else {
      assert (a + b)[..|a + b| - 1] == a + b[..|b| - 1];
      SetProjectFieldsConcat(p, a, b[..|b| - 1]);
    }
  }

  lemma {:induction false} SetProjectFieldsIsMerge(p: Project, u: ProjectUpdate)
    ensures SetProjectFields(p, ProjectUpdateData(u)) == MergeProject(p, u)
  {
    var n := PatchEntry(u.name, (n: string) => NameField(n));
    var k := PatchEntry(u.key, (k: string) => KeyField(k));
    var d := PatchEntry(u.description, (d: Option<string>) => ProjectDescriptionField(d));
    assert ProjectUpdateData(u) == n + k + d;
    SetProjectFieldsConcat(p, n + k, d);
    SetProjectFieldsConcat(p, n, k);
    SetProjectFieldsConcat(p, [], n);
    assert [] + n == n;
  }

  /** `ProjectMemberCreate`: a user id and a role that is any string, `"member"` when omitted. */
  datatype ProjectMemberCreate = ProjectMemberCreate(userId: int, role: string)

  function MemberCreateWithDefaultRole(userId: int): (m: ProjectMemberCreate)
    ensures m.userId == userId && m.role == "member"
  {
    ProjectMemberCreate(userId, DefaultMemberRole)
  }

  /** `CommentCreate`: the comment body. */
  datatype CommentCreate = CommentCreate(body: string)

  /** `UserCreate`: email, optional name and the clear-text password. */
  datatype UserCreate = UserCreate(email: string, name: Option<string>, password: string)

  /** The login form: `username` carries the email. */
  datatype LoginForm = LoginForm(username: string, password: string)

  /** The claims `create_access_token` signs: the user id as subject, and the lifetime. */
  datatype AccessClaims = AccessClaims(subject: int, expiresMinutes: int)

  /** `Token`: the issued access token and its type. */
  datatype Token = Token(accessToken: AccessClaims, tokenType: string)
}
