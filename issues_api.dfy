/**
 * The issue endpoints (backend/app/api/api_v1/endpoints/issues.py): the filtered, paged
 * listing, creation by a project member, reading one issue and the partial update that
 * only the reporter or a maintainer may make.
 */
module IssuesApi {
  import opened Common
  import opened Models
  import opened Schemas
  import opened Db
  import opened Deps
  import Query

  const NotEnoughPermissions: ApiError := ApiError(403, "Not enough permissions")
  const IssueNotFound: ApiError := ApiError(404, "Issue not found")
  const ReporterOrMaintainerOnly: ApiError :=
    ApiError(403, "You can only update issues you reported unless you are a project maintainer")

  /** The filtering parameters of `read_issues`; `None` is a parameter left out of the request. */
  datatype IssueFilter = IssueFilter(
    projectId: Option<int>,
    status: Option<IssueStatus>,
    priority: Option<IssuePriority>,
    assigneeId: Option<int>)

  /** All query parameters of `read_issues`: the page and the filters. */
  datatype IssueQuery = IssueQuery(skip: nat, limit: nat, filter: IssueFilter)

  /** The parameters of a bare `GET /issues/`. */
  const DefaultQuery: IssueQuery := IssueQuery(0, 100, IssueFilter(None, None, None, None))

  /** Python truthiness of an optional integer parameter: absent and `0` both count as not given. */
  predicate Given(x: Option<int>) {
    x.Some? && x.value != 0
  }

  function InProject(projectId: int): Issue -> bool {
    (x: Issue) => x.projectId == projectId
  }

  function InProjects(ids: seq<int>): Issue -> bool {
    (x: Issue) => x.projectId in ids
  }

  function WithStatus(status: IssueStatus): Issue -> bool {
    (x: Issue) => x.status == status
  }

  function WithPriority(priority: IssuePriority): Issue -> bool {
    (x: Issue) => x.priority == priority
  }

  function AssignedTo(assigneeId: int): Issue -> bool {
    (x: Issue) => x.assigneeId == Some(assigneeId)
  }

  /** The query `read_issues` builds once access is granted, filter by filter. */
  function FilteredIssues(issues: seq<Issue>, memberProjectIds: seq<int>, f: IssueFilter): seq<Issue> {
    var scoped :=
      if Given(f.projectId) then Query.Where(issues, InProject(f.projectId.value))
      else Query.Where(issues, InProjects(memberProjectIds));
    var byStatus := if f.status.Some? then Query.Where(scoped, WithStatus(f.status.value)) else scoped;
    var byPriority := if f.priority.Some? then Query.Where(byStatus, WithPriority(f.priority.value)) else byStatus;
    if Given(f.assigneeId) then Query.Where(byPriority, AssignedTo(f.assigneeId.value)) else byPriority
  }

  /**
   * Whether an issue answers a query for a user: it lies in the requested project, or in
   * one of the user's projects when none is requested, and it has every requested status,
   * priority and assignee.
   */
  predicate Matches(members: seq<ProjectMember>, userId: int, f: IssueFilter, x: Issue) {
    && (if Given(f.projectId) then x.projectId == f.projectId.value else IsMember(members, x.projectId, userId))
    && (f.status.Some? ==> x.status == f.status.value)
    && (f.priority.Some? ==> x.priority == f.priority.value)
    && (Given(f.assigneeId) ==> x.assigneeId == Some(f.assigneeId.value))
  }

  function MatchesQuery(members: seq<ProjectMember>, userId: int, f: IssueFilter): Issue -> bool {
    (x: Issue) => Matches(members, userId, f, x)
  }

  /** The issues answering a query, in table order. */
  function MatchingIssues(issues: seq<Issue>, members: seq<ProjectMember>, userId: int, f: IssueFilter): seq<Issue> {
    Query.Where(issues, MatchesQuery(members, userId, f))
  }

  /** Chaining the filters selects exactly the issues that match the whole query. */
  lemma {:induction false} FilteredIsMatching(issues: seq<Issue>, members: seq<ProjectMember>, userId: int, f: IssueFilter)
    ensures FilteredIssues(issues, MemberProjectIds(members, userId), f) == MatchingIssues(issues, members, userId, f)
  {
    var ids := MemberProjectIds(members, userId);
    var p0: Issue -> bool := if Given(f.projectId) then InProject(f.projectId.value) else InProjects(ids);
    var p1: Issue -> bool := if f.status.Some? then Query.And(p0, WithStatus(f.status.value)) else p0;
    var p2: Issue -> bool := if f.priority.Some? then Query.And(p1, WithPriority(f.priority.value)) else p1;
    var p3: Issue -> bool := if Given(f.assigneeId) then Query.And(p2, AssignedTo(f.assigneeId.value)) else p2;
    if f.status.Some? {
      Query.WhereWhere(issues, p0, WithStatus(f.status.value));
    }
    if f.priority.Some? {
      Query.WhereWhere(issues, p1, WithPriority(f.priority.value));
    }
    if Given(f.assigneeId) {
      Query.WhereWhere(issues, p2, AssignedTo(f.assigneeId.value));
    }
    assert FilteredIssues(issues, ids, f) == Query.Where(issues, p3);
    forall i | 0 <= i < |issues| ensures p3(issues[i]) == MatchesQuery(members, userId, f)(issues[i]) {
      var x := issues[i];
      assert p0(x) == (if Given(f.projectId) then x.projectId == f.projectId.value else IsMember(members, x.projectId, userId));
      assert p1(x) == (p0(x) && (f.status.Some? ==> x.status == f.status.value));
      assert p2(x) == (p1(x) && (f.priority.Some? ==> x.priority == f.priority.value));
      assert p3(x) == (p2(x) && (Given(f.assigneeId) ==> x.assigneeId == Some(f.assigneeId.value)));
    }
    Query.WhereSame(issues, p3, MatchesQuery(members, userId, f));
  }

  /**
   * `read_issues`: a requested project the caller is not a member of is refused with 403.
   * Otherwise the response holds the number of matching issues and the requested page of
   * them, and echoes `skip` and `limit`.
   */
  function ReadIssues(db: Database, caller: User, q: IssueQuery): (r: Response<IssueListResponse>)
    reads db
    ensures r.Err? <==> Given(q.filter.projectId) && !IsMember(db.members, q.filter.projectId.value, caller.id)
    ensures r.Err? ==> r.error == NotEnoughPermissions
    ensures r.Ok? ==>
      var all := MatchingIssues(db.issues, db.members, caller.id, q.filter);
      && r.value.total == |all|
      && r.value.items == Query.Window(all, q.skip, q.limit)
      && r.value.skip == q.skip && r.value.limit == q.limit
  {
    if Given(q.filter.projectId) && MembershipOf(db.members, q.filter.projectId.value, caller.id).None? then
      Err(NotEnoughPermissions)
    else
      var found := FilteredIssues(db.issues, MemberProjectIds(db.members, caller.id), q.filter);
      FilteredIsMatching(db.issues, db.members, caller.id, q.filter);
      Ok(IssueListResponse(Query.Window(found, q.skip, q.limit), |found|, q.skip, q.limit))
  }

  /**
   * A listing never shows an issue outside the caller's projects, nor one that misses a
   * filter, and a page is no longer than the limit or the total.
   */
  lemma {:induction false} ReadIssuesShowsOnlyVisible(db: Database, caller: User, q: IssueQuery)
    ensures var r := ReadIssues(db, caller, q);
      r.Ok? ==>
        && |r.value.items| <= q.limit
        && |r.value.items| <= r.value.total
        && forall k :: 0 <= k < |r.value.items| ==>
             && r.value.items[k] in db.issues
             && IsMember(db.members, r.value.items[k].projectId, caller.id)
             && Matches(db.members, caller.id, q.filter, r.value.items[k])
  {
    var r := ReadIssues(db, caller, q);
    if r.Ok? {
      var all := MatchingIssues(db.issues, db.members, caller.id, q.filter);
      forall k | 0 <= k < |r.value.items|
        ensures && r.value.items[k] in db.issues
                && IsMember(db.members, r.value.items[k].projectId, caller.id)
                && Matches(db.members, caller.id, q.filter, r.value.items[k])
      {
        var x := r.value.items[k];
        assert x == all[q.skip + k];
        assert MatchesQuery(db.members, caller.id, q.filter)(x);
      }
    }
  }

  /** Consecutive pages of a listing together are the listing's longer page. */
  lemma ReadIssuesPagesJoin(db: Database, caller: User, q: IssueQuery, more: nat)
    requires ReadIssues(db, caller, q).Ok?
    ensures
      var next := q.(skip := q.skip + q.limit, limit := more);
      var both := q.(limit := q.limit + more);
      ReadIssues(db, caller, q).value.items + ReadIssues(db, caller, next).value.items
        == ReadIssues(db, caller, both).value.items
  {
    var all := MatchingIssues(db.issues, db.members, caller.id, q.filter);
    var next := q.(skip := q.skip + q.limit, limit := more);
    var both := q.(limit := q.limit + more);
    assert next.filter == q.filter && both.filter == q.filter;
    assert ReadIssues(db, caller, q).value.items == Query.Window(all, q.skip, q.limit);
    assert ReadIssues(db, caller, next).value.items == Query.Window(all, q.skip + q.limit, more);
    assert ReadIssues(db, caller, both).value.items == Query.Window(all, q.skip, q.limit + more);
    Query.WindowSplit(all, q.skip, q.limit, more);
  }

  /**
   * `create_issue`: only a member of the target project may create; the row takes every
   * field of the request and the caller as reporter.
   */
  method CreateIssue(db: Database, caller: User, input: IssueCreate) returns (r: Response<Issue>)
    requires db.Valid()
    modifies db
    ensures db.Valid()
    ensures !IsMember(old(db.members), input.projectId, caller.id) ==> r == Err(NotEnoughPermissions) && unchanged(db)
    ensures IsMember(old(db.members), input.projectId, caller.id) ==>
      && r == Ok(NewIssue(old(db.nextIssueId), input, caller.id))
      && db.issues == old(db.issues) + [r.value]
      && db.users == old(db.users) && db.projects == old(db.projects)
      && db.members == old(db.members) && db.comments == old(db.comments)
  {
    if MembershipOf(db.members, input.projectId, caller.id).None? {
      return Err(NotEnoughPermissions);
    }
    MemberHasProject(db, input.projectId, caller.id);
    var issue := db.InsertIssue(input, caller.id);
    r := Ok(issue);
  }

  /** `read_issue`: 404 for an unknown id, 403 unless the caller belongs to its project. */
  function ReadIssue(db: Database, caller: User, id: int): (r: Response<Issue>)
    reads db
    ensures !HasIssue(db.issues, id) ==> r == Err(IssueNotFound)
    ensures HasIssue(db.issues, id) ==>
      var issue := db.issues[IssueIndex(db.issues, id).value];
      && (!IsMember(db.members, issue.projectId, caller.id) ==> r == Err(NotEnoughPermissions))
      && (IsMember(db.members, issue.projectId, caller.id) ==> r == Ok(issue))
    ensures r.Ok? ==> r.value in db.issues && r.value.id == id && IsMember(db.members, r.value.projectId, caller.id)
  {
    match IssueIndex(db.issues, id)
    case None => Err(IssueNotFound)
    case Some(k) =>
      var issue := db.issues[k];
      if MembershipOf(db.members, issue.projectId, caller.id).None? then Err(NotEnoughPermissions)
      else Ok(issue)
  }

  /**
   * The `setattr` loop of `update_issue`: the fields present in the dumped update are
   * written one after the other, which gives the field-wise merge.
   */
  method ApplyIssueUpdate(issue: Issue, input: IssueUpdate) returns (updated: Issue)
    ensures updated == MergeIssue(issue, input)
  {
    var data := IssueUpdateData(input);
    updated := issue;
    for i := 0 to |data|
      invariant updated == SetIssueFields(issue, data[..i])
    {
      SetIssueFieldsConcat(issue, data[..i], [data[i]]);
      assert data[..i + 1] == data[..i] + [data[i]];
      updated := SetIssueField(updated, data[i]);
    }
    assert data[..|data|] == data;
    SetIssueFieldsIsMerge(issue, input);
  }

  /**
   * `update_issue`: 404 for an unknown id, 403 for a non-member, and 403 for a member who
   * neither reported the issue nor holds a maintainer row in its project; otherwise the
   * fields present in the request replace the stored ones. The issue keeps its id, project
   * and reporter.
   */
  method UpdateIssue(db: Database, caller: User, id: int, input: IssueUpdate) returns (r: Response<Issue>)
    requires db.Valid()
    modifies db
    ensures db.Valid()
    ensures !HasIssue(old(db.issues), id) ==> r == Err(IssueNotFound) && unchanged(db)
    ensures HasIssue(old(db.issues), id) ==>
      var k := IssueIndex(old(db.issues), id).value;
      var issue := old(db.issues)[k];
      if !IsMember(old(db.members), issue.projectId, caller.id) then
        r == Err(NotEnoughPermissions) && unchanged(db)
      else if !IsMaintainer(old(db.members), issue.projectId, caller.id) && issue.reporterId != caller.id then
        r == Err(ReporterOrMaintainerOnly) && unchanged(db)
      else
        && r == Ok(MergeIssue(issue, input))
        && db.issues == old(db.issues)[k := r.value]
        && db.users == old(db.users) && db.projects == old(db.projects)
        && db.members == old(db.members) && db.comments == old(db.comments)
  {
    var found := IssueIndex(db.issues, id);
    if found.None? {
      return Err(IssueNotFound);
    }
    var k := found.value;
    var issue := db.issues[k];
    if MembershipOf(db.members, issue.projectId, caller.id).None? {
      return Err(NotEnoughPermissions);
    }
    FirstRowRoleDecidesMaintainer(db.members, issue.projectId, caller);
    if !CheckIssuePermission(db.members, issue, caller, "update") {
      return Err(ReporterOrMaintainerOnly);
    }
    var updated := ApplyIssueUpdate(issue, input);
    db.ReplaceIssue(k, updated);
    r := Ok(updated);
  }
}
