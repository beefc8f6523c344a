/**
 * Where the frontend's decisions meet the backend's: the edit button against the server's
 * update rule, the assignee selector, the assignee the page keeps locally against the one
 * stored, the two status colourings, and the issue list's pages against `read_issues`.
 */
module Consistency {
  import opened Common
  import opened Models
  import opened Db
  import opened Deps
  import Schemas
  import Query
  import IssuesApi
  import Views
  import Client
  import JsText
  import AuthContext
  import IssueDetails
  import IssuesPage
  import ProjectDetails

  /** An issue row as its JSON reaches the pages. */
  function IssueJson(i: Issue): (d: Views.IssueData)
    ensures d.id == i.id && d.projectId == i.projectId
    ensures d.reporterId == i.reporterId && d.assigneeId == i.assigneeId
    ensures ParseStatus(d.status) == Some(i.status) && ParsePriority(d.priority) == Some(i.priority)
  {
    Views.IssueData(i.id, i.title, i.description, StatusValue(i.status), PriorityValue(i.priority),
      i.projectId, i.reporterId, i.assigneeId)
  }

  /** A user row as the identity the session store holds. */
  function UserJson(u: User): (v: AuthContext.UserInfo)
    ensures v.id == u.id && v.email == u.email
  {
    AuthContext.UserInfo(u.id, u.email, u.name)
  }

  /** The server's rule in `update_issue`: a member who is a maintainer, or the reporter. */
  predicate UpdateAllowed(members: seq<ProjectMember>, issue: Issue, userId: int) {
    IsMember(members, issue.projectId, userId)
    && (IsMaintainer(members, issue.projectId, userId) || issue.reporterId == userId)
  }

  /**
   * For a member whose page holds the role of their membership row, the edit button is
   * shown exactly when the server would accept an update, by `update_issue`'s rule and by
   * `check_issue_permission`'s.
   */
  lemma EditButtonMatchesServer(members: seq<ProjectMember>, issue: Issue, user: User)
    requires NoDuplicateMemberships(members)
    requires IsMember(members, issue.projectId, user.id)
    ensures
      var role := Some(MembershipOf(members, issue.projectId, user.id).value.role);
      var shown := IssueDetails.CanEditIssue(Some(UserJson(user)), Some(IssueJson(issue)), role);
      && (shown <==> UpdateAllowed(members, issue, user.id))
      && (shown <==> CheckIssuePermission(members, issue, user, "update"))
  {
    FirstRowRoleDecidesMaintainer(members, issue.projectId, user);
    assert "update" in OwnerOnlyActions;
  }

  /**
   * `add_project_member` stores any role string. A row saying "Maintainer" shows the
   * assignee selector, whose test lower-cases, while neither the edit button nor the
   * server grants a member who did not report the issue the right to update it.
   */
  lemma CapitalizedMaintainerRole(members: seq<ProjectMember>, issue: Issue, user: User)
    requires NoDuplicateMemberships(members)
    requires IsMember(members, issue.projectId, user.id)
    requires MembershipOf(members, issue.projectId, user.id).value.role == "Maintainer"
    requires issue.reporterId != user.id
    ensures IssueDetails.ShowsAssigneeSelector(Some("Maintainer"))
    ensures !IssueDetails.CanEditIssue(Some(UserJson(user)), Some(IssueJson(issue)), Some("Maintainer"))
    ensures !UpdateAllowed(members, issue, user.id)
    ensures !CheckIssuePermission(members, issue, user, "update")
  {
    IssueDetails.CapitalizedRoleShowsSelectorOnly(UserJson(user), IssueJson(issue));
    FirstRowRoleDecidesMaintainer(members, issue.projectId, user);
    assert "update" in OwnerOnlyActions;
  }

  /** How `update_issue` reads the `assignee_id` the page sends: `null` clears it. */
  function AssigneeUpdate(v: Client.JsonValue): (u: Schemas.IssueUpdate)
    ensures u.title.Keep? && u.description.Keep? && u.status.Keep? && u.priority.Keep?
    ensures v.JNumber? ==> u.assigneeId == Schemas.Put(Some(v.n))
    ensures v.JNull? ==> u.assigneeId == Schemas.Put(None)
  {
    var stored := if v.JNumber? then Some(v.n) else None;
    Schemas.IssueUpdate(Schemas.Keep, Schemas.Keep, Schemas.Keep, Schemas.Keep, Schemas.Put(stored))
  }

  /**
   * After an accepted assignee change the page's copy agrees with the stored row, except
   * for the id 0: the server stores it, the page drops it.
   */
  lemma LocalAssigneeMatchesStored(issue: Issue, choice: string)
    ensures
      var payload := IssueDetails.AssigneePayload(choice);
      var stored := Schemas.MergeIssue(issue, AssigneeUpdate(payload));
      IssueJson(stored).assigneeId == IssueDetails.LocalAssignee(choice) <==> payload != Client.JNumber(0)
  {
    var payload := IssueDetails.AssigneePayload(choice);
    assert !payload.JString?;
  }

  /** Choosing a user in the selector stores that user, and the selector then shows the same entry. */
  lemma ChoosingUserIsStored(issue: Issue, id: int)
    requires id != 0
    ensures
      var stored := Schemas.MergeIssue(issue, AssigneeUpdate(IssueDetails.AssigneePayload(JsText.IntToString(id))));
      && stored.assigneeId == Some(id)
      && IssueDetails.LocalAssignee(JsText.IntToString(id)) == stored.assigneeId
      && IssueDetails.SelectValue(stored.assigneeId) == JsText.IntToString(id)
  {
    IssueDetails.ChoosingUserRoundTrips(id);
  }

  /** The issue list and the project page colour a status alike only for the first three statuses. */
  lemma StatusColouringsAgree(s: IssueStatus)
    ensures IssuesPage.StatusBadgeVariant(StatusValue(s)) == ProjectDetails.StatusColor(StatusValue(s))
      <==> s != Closed
  {
    match s
    case Open =>
    case InProgress =>
    case Resolved =>
    case Closed =>
  }

  /**
   * No priority badge case exists for `critical`, which therefore looks like an unknown
   * priority on the issue list while the project page highlights it.
   */
  lemma CriticalPriorityDisplay(p: IssuePriority)
    ensures IssuesPage.PriorityBadgeVariant(PriorityValue(p)) == Views.Default <==> p == Critical
    ensures ProjectDetails.IsHighlighted(PriorityValue(p)) <==> p == Critical || p == High
  {
    match p
    case Low =>
    case Medium =>
    case High =>
    case Critical =>
  }

  /** The query behind one page of the issue list: no filters, ten issues from the page's offset. */
  function PageQuery(page: int): (q: IssuesApi.IssueQuery)
    requires page >= 1
    ensures q.skip == IssuesPage.SkipFor(page) && q.limit == IssuesPage.Limit
    ensures q.filter == IssuesApi.IssueFilter(None, None, None, None)
  {
    IssuesApi.IssueQuery(IssuesPage.SkipFor(page), IssuesPage.Limit, IssuesApi.IssueFilter(None, None, None, None))
  }

  /** The issues the issue list can show a user: those of the user's projects. */
  function Visible(db: Database, caller: User): seq<Issue>
    reads db
  {
    IssuesApi.MatchingIssues(db.issues, db.members, caller.id, IssuesApi.IssueFilter(None, None, None, None))
  }

  /**
   * Every page of the issue list is answered, with the same total, and a page has issues
   * exactly when the pager counts it.
   */
  lemma PageHasIssuesIffCounted(db: Database, caller: User, page: int)
    requires page >= 1
    ensures IssuesApi.ReadIssues(db, caller, PageQuery(page)).Ok?
    ensures
      var r := IssuesApi.ReadIssues(db, caller, PageQuery(page)).value;
      && r.total == |Visible(db, caller)|
      && (|r.items| > 0 <==> page <= IssuesPage.TotalPages(r.total))
  {
    var r := IssuesApi.ReadIssues(db, caller, PageQuery(page)).value;
    var n := IssuesPage.TotalPages(r.total);
    var skip := (page - 1) * 10;
    assert |r.items| == if skip >= r.total then 0 else Min(10, r.total - skip);
    if page <= n {
      assert skip <= (n - 1) * 10;
    } else {
      assert skip >= n * 10;
    }
  }

  /** Pages `first` to `first + count - 1` of the issue list, one after the other. */
  function Pages(db: Database, caller: User, first: int, count: nat): seq<Issue>
    requires first >= 1
    reads db
    decreases count
  {
    if count == 0 then []
    else IssuesApi.ReadIssues(db, caller, PageQuery(first)).value.items + Pages(db, caller, first + 1, count - 1)
  }

  /** Consecutive pages join into one window of the visible issues: nothing is skipped or repeated. */
  lemma {:induction false} PagesAreWindow(db: Database, caller: User, first: int, count: nat)
    requires first >= 1
    ensures Pages(db, caller, first, count) ==
      Query.Window(Visible(db, caller), IssuesPage.SkipFor(first), count * IssuesPage.Limit)
    decreases count
  {
    var all := Visible(db, caller);
    var skip := IssuesPage.SkipFor(first);
    if count == 0 {
      assert Query.Window(all, skip, 0) == [];
    } else {
      PagesAreWindow(db, caller, first + 1, count - 1);
      assert IssuesPage.SkipFor(first + 1) == skip + 10;
      assert IssuesApi.ReadIssues(db, caller, PageQuery(first)).value.items == Query.Window(all, skip, 10);
      Query.WindowSplit(all, skip, 10, (count - 1) * 10);
      assert 10 + (count - 1) * 10 == count * 10;
    }
  }

  /** Paging through every counted page of the issue list shows each visible issue once, in table order. */
  lemma AllPagesShowEverything(db: Database, caller: User)
    ensures
      var total := IssuesApi.ReadIssues(db, caller, PageQuery(1)).value.total;
      Pages(db, caller, 1, IssuesPage.TotalPages(total)) == Visible(db, caller)
  {
    var all := Visible(db, caller);
    var total := IssuesApi.ReadIssues(db, caller, PageQuery(1)).value.total;
    var n := IssuesPage.TotalPages(total);
    PagesAreWindow(db, caller, 1, n);
    assert total == |all|;
    assert Query.Window(all, 0, n * 10) == all;
  }

  /** The query behind the project page's issue table: the project's id and the default page. */
  function ProjectPageQuery(projectId: int): (q: IssuesApi.IssueQuery)
    ensures q.skip == 0 && q.limit == 100
    ensures q.filter == IssuesApi.IssueFilter(Some(projectId), None, None, None)
  {
    IssuesApi.IssueQuery(0, 100, IssuesApi.IssueFilter(Some(projectId), None, None, None))
  }

  /**
   * The project page gets issues only for a project the caller belongs to, and then only
   * that project's, and at most the first hundred of them.
   */
  lemma ProjectPageListsItsIssues(db: Database, caller: User, projectId: int)
    requires projectId != 0
    ensures
      var r := IssuesApi.ReadIssues(db, caller, ProjectPageQuery(projectId));
      && (r.Ok? <==> IsMember(db.members, projectId, caller.id))
      && (r.Ok? ==> |r.value.items| == Min(100, r.value.total))
      && (r.Ok? ==> forall k :: 0 <= k < |r.value.items| ==>
            r.value.items[k] in db.issues && r.value.items[k].projectId == projectId)
  {
    var r := IssuesApi.ReadIssues(db, caller, ProjectPageQuery(projectId));
    if r.Ok? {
      var all := IssuesApi.MatchingIssues(db.issues, db.members, caller.id, ProjectPageQuery(projectId).filter);
      forall k | 0 <= k < |r.value.items|
        ensures r.value.items[k] in db.issues && r.value.items[k].projectId == projectId
      {
        assert r.value.items[k] == all[k];
        assert IssuesApi.MatchesQuery(db.members, caller.id, ProjectPageQuery(projectId).filter)(all[k]);
      }
    }
  }
}
