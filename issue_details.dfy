/**
 * The issue page (frontend/src/pages/IssueDetails.tsx): who may edit, the assignee
 * selector, the paged user list behind it, and the handlers that change the issue,
 * which update the local copy only once the server has accepted the change.
 */
module IssueDetails {
  import opened Common
  import opened Client
  import opened Views
  import opened AuthContext
  import opened JsText

  /** Users per page of the assignee list. */
  const UserPage: nat := 10

  /** `canEditIssue`: a maintainer role, spelled exactly, or being the reporter. */
  function CanEditIssue(user: Option<UserInfo>, issue: Option<IssueData>, role: Option<string>): (r: bool)
    ensures user.None? || issue.None? ==> !r
    ensures user.Some? && issue.Some? ==>
      (r <==> role == Some("maintainer") || issue.value.reporterId == user.value.id)
  {
    if user.None? || issue.None? then false
    else
      var isMaintainer := role == Some("maintainer");
      var isReporter := issue.value.reporterId == user.value.id;
      isMaintainer || isReporter
  }

  /** The assignee selector is shown when the role, lower-cased, is `maintainer`. */
  predicate ShowsAssigneeSelector(role: Option<string>) {
    role.Some? && ToLowerAscii(role.value) == "maintainer"
  }

  /** The selector's test accepts every role the edit test accepts. */
  lemma EditRoleShowsSelector(role: Option<string>)
    requires role == Some("maintainer")
    ensures ShowsAssigneeSelector(role)
  {
    var lowered := ToLowerAscii(role.value);
    assert forall i :: 0 <= i < |lowered| ==> lowered[i] == role.value[i];
  }

  /** ... but not the other way round: "Maintainer" shows the selector and grants no edit. */
  lemma CapitalizedRoleShowsSelectorOnly(user: UserInfo, issue: IssueData)
    requires issue.reporterId != user.id
    ensures ShowsAssigneeSelector(Some("Maintainer"))
    ensures !CanEditIssue(Some(user), Some(issue), Some("Maintainer"))
  {
    var lowered := ToLowerAscii("Maintainer");
    assert lowered[0] == 'm';
    assert forall i :: 1 <= i < |lowered| ==> lowered[i] == "Maintainer"[i];
    assert lowered == "maintainer";
  }

  /** The selector's value: the assignee's id as text, or `unassigned`. */
  function SelectValue(assigneeId: Option<int>): (v: string)
    ensures assigneeId.None? ==> v == "unassigned"
    ensures assigneeId.Some? ==> v == IntToString(assigneeId.value)
  {
    match assigneeId
    case None => "unassigned"
    case Some(n) => IntToString(n)
  }

  /** The `assignee_id` sent for a selector choice: `null` for `unassigned` or a choice `parseInt` cannot read. */
  function AssigneePayload(choice: string): (v: JsonValue)
    ensures choice == "unassigned" ==> v == JNull
    ensures choice != "unassigned" && ParseInt(choice).None? ==> v == JNull
    ensures choice != "unassigned" && ParseInt(choice).Some? ==> v == JNumber(ParseInt(choice).value)
  {
    if choice == "unassigned" then JNull
    else
      match ParseInt(choice)
      case None => JNull
      case Some(n) => JNumber(n)
  }

  /** `assigneeId || undefined`: the local copy drops `null`, `NaN` and `0`. */
  function LocalAssignee(choice: string): (a: Option<int>)
    ensures a.None? <==> AssigneePayload(choice) in {JNull, JNumber(0)}
    ensures a.Some? ==> AssigneePayload(choice) == JNumber(a.value)
  {
    match AssigneePayload(choice)
    case JNumber(n) => if n == 0 then None else Some(n)
    case _ => None
  }

  /** Choosing a user's entry in the selector assigns that user and shows the same entry. */
  lemma ChoosingUserRoundTrips(id: int)
    requires id != 0
    ensures AssigneePayload(IntToString(id)) == JNumber(id)
    ensures LocalAssignee(IntToString(id)) == Some(id)
    ensures SelectValue(LocalAssignee(IntToString(id))) == IntToString(id)
  {
    ParseIntOfIntToString(id);
    assert IntToString(id) != "unassigned" by {
      assert IsDigit(IntToString(id)[0]) || IntToString(id)[0] == '-';
    }
  }

  /** One page of the user list for the assignee selector, from offset `skip`. */
  function UsersUrl(skip: int): string {
    "/users/?skip=" + IntToString(skip) + "&limit=" + IntToString(UserPage)
  }

  /** The caller's membership in a project. */
  function MembershipUrl(projectId: int): string {
    "/projects/" + IntToString(projectId) + "/my-membership"
  }

  /** The path of the issue in the route; a missing id is interpolated as `undefined`. */
  function IssueUrl(routeId: Option<string>): string {
    "/issues/" + routeId.GetOr("undefined")
  }

  function CommentsUrl(routeId: Option<string>): string {
    "/comments/issue/" + routeId.GetOr("undefined")
  }

  /** `issue?.description || ''`. */
  function DescriptionDraft(issue: Option<IssueData>): (d: string)
    ensures issue.Some? && issue.value.description.Some? ==> d == issue.value.description.value
    ensures issue.None? || issue.value.description.None? ==> d == ""
  {
    if issue.Some? && issue.value.description.Some? then issue.value.description.value else ""
  }

  class IssueDetailsView {
    const routeId: Option<string>
    const user: Option<UserInfo>
    const api: Api

    var issue: Option<IssueData>
    var comments: seq<CommentData>
    var loading: bool
    var newComment: string
    var commentLoading: bool
    var status: string
    var isEditingDescription: bool
    var editedDescription: string
    var descriptionLoading: bool
    var projectMemberRole: Option<string>
    var allUsers: seq<UserInfo>
    var userSkip: int
    var hasMoreUsers: bool
    var assigneeLoading: bool

    /**
     * While more users may follow, the next page starts right after the users already
     * listed, so paging neither skips nor repeats anyone.
     */
    ghost predicate UsersPaged()
      reads this
    {
      hasMoreUsers ==> userSkip == |allUsers|
    }

    constructor (routeId: Option<string>, user: Option<UserInfo>, api: Api)
      ensures this.routeId == routeId && this.user == user && this.api == api
      ensures issue == None && comments == [] && loading
      ensures newComment == "" && !commentLoading && status == ""
      ensures !isEditingDescription && editedDescription == "" && !descriptionLoading
      ensures projectMemberRole == None && allUsers == [] && userSkip == 0 && hasMoreUsers
      ensures !assigneeLoading
      ensures UsersPaged()
    {
      this.routeId := routeId;
      this.user := user;
      this.api := api;
      issue := None;
      comments := [];
      loading := true;
      newComment := "";
      commentLoading := false;
      status := "";
      isEditingDescription := false;
      editedDescription := "";
      descriptionLoading := false;
      projectMemberRole := None;
      allUsers := [];
      userSkip := 0;
      hasMoreUsers := true;
      assigneeLoading := false;
    }

    /** The first page of users for the assignee selector. */
    method LoadFirstUsers(reply: Reply<seq<UserInfo>>)
      modifies this`allUsers, this`hasMoreUsers, this`userSkip, api, api.browser
      ensures reply.Success? ==>
        allUsers == reply.data && hasMoreUsers == (|reply.data| == UserPage) && userSkip == UserPage
      ensures reply.Failure? ==>
        allUsers == old(allUsers) && hasMoreUsers == old(hasMoreUsers) && userSkip == old(userSkip)
      ensures api.sent == old(api.sent) + [Get(UsersUrl(0), old(api.browser.token))]
      ensures api.browser.token == TokenAfter(old(api.browser.token), reply)
      ensures api.browser.path == PathAfter(old(api.browser.path), reply)
      ensures issue == old(issue) && status == old(status) && comments == old(comments)
      ensures projectMemberRole == old(projectMemberRole) && loading == old(loading)
    {
      assert UsersUrl(0) == "/users/?skip=0&limit=10" by {
        assert IntToString(0) == [DigitChar(0)] == "0";
        assert IntToString(10) == NatToString(1) + [DigitChar(0)] == "10";
      }
      var result := api.Send("GET", "/users/?skip=0&limit=10", [], NoBody, reply);
      if result.Success? {
        allUsers := result.data;
        hasMoreUsers := |result.data| == 10;
        userSkip := 10;
      }
    }

    /** The caller's role in the issue's project, kept as it was when the request fails. */
    method LoadRole(projectId: int, reply: Reply<string>)
      modifies this`projectMemberRole, api, api.browser
      ensures projectMemberRole == (if reply.Success? then Some(reply.data) else old(projectMemberRole))
      ensures api.sent == old(api.sent) + [Get(MembershipUrl(projectId), old(api.browser.token))]
      ensures api.browser.token == TokenAfter(old(api.browser.token), reply)
      ensures api.browser.path == PathAfter(old(api.browser.path), reply)
      ensures issue == old(issue) && status == old(status) && comments == old(comments)
      ensures allUsers == old(allUsers) && hasMoreUsers == old(hasMoreUsers) && userSkip == old(userSkip)
      ensures loading == old(loading)
    {
      var url := MembershipUrl(projectId);
      var result := api.Send("GET", url, [], NoBody, reply);
      if result.Success? {
        projectMemberRole := Some(result.data);
      }
    }

    /** The issue's comments, kept as they were when the request fails. */
    method LoadComments(id: string, reply: Reply<seq<CommentData>>)
      modifies this`comments, api, api.browser
      ensures comments == (if reply.Success? then reply.data else old(comments))
      ensures api.sent == old(api.sent) + [Get("/comments/issue/" + id, old(api.browser.token))]
      ensures api.browser.token == TokenAfter(old(api.browser.token), reply)
      ensures api.browser.path == PathAfter(old(api.browser.path), reply)
      ensures issue == old(issue) && status == old(status) && projectMemberRole == old(projectMemberRole)
      ensures allUsers == old(allUsers) && hasMoreUsers == old(hasMoreUsers) && userSkip == old(userSkip)
      ensures loading == old(loading)
    {
      var result := api.Send("GET", "/comments/issue/" + id, [], NoBody, reply);
      if result.Success? {
        comments := result.data;
      }
    }

    /**
     * What `fetchData` loads once the issue is in: the first page of users, the caller's
     * role when someone is signed in, and the comments, in that order.
     */
    method LoadRelated(
      id: string,
      projectId: int,
      usersReply: Reply<seq<UserInfo>>,
      roleReply: Reply<string>,
      commentsReply: Reply<seq<CommentData>>)
      modifies this`allUsers, this`hasMoreUsers, this`userSkip, this`projectMemberRole, this`comments
      modifies api, api.browser
      ensures
        var t0 := old(api.browser.token);
        var t1 := TokenAfter(t0, usersReply);
        var t2 := if user.Some? then TokenAfter(t1, roleReply) else t1;
        && api.sent == old(api.sent) + [Get(UsersUrl(0), t0)]
             + (if user.Some? then [Get(MembershipUrl(projectId), t1)] else [])
             + [Get("/comments/issue/" + id, t2)]
        && api.browser.token == TokenAfter(t2, commentsReply)
      ensures
        var p1 := PathAfter(old(api.browser.path), usersReply);
        var p2 := if user.Some? then PathAfter(p1, roleReply) else p1;
        api.browser.path == PathAfter(p2, commentsReply)
      ensures usersReply.Success? ==>
        allUsers == usersReply.data && hasMoreUsers == (|usersReply.data| == UserPage) && userSkip == UserPage
      ensures usersReply.Failure? ==>
        allUsers == old(allUsers) && hasMoreUsers == old(hasMoreUsers) && userSkip == old(userSkip)
      ensures projectMemberRole == (if user.Some? && roleReply.Success? then Some(roleReply.data) else old(projectMemberRole))
      ensures comments == (if commentsReply.Success? then commentsReply.data else old(comments))
    {
      LoadFirstUsers(usersReply);
      if user.Some? {
        LoadRole(projectId, roleReply);
      }
      LoadComments(id, commentsReply);
    }

    /**
     * `fetchData`: the issue first; then the first page of users and the caller's role,
     * each of which may fail on its own; then the comments. A failure of the issue or the
     * comments request ends the sequence. Loading ends in every case.
     */
    method FetchData(
      issueReply: Reply<IssueData>,
      usersReply: Reply<seq<UserInfo>>,
      roleReply: Reply<string>,
      commentsReply: Reply<seq<CommentData>>)
      modifies this`loading, this`issue, this`status, this`allUsers, this`hasMoreUsers, this`userSkip
      modifies this`projectMemberRole, this`comments, api, api.browser
      requires UsersPaged()
      ensures UsersPaged()
      ensures !loading
      ensures !Truthy(routeId) || issueReply.Failure? ==>
        && issue == old(issue) && status == old(status) && comments == old(comments)
        && allUsers == old(allUsers) && userSkip == old(userSkip) && hasMoreUsers == old(hasMoreUsers)
        && projectMemberRole == old(projectMemberRole)
      ensures !Truthy(routeId) ==>
        api.sent == old(api.sent) && api.browser.token == old(api.browser.token)
        && api.browser.path == old(api.browser.path)
      ensures Truthy(routeId) && issueReply.Failure? ==>
        && api.sent == old(api.sent) + [Get("/issues/" + routeId.value, old(api.browser.token))]
        && api.browser.token == TokenAfter(old(api.browser.token), issueReply)
        && api.browser.path == PathAfter(old(api.browser.path), issueReply)
      ensures Truthy(routeId) && issueReply.Success? ==>
        var t0 := old(api.browser.token);
        var t1 := TokenAfter(t0, usersReply);
        var t2 := if user.Some? then TokenAfter(t1, roleReply) else t1;
        api.sent == old(api.sent) + [Get("/issues/" + routeId.value, t0), Get(UsersUrl(0), t0)]
          + (if user.Some? then [Get(MembershipUrl(issueReply.data.projectId), t1)] else [])
          + [Get("/comments/issue/" + routeId.value, t2)]
        && api.browser.token == TokenAfter(t2, commentsReply)
      ensures Truthy(routeId) && issueReply.Success? ==>
        var p1 := PathAfter(old(api.browser.path), usersReply);
        var p2 := if user.Some? then PathAfter(p1, roleReply) else p1;
        api.browser.path == PathAfter(p2, commentsReply)
      ensures Truthy(routeId) && issueReply.Success? ==>
        && issue == Some(issueReply.data) && status == issueReply.data.status
        && (usersReply.Success? ==>
              allUsers == usersReply.data && hasMoreUsers == (|usersReply.data| == UserPage) && userSkip == UserPage)
        && (usersReply.Failure? ==>
              allUsers == old(allUsers) && hasMoreUsers == old(hasMoreUsers) && userSkip == old(userSkip))
        && projectMemberRole == (if user.Some? && roleReply.Success? then Some(roleReply.data) else old(projectMemberRole))
        && comments == (if commentsReply.Success? then commentsReply.data else old(comments))
    {
      if !(routeId.Some? && routeId.value != "") {
        loading := false;
        return;
      }
      var id := routeId.value;
      var issueResult := api.Send("GET", "/issues/" + id, [], NoBody, issueReply);
      if issueResult.Failure? {
        loading := false;
        return;
      }
      issue := Some(issueResult.data);
      status := issueResult.data.status;
      LoadRelated(id, issueResult.data.projectId, usersReply, roleReply, commentsReply);
      loading := false;
    }

    /**
     * `loadMoreUsers`: nothing at all once no more users are expected; otherwise one page
     * from the current offset, appended in order, after which the offset moves on by a page
     * and more are expected only if the page was full. A failure changes nothing.
     */
    method LoadMoreUsers(reply: Reply<seq<UserInfo>>)
      modifies this`allUsers, this`userSkip, this`hasMoreUsers, api, api.browser
      requires UsersPaged()
      ensures UsersPaged()
      ensures !old(hasMoreUsers) ==>
        && allUsers == old(allUsers) && userSkip == old(userSkip) && !hasMoreUsers
        && api.sent == old(api.sent) && api.browser.token == old(api.browser.token)
        && api.browser.path == old(api.browser.path)
      ensures old(hasMoreUsers) ==>
        && api.sent == old(api.sent) + [Get(UsersUrl(old(userSkip)), old(api.browser.token))]
        && api.browser.token == TokenAfter(old(api.browser.token), reply)
        && api.browser.path == PathAfter(old(api.browser.path), reply)
      ensures old(hasMoreUsers) && reply.Success? ==>
        && allUsers == old(allUsers) + reply.data
        && userSkip == old(userSkip) + UserPage
        && hasMoreUsers == (|reply.data| == UserPage)
      ensures old(hasMoreUsers) && reply.Failure? ==>
        allUsers == old(allUsers) && userSkip == old(userSkip) && hasMoreUsers
      ensures issue == old(issue) && comments == old(comments) && projectMemberRole == old(projectMemberRole)
    {
      if !hasMoreUsers {
        return;
      }
      var url := UsersUrl(userSkip);
      var result := api.Send("GET", url, [], NoBody, reply);
      if result.Success? {
        allUsers := allUsers + result.data;
        hasMoreUsers := |result.data| == 10;
        userSkip := userSkip + 10;
      }
    }

    /**
     * `handleStatusChange`: the new status is sent; only when the server accepts it do the
     * selector and the local issue show it.
     */
    method HandleStatusChange(newStatus: string, reply: Reply<IssueData>)
      modifies this`status, this`issue, api, api.browser
      ensures api.sent == old(api.sent) + [Request("PATCH", IssueUrl(routeId), [],
        WithBearer(DefaultHeaders, old(api.browser.token)), Json([("status", JString(newStatus))]))]
      ensures api.browser.token == TokenAfter(old(api.browser.token), reply)
      ensures api.browser.path == PathAfter(old(api.browser.path), reply)
      ensures reply.Success? ==>
        && status == newStatus
        && issue == (if old(issue).Some? then Some(old(issue).value.(status := newStatus)) else None)
      ensures reply.Failure? ==> status == old(status) && issue == old(issue)
      ensures comments == old(comments) && allUsers == old(allUsers) && userSkip == old(userSkip)
      ensures hasMoreUsers == old(hasMoreUsers)
    {
      var result := api.Send("PATCH", "/issues/" + routeId.GetOr("undefined"), [], Json([("status", JString(newStatus))]), reply);
      if result.Success? {
        status := newStatus;
        if issue.Some? {
          issue := Some(issue.value.(status := newStatus));
        }
      }
    }

    /**
     * `handlePostComment`: a blank draft does nothing. Otherwise the draft is posted; on
     * success it is cleared and the comments are fetched again, replacing the list if that
     * fetch succeeds. A failed post keeps the draft. The posting flag ends cleared.
     */
    method HandlePostComment(postReply: Reply<CommentData>, refreshReply: Reply<seq<CommentData>>)
      modifies this`newComment, this`commentLoading, this`comments, api, api.browser
      ensures IsBlank(old(newComment)) ==>
        && newComment == old(newComment) && comments == old(comments)
        && commentLoading == old(commentLoading) && api.sent == old(api.sent)
        && api.browser.token == old(api.browser.token) && api.browser.path == old(api.browser.path)
      ensures !IsBlank(old(newComment)) ==> !commentLoading
      ensures !IsBlank(old(newComment)) && postReply.Success? ==>
        && newComment == ""
        && comments == (if refreshReply.Success? then refreshReply.data else old(comments))
        && api.sent == old(api.sent) + [Request("POST", CommentsUrl(routeId), [],
             WithBearer(DefaultHeaders, old(api.browser.token)), Json([("body", JString(old(newComment)))])),
             Get(CommentsUrl(routeId), old(api.browser.token))]
        && api.browser.token == TokenAfter(old(api.browser.token), refreshReply)
        && api.browser.path == PathAfter(old(api.browser.path), refreshReply)
      ensures !IsBlank(old(newComment)) && postReply.Failure? ==>
        && newComment == old(newComment) && comments == old(comments)
        && api.sent == old(api.sent) + [Request("POST", CommentsUrl(routeId), [],
             WithBearer(DefaultHeaders, old(api.browser.token)), Json([("body", JString(old(newComment)))]))]
        && api.browser.token == TokenAfter(old(api.browser.token), postReply)
        && api.browser.path == PathAfter(old(api.browser.path), postReply)
      ensures issue == old(issue) && status == old(status)
    {
      if IsBlank(newComment) {
        return;
      }
      commentLoading := true;
      var url := "/comments/issue/" + routeId.GetOr("undefined");
      var posted := api.Send("POST", url, [], Json([("body", JString(newComment))]), postReply);
      if posted.Success? {
        newComment := "";
        var refreshed := api.Send("GET", url, [], NoBody, refreshReply);
        if refreshed.Success? {
          comments := refreshed.data;
        }
      }
      commentLoading := false;
    }

    /** `handleEditDescription`: the draft starts from the current description. */
    method HandleEditDescription()
      modifies this`editedDescription, this`isEditingDescription
      ensures editedDescription == DescriptionDraft(issue) && isEditingDescription
      ensures issue == old(issue) && descriptionLoading == old(descriptionLoading)
    {
      editedDescription := if issue.Some? && issue.value.description.Some? then issue.value.description.value else "";
      isEditingDescription := true;
    }

    /**
     * `handleSaveDescription`: without a route id nothing happens. Otherwise the draft is
     * sent; on success the local issue takes it and editing ends, on failure both stay.
     * The saving flag ends cleared.
     */
    method HandleSaveDescription(reply: Reply<IssueData>)
      modifies this`descriptionLoading, this`issue, this`isEditingDescription, api, api.browser
      ensures !Truthy(routeId) ==>
        && issue == old(issue) && isEditingDescription == old(isEditingDescription)
        && descriptionLoading == old(descriptionLoading) && api.sent == old(api.sent)
        && api.browser.token == old(api.browser.token) && api.browser.path == old(api.browser.path)
      ensures Truthy(routeId) ==>
        && !descriptionLoading
        && api.sent == old(api.sent) + [Request("PATCH", IssueUrl(routeId), [],
             WithBearer(DefaultHeaders, old(api.browser.token)), Json([("description", JString(editedDescription))]))]
        && api.browser.token == TokenAfter(old(api.browser.token), reply)
        && api.browser.path == PathAfter(old(api.browser.path), reply)
      ensures Truthy(routeId) && reply.Success? ==>
        && issue == (if old(issue).Some? then Some(old(issue).value.(description := Some(editedDescription))) else None)
        && !isEditingDescription
      ensures Truthy(routeId) && reply.Failure? ==>
        issue == old(issue) && isEditingDescription == old(isEditingDescription)
      ensures editedDescription == old(editedDescription) && status == old(status)
    {
      if !(routeId.Some? && routeId.value != "") {
        return;
      }
      descriptionLoading := true;
      var result := api.Send("PATCH", "/issues/" + routeId.value, [], Json([("description", JString(editedDescription))]), reply);
      if result.Success? {
        if issue.Some? {
          issue := Some(issue.value.(description := Some(editedDescription)));
        }
        isEditingDescription := false;
      }
      descriptionLoading := false;
    }

    /** `handleCancelEdit`: editing ends, the draft is dropped and the issue is untouched. */
    method HandleCancelEdit()
      modifies this`isEditingDescription, this`editedDescription
      ensures !isEditingDescription && editedDescription == ""
      ensures issue == old(issue) && descriptionLoading == old(descriptionLoading)
    {
      isEditingDescription := false;
      editedDescription := "";
    }

    /**
     * `handleAssigneeChange`: without a route id nothing happens. Otherwise the choice is
     * sent as `assignee_id`; on success the local issue takes the local form of that id.
     * The flag ends cleared.
     */
    method HandleAssigneeChange(choice: string, reply: Reply<IssueData>)
      modifies this`assigneeLoading, this`issue, api, api.browser
      ensures !Truthy(routeId) ==>
        && issue == old(issue) && assigneeLoading == old(assigneeLoading) && api.sent == old(api.sent)
        && api.browser.token == old(api.browser.token) && api.browser.path == old(api.browser.path)
      ensures Truthy(routeId) ==>
        && !assigneeLoading
        && api.sent == old(api.sent) + [Request("PATCH", IssueUrl(routeId), [],
             WithBearer(DefaultHeaders, old(api.browser.token)), Json([("assignee_id", AssigneePayload(choice))]))]
        && api.browser.token == TokenAfter(old(api.browser.token), reply)
        && api.browser.path == PathAfter(old(api.browser.path), reply)
      ensures Truthy(routeId) && reply.Success? ==>
        issue == (if old(issue).Some? then Some(old(issue).value.(assigneeId := LocalAssignee(choice))) else None)
      ensures Truthy(routeId) && reply.Failure? ==> issue == old(issue)
      ensures status == old(status) && comments == old(comments)
    {
      if !(routeId.Some? && routeId.value != "") {
        return;
      }
      assigneeLoading := true;
      var payload: JsonValue;
      if choice == "unassigned" {
        payload := JNull;
      } else {
        var parsed := ParseInt(choice);
        payload := if parsed.Some? then JNumber(parsed.value) else JNull;
      }
      var result := api.Send("PATCH", "/issues/" + routeId.value, [], Json([("assignee_id", payload)]), reply);
      if result.Success? {
        if issue.Some? {
          var local := if payload.JNumber? && payload.n != 0 then Some(payload.n) else None;
          issue := Some(issue.value.(assigneeId := local));
        }
      }
      assigneeLoading := false;
    }
  }
}
