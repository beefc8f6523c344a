/**
 * The authentication and authorization decisions every endpoint depends on
 * (backend/app/api/deps.py): resolving the caller from a bearer token, and the
 * membership-based permission checks.
 */
module Deps {
  import opened Common
  import opened Models
  import opened Db
  import Query

  /** The `sub` claim of a decoded token: an integer string, or text `int()` cannot read. */
  datatype Subject = NumericSubject(id: int) | NonNumericSubject

  /**
   * The bearer credential of a request as the dependency sees it: no `Authorization` bearer
   * header at all, a token `jwt.decode` rejects (bad signature, expired, malformed), or the
   * decoded payload with its optional `sub` claim. Decoding itself is not modelled.
   */
  datatype DecodedToken = MissingToken | InvalidToken | Claims(sub: Option<Subject>)

  /** `OAuth2PasswordBearer` refuses a request without a bearer header before the body runs. */
  const NotAuthenticated: ApiError := ApiError(401, "Not authenticated")

  const CredentialsError: ApiError := ApiError(401, "Could not validate credentials")

  /** `int(token_data.id)` sits outside the `try`, so its `ValueError` becomes a server error. */
  const ServerError: ApiError := ApiError(500, "Internal Server Error")

  /** `get_current_user`: the user named by the token's subject, or 401. */
  function GetCurrentUser(users: seq<User>, token: DecodedToken): (r: Response<User>)
    ensures token.MissingToken? ==> r == Err(NotAuthenticated)
    ensures token.InvalidToken? ==> r == Err(CredentialsError)
    ensures token == Claims(None) ==> r == Err(CredentialsError)
    ensures token == Claims(Some(NonNumericSubject)) ==> r == Err(ServerError)
    ensures token.Claims? && token.sub.Some? && token.sub.value.NumericSubject? ==>
      var id := token.sub.value.id;
      && (r.Ok? <==> HasUser(users, id))
      && (r.Ok? ==> r.value in users && r.value.id == id)
      && (r.Err? ==> r.error == CredentialsError)
  {
    match token
    case MissingToken => Err(NotAuthenticated)
    case InvalidToken => Err(CredentialsError)
    case Claims(None) => Err(CredentialsError)
    case Claims(Some(NonNumericSubject)) => Err(ServerError)
    case Claims(Some(NumericSubject(id))) =>
      match UserById(users, id)
      case None => Err(CredentialsError)
      case Some(u) => Ok(u)
  }

  /** The caller's membership row in a project: the first row for that (project, user) pair. */
  function MembershipOf(members: seq<ProjectMember>, projectId: int, userId: int): (r: Option<ProjectMember>)
    ensures r.None? <==> !IsMember(members, projectId, userId)
    ensures r.Some? ==> r.value in members && r.value.projectId == projectId && r.value.userId == userId
    ensures r.Some? && NoDuplicateMemberships(members) ==>
      forall k :: 0 <= k < |members| && members[k].projectId == projectId && members[k].userId == userId ==>
        members[k] == r.value
  {
    Query.First(members, (m: ProjectMember) => m.projectId == projectId && m.userId == userId)
  }

  /** The actions for which a plain member must be the reporter. */
  const OwnerOnlyActions: seq<string> := ["update", "delete"]

  /**
   * `check_issue_permission`: non-members may do nothing; a member whose row has the
   * maintainer role may do everything; another member may update or delete only issues
   * they reported, and may do any other action.
   */
  function CheckIssuePermission(members: seq<ProjectMember>, issue: Issue, user: User, action: string): (r: bool)
    ensures !IsMember(members, issue.projectId, user.id) ==> !r
    ensures IsMember(members, issue.projectId, user.id) ==>
      var row := MembershipOf(members, issue.projectId, user.id).value;
      && (row.role == MaintainerRole ==> r)
      && (row.role != MaintainerRole && action in OwnerOnlyActions ==> (r <==> issue.reporterId == user.id))
      && (row.role != MaintainerRole && action !in OwnerOnlyActions ==> r)
  {
    match MembershipOf(members, issue.projectId, user.id)
    case None => false
    case Some(member) =>
      if member.role == MaintainerRole then true
      else if action in OwnerOnlyActions then issue.reporterId == user.id
      else true
  }

  /** `check_project_maintainer`: some row for this project and user carries the maintainer role. */
  function CheckProjectMaintainer(members: seq<ProjectMember>, projectId: int, user: User): (r: bool)
    ensures r <==> IsMaintainer(members, projectId, user.id)
  {
    Query.First(members, (m: ProjectMember) =>
      m.projectId == projectId && m.userId == user.id && m.role == MaintainerRole).Some?
  }

  /**
   * The endpoints decide maintainer rights from the caller's first membership row, while
   * `check_project_maintainer` asks whether any row has the role. Without duplicate rows the
   * two agree.
   */
  lemma FirstRowRoleDecidesMaintainer(members: seq<ProjectMember>, projectId: int, user: User)
    requires NoDuplicateMemberships(members)
    ensures CheckProjectMaintainer(members, projectId, user) <==>
      var row := MembershipOf(members, projectId, user.id);
      row.Some? && row.value.role == MaintainerRole
  {
    var row := MembershipOf(members, projectId, user.id);
    if CheckProjectMaintainer(members, projectId, user) {
      var k :| 0 <= k < |members| && members[k].projectId == projectId && members[k].userId == user.id
        && members[k].role == MaintainerRole;
      assert IsMember(members, projectId, user.id);
    }
  }

  /**
   * The table does not forbid duplicate rows, and with them the two checks part ways:
   * here, in the model's scan order, the first row says "member" and a later one says
   * "maintainer". The queries have no `ORDER BY`, so which row `.first()` returns is the
   * database's choice.
   */
  lemma DuplicateRowsSplitMaintainerChecks()
    ensures
      var user := User(7, "a@example.com", None, "h", DefaultUserRole);
      var members := [ProjectMember(1, 3, 7, "member"), ProjectMember(2, 3, 7, "maintainer")];
      && !NoDuplicateMemberships(members)
      && CheckProjectMaintainer(members, 3, user)
      && MembershipOf(members, 3, 7).value.role != MaintainerRole
  {
    var members := [ProjectMember(1, 3, 7, "member"), ProjectMember(2, 3, 7, "maintainer")];
    assert members[1].projectId == 3 && members[1].userId == 7 && members[1].role == MaintainerRole;
    assert members[0].projectId == 3 && members[0].userId == 7;
  }
}
