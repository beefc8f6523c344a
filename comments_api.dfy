/**
 * The comment endpoints (backend/app/api/api_v1/endpoints/comments.py): listing the
 * comments of an issue and posting one, both open to members of the issue's project.
 */
module CommentsApi {
  import opened Common
  import opened Models
  import opened Schemas
  import opened Db
  import opened Deps
  import Query
  import ProjectsApi
  import IssuesApi

  const IssueNotFound: ApiError := ApiError(404, "Issue not found")
  const NotEnoughPermissions: ApiError := ApiError(403, "Not enough permissions")

  function OnIssue(issueId: int): Comment -> bool {
    (c: Comment) => c.issueId == issueId
  }

  /** The comments of one issue, in table order (the order they were posted). */
  function CommentsOf(comments: seq<Comment>, issueId: int): seq<Comment> {
    Query.Where(comments, OnIssue(issueId))
  }

  /** Posting a comment adds it at the end of its own issue's comments and nowhere else. */
  lemma CommentsOfAppend(comments: seq<Comment>, c: Comment, issueId: int)
    ensures CommentsOf(comments + [c], issueId) ==
      CommentsOf(comments, issueId) + (if c.issueId == issueId then [c] else [])
  {
    Query.WhereConcat(comments, [c], OnIssue(issueId));
    assert Query.Where([c], OnIssue(issueId)) == (if c.issueId == issueId then [c] else []) by {
      assert [c][1..] == [];
    }
  }

  /** An issue id not handed out yet has no comments. */
  lemma NoCommentsOnUnusedIssueId(db: Database, issueId: int)
    requires db.Valid() && issueId >= db.nextIssueId
    ensures CommentsOf(db.comments, issueId) == []
  {
    forall i | 0 <= i < |db.comments| ensures !OnIssue(issueId)(db.comments[i]) {
      var k :| 0 <= k < |db.issues| && db.issues[k].id == db.comments[i].issueId;
    }
    Query.WhereNone(db.comments, OnIssue(issueId));
  }

  /**
   * `read_comments`: 404 for an unknown issue, 403 unless the caller belongs to the issue's
   * project; otherwise one page of the issue's comments in table order.
   */
  function ReadComments(db: Database, caller: User, issueId: int, skip: nat, limit: nat): (r: Response<seq<Comment>>)
    reads db
    ensures !HasIssue(db.issues, issueId) ==> r == Err(IssueNotFound)
    ensures HasIssue(db.issues, issueId) ==>
      var issue := db.issues[IssueIndex(db.issues, issueId).value];
      && (!IsMember(db.members, issue.projectId, caller.id) ==> r == Err(NotEnoughPermissions))
      && (IsMember(db.members, issue.projectId, caller.id) ==>
            r == Ok(Query.Window(CommentsOf(db.comments, issueId), skip, limit)))
    ensures r.Ok? ==> |r.value| <= limit
    ensures r.Ok? ==>
      forall k :: 0 <= k < |r.value| ==> r.value[k] in db.comments && r.value[k].issueId == issueId
  {
    match IssueIndex(db.issues, issueId)
    case None => Err(IssueNotFound)
    case Some(k) =>
      if MembershipOf(db.members, db.issues[k].projectId, caller.id).None? then Err(NotEnoughPermissions)
      else
        var page := Query.Window(CommentsOf(db.comments, issueId), skip, limit);
        assert forall j :: 0 <= j < |page| ==> page[j] in CommentsOf(db.comments, issueId);
        Ok(page)
  }

  /**
   * An issue whose only comment is `c` reads back as exactly `[c]` for a member with the
   * default page, as after the first comment on a fresh issue.
   */
  lemma OnlyCommentReadsBack(db: Database, caller: User, issueId: int, c: Comment)
    requires HasIssue(db.issues, issueId)
    requires IsMember(db.members, db.issues[IssueIndex(db.issues, issueId).value].projectId, caller.id)
    requires CommentsOf(db.comments, issueId) == [c]
    ensures ReadComments(db, caller, issueId, 0, 100) == Ok([c])
  {
    assert Query.Window([c], 0, 100) == [c];
  }

  /**
   * `create_comment`: 404 for an unknown issue, 403 unless the caller belongs to the
   * issue's project; otherwise the comment is stored with the path's issue and the caller
   * as author, and becomes the issue's last comment.
   */
  method CreateComment(db: Database, caller: User, issueId: int, input: CommentCreate) returns (r: Response<Comment>)
    requires db.Valid()
    modifies db
    ensures db.Valid()
    ensures !HasIssue(old(db.issues), issueId) ==> r == Err(IssueNotFound) && unchanged(db)
    ensures HasIssue(old(db.issues), issueId) ==>
      var issue := old(db.issues)[IssueIndex(old(db.issues), issueId).value];
      if !IsMember(old(db.members), issue.projectId, caller.id) then
        r == Err(NotEnoughPermissions) && unchanged(db)
      else
        && r == Ok(Comment(old(db.nextCommentId), issueId, caller.id, input.body))
        && db.comments == old(db.comments) + [r.value]
        && CommentsOf(db.comments, issueId) == CommentsOf(old(db.comments), issueId) + [r.value]
        && db.users == old(db.users) && db.projects == old(db.projects)
        && db.members == old(db.members) && db.issues == old(db.issues)
  {
    var found := IssueIndex(db.issues, issueId);
    if found.None? {
      return Err(IssueNotFound);
    }
    var issue := db.issues[found.value];
    if MembershipOf(db.members, issue.projectId, caller.id).None? {
      return Err(NotEnoughPermissions);
    }
    var comment := db.InsertComment(issueId, caller.id, input.body);
    CommentsOfAppend(old(db.comments), comment, issueId);
    r := Ok(comment);
  }

  /**
   * The comment round trip on a fresh issue: a user creates a project, an issue in it and
   * one comment on that issue; reading the issue's comments then returns exactly that
   * comment, authored by the user and attached to the new issue.
   */
  method FirstCommentReadsBack(db: Database, caller: User, project: ProjectCreate, title: string, body: string)
    returns (rp: Response<Project>, ri: Response<Issue>, rc: Response<Comment>)
    requires db.Valid() && caller in db.users && !KeyTaken(db.projects, project.key)
    modifies db
    ensures rp.Ok? && ri.Ok? && rc.Ok?
    ensures ri.value.projectId == rp.value.id && ri.value.reporterId == caller.id
    ensures rc.value.issueId == ri.value.id && rc.value.authorId == caller.id && rc.value.body == body
    ensures ReadComments(db, caller, ri.value.id, 0, 100) == Ok([rc.value])
  {
    rp := ProjectsApi.CreateProject(db, caller, project);
    var pid := rp.value.id;
    assert IsMember(db.members, pid, caller.id) by {
      assert db.members[|db.members| - 1].projectId == pid;
      assert db.members[|db.members| - 1].userId == caller.id;
    }
    NoCommentsOnUnusedIssueId(db, db.nextIssueId);
    ri := IssuesApi.CreateIssue(db, caller, MinimalIssueCreate(title, pid));
    var issue := ri.value;
    assert CommentsOf(db.comments, issue.id) == [];
    assert db.issues[|db.issues| - 1] == issue;
    assert IssueIndex(db.issues, issue.id) == Some(|db.issues| - 1) by {
      var k := IssueIndex(db.issues, issue.id).value;
      assert !(k < |db.issues| - 1);
    }
    rc := CreateComment(db, caller, issue.id, CommentCreate(body));
    OnlyCommentReadsBack(db, caller, issue.id, rc.value);
  }
}
