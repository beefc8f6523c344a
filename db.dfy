/**
 * The five tables of the backend database, held in memory in insertion order, with the
 * integrity the endpoints rely on and maintain. Inserting a row is `db.add` followed by
 * `commit`/`refresh`, which is when the autoincrement id is assigned.
 */
module Db {
  import opened Common
  import opened Models
  import opened Schemas
  import Query

  predicate HasUser(users: seq<User>, id: int) {
    exists k :: 0 <= k < |users| && users[k].id == id
  }

  predicate EmailTaken(users: seq<User>, email: string) {
    exists k :: 0 <= k < |users| && users[k].email == email
  }

  predicate HasProject(projects: seq<Project>, id: int) {
    exists k :: 0 <= k < |projects| && projects[k].id == id
  }

  predicate KeyTaken(projects: seq<Project>, key: string) {
    exists k :: 0 <= k < |projects| && projects[k].key == key
  }

  predicate HasIssue(issues: seq<Issue>, id: int) {
    exists k :: 0 <= k < |issues| && issues[k].id == id
  }

  /** A membership row exists for this project and user, whatever its role. */
  predicate IsMember(members: seq<ProjectMember>, projectId: int, userId: int) {
    exists k :: 0 <= k < |members| && members[k].projectId == projectId && members[k].userId == userId
  }

  /** A membership row exists for this project and user with the maintainer role. */
  predicate IsMaintainer(members: seq<ProjectMember>, projectId: int, userId: int) {
    exists k :: 0 <= k < |members| && members[k].projectId == projectId && members[k].userId == userId
      && members[k].role == MaintainerRole
  }

  predicate UniqueEmails(users: seq<User>) {
    forall i, j :: 0 <= i < j < |users| ==> users[i].email != users[j].email
  }

  predicate UniqueKeys(projects: seq<Project>) {
    forall i, j :: 0 <= i < j < |projects| ==> projects[i].key != projects[j].key
  }

  /** No (project, user) pair has two membership rows. Only `add_project_member` keeps this. */
  predicate NoDuplicateMemberships(members: seq<ProjectMember>) {
    forall i, j :: 0 <= i < j < |members| ==>
      !(members[i].projectId == members[j].projectId && members[i].userId == members[j].userId)
  }

  /** Autoincrement ids: increasing in insertion order and below the next id to hand out. */
  predicate UserIds(users: seq<User>, next: int) {
    && (forall i, j :: 0 <= i < j < |users| ==> users[i].id < users[j].id)
    && (forall i :: 0 <= i < |users| ==> users[i].id < next)
  }

  predicate ProjectIds(projects: seq<Project>, next: int) {
    && (forall i, j :: 0 <= i < j < |projects| ==> projects[i].id < projects[j].id)
    && (forall i :: 0 <= i < |projects| ==> projects[i].id < next)
  }

  predicate MemberIds(members: seq<ProjectMember>, next: int) {
    && (forall i, j :: 0 <= i < j < |members| ==> members[i].id < members[j].id)
    && (forall i :: 0 <= i < |members| ==> members[i].id < next)
  }

  predicate IssueIds(issues: seq<Issue>, next: int) {
    && (forall i, j :: 0 <= i < j < |issues| ==> issues[i].id < issues[j].id)
    && (forall i :: 0 <= i < |issues| ==> issues[i].id < next)
  }

  predicate CommentIds(comments: seq<Comment>, next: int) {
    && (forall i, j :: 0 <= i < j < |comments| ==> comments[i].id < comments[j].id)
    && (forall i :: 0 <= i < |comments| ==> comments[i].id < next)
  }

  /** `db.query(User).filter(User.id == id).first()`. */
  function UserById(users: seq<User>, id: int): (r: Option<User>)
    ensures r.None? <==> !HasUser(users, id)
    ensures r.Some? ==> r.value in users && r.value.id == id
  {
    Query.First(users, (u: User) => u.id == id)
  }

  /** `db.query(User).filter(User.email == email).first()`. */
  function UserByEmail(users: seq<User>, email: string): (r: Option<User>)
    ensures r.None? <==> !EmailTaken(users, email)
    ensures r.Some? ==> r.value in users && r.value.email == email
  {
    Query.First(users, (u: User) => u.email == email)
  }

  /** Position of the project row with this id, if any. */
  function ProjectIndex(projects: seq<Project>, id: int): (r: Option<nat>)
    ensures r.None? <==> !HasProject(projects, id)
    ensures r.Some? ==> r.value < |projects| && projects[r.value].id == id
  {
    Query.FindIndex(projects, (p: Project) => p.id == id)
  }

  /** `db.query(Project).filter(Project.key == key).first()`. */
  function ProjectByKey(projects: seq<Project>, key: string): (r: Option<Project>)
    ensures r.None? <==> !KeyTaken(projects, key)
    ensures r.Some? ==> r.value in projects && r.value.key == key
  {
    Query.First(projects, (p: Project) => p.key == key)
  }

  /** Position of the issue row with this id, if any. */
  function IssueIndex(issues: seq<Issue>, id: int): (r: Option<nat>)
    ensures r.None? <==> !HasIssue(issues, id)
    ensures r.Some? ==> r.value < |issues| && issues[r.value].id == id
  {
    Query.FindIndex(issues, (i: Issue) => i.id == id)
  }

  /** The project ids of a user's membership rows: exactly the projects the user belongs to. */
  function MemberProjectIds(members: seq<ProjectMember>, userId: int): (r: seq<int>)
    ensures forall pid :: pid in r <==> IsMember(members, pid, userId)
  {
    if members == [] then []
    else
      var rest := MemberProjectIds(members[1..], userId);
      assert forall pid :: IsMember(members, pid, userId) <==>
        (members[0].projectId == pid && members[0].userId == userId) || IsMember(members[1..], pid, userId) by {
        forall pid | IsMember(members[1..], pid, userId) ensures IsMember(members, pid, userId) {
          var k :| 0 <= k < |members[1..]| && members[1..][k].projectId == pid && members[1..][k].userId == userId;
          assert members[k + 1] == members[1..][k];
        }
        forall pid | IsMember(members, pid, userId) && !(members[0].projectId == pid && members[0].userId == userId)
          ensures IsMember(members[1..], pid, userId) {
          var k :| 0 <= k < |members| && members[k].projectId == pid && members[k].userId == userId;
          assert k > 0 && members[1..][k - 1] == members[k];
        }
      }
      (if members[0].userId == userId then [members[0].projectId] else []) + rest
  }

  class Database {
    var users: seq<User>
    var projects: seq<Project>
    var members: seq<ProjectMember>
    var issues: seq<Issue>
    var comments: seq<Comment>

    var nextUserId: int
    var nextProjectId: int
    var nextMemberId: int
    var nextIssueId: int
    var nextCommentId: int

    /**
     * Keys and emails are unique (column constraints), memberships are not duplicated,
     * and every membership, issue and comment refers to rows that exist (foreign keys).
     */
    ghost predicate Valid()
      reads this
    {
      && UserIds(users, nextUserId)
      && ProjectIds(projects, nextProjectId)
      && MemberIds(members, nextMemberId)
      && IssueIds(issues, nextIssueId)
      && CommentIds(comments, nextCommentId)
      && UniqueEmails(users)
      && UniqueKeys(projects)
      && NoDuplicateMemberships(members)
      && (forall k :: 0 <= k < |members| ==>
            HasProject(projects, members[k].projectId) && HasUser(users, members[k].userId))
      && (forall k :: 0 <= k < |issues| ==> HasProject(projects, issues[k].projectId))
      && (forall k :: 0 <= k < |comments| ==> HasIssue(issues, comments[k].issueId))
    }

    /** An empty database; ids start at 1. */
    constructor ()
      ensures Valid()
      ensures users == [] && projects == [] && members == [] && issues == [] && comments == []
    {
      users, projects, members, issues, comments := [], [], [], [], [];
      nextUserId, nextProjectId, nextMemberId, nextIssueId, nextCommentId := 1, 1, 1, 1, 1;
    }

    method InsertUser(email: string, name: Option<string>, passwordHash: string) returns (u: User)
      requires Valid() && !EmailTaken(users, email)
      modifies this
      ensures Valid()
      ensures u == User(old(nextUserId), email, name, passwordHash, DefaultUserRole)
      ensures users == old(users) + [u]
      ensures projects == old(projects) && members == old(members)
      ensures issues == old(issues) && comments == old(comments)
      ensures nextProjectId == old(nextProjectId) && nextMemberId == old(nextMemberId) && nextIssueId == old(nextIssueId) && nextCommentId == old(nextCommentId)
    {
      u := User(nextUserId, email, name, passwordHash, DefaultUserRole);
      ghost var before := users;
      users := users + [u];
      nextUserId := nextUserId + 1;
      KeepsUsers(before, users);
    }

    method InsertProject(name: string, key: string, description: Option<string>) returns (p: Project)
      requires Valid() && !KeyTaken(projects, key)
      modifies this
      ensures Valid()
      ensures p == Project(old(nextProjectId), name, key, description)
      ensures projects == old(projects) + [p]
      ensures users == old(users) && members == old(members)
      ensures issues == old(issues) && comments == old(comments)
      ensures nextUserId == old(nextUserId) && nextMemberId == old(nextMemberId) && nextIssueId == old(nextIssueId) && nextCommentId == old(nextCommentId)
    {
      p := Project(nextProjectId, name, key, description);
      ghost var before := projects;
      projects := projects + [p];
      nextProjectId := nextProjectId + 1;
      KeepsProjects(before, projects);
    }

    method InsertMember(projectId: int, userId: int, role: string) returns (m: ProjectMember)
      requires Valid() && HasProject(projects, projectId) && HasUser(users, userId)
      requires !IsMember(members, projectId, userId)
      modifies this
      ensures Valid()
      ensures m == ProjectMember(old(nextMemberId), projectId, userId, role)
      ensures members == old(members) + [m]
      ensures users == old(users) && projects == old(projects)
      ensures issues == old(issues) && comments == old(comments)
      ensures nextUserId == old(nextUserId) && nextProjectId == old(nextProjectId) && nextIssueId == old(nextIssueId) && nextCommentId == old(nextCommentId)
    {
      m := ProjectMember(nextMemberId, projectId, userId, role);
      members := members + [m];
      nextMemberId := nextMemberId + 1;
    }

    /** Inserts the row built from a create request, with the given reporter. */
    method InsertIssue(c: IssueCreate, reporterId: int) returns (i: Issue)
      requires Valid() && HasProject(projects, c.projectId)
      modifies this
      ensures Valid()
      ensures i == NewIssue(old(nextIssueId), c, reporterId)
      ensures issues == old(issues) + [i]
      ensures users == old(users) && projects == old(projects)
      ensures members == old(members) && comments == old(comments)
      ensures nextUserId == old(nextUserId) && nextProjectId == old(nextProjectId) && nextMemberId == old(nextMemberId) && nextCommentId == old(nextCommentId)
    {
      i := NewIssue(nextIssueId, c, reporterId);
      ghost var before := issues;
      issues := issues + [i];
      nextIssueId := nextIssueId + 1;
      KeepsIssues(before, issues);
    }

    method InsertComment(issueId: int, authorId: int, body: string) returns (c: Comment)
      requires Valid() && HasIssue(issues, issueId)
      modifies this
      ensures Valid()
      ensures c == Comment(old(nextCommentId), issueId, authorId, body)
      ensures comments == old(comments) + [c]
      ensures users == old(users) && projects == old(projects)
      ensures members == old(members) && issues == old(issues)
      ensures nextUserId == old(nextUserId) && nextProjectId == old(nextProjectId) && nextMemberId == old(nextMemberId) && nextIssueId == old(nextIssueId)
    {
      c := Comment(nextCommentId, issueId, authorId, body);
      comments := comments + [c];
      nextCommentId := nextCommentId + 1;
    }

    /** Writes back an updated project row; its id stays and its key clashes with no other row. */
    method ReplaceProject(k: nat, p: Project)
      requires Valid() && k < |projects| && p.id == projects[k].id
      requires forall j :: 0 <= j < |projects| && j != k ==> projects[j].key != p.key
      modifies this
      ensures Valid()
      ensures projects == old(projects)[k := p]
      ensures users == old(users) && members == old(members)
      ensures issues == old(issues) && comments == old(comments)
      ensures nextUserId == old(nextUserId) && nextProjectId == old(nextProjectId) && nextMemberId == old(nextMemberId) && nextIssueId == old(nextIssueId) && nextCommentId == old(nextCommentId)
    {
      ghost var before := projects;
      projects := projects[k := p];
      KeepsProjects(before, projects);
    }

    /** Writes back an updated issue row; its id and project stay. */
    method ReplaceIssue(k: nat, i: Issue)
      requires Valid() && k < |issues| && i.id == issues[k].id && i.projectId == issues[k].projectId
      modifies this
      ensures Valid()
      ensures issues == old(issues)[k := i]
      ensures users == old(users) && projects == old(projects)
      ensures members == old(members) && comments == old(comments)
      ensures nextUserId == old(nextUserId) && nextProjectId == old(nextProjectId) && nextMemberId == old(nextMemberId) && nextIssueId == old(nextIssueId) && nextCommentId == old(nextCommentId)
    {
      ghost var before := issues;
      issues := issues[k := i];
      KeepsIssues(before, issues);
    }
  }

  /** Every project id present before is still present. */
  lemma KeepsProjects(before: seq<Project>, after: seq<Project>)
    requires |before| <= |after|
    requires forall k :: 0 <= k < |before| ==> after[k].id == before[k].id
    ensures forall id :: HasProject(before, id) ==> HasProject(after, id)
  {
    forall id | HasProject(before, id) ensures HasProject(after, id) {
      var w :| 0 <= w < |before| && before[w].id == id;
      assert after[w].id == id;
    }
  }

  /** Every user id present before is still present. */
  lemma KeepsUsers(before: seq<User>, after: seq<User>)
    requires |before| <= |after|
    requires forall k :: 0 <= k < |before| ==> after[k].id == before[k].id
    ensures forall id :: HasUser(before, id) ==> HasUser(after, id)
  {
    forall id | HasUser(before, id) ensures HasUser(after, id) {
      var w :| 0 <= w < |before| && before[w].id == id;
      assert after[w].id == id;
    }
  }

  /** Every issue id present before is still present. */
  lemma KeepsIssues(before: seq<Issue>, after: seq<Issue>)
    requires |before| <= |after|
    requires forall k :: 0 <= k < |before| ==> after[k].id == before[k].id
    ensures forall id :: HasIssue(before, id) ==> HasIssue(after, id)
  {
    forall id | HasIssue(before, id) ensures HasIssue(after, id) {
      var w :| 0 <= w < |before| && before[w].id == id;
      assert after[w].id == id;
    }
  }

  /** Every membership names a project that exists. */
  lemma MemberHasProject(db: Database, projectId: int, userId: int)
    requires db.Valid() && IsMember(db.members, projectId, userId)
    ensures HasProject(db.projects, projectId)
  {
    var k :| 0 <= k < |db.members| && db.members[k].projectId == projectId && db.members[k].userId == userId;
  }
}
