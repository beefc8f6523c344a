/**
 * The project endpoints (backend/app/api/api_v1/endpoints/projects.py): listing the
 * caller's projects, creating a project with its creator as maintainer, reading one,
 * adding members and partially updating a project. Each takes the caller resolved by
 * `get_current_user`.
 */
module ProjectsApi {
  import opened Common
  import opened Models
  import opened Schemas
  import opened Db
  import opened Deps
  import Query

  const KeyExistsOnCreate: ApiError := ApiError(400, "The project with this key already exists.")
  const ProjectNotFound: ApiError := ApiError(404, "Project not found")
  const NotEnoughPermissions: ApiError := ApiError(403, "Not enough permissions")
  const OnlyMaintainersAdd: ApiError := ApiError(403, "Only maintainers can add members")
  const UserNotFound: ApiError := ApiError(404, "User not found")
  const AlreadyMember: ApiError := ApiError(400, "User is already a member")
  const OnlyMaintainersUpdate: ApiError := ApiError(403, "Only maintainers can update projects")
  const KeyExistsOnUpdate: ApiError := ApiError(400, "A project with this key already exists")

  /** `Project.id.in_(project_ids)`. */
  function IdIn(ids: seq<int>): Project -> bool {
    (p: Project) => p.id in ids
  }

  /** Projects the user has a membership row in. */
  function OfMember(members: seq<ProjectMember>, userId: int): Project -> bool {
    (p: Project) => IsMember(members, p.id, userId)
  }

  /** The projects a user has a membership row in, in table order. */
  function MemberProjects(projects: seq<Project>, members: seq<ProjectMember>, userId: int): seq<Project> {
    Query.Where(projects, OfMember(members, userId))
  }

  /**
   * `read_projects`: one page of the projects the caller belongs to. The membership ids are
   * collected first and the projects filtered by them, which selects exactly the member
   * projects, in table order.
   */
  function ReadProjects(db: Database, caller: User, skip: nat, limit: nat): (r: seq<Project>)
    reads db
    ensures |r| <= limit
    ensures forall k :: 0 <= k < |r| ==> r[k] in db.projects && IsMember(db.members, r[k].id, caller.id)
    ensures r == Query.Window(MemberProjects(db.projects, db.members, caller.id), skip, limit)
  {
    var ids := MemberProjectIds(db.members, caller.id);
    Query.WhereSame(db.projects, IdIn(ids), OfMember(db.members, caller.id));
    Query.Window(Query.Where(db.projects, IdIn(ids)), skip, limit)
  }

  /** Every project the caller is a member of shows up when the page is large enough. */
  lemma {:induction false} ReadProjectsListsAllMemberProjects(db: Database, caller: User, p: Project)
    requires p in db.projects && IsMember(db.members, p.id, caller.id)
    ensures p in ReadProjects(db, caller, 0, |db.projects|)
  {
    var all := MemberProjects(db.projects, db.members, caller.id);
    var k :| 0 <= k < |db.projects| && db.projects[k] == p;
    assert p in all;
    assert Query.Window(all, 0, |db.projects|) == all;
  }

  /**
   * `create_project`: a taken key is refused with 400; otherwise the project row is inserted
   * and then the caller's maintainer membership for it.
   */
  method CreateProject(db: Database, caller: User, input: ProjectCreate) returns (r: Response<Project>)
    requires db.Valid() && caller in db.users
    modifies db
    ensures db.Valid()
    ensures KeyTaken(old(db.projects), input.key) ==> r == Err(KeyExistsOnCreate) && unchanged(db)
    ensures !KeyTaken(old(db.projects), input.key) ==>
      && r == Ok(Project(old(db.nextProjectId), input.name, input.key, input.description))
      && db.projects == old(db.projects) + [r.value]
      && db.members == old(db.members) + [ProjectMember(old(db.nextMemberId), r.value.id, caller.id, MaintainerRole)]
      && db.users == old(db.users) && db.issues == old(db.issues) && db.comments == old(db.comments)
  {
    var existing := ProjectByKey(db.projects, input.key);
    if existing.Some? {
      return Err(KeyExistsOnCreate);
    }
    var project := db.InsertProject(input.name, input.key, input.description);
    forall k | 0 <= k < |db.members| ensures db.members[k].projectId != project.id {
      var w :| 0 <= w < |db.projects| && db.projects[w].id == db.members[k].projectId;
      assert w < |db.projects| - 1;
    }
    var u :| 0 <= u < |db.users| && db.users[u] == caller;
    assert HasProject(db.projects, project.id) by {
      assert db.projects[|db.projects| - 1] == project;
    }
    var member := db.InsertMember(project.id, caller.id, RoleValue(Maintainer));
    r := Ok(project);
  }

  /** `read_project`: 404 for an unknown id, 403 for a non-member, else the project row. */
  function ReadProject(db: Database, caller: User, id: int): (r: Response<Project>)
    reads db
    ensures !HasProject(db.projects, id) ==> r == Err(ProjectNotFound)
    ensures HasProject(db.projects, id) && !IsMember(db.members, id, caller.id) ==> r == Err(NotEnoughPermissions)
    ensures HasProject(db.projects, id) && IsMember(db.members, id, caller.id) ==>
      r.Ok? && r.value in db.projects && r.value.id == id
  {
    match ProjectIndex(db.projects, id)
    case None => Err(ProjectNotFound)
    case Some(k) =>
      if MembershipOf(db.members, id, caller.id).None? then Err(NotEnoughPermissions)
      else Ok(db.projects[k])
  }

  /**
   * `add_project_member`: only a caller whose membership row is a maintainer's may add;
   * then the project and the target user must exist, and the target must not be a member
   * yet. The requested role is stored as given.
   */
  method AddProjectMember(db: Database, caller: User, id: int, input: ProjectMemberCreate)
    returns (r: Response<ProjectMember>)
    requires db.Valid()
    modifies db
    ensures db.Valid()
    ensures !IsMaintainer(old(db.members), id, caller.id) ==> r == Err(OnlyMaintainersAdd) && unchanged(db)
    ensures IsMaintainer(old(db.members), id, caller.id) && !HasProject(old(db.projects), id) ==>
      r == Err(ProjectNotFound) && unchanged(db)
    ensures IsMaintainer(old(db.members), id, caller.id) && HasProject(old(db.projects), id) ==>
      !HasUser(old(db.users), input.userId) ==> r == Err(UserNotFound) && unchanged(db)
    ensures IsMaintainer(old(db.members), id, caller.id) && HasProject(old(db.projects), id) ==>
      HasUser(old(db.users), input.userId) && IsMember(old(db.members), id, input.userId) ==>
      r == Err(AlreadyMember) && unchanged(db)
    ensures IsMaintainer(old(db.members), id, caller.id) && HasProject(old(db.projects), id) ==>
      HasUser(old(db.users), input.userId) && !IsMember(old(db.members), id, input.userId) ==>
      && r == Ok(ProjectMember(old(db.nextMemberId), id, input.userId, input.role))
      && db.members == old(db.members) + [r.value]
      && db.users == old(db.users) && db.projects == old(db.projects)
      && db.issues == old(db.issues) && db.comments == old(db.comments)
  {
    FirstRowRoleDecidesMaintainer(db.members, id, caller);
    var current := MembershipOf(db.members, id, caller.id);
    if current.None? || current.value.role != RoleValue(Maintainer) {
      return Err(OnlyMaintainersAdd);
    }
    if ProjectIndex(db.projects, id).None? {
      return Err(ProjectNotFound);
    }
    if UserById(db.users, input.userId).None? {
      return Err(UserNotFound);
    }
    if MembershipOf(db.members, id, input.userId).Some? {
      return Err(AlreadyMember);
    }
    var member := db.InsertMember(id, input.userId, input.role);
    r := Ok(member);
  }

  /**
   * The `setattr` loop of `update_project`: the fields present in the dumped update are
   * written one after the other, which gives the field-wise merge.
   */
  method ApplyProjectUpdate(p: Project, input: ProjectUpdate) returns (q: Project)
    ensures q == MergeProject(p, input)
  {
    var data := ProjectUpdateData(input);
    q := p;
    for i := 0 to |data|
      invariant q == SetProjectFields(p, data[..i])
    {
      SetProjectFieldsConcat(p, data[..i], [data[i]]);
      assert data[..i + 1] == data[..i] + [data[i]];
      q := SetProjectField(q, data[i]);
    }
    assert data[..|data|] == data;
    SetProjectFieldsIsMerge(p, input);
  }

  /**
   * `update_project`: 404 for an unknown project, 403 unless the caller's row is a
   * maintainer's, 400 when a new, different key is already in use; otherwise the fields
   * present in the request replace the stored ones. Keys stay unique.
   */
  method UpdateProject(db: Database, caller: User, id: int, input: ProjectUpdate) returns (r: Response<Project>)
    requires db.Valid()
    modifies db
    ensures db.Valid()
    ensures !HasProject(old(db.projects), id) ==> r == Err(ProjectNotFound) && unchanged(db)
    ensures HasProject(old(db.projects), id) && !IsMaintainer(old(db.members), id, caller.id) ==>
      r == Err(OnlyMaintainersUpdate) && unchanged(db)
    ensures HasProject(old(db.projects), id) && IsMaintainer(old(db.members), id, caller.id) ==>
      var k := ProjectIndex(old(db.projects), id).value;
      var current := old(db.projects)[k];
      if input.key.Put? && input.key.value != current.key && KeyTaken(old(db.projects), input.key.value) then
        r == Err(KeyExistsOnUpdate) && unchanged(db)
      else
        && r == Ok(MergeProject(current, input))
        && db.projects == old(db.projects)[k := r.value]
        && db.users == old(db.users) && db.members == old(db.members)
        && db.issues == old(db.issues) && db.comments == old(db.comments)
  {
    var found := ProjectIndex(db.projects, id);
    if found.None? {
      return Err(ProjectNotFound);
    }
    var k := found.value;
    var project := db.projects[k];
    FirstRowRoleDecidesMaintainer(db.members, id, caller);
    var current := MembershipOf(db.members, id, caller.id);
    if current.None? || current.value.role != RoleValue(Maintainer) {
      return Err(OnlyMaintainersUpdate);
    }
    if input.key.Put? && input.key.value != project.key {
      if ProjectByKey(db.projects, input.key.value).Some? {
        return Err(KeyExistsOnUpdate);
      }
    }
    var updated := ApplyProjectUpdate(project, input);
    forall j | 0 <= j < |db.projects| && j != k ensures db.projects[j].key != updated.key {
      if input.key.Keep? {
        assert updated.key == project.key;
      }
    }
    db.ReplaceProject(k, updated);
    r := Ok(updated);
  }
}
