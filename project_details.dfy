/**
 * The project page (frontend/src/pages/ProjectDetails.tsx): the project and its issues,
 * the status and priority colouring of the issue table, and the "New Issue" dialog.
 */
module ProjectDetails {
  import opened Common
  import opened Client
  import opened Views
  import opened JsText

  /** `statusColor`: the table's status badge. */
  function StatusColor(status: string): (v: Variant)
    ensures status == "open" ==> v == Default
    ensures status == "in_progress" ==> v == Secondary
    ensures status == "closed" ==> v == Destructive
    ensures status !in ["open", "in_progress", "closed"] ==> v == Outline
  {
    match status
    case "open" => Default
    case "in_progress" => Secondary
    case "resolved" => Outline
    case "closed" => Destructive
    case _ => Outline
  }

  /** The priority cell is drawn in red for `critical` and `high`. */
  predicate IsHighlighted(priority: string) {
    priority == "critical" || priority == "high"
  }

  /** The priorities the dialog offers. */
  const PriorityOptions: seq<string> := ["low", "medium", "high", "critical"]

  const DefaultPriority: string := "medium"

  /** The body of `GET /issues/` as the page reads it: a page with `items`, or a bare list. */
  datatype IssuesBody = WithItems(items: seq<IssueData>) | BareList(list: seq<IssueData>)

  /** `iRes.data.items || iRes.data`: an `items` array is taken even when empty. */
  function ExtractIssues(body: IssuesBody): (r: seq<IssueData>)
    ensures body.WithItems? ==> r == body.items
    ensures body.BareList? ==> r == body.list
  {
    match body
    case WithItems(items) => items
    case BareList(list) => list
  }

  /** `parseInt(id)` as the JSON `project_id` of a new issue: `NaN` is sent as `null`. */
  function ProjectIdPayload(id: string): (v: JsonValue)
    ensures ParseInt(id).None? ==> v == JNull
    ensures ParseInt(id).Some? ==> v == JNumber(ParseInt(id).value)
  {
    match ParseInt(id)
    case None => JNull
    case Some(n) => JNumber(n)
  }

  /** The route of a project whose id was rendered by `toString` carries that id back. */
  lemma ProjectIdPayloadOfRoute(projectId: int)
    ensures ProjectIdPayload(IntToString(projectId)) == JNumber(projectId)
  {
    ParseIntOfIntToString(projectId);
  }

  /** The body of the creation request. */
  function NewIssueBody(title: string, desc: string, priority: string, id: string): Body {
    Json([("title", JString(title)), ("description", JString(desc)), ("priority", JString(priority)),
          ("project_id", ProjectIdPayload(id)), ("status", JString("open"))])
  }

  class ProjectDetailsView {
    const routeId: Option<string>
    const api: Api

    var project: Option<ProjectData>
    var issues: seq<IssueData>
    var loading: bool
    var open: bool
    var title: string
    var desc: string
    var priority: string
    var createLoading: bool

    constructor (routeId: Option<string>, api: Api)
      ensures this.routeId == routeId && this.api == api
      ensures project == None && issues == [] && loading
      ensures !open && title == "" && desc == "" && priority == DefaultPriority && !createLoading
    {
      this.routeId := routeId;
      this.api := api;
      project := None;
      issues := [];
      loading := true;
      open := false;
      title := "";
      desc := "";
      priority := "medium";
      createLoading := false;
    }

    /**
     * `fetchData`: the project, then its issues filtered by `project_id`; a failure of the
     * first request skips the second. Loading ends in every case, even without a route id.
     */
    method FetchData(projectReply: Reply<ProjectData>, issuesReply: Reply<IssuesBody>)
      modifies this, api, api.browser
      ensures !loading
      ensures !Truthy(routeId) ==>
        && project == old(project) && issues == old(issues) && api.sent == old(api.sent)
        && api.browser.token == old(api.browser.token) && api.browser.path == old(api.browser.path)
      ensures Truthy(routeId) && projectReply.Failure? ==>
        && project == old(project) && issues == old(issues)
        && api.sent == old(api.sent) + [Get("/projects/" + routeId.value, old(api.browser.token))]
        && api.browser.token == TokenAfter(old(api.browser.token), projectReply)
        && api.browser.path == PathAfter(old(api.browser.path), projectReply)
      ensures Truthy(routeId) && projectReply.Success? ==>
        && project == Some(projectReply.data)
        && issues == (if issuesReply.Success? then ExtractIssues(issuesReply.data) else old(issues))
        && api.sent == old(api.sent) + [Get("/projects/" + routeId.value, old(api.browser.token)),
             Request("GET", "/issues/", [("project_id", JString(routeId.value))],
               WithBearer(DefaultHeaders, old(api.browser.token)), NoBody)]
        && api.browser.token == TokenAfter(old(api.browser.token), issuesReply)
        && api.browser.path == PathAfter(old(api.browser.path), issuesReply)
      ensures open == old(open) && title == old(title) && desc == old(desc) && priority == old(priority)
      ensures createLoading == old(createLoading)
    {
      if !(routeId.Some? && routeId.value != "") {
        loading := false;
        return;
      }
      var id := routeId.value;
      var projectResult := api.Send("GET", "/projects/" + id, [], NoBody, projectReply);
      if projectResult.Failure? {
        loading := false;
        return;
      }
      project := Some(projectResult.data);
      var issuesResult := api.Send("GET", "/issues/", [("project_id", JString(id))], NoBody, issuesReply);
      if issuesResult.Success? {
        issues := ExtractIssues(issuesResult.data);
      }
      loading := false;
    }

    /**
     * `handleCreateIssue`: without a route id nothing happens. Otherwise the dialog's fields
     * are posted with status `open`; success closes and resets the dialog and asks for a
     * refresh, a failure keeps everything the user typed. The flag ends cleared.
     */
    method HandleCreateIssue(reply: Reply<IssueData>) returns (refresh: bool)
      modifies this, api, api.browser
      ensures !Truthy(routeId) ==>
        && !refresh && api.sent == old(api.sent) && createLoading == old(createLoading)
        && api.browser.token == old(api.browser.token) && api.browser.path == old(api.browser.path)
        && open == old(open) && title == old(title) && desc == old(desc) && priority == old(priority)
      ensures Truthy(routeId) ==>
        && !createLoading
        && api.sent == old(api.sent) + [Request("POST", "/issues/", [],
             WithBearer(DefaultHeaders, old(api.browser.token)),
             NewIssueBody(old(title), old(desc), old(priority), routeId.value))]
        && refresh == reply.Success?
        && api.browser.token == TokenAfter(old(api.browser.token), reply)
        && api.browser.path == PathAfter(old(api.browser.path), reply)
      ensures Truthy(routeId) && reply.Success? ==>
        !open && title == "" && desc == "" && priority == DefaultPriority
      ensures Truthy(routeId) && reply.Failure? ==>
        open == old(open) && title == old(title) && desc == old(desc) && priority == old(priority)
      ensures project == old(project) && issues == old(issues) && loading == old(loading)
    {
      refresh := false;
      if !(routeId.Some? && routeId.value != "") {
        return;
      }
      createLoading := true;
      var body := NewIssueBody(title, desc, priority, routeId.value);
      var result := api.Send("POST", "/issues/", [], body, reply);
      if result.Success? {
        open := false;
        title := "";
        desc := "";
        priority := "medium";
        refresh := true;
      }
      createLoading := false;
    }
  }
}
