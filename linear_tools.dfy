/**
 * The five tools the Linear agent exposes (src/agent.py): which query each
 * one sends, how `create_issue` builds its mutation input, and how each
 * answer is rendered as a single text block.
 */
module LinearTools {
  import opened Wrappers
  import opened Text
  import opened Json
  import opened LinearQueries
  import opened LinearClient

  /** One entry of a tool result's `content` list: `{"type": kind, "text": text}`. */
  datatype Block = Block(kind: string, text: string)

  /** What a tool handler returns: `{"content": [...]}`. */
  datatype ToolResult = ToolResult(content: seq<Block>)

  function Reply(text: string): ToolResult {
    ToolResult([Block("text", text)])
  }

  /** A list comprehension over `items`: the first item whose line raises stops it. */
  function Lines(items: seq<Json>, line: Json -> Result<string, Error>): (r: Result<seq<string>, Error>)
    ensures r.Success? <==> forall i :: 0 <= i < |items| ==> line(items[i]).Success?
    ensures r.Success? ==> |r.value| == |items|
    ensures r.Success? ==> forall i :: 0 <= i < |items| ==> line(items[i]) == Success(r.value[i])
    ensures r.Failure? ==>
      exists k :: (0 <= k < |items| && line(items[k]) == Failure(r.error)
                   && forall i :: 0 <= i < k ==> line(items[i]).Success?)
  {
    if items == [] then Success([])
    else
      var first :- line(items[0]);
      var rest := Lines(items[1..], line);
      assert forall i :: 1 <= i < |items| ==> items[i] == items[1..][i - 1];
      if rest.Failure? then
        ghost var k :| 0 <= k < |items[1..]| && line(items[1..][k]) == Failure(rest.error)
          && forall i :: 0 <= i < k ==> line(items[1..][i]).Success?;
        assert line(items[k + 1]) == Failure(rest.error);
        rest.PropagateFailure()
      else
        var lines := [first] + rest.value;
        assert forall i :: 1 <= i < |items| ==> lines[i] == rest.value[i - 1];
        Success(lines)
  }

  /**
   * The common end of the list handlers: an empty (falsy) node list gives the
   * fixed text `none`, otherwise one line per node joined by newlines.
   */
  function Listing(nodes: Json, line: Json -> Result<string, Error>, none: string): (r: Result<string, Error>)
    ensures !Truthy(nodes) ==> r == Success(none)
    ensures nodes.JArray? && nodes.items != [] ==>
      && (r.Success? <==> Lines(nodes.items, line).Success?)
      && (r.Success? ==> r.value == Join(Lines(nodes.items, line).value, "\n"))
  {
    if !Truthy(nodes) then Success(none)
    else
      var items :- Iterate(nodes);
      var lines :- Lines(items, line);
      Success(Join(lines, "\n"))
  }

  /** `f"[{i['identifier']}] {i['title']} ({i['state']['name']})"`. */
  function IssueLine(issue: Json): Result<string, Error> {
    var identifier :- Subscript(issue, "identifier");
    var title :- Subscript(issue, "title");
    var state :- Subscript(issue, "state");
    var name :- Subscript(state, "name");
    Success("[" + Display(identifier) + "] " + Display(title) + " (" + Display(name) + ")")
  }

  /** `f"{t['name']} ({t['key']}): {t['id']}"`. */
  function TeamLine(team: Json): Result<string, Error> {
    var name :- Subscript(team, "name");
    var key :- Subscript(team, "key");
    var id :- Subscript(team, "id");
    Success(Display(name) + " (" + Display(key) + "): " + Display(id))
  }

  /** `f"{p['name']}: {p['id']}"`. */
  function ProjectLine(project: Json): Result<string, Error> {
    var name :- Subscript(project, "name");
    var id :- Subscript(project, "id");
    Success(Display(name) + ": " + Display(id))
  }

  /** The text `list_issues` shows for the `data` of its query. */
  function IssuesText(data: Json): Result<string, Error> {
    var nodes :- Path(data, ["viewer", "assignedIssues", "nodes"]);
    Listing(nodes, IssueLine, "No issues found")
  }

  /** The text `get_issue` shows for the `data` of its query. */
  function IssueText(issueId: Json, data: Json): Result<string, Error> {
    var issue :- Get(data, "issue");
    if !Truthy(issue) then Success("Issue '" + Display(issueId) + "' not found")
    else
      var identifier :- Subscript(issue, "identifier");
      var title :- Subscript(issue, "title");
      var state :- Subscript(issue, "state");
      var name :- Subscript(state, "name");
      // `issue` is a dict here, so `issue.get` cannot raise
      var branch := GetOr(issue.fields, "branchName", JNull);
      var description := GetOr(issue.fields, "description", JNull);
      Success(Join([
        "Issue: " + Display(identifier) + " - " + Display(title),
        "State: " + Display(name),
        "Branch: " + Display(Or(branch, JString("N/A"))),
        "Description: " + Display(Or(description, JString("No description")))], "\n"))
  }

  /** The text `create_issue` shows for the `data` of its mutation. */
  function CreatedText(data: Json): Result<string, Error> {
    var outcome :- Subscript(data, "issueCreate");
    var success :- Subscript(outcome, "success");
    if !Truthy(success) then Success("Failed to create issue")
    else
      var issue :- Subscript(outcome, "issue");
      var line :- IssueLine(issue);
      Success("Created: " + line)
  }

  /** The text `list_teams` shows for the `data` of its query. */
  function TeamsText(data: Json): Result<string, Error> {
    var nodes :- Path(data, ["teams", "nodes"]);
    Listing(nodes, TeamLine, "No teams found")
  }

  /** The text `list_projects` shows for the `data` of the team-scoped query. */
  function TeamProjectsText(teamId: Json, data: Json): Result<string, Error> {
    var team :- Get(data, "team");
    if !Truthy(team) then Success("Team '" + Display(teamId) + "' not found")
    else
      var nodes :- Path(team, ["projects", "nodes"]);
      Listing(nodes, ProjectLine, "No projects found")
  }

  /** The text `list_projects` shows for the `data` of the unscoped query. */
  function ProjectsText(data: Json): Result<string, Error> {
    var nodes :- Path(data, ["projects", "nodes"]);
    Listing(nodes, ProjectLine, "No projects found")
  }

  /** A listing holds one line per node, in order: splitting it at newlines gives the lines back. */
  lemma OneLinePerNode(items: seq<Json>, line: Json -> Result<string, Error>, none: string)
    requires items != [] && Lines(items, line).Success?
    requires forall i :: 0 <= i < |items| ==> '\n' !in Lines(items, line).value[i]
    ensures Listing(JArray(items), line, none).Success?
    ensures Split(Listing(JArray(items), line, none).value, '\n') == Lines(items, line).value
  {
    SplitJoin(Lines(items, line).value, '\n');
  }

  /** A well-formed issue node is shown as `[identifier] title (state)`. */
  lemma IssueLineFormat(issue: Json, identifier: string, title: string, state: Json, name: string)
    requires issue.JObject? && state.JObject?
    requires Lookup(issue.fields, "identifier") == Some(JString(identifier))
    requires Lookup(issue.fields, "title") == Some(JString(title))
    requires Lookup(issue.fields, "state") == Some(state)
    requires Lookup(state.fields, "name") == Some(JString(name))
    ensures IssueLine(issue) == Success("[" + identifier + "] " + title + " (" + name + ")")
  {
  }

  /** A well-formed team node is shown as `name (key): id`. */
  lemma TeamLineFormat(team: Json, name: string, key: string, id: string)
    requires team.JObject?
    requires Lookup(team.fields, "name") == Some(JString(name))
    requires Lookup(team.fields, "key") == Some(JString(key))
    requires Lookup(team.fields, "id") == Some(JString(id))
    ensures TeamLine(team) == Success(name + " (" + key + "): " + id)
  {
  }

  /** A well-formed project node is shown as `name: id`. */
  lemma ProjectLineFormat(project: Json, name: string, id: string)
    requires project.JObject?
    requires Lookup(project.fields, "name") == Some(JString(name))
    requires Lookup(project.fields, "id") == Some(JString(id))
    ensures ProjectLine(project) == Success(name + ": " + id)
  {
  }

  /** An empty node list gives the fixed texts. */
  lemma EmptyListsShowFixedText(data: Json)
    ensures Path(data, ["viewer", "assignedIssues", "nodes"]) == Success(JArray([]))
      ==> IssuesText(data) == Success("No issues found")
    ensures Path(data, ["teams", "nodes"]) == Success(JArray([])) ==> TeamsText(data) == Success("No teams found")
    ensures Path(data, ["projects", "nodes"]) == Success(JArray([]))
      ==> ProjectsText(data) == Success("No projects found")
  {
  }

  /** `get_issue` on an answer whose `issue` is null or absent. */
  lemma IssueNotFound(issueId: Json, data: Json)
    requires data.JObject? && !Truthy(GetOr(data.fields, "issue", JNull))
    ensures IssueText(issueId, data) == Success("Issue '" + Display(issueId) + "' not found")
  {
  }

  /**
   * `get_issue` on a well-formed issue: four lines, with "N/A" standing for an
   * absent, null or empty branch and "No description" for such a description.
   */
  lemma IssueDetails(issueId: Json, data: Json, issue: Json, identifier: string, title: string, state: Json,
                     name: string, branch: string, description: string)
    requires data.JObject? && Lookup(data.fields, "issue") == Some(issue)
    requires issue.JObject? && issue.fields != [] && state.JObject?
    requires Lookup(issue.fields, "identifier") == Some(JString(identifier))
    requires Lookup(issue.fields, "title") == Some(JString(title))
    requires Lookup(issue.fields, "state") == Some(state)
    requires Lookup(state.fields, "name") == Some(JString(name))
    requires var b := GetOr(issue.fields, "branchName", JNull);
      (b == JString(branch) && branch != "") || (!Truthy(b) && branch == "N/A")
    requires var d := GetOr(issue.fields, "description", JNull);
      (d == JString(description) && description != "") || (!Truthy(d) && description == "No description")
    ensures IssueText(issueId, data) == Success(Join([
      "Issue: " + identifier + " - " + title,
      "State: " + name,
      "Branch: " + branch,
      "Description: " + description], "\n"))
  {
    assert "issue" in Keys(data.fields);
    assert GetOr(data.fields, "issue", JNull) == issue;
    Fallback(GetOr(issue.fields, "branchName", JNull), "N/A", branch);
    Fallback(GetOr(issue.fields, "description", JNull), "No description", description);
  }

  /** `str(v or default)` for a value that is either a non-empty string or falsy. */
  lemma Fallback(v: Json, default: string, shown: string)
    requires (v == JString(shown) && shown != "") || (!Truthy(v) && shown == default)
    ensures Display(Or(v, JString(default))) == shown
  {
  }

  /** The text of `get_issue` splits back into its four lines when no field holds a newline. */
  lemma IssueDetailsLines(issueId: Json, data: Json, issue: Json, identifier: string, title: string, state: Json,
                          name: string, branch: string, description: string)
    requires data.JObject? && Lookup(data.fields, "issue") == Some(issue)
    requires issue.JObject? && issue.fields != [] && state.JObject?
    requires Lookup(issue.fields, "identifier") == Some(JString(identifier))
    requires Lookup(issue.fields, "title") == Some(JString(title))
    requires Lookup(issue.fields, "state") == Some(state)
    requires Lookup(state.fields, "name") == Some(JString(name))
    requires var b := GetOr(issue.fields, "branchName", JNull);
      (b == JString(branch) && branch != "") || (!Truthy(b) && branch == "N/A")
    requires var d := GetOr(issue.fields, "description", JNull);
      (d == JString(description) && description != "") || (!Truthy(d) && description == "No description")
    requires '\n' !in identifier && '\n' !in title && '\n' !in name
    requires '\n' !in branch && '\n' !in description
    ensures IssueText(issueId, data).Success?
    ensures Split(IssueText(issueId, data).value, '\n') == [
      "Issue: " + identifier + " - " + title,
      "State: " + name,
      "Branch: " + branch,
      "Description: " + description]
  {
    IssueDetails(issueId, data, issue, identifier, title, state, name, branch, description);
    var lines := [
      "Issue: " + identifier + " - " + title,
      "State: " + name,
      "Branch: " + branch,
      "Description: " + description];
    NewlineFree(lines, identifier, title, name, branch, description);
    SplitJoin(lines, '\n');
  }

  lemma NewlineFree(lines: seq<string>, identifier: string, title: string, name: string, branch: string,
                    description: string)
    requires '\n' !in identifier && '\n' !in title && '\n' !in name
    requires '\n' !in branch && '\n' !in description
    requires lines == [
      "Issue: " + identifier + " - " + title,
      "State: " + name,
      "Branch: " + branch,
      "Description: " + description]
    ensures forall i :: 0 <= i < |lines| ==> '\n' !in lines[i]
  {
    assert '\n' !in "Issue: " && '\n' !in " - " && '\n' !in "State: ";
    assert '\n' !in "Branch: " && '\n' !in "Description: ";
  }

  /** `create_issue` when the mutation reports no success. */
  lemma CreationFailed(data: Json, outcome: Json)
    requires Subscript(data, "issueCreate") == Success(outcome)
    requires outcome.JObject? && "success" in Keys(outcome.fields)
    requires !Truthy(Lookup(outcome.fields, "success").value)
    ensures CreatedText(data) == Success("Failed to create issue")
  {
  }

  /** `create_issue` when it succeeds: the new issue's line after "Created: ". */
  lemma CreationReported(data: Json, outcome: Json, issue: Json)
    requires Subscript(data, "issueCreate") == Success(outcome)
    requires outcome.JObject? && "success" in Keys(outcome.fields)
    requires Truthy(Lookup(outcome.fields, "success").value)
    requires Lookup(outcome.fields, "issue") == Some(issue)
    requires IssueLine(issue).Success?
    ensures CreatedText(data) == Success("Created: " + IssueLine(issue).value)
  {
  }

  /** `list_projects` for a team the answer does not contain. */
  lemma TeamProjectsNotFound(teamId: Json, data: Json)
    requires data.JObject? && !Truthy(GetOr(data.fields, "team", JNull))
    ensures TeamProjectsText(teamId, data) == Success("Team '" + Display(teamId) + "' not found")
  {
  }

  /** How many minutes `timedelta(minutes=recent)` sees: ints and bools; anything else raises. */
  function Minutes(recent: Json): Option<int> {
    match recent
    case JInt(n) => Some(n)
    case JBool(b) => Some(if b then 1 else 0)
    case _ => None
  }

  /**
   * The query `list_issues` sends. `createdAfter(m)` stands for the ISO time
   * `m` minutes before now, which the source reads from the clock.
   */
  function IssuesSelection(args: Fields, createdAfter: int -> string): (r: Result<(Operation, Option<Fields>), Error>)
    ensures var recent := GetOr(args, "recent_minutes", JNull);
      && (r.Success? && r.value.0 == IssuesQuery <==> !Truthy(recent))
      && (r.Failure? <==> Truthy(recent) && Minutes(recent).None?)
      && (r.Failure? ==> r.error == TypeError)
      && (!Truthy(recent) ==> r.value.1 == None)
      && (r.Success? && Truthy(recent) ==>
            r.value == (RecentIssuesQuery, Some([("createdAfter", JString(createdAfter(Minutes(recent).value)))])))
  {
    var recent := GetOr(args, "recent_minutes", JNull);
    if !Truthy(recent) then Success((IssuesQuery, None))
    else
      match Minutes(recent)
      case Some(m) => Success((RecentIssuesQuery, Some([("createdAfter", JString(createdAfter(m)))])))
      case None => Failure(TypeError)
  }

  /** The query `list_projects` sends: team-scoped exactly when `team_id` is truthy. */
  function ProjectsSelection(teamId: Json): (r: (Operation, Option<Fields>))
    ensures r.0 == TeamProjectsQuery <==> Truthy(teamId)
    ensures r.0 == ProjectsQuery <==> !Truthy(teamId)
    ensures Truthy(teamId) ==> r.1 == Some([("teamId", teamId)])
    ensures !Truthy(teamId) ==> r.1 == None
  {
    if Truthy(teamId) then (TeamProjectsQuery, Some([("teamId", teamId)])) else (ProjectsQuery, None)
  }

  /** The text `list_projects` shows, for the query its `team_id` selected. */
  function ProjectsView(teamId: Json): Json -> Result<string, Error> {
    data => if Truthy(teamId) then TeamProjectsText(teamId, data) else ProjectsText(data)
  }

  /** The text `get_issue` shows for the issue `issueId`. */
  function IssueView(issueId: Json): Json -> Result<string, Error> {
    data => IssueText(issueId, data)
  }

  /** The arguments `create_issue` reads, with the defaults of `args.get`. */
  datatype IssueArgs = IssueArgs(teamId: Json, title: Json, description: Json, projectId: Json)

  /** Lines 157-160 of `create_issue`: `team_id` and `title` are required, in that order. */
  function CreateArgs(args: Fields): (r: Result<IssueArgs, Error>)
    ensures r.Success? <==> "team_id" in Keys(args) && "title" in Keys(args)
    ensures "team_id" !in Keys(args) ==> r == Failure(KeyError("team_id"))
    ensures "team_id" in Keys(args) && "title" !in Keys(args) ==> r == Failure(KeyError("title"))
    ensures r.Success? ==> && Lookup(args, "team_id") == Some(r.value.teamId)
                           && Lookup(args, "title") == Some(r.value.title)
    ensures r.Success? && "description" !in Keys(args) ==> r.value.description == JString("")
    ensures r.Success? && "description" in Keys(args) ==> Lookup(args, "description") == Some(r.value.description)
    ensures r.Success? && "project_id" !in Keys(args) ==> r.value.projectId == JNull
    ensures r.Success? && "project_id" in Keys(args) ==> Lookup(args, "project_id") == Some(r.value.projectId)
  {
    var teamId :- Subscript(JObject(args), "team_id");
    var title :- Subscript(JObject(args), "title");
    Success(IssueArgs(teamId, title, GetOr(args, "description", JString("")), GetOr(args, "project_id", JNull)))
  }

  /** The mutation's `input`: always title, team and state; description and project only when truthy. */
  predicate IssueInputOf(input: Fields, a: IssueArgs, stateId: Json) {
    && Keys(input) == ["title", "teamId", "stateId"]
                      + (if Truthy(a.description) then ["description"] else [])
                      + (if Truthy(a.projectId) then ["projectId"] else [])
    && Lookup(input, "title") == Some(a.title)
    && Lookup(input, "teamId") == Some(a.teamId)
    && Lookup(input, "stateId") == Some(stateId)
    && (Truthy(a.description) ==> Lookup(input, "description") == Some(a.description))
    && (Truthy(a.projectId) ==> Lookup(input, "projectId") == Some(a.projectId))
  }

  /** The three keys `input_data` starts with. */
  predicate RequiredOnly(input: Fields, a: IssueArgs, stateId: Json) {
    && Keys(input) == ["title", "teamId", "stateId"]
    && Lookup(input, "title") == Some(a.title)
    && Lookup(input, "teamId") == Some(a.teamId)
    && Lookup(input, "stateId") == Some(stateId)
  }

  /** `input_data` once the description has been considered. */
  predicate WithDescription(input: Fields, a: IssueArgs, stateId: Json) {
    && Keys(input) == ["title", "teamId", "stateId"] + (if Truthy(a.description) then ["description"] else [])
    && Lookup(input, "title") == Some(a.title)
    && Lookup(input, "teamId") == Some(a.teamId)
    && Lookup(input, "stateId") == Some(stateId)
    && (Truthy(a.description) ==> Lookup(input, "description") == Some(a.description))
  }

  /** `input_data`, built by conditional insertion. */
  method BuildIssueInput(a: IssueArgs, stateId: Json) returns (input: Fields)
    ensures IssueInputOf(input, a, stateId)
  {
    input := [("title", a.title), ("teamId", a.teamId), ("stateId", stateId)];
    RequiredKeys(a, stateId);
    DescriptionStep(input, a, stateId);
    if Truthy(a.description) {
      input := Insert(input, "description", a.description);
    }
    ProjectStep(input, a, stateId);
    if Truthy(a.projectId) {
      input := Insert(input, "projectId", a.projectId);
    }
  }

  /** The dict literal `input_data` starts as. */
  lemma RequiredKeys(a: IssueArgs, stateId: Json)
    ensures RequiredOnly([("title", a.title), ("teamId", a.teamId), ("stateId", stateId)], a, stateId)
  {
    var input := [("title", a.title), ("teamId", a.teamId), ("stateId", stateId)];
    assert input[1..] == [("teamId", a.teamId), ("stateId", stateId)];
    assert input[1..][1..] == [("stateId", stateId)];
  }

  /** `if description:` keeps the dict well described. */
  lemma DescriptionStep(input: Fields, a: IssueArgs, stateId: Json)
    requires RequiredOnly(input, a, stateId)
    ensures Truthy(a.description) ==> WithDescription(Insert(input, "description", a.description), a, stateId)
    ensures !Truthy(a.description) ==> WithDescription(input, a, stateId)
  {
    if Truthy(a.description) {
      var added := Insert(input, "description", a.description);
      assert "description" !in Keys(input);
      assert Keys(added) == ["title", "teamId", "stateId"] + ["description"];
      InsertLookup(input, "description", a.description, "title");
      InsertLookup(input, "description", a.description, "teamId");
      InsertLookup(input, "description", a.description, "stateId");
      InsertLookup(input, "description", a.description, "description");
    } else {
      assert Keys(input) == ["title", "teamId", "stateId"] + [];
    }
  }

  /** `if project_id:` completes the dict. */
  lemma ProjectStep(input: Fields, a: IssueArgs, stateId: Json)
    requires WithDescription(input, a, stateId)
    ensures Truthy(a.projectId) ==> IssueInputOf(Insert(input, "projectId", a.projectId), a, stateId)
    ensures !Truthy(a.projectId) ==> IssueInputOf(input, a, stateId)
  {
    var described := if Truthy(a.description) then ["description"] else [];
    if Truthy(a.projectId) {
      ProjectAdded(input, a, stateId, described);
    } else {
      assert Keys(input) == ["title", "teamId", "stateId"] + described + [];
    }
  }

  /** Adding `projectId` to a dict that has the other keys. */
  lemma ProjectAdded(input: Fields, a: IssueArgs, stateId: Json, described: seq<string>)
    requires WithDescription(input, a, stateId)
    requires described == if Truthy(a.description) then ["description"] else []
    requires Truthy(a.projectId)
    ensures IssueInputOf(Insert(input, "projectId", a.projectId), a, stateId)
  {
    AppendedKey(input, ["title", "teamId", "stateId"] + described, "projectId", a.projectId);
    InsertLookup(input, "projectId", a.projectId, "title");
    InsertLookup(input, "projectId", a.projectId, "teamId");
    InsertLookup(input, "projectId", a.projectId, "stateId");
    InsertLookup(input, "projectId", a.projectId, "description");
    InsertLookup(input, "projectId", a.projectId, "projectId");
  }

  /** A key the dict's key list lacks goes last. */
  lemma AppendedKey(fields: Fields, keys: seq<string>, key: string, v: Json)
    requires Keys(fields) == keys && key !in keys
    ensures Keys(Insert(fields, key, v)) == keys + [key]
  {
  }

  /** The `input` a mutation request carries, read back from its payload. */
  function MutationInput(request: Request): Fields {
    match Lookup(request.payload, "variables")
    case Some(JObject(variables)) =>
      (match Lookup(variables, "input")
       case Some(JObject(input)) => input
       case _ => [])
    case _ => []
  }

  /**
   * A tool's answer to what `execute_query` returned: the rendered `data` as a
   * single text block, or the first exception raised.
   */
  function Answer(received: Result<Json, Error>, render: Json -> Result<string, Error>): (r: Result<ToolResult, Error>)
    ensures r.Success? ==> |r.value.content| == 1 && r.value.content[0].kind == "text"
    ensures r.Success? <==> received.Success? && render(received.value).Success?
    ensures r.Success? ==> r.value.content[0].text == render(received.value).value
    ensures received.Failure? ==> r == Failure(received.error)
    ensures received.Success? && render(received.value).Failure? ==> r == Failure(render(received.value).error)
  {
    var data :- received;
    var text :- render(data);
    Success(Reply(text))
  }

  /**
   * One query issued by a handler: with no API key nothing is sent; otherwise
   * `after` adds exactly that request and `r` is the rendered answer.
   */
  predicate Answered(before: seq<Request>, after: seq<Request>, apiKey: Option<string>, server: Server,
                     op: Operation, variables: Option<Fields>,
                     render: Json -> Result<string, Error>, r: Result<ToolResult, Error>)
  {
    if GetApiKey(apiKey).Failure? then after == before && r == Failure(ValueError(KEY_NOT_SET))
    else Issued(before, after, apiKey.value, op, variables) && r == Answer(Receive(server(before, after[|before|])), render)
  }

  /** Rendering what `execute_query` returned answers the query it issued. */
  lemma Answering(before: seq<Request>, after: seq<Request>, apiKey: Option<string>, server: Server,
                  op: Operation, variables: Option<Fields>,
                  render: Json -> Result<string, Error>, received: Result<Json, Error>)
    requires GetApiKey(apiKey).Failure? ==> after == before && received == Failure(ValueError(KEY_NOT_SET))
    requires GetApiKey(apiKey).Success? ==>
      Issued(before, after, apiKey.value, op, variables) && received == Receive(server(before, after[|before|]))
    ensures Answered(before, after, apiKey, server, op, variables, render, Answer(received, render))
  {
  }

  /** `list_issues`. */
  method ListIssues(c: Client, args: Fields, createdAfter: int -> string) returns (r: Result<ToolResult, Error>)
    modifies c
    ensures IssuesSelection(args, createdAfter).Failure? ==> c.trace == old(c.trace) && r == Failure(TypeError)
    ensures IssuesSelection(args, createdAfter).Success? ==>
      var selection := IssuesSelection(args, createdAfter).value;
      Answered(old(c.trace), c.trace, c.apiKey, c.server, selection.0, selection.1, IssuesText, r)
  {
    var selection :- IssuesSelection(args, createdAfter);
    var received := c.Execute(selection.0, selection.1);
    r := Answer(received, IssuesText);
    Answering(old(c.trace), c.trace, c.apiKey, c.server, selection.0, selection.1, IssuesText, received);
  }

  /** `get_issue`. */
  method GetIssue(c: Client, args: Fields) returns (r: Result<ToolResult, Error>)
    modifies c
    ensures "issue_id" !in Keys(args) ==> c.trace == old(c.trace) && r == Failure(KeyError("issue_id"))
    ensures "issue_id" in Keys(args) ==>
      var issueId := Lookup(args, "issue_id").value;
      Answered(old(c.trace), c.trace, c.apiKey, c.server, IssueQuery, Some([("id", issueId)]),
               IssueView(issueId), r)
  {
    var issueId :- Subscript(JObject(args), "issue_id");
    var received := c.Execute(IssueQuery, Some([("id", issueId)]));
    r := Answer(received, IssueView(issueId));
    Answering(old(c.trace), c.trace, c.apiKey, c.server, IssueQuery, Some([("id", issueId)]), IssueView(issueId), received);
  }

  /** `list_teams`. */
  method ListTeams(c: Client) returns (r: Result<ToolResult, Error>)
    modifies c
    ensures Answered(old(c.trace), c.trace, c.apiKey, c.server, TeamsQuery, None, TeamsText, r)
  {
    var received := c.Execute(TeamsQuery, None);
    r := Answer(received, TeamsText);
    Answering(old(c.trace), c.trace, c.apiKey, c.server, TeamsQuery, None, TeamsText, received);
  }

  /** `list_projects`. */
  method ListProjects(c: Client, args: Fields) returns (r: Result<ToolResult, Error>)
    modifies c
    ensures var teamId := GetOr(args, "team_id", JNull);
      var selection := ProjectsSelection(teamId);
      Answered(old(c.trace), c.trace, c.apiKey, c.server, selection.0, selection.1,
               ProjectsView(teamId), r)
  {
    var teamId := GetOr(args, "team_id", JNull);
    var selection := ProjectsSelection(teamId);
    var received := c.Execute(selection.0, selection.1);
    r := Answer(received, ProjectsView(teamId));
    Answering(old(c.trace), c.trace, c.apiKey, c.server, selection.0, selection.1, ProjectsView(teamId), received);
  }

  /** The `input` of a mutation payload is the one the payload was built from. */
  lemma InputCarried(request: Request, input: Fields)
    requires VariablesOf(request.payload, Some([("input", JObject(input))]))
    ensures MutationInput(request) == input
  {
    assert [("input", JObject(input))][0] == ("input", JObject(input));
    assert Lookup([("input", JObject(input))], "input") == Some(JObject(input));
  }

  /** Lines 176-182 of `create_issue`: build `input_data` and send the mutation. */
  method SubmitIssue(c: Client, a: IssueArgs, stateId: Json) returns (r: Result<ToolResult, Error>)
    modifies c
    ensures GetApiKey(c.apiKey).Failure? ==> c.trace == old(c.trace) && r == Failure(ValueError(KEY_NOT_SET))
    ensures GetApiKey(c.apiKey).Success? ==>
      var n := |old(c.trace)|;
      && n < |c.trace|
      && var input := MutationInput(c.trace[n]);
         && IssueInputOf(input, a, stateId)
         && Issued(old(c.trace), c.trace, c.apiKey.value, IssueCreateMutation, Some([("input", JObject(input))]))
         && r == Answer(Receive(c.server(old(c.trace), c.trace[n])), CreatedText)
  {
    var input := BuildIssueInput(a, stateId);
    ghost var before := c.trace;
    var response := c.Execute(IssueCreateMutation, Some([("input", JObject(input))]));
    if GetApiKey(c.apiKey).Success? {
      InputCarried(c.trace[|before|], input);
    }
    r := Answer(response, CreatedText);
  }

  /**
   * The requests `create_issue` adds to `before` once its arguments are read and
   * the key is set: the TeamStates lookup, then, only when that yields a backlog
   * state, the mutation whose input carries that state.
   */
  predicate LookupThenCreate(before: seq<Request>, after: seq<Request>, key: string, server: Server,
                             a: IssueArgs, r: Result<ToolResult, Error>)
  {
    var n := |before|;
    && n < |after|
    && Issued(before, after[..n + 1], key, TeamStatesQuery, Some([("teamId", a.teamId)]))
    && var backlog := Backlog(a.teamId, server(before, after[n]));
       && (backlog.Failure? ==> |after| == n + 1 && r == Failure(backlog.error))
       && (backlog.Success? ==>
             && |after| == n + 2
             && var input := MutationInput(after[n + 1]);
             && IssueInputOf(input, a, backlog.value)
             && Issued(after[..n + 1], after, key, IssueCreateMutation, Some([("input", JObject(input))]))
             && r == Answer(Receive(server(after[..n + 1], after[n + 1])), CreatedText))
  }

  /** A failed lookup ends `create_issue` with the lookup as the only request. */
  lemma LookupFailed(before: seq<Request>, after: seq<Request>, key: string, server: Server,
                     a: IssueArgs, r: Result<ToolResult, Error>)
    requires Issued(before, after, key, TeamStatesQuery, Some([("teamId", a.teamId)]))
    requires Backlog(a.teamId, server(before, after[|before|])).Failure?
    requires r == Failure(Backlog(a.teamId, server(before, after[|before|])).error)
    ensures LookupThenCreate(before, after, key, server, a, r)
  {
    IssuedWhole(before, after, key, TeamStatesQuery, Some([("teamId", a.teamId)]));
  }

  /** A successful lookup followed by the mutation it prepared. */
  lemma LookupSucceeded(before: seq<Request>, looked: seq<Request>, after: seq<Request>, key: string,
                        server: Server, a: IssueArgs, r: Result<ToolResult, Error>)
    requires Issued(before, looked, key, TeamStatesQuery, Some([("teamId", a.teamId)]))
    requires Backlog(a.teamId, server(before, looked[|before|])).Success?
    requires |looked| < |after|
    requires var input := MutationInput(after[|looked|]);
      && IssueInputOf(input, a, Backlog(a.teamId, server(before, looked[|before|])).value)
      && Issued(looked, after, key, IssueCreateMutation, Some([("input", JObject(input))]))
      && r == Answer(Receive(server(looked, after[|looked|])), CreatedText)
    ensures LookupThenCreate(before, after, key, server, a, r)
  {
    IssuedPrefix(before, looked, after, key, TeamStatesQuery, Some([("teamId", a.teamId)]));
    assert after[..|looked|] == looked;
  }

  /** `create_issue`. */
  method CreateIssue(c: Client, args: Fields) returns (r: Result<ToolResult, Error>)
    modifies c
    ensures CreateArgs(args).Failure? ==> c.trace == old(c.trace) && r == Failure(CreateArgs(args).error)
    ensures CreateArgs(args).Success? && GetApiKey(c.apiKey).Failure? ==>
      c.trace == old(c.trace) && r == Failure(ValueError(KEY_NOT_SET))
    ensures CreateArgs(args).Success? && GetApiKey(c.apiKey).Success? ==>
      LookupThenCreate(old(c.trace), c.trace, c.apiKey.value, c.server, CreateArgs(args).value, r)
  {
    var a :- CreateArgs(args);
    ghost var before := c.trace;
    var backlog := GetBacklogStateId(c, a.teamId);
    if backlog.Failure? {
      r := backlog.PropagateFailure();
      if GetApiKey(c.apiKey).Success? {
        LookupFailed(before, c.trace, c.apiKey.value, c.server, a, r);
      }
      return;
    }
    ghost var looked := c.trace;
    r := SubmitIssue(c, a, backlog.value);
    LookupSucceeded(before, looked, c.trace, c.apiKey.value, c.server, a, r);
  }
}
