/** The GraphQL documents the Linear agent sends (src/agent.py). */
module LinearQueries {
  /** The GraphQL documents the agent sends, one per query or mutation literal in the source. */
  datatype Operation =
    | IssuesQuery
    | RecentIssuesQuery
    | IssueQuery
    | TeamStatesQuery
    | IssueCreateMutation
    | TeamsQuery
    | TeamProjectsQuery
    | ProjectsQuery

  /** The document text of each operation, with the source's indentation collapsed to single spaces. */
  function Document(op: Operation): string {
    match op
    case IssuesQuery =>
      "query ListMyIssues { viewer { assignedIssues(first: 50, orderBy: updatedAt) "
      + "{ nodes { identifier title state { name } } } } }"
    case RecentIssuesQuery =>
      "query ListMyIssues($createdAfter: DateTimeOrDuration!) { viewer { assignedIssues(first: 50, "
      + "orderBy: updatedAt, filter: { createdAt: { gte: $createdAfter } }) "
      + "{ nodes { identifier title state { name } } } } }"
    case IssueQuery =>
      "query GetIssue($id: String!) { issue(id: $id) { identifier title description branchName "
      + "state { name } } }"
    case TeamStatesQuery =>
      "query TeamStates($teamId: String!) { team(id: $teamId) { states { nodes { id name type } } } }"
    case IssueCreateMutation =>
      "mutation IssueCreate($input: IssueCreateInput!) { issueCreate(input: $input) { success "
      + "issue { identifier title state { name } } } }"
    case TeamsQuery =>
      "query Teams { teams { nodes { id name key } } }"
    case TeamProjectsQuery =>
      "query Projects($teamId: String!) { team(id: $teamId) { projects { nodes { id name } } } }"
    case ProjectsQuery =>
      "query Projects { projects { nodes { id name } } }"
  }
}
