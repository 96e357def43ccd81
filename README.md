# ghost: the Linear agent's GraphQL client and tools, and the remote-URL parsers

This project models, in Dafny, the parts of the `ghost` repository that hold
local logic.

- **The Linear agent** (`src/agent.py`):
  - the API key check;
  - the request payload `execute_query` builds, and how it turns a decoded
    GraphQL response into its `data` or into the error it raises;
  - the backlog state search of `get_backlog_state_id`;
  - the five tools `list_issues`, `get_issue`, `create_issue`, `list_teams`
    and `list_projects`: which query each one sends, the input dict
    `create_issue` builds for its mutation, and the single text block each
    one answers with.
- **The launcher's repository name** (`ghost.py`, `get_repo_name`).
- **The `org/repo` full name** (`repo_name.py`, `get_repo_full_name`).

## Modules

- `Wrappers` (wrappers.dfy): `Option` and `Result`.
- `Text` (text.dfy): the Python `str` operations the core uses, on `seq<char>`:
  - `sep.join`;
  - `split` on one character;
  - `removesuffix`;
  - `replace` of one character by another;
  - the slice `[-n:]`.

  It also proves the facts about them that the parsers rely on.
- `Json` (json.dfy): a decoded JSON value as Python sees it after
  `json.loads`. A dict keeps its keys in insertion order. The module also
  holds the Python operations the agent applies to such values:
  - `d.get`, `d[k]` and `d[k] = v`;
  - iteration and truthiness;
  - `x or y`, `str`/`repr` and `sep.join`.

  Every exception those operations raise (`KeyError`, `TypeError`,
  `AttributeError`, ...) is an `Error` value.
- `LinearQueries` (linear_queries.dfy): one `Operation` per GraphQL document
  in the source, and the document text of each.
- `LinearClient` (linear_client.dfy): `get_api_key`, `execute_query` and
  `get_backlog_state_id`.
  - The network is an oracle, `server`, which answers a request given every
    request issued before it.
  - A `Client` object holds the environment's key, the server and `trace`,
    the requests in the order they were issued.
  - `execute_query` is the method `Client.Execute`. It appends the one
    request it sends to the trace.
- `LinearTools` (linear_tools.dfy): the five tool handlers, as module-level
  methods that take a `Client`. Their contracts state:
  - which request each one adds to the trace;
  - which text block it answers with;
  - for `create_issue`, that the team-states lookup comes before the
    mutation and that no mutation is sent when the lookup fails.
- `GhostCli` (ghost_cli.dfy): `get_repo_name`.
- `RepoName` (repo_name.dfy): the URL part of
  `get_repo_full_name`.
  - The input is the stripped output of `git config --get remote.origin.url`.
  - `None` stands for a failed command.

An exception that the Python code raises is a `Failure` with the matching
`Error`, and a returned value is a `Success`.

## Model

| member | source | states |
|---|---|---|
| Text.Split | ghost.py:23 | `str.split(c)` gives one more piece than `s` has `c`s, and no piece holds `c` |
| Text.JoinSplit | ghost.py:23 | joining the pieces of `s.split(c)` with `c` gives `s` back |
| Text.SplitJoin | src/agent.py:114-115 | splitting a join of separator-free pieces gives the same pieces back |
| Text.RemoveSuffix | repo_name.py:23 | `removesuffix` gives a prefix of `s`, strips the suffix exactly when `s` ends with it, and otherwise leaves `s` unchanged |
| Text.ReplaceChar | ghost.py:23 | `replace(a, b)` keeps the length and puts `b` exactly where `s` held `a` |
| Text.LastN | repo_name.py:21 | for a positive `n`, the slice `[-n:]` is the last `min(n, len)` pieces |
| Text.LastPiece | ghost.py:23 | the last piece of `split(c)` is what follows the last `c`, or all of `s` |
| Text.LastTwoPieces | repo_name.py:21 | `c.join(s.split(c)[-2:])` is the longest suffix of `s` holding at most one `c` |
| Text.AfterLastUnique | ghost.py:23 | the text after the last separator is unique |
| Text.AfterSecondLastUnique | repo_name.py:21 | the text after the second-to-last separator is unique |
| Json.Lookup | src/agent.py:37 | a dict has a value for `key` exactly when `key` is among its keys, and that pair is in the dict |
| Json.Insert | src/agent.py:29 | `d[key] = v` keeps the key order and appends a new key last |
| Json.InsertLookup | src/agent.py:176-180 | after `d[key] = v`, `d[key]` is `v` and every other key keeps its value |
| Json.InsertNew | src/agent.py:178-180 | inserting a fresh key appends it and changes no other lookup |
| Json.GetOr | src/agent.py:159-160 | `d.get(k, default)` is `d[k]` when `k` is a key, else the default |
| Json.Get | src/agent.py:59 | `x.get(k)` raises AttributeError exactly when `x` is not a dict, and otherwise gives `d.get(k)` |
| Json.Subscript | src/agent.py:62 | `x[k]` succeeds exactly on a dict holding `k`, giving its value; it raises KeyError on another dict and TypeError otherwise |
| Json.Iterate | src/agent.py:63 | `for x in j` fails with TypeError exactly on None, bools and ints; a list gives its items; the iteration is empty exactly when `j` is falsy |
| Json.Or | src/agent.py:145-146 | `a or b` is `a` when `a` is truthy, else `b` |
| Json.JoinStrings | src/agent.py:39 | `sep.join(xs)` succeeds exactly when every item is a string, else TypeError |
| LinearClient.GetApiKey | src/agent.py:18-22 | succeeds exactly when LINEAR_API_KEY is set and non-empty, returning it unchanged; otherwise raises ValueError with the fixed message |
| LinearClient.BuildPayload | src/agent.py:27-29 | the payload has `query`, then `variables` exactly when the variables are non-empty, holding them |
| LinearClient.ErrorTexts | src/agent.py:38 | the comprehension over `errors` succeeds exactly when every entry is a dict, giving one text per entry in order; else AttributeError |
| LinearClient.ReportedErrors | src/agent.py:37-39 | an `errors` entry always makes `execute_query` raise: a RuntimeError, or the TypeError/AttributeError of a malformed list |
| LinearClient.ResponseData | src/agent.py:37-41 | returns `result["data"]` exactly when there is no `errors` key and `data` is present; with an `errors` key it raises, but never KeyError("data"); with neither key it raises KeyError("data") |
| LinearClient.ErrorsReportedInOrder | src/agent.py:37-39 | errors with messages raise `"GraphQL errors: "` followed by the messages joined by `"; "`, in response order |
| LinearClient.ErrorsShown | src/agent.py:37-39 | for any `errors` list of dicts: `"GraphQL errors: "` followed by each entry's text joined by `"; "`, in order, where an entry's text is its string `message` if it has one and its `str()` otherwise |
| LinearClient.TextsJoined | src/agent.py:38-39 | the same message, for the `errors` list itself, once each entry's text is known |
| LinearClient.EntryText | src/agent.py:38 | `e.get("message", str(e))` is the entry's `message` when present, else its `str()` |
| LinearClient.EmptyErrorsRaise | src/agent.py:37-39 | an empty `errors` list still raises, with exactly `"GraphQL errors: "` |
| LinearClient.UnlabelledErrorShown | src/agent.py:38-39 | a lone entry without `message` is shown as its `str()` (the general case is `ErrorsShown`) |
| LinearClient.Client.constructor | src/agent.py:18-19 | a new session holds the environment's key and the server, and has sent nothing |
| LinearClient.Client.Execute | src/agent.py:25-41 | without a key: ValueError and nothing sent. Otherwise: exactly one request appended, to the API URL, with the key header, the operation's document and the payload's variables; the result is the server's answer passed through `ResponseData` |
| LinearClient.Prepare | src/agent.py:26-32 | the request carries the fixed URL, the two headers, the given document text and the payload of `BuildPayload` |
| LinearClient.SkipsPassedOver | src/agent.py:63-65 | the search passes over any prefix of states whose `type` is not "backlog" |
| LinearClient.BacklogIsFirst | src/agent.py:62-65 | the `id` of the first backlog state, in list order, is returned |
| LinearClient.NoBacklogState | src/agent.py:63-67 | with no backlog state it raises ValueError("No Backlog state found for team") |
| LinearClient.UntypedStateRaises | src/agent.py:63-64 | a state without `type`, reached before any backlog state, raises KeyError("type") |
| LinearClient.FindBacklog | src/agent.py:62-67 | the loop with its early return computes exactly the first-backlog search |
| LinearClient.GetBacklogStateId | src/agent.py:44-67 | without a key nothing is sent; otherwise one TeamStates request for the team is appended and the result is the search over the answer |
| LinearClient.MissingTeam | src/agent.py:58-60 | any answer whose `data` has a null or absent `team` raises ValueError("Team '<id>' not found") |
| LinearTools.Lines | src/agent.py:114 | the comprehension succeeds exactly when every node's line does, one line per node in order; otherwise it fails with the error of the first failing node |
| LinearTools.Listing | src/agent.py:110-115 | a falsy node list gives the fixed text; a non-empty list gives its lines joined by newlines |
| LinearTools.OneLinePerNode | src/agent.py:114-115 | splitting a listing at newlines gives back one line per node |
| LinearTools.IssueLineFormat | src/agent.py:114 | an issue node is shown as `[identifier] title (state)` |
| LinearTools.TeamLineFormat | src/agent.py:217 | a team node is shown as `name (key): id` |
| LinearTools.ProjectLineFormat | src/agent.py:259 | a project node is shown as `name: id` |
| LinearTools.EmptyListsShowFixedText | src/agent.py:111-112 | empty node lists give "No issues found", "No teams found" and "No projects found" |
| LinearTools.IssueNotFound | src/agent.py:138-139 | a null or absent `issue` gives `"Issue '<id>' not found"` |
| LinearTools.IssueDetails | src/agent.py:141-148 | an issue gives its four lines, with "N/A" for an absent, null or empty branch and "No description" for such a description |
| LinearTools.IssueDetailsLines | src/agent.py:141-148 | when no field holds a newline, the text of `get_issue` splits at newlines into exactly its four lines |
| LinearTools.CreationFailed | src/agent.py:184-185 | a mutation without success gives "Failed to create issue" |
| LinearTools.CreationReported | src/agent.py:187-195 | a successful mutation gives "Created: " then the new issue's line |
| LinearTools.TeamProjectsNotFound | src/agent.py:239-240 | a team-scoped project list for a missing team gives `"Team '<id>' not found"` |
| LinearTools.IssuesSelection | src/agent.py:76-108 | the unfiltered query exactly when `recent_minutes` is absent or falsy. A truthy value that is neither an int nor a bool raises TypeError. Otherwise the filtered query with `createdAfter` set to that many minutes back |
| LinearTools.ProjectsSelection | src/agent.py:223-253 | the team-scoped query, with `teamId`, exactly when `team_id` is truthy; otherwise the unscoped query without variables |
| LinearTools.CreateArgs | src/agent.py:157-160 | `team_id` then `title` are required (KeyError in that order); `description` defaults to "" and `project_id` to None |
| LinearTools.BuildIssueInput | src/agent.py:176-180 | the input has `title`, `teamId` and `stateId`, then `description` exactly when it is truthy, then `projectId` exactly when it is truthy, each holding its value |
| LinearTools.RequiredKeys | src/agent.py:176 | the dict literal holds the three required keys in order |
| LinearTools.DescriptionStep | src/agent.py:177-178 | `description` is added exactly when truthy and nothing else changes |
| LinearTools.ProjectStep | src/agent.py:179-180 | `projectId` is added exactly when truthy and nothing else changes |
| LinearTools.ProjectAdded | src/agent.py:180 | adding `projectId` leaves every earlier key and value in place |
| LinearTools.Answer | src/agent.py:110-115 | a tool answer is exactly one "text" block holding the rendered data; an exception from the query or the rendering is passed through |
| LinearTools.Answering | src/agent.py:108-115 | rendering what `execute_query` returned answers the query it issued |
| LinearTools.ListIssues | src/agent.py:75-115 | a TypeError from the selection sends nothing. Otherwise one request for the selected query is appended, and the answer is rendered from the server's reply |
| LinearTools.GetIssue | src/agent.py:123-148 | a missing `issue_id` raises KeyError and sends nothing. Otherwise one GetIssue request with `id` is appended, and the answer is rendered from the reply |
| LinearTools.ListTeams | src/agent.py:199-218 | one Teams request without variables, and the rendered answer |
| LinearTools.ListProjects | src/agent.py:221-260 | one request for the query `team_id` selects, and the rendered answer |
| LinearTools.InputCarried | src/agent.py:182 | the mutation's `variables.input` is the dict it was built from |
| LinearTools.SubmitIssue | src/agent.py:176-195 | one mutation is appended whose input satisfies the input rules for the resolved state, and the answer is rendered from its reply |
| LinearTools.LookupFailed | src/agent.py:162 | a failed backlog lookup ends `create_issue` with that error, and the lookup is the only request |
| LinearTools.LookupSucceeded | src/agent.py:162-182 | a lookup followed by its mutation is the lookup-then-create order |
| LinearTools.CreateIssue | src/agent.py:156-195 | missing arguments raise before anything is sent; a missing key sends nothing. Otherwise the TeamStates lookup comes first. A failed lookup sends no mutation and passes on its error. Otherwise exactly one mutation follows, carrying the resolved backlog id and the conditional keys, and its reply is rendered |
| GhostCli.RepoName | ghost.py:22-23 | the name is the text after the last `/` or `:` of the URL once one trailing `.git` is removed: a suffix holding neither separator |
| GhostCli.NamedAfterSeparator | ghost.py:23 | a URL `head + sep + name + ".git"` with a separator-free `name` gives `name` |
| GhostCli.SshRemote | ghost.py:23 | `git@github.com:org/repo.git` gives "repo" |
| GhostCli.HttpsRemote | ghost.py:23 | `https://github.com/org/repo.git` gives "repo" |
| GhostCli.OneGitSuffixRemoved | ghost.py:23 | only one `.git` is removed: `x/a.git.git` gives "a.git" |
| GhostCli.TrailingSeparatorGivesEmpty | ghost.py:23 | a URL ending in `/` or `:` gives the empty name |
| GhostCli.NoSeparatorKeepsUrl | ghost.py:23 | a URL without `/` or `:` is its own name, less a trailing `.git` |
| RepoName.RemotePath | repo_name.py:16-21 | for an SSH-style URL (holding `:` and `@`), the text after the last `:`; otherwise the longest suffix with at most one `/`, i.e. the last two segments rejoined |
| RepoName.FullName | repo_name.py:16-25 | `None` exactly for a failed command. An SSH-style result holds no `:`, and any other result holds at most one `/` |
| RepoName.SshBranch | repo_name.py:17-18 | an SSH remote gives the text after its last `:`, less one trailing `.git` |
| RepoName.PathBranch | repo_name.py:20-21 | any other remote, `https://` included, gives its last two segments, less one trailing `.git` |
| RepoName.NoSlashKeepsUrl | repo_name.py:21-23 | a non-SSH remote without `/` is kept whole, less a trailing `.git` |
| RepoName.SshRemote | repo_name.py:16-18 | `git@github.com:org/repo.git` gives "org/repo" |
| RepoName.HttpsRemote | repo_name.py:19-21 | `https://github.com/org/repo.git` gives "org/repo" |
| RepoName.FailedCommand | repo_name.py:24-25 | a failed git command gives `None` |

## Left out

- The Modal sandbox scripts (`sandbox.py`, `gh_sand.py`, `sand.py` and the `main` of `ghost.py`) are calls into a foreign SDK with no local logic.
- The HTTPS transport (`urllib` request, `urlopen`, HTTP status errors) and JSON encoding and decoding are outside the model. The oracle `server` stands for them: it returns either a decoded body or a `UrlError`.
- The agent SDK is not modelled: the `@tool` decorator, the MCP server, `ClaudeSDKClient` and the async streaming of `run_agent`. Argument schema validation happens inside that SDK. Handlers run one at a time, with no concurrency.
- The clock is a parameter. `datetime.now(UTC) - timedelta(minutes=m)` and its ISO formatting are the parameter `createdAfter(m)`. The OverflowError from a huge `m` is not modelled.
- JSON numbers are integers only. Floats, including a float `recent_minutes`, are not modelled.
- `Json.Repr` escapes only control characters, DEL to NBSP and the soft hyphen. Python's `repr` escapes every non-printable Unicode character.
- `LinearQueries.Document` collapses the indentation and line breaks of each GraphQL literal to single spaces. The document text is stated by `Client.Execute` and `Prepare`. The trace predicates `Sent` and `Issued` record only the operation.
- A decoded JSON object is a list of key/value pairs. A list with a repeated key is not excluded, and `Lookup` returns the first value, whereas `json.loads` keeps the last. No value that Python can hold has a repeated key.
- The headers are a list of pairs, not urllib's header mapping.
- Reading the environment is not modelled. `os.environ.get("LINEAR_API_KEY")` is the client's `apiKey` field.
- The git subprocess calls of `ghost.py` and `repo_name.py` are not modelled. So are `strip()` of their output and the exceptions other than `CalledProcessError` (a missing `git` binary raises FileNotFoundError).
- `print`, `sys.argv`, `asyncio.run` and `token_urlsafe` are not modelled.
- An exception a handler raises is a `Failure` result. How the SDK reports it to the model is not modelled.
