# Repository monitor: a Dafny model of one monitoring cycle

The Repo-Monitoring-Agent watches one GitHub repository. Each cycle runs the
same stages:

1. Fetch the open issues and the recently merged or closed pull requests.
2. Select the issues whose age in days reaches a threshold.
3. Select the pull requests that were merged or closed.
4. For each non-empty selection, route to a stage that sends an e-mail.
5. Finish in a join stage that stamps the last e-mail time and clears the
   per-cycle decisions.

There are two variants of this workflow:

- The direct one talks to the GitHub API and an SMTP service.
- The MCP one talks to MCP tools and composes plain-text e-mails itself.

This project models the stages of both variants, the records they share,
the configuration loader, and the GitHub client's list builders. It proves
what each stage computes and what it leaves alone.

Modules, one per source file plus shared helpers:

- `Wrappers`: `Option`, `Result` and `Outcome` (pass, or fail with an error).
- `Seqs`: order-preserving selection (`Filter`), element-wise mapping
  (`MapSeq`) and concatenation of per-element pieces (`FlatMap`), each
  proved once and reused by every loop that builds a list with `append`.
- `State`: the issue and pull-request records, `AgeDays`, `IsMerged`, and
  what a send stage appends to the history (`Recorded`). It also has the
  workflow-visible view of a monitor state with the join stage's effect
  on it (`Finalize`), and the direct variant's `RepoMonitorState` class.
- `Evaluator`: the two selection rules shared by both variants, their
  loops, and the test fixtures.
- `GitHubClient`: the API records, their conversion, and the lookback-window
  rule of `get_recent_prs`.
- `ConfigManager`: `${NAME}` substitution over a parsed YAML tree, the
  first-failure validator, and `create_initial_state`.
- `Workflow`: the direct variant's stages as methods of
  `RepoMonitorWorkflow`, acting on a `RepoMonitorState`.
- `McpState`: the MCP variant's `MCPRepoMonitorState` class.
- `Text`: decimal rendering of integers, `"\n".join` and `split("\n")`.
- `McpWorkflow`: the MCP variant's subjects and bodies, and its stages as
  methods of `MCPRepoMonitorWorkflow`, including the "client not
  initialized" guards, and Python's keyword binding for the call into the
  e-mail tool.

Both variants' issue and pull-request records have the same fields, age
rule and merge rule. The model therefore uses the `State` records for both.

Time is whole seconds. Every clock read becomes a parameter:

- `now` is the time of the cycle.
- `stamp` is the ISO text appended to a notification identifier. It is
  treated as an opaque string.

What the e-mail service or the MCP tool reports is the boolean parameter
`delivered`. What the GitHub API yields is an input sequence.

One cycle is modelled as: fetch; analyse issues; analyse pull requests; the
issue route; the PR route; a single join. The join is idempotent
(`State.FinalizeIdempotent`), so a second entry into it from the other
branch changes nothing.

## Model

| member | source | states |
|---|---|---|
| State.AgeDays | src/state.py:52-55 | The age is the floor of the elapsed seconds over 86400: `d*86400 <= now - created < d*86400 + 86400`, also for negative differences, as `timedelta.days` gives them. The MCP record's `age_days` (mcp_trial/src/state.py:52-55) is the same rule. |
| State.AgeDaysMonotone | src/state.py:55 | An issue's age never decreases as `now` increases. |
| State.AgeDaysAfterWholeDays | src/state.py:55 | Exactly `n` whole days after creation, the age is `n`. |
| State.IsMerged | src/state.py:69-72 | The definition: a pull request counts as merged iff it has a merge time, whatever its state text and close time. The MCP model's `is_merged` (mcp_trial/src/state.py:69-72) is the same rule. What follows from it is carried by `McpWorkflow.PrStatusWord` (the status line names the merge state) and `Evaluator.ReportableSelection` (a merged PR is always reported). |
| State.Recorded | src/workflow.py:150-154 | A send appends exactly one identifier on success and none on failure. |
| State.RecordedIdentifier | src/workflow.py:152 | The recorded identifier is the stage's prefix followed by the time text. |
| State.RecordedKindsDiffer | src/workflow.py:150-175 | An `issue_alert_` identifier never equals a `pr_notification_` identifier, whatever the time texts. |
| State.Finalize | src/workflow.py:179-194 | The join clears both flags and both selection lists, and keeps the fetched lists and the history. It sets the last e-mail time to `now` exactly when the history is non-empty, and otherwise leaves it unchanged. |
| State.FinalizeIdempotent | src/workflow.py:184-191 | Finalising twice at the same instant equals finalising once. |
| State.FinalizeStampsOnHistory | src/workflow.py:184-185 | With any notification on record, the last e-mail time becomes `now`, even if nothing was sent this cycle. |
| State.FinalizeWithoutNotifications | src/workflow.py:184-185 | With an empty history, the last e-mail time and the history stay as they were. |
| State.RepoMonitorState.constructor | src/state.py:7-38 | The identity fields and the given settings are stored. Threshold 7, port 587, host `smtp.gmail.com` and empty credentials are the defaults. All fetched, selected and history lists are empty, both flags are false, and there is no last e-mail time. |
| McpState.MCPRepoMonitorState.constructor | mcp_trial/src/state.py:11-38 | The identity fields are stored, with threshold 7 by default. All lists are empty, both flags are false, there is no last e-mail time and no client. |
| Evaluator.IsStale | src/workflow.py:102 | An issue is stale iff at least `threshold` whole days of seconds have elapsed since its creation, i.e. `now - created >= threshold * 86400`. |
| Evaluator.SelectStaleIssues | src/workflow.py:99-103 | The alert list is no longer than the fetched list, and every issue on it is stale. |
| Evaluator.IsReportable | src/workflow.py:119 | The definition: a pull request is reportable iff it has a merge time or a close time. The properties of the selection built on it are carried by `Evaluator.ReportableSelection` (membership, multiplicity and order) and `Evaluator.OpenPrNeverReported` (a PR with neither time is never reported). |
| Evaluator.SelectReportablePrs | src/workflow.py:116-120 | The notification list is no longer than the fetched list, and every PR on it has a merge or a close time. |
| Evaluator.StaleSelection | src/workflow.py:99-105 | The alert list contains an issue iff it was fetched and its age reaches the threshold. Each such issue occurs exactly as often as in the input, and fetch order is kept (subsequence). |
| Evaluator.StaleBoundaryInclusive | src/workflow.py:102 | An issue exactly `threshold` days old is selected. |
| Evaluator.StaleBoundaryExclusiveBelow | src/workflow.py:102 | An issue one second short of `threshold` days is not selected. |
| Evaluator.AlertListNonEmpty | src/workflow.py:105-106 | The alert list is non-empty iff some fetched issue reaches the threshold. |
| Evaluator.ReportableSelection | src/workflow.py:116-122 | The notification list contains a PR iff it was fetched and has a merge or a close time. Each such PR occurs exactly as often as in the input, in input order. |
| Evaluator.OpenPrNeverReported | src/workflow.py:119 | A PR with neither a merge nor a close time is never selected. |
| Evaluator.NotificationListNonEmpty | src/workflow.py:122-123 | The notification list is non-empty iff some fetched PR is merged or closed. |
| Evaluator.CollectAlertIssues | src/workflow.py:99-103 | The loop of appends yields exactly the stale-issue selection. |
| Evaluator.CollectNotificationPrs | src/workflow.py:116-120 | The loop of appends yields exactly the reportable-PR selection. |
| Evaluator.FixtureIssueSelection | mcp_trial/test_mcp.py:15-39 | With a 7-day threshold, issues 10 and 3 days old select only the 10-day issue. |
| Evaluator.FixturePrSelection | mcp_trial/test_mcp.py:42-66 | The merged-and-closed PR and the closed-only PR are both selected. Only the first counts as merged. |
| GitHubClient.ToIssue | src/github_client.py:19-28 | Every scalar is copied. Labels and assignees are converted element by element, with the same lengths. |
| GitHubClient.ToPullRequest | src/github_client.py:44-53 | Number, title, state, merge time, close time and URL are copied. Labels and assignees are converted element by element, with the same lengths. |
| GitHubClient.InWindow | src/github_client.py:43-55 | A PR's merge time decides when it has one: it is in the window iff merged at or after the start. An unmerged PR is in the window iff it closed at or after the start. |
| GitHubClient.RecentPrs | src/github_client.py:39-55 | The result is no longer than the API list, and every PR in it lies in the window in the sense of `InWindow`. |
| GitHubClient.GetOpenIssues | src/github_client.py:13-31 | One record per API issue, in the same order, each the converted issue. |
| GitHubClient.GetRecentPrs | src/github_client.py:33-69 | The if/elif loop yields exactly the converted PRs that pass the window rule, in API order. |
| GitHubClient.RecentPrsMembership | src/github_client.py:39-55 | A PR is returned iff some API PR inside the window converts to it. |
| GitHubClient.RecentPrsOrder | src/github_client.py:41-69 | The output is a subsequence of the converted input and no longer than the input. |
| GitHubClient.WindowExclusions | src/github_client.py:43-55 | A PR merged before the window is excluded even when it closed inside the window. A PR with neither time is never taken. |
| GitHubClient.WindowInclusiveStart | src/github_client.py:39-55 | A merge, or a close of an unmerged PR, exactly at `now - lookback` hours is inside the window. |
| GitHubClient.RecentPrsAllReportable | src/github_client.py:43-67 | Every returned PR is merged or closed, so PR analysis keeps the whole list. This is also checked against src/workflow.py:119. |
| ConfigManager.Substitute | src/config_manager.py:30-43 | Substitution fails only by naming a variable absent from the environment. On success a mapping stays a mapping and a list stays a list. |
| ConfigManager.SubstituteEntries | src/config_manager.py:32-33 | A mapping's entries fail only on an unset variable. On success they keep their number and their keys in order. |
| ConfigManager.SubstituteItems | src/config_manager.py:34-35 | A list's items fail only on an unset variable. On success they keep their number. |
| ConfigManager.PlaceholderReplaced | src/config_manager.py:36-41 | `${NAME}` becomes the value of `NAME`, or substitution fails naming `NAME` when it is unset. |
| ConfigManager.SubstituteFailure | src/config_manager.py:30-43 | Substitution fails iff some placeholder in the tree names an unset variable. The error names the first such variable in document order. |
| ConfigManager.SubstituteEntriesFailure | src/config_manager.py:32-33 | The same for the entries of a mapping. |
| ConfigManager.SubstituteItemsFailure | src/config_manager.py:34-35 | The same for the items of a list. |
| ConfigManager.SubstituteKeepsShape | src/config_manager.py:32-43 | A successful substitution keeps mappings with the same keys in the same order and lists of the same length. Every `${NAME}` string, at any depth, becomes the string `env[NAME]`, with `NAME` set. Every other scalar and non-placeholder string is unchanged. |
| ConfigManager.SubstituteEntriesKeepShape | src/config_manager.py:33 | The same for the entries of a mapping: the same keys in order, each value replaced as above. |
| ConfigManager.SubstituteItemsKeepShape | src/config_manager.py:35 | The same for the items of a list: the same length, each item replaced as above. |
| ConfigManager.SubstituteWithoutPlaceholders | src/config_manager.py:42-43 | A tree without placeholders comes back unchanged. |
| ConfigManager.SubstituteEntriesWithoutPlaceholders | src/config_manager.py:33 | The same for the entries of a mapping. |
| ConfigManager.SubstituteItemsWithoutPlaceholders | src/config_manager.py:35 | The same for the items of a list. |
| ConfigManager.RequirePresent | src/config_manager.py:49-58 | A passing presence loop found every key. A failing one names a key that is absent from the container, or reports Python's type error when `in` does not apply. |
| ConfigManager.RequireInt | src/config_manager.py:75-85 | The integer check passes iff the field exists and `isinstance(value, int)` holds, booleans included. Otherwise it fails naming the field, or with the type error. |
| ConfigManager.RequireRecipients | src/config_manager.py:87-91 | The recipients check passes iff `recipients` is a non-empty list. It fails only with the not-a-list, the empty-list or the type error. |
| ConfigManager.ValidateSections | src/config_manager.py:53-91 | Once the sections are present, passing means every section holds its fields and the integer and recipient checks hold. |
| ConfigManager.ValidateConfig | src/config_manager.py:45-91 | A configuration that passes validation satisfies `ValidConfig`. The converse is `ValidateConfigPasses`. |
| ConfigManager.RequirePresentPasses | src/config_manager.py:56-58 | A presence loop passes iff every listed key is in the container. |
| ConfigManager.RequirePresentFirstMissing | src/config_manager.py:49-51 | A presence loop reports the first missing key. |
| ConfigManager.ValidateConfigPasses | src/config_manager.py:45-91 | Validation passes iff the configuration has all three sections and all required fields. The three monitoring values and `smtp_port` must be ints and `recipients` a non-empty list. |
| ConfigManager.MissingSectionReported | src/config_manager.py:47-51 | A missing section is reported, naming the first one missing in the order repository, monitoring, email. |
| ConfigManager.MissingRepositoryFieldReported | src/config_manager.py:53-58 | With all sections present, a missing repository field is reported, naming the first one missing in the order owner, name, token. |
| ConfigManager.MissingFieldRejected | src/config_manager.py:53-72 | A required field missing from the repository, monitoring or email section makes validation fail. |
| ConfigManager.OddMonitoringFields | src/config_manager.py:74-82 | A monitoring section with a negative, a zero and a boolean value has all fields, and all pass the integer check. |
| ConfigManager.OddEmailFields | src/config_manager.py:84-91 | An email section with a negative port has all fields and passes the port and recipient checks. |
| ConfigManager.NonPositiveValuesAccepted | src/config_manager.py:74-91 | Signs are not checked, and `True` passes as an integer: such a configuration is valid. |
| ConfigManager.CreateInitialState | src/config_manager.py:93-107 | Owner, name, token, threshold, recipients and the SMTP fields are copied from the configuration. Every other field takes its default. |
| Workflow.RepoUrl | src/workflow.py:140 | The repository URL is `https://github.com/`, the owner, a slash and the repository name, each at its fixed position. |
| Workflow.RepoMonitorWorkflow.constructor | src/workflow.py:13-24 | The workflow keeps `monitoring.pr_lookback_hours`. |
| Workflow.RepoMonitorWorkflow.FetchData | src/workflow.py:75-92 | On success the state holds the converted issues and the window-filtered PRs. If the issue fetch fails, nothing changes. If only the PR fetch fails, the new issues stay and the PRs are unchanged. |
| Workflow.RepoMonitorWorkflow.AnalyzeIssues | src/workflow.py:94-109 | The alert list is the stale selection of the fetched issues. The flag is true iff that list is non-empty. |
| Workflow.RepoMonitorWorkflow.AnalyzePrs | src/workflow.py:111-126 | The notification list is the reportable selection of the fetched PRs. The flag is true iff that list is non-empty. |
| Workflow.RepoMonitorWorkflow.ShouldSendIssueAlert | src/workflow.py:128-130 | The route is "send_alert" iff the flag is true, and "skip" iff it is false. |
| Workflow.RepoMonitorWorkflow.ShouldSendPrNotification | src/workflow.py:132-134 | The route is "send_notification" iff the flag is true, and "skip" iff it is false. |
| Workflow.RepoMonitorWorkflow.SendIssueAlert | src/workflow.py:136-156 | The service receives the recipients, the alert list, the repository name, URL and threshold. The history gains one `issue_alert_` identifier on success and nothing on failure. Nothing else changes. |
| Workflow.RepoMonitorWorkflow.SendPrNotification | src/workflow.py:158-177 | The service receives the recipients, the notification list, the repository name and URL. The history gains one `pr_notification_` identifier on success only. Nothing else changes. |
| Workflow.RepoMonitorWorkflow.UpdateState | src/workflow.py:179-194 | The new view is `Finalize` of the old view. No other field changes. |
| Workflow.RepoMonitorWorkflow.FollowIssueRoute | src/workflow.py:48-55 | The alert is sent iff the flag is set, with the alert list. The history grows only for a delivered alert. |
| Workflow.RepoMonitorWorkflow.FollowPrRoute | src/workflow.py:57-64 | The notification is sent iff the flag is set, with the notification list. The history grows only for a delivered notification. |
| Workflow.RepoMonitorWorkflow.NotifyAndJoin | src/workflow.py:47-71 | Both conditional edges, then one join. The sends happen as the flags decided. The history gains the delivered identifiers, issue first. Flags and lists are cleared and the last e-mail time follows the whole history. |
| Workflow.RepoMonitorWorkflow.RunCycle | src/workflow.py:26-73 | A failed fetch sends nothing. It leaves the history, the selections, both send flags, the stored PRs and the last e-mail time unchanged. The issues are stored when the issue page arrived, even if the PR page then fails. A successful cycle sends the alert iff some fetched issue is stale and the notification iff some fetched PR is reportable, with exactly those lists. It records the delivered sends and finalises once. |
| McpWorkflow.IssueAlertSubject | mcp_trial/src/workflow.py:149 | The alert subject is 35 characters plus the threshold's rendering plus the repository name, and it ends with the repository name. |
| McpWorkflow.PrNotificationSubject | mcp_trial/src/workflow.py:188 | The PR subject is a fixed 35-character opening followed by the repository name. |
| McpWorkflow.IssueAlertSubjectLayout | mcp_trial/src/workflow.py:149 | For every integer threshold, negative ones included, the subject is "[ALERT] Issues Open Beyond ", the threshold's rendering, " Days - ", then the repository name, each at a fixed position. |
| McpWorkflow.IssueAlertSubjectThreshold | mcp_trial/src/workflow.py:149 | The threshold can be read back from the subject. A non-negative threshold appears as digits whose value is the threshold. A negative one appears as a minus sign followed by the digits of its magnitude. |
| McpWorkflow.SubjectsEndWithRepository | mcp_trial/src/workflow.py:149-188 | Both subjects end with the repository name. |
| McpWorkflow.IssueBlock | mcp_trial/src/workflow.py:157-161 | One issue's block is four lines, the last one blank. |
| McpWorkflow.PrStatus | mcp_trial/src/workflow.py:196 | The definition: the status word is "merged" iff the PR is merged, and "closed" iff it is not. That the PR block's second line shows this word is carried by `McpWorkflow.PrStatusWord`. |
| McpWorkflow.PrBlock | mcp_trial/src/workflow.py:196-200 | One PR's block is four lines, the last one blank. |
| McpWorkflow.IssueBlocksShape | mcp_trial/src/workflow.py:156-161 | The issue blocks have four lines per issue. The k-th group of four is the k-th issue's block. |
| McpWorkflow.IssueBlocksStep | mcp_trial/src/workflow.py:156-161 | One more issue appends exactly that issue's block. |
| McpWorkflow.IssueLinesStep | mcp_trial/src/workflow.py:158-161 | The four appends of one loop turn produce the next issue's block. |
| McpWorkflow.IssueAlertLinesShape | mcp_trial/src/workflow.py:152-161 | The issue body has 3 + 4n lines: repository, threshold, a blank line, then per issue in order "#num: title", "  Age: d days", "  URL: url" and a blank line. |
| McpWorkflow.PrBlocksShape | mcp_trial/src/workflow.py:194-200 | The PR blocks have four lines per PR. The k-th group of four is the k-th PR's block. |
| McpWorkflow.PrBlocksStep | mcp_trial/src/workflow.py:194-200 | One more PR appends exactly that PR's block. |
| McpWorkflow.PrLinesStep | mcp_trial/src/workflow.py:196-200 | The four appends of one loop turn produce the next PR's block. |
| McpWorkflow.PrNotificationLinesShape | mcp_trial/src/workflow.py:191-200 | The PR body has 2 + 4n lines: repository, a blank line, then one four-line block per PR in order. |
| McpWorkflow.PrStatusWord | mcp_trial/src/workflow.py:196-198 | The status reads "merged" iff the PR has a merge time and "closed" iff it has none. The block's second line shows it. |
| McpWorkflow.IssueBlockSingleLines | mcp_trial/src/workflow.py:158-161 | An issue's block lines hold no newline when its title and URL hold none. |
| McpWorkflow.PrBlockSingleLines | mcp_trial/src/workflow.py:197-200 | A PR's block lines hold no newline when its title and URL hold none. |
| McpWorkflow.IssueAlertBodyLines | mcp_trial/src/workflow.py:152-163 | With newline-free names, titles and URLs, splitting the joined body gives back its lines, so the text has 3 + 4n lines. |
| McpWorkflow.PrNotificationBodyLines | mcp_trial/src/workflow.py:191-202 | The same round trip for the PR body, with 2 + 4n lines. |
| McpWorkflow.ComposeIssueAlertLines | mcp_trial/src/workflow.py:152-161 | The loop of appends produces exactly the issue-body lines. |
| McpWorkflow.ComposePrNotificationLines | mcp_trial/src/workflow.py:191-200 | The loop of appends produces exactly the PR-body lines. |
| McpWorkflow.FirstNotIn | mcp_trial/src/mcp_client.py:191 | The first element of one list missing from the other: none iff every element is present. |
| McpWorkflow.BindKeywords | mcp_trial/src/mcp_client.py:191 | A call's keywords bind iff each names a parameter and each required parameter is supplied. An unexpected keyword is reported by name. |
| McpWorkflow.SendEmailAsWrittenRejected | mcp_trial/src/workflow.py:166-170 | The send stages' `recipients=` keyword names no parameter of `send_email`, so the call fails to bind. |
| McpWorkflow.SendEmailCorrectedBinds | mcp_trial/src/workflow.py:205-209 | With `to=` in its place, the call binds. |
| McpWorkflow.MCPRepoMonitorWorkflow.constructor | mcp_trial/src/workflow.py:16-21 | A new workflow has no client. |
| McpWorkflow.MCPRepoMonitorWorkflow.Initialize | mcp_trial/src/workflow.py:23-26 | After initialisation a client is attached. |
| McpWorkflow.MCPRepoMonitorWorkflow.FetchData | mcp_trial/src/workflow.py:77-97 | Without a client the stage fails with the not-initialised error and leaves the state unchanged. Otherwise it stores what the fetchers returned. |
| McpWorkflow.MCPRepoMonitorWorkflow.AnalyzeIssues | mcp_trial/src/workflow.py:99-114 | Same selection and flag as the direct variant. |
| McpWorkflow.MCPRepoMonitorWorkflow.AnalyzePrs | mcp_trial/src/workflow.py:116-131 | Same selection and flag as the direct variant. |
| McpWorkflow.MCPRepoMonitorWorkflow.ShouldSendIssueAlert | mcp_trial/src/workflow.py:133-135 | The route is "send_alert" iff the flag is true, and "skip" otherwise. |
| McpWorkflow.MCPRepoMonitorWorkflow.ShouldSendPrNotification | mcp_trial/src/workflow.py:137-139 | The route is "send_notification" iff the flag is true, and "skip" otherwise. |
| McpWorkflow.MCPRepoMonitorWorkflow.SendIssueAlert | mcp_trial/src/workflow.py:141-178 | Without a client: the error, with the history unchanged. Otherwise the e-mail is the recipients, the alert subject and the joined alert body, and the history gains one `issue_alert_` identifier on success only. |
| McpWorkflow.MCPRepoMonitorWorkflow.SendPrNotification | mcp_trial/src/workflow.py:180-217 | Without a client: the error, with the history unchanged. Otherwise the e-mail is the recipients, the PR subject and the joined PR body, and the history gains one `pr_notification_` identifier on success only. |
| McpWorkflow.MCPRepoMonitorWorkflow.UpdateState | mcp_trial/src/workflow.py:219-234 | The new view is `Finalize` of the old view. |
| McpWorkflow.MCPRepoMonitorWorkflow.FollowIssueRoute | mcp_trial/src/workflow.py:50-57 | The alert e-mail is sent iff the flag is set. The history grows only for a delivered alert. |
| McpWorkflow.MCPRepoMonitorWorkflow.FollowPrRoute | mcp_trial/src/workflow.py:59-66 | The notification e-mail is sent iff the flag is set. The history grows only for a delivered notification. |
| McpWorkflow.MCPRepoMonitorWorkflow.NotifyAndJoin | mcp_trial/src/workflow.py:49-73 | Both conditional edges and one join, as in the direct variant, with the composed e-mails returned. |
| McpWorkflow.MCPRepoMonitorWorkflow.Invoke | mcp_trial/src/workflow.py:28-75 | With a client: the fetched lists are stored. The alert e-mail goes out iff some issue is stale and the notification iff some PR is reportable, each composed from exactly the selection. The delivered sends are recorded, and the state is finalised once. |
| McpWorkflow.MCPRepoMonitorWorkflow.Run | mcp_trial/src/workflow.py:236-248 | `run` initialises the client if needed and attaches it to the state, then has the same effect as one invocation. |
| Text.IntToString | mcp_trial/src/workflow.py:149 | An f-string's rendering of an integer is non-empty and starts with a minus sign iff the integer is negative. |
| Text.JoinLines | mcp_trial/src/workflow.py:163 | `"\n".join` starts with the first line, followed by a newline when there is a second line. |
| Text.SplitLines | mcp_trial/src/workflow.py:163 | `split("\n")` always gives at least one piece, and exactly the whole string when it holds no newline. |
| Text.NatToStringRoundTrip | mcp_trial/src/workflow.py:149-159 | An f-string's decimal rendering consists of digits and reads back as the number. |
| Text.IntToStringReadBack | mcp_trial/src/workflow.py:149 | An integer's rendering reads back as the integer. A non-negative one is all digits with that value. A negative one is a minus sign, then the digits of its magnitude. |
| Text.IntToStringSingleLine | mcp_trial/src/workflow.py:158-159 | A rendered integer holds no newline. |
| Text.SplitJoinRoundTrip | mcp_trial/src/workflow.py:163 | Splitting `"\n".join(lines)` on newlines gives back the lines when none of them holds a newline. |

## Left out

- I/O of every kind is outside the model: HTML templating and SMTP transport in the e-mail service, MCP stdio sessions and tool calls, the PyGithub client, and reading YAML and `.env` files. The e-mail service and the MCP tool become the `delivered` parameter. The API pages and the MCP fetch results become input sequences.
- The MCP client's own fetchers are not part of this model. They turn their failures into empty lists, so the model's MCP fetch receives whatever lists they returned, and a failed fetch looks like no data.
- The direct variant's fetch failures (any exception from the GitHub client) are `None` pages. What the exception is and how it propagates out of the graph is not modelled.
- LangGraph compilation, superstep scheduling and async/await are not modelled. One cycle is one sequential pass with a single join. The two branches' interleaving on the shared state is not modelled.
- Clock reads are not modelled. The source reads the clock once per issue age, per identifier and in the join; the model uses one `now` per cycle and opaque `stamp` strings.
- Time zones, and datetimes as opposed to whole seconds, are not modelled.
- Fetched issues and pull requests are stored as records, not as the dictionaries the source stores and re-parses.
- `get_repo_info` and `cleanup`, which only call the remote API or close a connection, are not modelled.
- The workflow constructors keep only `pr_lookback_hours`. The GitHub token and SMTP settings they hand to the clients are outside the model.
- `main.py`, the dashboard, the deployment script and the print-only tests are not part of this model.
- YAML mapping keys are strings only, and YAML floats are not represented.
- A `VMap` with a repeated key stands for no Python dict. `yaml.safe_load` (src/config_manager.py:20) yields a dict with unique keys, keeping the last of any duplicates, while the model's `Lookup` reads the first matching entry. Configurations are meant to have distinct keys at every level; the model does not restrict its inputs to them.
- ConfigManager.CreateInitialState: requires a configuration whose text fields hold strings and whose recipients are strings, because the state class is typed. The source passes whatever values the configuration holds.
- State.RecordedIdentifier: the identifier's structure is a lemma and not part of `State.Recorded`'s contract, which states only how many identifiers a send appends.
- The comment at src/workflow.py:183 says the last e-mail time is updated if any e-mails were sent. The test at src/workflow.py:184-185 is whether the history is non-empty, so a cycle that sends nothing after an earlier send still restamps the time. The model follows the code (`State.FinalizeStampsOnHistory`); the MCP variant's join (mcp_trial/src/workflow.py:223-224) does the same.
- McpWorkflow.MCPRepoMonitorWorkflow.SendIssueAlert, McpWorkflow.MCPRepoMonitorWorkflow.SendPrNotification: model the corrected call `send_email(to=...)`, not the call as written. As written, both stages raise `TypeError` before the tool runs, record nothing and end the graph run; see "## Findings".
- Python's `isinstance(True, int)` holds, so a boolean passes the integer checks. The model follows this (`ConfigManager.NonPositiveValuesAccepted`).

## Findings

| source | as written | input that shows it | evidently intended | confidence | as-written member | corrected member |
|---|---|---|---|---|---|---|
| mcp_trial/src/workflow.py:166-170, 205-209 | Both MCP send stages call `send_email(recipients=..., subject=..., body=...)`. The client's `send_email` (mcp_trial/src/mcp_client.py:191) has the parameters `to, subject, body, html_body`, so Python rejects the call with `TypeError` before the e-mail tool runs, and the exception leaves the stage. | Any cycle whose routers choose to send: one stale issue, or one merged pull request. | Pass the recipients as `to=`. The e-mail then goes out, and a success is recorded in the history. | high; not executed | McpWorkflow.SendEmailAsWrittenRejected | McpWorkflow.SendEmailCorrectedBinds |
