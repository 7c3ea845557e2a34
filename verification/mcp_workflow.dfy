/** The MCP monitoring workflow: the same stages as the direct one, over an
    `MCPRepoMonitorState`, with plain-text e-mails composed here and a guard
    on the client in every stage that talks to it. */
module McpWorkflow {
  import opened Wrappers
  import opened State
  import opened McpState
  import Text
  import Evaluator
  import Seqs

  /** `RuntimeError("MCP client not initialized")`. */
  datatype WorkflowError = ClientNotInitialized

  /** What a send stage hands to the e-mail tool. */
  datatype EmailMessage = EmailMessage(recipients: seq<string>, subject: string, body: string)

  function IssueAlertSubject(thresholdDays: int, repoName: string): (s: string)
    ensures |s| == 35 + |Text.IntToString(thresholdDays)| + |repoName|
    ensures s[|s| - |repoName|..] == repoName
  {
    "[ALERT] Issues Open Beyond " + Text.IntToString(thresholdDays) + " Days - " + repoName
  }

  function PrNotificationSubject(repoName: string): (s: string)
    ensures |s| == 35 + |repoName|
    ensures s[35..] == repoName
  {
    "[UPDATE] Pull Requests Processed - " + repoName
  }

  /** The issue-alert subject is its fixed opening, the threshold as an
      f-string renders it, " Days - ", and the repository name. */
  lemma IssueAlertSubjectLayout(thresholdDays: int, repoName: string)
    ensures var s := IssueAlertSubject(thresholdDays, repoName);
            var end := |s| - |repoName| - 8;
            && 27 < end
            && s[..27] == "[ALERT] Issues Open Beyond "
            && s[27..end] == Text.IntToString(thresholdDays)
            && s[end..|s| - |repoName|] == " Days - "
            && s[|s| - |repoName|..] == repoName
  {
    var opening := "[ALERT] Issues Open Beyond ";
    var text := Text.IntToString(thresholdDays);
    var s := IssueAlertSubject(thresholdDays, repoName);
    var middle := " Days - ";
    assert |opening| == 27 && |middle| == 8;
    assert s == opening + text + middle + repoName;
    var end := |s| - |repoName| - 8;
    assert end == 27 + |text|;
    assert s[..27] == opening;
    assert s[27..end] == text;
    assert s[end..|s| - |repoName|] == middle;
    assert s[|s| - |repoName|..] == repoName;
  }

  /** The threshold can be read back from the subject: digits for a
      non-negative threshold, a minus sign and the digits of its magnitude
      for a negative one (validation accepts both). */
  lemma IssueAlertSubjectThreshold(thresholdDays: int, repoName: string)
    ensures var s := IssueAlertSubject(thresholdDays, repoName);
            var end := |s| - |repoName| - 8;
            thresholdDays >= 0 ==> 27 < end && Text.IsDecimal(s[27..end]) && Text.DecimalValue(s[27..end]) == thresholdDays
    ensures var s := IssueAlertSubject(thresholdDays, repoName);
            var end := |s| - |repoName| - 8;
            thresholdDays < 0 ==>
              28 < end && s[27] == '-' &&
              Text.IsDecimal(s[28..end]) && Text.DecimalValue(s[28..end]) == -thresholdDays
  {
    var s := IssueAlertSubject(thresholdDays, repoName);
    var end := |s| - |repoName| - 8;
    IssueAlertSubjectLayout(thresholdDays, repoName);
    Text.IntToStringReadBack(thresholdDays);
    if thresholdDays < 0 {
      assert s[28..end] == s[27..end][1..];
    }
  }

  /** Both subjects end with the repository name. */
  lemma SubjectsEndWithRepository(thresholdDays: int, repoName: string)
    ensures var s := IssueAlertSubject(thresholdDays, repoName);
            |s| >= |repoName| && s[|s| - |repoName|..] == repoName
    ensures var s := PrNotificationSubject(repoName);
            |s| >= |repoName| && s[|s| - |repoName|..] == repoName
  {
  }

  function RepositoryLine(owner: string, name: string): string {
    "Repository: " + owner + "/" + name
  }

  function ThresholdLine(thresholdDays: int): string {
    "Threshold: " + Text.IntToString(thresholdDays) + " days"
  }

  /** The first line of an entry: its number and title. */
  function HeadingLine(number: int, title: string): string {
    "#" + Text.IntToString(number) + ": " + title
  }

  function AgeLine(days: int): string {
    "  Age: " + Text.IntToString(days) + " days"
  }

  function StatusLine(status: string): string {
    "  Status: " + status
  }

  function UrlLine(url: string): string {
    "  URL: " + url
  }

  /** The four lines describing one alert issue. */
  function IssueBlock(issue: Issue, now: Timestamp): (block: seq<string>)
    ensures |block| == 4 && block[3] == ""
  {
    [HeadingLine(issue.number, issue.title), AgeLine(AgeDays(issue, now)), UrlLine(issue.htmlUrl), ""]
  }

  function IssueBlocks(issues: seq<Issue>, now: Timestamp): seq<string> {
    Seqs.FlatMap(issues, issue => IssueBlock(issue, now))
  }

  /** The lines of the issue-alert body, before they are joined. */
  function IssueAlertLines(owner: string, name: string, thresholdDays: int,
                           issues: seq<Issue>, now: Timestamp): seq<string> {
    [RepositoryLine(owner, name), ThresholdLine(thresholdDays), ""]
    + IssueBlocks(issues, now)
  }

  /** A pull request's status word: "merged" when it carries a merge time,
      "closed" otherwise. */
  function PrStatus(pr: PullRequest): (word: string)
    ensures word == "merged" <==> IsMerged(pr)
    ensures word == "closed" <==> !IsMerged(pr)
  {
    if IsMerged(pr) then "merged" else "closed"
  }

  /** The four lines describing one pull request. */
  function PrBlock(pr: PullRequest): (block: seq<string>)
    ensures |block| == 4 && block[3] == ""
  {
    [HeadingLine(pr.number, pr.title), StatusLine(PrStatus(pr)), UrlLine(pr.htmlUrl), ""]
  }

  function PrBlocks(prs: seq<PullRequest>): seq<string> {
    Seqs.FlatMap(prs, PrBlock)
  }

  /** The lines of the PR-notification body, before they are joined. */
  function PrNotificationLines(owner: string, name: string, prs: seq<PullRequest>): seq<string> {
    [RepositoryLine(owner, name), ""] + PrBlocks(prs)
  }

  /** One four-line block per issue, in alert order. */
  lemma IssueBlocksShape(issues: seq<Issue>, now: Timestamp)
    ensures |IssueBlocks(issues, now)| == 4 * |issues|
    ensures forall k :: 0 <= k < |issues| ==> IssueBlocks(issues, now)[4 * k..4 * k + 4] == IssueBlock(issues[k], now)
  {
    var block := issue => IssueBlock(issue, now);
    Seqs.FlatMapLength(issues, block);
    forall k | 0 <= k < |issues| ensures IssueBlocks(issues, now)[4 * k..4 * k + 4] == IssueBlock(issues[k], now) {
      Seqs.FlatMapAt(issues, block, k);
    }
  }

  /** Extending the prefix of issues by one appends that issue's block. */
  lemma IssueBlocksStep(issues: seq<Issue>, now: Timestamp, i: nat)
    requires i < |issues|
    ensures IssueBlocks(issues[..i + 1], now) == IssueBlocks(issues[..i], now) + IssueBlock(issues[i], now)
  {
    Seqs.FlatMapPrefixStep(issues, issue => IssueBlock(issue, now), i);
  }

  /** Extending the prefix of pull requests by one appends its block. */
  lemma PrBlocksStep(prs: seq<PullRequest>, i: nat)
    requires i < |prs|
    ensures PrBlocks(prs[..i + 1]) == PrBlocks(prs[..i]) + PrBlock(prs[i])
  {
    Seqs.FlatMapPrefixStep(prs, PrBlock, i);
  }

  /** One turn of the issue loop: the four appended lines are the next
      issue's block. */
  lemma IssueLinesStep(header: seq<string>, lines: seq<string>, issues: seq<Issue>, now: Timestamp, i: nat)
    requires i < |issues|
    requires lines == header + IssueBlocks(issues[..i], now)
    ensures lines + [HeadingLine(issues[i].number, issues[i].title)] + [AgeLine(AgeDays(issues[i], now))]
                  + [UrlLine(issues[i].htmlUrl)] + [""]
            == header + IssueBlocks(issues[..i + 1], now)
  {
    IssueBlocksStep(issues, now, i);
  }

  /** One turn of the pull-request loop: the four appended lines are the
      next pull request's block. */
  lemma PrLinesStep(header: seq<string>, lines: seq<string>, prs: seq<PullRequest>, i: nat)
    requires i < |prs|
    requires lines == header + PrBlocks(prs[..i])
    ensures lines + [HeadingLine(prs[i].number, prs[i].title)]
                  + [StatusLine(if IsMerged(prs[i]) then "merged" else "closed")]
                  + [UrlLine(prs[i].htmlUrl)] + [""]
            == header + PrBlocks(prs[..i + 1])
  {
    PrBlocksStep(prs, i);
  }

  /** The issue-alert body has 3 + 4n lines for n alert issues: the
      repository, the threshold, a blank line, then one four-line block per
      issue, in alert order. */
  lemma IssueAlertLinesShape(owner: string, name: string, thresholdDays: int, issues: seq<Issue>, now: Timestamp)
    ensures |IssueAlertLines(owner, name, thresholdDays, issues, now)| == 3 + 4 * |issues|
    ensures IssueAlertLines(owner, name, thresholdDays, issues, now)[..3] ==
              [RepositoryLine(owner, name), ThresholdLine(thresholdDays), ""]
    ensures forall k :: 0 <= k < |issues| ==>
              IssueAlertLines(owner, name, thresholdDays, issues, now)[3 + 4 * k..7 + 4 * k] == IssueBlock(issues[k], now)
  {
    var blocks := IssueBlocks(issues, now);
    IssueBlocksShape(issues, now);
    var lines := [RepositoryLine(owner, name), ThresholdLine(thresholdDays), ""] + blocks;
    forall k | 0 <= k < |issues| ensures lines[3 + 4 * k..7 + 4 * k] == IssueBlock(issues[k], now) {
      assert lines[3 + 4 * k..7 + 4 * k] == blocks[4 * k..4 * k + 4];
    }
  }

  /** One four-line block per pull request, in order. */
  lemma PrBlocksShape(prs: seq<PullRequest>)
    ensures |PrBlocks(prs)| == 4 * |prs|
    ensures forall k :: 0 <= k < |prs| ==> PrBlocks(prs)[4 * k..4 * k + 4] == PrBlock(prs[k])
  {
    Seqs.FlatMapLength(prs, PrBlock);
    forall k | 0 <= k < |prs| ensures PrBlocks(prs)[4 * k..4 * k + 4] == PrBlock(prs[k]) {
      Seqs.FlatMapAt(prs, PrBlock, k);
    }
  }

  /** The PR-notification body has 2 + 4n lines: the repository, a blank
      line, then one four-line block per pull request, in order. */
  lemma PrNotificationLinesShape(owner: string, name: string, prs: seq<PullRequest>)
    ensures |PrNotificationLines(owner, name, prs)| == 2 + 4 * |prs|
    ensures PrNotificationLines(owner, name, prs)[..2] == [RepositoryLine(owner, name), ""]
    ensures forall k :: 0 <= k < |prs| ==>
              PrNotificationLines(owner, name, prs)[2 + 4 * k..6 + 4 * k] == PrBlock(prs[k])
  {
    var blocks := PrBlocks(prs);
    PrBlocksShape(prs);
    var lines := [RepositoryLine(owner, name), ""] + blocks;
    forall k | 0 <= k < |prs| ensures lines[2 + 4 * k..6 + 4 * k] == PrBlock(prs[k]) {
      assert lines[2 + 4 * k..6 + 4 * k] == blocks[4 * k..4 * k + 4];
    }
  }

  /** The status word is "merged" exactly when the pull request carries a
      merge time, and "closed" otherwise; the block's second line shows it. */
  lemma PrStatusWord(pr: PullRequest)
    ensures PrStatus(pr) == "merged" <==> pr.mergedAt.Some?
    ensures PrStatus(pr) == "closed" <==> pr.mergedAt.None?
    ensures PrBlock(pr)[1] == StatusLine(PrStatus(pr))
  {
  }

  /** No line of the text contains a newline character. */
  predicate SingleLine(s: string) {
    '\n' !in s
  }

  /** The lines of one issue's block are single lines when its title and
      URL are. */
  lemma IssueBlockSingleLines(issue: Issue, now: Timestamp)
    requires SingleLine(issue.title) && SingleLine(issue.htmlUrl)
    ensures forall line :: line in IssueBlock(issue, now) ==> SingleLine(line)
  {
    Text.IntToStringSingleLine(issue.number);
    Text.IntToStringSingleLine(AgeDays(issue, now));
  }

  /** When the repository name, titles and URLs hold no newline, the joined
      issue-alert body splits back into exactly its lines, so it has
      3 + 4n lines for n alert issues. */
  lemma IssueAlertBodyLines(owner: string, name: string, thresholdDays: int, issues: seq<Issue>, now: Timestamp)
    requires SingleLine(owner) && SingleLine(name)
    requires forall k :: 0 <= k < |issues| ==> SingleLine(issues[k].title) && SingleLine(issues[k].htmlUrl)
    ensures Text.SplitLines(Text.JoinLines(IssueAlertLines(owner, name, thresholdDays, issues, now)))
            == IssueAlertLines(owner, name, thresholdDays, issues, now)
    ensures |Text.SplitLines(Text.JoinLines(IssueAlertLines(owner, name, thresholdDays, issues, now)))| == 3 + 4 * |issues|
  {
    var header := [RepositoryLine(owner, name), ThresholdLine(thresholdDays), ""];
    var blocks := IssueBlocks(issues, now);
    Text.IntToStringSingleLine(thresholdDays);
    forall i | 0 <= i < |issues| ensures forall line :: line in IssueBlock(issues[i], now) ==> SingleLine(line) {
      IssueBlockSingleLines(issues[i], now);
    }
    Seqs.FlatMapAll(issues, issue => IssueBlock(issue, now), SingleLine);
    Seqs.FlatMapLength(issues, issue => IssueBlock(issue, now));
    var lines := header + blocks;
    forall j | 0 <= j < |lines| ensures '\n' !in lines[j] {
      if j >= 3 {
        assert lines[j] == blocks[j - 3];
        assert lines[j] in blocks;
      }
    }
    Text.SplitJoinRoundTrip(lines);
  }

  /** The lines of one pull request's block are single lines when its
      title and URL are. */
  lemma PrBlockSingleLines(pr: PullRequest)
    requires SingleLine(pr.title) && SingleLine(pr.htmlUrl)
    ensures forall line :: line in PrBlock(pr) ==> SingleLine(line)
  {
    Text.IntToStringSingleLine(pr.number);
  }

  /** When the repository name, titles and URLs hold no newline, the joined
      PR-notification body splits back into exactly its lines, so it has
      2 + 4n lines for n pull requests. */
  lemma PrNotificationBodyLines(owner: string, name: string, prs: seq<PullRequest>)
    requires SingleLine(owner) && SingleLine(name)
    requires forall k :: 0 <= k < |prs| ==> SingleLine(prs[k].title) && SingleLine(prs[k].htmlUrl)
    ensures Text.SplitLines(Text.JoinLines(PrNotificationLines(owner, name, prs))) == PrNotificationLines(owner, name, prs)
    ensures |Text.SplitLines(Text.JoinLines(PrNotificationLines(owner, name, prs)))| == 2 + 4 * |prs|
  {
    var header := [RepositoryLine(owner, name), ""];
    var blocks := PrBlocks(prs);
    forall i | 0 <= i < |prs| ensures forall line :: line in PrBlock(prs[i]) ==> SingleLine(line) {
      PrBlockSingleLines(prs[i]);
    }
    Seqs.FlatMapAll(prs, PrBlock, SingleLine);
    Seqs.FlatMapLength(prs, PrBlock);
    var lines := header + blocks;
    forall j | 0 <= j < |lines| ensures '\n' !in lines[j] {
      if j >= 2 {
        assert lines[j] == blocks[j - 2];
        assert lines[j] in blocks;
      }
    }
    Text.SplitJoinRoundTrip(lines);
  }

  /** Compose the issue-alert lines with the source's loop of appends. */
  method ComposeIssueAlertLines(owner: string, name: string, thresholdDays: int,
                                issues: seq<Issue>, now: Timestamp)
    returns (bodyLines: seq<string>)
    ensures bodyLines == IssueAlertLines(owner, name, thresholdDays, issues, now)
  {
    bodyLines := [RepositoryLine(owner, name)];
    bodyLines := bodyLines + [ThresholdLine(thresholdDays)];
    bodyLines := bodyLines + [""];
    ghost var header := bodyLines;
    for i := 0 to |issues|
      invariant bodyLines == header + IssueBlocks(issues[..i], now)
    {
      var issue := issues[i];
      IssueLinesStep(header, bodyLines, issues, now, i);
      bodyLines := bodyLines + [HeadingLine(issue.number, issue.title)];
      bodyLines := bodyLines + [AgeLine(AgeDays(issue, now))];
      bodyLines := bodyLines + [UrlLine(issue.htmlUrl)];
      bodyLines := bodyLines + [""];
    }
    assert issues[..|issues|] == issues;
  }

  /** Compose the PR-notification lines with the source's loop of appends. */
  method ComposePrNotificationLines(owner: string, name: string, prs: seq<PullRequest>)
    returns (bodyLines: seq<string>)
    ensures bodyLines == PrNotificationLines(owner, name, prs)
  {
    bodyLines := [RepositoryLine(owner, name)];
    bodyLines := bodyLines + [""];
    ghost var header := bodyLines;
    for i := 0 to |prs|
      invariant bodyLines == header + PrBlocks(prs[..i])
    {
      var pr := prs[i];
      PrLinesStep(header, bodyLines, prs, i);
      var status := if IsMerged(pr) then "merged" else "closed";
      bodyLines := bodyLines + [HeadingLine(pr.number, pr.title)];
      bodyLines := bodyLines + [StatusLine(status)];
      bodyLines := bodyLines + [UrlLine(pr.htmlUrl)];
      bodyLines := bodyLines + [""];
    }
    assert prs[..|prs|] == prs;
  }

  /** The issue alert handed to the e-mail tool. */
  function IssueAlertMessage(recipients: seq<string>, owner: string, name: string, thresholdDays: int,
                             alertIssues: seq<Issue>, now: Timestamp): EmailMessage {
    EmailMessage(recipients, IssueAlertSubject(thresholdDays, name),
                 Text.JoinLines(IssueAlertLines(owner, name, thresholdDays, alertIssues, now)))
  }

  /** The pull-request notification handed to the e-mail tool. */
  function PrNotificationMessage(recipients: seq<string>, owner: string, name: string,
                                 prs: seq<PullRequest>): EmailMessage {
    EmailMessage(recipients, PrNotificationSubject(name), Text.JoinLines(PrNotificationLines(owner, name, prs)))
  }

  // ---------------------------------------------------------------------
  // The call into the e-mail tool

  /** The keyword parameters of the MCP client's `send_email`, in order;
      all but the last are required. */
  const SendEmailParameters: seq<string> := ["to", "subject", "body", "html_body"]
  const SendEmailRequired: seq<string> := ["to", "subject", "body"]

  /** The keywords the send stages pass as written, and the keywords the
      call needs. */
  const SendEmailKeywordsAsWritten: seq<string> := ["recipients", "subject", "body"]
  const SendEmailKeywords: seq<string> := ["to", "subject", "body"]

  /** Python's `TypeError` for a call whose keywords do not fit. */
  datatype CallError = UnexpectedKeyword(keyword: string) | MissingArgument(parameter: string)

  /** The first element of `xs` that is not in `ys`. */
  function FirstNotIn(xs: seq<string>, ys: seq<string>): (r: Option<string>)
    ensures r.None? <==> forall k :: 0 <= k < |xs| ==> xs[k] in ys
    ensures r.Some? ==> r.value in xs && r.value !in ys
  {
    if xs == [] then None
    else if xs[0] !in ys then Some(xs[0])
    else FirstNotIn(xs[1..], ys)
  }

  /** Binding keyword arguments to a function's parameters, as Python does:
      a keyword that names no parameter is rejected first, then a required
      parameter that no keyword supplies. */
  function BindKeywords(keywords: seq<string>, parameters: seq<string>, required: seq<string>): (r: Outcome<CallError>)
    ensures r.Pass? <==> (forall k :: 0 <= k < |keywords| ==> keywords[k] in parameters) &&
                         (forall q :: 0 <= q < |required| ==> required[q] in keywords)
    ensures r.Fail? && r.error.UnexpectedKeyword? ==> r.error.keyword in keywords && r.error.keyword !in parameters
  {
    match FirstNotIn(keywords, parameters)
    case Some(k) => Fail(UnexpectedKeyword(k))
    case None =>
      match FirstNotIn(required, keywords)
      case Some(q) => Fail(MissingArgument(q))
      case None => Pass
  }

  /** As written, both send stages call `send_email(recipients=...)`, which
      has no parameter of that name: the call raises before the tool runs,
      so no e-mail goes out and nothing is recorded. */
  lemma SendEmailAsWrittenRejected()
    ensures BindKeywords(SendEmailKeywordsAsWritten, SendEmailParameters, SendEmailRequired)
            == Fail(UnexpectedKeyword("recipients"))
  {
  }

  /** With `to=` in place of `recipients=` the call binds, which is the call
      the send stages of this model make. */
  lemma SendEmailCorrectedBinds()
    ensures BindKeywords(SendEmailKeywords, SendEmailParameters, SendEmailRequired) == Pass
  {
  }

  class MCPRepoMonitorWorkflow {
    /** `monitoring.pr_lookback_hours` from the configuration. */
    const prLookbackHours: int
    /** Whether `initialize` has attached a connected MCP client. */
    var clientReady: bool

    constructor (prLookbackHours: int)
      ensures this.prLookbackHours == prLookbackHours && !clientReady
    {
      this.prLookbackHours := prLookbackHours;
      this.clientReady := false;
    }

    /** Connect the MCP client (the connection itself is not modelled). */
    method Initialize()
      modifies this`clientReady
      ensures clientReady
    {
      clientReady := true;
    }

    /** Store what the MCP fetchers returned. They turn their own failures
        into empty lists, so a failed fetch arrives here as `[]`. Without a
        client the stage raises before touching the state. */
    method FetchData(state: MCPRepoMonitorState, issues: seq<Issue>, prs: seq<PullRequest>)
      returns (r: Outcome<WorkflowError>)
      modifies state`openIssues, state`recentPrs
      ensures r.Fail? <==> !clientReady
      ensures r.Fail? ==> r.error == ClientNotInitialized &&
                          state.openIssues == old(state.openIssues) && state.recentPrs == old(state.recentPrs)
      ensures r.Pass? ==> state.openIssues == issues && state.recentPrs == prs
    {
      if !clientReady {
        return Fail(ClientNotInitialized);
      }
      state.openIssues := issues;
      state.recentPrs := prs;
      r := Pass;
    }

    /** Select the issues whose age reaches the threshold and raise the
        alert flag exactly when there is one. */
    method AnalyzeIssues(state: MCPRepoMonitorState, now: Timestamp)
      modifies state`alertIssues, state`shouldSendIssueAlert
      ensures state.alertIssues == Evaluator.SelectStaleIssues(state.openIssues, state.issueThresholdDays, now)
      ensures state.shouldSendIssueAlert <==> state.alertIssues != []
    {
      var alertIssues := Evaluator.CollectAlertIssues(state.openIssues, state.issueThresholdDays, now);
      state.alertIssues := alertIssues;
      state.shouldSendIssueAlert := |alertIssues| > 0;
    }

    /** Select the merged or closed pull requests and raise the
        notification flag exactly when there is one. */
    method AnalyzePrs(state: MCPRepoMonitorState)
      modifies state`notificationPrs, state`shouldSendPrNotification
      ensures state.notificationPrs == Evaluator.SelectReportablePrs(state.recentPrs)
      ensures state.shouldSendPrNotification <==> state.notificationPrs != []
    {
      var notificationPrs := Evaluator.CollectNotificationPrs(state.recentPrs);
      state.notificationPrs := notificationPrs;
      state.shouldSendPrNotification := |notificationPrs| > 0;
    }

    /** The issue branch's router. */
    function ShouldSendIssueAlert(state: MCPRepoMonitorState): (route: string)
      reads state
      ensures route == "send_alert" <==> state.shouldSendIssueAlert
      ensures route == "skip" <==> !state.shouldSendIssueAlert
    {
      if state.shouldSendIssueAlert then "send_alert" else "skip"
    }

    /** The pull-request branch's router. */
    function ShouldSendPrNotification(state: MCPRepoMonitorState): (route: string)
      reads state
      ensures route == "send_notification" <==> state.shouldSendPrNotification
      ensures route == "skip" <==> !state.shouldSendPrNotification
    {
      if state.shouldSendPrNotification then "send_notification" else "skip"
    }

    /** Compose the plain-text alert and hand it to the e-mail tool with the
        call that binds (`SendEmailCorrectedBinds`); `delivered` is what the
        tool reports. Only a success is recorded. */
    method SendIssueAlert(state: MCPRepoMonitorState, delivered: bool, stamp: string, now: Timestamp)
      returns (r: Result<EmailMessage, WorkflowError>)
      modifies state`sentNotifications
      ensures r.Err? <==> !clientReady
      ensures r.Err? ==> r.error == ClientNotInitialized && state.sentNotifications == old(state.sentNotifications)
      ensures r.Ok? ==> r.value == IssueAlertMessage(state.emailRecipients, state.repoOwner, state.repoName,
                                                     state.issueThresholdDays, state.alertIssues, now)
      ensures r.Ok? ==> state.sentNotifications == old(state.sentNotifications) + Recorded(delivered, IssueAlertPrefix, stamp)
    {
      if !clientReady {
        return Err(ClientNotInitialized);
      }
      var subject := "[ALERT] Issues Open Beyond " + Text.IntToString(state.issueThresholdDays) + " Days - " + state.repoName;
      var bodyLines := ComposeIssueAlertLines(state.repoOwner, state.repoName, state.issueThresholdDays,
                                              state.alertIssues, now);
      var body := Text.JoinLines(bodyLines);
      r := Ok(EmailMessage(state.emailRecipients, subject, body));
      if delivered {
        state.sentNotifications := state.sentNotifications + [IssueAlertPrefix + stamp];
      }
    }

    /** Compose the plain-text PR notification and hand it to the e-mail
        tool with the call that binds; only a success is recorded. */
    method SendPrNotification(state: MCPRepoMonitorState, delivered: bool, stamp: string)
      returns (r: Result<EmailMessage, WorkflowError>)
      modifies state`sentNotifications
      ensures r.Err? <==> !clientReady
      ensures r.Err? ==> r.error == ClientNotInitialized && state.sentNotifications == old(state.sentNotifications)
      ensures r.Ok? ==> r.value == PrNotificationMessage(state.emailRecipients, state.repoOwner, state.repoName,
                                                         state.notificationPrs)
      ensures r.Ok? ==> state.sentNotifications == old(state.sentNotifications) + Recorded(delivered, PrNotificationPrefix, stamp)
    {
      if !clientReady {
        return Err(ClientNotInitialized);
      }
      var subject := "[UPDATE] Pull Requests Processed - " + state.repoName;
      var bodyLines := ComposePrNotificationLines(state.repoOwner, state.repoName, state.notificationPrs);
      var body := Text.JoinLines(bodyLines);
      r := Ok(EmailMessage(state.emailRecipients, subject, body));
      if delivered {
        state.sentNotifications := state.sentNotifications + [PrNotificationPrefix + stamp];
      }
    }

    /** The join stage: stamp the last e-mail time if any notification is
        on record and clear the per-cycle decisions. */
    method UpdateState(state: MCPRepoMonitorState, now: Timestamp)
      modifies state`lastEmailSent, state`shouldSendIssueAlert, state`shouldSendPrNotification,
               state`alertIssues, state`notificationPrs
      ensures state.View() == Finalize(old(state.View()), now)
    {
      if |state.sentNotifications| > 0 {
        state.lastEmailSent := Some(now);
      }
      state.shouldSendIssueAlert := false;
      state.shouldSendPrNotification := false;
      state.alertIssues := [];
      state.notificationPrs := [];
    }

    /** The conditional edge after `analyze_issues`: send the alert when
        the router says "send_alert", otherwise go straight on. */
    method FollowIssueRoute(state: MCPRepoMonitorState, delivered: bool, stamp: string, now: Timestamp)
      returns (mail: Option<EmailMessage>)
      requires clientReady
      modifies state`sentNotifications
      ensures mail.Some? <==> state.shouldSendIssueAlert
      ensures mail.Some? ==> mail.value == IssueAlertMessage(state.emailRecipients, state.repoOwner, state.repoName,
                                                             state.issueThresholdDays, state.alertIssues, now)
      ensures state.sentNotifications == old(state.sentNotifications) + Recorded(mail.Some? && delivered, IssueAlertPrefix, stamp)
    {
      mail := None;
      if ShouldSendIssueAlert(state) == "send_alert" {
        var sent := SendIssueAlert(state, delivered, stamp, now);
        mail := Some(sent.value);
      }
    }

    /** The conditional edge after `analyze_prs`: send the notification
        when the router says "send_notification", otherwise go straight on. */
    method FollowPrRoute(state: MCPRepoMonitorState, delivered: bool, stamp: string)
      returns (mail: Option<EmailMessage>)
      requires clientReady
      modifies state`sentNotifications
      ensures mail.Some? <==> state.shouldSendPrNotification
      ensures mail.Some? ==> mail.value == PrNotificationMessage(state.emailRecipients, state.repoOwner, state.repoName,
                                                                 state.notificationPrs)
      ensures state.sentNotifications == old(state.sentNotifications) + Recorded(mail.Some? && delivered, PrNotificationPrefix, stamp)
    {
      mail := None;
      if ShouldSendPrNotification(state) == "send_notification" {
        var sent := SendPrNotification(state, delivered, stamp);
        mail := Some(sent.value);
      }
    }

    /** The two conditional edges and the join: send what the analysis
        stages decided, then stamp and reset. */
    method NotifyAndJoin(state: MCPRepoMonitorState, now: Timestamp,
                         issueDelivered: bool, prDelivered: bool, issueStamp: string, prStamp: string)
      returns (issueMail: Option<EmailMessage>, prMail: Option<EmailMessage>)
      requires clientReady
      modifies state`alertIssues, state`notificationPrs, state`shouldSendIssueAlert,
               state`shouldSendPrNotification, state`sentNotifications, state`lastEmailSent
      ensures issueMail.Some? <==> old(state.shouldSendIssueAlert)
      ensures prMail.Some? <==> old(state.shouldSendPrNotification)
      ensures issueMail.Some? ==>
                issueMail.value == IssueAlertMessage(state.emailRecipients, state.repoOwner, state.repoName,
                                                     state.issueThresholdDays, old(state.alertIssues), now)
      ensures prMail.Some? ==>
                prMail.value == PrNotificationMessage(state.emailRecipients, state.repoOwner, state.repoName,
                                                      old(state.notificationPrs))
      ensures state.sentNotifications ==
                old(state.sentNotifications)
                + Recorded(issueMail.Some? && issueDelivered, IssueAlertPrefix, issueStamp)
                + Recorded(prMail.Some? && prDelivered, PrNotificationPrefix, prStamp)
      ensures !state.shouldSendIssueAlert && !state.shouldSendPrNotification
      ensures state.alertIssues == [] && state.notificationPrs == []
      ensures state.lastEmailSent == if state.sentNotifications != [] then Some(now) else old(state.lastEmailSent)
    {
      issueMail := FollowIssueRoute(state, issueDelivered, issueStamp, now);
      prMail := FollowPrRoute(state, prDelivered, prStamp);
      ghost var beforeJoin := state.View();
      UpdateState(state, now);
      assert state.lastEmailSent == Finalize(beforeJoin, now).lastEmailSent;
    }

    /** One pass of the compiled graph with a connected client: fetch,
        analyse both lists, follow each conditional edge, then the single
        join. The e-mails handed to the tool are returned. */
    method Invoke(state: MCPRepoMonitorState, issues: seq<Issue>, prs: seq<PullRequest>, now: Timestamp,
                  issueDelivered: bool, prDelivered: bool, issueStamp: string, prStamp: string)
      returns (issueMail: Option<EmailMessage>, prMail: Option<EmailMessage>)
      requires clientReady
      modifies state`openIssues, state`recentPrs,
               state`alertIssues, state`notificationPrs, state`shouldSendIssueAlert,
               state`shouldSendPrNotification, state`sentNotifications, state`lastEmailSent
      ensures state.openIssues == issues && state.recentPrs == prs
      ensures issueMail.Some? <==> Evaluator.SelectStaleIssues(issues, state.issueThresholdDays, now) != []
      ensures prMail.Some? <==> Evaluator.SelectReportablePrs(prs) != []
      ensures issueMail.Some? ==>
                issueMail.value == IssueAlertMessage(state.emailRecipients, state.repoOwner, state.repoName, state.issueThresholdDays,
                                                     Evaluator.SelectStaleIssues(issues, state.issueThresholdDays, now), now)
      ensures prMail.Some? ==>
                prMail.value == PrNotificationMessage(state.emailRecipients, state.repoOwner, state.repoName,
                                                      Evaluator.SelectReportablePrs(prs))
      ensures state.sentNotifications ==
                old(state.sentNotifications)
                + Recorded(issueMail.Some? && issueDelivered, IssueAlertPrefix, issueStamp)
                + Recorded(prMail.Some? && prDelivered, PrNotificationPrefix, prStamp)
      ensures !state.shouldSendIssueAlert && !state.shouldSendPrNotification
      ensures state.alertIssues == [] && state.notificationPrs == []
      ensures state.lastEmailSent == if state.sentNotifications != [] then Some(now) else old(state.lastEmailSent)
    {
      var fetched := FetchData(state, issues, prs);
      AnalyzeIssues(state, now);
      AnalyzePrs(state);
      issueMail, prMail := NotifyAndJoin(state, now, issueDelivered, prDelivered, issueStamp, prStamp);
    }

    /** `run`: initialise the client if needed, attach it to the state, then
        one cycle with a single join. The e-mails handed to the tool are
        returned. */
    method Run(state: MCPRepoMonitorState, issues: seq<Issue>, prs: seq<PullRequest>, now: Timestamp,
               issueDelivered: bool, prDelivered: bool, issueStamp: string, prStamp: string)
      returns (issueMail: Option<EmailMessage>, prMail: Option<EmailMessage>)
      modifies this`clientReady, state`mcpClient, state`openIssues, state`recentPrs,
               state`alertIssues, state`notificationPrs, state`shouldSendIssueAlert,
               state`shouldSendPrNotification, state`sentNotifications, state`lastEmailSent
      ensures clientReady && state.mcpClient
      ensures state.openIssues == issues && state.recentPrs == prs
      ensures issueMail.Some? <==> Evaluator.SelectStaleIssues(issues, state.issueThresholdDays, now) != []
      ensures prMail.Some? <==> Evaluator.SelectReportablePrs(prs) != []
      ensures issueMail.Some? ==>
                issueMail.value == IssueAlertMessage(state.emailRecipients, state.repoOwner, state.repoName, state.issueThresholdDays,
                                                     Evaluator.SelectStaleIssues(issues, state.issueThresholdDays, now), now)
      ensures prMail.Some? ==>
                prMail.value == PrNotificationMessage(state.emailRecipients, state.repoOwner, state.repoName,
                                                      Evaluator.SelectReportablePrs(prs))
      ensures state.sentNotifications ==
                old(state.sentNotifications)
                + Recorded(issueMail.Some? && issueDelivered, IssueAlertPrefix, issueStamp)
                + Recorded(prMail.Some? && prDelivered, PrNotificationPrefix, prStamp)
      ensures !state.shouldSendIssueAlert && !state.shouldSendPrNotification
      ensures state.alertIssues == [] && state.notificationPrs == []
      ensures state.lastEmailSent == if state.sentNotifications != [] then Some(now) else old(state.lastEmailSent)
    {
      if !clientReady {
        Initialize();
      }
      state.mcpClient := true;
      issueMail, prMail := Invoke(state, issues, prs, now, issueDelivered, prDelivered, issueStamp, prStamp);
    }
  }
}
