/** The MCP variant's monitor state. Its issue and pull-request records
    have the same fields, age and merge rules as the direct variant's, so
    they are the records of `State`. */
module McpState {
  import opened Wrappers
  import opened State

  class MCPRepoMonitorState {
    var repoOwner: string
    var repoName: string
    var issueThresholdDays: int
    var emailRecipients: seq<string>
    var openIssues: seq<Issue>
    var recentPrs: seq<PullRequest>
    var lastEmailSent: Option<Timestamp>
    var sentNotifications: seq<string>
    var shouldSendIssueAlert: bool
    var shouldSendPrNotification: bool
    var alertIssues: seq<Issue>
    var notificationPrs: seq<PullRequest>
    /** Whether an MCP client has been attached to the state. */
    var mcpClient: bool

    /** A fresh state: the repository identity is required; every other
        field takes the record's default, and no client is attached. */
    constructor (repoOwner: string, repoName: string,
                 issueThresholdDays: int := 7, emailRecipients: seq<string> := [])
      ensures this.repoOwner == repoOwner && this.repoName == repoName
      ensures this.issueThresholdDays == issueThresholdDays
      ensures this.emailRecipients == emailRecipients
      ensures !mcpClient
      ensures View() == CycleView([], [], None, [], false, false, [], [])
    {
      this.repoOwner := repoOwner;
      this.repoName := repoName;
      this.issueThresholdDays := issueThresholdDays;
      this.emailRecipients := emailRecipients;
      this.openIssues := [];
      this.recentPrs := [];
      this.lastEmailSent := None;
      this.sentNotifications := [];
      this.shouldSendIssueAlert := false;
      this.shouldSendPrNotification := false;
      this.alertIssues := [];
      this.notificationPrs := [];
      this.mcpClient := false;
    }

    /** The workflow-visible part of this state. */
    function View(): CycleView
      reads this
    {
      CycleView(openIssues, recentPrs, lastEmailSent, sentNotifications,
                shouldSendIssueAlert, shouldSendPrNotification, alertIssues, notificationPrs)
    }
  }
}
