/** The monitor's domain model: the issue and pull-request records, their
    derived properties, and the mutable per-repository monitor state that
    the workflow threads through its stages. */
module State {
  import opened Wrappers

  /** A point in time, in whole seconds on a fixed clock. */
  type Timestamp = int

  const SecondsPerDay: int := 86400

  datatype Label = Label(name: string, color: string)

  datatype Assignee = Assignee(login: string, avatarUrl: string)

  /** An open issue as fetched. */
  datatype Issue = Issue(
    number: int,
    title: string,
    state: string,
    createdAt: Timestamp,
    updatedAt: Timestamp,
    htmlUrl: string,
    labels: seq<Label> := [],
    assignees: seq<Assignee> := [])

  /** A pull request touched within the lookback window. */
  datatype PullRequest = PullRequest(
    number: int,
    title: string,
    state: string,
    mergedAt: Option<Timestamp>,
    closedAt: Option<Timestamp>,
    htmlUrl: string,
    labels: seq<Label> := [],
    assignees: seq<Assignee> := [])

  /** Whole days from the issue's creation to `now`, rounded down, as
      `timedelta.days` gives them (also for an issue created after `now`). */
  function AgeDays(issue: Issue, now: Timestamp): (d: int)
    ensures d * 86400 <= now - issue.createdAt < d * 86400 + 86400
  {
    (now - issue.createdAt) / SecondsPerDay
  }

  /** An issue's age never goes down as time moves forward. */
  lemma AgeDaysMonotone(issue: Issue, earlier: Timestamp, later: Timestamp)
    requires earlier <= later
    ensures AgeDays(issue, earlier) <= AgeDays(issue, later)
  {
  }

  /** Exactly `n` whole days after creation the issue is `n` days old. */
  lemma AgeDaysAfterWholeDays(issue: Issue, n: int)
    ensures AgeDays(issue, issue.createdAt + n * SecondsPerDay) == n
  {
  }

  /** A pull request is merged exactly when it carries a merge time. */
  predicate IsMerged(pr: PullRequest)
    ensures IsMerged(pr) <==> pr.mergedAt.Some?
  {
    pr.mergedAt.Some?
  }

  /** Prefixes of the identifiers the send stages append to the
      notification history. */
  const IssueAlertPrefix: string := "issue_alert_"
  const PrNotificationPrefix: string := "pr_notification_"

  /** What a send stage appends to the history: one identifier, its
      prefix followed by the ISO time text `stamp`, when the e-mail service
      reported success, and nothing otherwise. */
  function Recorded(delivered: bool, prefix: string, stamp: string): (r: seq<string>)
    ensures |r| == (if delivered then 1 else 0)
  {
    if delivered then [prefix + stamp] else []
  }

  /** A recorded identifier starts with the stage's prefix and ends with
      the time text. */
  lemma RecordedIdentifier(prefix: string, stamp: string)
    ensures var r := Recorded(true, prefix, stamp);
            |r[0]| == |prefix| + |stamp| && r[0][..|prefix|] == prefix && r[0][|prefix|..] == stamp
  {
  }

  /** An issue-alert identifier never equals a PR-notification identifier,
      whatever the time texts: the history tells the two kinds apart. */
  lemma {:induction false} RecordedKindsDiffer(issueStamp: string, prStamp: string)
    ensures Recorded(true, IssueAlertPrefix, issueStamp)[0] != Recorded(true, PrNotificationPrefix, prStamp)[0]
  {
    assert Recorded(true, IssueAlertPrefix, issueStamp)[0][0] == 'i';
    assert Recorded(true, PrNotificationPrefix, prStamp)[0][0] == 'p';
  }

  /** The part of the monitor state that the workflow stages read and
      write, common to both state records. */
  datatype CycleView = CycleView(
    openIssues: seq<Issue>,
    recentPrs: seq<PullRequest>,
    lastEmailSent: Option<Timestamp>,
    sentNotifications: seq<string>,
    shouldSendIssueAlert: bool,
    shouldSendPrNotification: bool,
    alertIssues: seq<Issue>,
    notificationPrs: seq<PullRequest>)

  /** What the finalising stage does to the view: stamp the last e-mail
      time when any notification has ever been recorded, clear the
      per-cycle decisions, and keep everything else. */
  function Finalize(v: CycleView, now: Timestamp): (r: CycleView)
    ensures !r.shouldSendIssueAlert && !r.shouldSendPrNotification
    ensures r.alertIssues == [] && r.notificationPrs == []
    ensures r.openIssues == v.openIssues && r.recentPrs == v.recentPrs
    ensures r.sentNotifications == v.sentNotifications
    ensures r.lastEmailSent == if v.sentNotifications != [] then Some(now) else v.lastEmailSent
  {
    v.(lastEmailSent := if v.sentNotifications != [] then Some(now) else v.lastEmailSent,
       shouldSendIssueAlert := false,
       shouldSendPrNotification := false,
       alertIssues := [],
       notificationPrs := [])
  }

  /** Finalising twice at the same instant is finalising once, so a second
      entry into the join stage changes nothing. */
  lemma FinalizeIdempotent(v: CycleView, now: Timestamp)
    ensures Finalize(Finalize(v, now), now) == Finalize(v, now)
  {
  }

  /** The last e-mail time follows the whole notification history, not this
      cycle's sends: with earlier notifications on record, finalising
      stamps `now` even when nothing was sent in the cycle. */
  lemma FinalizeStampsOnHistory(v: CycleView, now: Timestamp)
    requires v.sentNotifications != []
    ensures Finalize(v, now).lastEmailSent == Some(now)
  {
  }

  /** A cycle that has never recorded a notification leaves the last
      e-mail time as it was. */
  lemma FinalizeWithoutNotifications(v: CycleView, now: Timestamp)
    requires v.sentNotifications == []
    ensures Finalize(v, now).lastEmailSent == v.lastEmailSent
    ensures Finalize(v, now).sentNotifications == []
  {
  }

  /** The direct (GitHub API + SMTP) monitor state. */
  class RepoMonitorState {
    var repoOwner: string
    var repoName: string
    var githubToken: string
    var issueThresholdDays: int
    var emailRecipients: seq<string>
    var openIssues: seq<Issue>
    var recentPrs: seq<PullRequest>
    var lastEmailSent: Option<Timestamp>
    var sentNotifications: seq<string>
    var smtpHost: string
    var smtpPort: int
    var emailUsername: string
    var emailPassword: string
    var shouldSendIssueAlert: bool
    var shouldSendPrNotification: bool
    var alertIssues: seq<Issue>
    var notificationPrs: seq<PullRequest>

    /** A fresh state: the repository identity is required; every other
        field takes the record's default. */
    constructor (repoOwner: string, repoName: string, githubToken: string,
                 issueThresholdDays: int := 7, emailRecipients: seq<string> := [],
                 smtpHost: string := "smtp.gmail.com", smtpPort: int := 587,
                 emailUsername: string := "", emailPassword: string := "")
      ensures this.repoOwner == repoOwner && this.repoName == repoName
      ensures this.githubToken == githubToken
      ensures this.issueThresholdDays == issueThresholdDays
      ensures this.emailRecipients == emailRecipients
      ensures this.smtpHost == smtpHost && this.smtpPort == smtpPort
      ensures this.emailUsername == emailUsername && this.emailPassword == emailPassword
      ensures View() == CycleView([], [], None, [], false, false, [], [])
    {
      this.repoOwner := repoOwner;
      this.repoName := repoName;
      this.githubToken := githubToken;
      this.issueThresholdDays := issueThresholdDays;
      this.emailRecipients := emailRecipients;
      this.openIssues := [];
      this.recentPrs := [];
      this.lastEmailSent := None;
      this.sentNotifications := [];
      this.smtpHost := smtpHost;
      this.smtpPort := smtpPort;
      this.emailUsername := emailUsername;
      this.emailPassword := emailPassword;
      this.shouldSendIssueAlert := false;
      this.shouldSendPrNotification := false;
      this.alertIssues := [];
      this.notificationPrs := [];
    }

    /** The workflow-visible part of this state. */
    function View(): CycleView
      reads this
    {
      CycleView(openIssues, recentPrs, lastEmailSent, sentNotifications,
                shouldSendIssueAlert, shouldSendPrNotification, alertIssues, notificationPrs)
    }
  }
}
