/** The direct monitoring workflow: the stages of one cycle over a
    `RepoMonitorState`, with the GitHub API and the e-mail service
    abstracted into the data they return. */
module Workflow {
  import opened Wrappers
  import opened State
  import Seqs
  import Evaluator
  import GitHubClient

  /** The repository could not be reached or the token was rejected. */
  datatype FetchError = SourceUnavailable

  /** The arguments the issue-alert stage hands to the e-mail service. */
  datatype IssueAlertCall = IssueAlertCall(
    recipients: seq<string>, issues: seq<Issue>, repoName: string, repoUrl: string, thresholdDays: int)

  /** The arguments the PR-notification stage hands to the e-mail service. */
  datatype PrNotificationCall = PrNotificationCall(
    recipients: seq<string>, prs: seq<PullRequest>, repoName: string, repoUrl: string)

  /** The repository's page on GitHub. */
  function RepoUrl(owner: string, name: string): (url: string)
    ensures |url| == 20 + |owner| + |name|
    ensures url[..19] == "https://github.com/" && url[19..19 + |owner|] == owner
    ensures url[19 + |owner|] == '/' && url[20 + |owner|..] == name
  {
    "https://github.com/" + owner + "/" + name
  }

  /** The issues this cycle alerts about, from the fetched issues. */
  function StaleIssues(state: RepoMonitorState, now: Timestamp): seq<Issue>
    reads state
  {
    Evaluator.SelectStaleIssues(state.openIssues, state.issueThresholdDays, now)
  }

  /** The pull requests this cycle notifies about, from the fetched ones. */
  function ReportablePrs(state: RepoMonitorState): seq<PullRequest>
    reads state
  {
    Evaluator.SelectReportablePrs(state.recentPrs)
  }

  class RepoMonitorWorkflow {
    /** `monitoring.pr_lookback_hours` from the configuration. */
    const prLookbackHours: int

    constructor (prLookbackHours: int)
      ensures this.prLookbackHours == prLookbackHours
    {
      this.prLookbackHours := prLookbackHours;
    }

    /** Fetch open issues, then recent pull requests. `None` for a page
        means the API call raised; the issues are stored before the pull
        requests are requested, so a failure there keeps the new issues. */
    method FetchData(state: RepoMonitorState, issuePage: Option<seq<GitHubClient.GhIssue>>,
                     pullPage: Option<seq<GitHubClient.GhPull>>, now: Timestamp)
      returns (r: Outcome<FetchError>)
      modifies state`openIssues, state`recentPrs
      ensures r.Pass? <==> issuePage.Some? && pullPage.Some?
      ensures r.Fail? ==> r.error == SourceUnavailable && state.recentPrs == old(state.recentPrs)
      ensures state.openIssues ==
                if issuePage.Some? then Seqs.MapSeq(issuePage.value, GitHubClient.ToIssue) else old(state.openIssues)
      ensures r.Pass? ==>
                state.recentPrs == GitHubClient.RecentPrs(pullPage.value, GitHubClient.LookbackStart(now, prLookbackHours))
    {
      if issuePage.None? {
        return Fail(SourceUnavailable);
      }
      var issues := GitHubClient.GetOpenIssues(issuePage.value);
      state.openIssues := issues;
      if pullPage.None? {
        return Fail(SourceUnavailable);
      }
      var prs := GitHubClient.GetRecentPrs(pullPage.value, now, prLookbackHours);
      state.recentPrs := prs;
      r := Pass;
    }

    /** Select the issues whose age reaches the threshold and raise the
        alert flag exactly when there is one. */
    method AnalyzeIssues(state: RepoMonitorState, now: Timestamp)
      modifies state`alertIssues, state`shouldSendIssueAlert
      ensures state.alertIssues == Evaluator.SelectStaleIssues(state.openIssues, state.issueThresholdDays, now)
      ensures state.shouldSendIssueAlert <==> state.alertIssues != []
    {
      var alertIssues := Evaluator.CollectAlertIssues(state.openIssues, state.issueThresholdDays, now);
      state.alertIssues := alertIssues;
      state.shouldSendIssueAlert := |alertIssues| > 0;
    }

    /** Select the merged or closed pull requests and raise the
        notification flag exactly when there is one. */
    method AnalyzePrs(state: RepoMonitorState)
      modifies state`notificationPrs, state`shouldSendPrNotification
      ensures state.notificationPrs == Evaluator.SelectReportablePrs(state.recentPrs)
      ensures state.shouldSendPrNotification <==> state.notificationPrs != []
    {
      var notificationPrs := Evaluator.CollectNotificationPrs(state.recentPrs);
      state.notificationPrs := notificationPrs;
      state.shouldSendPrNotification := |notificationPrs| > 0;
    }

    /** The issue branch's router. */
    function ShouldSendIssueAlert(state: RepoMonitorState): (route: string)
      reads state
      ensures route == "send_alert" <==> state.shouldSendIssueAlert
      ensures route == "skip" <==> !state.shouldSendIssueAlert
    {
      if state.shouldSendIssueAlert then "send_alert" else "skip"
    }

    /** The pull-request branch's router. */
    function ShouldSendPrNotification(state: RepoMonitorState): (route: string)
      reads state
      ensures route == "send_notification" <==> state.shouldSendPrNotification
      ensures route == "skip" <==> !state.shouldSendPrNotification
    {
      if state.shouldSendPrNotification then "send_notification" else "skip"
    }

    /** Hand the alert list to the e-mail service; `delivered` is what the
        service reports. Only a success is recorded, and nothing else in
        the state changes. */
    method SendIssueAlert(state: RepoMonitorState, delivered: bool, stamp: string)
      returns (call: IssueAlertCall)
      modifies state`sentNotifications
      ensures call == IssueAlertCall(state.emailRecipients, state.alertIssues, state.repoName,
                                     RepoUrl(state.repoOwner, state.repoName), state.issueThresholdDays)
      ensures state.sentNotifications == old(state.sentNotifications) + Recorded(delivered, IssueAlertPrefix, stamp)
    {
      var repoUrl := "https://github.com/" + state.repoOwner + "/" + state.repoName;
      call := IssueAlertCall(state.emailRecipients, state.alertIssues, state.repoName, repoUrl, state.issueThresholdDays);
      if delivered {
        state.sentNotifications := state.sentNotifications + [IssueAlertPrefix + stamp];
      }
    }

    /** Hand the notification list to the e-mail service; only a success is
        recorded. */
    method SendPrNotification(state: RepoMonitorState, delivered: bool, stamp: string)
      returns (call: PrNotificationCall)
      modifies state`sentNotifications
      ensures call == PrNotificationCall(state.emailRecipients, state.notificationPrs, state.repoName,
                                         RepoUrl(state.repoOwner, state.repoName))
      ensures state.sentNotifications == old(state.sentNotifications) + Recorded(delivered, PrNotificationPrefix, stamp)
    {
      var repoUrl := "https://github.com/" + state.repoOwner + "/" + state.repoName;
      call := PrNotificationCall(state.emailRecipients, state.notificationPrs, state.repoName, repoUrl);
      if delivered {
        state.sentNotifications := state.sentNotifications + [PrNotificationPrefix + stamp];
      }
    }

    /** The join stage: stamp the last e-mail time if any notification is
        on record and clear the per-cycle decisions. */
    method UpdateState(state: RepoMonitorState, now: Timestamp)
      modifies state`lastEmailSent, state`shouldSendIssueAlert, state`shouldSendPrNotification,
               state`alertIssues, state`notificationPrs
      ensures state.View() == Finalize(old(state.View()), now)
    {
      if |state.sentNotifications| > 0 {
        state.lastEmailSent := Some(now);
      }
      state.shouldSendIssueAlert := false;
      state.shouldSendPrNotification := false;
      state.alertIssues := [];
      state.notificationPrs := [];
    }

    /** The conditional edge after `analyze_issues`: send the alert when
        the router says "send_alert", otherwise go straight on. */
    method FollowIssueRoute(state: RepoMonitorState, delivered: bool, stamp: string)
      returns (call: Option<IssueAlertCall>)
      modifies state`sentNotifications
      ensures call.Some? <==> state.shouldSendIssueAlert
      ensures call.Some? ==> call.value.issues == state.alertIssues
      ensures state.sentNotifications == old(state.sentNotifications) + Recorded(call.Some? && delivered, IssueAlertPrefix, stamp)
    {
      call := None;
      if ShouldSendIssueAlert(state) == "send_alert" {
        var sent := SendIssueAlert(state, delivered, stamp);
        call := Some(sent);
      }
    }

    /** The conditional edge after `analyze_prs`: send the notification
        when the router says "send_notification", otherwise go straight on. */
    method FollowPrRoute(state: RepoMonitorState, delivered: bool, stamp: string)
      returns (call: Option<PrNotificationCall>)
      modifies state`sentNotifications
      ensures call.Some? <==> state.shouldSendPrNotification
      ensures call.Some? ==> call.value.prs == state.notificationPrs
      ensures state.sentNotifications == old(state.sentNotifications) + Recorded(call.Some? && delivered, PrNotificationPrefix, stamp)
    {
      call := None;
      if ShouldSendPrNotification(state) == "send_notification" {
        var sent := SendPrNotification(state, delivered, stamp);
        call := Some(sent);
      }
    }

    /** The two conditional edges and the join: send what the analysis
        stages decided, then stamp and reset. */
    method NotifyAndJoin(state: RepoMonitorState, now: Timestamp,
                         issueDelivered: bool, prDelivered: bool, issueStamp: string, prStamp: string)
      returns (issueCall: Option<IssueAlertCall>, prCall: Option<PrNotificationCall>)
      modifies state`alertIssues, state`notificationPrs, state`shouldSendIssueAlert,
               state`shouldSendPrNotification, state`sentNotifications, state`lastEmailSent
      ensures issueCall.Some? <==> old(state.shouldSendIssueAlert)
      ensures prCall.Some? <==> old(state.shouldSendPrNotification)
      ensures issueCall.Some? ==> issueCall.value.issues == old(state.alertIssues)
      ensures prCall.Some? ==> prCall.value.prs == old(state.notificationPrs)
      ensures state.sentNotifications ==
                old(state.sentNotifications)
                + Recorded(issueCall.Some? && issueDelivered, IssueAlertPrefix, issueStamp)
                + Recorded(prCall.Some? && prDelivered, PrNotificationPrefix, prStamp)
      ensures !state.shouldSendIssueAlert && !state.shouldSendPrNotification
      ensures state.alertIssues == [] && state.notificationPrs == []
      ensures state.lastEmailSent == if state.sentNotifications != [] then Some(now) else old(state.lastEmailSent)
    {
      issueCall := FollowIssueRoute(state, issueDelivered, issueStamp);
      prCall := FollowPrRoute(state, prDelivered, prStamp);
      ghost var beforeJoin := state.View();
      UpdateState(state, now);
      assert state.lastEmailSent == Finalize(beforeJoin, now).lastEmailSent;
    }

    /** One monitoring cycle: fetch, analyse both kinds, send where the
        routers say so, and finalise once. A fetch failure ends the cycle
        before any analysis or send. The calls handed to the e-mail service
        are returned. */
    method RunCycle(state: RepoMonitorState,
                    issuePage: Option<seq<GitHubClient.GhIssue>>, pullPage: Option<seq<GitHubClient.GhPull>>,
                    now: Timestamp, issueDelivered: bool, prDelivered: bool, issueStamp: string, prStamp: string)
      returns (r: Outcome<FetchError>, issueCall: Option<IssueAlertCall>, prCall: Option<PrNotificationCall>)
      modifies state`openIssues, state`recentPrs, state`alertIssues, state`notificationPrs,
               state`shouldSendIssueAlert, state`shouldSendPrNotification, state`sentNotifications, state`lastEmailSent
      ensures r.Pass? <==> issuePage.Some? && pullPage.Some?
      ensures r.Fail? ==> issueCall.None? && prCall.None?
      ensures r.Fail? ==> r.error == SourceUnavailable &&
                          state.sentNotifications == old(state.sentNotifications) &&
                          state.lastEmailSent == old(state.lastEmailSent) &&
                          state.alertIssues == old(state.alertIssues) &&
                          state.notificationPrs == old(state.notificationPrs) &&
                          state.shouldSendIssueAlert == old(state.shouldSendIssueAlert) &&
                          state.shouldSendPrNotification == old(state.shouldSendPrNotification) &&
                          state.recentPrs == old(state.recentPrs)
      ensures r.Fail? ==>
                state.openIssues ==
                  if issuePage.Some? then Seqs.MapSeq(issuePage.value, GitHubClient.ToIssue) else old(state.openIssues)
      ensures r.Pass? ==> state.openIssues == Seqs.MapSeq(issuePage.value, GitHubClient.ToIssue)
      ensures r.Pass? ==>
                state.recentPrs == GitHubClient.RecentPrs(pullPage.value, GitHubClient.LookbackStart(now, prLookbackHours))
      ensures r.Pass? ==>
                (issueCall.Some? <==> StaleIssues(state, now) != []) &&
                (issueCall.Some? ==> issueCall.value.issues == StaleIssues(state, now))
      ensures r.Pass? ==>
                (prCall.Some? <==> ReportablePrs(state) != []) &&
                (prCall.Some? ==> prCall.value.prs == ReportablePrs(state))
      ensures r.Pass? ==>
                state.sentNotifications ==
                  old(state.sentNotifications)
                  + Recorded(StaleIssues(state, now) != [] && issueDelivered, IssueAlertPrefix, issueStamp)
                  + Recorded(ReportablePrs(state) != [] && prDelivered, PrNotificationPrefix, prStamp)
      ensures r.Pass? ==>
                !state.shouldSendIssueAlert && !state.shouldSendPrNotification &&
                state.alertIssues == [] && state.notificationPrs == []
      ensures r.Pass? ==>
                state.lastEmailSent == if state.sentNotifications != [] then Some(now) else old(state.lastEmailSent)
    {
      issueCall, prCall := None, None;
      r := FetchData(state, issuePage, pullPage, now);
      if r.Fail? {
        return;
      }
      AnalyzeIssues(state, now);
      AnalyzePrs(state);
      ghost var alerts := state.alertIssues;
      ghost var reportable := state.notificationPrs;
      assert alerts == StaleIssues(state, now) && reportable == ReportablePrs(state);
      issueCall, prCall := NotifyAndJoin(state, now, issueDelivered, prDelivered, issueStamp, prStamp);
      assert StaleIssues(state, now) == alerts && ReportablePrs(state) == reportable;
      assert issueCall.Some? <==> alerts != [];
      assert prCall.Some? <==> reportable != [];
    }
  }
}
