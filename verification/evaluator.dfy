/** The threshold rules both workflow variants apply in their analysis
    stages: which open issues are stale and which pull requests are worth
    reporting. */
module Evaluator {
  import opened Wrappers
  import opened State
  import Seqs

  /** An issue is stale when its age in days reaches the threshold; the
      boundary is inclusive. */
  predicate IsStale(issue: Issue, thresholdDays: int, now: Timestamp)
    ensures IsStale(issue, thresholdDays, now) <==> now - issue.createdAt >= thresholdDays * SecondsPerDay
  {
    AgeDays(issue, now) >= thresholdDays
  }

  function StaleTest(thresholdDays: int, now: Timestamp): Issue -> bool {
    issue => IsStale(issue, thresholdDays, now)
  }

  /** The issues to alert about, in fetch order. */
  function SelectStaleIssues(issues: seq<Issue>, thresholdDays: int, now: Timestamp): (r: seq<Issue>)
    ensures |r| <= |issues|
    ensures forall k :: 0 <= k < |r| ==> IsStale(r[k], thresholdDays, now)
  {
    Seqs.Filter(issues, StaleTest(thresholdDays, now))
  }

  /** A pull request is reportable when it has been merged or closed. */
  predicate IsReportable(pr: PullRequest)
    ensures IsReportable(pr) <==> pr.mergedAt.Some? || pr.closedAt.Some?
  {
    IsMerged(pr) || pr.closedAt.Some?
  }

  /** The pull requests to notify about, in fetch order. */
  function SelectReportablePrs(prs: seq<PullRequest>): (r: seq<PullRequest>)
    ensures |r| <= |prs|
    ensures forall k :: 0 <= k < |r| ==> r[k].mergedAt.Some? || r[k].closedAt.Some?
  {
    Seqs.Filter(prs, IsReportable)
  }

  /** The alert list is exactly the stale issues of the input: every stale
      issue occurs as often as in the input, no other issue occurs, and
      input order is kept. */
  lemma StaleSelection(issues: seq<Issue>, thresholdDays: int, now: Timestamp)
    ensures forall i :: i in SelectStaleIssues(issues, thresholdDays, now) <==>
                        i in issues && AgeDays(i, now) >= thresholdDays
    ensures forall i :: multiset(SelectStaleIssues(issues, thresholdDays, now))[i] ==
                        if AgeDays(i, now) >= thresholdDays then multiset(issues)[i] else 0
    ensures Seqs.IsSubsequence(SelectStaleIssues(issues, thresholdDays, now), issues)
  {
    var p := StaleTest(thresholdDays, now);
    forall i ensures i in Seqs.Filter(issues, p) <==> i in issues && AgeDays(i, now) >= thresholdDays {
      Seqs.FilterMembership(issues, p, i);
    }
    forall i ensures multiset(Seqs.Filter(issues, p))[i] ==
                     if AgeDays(i, now) >= thresholdDays then multiset(issues)[i] else 0 {
      Seqs.FilterMultiplicity(issues, p, i);
    }
    Seqs.FilterIsSubsequence(issues, p);
  }

  /** An issue exactly `thresholdDays` days old is alerted about. */
  lemma StaleBoundaryInclusive(issues: seq<Issue>, issue: Issue, thresholdDays: int)
    requires issue in issues
    ensures issue in SelectStaleIssues(issues, thresholdDays, issue.createdAt + thresholdDays * SecondsPerDay)
  {
    var now := issue.createdAt + thresholdDays * SecondsPerDay;
    AgeDaysAfterWholeDays(issue, thresholdDays);
    Seqs.FilterMembership(issues, StaleTest(thresholdDays, now), issue);
  }

  /** An issue one second short of the threshold is not alerted about. */
  lemma StaleBoundaryExclusiveBelow(issues: seq<Issue>, issue: Issue, thresholdDays: int)
    requires issue in issues
    ensures issue !in SelectStaleIssues(issues, thresholdDays, issue.createdAt + thresholdDays * SecondsPerDay - 1)
  {
    var now := issue.createdAt + thresholdDays * SecondsPerDay - 1;
    Seqs.FilterMembership(issues, StaleTest(thresholdDays, now), issue);
  }

  /** The alert list is non-empty exactly when some fetched issue is stale. */
  lemma AlertListNonEmpty(issues: seq<Issue>, thresholdDays: int, now: Timestamp)
    ensures SelectStaleIssues(issues, thresholdDays, now) != [] <==>
            exists k :: 0 <= k < |issues| && AgeDays(issues[k], now) >= thresholdDays
  {
    Seqs.FilterEmpty(issues, StaleTest(thresholdDays, now));
  }

  /** The notification list is exactly the merged-or-closed pull requests of
      the input, each as often as in the input, in input order. */
  lemma ReportableSelection(prs: seq<PullRequest>)
    ensures forall pr :: pr in SelectReportablePrs(prs) <==>
                         pr in prs && (pr.mergedAt.Some? || pr.closedAt.Some?)
    ensures forall pr :: multiset(SelectReportablePrs(prs))[pr] ==
                         if pr.mergedAt.Some? || pr.closedAt.Some? then multiset(prs)[pr] else 0
    ensures Seqs.IsSubsequence(SelectReportablePrs(prs), prs)
  {
    forall pr ensures pr in Seqs.Filter(prs, IsReportable) <==> pr in prs && IsReportable(pr) {
      Seqs.FilterMembership(prs, IsReportable, pr);
    }
    forall pr ensures multiset(Seqs.Filter(prs, IsReportable))[pr] ==
                      if IsReportable(pr) then multiset(prs)[pr] else 0 {
      Seqs.FilterMultiplicity(prs, IsReportable, pr);
    }
    Seqs.FilterIsSubsequence(prs, IsReportable);
  }

  /** A pull request with neither a merge nor a close time is never
      reported. */
  lemma OpenPrNeverReported(prs: seq<PullRequest>, pr: PullRequest)
    requires pr.mergedAt.None? && pr.closedAt.None?
    ensures pr !in SelectReportablePrs(prs)
  {
    Seqs.FilterMembership(prs, IsReportable, pr);
  }

  /** The notification list is non-empty exactly when some fetched pull
      request is merged or closed. */
  lemma NotificationListNonEmpty(prs: seq<PullRequest>)
    ensures SelectReportablePrs(prs) != [] <==>
            exists k :: 0 <= k < |prs| && (prs[k].mergedAt.Some? || prs[k].closedAt.Some?)
  {
    Seqs.FilterEmpty(prs, IsReportable);
  }

  /** The analysis loop over the open issues: append each issue whose age
      reaches the threshold. */
  method CollectAlertIssues(openIssues: seq<Issue>, thresholdDays: int, now: Timestamp)
    returns (alertIssues: seq<Issue>)
    ensures alertIssues == SelectStaleIssues(openIssues, thresholdDays, now)
  {
    alertIssues := [];
    for i := 0 to |openIssues|
      invariant alertIssues == SelectStaleIssues(openIssues[..i], thresholdDays, now)
    {
      var issue := openIssues[i];
      Seqs.FilterSnoc(openIssues[..i], issue, StaleTest(thresholdDays, now));
      assert openIssues[..i + 1] == openIssues[..i] + [issue];
      if AgeDays(issue, now) >= thresholdDays {
        alertIssues := alertIssues + [issue];
      }
    }
    assert openIssues[..|openIssues|] == openIssues;
  }

  /** The analysis loop over the recent pull requests: append each one that
      is merged or closed. */
  method CollectNotificationPrs(recentPrs: seq<PullRequest>)
    returns (notificationPrs: seq<PullRequest>)
    ensures notificationPrs == SelectReportablePrs(recentPrs)
  {
    notificationPrs := [];
    for i := 0 to |recentPrs|
      invariant notificationPrs == SelectReportablePrs(recentPrs[..i])
    {
      var pr := recentPrs[i];
      Seqs.FilterSnoc(recentPrs[..i], pr, IsReportable);
      assert recentPrs[..i + 1] == recentPrs[..i] + [pr];
      if IsMerged(pr) || pr.closedAt.Some? {
        notificationPrs := notificationPrs + [pr];
      }
    }
    assert recentPrs[..|recentPrs|] == recentPrs;
  }

  /** The issues of the first test fixture: one opened 10 days before
      `now`, one opened 3 days before it. */
  function OldIssueFixture(now: Timestamp): Issue {
    Issue(1, "Test Issue - Old (MCP)", "open", now - 10 * SecondsPerDay, now - 2 * SecondsPerDay,
          "https://github.com/test/repo/issues/1",
          [Label("bug", "d73a4a")], [Assignee("testuser", "https://example.com/avatar.png")])
  }

  function RecentIssueFixture(now: Timestamp): Issue {
    Issue(2, "Test Issue - Recent (MCP)", "open", now - 3 * SecondsPerDay, now - 3600,
          "https://github.com/test/repo/issues/2",
          [Label("enhancement", "a2eeef")], [])
  }

  /** The pull requests of the second test fixture: one merged and closed
      two hours before `now`, one closed unmerged an hour before it. */
  function MergedPrFixture(now: Timestamp): PullRequest {
    PullRequest(10, "Test PR - Merged (MCP)", "closed", Some(now - 7200), Some(now - 7200),
                "https://github.com/test/repo/pull/10",
                [Label("feature", "a2eeef")], [Assignee("devuser", "https://example.com/avatar2.png")])
  }

  function ClosedPrFixture(now: Timestamp): PullRequest {
    PullRequest(11, "Test PR - Closed (MCP)", "closed", None, Some(now - 3600),
                "https://github.com/test/repo/pull/11", [], [])
  }

  /** The first test fixture against a 7-day threshold: only the 10-day-old
      issue is alerted about. */
  lemma FixtureIssueSelection(now: Timestamp)
    ensures SelectStaleIssues([OldIssueFixture(now), RecentIssueFixture(now)], 7, now) == [OldIssueFixture(now)]
  {
    var old10 := OldIssueFixture(now);
    var new3 := RecentIssueFixture(now);
    AgeDaysAfterWholeDays(old10, 10);
    assert now == old10.createdAt + 10 * SecondsPerDay;
    AgeDaysAfterWholeDays(new3, 3);
    assert now == new3.createdAt + 3 * SecondsPerDay;
    var p := StaleTest(7, now);
    assert [old10, new3][1..] == [new3];
    assert [new3][1..] == [];
    assert Seqs.Filter([new3], p) == [];
  }

  /** The second test fixture: the merged-and-closed pull request and the
      closed-only one are both reported, and only the first counts as
      merged. */
  lemma FixturePrSelection(now: Timestamp)
    ensures SelectReportablePrs([MergedPrFixture(now), ClosedPrFixture(now)]) == [MergedPrFixture(now), ClosedPrFixture(now)]
    ensures IsMerged(MergedPrFixture(now)) && !IsMerged(ClosedPrFixture(now))
  {
    Seqs.FilterKeepsAll([MergedPrFixture(now), ClosedPrFixture(now)], IsReportable);
  }
}
