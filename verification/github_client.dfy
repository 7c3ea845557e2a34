/** The GitHub client's two list builders, with the API's paginated
    iteration replaced by the sequence of items it yields. */
module GitHubClient {
  import opened Wrappers
  import opened State
  import Seqs
  import Evaluator

  const SecondsPerHour: int := 3600

  /** A label as the API returns it. */
  datatype GhLabel = GhLabel(name: string, color: string)

  /** A user as the API returns it. */
  datatype GhUser = GhUser(login: string, avatarUrl: string)

  /** An issue as the API returns it. */
  datatype GhIssue = GhIssue(
    number: int, title: string, state: string,
    createdAt: Timestamp, updatedAt: Timestamp, htmlUrl: string,
    labels: seq<GhLabel>, assignees: seq<GhUser>)

  /** A pull request as the API returns it. */
  datatype GhPull = GhPull(
    number: int, title: string, state: string,
    mergedAt: Option<Timestamp>, closedAt: Option<Timestamp>, htmlUrl: string,
    labels: seq<GhLabel>, assignees: seq<GhUser>)

  function ToLabel(l: GhLabel): Label { Label(l.name, l.color) }

  function ToAssignee(u: GhUser): Assignee { Assignee(u.login, u.avatarUrl) }

  /** The issue record built from an API issue: every scalar copied, labels
      and assignees converted one by one. */
  function ToIssue(g: GhIssue): (i: Issue)
    ensures i.number == g.number && i.title == g.title && i.state == g.state
    ensures i.createdAt == g.createdAt && i.updatedAt == g.updatedAt && i.htmlUrl == g.htmlUrl
    ensures |i.labels| == |g.labels| && |i.assignees| == |g.assignees|
    ensures forall k :: 0 <= k < |g.labels| ==>
              i.labels[k].name == g.labels[k].name && i.labels[k].color == g.labels[k].color
    ensures forall k :: 0 <= k < |g.assignees| ==>
              i.assignees[k].login == g.assignees[k].login && i.assignees[k].avatarUrl == g.assignees[k].avatarUrl
  {
    Issue(g.number, g.title, g.state, g.createdAt, g.updatedAt, g.htmlUrl,
          Seqs.MapSeq(g.labels, ToLabel), Seqs.MapSeq(g.assignees, ToAssignee))
  }

  /** The pull-request record built from an API pull request: every scalar
      copied, labels and assignees converted one by one. */
  function ToPullRequest(g: GhPull): (pr: PullRequest)
    ensures pr.number == g.number && pr.title == g.title && pr.state == g.state
    ensures pr.mergedAt == g.mergedAt && pr.closedAt == g.closedAt && pr.htmlUrl == g.htmlUrl
    ensures |pr.labels| == |g.labels| && |pr.assignees| == |g.assignees|
    ensures forall k :: 0 <= k < |g.labels| ==>
              pr.labels[k].name == g.labels[k].name && pr.labels[k].color == g.labels[k].color
    ensures forall k :: 0 <= k < |g.assignees| ==>
              pr.assignees[k].login == g.assignees[k].login && pr.assignees[k].avatarUrl == g.assignees[k].avatarUrl
  {
    PullRequest(g.number, g.title, g.state, g.mergedAt, g.closedAt, g.htmlUrl,
                Seqs.MapSeq(g.labels, ToLabel), Seqs.MapSeq(g.assignees, ToAssignee))
  }

  /** The start of the lookback window: `lookbackHours` hours before `now`. */
  function LookbackStart(now: Timestamp, lookbackHours: int): Timestamp {
    now - lookbackHours * SecondsPerHour
  }

  /** The window rule: merged at or after the start of the window, or, when
      never merged, closed at or after it. */
  predicate InWindow(g: GhPull, start: Timestamp)
    ensures InWindow(g, start) <==>
              if g.mergedAt.Some? then g.mergedAt.value >= start
              else g.closedAt.Some? && g.closedAt.value >= start
  {
    (g.mergedAt.Some? && g.mergedAt.value >= start) ||
    (g.closedAt.Some? && g.closedAt.value >= start && g.mergedAt.None?)
  }

  function WindowTest(start: Timestamp): GhPull -> bool {
    g => InWindow(g, start)
  }

  /** The pull requests the client returns, in the order the API yields them. */
  function RecentPrs(pulls: seq<GhPull>, start: Timestamp): (r: seq<PullRequest>)
    ensures |r| <= |pulls|
    ensures forall k :: 0 <= k < |r| ==>
              if r[k].mergedAt.Some? then r[k].mergedAt.value >= start
              else r[k].closedAt.Some? && r[k].closedAt.value >= start
  {
    Seqs.MapSeq(Seqs.Filter(pulls, WindowTest(start)), ToPullRequest)
  }

  /** Fetching open issues: one record per API issue, in the same order. */
  method GetOpenIssues(page: seq<GhIssue>) returns (issues: seq<Issue>)
    ensures |issues| == |page|
    ensures forall k :: 0 <= k < |page| ==> issues[k] == ToIssue(page[k])
  {
    issues := [];
    for i := 0 to |page|
      invariant |issues| == i
      invariant forall k :: 0 <= k < i ==> issues[k] == ToIssue(page[k])
    {
      var issueData := ToIssue(page[i]);
      issues := issues + [issueData];
    }
  }

  /** Fetching recent pull requests: the loop with its `if` / `elif` window
      test over every pull request the API yields. */
  method GetRecentPrs(pulls: seq<GhPull>, now: Timestamp, lookbackHours: int)
    returns (prs: seq<PullRequest>)
    ensures prs == RecentPrs(pulls, LookbackStart(now, lookbackHours))
  {
    var lookbackTime := now - lookbackHours * SecondsPerHour;
    var w := WindowTest(lookbackTime);
    prs := [];
    for i := 0 to |pulls|
      invariant prs == RecentPrs(pulls[..i], lookbackTime)
    {
      var pr := pulls[i];
      Seqs.FilterSnoc(pulls[..i], pr, w);
      assert pulls[..i + 1] == pulls[..i] + [pr];
      ghost var kept := Seqs.Filter(pulls[..i], w);
      if pr.mergedAt.Some? && pr.mergedAt.value >= lookbackTime {
        assert Seqs.MapSeq(kept + [pr], ToPullRequest) == Seqs.MapSeq(kept, ToPullRequest) + [ToPullRequest(pr)];
        prs := prs + [ToPullRequest(pr)];
      } else if pr.closedAt.Some? && pr.closedAt.value >= lookbackTime && !pr.mergedAt.Some? {
        assert Seqs.MapSeq(kept + [pr], ToPullRequest) == Seqs.MapSeq(kept, ToPullRequest) + [ToPullRequest(pr)];
        prs := prs + [ToPullRequest(pr)];
      } else {
        assert kept + [] == kept;
      }
    }
    assert pulls[..|pulls|] == pulls;
  }

  /** A pull request is returned exactly when some API pull request inside
      the window converts to it. */
  lemma RecentPrsMembership(pulls: seq<GhPull>, start: Timestamp, pr: PullRequest)
    ensures pr in RecentPrs(pulls, start) <==>
            exists k :: 0 <= k < |pulls| && InWindow(pulls[k], start) && ToPullRequest(pulls[k]) == pr
  {
    var kept := Seqs.Filter(pulls, WindowTest(start));
    if pr in RecentPrs(pulls, start) {
      var j :| 0 <= j < |kept| && ToPullRequest(kept[j]) == pr;
      Seqs.FilterMembership(pulls, WindowTest(start), kept[j]);
    }
    if exists k :: 0 <= k < |pulls| && InWindow(pulls[k], start) && ToPullRequest(pulls[k]) == pr {
      var k :| 0 <= k < |pulls| && InWindow(pulls[k], start) && ToPullRequest(pulls[k]) == pr;
      Seqs.FilterMembership(pulls, WindowTest(start), pulls[k]);
      var j :| 0 <= j < |kept| && kept[j] == pulls[k];
      assert RecentPrs(pulls, start)[j] == pr;
    }
  }

  /** The output follows the API order and holds no pull request more often
      than the input does: it is a subsequence of the converted input. */
  lemma RecentPrsOrder(pulls: seq<GhPull>, start: Timestamp)
    ensures Seqs.IsSubsequence(RecentPrs(pulls, start), Seqs.MapSeq(pulls, ToPullRequest))
    ensures |RecentPrs(pulls, start)| <= |pulls|
  {
    Seqs.FilterIsSubsequence(pulls, WindowTest(start));
    Seqs.MapSeqSubsequence(Seqs.Filter(pulls, WindowTest(start)), pulls, ToPullRequest);
  }

  /** A pull request merged before the window is left out even when it was
      closed inside the window, and one with neither time is never taken. */
  lemma WindowExclusions(g: GhPull, start: Timestamp)
    ensures g.mergedAt.Some? && g.mergedAt.value < start ==> !InWindow(g, start)
    ensures g.mergedAt.None? && g.closedAt.None? ==> !InWindow(g, start)
  {
  }

  /** Both window bounds are inclusive: a merge or close exactly at the
      start of the window counts. */
  lemma WindowInclusiveStart(g: GhPull, now: Timestamp, lookbackHours: int)
    requires g.mergedAt == Some(LookbackStart(now, lookbackHours)) ||
             (g.mergedAt.None? && g.closedAt == Some(LookbackStart(now, lookbackHours)))
    ensures InWindow(g, LookbackStart(now, lookbackHours))
  {
  }

  /** Every returned pull request is merged or closed, so the workflow's PR
      analysis keeps all of them. */
  lemma RecentPrsAllReportable(pulls: seq<GhPull>, start: Timestamp)
    ensures forall k :: 0 <= k < |RecentPrs(pulls, start)| ==>
              Evaluator.IsReportable(RecentPrs(pulls, start)[k])
    ensures Evaluator.SelectReportablePrs(RecentPrs(pulls, start)) == RecentPrs(pulls, start)
  {
    var kept := Seqs.Filter(pulls, WindowTest(start));
    forall k | 0 <= k < |kept| ensures InWindow(kept[k], start) {
      Seqs.FilterMembership(pulls, WindowTest(start), kept[k]);
    }
    Seqs.FilterKeepsAll(RecentPrs(pulls, start), Evaluator.IsReportable);
  }
}
