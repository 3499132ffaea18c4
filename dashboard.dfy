/**
 * The dashboard (src/components/Dashboard.tsx): the fetched issues, three counts over
 * them, and the first five as recent activity.
 */
module Dashboard {
  import opened Types
  import opened Http
  import IssueList

  /** The three counts the dashboard shows. */
  datatype Stats = Stats(total: nat, open: nat, resolved: nat)

  /** The number of issues with the given status: `filter(i => i.status === s).length`. */
  function CountStatus(issues: seq<Issue>, s: Status): (count: nat)
    ensures count <= |issues|
  {
    if issues == [] then 0
    else (if issues[0].status == s then 1 else 0) + CountStatus(issues[1..], s)
  }

  /** Every issue has exactly one of the three statuses, so the three counts add up to the total. */
  lemma {:induction false} StatusCountsPartition(issues: seq<Issue>)
    ensures CountStatus(issues, Open) + CountStatus(issues, InProgress) + CountStatus(issues, Resolved) == |issues|
    decreases |issues|
  {
    if issues != [] {
      StatusCountsPartition(issues[1..]);
    }
  }

  /** The counts of a fetched array: the total, and no more open plus resolved issues than that. */
  function StatsOf(issues: seq<Issue>): (stats: Stats)
    ensures stats.total == |issues|
    ensures stats.open == CountStatus(issues, Open) && stats.resolved == CountStatus(issues, Resolved)
    ensures stats.open + stats.resolved <= stats.total
    ensures stats.total - stats.open - stats.resolved == CountStatus(issues, InProgress)
  {
    StatusCountsPartition(issues);
    Stats(|issues|, CountStatus(issues, Open), CountStatus(issues, Resolved))
  }

  /**
   * The dashboard's count of a status agrees with the issue list filtered to that
   * status alone (no search text, any priority).
   */
  lemma {:induction false} CountMatchesListFilter(issues: seq<Issue>, s: Status)
    ensures CountStatus(issues, s) == |IssueList.Filtered(issues, IssueList.Filters("", StatusName(s), IssueList.AllOption))|
    decreases |issues|
  {
    if issues != [] {
      var f := IssueList.Filters("", StatusName(s), IssueList.AllOption);
      assert IssueList.Lower("") == "";
      IssueList.IncludesEmpty(IssueList.Lower(issues[0].title));
      StatusNameRoundTrip(s, "");
      StatusNameInjective(issues[0].status, s);
      assert IssueList.Matches(issues[0], f) <==> issues[0].status == s;
      CountMatchesListFilter(issues[1..], s);
    }
  }

  /** "Recent Activity": `issues.slice(0, 5)`, the first five issues in order, or all of them. */
  function Recent(issues: seq<Issue>): (r: seq<Issue>)
    ensures |r| == IssueList.Min(5, |issues|)
    ensures r == issues[..|r|]
  {
    IssueList.Slice(issues, 0, 5)
  }

  /** The issues a `GET /issue` response brings the dashboard: only a bare array. */
  function IssuesFrom(body: ListBody<Issue>): (r: Option<seq<Issue>>)
    ensures r.Some? <==> body.BareArray?
    ensures r.Some? ==> r.value == body.items
  {
    match body
    case BareArray(xs) => Some(xs)
    case _ => None
  }

  /**
   * The dashboard and the issue list read the same endpoint in different shapes:
   * whatever the response body, at most one of the two views takes issues from it.
   */
  lemma NoBodyFeedsBothViews(body: ListBody<Issue>)
    ensures !(IssuesFrom(body).Some? && IssueList.IssuesFrom(body).Some?)
  {
  }

  /** The dashboard's state. */
  class DashboardView {
    var issues: seq<Issue>
    var isLoading: bool
    var stats: Stats

    /** Stats and issues stay consistent: the counts are always those of the issues shown. */
    ghost predicate Valid()
      reads this
    {
      stats == StatsOf(issues)
    }

    constructor ()
      ensures Valid()
      ensures issues == [] && isLoading && stats == Stats(0, 0, 0)
    {
      issues := [];
      isLoading := true;
      stats := Stats(0, 0, 0);
    }

    /** The mount effect: a bare array replaces the issues and the counts; anything else changes neither. */
    method FetchIssues(response: Outcome<ListBody<Issue>>)
      requires Valid()
      modifies this
      ensures Valid()
      ensures issues == if response.Ok? && IssuesFrom(response.body).Some?
                        then IssuesFrom(response.body).value else old(issues)
      ensures !isLoading
    {
      if response.Ok? && response.body.BareArray? {
        var data := response.body.items;
        issues := data;
        stats := Stats(|data|, CountStatus(data, Open), CountStatus(data, Resolved));
      }
      isLoading := false;
    }
  }
}
