/** What the client pages actually receive from the listings. The Sankey chart, the
    dashboard and the market comparison request the jobs (and the dashboard the
    contacts and reminders) with no query, so each gets only the first page of ten
    documents, while the server's own flow data counts every job of the user. */
module ClientFetch {
  import opened Common
  import J = JobModel
  import C = ContactModel
  import R = ReminderModel
  import opened Paging
  import opened FlowGraph
  import opened SankeyChart
  import D = Dashboard

  /** A tracked count never exceeds the number of jobs. */
  lemma {:induction false} TrackedAtMostLength(jobs: seq<J.Job>)
    ensures 0 <= TrackedCount(jobs) <= |jobs|
  {
    if jobs != [] {
      TrackedAtMostLength(jobs[..|jobs| - 1]);
    }
  }

  /** As written: the client chart is built from the first page, so at most ten jobs
      leave Applied in it; with more than ten tracked jobs it shows fewer than the
      user has, although the chart over every job shows them all. */
  lemma SankeySeesFirstPage(jobs: seq<J.Job>)
    requires TrackedCount(jobs) > 10
    ensures OutOfApplied(ClientCounts(FirstPage(jobs))) <= 10
    ensures OutOfApplied(ClientCounts(jobs)) == TrackedCount(jobs) > 10
  {
    ClientFlowBalance(FirstPage(jobs));
    TrackedAtMostLength(FirstPage(jobs));
    ClientFlowBalance(jobs);
  }

  /** As written: the dashboard totals are those of the three first pages, so none of
      them exceeds ten, each equals the real total only when that is at most ten, and
      the upcoming count sees only the first page of reminders. */
  lemma DashboardSeesFirstPages(jobs: seq<J.Job>, contacts: seq<C.Contact>,
                                reminders: seq<R.Reminder>, now: int, offset: int)
    ensures var s := D.DashboardStats(FirstPage(jobs), FirstPage(contacts), FirstPage(reminders), now, offset);
      s.totalJobs <= 10 && s.totalContacts <= 10 && s.totalReminders <= 10
      && (s.totalJobs == |jobs| <==> |jobs| <= 10)
      && (s.totalContacts == |contacts| <==> |contacts| <= 10)
      && (s.totalReminders == |reminders| <==> |reminders| <= 10)
      && s.upcomingReminders <= 10
  {
  }

  /** Intended: a page that collects every page before building the chart counts every
      tracked job. */
  method SankeyOverAllPages(jobs: seq<J.Job>) returns (nodes: seq<Stage>, links: seq<Link>)
    ensures nodes == Nodes
    ensures links == ClientLinks(ClientCounts(jobs))
    ensures OutOfApplied(ClientCounts(jobs)) == TrackedCount(jobs)
  {
    var all := FetchAllPages(jobs);
    nodes, links := BuildFlow(all);
    ClientFlowBalance(jobs);
  }

  /** Intended: a dashboard that collects every page of the three listings reports the
      real totals. */
  method DashboardOverAllPages(jobs: seq<J.Job>, contacts: seq<C.Contact>,
                               reminders: seq<R.Reminder>, now: int, offset: int)
    returns (s: D.Stats)
    ensures s.totalJobs == |jobs| && s.totalContacts == |contacts| && s.totalReminders == |reminders|
    ensures s.upcomingReminders == D.UpcomingCount(reminders, now, offset)
  {
    var allJobs := FetchAllPages(jobs);
    var allContacts := FetchAllPages(contacts);
    var allReminders := FetchAllPages(reminders);
    s := D.DashboardStats(allJobs, allContacts, allReminders, now, offset);
  }
}
