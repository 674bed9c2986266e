/**
 * The snapshot the dashboard displays and the status endpoint serves
 * (`PR`, `Task` and `DashboardData` in app/page.tsx).
 *
 * Status and priority values are kept as strings: the endpoint passes the
 * file's values through unchecked, and the view has a fallback for values
 * outside the declared unions.  JavaScript numbers are modelled as integers.
 */
module Data {
  import opened Wrappers

  datatype PR = PR(
    repo: string,
    number: int,
    title: string,
    url: string,
    status: string,
    createdAt: string)

  datatype Task = Task(
    id: string,
    title: string,
    status: string,
    category: string,
    priority: Option<string>,
    createdAt: Option<string>)

  datatype Learning = Learning(
    reposDocumented: int,
    totalRepos: int,
    thoughtLeaders: seq<string>,
    insightsExtracted: int)

  datatype Stats = Stats(linesFixed: int, issuesFound: int, prsCreated: int)

  datatype DashboardData = DashboardData(
    lastUpdated: string,
    prs: seq<PR>,
    tasks: seq<Task>,
    learning: Learning,
    stats: Stats)
}
