/**
 * The pieces together: what a visitor without the cookie meets, and what the
 * dashboard shows for the built-in sample.
 */
module EndToEnd {
  import opened Wrappers
  import opened Data
  import Gate
  import StatusRoute
  import Dashboard
  import Seqs

  /**
   * With a secret configured, a visitor without the cookie is sent from the
   * dashboard to the login page, may open the login page, and may poll the
   * status endpoint, which always answers with a snapshot.
   */
  lemma VisitorWithoutCookie(secret: string, load: StatusRoute.LoadResult, now: string)
    ensures Gate.Middleware("/", None, Some(secret)) == Gate.Redirect("/login")
    ensures Gate.Middleware("/login", None, Some(secret)) == Gate.Next
    ensures Gate.Middleware("/api/status", None, Some(secret)) == Gate.Next
    ensures Gate.MiddlewareFailClosed("/", None, Some(secret)) == Gate.Redirect("/login")
    ensures Gate.MiddlewareFailClosed("/login", None, Some(secret)) == Gate.Next
    ensures Gate.MiddlewareFailClosed("/api/status", None, Some(secret)) == Gate.Next
    ensures Gate.Routed("/") && Gate.Routed("/login") && Gate.Routed("/api/status")
    ensures load.Parsed? ==> StatusRoute.Respond(load, now) == load.data
    ensures !load.Parsed? ==> StatusRoute.Respond(load, now).prs == StatusRoute.DefaultPrs()
  {
    assert !Gate.StartsWith("/", Gate.ApiPrefix);
    assert Gate.StartsWith("/api/status", Gate.ApiPrefix);
    Gate.PagesAreRouted();
  }

  /**
   * The unfiltered dashboard over the sample: nine open pull requests, agreeing
   * with the sample's own count, four category buttons in first-seen order,
   * two tasks to do, none in progress, five done, and six repos remaining.
   */
  lemma SampleDashboard(now: string)
    ensures var v := Dashboard.Derive(StatusRoute.DefaultSnapshot(now), None);
      && v.openPrs == 9 == StatusRoute.DefaultSnapshot(now).stats.prsCreated
      && v.categories == ["Learning", "Research", "Code Quality", "Tools"]
      && |v.board.todo| == 2 && |v.board.inProgress| == 0 && |v.board.done| == 5
      && v.remaining == 6
  {
    var data := StatusRoute.DefaultSnapshot(now);
    assert Dashboard.FilteredTasks(data.tasks, None) == data.tasks;
    SampleOpenPrs(now);
    SampleCategories(data.tasks);
    SampleBoard(data.tasks);
  }

  /** All nine of the sample's pull requests count as open. */
  lemma SampleOpenPrs(now: string)
    ensures Dashboard.OpenPrCount(StatusRoute.DefaultSnapshot(now).prs) == 9
  {
    StatusRoute.DefaultPrsOpen(now);
    StatusRoute.DefaultPrsCount(now);
  }

  /** The sample's category buttons. */
  lemma SampleCategories(tasks: seq<Task>)
    requires tasks == StatusRoute.DefaultTasks()
    ensures Dashboard.Categories(tasks) == ["Learning", "Research", "Code Quality", "Tools"]
  {
    SampleCategoryColumn(tasks);
    DistinctSampleCategories(Dashboard.TaskCategories(tasks));
  }

  /** The sample's tasks' categories, one per task. */
  lemma SampleCategoryColumn(tasks: seq<Task>)
    requires tasks == StatusRoute.DefaultTasks()
    ensures Dashboard.TaskCategories(tasks)
         == ["Learning", "Learning", "Research", "Code Quality", "Learning", "Learning", "Tools"]
  {
  }

  /** Removing repeats from the sample's category column keeps the first of each. */
  lemma DistinctSampleCategories(cats: seq<string>)
    requires cats == ["Learning", "Learning", "Research", "Code Quality", "Learning", "Learning", "Tools"]
    ensures Seqs.Distinct(cats) == ["Learning", "Research", "Code Quality", "Tools"]
  {
    assert "Learning"[0] != "Research"[0];
    assert |"Learning"| != |"Code Quality"| && |"Learning"| != |"Tools"|;
    assert |"Research"| != |"Code Quality"| && |"Research"| != |"Tools"|;
    assert |"Code Quality"| != |"Tools"|;
    DistinctOfPattern("Learning", "Research", "Code Quality", "Tools");
  }

  /** The shape of the sample's category column, over four distinct values. */
  lemma DistinctOfPattern<T(!new)>(a: T, b: T, c: T, d: T)
    requires a != b && a != c && a != d
    requires b != c && b != d && c != d
    ensures Seqs.Distinct([a, a, b, c, a, a, d]) == [a, b, c, d]
  {
    var s4 := [a, a, b, c];
    DistinctOfFirstFour(a, b, c);
    var s5 := s4 + [a];
    assert Seqs.Distinct(s5) == [a, b, c] by { Seqs.DistinctSnoc(s4, a); assert a in [a, b, c]; }
    var s6 := s5 + [a];
    assert Seqs.Distinct(s6) == [a, b, c] by { Seqs.DistinctSnoc(s5, a); assert a in [a, b, c]; }
    var s7 := s6 + [d];
    assert Seqs.Distinct(s7) == [a, b, c, d] by { Seqs.DistinctSnoc(s6, d); assert d !in [a, b, c]; }
    assert s7 == [a, a, b, c, a, a, d];
  }

  /** The first four entries of the pattern: a repeated first value, then two new ones. */
  lemma DistinctOfFirstFour<T(!new)>(a: T, b: T, c: T)
    requires a != b && a != c && b != c
    ensures Seqs.Distinct([a, a, b, c]) == [a, b, c]
  {
    var s1 := [a];
    assert Seqs.Distinct(s1) == [a] by { Seqs.DistinctSnoc([], a); assert [] + [a] == s1; }
    var s2 := s1 + [a];
    assert Seqs.Distinct(s2) == [a] by { Seqs.DistinctSnoc(s1, a); }
    var s3 := s2 + [b];
    assert Seqs.Distinct(s3) == [a, b] by { Seqs.DistinctSnoc(s2, b); assert b !in [a]; }
    var s4 := s3 + [c];
    assert Seqs.Distinct(s4) == [a, b, c] by { Seqs.DistinctSnoc(s3, c); assert c !in [a, b]; }
    assert s4 == [a, a, b, c];
  }

  /** The sample's kanban board. */
  lemma SampleBoard(tasks: seq<Task>)
    requires tasks == StatusRoute.DefaultTasks()
    ensures |Dashboard.Columns(tasks).todo| == 2
    ensures |Dashboard.Columns(tasks).inProgress| == 0
    ensures |Dashboard.Columns(tasks).done| == 5
  {
    SampleTodo(tasks);
    SampleInProgress(tasks);
    SampleDone(tasks);
  }

  /** Two of the sample's tasks are to do. */
  lemma SampleTodo(tasks: seq<Task>)
    requires tasks == StatusRoute.DefaultTasks()
    ensures Seqs.Tally(Dashboard.IsTodo, tasks, 0) == 2
  {
  }

  /** None of the sample's tasks is in progress. */
  lemma SampleInProgress(tasks: seq<Task>)
    requires tasks == StatusRoute.DefaultTasks()
    ensures Seqs.Tally(Dashboard.IsInProgress, tasks, 0) == 0
  {
  }

  /** Five of the sample's tasks are done. */
  lemma SampleDone(tasks: seq<Task>)
    requires tasks == StatusRoute.DefaultTasks()
    ensures Seqs.Tally(Dashboard.IsDone, tasks, 0) == 5
  {
  }
}
