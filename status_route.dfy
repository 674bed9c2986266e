/**
 * The status endpoint (app/api/status/route.ts), with its input and output
 * taken out: the environment variables and the outcome of reading and
 * parsing the status file are parameters, and the current time is an opaque
 * timestamp string.
 */
module StatusRoute {
  import opened Wrappers
  import opened Data

  // ---------------------------------------------------------------------------
  // Where the status file lives

  /** `a || b` on an optional string: `undefined` and `""` are both falsy. */
  function OrElse(a: Option<string>, b: string): (r: string)
    ensures a.Some? && a.value != "" ==> r == a.value
    ensures a == None || a == Some("") ==> r == b
  {
    if a.Some? && a.value != "" then a.value else b
  }

  /** Two path segments joined by `/`; an empty segment contributes nothing. */
  function Join(dir: string, name: string): (r: string)
    ensures dir == "" ==> r == name
    ensures name == "" ==> r == dir
    ensures dir != "" && name != "" ==>
              |r| == |dir| + 1 + |name| && r[..|dir|] == dir && r[|dir|] == '/' && r[|dir| + 1..] == name
  {
    if dir == "" then name else if name == "" then dir else dir + "/" + name
  }

  /** The directory of the status file: `CLAWD_DIR` when set and non-empty, else `clawd` under `HOME`. */
  function BaseDir(clawdDir: Option<string>, home: Option<string>): (r: string)
    ensures r != ""
    ensures clawdDir.Some? && clawdDir.value != "" ==> r == clawdDir.value
    ensures clawdDir == None || clawdDir == Some("") ==> r == Join(OrElse(home, ""), "clawd")
  {
    OrElse(clawdDir, Join(OrElse(home, ""), "clawd"))
  }

  /** The status file: `status.json` inside the base directory. */
  function StatusPath(clawdDir: Option<string>, home: Option<string>): (r: string)
    ensures r == BaseDir(clawdDir, home) + "/status.json"
  {
    Join(BaseDir(clawdDir, home), "status.json")
  }

  /** With neither variable set the path is relative: `clawd/status.json`. */
  lemma UnsetEnvironmentGivesRelativePath()
    ensures StatusPath(None, None) == "clawd/status.json"
    ensures StatusPath(Some(""), Some("")) == "clawd/status.json"
  {
  }

  /** An empty `CLAWD_DIR` is ignored in favour of the home directory. */
  lemma EmptyClawdDirFallsBackToHome(home: string)
    requires home != ""
    ensures StatusPath(Some(""), Some(home)) == home + "/clawd/status.json"
  {
    assert BaseDir(Some(""), Some(home)) == home + "/" + "clawd";
    assert home + "/" + "clawd" + "/" + "status.json" == home + "/clawd/status.json";
  }

  // ---------------------------------------------------------------------------
  // Choosing the response

  /**
   * What the attempt to load the file gave: no file, a read or parse
   * failure (logged and swallowed), or the parsed snapshot.
   */
  datatype LoadResult = Missing | Failed | Parsed(data: DashboardData)

  /** The reply: the parsed file untouched, otherwise the built-in sample stamped with `now`. */
  function Respond(load: LoadResult, now: string): (body: DashboardData)
    ensures load.Parsed? ==> body == load.data
    ensures !load.Parsed? ==> body == DefaultSnapshot(now)
    ensures !load.Parsed? ==> body.lastUpdated == now
  {
    match load
    case Parsed(data) => data
    case _ => DefaultSnapshot(now)
  }

  /** A missing file and an unreadable one give the same reply. */
  lemma FailureLikeMissing(now: string)
    ensures Respond(Failed, now) == Respond(Missing, now)
  {
  }

  /** A file that parses is served as it is, whatever the time, and the time then plays no part. */
  lemma ParsedIgnoresClock(data: DashboardData, now1: string, now2: string)
    ensures Respond(Parsed(data), now1) == Respond(Parsed(data), now2) == data
  {
  }

  /** Two fallback replies differ at most in their timestamp. */
  lemma FallbackDiffersOnlyInTimestamp(load1: LoadResult, load2: LoadResult, now1: string, now2: string)
    requires !load1.Parsed? && !load2.Parsed?
    ensures Respond(load1, now1).(lastUpdated := now2) == Respond(load2, now2)
  {
  }

  // ---------------------------------------------------------------------------
  // The built-in sample

  /** The sample's pull requests, by position. */
  function SamplePr(k: nat): PR
    requires k < 9
  {
    match k
    case 0 => PR("new-das-app", 1, "chore: remove dead code from marketDataService", "https://github.com/doravidan/new-das-app/pull/1", "open", "2026-01-27T22:13:57Z")
    case 1 => PR("new-das-app", 2, "Fix test environment: switch from jsdom to happy-dom", "https://github.com/doravidan/new-das-app/pull/2", "open", "2026-01-27T22:28:33Z")
    case 2 => PR("new-das-app", 3, "fix: Use GTC TIF for premarket/postmarket orders", "https://github.com/doravidan/new-das-app/pull/3", "open", "2026-01-27T22:31:00Z")
    case 3 => PR("wheel2go", 1, "feat(api): Implement toll notifications and S3 upload", "https://github.com/doravidan/wheel2go/pull/1", "open", "2026-01-27T22:09:40Z")
    case 4 => PR("wheel2go", 2, "feat(api): Implement password reset email notification", "https://github.com/doravidan/wheel2go/pull/2", "open", "2026-01-27T22:12:27Z")
    case 5 => PR("wheel2go", 3, "fix: resolve TypeScript errors in UI and admin packages", "https://github.com/doravidan/wheel2go/pull/3", "open", "2026-01-27T22:35:22Z")
    case 6 => PR("dreamtales-ai-stories", 1, "fix: resolve all ESLint errors", "https://github.com/doravidan/dreamtales-ai-stories/pull/1", "open", "2026-01-28T06:15:00Z")
    case 7 => PR("clipcraft-ai", 1, "fix: exclude ios/ from ESLint", "https://github.com/doravidan/clipcraft-ai/pull/1", "open", "2026-01-28T06:18:00Z")
    case _ => PR("style-my-look", 1, "fix: exclude ios/ and scripts/ from ESLint", "https://github.com/doravidan/style-my-look/pull/1", "open", "2026-01-28T06:20:00Z")
  }

  /** The sample's nine pull requests, in the order listed. */
  function DefaultPrs(): (prs: seq<PR>)
    ensures |prs| == 9
  {
    seq(9, k requires 0 <= k < 9 => SamplePr(k))
  }

  /** The sample's seven tasks. */
  function DefaultTasks(): (tasks: seq<Task>)
    ensures |tasks| == 7
  {
    [ Task("1", "Continue codebase learning", "done", "Learning", None, None),
      Task("2", "Thought leader research", "done", "Learning", None, None),
      Task("3", "App store growth research", "done", "Research", None, None),
      Task("4", "Fix lint issues across repos", "done", "Code Quality", None, None),
      Task("5", "Review Greg Isenberg content", "todo", "Learning", None, None),
      Task("6", "Deep dive Starter Story cases", "todo", "Learning", None, None),
      Task("7", "Voice transcription setup", "done", "Tools", None, None)
    ]
  }

  /** The sample served while no usable status file exists, stamped with `now`. */
  function DefaultSnapshot(now: string): (d: DashboardData)
    ensures d.lastUpdated == now
  {
    DashboardData(
      now,
      DefaultPrs(),
      DefaultTasks(),
      Learning(30, 36, ["Alex Finn", "Greg Isenberg", "Ryan Carson", "Starter Story"], 47),
      Stats(150, 21, 9))
  }

  /** The sample lists nine pull requests and claims nine created. */
  lemma DefaultPrsCount(now: string)
    ensures |DefaultSnapshot(now).prs| == 9 == DefaultSnapshot(now).stats.prsCreated
  {
  }

  /** Every pull request of the sample is open and has a positive number. */
  lemma DefaultPrsOpen(now: string)
    ensures forall p :: p in DefaultSnapshot(now).prs ==> p.status == "open" && p.number > 0
  {
  }

  /** No two pull requests of the sample share repository and number. */
  lemma DefaultPrsUnique(now: string)
    ensures forall i, j :: 0 <= i < j < |DefaultSnapshot(now).prs| ==>
              (DefaultSnapshot(now).prs[i].repo, DefaultSnapshot(now).prs[i].number)
              != (DefaultSnapshot(now).prs[j].repo, DefaultSnapshot(now).prs[j].number)
  {
    forall i | 0 <= i < 9
      ensures forall j :: i < j < 9 ==> !SameKey(SamplePr(i), SamplePr(j))
    {
      if i < 3 {
        NewDasAppKeysUnique(i);
      } else if i < 6 {
        Wheel2goKeysUnique(i);
      } else {
        SingleKeysUnique(i);
      }
    }
  }

  /** Whether two pull requests have the same repository and number. */
  predicate SameKey(p: PR, q: PR)
  {
    p.repo == q.repo && p.number == q.number
  }

  /** The first three sample pull requests (`new-das-app`) have keys unlike any later one. */
  lemma NewDasAppKeysUnique(i: nat)
    requires i < 3
    ensures forall j :: i < j < 9 ==> !SameKey(SamplePr(i), SamplePr(j))
  {
    if i == 0 {} else if i == 1 {} else {}
  }

  /** The next three sample pull requests (`wheel2go`) have keys unlike any later one. */
  lemma Wheel2goKeysUnique(i: nat)
    requires 3 <= i < 6
    ensures forall j :: i < j < 9 ==> !SameKey(SamplePr(i), SamplePr(j))
  {
    if i == 3 {} else if i == 4 {} else {}
  }

  /** The last three sample pull requests, one per repository, have keys unlike any later one. */
  lemma SingleKeysUnique(i: nat)
    requires 6 <= i < 9
    ensures forall j :: i < j < 9 ==> !SameKey(SamplePr(i), SamplePr(j))
  {
    if i == 6 {} else if i == 7 {} else {}
  }

  /** The sample's tasks are numbered `1` to `7`, are all to do or done, and carry no priority. */
  lemma DefaultTasksConsistent(now: string)
    ensures |DefaultSnapshot(now).tasks| == 7
    ensures forall i :: 0 <= i < 7 ==> DefaultSnapshot(now).tasks[i].id == [('1' as int + i) as char]
    ensures forall t :: t in DefaultSnapshot(now).tasks ==>
              (t.status == "todo" || t.status == "done") && t.priority == None
  {
  }

  /** The sample's learning figures are consistent: 30 of 36 repos documented. */
  lemma DefaultLearningConsistent(now: string)
    ensures 0 <= DefaultSnapshot(now).learning.reposDocumented <= DefaultSnapshot(now).learning.totalRepos
    ensures DefaultSnapshot(now).learning.totalRepos == 36 && DefaultSnapshot(now).learning.reposDocumented == 30
  {
  }
}
