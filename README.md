# Eden Dashboard, modelled in Dafny

Eden Dashboard is a small Next.js site. It shows what an automation agent has been doing: the pull
requests it opened, a kanban board of its tasks, and its progress in documenting repositories. Only
three pieces of it make decisions, and those three are what this project models and proves things about.

- **The request gate** (`gate.dfy`, `middleware.ts`).
  - Every page request the route matcher sends to the gate is either let through or redirected to `/login`.
  - Paths under `/api/` and the login page itself are exempt.
  - Any other path needs an `eden-auth` cookie equal to the `DASHBOARD_SECRET` environment variable.
  - The matcher keeps static assets, optimised images and the favicon away from the gate; `Routed` models it.
- **The dashboard view** (`dashboard.dfy`, `app/page.tsx`). The page computes these from a snapshot before rendering it:
  - the tasks shown under the current category filter;
  - the filter buttons (every category once, in first-seen order);
  - the three kanban columns;
  - the number of open pull requests;
  - the repositories still to document;
  - the colour and icon lookups with their fallbacks.
  The filter itself is page state that two kinds of button click change. The `FilterState` class models it.
- **The status endpoint** (`status_route.dfy`, `app/api/status/route.ts`).
  - It locates `status.json` from `CLAWD_DIR` or `HOME`.
  - It serves the parsed file untouched when there is one.
  - Otherwise it serves a built-in sample snapshot stamped with the current time.
  - The outcome of reading and parsing the file and the current time are parameters.

`data.dfy` holds the snapshot's record types (`PR`, `Task`, `Learning`, `Stats`, `DashboardData`).
`seqs.dfy` holds the generic sequence facts the view needs: order-preserving filtering, and removing
duplicates in first-occurrence order, which is what `[...new Set(xs)]` does. `end_to_end.dfy` combines
the modules:
- when a secret is configured, a visitor without the cookie is redirected to `/login`, but may still open the login page and poll the status endpoint;
- the unfiltered dashboard over the built-in sample has concrete figures.

Where the code departs from what a reader might expect of such a gate, the model follows the code:
- The gate has two outcomes, let through or redirected to `/login`. It has no separate "serve the login page" outcome.
- It tests the cookie before the login path. `Gate.RuleOrderIrrelevant` proves that the order changes no decision.
- It fails open when `DASHBOARD_SECRET` is unset (see Findings), rather than refusing every protected request.

## Model

| member | source | states |
|---|---|---|
| Gate.Middleware | middleware.ts:4-23 | A request passes exactly when its path starts with `/api/`, is `/login`, or its cookie equals the secret (absent equals absent); the only other outcome is a redirect to `/login` |
| Gate.ExemptionsFirst | middleware.ts:4-23 | The same rules with both exemptions checked before the cookie; a redirect always targets `/login` |
| Gate.RuleOrderIrrelevant | middleware.ts:12-19 | Testing the cookie before the login path decides every request as testing the exemptions first would |
| Gate.StartsWith | middleware.ts:6 | `String.prototype.startsWith`: the path's first characters are the prefix |
| Gate.ApiPathsPass | middleware.ts:6-8 | Every path under `/api/` passes, whatever the cookie and the secret |
| Gate.LoginPathPasses | middleware.ts:12-19 | `/login` passes with any cookie or none |
| Gate.ProtectedPathsNeedSecret | middleware.ts:12-22 | Any other path passes if and only if the cookie equals the secret, and is redirected to `/login` otherwise |
| Gate.ExemptionsAreExact | middleware.ts:6-17 | `/api`, `/login/` and `/apix/status` are protected: with a non-matching cookie they are redirected |
| Gate.FailOpenWhenSecretUnset | middleware.ts:10-13 | With no cookie and no secret configured, every path passes |
| Gate.EmptySecretMatchesEmptyCookie | middleware.ts:12 | An empty cookie value opens every path when the secret is the empty string |
| Gate.MiddlewareFailClosed | middleware.ts:4-23 | The corrected gate has the same two outcomes, and a redirect always targets `/login` |
| Gate.FailClosedWithoutSecret | middleware.ts:12-14 | With the secret unset or empty, the corrected gate redirects every protected path, whatever the cookie |
| Gate.FailClosedAgreesWhenConfigured | middleware.ts:4-23 | With a non-empty secret the corrected gate decides exactly as the original |
| Gate.FailClosedIsStricter | middleware.ts:4-23 | The corrected gate lets nothing through that the original refuses |
| Gate.Routed | middleware.ts:26 | The matcher, with its unescaped `.` read as a wildcard: a routed path starts with `/` and never with `/_next/static`, `/_next/image` or `/favicon.ico` |
| Gate.AssetsNeverRouted | middleware.ts:26 | No path under `/_next/static`, `/_next/image` or `/favicon.ico` reaches the gate |
| Gate.FaviconDotIsWildcard | middleware.ts:26 | The unescaped `.` also excludes `/favicon-ico`, while `/favicon` is routed |
| Gate.PagesAreRouted | middleware.ts:26 | `/`, `/login` and `/api/status` are routed through the gate |
| Dashboard.Truthy | app/page.tsx:89 | JavaScript truthiness of an optional string: present and non-empty |
| Dashboard.FilteredTasks | app/page.tsx:89-91 | With no filter, or the empty one, all tasks are shown; otherwise the order-preserving subsequence whose category is the filter, with every such task kept as often as it occurs |
| Dashboard.TaskCategories | app/page.tsx:93 | One category per task, in task order |
| Dashboard.Categories | app/page.tsx:93 | The filter buttons have no duplicates, and a category has a button exactly when some task has it |
| Dashboard.CategoriesInFirstOccurrenceOrder | app/page.tsx:93 | The buttons follow the order in which their categories first occur among the tasks |
| Dashboard.NextFilter | app/page.tsx:184-198 | "All" clears the filter; a category button clears it exactly when that category is selected and selects it otherwise |
| Dashboard.ClickTwice | app/page.tsx:198 | Two clicks on one category button return a selected category to itself and anything else to no filter |
| Dashboard.FilterAfter | app/page.tsx:60-198 | The filter after a series of clicks on a fresh page: none before any click, then `NextFilter` of each click in turn |
| Dashboard.FilterAfterClicks | app/page.tsx:184-198 | After any clicks from the initial state the filter is cleared or names a clicked category, and it is cleared after a final "All" |
| Dashboard.FilterState.constructor | app/page.tsx:60 | The page starts unfiltered |
| Dashboard.FilterState.ClickAll | app/page.tsx:184 | The "All" button moves the filter as `NextFilter` says (to no filter) |
| Dashboard.FilterState.ClickCategory | app/page.tsx:198 | A category button moves the filter as `NextFilter` says |
| Dashboard.FilterState.Visible | app/page.tsx:89-91 | The page shows the filtered tasks for its current filter: every task when the filter is absent or empty, otherwise exactly the tasks of the selected category, never more tasks than there are |
| Dashboard.ToggleScenario | app/page.tsx:198 | On a fresh page, clicking a category shows the filtered tasks for it (exactly its tasks when the name is non-empty, all tasks when it is empty); clicking it again shows all tasks again |
| Dashboard.Columns | app/page.tsx:216-228 | Each column holds exactly the shown tasks of its status, in their shown order and each as often as it is shown; its size is the number of shown tasks with that status, counted one by one |
| Dashboard.ColumnsPartition | app/page.tsx:216-228 | The columns hold at most the shown tasks, and all of them exactly when every status is todo, in-progress or done |
| Dashboard.OpenPrCount | app/page.tsx:134 | The open count is the number of pull requests whose status is `open`, counted one by one; so it is at most the number of pull requests, equals it exactly when all are open, and is zero exactly when none is |
| Dashboard.Remaining | app/page.tsx:256 | Remaining plus documented is the total, and lies between 0 and the total when documented does |
| Dashboard.Derive | app/page.tsx:89-256 | The derived view is made of the filtered tasks, the category buttons of all tasks, the columns of the shown tasks, the open count and the repos remaining; so it has a button for exactly the tasks' categories, no more cards than shown tasks and no more open pull requests than there are |
| Dashboard.CategoryStyleOf | app/page.tsx:194 | A category with its own entry gets that style; any other gets the `default` entry |
| Dashboard.UnknownCategoriesLookAlike | app/page.tsx:41-49 | All categories without an entry look like `default` |
| Dashboard.PriorityStyleOf | app/page.tsx:341 | A task card has a priority marker exactly when its priority is present, non-empty and has an entry, and then it is that entry |
| Dashboard.StatusBadgeOf | app/page.tsx:296-302 | A known pull-request status gets its own badge; any other gets the grey fallback |
| Dashboard.DeclaredStatusesDistinguished | app/page.tsx:296-302 | `open`, `merged` and `closed` have badges distinct from each other and from the fallback |
| Seqs.Filter | app/page.tsx:90 | Filtering keeps an order-preserving subsequence holding every element that passes, as often as it occurs, and nothing else |
| Seqs.FilterKeepsAll | app/page.tsx:134 | A filter keeps the whole sequence exactly when every element passes |
| Seqs.FilterKeepsNone | app/page.tsx:134 | A filter keeps nothing exactly when no element passes |
| Seqs.ThreeWaySplit | app/page.tsx:216-228 | Three mutually exclusive filters keep at most the whole sequence together, and all of it exactly when every element passes one |
| Seqs.Distinct | app/page.tsx:93 | Removing duplicates leaves no duplicates and the same elements |
| Seqs.DistinctInFirstOccurrenceOrder | app/page.tsx:93 | Removing duplicates keeps the elements in the order of their first occurrence |
| StatusRoute.OrElse | app/api/status/route.ts:6 | JavaScript's logical or on an optional string: a present non-empty string wins, and an absent or empty one yields the fallback |
| StatusRoute.Join | app/api/status/route.ts:6-9 | Joining skips an empty segment, and otherwise yields the first segment, one `/`, and the second segment |
| StatusRoute.BaseDir | app/api/status/route.ts:6 | The base directory is never empty: a non-empty `CLAWD_DIR`, or else `clawd` under `HOME` (or the relative `clawd`) |
| StatusRoute.StatusPath | app/api/status/route.ts:6-9 | The status file is `status.json` directly under the base directory |
| StatusRoute.UnsetEnvironmentGivesRelativePath | app/api/status/route.ts:6-9 | With both variables unset or empty, the file is the relative `clawd/status.json` |
| StatusRoute.EmptyClawdDirFallsBackToHome | app/api/status/route.ts:6-9 | An empty `CLAWD_DIR` is ignored in favour of `HOME` |
| StatusRoute.Respond | app/api/status/route.ts:11-54 | A parsed file is served unchanged; with no file, or one that fails to read or parse, the reply is the sample stamped with `now` |
| StatusRoute.FailureLikeMissing | app/api/status/route.ts:12-21 | A read or parse failure gives the same reply as a missing file |
| StatusRoute.ParsedIgnoresClock | app/api/status/route.ts:11-14 | A parsed file is served as it is, whatever the time |
| StatusRoute.FallbackDiffersOnlyInTimestamp | app/api/status/route.ts:21-54 | Two fallback replies differ at most in `lastUpdated` |
| StatusRoute.SamplePr | app/api/status/route.ts:24-32 | The sample's nine pull requests, one per position, as listed |
| StatusRoute.DefaultPrs | app/api/status/route.ts:23-33 | The sample's pull-request list has nine entries |
| StatusRoute.DefaultTasks | app/api/status/route.ts:34-42 | The sample's task list has seven entries |
| StatusRoute.DefaultSnapshot | app/api/status/route.ts:21-54 | The sample's `lastUpdated` is `now` |
| StatusRoute.DefaultPrsCount | app/api/status/route.ts:23-52 | The sample lists nine pull requests and reports nine created |
| StatusRoute.DefaultPrsOpen | app/api/status/route.ts:23-33 | Every sample pull request is open and has a positive number |
| StatusRoute.DefaultPrsUnique | app/api/status/route.ts:23-33 | No two sample pull requests share repository and number |
| StatusRoute.NewDasAppKeysUnique | app/api/status/route.ts:24-26 | The three `new-das-app` pull requests have keys unlike any later one |
| StatusRoute.Wheel2goKeysUnique | app/api/status/route.ts:27-29 | The three `wheel2go` pull requests have keys unlike any later one |
| StatusRoute.SingleKeysUnique | app/api/status/route.ts:30-32 | The last three pull requests have keys unlike any later one |
| StatusRoute.DefaultTasksConsistent | app/api/status/route.ts:34-42 | The sample has seven tasks with ids `1` to `7` in order, each to do or done, none with a priority |
| StatusRoute.DefaultLearningConsistent | app/api/status/route.ts:43-48 | The sample has documented 30 of 36 repositories |
| EndToEnd.VisitorWithoutCookie | middleware.ts:4-26 | With a secret configured, a visitor without the cookie is redirected from `/` to `/login` by the gate as written and by the corrected one; it may still open the login page and poll the status endpoint, which always answers |
| EndToEnd.SampleDashboard | app/page.tsx:89-256 | Over the sample, the unfiltered dashboard shows nine open pull requests (the reported number) and the buttons Learning, Research, Code Quality, Tools; it puts two tasks in to-do, none in progress and five in done, with six repositories remaining |
| EndToEnd.SampleOpenPrs | app/page.tsx:134 | All nine sample pull requests count as open |
| EndToEnd.SampleCategories | app/page.tsx:93 | The sample's filter buttons are Learning, Research, Code Quality, Tools |
| EndToEnd.SampleCategoryColumn | app/page.tsx:93 | The sample's task categories in task order |
| EndToEnd.DistinctSampleCategories | app/page.tsx:93 | Removing repeats from the sample's categories keeps the first of each |
| EndToEnd.DistinctOfPattern | app/page.tsx:93 | For four distinct values, the pattern a a b c a a d reduces to a b c d |
| EndToEnd.DistinctOfFirstFour | app/page.tsx:93 | For three distinct values, the pattern a a b c reduces to a b c |
| Seqs.FilterLengthIsTally | app/page.tsx:216-228 | A filter keeps exactly as many elements as pass the test, counted one by one; so a column's size is the number of tasks with its status |
| EndToEnd.SampleBoard | app/page.tsx:216-228 | The sample's board has two to-do tasks, none in progress and five done |
| EndToEnd.SampleTodo | app/api/status/route.ts:39-40 | Two sample tasks are to do |
| EndToEnd.SampleInProgress | app/api/status/route.ts:34-42 | No sample task is in progress |
| EndToEnd.SampleDone | app/api/status/route.ts:35-41 | Five sample tasks are done |

## Left out

- Rendering: the JSX markup, the CSS class strings, the `StatCard`, `TaskColumn` and `TaskCard` components, and `app/layout.tsx`. They only present values; the values themselves are modelled.
- The fetch and loading flow of the page, which calls `/api/status` and shows a spinner or an error. The login page and the `/api/auth` handler are also left out. These are network calls and navigation; the dashboard is modelled from the moment a snapshot is loaded.
- The progress bar percentage `Math.round(documented / total * 100)`. It is floating-point arithmetic.
- Date handling: `toLocaleString` on the page and `new Date().toISOString()` in the endpoint. The current time is an opaque string parameter.
- The file system, `JSON.parse`, `process.env` and the construction of `NextResponse` and `URL`. These are library calls. Their outcomes are parameters: the optional environment values and a `Missing | Failed | Parsed` load result.
- Logging the read or parse error with `console.error`. It has no effect on the reply.
- `StatusRoute.Respond`: a parsed file is limited to snapshot-shaped data. Other JSON is served untouched by the endpoint too, but the model does not represent it.
- `StatusRoute.Join`: it does not normalise paths as `path.join` does (`..`, `.` and repeated slashes). It is plain concatenation with `/`.
- `Gate.Routed`: it reads the matcher as a plain regular expression anchored at both ends. Next.js's own path compilation of matchers, such as case handling and its data routes, is not modelled.
- Config lookups do not model the keys that every JavaScript object inherits. For example, a category named `constructor` would find an inherited value rather than `default`.
- Statuses and priorities are plain strings, because the endpoint passes the file through unchecked. A status outside the declared ones is therefore modelled rather than ruled out.
- Numbers are unbounded integers, not JavaScript doubles. The counts and figures involved are small.

## Findings

| source | as written | input that shows it | evidently intended | confidence | as-written member | corrected member |
|---|---|---|---|---|---|---|
| middleware.ts:10-14 | The cookie test compares `authCookie?.value` with `process.env.DASHBOARD_SECRET` by strict equality. When the secret is unset and no cookie is sent, both sides are `undefined` and the request passes. The same happens when the secret and the cookie are both empty. | path `/`, no `eden-auth` cookie, `DASHBOARD_SECRET` unset | A protected page is served only when a non-empty secret is configured and the cookie carries it; otherwise the visitor is sent to `/login` | high; not executed | Gate.FailOpenWhenSecretUnset | Gate.FailClosedWithoutSecret |
