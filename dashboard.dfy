/**
 * The computations app/page.tsx performs on a loaded snapshot before
 * rendering it: the category filter and its toggle buttons, the kanban
 * columns, the open-PR count, the repos still to document, and the style
 * lookups with their fallbacks.  The markup itself is not modelled.
 */
module Dashboard {
  import opened Wrappers
  import opened Data
  import Seqs

  // ---------------------------------------------------------------------------
  // Category filter

  /**
   * An optional string is truthy when present and non-empty: as a filter,
   * `null` and the empty string both mean "no filter".
   */
  predicate Truthy(filter: Option<string>)
  {
    filter.Some? && filter.value != ""
  }

  /** The tasks shown: all of them without a filter, else those of the selected category. */
  function FilteredTasks(tasks: seq<Task>, filter: Option<string>): (r: seq<Task>)
    ensures !Truthy(filter) ==> r == tasks
    ensures Truthy(filter) ==> Seqs.IsSubsequence(r, tasks)
    ensures Truthy(filter) ==>
              forall t :: multiset(r)[t] == if t.category == filter.value then multiset(tasks)[t] else 0
  {
    if Truthy(filter) then Seqs.Filter((t: Task) => t.category == filter.value, tasks) else tasks
  }

  /** Each task's category, in task order (`data.tasks.map(t => t.category)`). */
  function TaskCategories(tasks: seq<Task>): (r: seq<string>)
    ensures |r| == |tasks|
    ensures forall i :: 0 <= i < |tasks| ==> r[i] == tasks[i].category
  {
    seq(|tasks|, i requires 0 <= i < |tasks| => tasks[i].category)
  }

  /** The filter buttons: every category of the snapshot once (`[...new Set(...)]`). */
  function Categories(tasks: seq<Task>): (r: seq<string>)
    ensures Seqs.NoDuplicates(r)
    ensures forall c :: c in r <==> exists t :: t in tasks && t.category == c
  {
    var cats := TaskCategories(tasks);
    assert forall c :: c in cats <==> exists t :: t in tasks && t.category == c by {
      forall c | c in cats ensures exists t :: t in tasks && t.category == c {
        var i :| 0 <= i < |cats| && cats[i] == c;
        assert tasks[i] in tasks;
      }
      forall c | exists t :: t in tasks && t.category == c ensures c in cats {
        var t :| t in tasks && t.category == c;
        var i :| 0 <= i < |tasks| && tasks[i] == t;
        assert cats[i] == c;
      }
    }
    Seqs.Distinct(cats)
  }

  /** The buttons appear in the order in which their categories first occur among the tasks. */
  lemma CategoriesInFirstOccurrenceOrder(tasks: seq<Task>, i: nat, j: nat)
    requires i < j < |Categories(tasks)|
    ensures Seqs.FirstIndex(TaskCategories(tasks), Categories(tasks)[i])
          < Seqs.FirstIndex(TaskCategories(tasks), Categories(tasks)[j])
  {
    Seqs.DistinctInFirstOccurrenceOrder(TaskCategories(tasks), i, j);
  }

  // ---------------------------------------------------------------------------
  // Filter buttons: the state held by `useState<string | null>(null)`

  datatype Click = All | Category(name: string)

  /**
   * The filter after a click: "All" clears it; a category button clears the
   * filter when that category is already selected and selects it otherwise.
   */
  function NextFilter(filter: Option<string>, click: Click): (r: Option<string>)
    ensures click.All? ==> r == None
    ensures click.Category? ==> (r == None <==> filter == Some(click.name))
    ensures r.Some? ==> click == Category(r.value)
  {
    match click
    case All => None
    case Category(c) => if filter == Some(c) then None else Some(c)
  }

  /** Clicking the same category twice ends where it started if it was selected, and unfiltered otherwise. */
  lemma ClickTwice(filter: Option<string>, c: string)
    ensures NextFilter(NextFilter(filter, Category(c)), Category(c))
            == if filter == Some(c) then Some(c) else None
  {
  }

  /** The filter after a series of clicks, starting unfiltered. */
  function FilterAfter(clicks: seq<Click>): (r: Option<string>)
  {
    if clicks == [] then None else NextFilter(FilterAfter(clicks[..|clicks| - 1]), clicks[|clicks| - 1])
  }

  /**
   * Whatever the clicks, the filter is either cleared or names a category
   * whose button was clicked, and it is cleared right after a click on "All".
   */
  lemma {:induction false} FilterAfterClicks(clicks: seq<Click>)
    ensures FilterAfter(clicks) == None || Category(FilterAfter(clicks).value) in clicks
    ensures clicks != [] && clicks[|clicks| - 1] == All ==> FilterAfter(clicks) == None
  {
    if clicks != [] {
      FilterAfterClicks(clicks[..|clicks| - 1]);
    }
  }

  /** The filter state of one dashboard page. */
  class FilterState {
    var filter: Option<string>

    /** The page starts unfiltered. */
    constructor ()
      ensures filter == None
    {
      filter := None;
    }

    /** The "All" button. */
    method ClickAll()
      modifies this
      ensures filter == NextFilter(old(filter), All)
    {
      filter := None;
    }

    /** The button of category `c`. */
    method ClickCategory(c: string)
      modifies this
      ensures filter == NextFilter(old(filter), Category(c))
    {
      filter := if filter == Some(c) then None else Some(c);
    }

    /** The tasks the page shows for the current filter. */
    function Visible(tasks: seq<Task>): (r: seq<Task>)
      reads this
      ensures r == FilteredTasks(tasks, filter)
      ensures !Truthy(filter) ==> r == tasks
      ensures Truthy(filter) ==> forall t :: t in r <==> t in tasks && t.category == filter.value
      ensures |r| <= |tasks|
    {
      forall t ensures Truthy(filter) ==> (t in FilteredTasks(tasks, filter) <==> t in tasks && t.category == filter.value) {
        Seqs.InMultiset(FilteredTasks(tasks, filter), t);
        Seqs.InMultiset(tasks, t);
      }
      FilteredTasks(tasks, filter)
    }
  }

  /**
   * Clicking a category button on a fresh page narrows the view to that
   * category (an empty category name narrows nothing); clicking it again
   * restores the whole list.
   */
  method ToggleScenario(tasks: seq<Task>, c: string) returns (narrowed: seq<Task>, restored: seq<Task>)
    ensures narrowed == FilteredTasks(tasks, Some(c))
    ensures c != "" ==> forall t :: t in narrowed <==> t in tasks && t.category == c
    ensures c == "" ==> narrowed == tasks
    ensures restored == tasks
  {
    var page := new FilterState();
    page.ClickCategory(c);
    narrowed := page.Visible(tasks);
    page.ClickCategory(c);
    restored := page.Visible(tasks);
  }

  // ---------------------------------------------------------------------------
  // Kanban columns

  datatype Board = Board(todo: seq<Task>, inProgress: seq<Task>, done: seq<Task>)

  /** The statuses the board has a column for. */
  predicate KnownStatus(status: string)
  {
    status == "todo" || status == "in-progress" || status == "done"
  }

  predicate IsTodo(t: Task) { t.status == "todo" }
  predicate IsInProgress(t: Task) { t.status == "in-progress" }
  predicate IsDone(t: Task) { t.status == "done" }

  /**
   * The three columns, each the shown tasks with its status in their shown
   * order, a repeated task as often as it is shown; a column's size is the
   * number of shown tasks with its status.
   */
  function Columns(shown: seq<Task>): (b: Board)
    ensures forall t :: t in b.todo <==> t in shown && t.status == "todo"
    ensures forall t :: t in b.inProgress <==> t in shown && t.status == "in-progress"
    ensures forall t :: t in b.done <==> t in shown && t.status == "done"
    ensures Seqs.IsSubsequence(b.todo, shown)
    ensures Seqs.IsSubsequence(b.inProgress, shown)
    ensures Seqs.IsSubsequence(b.done, shown)
    ensures forall t :: multiset(b.todo)[t] == if t.status == "todo" then multiset(shown)[t] else 0
    ensures forall t :: multiset(b.inProgress)[t] == if t.status == "in-progress" then multiset(shown)[t] else 0
    ensures forall t :: multiset(b.done)[t] == if t.status == "done" then multiset(shown)[t] else 0
    ensures |b.todo| == Seqs.Tally(IsTodo, shown, 0)
    ensures |b.inProgress| == Seqs.Tally(IsInProgress, shown, 0)
    ensures |b.done| == Seqs.Tally(IsDone, shown, 0)
  {
    forall t ensures t in Seqs.Filter(IsTodo, shown) <==> t in shown && IsTodo(t) {
      Seqs.FilterMembers(IsTodo, shown, t);
    }
    forall t ensures t in Seqs.Filter(IsInProgress, shown) <==> t in shown && IsInProgress(t) {
      Seqs.FilterMembers(IsInProgress, shown, t);
    }
    forall t ensures t in Seqs.Filter(IsDone, shown) <==> t in shown && IsDone(t) {
      Seqs.FilterMembers(IsDone, shown, t);
    }
    assert shown[0..] == shown;
    Seqs.FilterLengthIsTally(IsTodo, shown, 0);
    Seqs.FilterLengthIsTally(IsInProgress, shown, 0);
    Seqs.FilterLengthIsTally(IsDone, shown, 0);
    Board(Seqs.Filter(IsTodo, shown), Seqs.Filter(IsInProgress, shown), Seqs.Filter(IsDone, shown))
  }

  /** The number of cards on the board. */
  function CardCount(b: Board): nat
  {
    |b.todo| + |b.inProgress| + |b.done|
  }

  /**
   * No task is shown in two columns, and a task with a status outside the three
   * known ones is shown in none: the columns hold every shown task exactly when
   * all statuses are known.
   */
  lemma ColumnsPartition(shown: seq<Task>)
    ensures CardCount(Columns(shown)) <= |shown|
    ensures CardCount(Columns(shown)) == |shown| <==> forall t :: t in shown ==> KnownStatus(t.status)
  {
    var b := Columns(shown);
    assert b == Board(Seqs.Filter(IsTodo, shown), Seqs.Filter(IsInProgress, shown), Seqs.Filter(IsDone, shown));
    Seqs.ThreeWaySplit(IsTodo, IsInProgress, IsDone, shown);
  }

  // ---------------------------------------------------------------------------
  // Counts

  /** A pull request counted as open. */
  predicate IsOpen(p: PR) { p.status == "open" }

  /** The number in "(n open)" above the pull-request table: how many pull requests are open. */
  function OpenPrCount(prs: seq<PR>): (n: nat)
    ensures n == Seqs.Tally(IsOpen, prs, 0)
    ensures n <= |prs|
    ensures n == |prs| <==> forall p :: p in prs ==> p.status == "open"
    ensures n == 0 <==> forall p :: p in prs ==> p.status != "open"
  {
    Seqs.FilterKeepsAll(IsOpen, prs);
    Seqs.FilterKeepsNone(IsOpen, prs);
    assert prs[0..] == prs;
    Seqs.FilterLengthIsTally(IsOpen, prs, 0);
    |Seqs.Filter(IsOpen, prs)|
  }

  /** The repos still to document. */
  function Remaining(learning: Learning): (n: int)
    ensures n + learning.reposDocumented == learning.totalRepos
    ensures 0 <= learning.reposDocumented <= learning.totalRepos ==> 0 <= n <= learning.totalRepos
  {
    learning.totalRepos - learning.reposDocumented
  }

  // ---------------------------------------------------------------------------
  // The whole derived view

  datatype View = View(
    shown: seq<Task>,
    categories: seq<string>,
    board: Board,
    openPrs: nat,
    remaining: int)

  /** Everything the page computes from a snapshot and the current filter before rendering. */
  function Derive(data: DashboardData, filter: Option<string>): (v: View)
    ensures CardCount(v.board) <= |v.shown| <= |data.tasks|
    ensures !Truthy(filter) ==> v.shown == data.tasks
    ensures Truthy(filter) ==> forall t :: t in v.shown <==> t in data.tasks && t.category == filter.value
    ensures forall c :: c in v.categories <==> exists t :: t in data.tasks && t.category == c
    ensures v.openPrs <= |data.prs|
    ensures v.shown == FilteredTasks(data.tasks, filter)
    ensures v.categories == Categories(data.tasks)
    ensures v.board == Columns(v.shown)
    ensures v.openPrs == OpenPrCount(data.prs)
    ensures v.remaining == Remaining(data.learning)
  {
    var shown := FilteredTasks(data.tasks, filter);
    ColumnsPartition(shown);
    forall t ensures Truthy(filter) ==> (t in shown <==> t in data.tasks && t.category == filter.value) {
      Seqs.InMultiset(shown, t);
      Seqs.InMultiset(data.tasks, t);
    }
    View(shown, Categories(data.tasks), Columns(shown), OpenPrCount(data.prs), Remaining(data.learning))
  }

  // ---------------------------------------------------------------------------
  // Style lookups with fallbacks

  datatype CategoryStyle = CategoryStyle(color: string, bg: string, icon: string)
  datatype PriorityStyle = PriorityStyle(color: string, marker: string)
  datatype BadgeStyle = BadgeStyle(bg: string, text: string, dot: string)

  /** Colours and icon per task category; the `default` entry is the fallback. */
  const CategoryConfig: map<string, CategoryStyle> := map[
    "Learning" := CategoryStyle("text-blue-400", "bg-blue-500/20", "\U{1F4DA}"),
    "Research" := CategoryStyle("text-purple-400", "bg-purple-500/20", "\U{1F52C}"),
    "Code Quality" := CategoryStyle("text-green-400", "bg-green-500/20", "\U{2728}"),
    "Tools" := CategoryStyle("text-orange-400", "bg-orange-500/20", "\U{1F527}"),
    "Bug Fix" := CategoryStyle("text-red-400", "bg-red-500/20", "\U{1F41B}"),
    "Feature" := CategoryStyle("text-cyan-400", "bg-cyan-500/20", "\U{1F680}"),
    "default" := CategoryStyle("text-gray-400", "bg-gray-500/20", "\U{1F4CB}")
  ]

  /** Colour and marker per task priority. */
  const PriorityConfig: map<string, PriorityStyle> := map[
    "high" := PriorityStyle("text-red-400", "\U{1F534}"),
    "medium" := PriorityStyle("text-yellow-400", "\U{1F7E1}"),
    "low" := PriorityStyle("text-green-400", "\U{1F7E2}")
  ]

  /** Badge colours per pull-request status. */
  const StatusBadgeConfig: map<string, BadgeStyle> := map[
    "open" := BadgeStyle("bg-yellow-500/20", "text-yellow-400", "bg-yellow-400"),
    "merged" := BadgeStyle("bg-purple-500/20", "text-purple-400", "bg-purple-400"),
    "closed" := BadgeStyle("bg-red-500/20", "text-red-400", "bg-red-400")
  ]

  /** The badge of a status the table does not know. */
  const UnknownStatusBadge: BadgeStyle := BadgeStyle("bg-gray-500/20", "text-gray-400", "bg-gray-400")

  /** The style of a category button or card: the category's own entry, or the `default` one. */
  function CategoryStyleOf(category: string): (s: CategoryStyle)
    ensures category in CategoryConfig ==> s == CategoryConfig[category]
    ensures category !in CategoryConfig ==> s == CategoryConfig["default"]
  {
    if category in CategoryConfig then CategoryConfig[category] else CategoryConfig["default"]
  }

  /** The marker on a task card: only for a truthy priority that has an entry. */
  function PriorityStyleOf(priority: Option<string>): (s: Option<PriorityStyle>)
    ensures s.Some? <==> Truthy(priority) && priority.value in PriorityConfig
    ensures s.Some? ==> s.value == PriorityConfig[priority.value]
  {
    if Truthy(priority) && priority.value in PriorityConfig then Some(PriorityConfig[priority.value]) else None
  }

  /** The status badge of a pull request: its status's entry, or the grey fallback. */
  function StatusBadgeOf(status: string): (s: BadgeStyle)
    ensures status in StatusBadgeConfig ==> s == StatusBadgeConfig[status]
    ensures status !in StatusBadgeConfig ==> s == UnknownStatusBadge
  {
    if status in StatusBadgeConfig then StatusBadgeConfig[status] else UnknownStatusBadge
  }

  /** Every category without an entry of its own looks like the `default` one, whatever its name. */
  lemma UnknownCategoriesLookAlike(a: string, b: string)
    requires a !in CategoryConfig && b !in CategoryConfig
    ensures CategoryStyleOf(a) == CategoryStyleOf(b) == CategoryStyleOf("default")
  {
  }

  /** The three declared statuses have badges distinct from each other and from the fallback. */
  lemma DeclaredStatusesDistinguished()
    ensures StatusBadgeOf("open") != StatusBadgeOf("merged")
    ensures StatusBadgeOf("open") != StatusBadgeOf("closed")
    ensures StatusBadgeOf("merged") != StatusBadgeOf("closed")
    ensures StatusBadgeOf("open") != UnknownStatusBadge
    ensures StatusBadgeOf("merged") != UnknownStatusBadge
    ensures StatusBadgeOf("closed") != UnknownStatusBadge
  {
  }
}
