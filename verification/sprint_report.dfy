/**
 * The decision logic of the Jira sprint report (ai-dashboards/src/sprint_ai_report.py):
 * the "is this setting configured" test, the active-sprint lookup, the
 * per-issue loop that builds the sheet rows and splits the story points into
 * completed and remaining, and the line layout of the PDF report. The Jira
 * REST answer and the issue search result are inputs.
 */
module SprintReport {
  import opened Wrappers
  import opened PyText

  // ---------------------------------------------------------------- settings

  /** `is_enabled(value)`: a setting counts as configured when it is not blank. */
  function IsEnabled(value: string): (r: bool)
    ensures r <==> exists i :: 0 <= i < |value| && !IsSpace(value[i])
  {
    value != "" && Strip(value) != ""
  }

  // ----------------------------------------------------------- active sprint

  /** One element of the `values` array of the board's sprint listing; `name` is absent when the element has no such key. */
  datatype SprintEntry = SprintEntry(name: Option<string>)

  /** The answer to `GET {server}/rest/agile/1.0/board/{id}/sprint?state=active`; `values` is `None` when missing or null. */
  datatype SprintResponse = SprintResponse(status: int, text: string, values: Option<seq<SprintEntry>>)

  /** The exceptions `get_current_sprint_name` raises. */
  datatype SprintError =
    | RequestFailed(error: string)         // raised by `requests.get` or by `resp.json()`
    | ApiError(status: int, text: string)   // RuntimeError("Jira API error {status}: {text}")
    | MissingName                          // KeyError on `values[0]["name"]`

  /** The request is only sent when both the server and the board id are set. */
  predicate SendsRequest(server: string, boardId: int) {
    server != "" && boardId != 0
  }

  /**
   * `get_current_sprint_name`, with the outcome of its one request as an
   * input: the response, or the text of the exception the request or the
   * decoding of its body raised.
   */
  function CurrentSprintName(server: string, boardId: int, response: Result<SprintResponse, string>): (r: Result<string, SprintError>)
    ensures !SendsRequest(server, boardId) ==> r == Ok("Sprint inconnu")
    ensures SendsRequest(server, boardId) && response.Err? ==> r == Err(RequestFailed(response.error))
    ensures SendsRequest(server, boardId) && response.Ok? && response.value.status != 200 ==>
      r == Err(ApiError(response.value.status, response.value.text))
    ensures r.Err? ==> SendsRequest(server, boardId)
    ensures SendsRequest(server, boardId) && response.Ok? && response.value.status == 200 ==>
      match response.value.values
      case Some(vs) => (vs == [] ==> r == Ok("Aucun sprint actif"))
                       && (vs != [] ==> r == if vs[0].name.Some? then Ok(vs[0].name.value) else Err(MissingName))
      case None => r == Ok("Aucun sprint actif")
  {
    if !SendsRequest(server, boardId) then Ok("Sprint inconnu")
    else if response.Err? then Err(RequestFailed(response.error))
    else if response.value.status == 200 then
      var values := response.value.values.GetOr([]);
      if values == [] then Ok("Aucun sprint actif")
      else if values[0].name.Some? then Ok(values[0].name.value)
      else Err(MissingName)
    else Err(ApiError(response.value.status, response.value.text))
  }

  /** Without a server or a board id the answer does not depend on any response: no request is made. */
  lemma NoRequestWithoutBoard(server: string, boardId: int, a: Result<SprintResponse, string>, b: Result<SprintResponse, string>)
    requires !SendsRequest(server, boardId)
    ensures CurrentSprintName(server, boardId, a) == CurrentSprintName(server, boardId, b)
  {
  }

  // ------------------------------------------------------------ issue loop

  /** The `name` attribute of a sprint object: missing, or present with a value that may be `None`. */
  datatype NameAttr = NoName | HasName(name: Option<string>)

  /** An element of the sprint field: its `name` attribute and its `str()`. */
  datatype SprintRef = SprintRef(name: NameAttr, repr: string)

  /** `customfield_10020`: absent or `None`, a list, or any other value (given by its `str()`). */
  datatype SprintField = NoSprintField | SprintList(sprints: seq<SprintRef>) | OtherSprintField(repr: string)

  /**
   * `customfield_10016`: absent or `None`, a number, or some other value given
   * by its text and by what Python's `float()` makes of it (`None` when it raises).
   */
  datatype PointsField = NoPoints | Numeric(v: real) | Textual(s: string, parsed: Option<real>)

  /** An assignee object; `displayName` may be `None`. */
  datatype JiraUser = JiraUser(displayName: Option<string>)

  /** A priority object; `name` may be `None`. */
  datatype Priority = Priority(name: Option<string>)

  /** The fields of an issue the loop reads; `assignee` and `priority` are `None` when unset. */
  datatype Issue = Issue(
    key: string,
    summary: string,
    statusName: Option<string>,
    assignee: Option<JiraUser>,
    sprint: SprintField,
    points: PointsField,
    priority: Option<Priority>)

  /** One row of the report: key, summary, status, assignee, sprint, priority, story points. */
  datatype Row = Row(
    key: string,
    summary: string,
    status: Option<string>,
    assignee: Option<string>,
    sprint: Option<string>,
    priority: Option<string>,
    storyPoints: real)

  datatype JiraConfig = JiraConfig(server: string, email: string, apiToken: string)

  /** The exceptions `get_jira_issues` raises. */
  datatype JiraError =
    | IncompleteConfig        // RuntimeError("Config Jira incomplète.")
    | SearchFailed(error: string)  // raised by the client or by `search_issues`

  datatype IssueReport = IssueReport(rows: seq<Row>, completed: real, remaining: real)

  /** The sprint name of a row: the first sprint's `name` (its `str()` without one), "No Sprint", or the field's `str()`. */
  function SprintName(f: SprintField): (n: Option<string>)
    ensures f.NoSprintField? ==> n == Some("No Sprint")
    ensures f.OtherSprintField? ==> n == Some(f.repr)
    ensures f == SprintList([]) ==> n == Some("[]")
    ensures f.SprintList? && f.sprints != [] && f.sprints[0].name.NoName? ==> n == Some(f.sprints[0].repr)
    ensures f.SprintList? && f.sprints != [] && f.sprints[0].name.HasName? ==> n == f.sprints[0].name.name
  {
    match f
    case NoSprintField => Some("No Sprint")
    case SprintList(sprints) =>
      if sprints == [] then Some("[]")
      else if sprints[0].name.HasName? then sprints[0].name.name
      else Some(sprints[0].repr)
    case OtherSprintField(repr) => Some(repr)
  }

  /** The story points of an issue: `float(field or 0)`, and 0 when `float()` raises. */
  function StoryPoints(f: PointsField): (p: real)
    ensures f.NoPoints? ==> p == 0.0
    ensures f.Numeric? ==> p == f.v
    ensures f.Textual? && (f.s == "" || f.parsed.None?) ==> p == 0.0
    ensures f.Textual? && f.s != "" && f.parsed.Some? ==> p == f.parsed.value
  {
    match f
    case NoPoints => 0.0
    case Numeric(v) => v
    case Textual(s, parsed) => if s == "" then 0.0 else parsed.GetOr(0.0)
  }

  /** The row `get_jira_issues` appends for one issue: the status as Jira spells it, and the defaults for a missing assignee or priority. */
  function RowOf(issue: Issue): (row: Row)
    ensures row.key == issue.key && row.summary == issue.summary && row.status == issue.statusName
    ensures issue.assignee.None? ==> row.assignee == Some("Unassigned")
    ensures issue.assignee.Some? ==> row.assignee == issue.assignee.value.displayName
    ensures issue.priority.None? ==> row.priority == Some("")
    ensures issue.priority.Some? ==> row.priority == issue.priority.value.name
    ensures row.sprint == SprintName(issue.sprint) && row.storyPoints == StoryPoints(issue.points)
  {
    Row(issue.key, issue.summary, issue.statusName,
        if issue.assignee.Some? then issue.assignee.value.displayName else Some("Unassigned"),
        SprintName(issue.sprint),
        if issue.priority.Some? then issue.priority.value.name else Some(""),
        StoryPoints(issue.points))
  }

  /** Missing and unparseable story points count as zero. */
  lemma StoryPointsDefaultToZero(s: string)
    ensures StoryPoints(NoPoints) == 0.0
    ensures StoryPoints(Textual(s, None)) == 0.0
  {
  }

  /** `(status.name or "").strip().lower()`. */
  function NormalizeStatus(name: Option<string>): (r: string)
    ensures |r| <= |name.GetOr("")|
    ensures r == [] <==> AllSpace(name.GetOr(""))
    ensures forall i :: 0 <= i < |r| ==> LowerChar(r[i]) == r[i]
  {
    Lower(Strip(name.GetOr("")))
  }

  /**
   * The set of closing statuses as the source file holds it: the file is
   * UTF-8 encoded twice, so each "é" of the intended names reads as the two
   * characters U+00C3 U+00A9.
   */
  const DoneStatusesAsWritten: set<string> :=
    {"done", "termin\U{C3}\U{A9}", "termin\U{C3}\U{A9}e", "r\U{C3}\U{A9}solu", "closed"}

  /** The closing statuses the report means: done, terminé, terminée, résolu, closed. */
  const DoneStatuses: set<string> :=
    {"done", "termin\U{E9}", "termin\U{E9}e", "r\U{E9}solu", "closed"}

  /** The issue counts as completed with the closing statuses `done`. */
  predicate IsDone(issue: Issue, done: set<string>) {
    NormalizeStatus(issue.statusName) in done
  }

  /** A lower-cased text never holds U+00C3, the first character of every doubly encoded "é". */
  lemma LowerHasNoCapitalATilde(s: string, i: nat)
    requires i < |s|
    ensures Lower(s)[i] != '\U{C3}'
  {
  }

  /**
   * As written, only "done" and "closed" can ever match: no normalised status
   * equals one of the doubly encoded names.
   */
  lemma AsWrittenOnlyDoneOrClosed(issue: Issue)
    ensures IsDone(issue, DoneStatusesAsWritten) ==> NormalizeStatus(issue.statusName) in {"done", "closed"}
  {
    var n := NormalizeStatus(issue.statusName);
    if n in DoneStatusesAsWritten && n != "done" && n != "closed" {
      var k := if n[0] == 'r' then 1 else 6;
      assert n[k] == '\U{C3}';
      LowerHasNoCapitalATilde(Strip(issue.statusName.GetOr("")), k);
    }
  }

  /** A status name without whitespace or capitals is its own normal form. */
  lemma NormalFormIsFixed(name: string)
    requires forall i :: 0 <= i < |name| ==> !IsSpace(name[i]) && LowerChar(name[i]) == name[i]
    ensures NormalizeStatus(Some(name)) == name
  {
  }

  /** Every intended closing status is reached: each one, written as it is, normalises to itself. */
  lemma DoneStatusesReachable(d: string)
    requires d in DoneStatuses
    ensures NormalizeStatus(Some(d)) == d
  {
    NormalFormIsFixed(d);
  }

  /** Concretely: an issue in status "Terminé" counts as remaining work in the source as written. */
  lemma TermineIsNotDoneAsWritten(issue: Issue)
    requires issue.statusName == Some("Termin\U{E9}")
    ensures !IsDone(issue, DoneStatusesAsWritten)
    ensures IsDone(issue, DoneStatuses)
  {
    NormalizeTermine();
    AsWrittenOnlyDoneOrClosed(issue);
  }

  lemma NormalizeTermine()
    ensures NormalizeStatus(Some("Termin\U{E9}")) == "termin\U{E9}"
  {
    var name := "Termin\U{E9}";
    assert !IsSpace(name[0]) && !IsSpace(name[|name| - 1]);
    assert Strip(name) == name;
    LowerTermine();
  }

  lemma LowerTermine()
    ensures Lower("Termin\U{E9}") == "termin\U{E9}"
  {
    var name, lowered := "Termin\U{E9}", "termin\U{E9}";
    forall i | 0 <= i < |name|
      ensures Lower(name)[i] == lowered[i]
    {
    }
  }

  /** The issues counted as completed, in search order. */
  function DoneIssues(issues: seq<Issue>, done: set<string>): seq<Issue> {
    if issues == [] then []
    else
      var last := issues[|issues| - 1];
      DoneIssues(issues[..|issues| - 1], done) + (if IsDone(last, done) then [last] else [])
  }

  /** The issues counted as remaining, in search order. */
  function OpenIssues(issues: seq<Issue>, done: set<string>): seq<Issue> {
    if issues == [] then []
    else
      var last := issues[|issues| - 1];
      OpenIssues(issues[..|issues| - 1], done) + (if IsDone(last, done) then [] else [last])
  }

  function TotalPoints(issues: seq<Issue>): real {
    if issues == [] then 0.0
    else TotalPoints(issues[..|issues| - 1]) + StoryPoints(issues[|issues| - 1].points)
  }

  function RowPoints(rows: seq<Row>): real {
    if rows == [] then 0.0
    else RowPoints(rows[..|rows| - 1]) + rows[|rows| - 1].storyPoints
  }

  lemma {:induction false} TotalPointsAppend(a: seq<Issue>, b: seq<Issue>)
    ensures TotalPoints(a + b) == TotalPoints(a) + TotalPoints(b)
    decreases |b|
  {
    if b == [] {
      assert a + b == a;
    } else {
      assert (a + b)[..|a + b| - 1] == a + b[..|b| - 1];
      TotalPointsAppend(a, b[..|b| - 1]);
    }
  }

  /** Every issue's points go to exactly one of the two totals. */
  lemma {:induction false} PointsPartition(issues: seq<Issue>, done: set<string>)
    ensures TotalPoints(DoneIssues(issues, done)) + TotalPoints(OpenIssues(issues, done)) == TotalPoints(issues)
    ensures |DoneIssues(issues, done)| + |OpenIssues(issues, done)| == |issues|
  {
    if issues != [] {
      var init, last := issues[..|issues| - 1], issues[|issues| - 1];
      PointsPartition(init, done);
      TotalPointsAppend(DoneIssues(init, done), if IsDone(last, done) then [last] else []);
      TotalPointsAppend(OpenIssues(init, done), if IsDone(last, done) then [] else [last]);
      assert TotalPoints([last]) == StoryPoints(last.points) by {
        assert [last][..0] == [];
      }
    }
  }

  /** The running totals of the loop, as (completed, remaining). */
  datatype Totals = Totals(completed: real, remaining: real)

  /** The totals after one more issue: its points go to the completed or to the remaining total. */
  function AddIssue(t: Totals, issue: Issue, done: set<string>): Totals {
    if IsDone(issue, done) then Totals(t.completed + StoryPoints(issue.points), t.remaining)
    else Totals(t.completed, t.remaining + StoryPoints(issue.points))
  }

  /** The totals the loop holds after the issues `issues`, one issue at a time. */
  function Tally(issues: seq<Issue>, done: set<string>): Totals {
    if issues == [] then Totals(0.0, 0.0)
    else AddIssue(Tally(issues[..|issues| - 1], done), issues[|issues| - 1], done)
  }

  /** The running totals are the points of the completed and of the remaining issues. */
  lemma {:induction false} TallyIsSplit(issues: seq<Issue>, done: set<string>)
    ensures Tally(issues, done).completed == TotalPoints(DoneIssues(issues, done))
    ensures Tally(issues, done).remaining == TotalPoints(OpenIssues(issues, done))
  {
    if issues != [] {
      var init, last := issues[..|issues| - 1], issues[|issues| - 1];
      TallyIsSplit(init, done);
      assert TotalPoints([last]) == StoryPoints(last.points) by {
        assert [last][..0] == [];
      }
      TotalPointsAppend(DoneIssues(init, done), if IsDone(last, done) then [last] else []);
      TotalPointsAppend(OpenIssues(init, done), if IsDone(last, done) then [] else [last]);
    }
  }

  /**
   * At the level of the loop: with the statuses as the file holds them, the
   * points of an issue in status "Terminé" go to the remaining total; with
   * the intended statuses they go to the completed total.
   */
  lemma TermineCountsAsRemaining(issue: Issue)
    requires issue.statusName == Some("Termin\U{E9}")
    ensures Tally([issue], DoneStatusesAsWritten) == Totals(0.0, StoryPoints(issue.points))
    ensures Tally([issue], DoneStatuses) == Totals(StoryPoints(issue.points), 0.0)
  {
    TermineIsNotDoneAsWritten(issue);
    assert [issue][..0] == [];
  }

  /** Rows whose points are those of the issues sum to the same total. */
  lemma {:induction false} RowPointsMatch(rows: seq<Row>, issues: seq<Issue>)
    requires |rows| == |issues|
    requires forall i :: 0 <= i < |rows| ==> rows[i].storyPoints == StoryPoints(issues[i].points)
    ensures RowPoints(rows) == TotalPoints(issues)
  {
    if rows != [] {
      RowPointsMatch(rows[..|rows| - 1], issues[..|issues| - 1]);
    }
  }

  /** The loop's totals split the points of the issues, and their sum is the sum of the rows' points. */
  lemma ReportSums(issues: seq<Issue>, rows: seq<Row>, done: set<string>)
    requires |rows| == |issues|
    requires forall i :: 0 <= i < |issues| ==> rows[i] == RowOf(issues[i])
    ensures Tally(issues, done).completed == TotalPoints(DoneIssues(issues, done))
    ensures Tally(issues, done).remaining == TotalPoints(OpenIssues(issues, done))
    ensures Tally(issues, done).completed + Tally(issues, done).remaining == RowPoints(rows)
  {
    TallyIsSplit(issues, done);
    PointsPartition(issues, done);
    RowPointsMatch(rows, issues);
  }

  /** The loop body's update of the two totals. */
  method CountPoints(issue: Issue, done: set<string>, completed: real, remaining: real) returns (completed': real, remaining': real)
    ensures Totals(completed', remaining') == AddIssue(Totals(completed, remaining), issue, done)
    ensures completed' + remaining' == completed + remaining + StoryPoints(issue.points)
  {
    completed', remaining' := completed, remaining;
    var storyPoints := StoryPoints(issue.points);
    var statusName := NormalizeStatus(issue.statusName);
    if statusName in done {
      completed' := completed + storyPoints;
    } else {
      remaining' := remaining + storyPoints;
    }
  }

  /**
   * The loop of `get_jira_issues` over the issues the search returned: one
   * row per issue in search order, and the story points split between the
   * completed and the remaining totals.
   */
  method TallyIssues(issues: seq<Issue>, done: set<string>) returns (report: IssueReport)
    ensures |report.rows| == |issues|
    ensures forall i :: 0 <= i < |issues| ==> report.rows[i] == RowOf(issues[i])
    ensures report.completed == TotalPoints(DoneIssues(issues, done))
    ensures report.remaining == TotalPoints(OpenIssues(issues, done))
    ensures report.completed + report.remaining == RowPoints(report.rows)
  {
    var data: seq<Row> := [];
    var completed, remaining := 0.0, 0.0;
    for i := 0 to |issues|
      invariant |data| == i
      invariant forall j :: 0 <= j < i ==> data[j] == RowOf(issues[j])
      invariant Totals(completed, remaining) == Tally(issues[..i], done)
    {
      var issue := issues[i];
      completed, remaining := CountPoints(issue, done, completed, remaining);
      assert issues[..i + 1][..i] == issues[..i];
      data := data + [RowOf(issue)];
    }
    assert issues[..|issues|] == issues;
    ReportSums(issues, data, done);
    report := IssueReport(data, completed, remaining);
  }

  /**
   * `get_jira_issues`, with the outcome of the JQL search as an input (the
   * issues, or the text of the exception the client raised) and the set of
   * closing statuses as a parameter: the file uses `DoneStatusesAsWritten`.
   */
  method GetJiraIssues(cfg: JiraConfig, done: set<string>, search: Result<seq<Issue>, string>) returns (r: Result<IssueReport, JiraError>)
    ensures cfg.server == "" || cfg.email == "" || cfg.apiToken == "" ==> r == Err(IncompleteConfig)
    ensures cfg.server != "" && cfg.email != "" && cfg.apiToken != "" && search.Err? ==> r == Err(SearchFailed(search.error))
    ensures r.Ok? <==> cfg.server != "" && cfg.email != "" && cfg.apiToken != "" && search.Ok?
    ensures r.Ok? ==> |r.value.rows| == |search.value|
    ensures r.Ok? ==> forall i :: 0 <= i < |search.value| ==> r.value.rows[i] == RowOf(search.value[i])
    ensures r.Ok? ==> r.value.completed == TotalPoints(DoneIssues(search.value, done))
    ensures r.Ok? ==> r.value.remaining == TotalPoints(OpenIssues(search.value, done))
    ensures r.Ok? ==> r.value.completed + r.value.remaining == RowPoints(r.value.rows)
  {
    if cfg.server == "" || cfg.email == "" || cfg.apiToken == "" {
      return Err(IncompleteConfig);
    }
    if search.Err? {
      return Err(SearchFailed(search.error));
    }
    var report := TallyIssues(search.value, done);
    return Ok(report);
  }

  // -------------------------------------------------------------- PDF layout

  /** `line[:110]`: the part of a line that is drawn. */
  function Clip(line: string): (r: string)
    ensures |r| <= 110
    ensures |r| <= |line| && r == line[..|r|]
    ensures |line| <= 110 ==> r == line
    ensures |line| > 110 ==> |r| == 110
  {
    if |line| <= 110 then line else line[..110]
  }

  /** One `drawString(72, y, text)` call on page `page` (0 is the first page). */
  datatype DrawnLine = DrawnLine(page: nat, y: int, text: string)

  /**
   * Where the loop puts the line with index `i`, in closed form: the first
   * page holds 45 lines from y = 740 down, each later page 46 lines from
   * y = 760 down, 14 points apart.
   */
  function LineY(i: nat): int {
    if i < 45 then 740 - 14 * i else 760 - 14 * ((i - 45) % 46)
  }

  function LinePage(i: nat): nat {
    if i < 45 then 0 else 1 + (i - 45) / 46
  }

  lemma DivModOf46(n: int, q: int, r: int)
    requires n == 46 * q + r && 0 <= r < 46
    ensures n / 46 == q && n % 46 == r
  {
  }

  /**
   * One step of the loop: y goes down by 14, and when it would fall below
   * 120 a new page starts at y = 760.
   */
  lemma {:induction false} LineAdvance(i: nat)
    ensures LineY(i) - 14 < 120 ==> LineY(i + 1) == 760 && LinePage(i + 1) == LinePage(i) + 1
    ensures LineY(i) - 14 >= 120 ==> LineY(i + 1) == LineY(i) - 14 && LinePage(i + 1) == LinePage(i)
  {
    if i >= 45 {
      var k := i - 45;
      var q, r := k / 46, k % 46;
      if r < 45 {
        DivModOf46(k + 1, q, r + 1);
      } else {
        DivModOf46(k + 1, q + 1, 0);
      }
    }
  }

  /** Every line is drawn between y = 120 and y = 760. */
  lemma LineYInBounds(i: nat)
    ensures 120 <= LineY(i) <= 760
  {
  }

  /**
   * The line loop of `generate_pdf_report`, over `insights.splitlines()`:
   * every line is drawn clipped to 110 characters, at the position the closed
   * form gives; `page` and `y` are where the loop leaves off.
   */
  method LayoutInsights(lines: seq<string>) returns (drawn: seq<DrawnLine>, page: nat, y: int)
    ensures |drawn| == |lines|
    ensures forall i :: 0 <= i < |lines| ==> drawn[i] == DrawnLine(LinePage(i), LineY(i), Clip(lines[i]))
    ensures forall i :: 0 <= i < |lines| ==> 120 <= drawn[i].y <= 760 && |drawn[i].text| <= 110
    ensures page == LinePage(|lines|) && y == LineY(|lines|)
    ensures 120 <= y <= 760
  {
    drawn, page, y := [], 0, 740;
    for i := 0 to |lines|
      invariant |drawn| == i
      invariant forall j :: 0 <= j < i ==> drawn[j] == DrawnLine(LinePage(j), LineY(j), Clip(lines[j]))
      invariant page == LinePage(i) && y == LineY(i)
    {
      LineAdvance(i);
      LineYInBounds(i);
      drawn := drawn + [DrawnLine(page, y, Clip(lines[i]))];
      y := y - 14;
      if y < 120 {
        page := page + 1;
        y := 760;
      }
    }
    LineYInBounds(|lines|);
  }

  /** The top of the chart image: `max(100, y - 260)`. */
  function ChartTop(y: int): (top: int)
    ensures 100 <= top
    ensures y <= 760 ==> top <= 500
    ensures y - 260 >= 100 ==> top == y - 260
    ensures y - 260 <= 100 ==> top == 100
  {
    if y - 260 > 100 then y - 260 else 100
  }
}
