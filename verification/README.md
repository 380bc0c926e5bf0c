# Outbound and reporting scripts: a Dafny model of their decision logic

This project models the parts of the outbound-automation and dashboard
scripts that decide what ends up in a report:

- **Trello progress report** (`crewai-outbound/multiagents/progress_report.py`).
  - The query parameters of every request.
  - `enrich_cards_with_details`, which gives each card of a board its list name and its comments. List names go through a per-run cache, so each list id is looked up once. A failed lookup falls back to the id itself. A failed comment fetch leaves the card without comments.
  - The two agent tools built on it: the single-card fetcher and the whole-board fetcher. The board fetcher has a canned fallback record.
- **Jira sprint report** (`ai-dashboards/src/sprint_ai_report.py`).
  - The "is this setting configured" test.
  - The active-sprint lookup.
  - The per-issue loop of `get_jira_issues`, which builds the sheet rows and splits the story points into completed and remaining work.
  - The line layout of the PDF report: 110-character clipping, a 14-point step, and page breaks below y = 120.
- **CODIR PDF** (`crewai-outbound/planification_projet/notebooks/rapport_codir.py`).
  - `_safe`, which replaces exotic spaces and, with a core PDF font, every character Latin-1 cannot encode.
  - The whitespace collapse applied to the synthesis paragraph.
- **Outbound campaign** (`crewai-outbound/outbound_commercial/src/main.py`): the loop that looks for the campaign text in the crew's result.

How the model is built:

- Every HTTP answer, the Jira issue search and the crew's result are inputs of the model.
- Each loop of the scripts is a Dafny method proved against a recursive or declarative specification function. The properties the scripts rely on are lemmas about those functions.
- Shared pieces live in their own modules:
  - `Wrappers`: `Option`, `Result`;
  - `PyText`: Python's `isspace`, `strip`, `lower`, `split()` and `" ".join`;
  - `JsonValue`: JSON values with Python truthiness.

## Model

| member | source | states |
|---|---|---|
| Trello.Params | crewai-outbound/multiagents/progress_report.py:93-97 | the parameters hold `key` and `token` plus exactly the extra keys; extra values win over the credentials, and the credentials are kept otherwise |
| Trello.LabelText | crewai-outbound/multiagents/progress_report.py:162 | a label reads as its name, or as its colour when the name is missing or empty |
| Trello.LabelTexts | crewai-outbound/multiagents/progress_report.py:162 | one text per label of the card, in order; no labels when the card has none |
| Trello.ToComment | crewai-outbound/multiagents/progress_report.py:147-151 | a comment keeps the action's date, its author's full name (none without an author) and its text stripped (`""` without one) |
| Trello.CommentsOf | crewai-outbound/multiagents/progress_report.py:145-151 | at most one comment per action; every kept text is stripped (no whitespace at either end) |
| Trello.CommentsOfAppend | crewai-outbound/multiagents/progress_report.py:145-151 | keeping comments commutes with concatenating action lists, so comments keep the order of their actions |
| Trello.CommentsOfOne | crewai-outbound/multiagents/progress_report.py:146-151 | one action gives exactly its comment record if its type is `commentCard`, and nothing otherwise |
| Trello.NoCommentActionNoComment | crewai-outbound/multiagents/progress_report.py:146 | actions of other types never produce a comment |
| Trello.CollectComments | crewai-outbound/multiagents/progress_report.py:145-151 | the inner loop returns exactly the `commentCard` comments of the actions, in order |
| Trello.FetchComments | crewai-outbound/multiagents/progress_report.py:142-154 | a card's comments are its filtered actions; a card without an id or a failed fetch gives no comments |
| Trello.CardComments | crewai-outbound/multiagents/progress_report.py:142-154 | a card without an id or whose fetch fails has no comments; otherwise its comments are those of its actions |
| Trello.ListKeys | crewai-outbound/multiagents/progress_report.py:134 | the cache key of each card is its `idList`, `""` when missing, one key per card in order |
| Trello.DistinctKeys | crewai-outbound/multiagents/progress_report.py:130-140 | the keys looked up: exactly the keys of the cards, each once |
| Trello.DistinctKeysPrefix | crewai-outbound/multiagents/progress_report.py:133-140 | the lookups made for the first cards are a prefix of the lookups of the whole run |
| Trello.DistinctKeysStep | crewai-outbound/multiagents/progress_report.py:135-140 | one more card adds its key to the lookups exactly when the key was not met before |
| Trello.LoggedAtFirstOccurrence | crewai-outbound/multiagents/progress_report.py:135-137 | a key is looked up at the first card that carries it, right after the keys met before it |
| Trello.RankCountsEarlierKeys | crewai-outbound/multiagents/progress_report.py:135-137 | the lookup for a key is preceded by one lookup per distinct key of the cards before its first card |
| Trello.NewKeyRank | crewai-outbound/multiagents/progress_report.py:135-137 | a key first met at card i is looked up after as many lookups as there are distinct keys before i |
| Trello.ResolveNameFallsBack | crewai-outbound/multiagents/progress_report.py:125-139 | a failed lookup, or an answer without a name, names the list by its id; otherwise the answer's name |
| Trello.CacheAtStart | crewai-outbound/multiagents/progress_report.py:130 | the empty cache is consistent with no card processed |
| Trello.CacheAtEnd | crewai-outbound/multiagents/progress_report.py:133-140 | after the last card every distinct list id has been looked up exactly once, in order of first occurrence |
| Trello.CacheHit | crewai-outbound/multiagents/progress_report.py:135-140 | a cached key makes no request, and the cached name is the name every card of that list gets |
| Trello.CacheMiss | crewai-outbound/multiagents/progress_report.py:135-139 | an uncached key makes one request, numbered by the cache size; its answer, or the id on failure, is stored |
| Trello.CachedListName | crewai-outbound/multiagents/progress_report.py:134-140 | the cache step of the loop: hit or miss as above; the name returned is the list name of that id for the whole run |
| Trello.Enrichment | crewai-outbound/multiagents/progress_report.py:156-165 | one record per card, the j-th being the record of card j |
| Trello.EnrichedCardIs | crewai-outbound/multiagents/progress_report.py:156-165 | a card's record copies id, name, due, last activity and shortUrl, and adds its list name, labels and comments |
| Trello.EnrichCard | crewai-outbound/multiagents/progress_report.py:133-165 | the loop body builds the record of card i and keeps the cache consistent |
| Trello.EnrichCardsWithDetails | crewai-outbound/multiagents/progress_report.py:128-166 | one record per card, in order, each its specified record; each distinct list id is looked up exactly once |
| Trello.CommentFailureIsLocal | crewai-outbound/multiagents/progress_report.py:142-154 | a card's record depends only on the comment fetch of that card |
| Trello.FindCard | crewai-outbound/multiagents/progress_report.py:192 | the first card with the id, or none exactly when no card has it |
| Trello.FetchCard | crewai-outbound/multiagents/progress_report.py:189-197 | a listing failure gives the "Échec récupération carte" error; an unknown id gives the "introuvable" error; otherwise the enriched record of the first matching card |
| Trello.FallbackCard | crewai-outbound/multiagents/progress_report.py:218-227 | the canned record: id "fallback-card", list "TODO", label "Urgent", and one comment from "Système" carrying the error text |
| Trello.FetchBoard | crewai-outbound/multiagents/progress_report.py:213-227 | a listing failure gives the single fallback record carrying the error text; otherwise one enriched record per card, in order |
| SprintReport.IsEnabled | ai-dashboards/src/sprint_ai_report.py:57-58 | a setting is enabled exactly when it holds a non-whitespace character |
| SprintReport.CurrentSprintName | ai-dashboards/src/sprint_ai_report.py:61-70 | "Sprint inconnu" without a server or a board; the exception when the request fails; the API error for a non-200 status; the first active sprint's name, "Aucun sprint actif" when there is none, and an error when it has no name |
| SprintReport.NoRequestWithoutBoard | ai-dashboards/src/sprint_ai_report.py:63-64 | without a server or a board id the answer does not depend on the server's response |
| SprintReport.SprintName | ai-dashboards/src/sprint_ai_report.py:87-93 | the first sprint's `name` (its `str()` when it has no such attribute), "[]" for an empty list, "No Sprint" without a field, the field's `str()` otherwise |
| SprintReport.StoryPoints | ai-dashboards/src/sprint_ai_report.py:96-100 | missing, empty and unparseable story points are 0; a number is kept; a parseable text gives its value |
| SprintReport.StoryPointsDefaultToZero | ai-dashboards/src/sprint_ai_report.py:96-100 | missing and unparseable story points count as 0 |
| SprintReport.RowOf | ai-dashboards/src/sprint_ai_report.py:108-116 | a row keeps key, summary and the status as Jira spells it; "Unassigned" without an assignee and "" without a priority, else their names; the sprint name and story points |
| SprintReport.NormalizeStatus | ai-dashboards/src/sprint_ai_report.py:102 | the normalised status is no longer than the name, empty exactly when the name is blank or missing, and has no capitals left |
| SprintReport.AsWrittenOnlyDoneOrClosed | ai-dashboards/src/sprint_ai_report.py:82 | with the status set as the file holds it, only "done" and "closed" can ever count as completed |
| SprintReport.LowerHasNoCapitalATilde | ai-dashboards/src/sprint_ai_report.py:82 | a lower-cased status never holds U+00C3, the first character of each doubly encoded accented status |
| SprintReport.TermineIsNotDoneAsWritten | ai-dashboards/src/sprint_ai_report.py:82-103 | an issue in status "Terminé" is remaining work as written, and completed with the intended set |
| SprintReport.NormalizeTermine | ai-dashboards/src/sprint_ai_report.py:102 | "Terminé" normalises to "terminé" |
| SprintReport.LowerTermine | ai-dashboards/src/sprint_ai_report.py:102 | lower-casing "Terminé" gives "terminé" |
| SprintReport.NormalFormIsFixed | ai-dashboards/src/sprint_ai_report.py:102 | a status without whitespace or capitals is its own normal form |
| SprintReport.DoneStatusesReachable | ai-dashboards/src/sprint_ai_report.py:82-103 | every intended closing status, written as it is, is recognised as completed |
| SprintReport.TotalPointsAppend | ai-dashboards/src/sprint_ai_report.py:103-106 | the points of two runs of issues add up |
| SprintReport.PointsPartition | ai-dashboards/src/sprint_ai_report.py:102-106 | every issue goes to exactly one of completed and remaining, so the two totals add up to all the points |
| SprintReport.TermineCountsAsRemaining | ai-dashboards/src/sprint_ai_report.py:82-106 | with the set as the file holds it, the points of a "Terminé" issue go to the remaining total; with the intended set, to the completed total |
| SprintReport.TallyIsSplit | ai-dashboards/src/sprint_ai_report.py:103-106 | the running totals are the points of the done issues and of the open issues |
| SprintReport.RowPointsMatch | ai-dashboards/src/sprint_ai_report.py:108-116 | rows carrying the issues' story points sum to the issues' points |
| SprintReport.ReportSums | ai-dashboards/src/sprint_ai_report.py:84-118 | the two totals split the points, and together they equal the sum of the rows' points |
| SprintReport.CountPoints | ai-dashboards/src/sprint_ai_report.py:102-106 | one issue's points go to the completed total when its normalised status is in the closing set, else to the remaining total |
| SprintReport.TallyIssues | ai-dashboards/src/sprint_ai_report.py:79-118 | one row per issue in search order; completed and remaining are the points of the done and of the open issues for the given closing set, and add up to the rows' total |
| SprintReport.GetJiraIssues | ai-dashboards/src/sprint_ai_report.py:72-118 | an incomplete config is an error; a failing search is an error carrying its text; otherwise the report of the issues for the given closing set (the file's own set is `DoneStatusesAsWritten`) |
| SprintReport.Clip | ai-dashboards/src/sprint_ai_report.py:315 | a drawn line is the prefix of 110 characters of a longer line, and the whole line when it is short enough |
| SprintReport.LineAdvance | ai-dashboards/src/sprint_ai_report.py:316-319 | each line moves y down by 14, or starts a new page at 760 when that would go below 120 |
| SprintReport.LineYInBounds | ai-dashboards/src/sprint_ai_report.py:313-319 | every line is drawn between y = 120 and y = 760 |
| SprintReport.LayoutInsights | ai-dashboards/src/sprint_ai_report.py:313-319 | one clipped drawing per line, at the page and height of the closed form, always inside the margins |
| SprintReport.ChartTop | ai-dashboards/src/sprint_ai_report.py:322 | the chart top is y - 260, or 100 when that would be lower |
| CodirPdf.ReplaceChar | crewai-outbound/planification_projet/notebooks/rapport_codir.py:115 | `str.replace` of one character: same length, each occurrence replaced and nothing else changed |
| CodirPdf.Latin1Replace | crewai-outbound/planification_projet/notebooks/rapport_codir.py:118 | the Latin-1 round trip with "replace": same length, characters above 255 become `?` |
| CodirPdf.Safe | crewai-outbound/planification_projet/notebooks/rapport_codir.py:113-121 | `None` counts as empty; same length; character by character the exotic spaces become spaces and, with the core font, the rest above 255 becomes `?`; no exotic space remains |
| CodirPdf.SafeOfNothing | crewai-outbound/planification_projet/notebooks/rapport_codir.py:115 | `None` and `""` give `""` |
| CodirPdf.SafeUnicodeFont | crewai-outbound/planification_projet/notebooks/rapport_codir.py:115 | with the Unicode font only the three exotic spaces change |
| CodirPdf.SafeCoreFont | crewai-outbound/planification_projet/notebooks/rapport_codir.py:116-120 | with the core font Latin-1 characters survive and the others become `?`, except the three exotic spaces (U+00A0, U+2009, U+202F), which become spaces; the output is all Latin-1 |
| CodirPdf.SafeIdempotent | crewai-outbound/planification_projet/notebooks/rapport_codir.py:113-121 | `_safe` applied twice is `_safe` applied once |
| CodirPdf.CollapseSynthesis | crewai-outbound/planification_projet/notebooks/rapport_codir.py:146 | the collapsed synthesis has only single spaces between words and none at the ends, and holds the same words in the same order |
| PyText.Strip | ai-dashboards/src/sprint_ai_report.py:102 | `strip()`: the text with whitespace removed from its ends and nothing else; no whitespace left at either end; empty exactly when the text is all whitespace |
| PyText.TrimmedIsMiddle | ai-dashboards/src/sprint_ai_report.py:102 | what trimming keeps is one slice of the text, with only whitespace before and after it |
| PyText.StripIsMiddle | ai-dashboards/src/sprint_ai_report.py:102 | `strip()` keeps exactly the text between the leading and the trailing whitespace |
| PyText.Lower | ai-dashboards/src/sprint_ai_report.py:102 | `lower()`: same length, character by character lower-cased |
| PyText.Words | crewai-outbound/planification_projet/notebooks/rapport_codir.py:146 | `split()` yields non-empty words without whitespace, and no words exactly when the text is blank |
| PyText.WordsOfSpaceThen | crewai-outbound/planification_projet/notebooks/rapport_codir.py:146 | whitespace before a text does not change its words |
| PyText.WordsOfWordThen | crewai-outbound/planification_projet/notebooks/rapport_codir.py:146 | splitting a word followed by whitespace yields that word first |
| PyText.WordsOfJoin | crewai-outbound/planification_projet/notebooks/rapport_codir.py:146 | joining words with single spaces and splitting again gives back the same words |
| PyText.JoinCollapsed | crewai-outbound/planification_projet/notebooks/rapport_codir.py:146 | joining words with single spaces gives a collapsed text |
| Campaign.TaskOutput | crewai-outbound/outbound_commercial/src/main.py:66 | the task's `output` if truthy, else its `result` if truthy, else nothing |
| Campaign.FirstStop | crewai-outbound/outbound_commercial/src/main.py:62-68 | the first key whose task list yields a truthy text, which ends the loop |
| Campaign.LastAssigning | crewai-outbound/outbound_commercial/src/main.py:62-70 | the last key whose value (a task list or a string) assigns the text |
| Campaign.CampaignText | crewai-outbound/outbound_commercial/src/main.py:60-70 | no text for a result that is not a dict; any text found is a string or truthy, and truthy when a task list ends the loop |
| Campaign.ExtractCampaignText | crewai-outbound/outbound_commercial/src/main.py:60-70 | the loop's result is the declarative campaign text: the first stopping key's text, or else what the last assigning key assigned |
| Campaign.NonDictGivesNone | crewai-outbound/outbound_commercial/src/main.py:63 | a result that is not a dict gives no text |
| Campaign.SameVerdictsSameText | crewai-outbound/outbound_commercial/src/main.py:62-70 | the text depends only on which keys stop, which assign, and what they assign |
| Campaign.LaterKeysIgnored | crewai-outbound/outbound_commercial/src/main.py:67-68 | once a key stops the loop, the later keys make no difference |
| Campaign.NonTaskListIgnored | crewai-outbound/outbound_commercial/src/main.py:65 | a list that is too short, or whose second element is not a dict, is skipped |
| Campaign.LaterStringReplacesString | crewai-outbound/outbound_commercial/src/main.py:69-70 | a string does not end the loop, so a later string replaces it |
| Campaign.EmptyTaskListClearsString | crewai-outbound/outbound_commercial/src/main.py:66 | a task list without a truthy output or result overwrites an earlier string with nothing |

## Left out

- Network calls, timeouts and the `Retry`/`HTTPAdapter` retry policy are not modelled. The outcome of each request is an input. An exception is `Err` for the Trello board listing, the active-sprint request and the Jira client or search, and `None` for a list-name or comment fetch.
- The URLs and query values of the three Trello requests, and the Jira JQL query, are not modelled. Only `_params` merging is.
- Trello.EnrichCardsWithDetails: the answer to a list lookup is a function of the list id and of the number of lookups made earlier in the same run. It is not a function of wall-clock state. The comment fetch is a function of the card id.
- Ill-typed JSON from Trello is not modelled. That covers actions that are not dicts, a non-string comment text or list id, and `labels` that is not a list. In the script:
  - an error inside `get_list_name`, `resp.json()` included, names the list by its id, which the model covers as a failed lookup;
  - an error while reading a card's actions empties that card's comments;
  - any other error inside the enrichment reaches the tool, and then the card tool returns its error record while the board tool returns its fallback record.
- `None` and a missing key are the same `Option.None` throughout. An `id` of JSON null is treated as a missing one. Two outcomes differ from the script because of this:
  - Trello.ResolveName: a list answer `{"name": null}` names the list by its id, where the script gives the list name `None`.
  - SprintReport.CurrentSprintName: an active sprint whose `name` is null gives `Err(MissingName)`, where the script returns `None`.
- Story points are `real`, not IEEE floats. What `float()` makes of a non-numeric field is an input (`Textual(s, parsed)`).
- SprintReport.GetJiraIssues: the closing-status set is a parameter rather than a constant, so the same loop models the file as written (`DoneStatusesAsWritten`) and as intended (`DoneStatuses`).
- PyText.Lower maps only ASCII and Latin-1 capitals; the other Unicode case mappings of `str.lower()` are not modelled.
- `insights.splitlines()` in the PDF report is not modelled: the lines are an input of SprintReport.LayoutInsights. ReportLab drawing, the chart image, the sheet upload, the OpenAI insights, Slack and e-mail are out of scope.
- The Jira client object, the framework wiring of the agent tools (Pydantic schemas, CrewAI), logging, file output and the sentiment call after the campaign extraction are not modelled.
- CodirPdf.Safe: the exception handler around the Latin-1 round trip is not modelled. Encoding with "replace" never raises, so the handler never runs.

## Findings

| source | as written | input that shows it | evidently intended | confidence | as-written member | corrected member |
|---|---|---|---|---|---|---|
| ai-dashboards/src/sprint_ai_report.py:82 | the file is UTF-8 encoded twice, so the closing statuses read "terminÃ©", "terminÃ©e" and "rÃ©solu"; a lower-cased status never contains "Ã", so those three can never match | an issue in status "Terminé" is counted in the remaining points | "terminé", "terminée" and "résolu" count as completed, like "done" and "closed" | medium, not executed | SprintReport.TermineCountsAsRemaining | SprintReport.DoneStatusesReachable |
