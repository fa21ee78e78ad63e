# NBA momentum dashboard and team scout reports: a verified model

The repository has three parts. A Streamlit page asks a generative model for
league-wide "trending up / trending down" players and shows them as cards
(`app.py`). Each run of a worker script asks the same model for a scout report on every
NBA team and upserts it into a SQLite `reports` table (`worker.py`). The
page builds its own inline prompt. `prompts.py` holds two live f-string
templates. `get_scout_report_prompt` feeds the worker's call.
`get_variance_prompt` is modelled as a live template, but no file shown here
calls it. This project
models the logic that remains once the network, the UI and the database
driver are removed:

- `Trends` (trends.dfy) covers `app.py`:
  - the greedy, `DOTALL` regex `\[.*\]`, as the span from the first `[` to the last `]`;
  - `json.loads`, as an abstract partial decode: a function parameter whose `None` means "raised";
  - the catch-all `except` of `get_global_trends`;
  - the UP/DOWN comprehensions;
  - the "show cards or show the error" decision.
- `Worker` (worker.dfy) covers `update_all_teams`:
  - a class `ReportStore` holds the `reports` table as a `map<(team, report_date), content>`;
  - its method `UpdateAllTeams` runs the loop over the teams, with a loop invariant over the processed prefix;
  - the method is proved against the function `Refreshed`, which describes the whole run;
  - the roster context string is `RosterContext`.
- `Prompts` (prompts.dfy) covers the two live templates of `prompts.py`. Each is written line by line and joined with `"\n"`, which is the same string as the triple-quoted f-string.
- `Text` (text.dfy) holds the string operations the three modules share:
  - Python's `sep.join`, `split("\n")` and ASCII `upper`;
  - the first and last index of a character;
  - the text before the first occurrence of a character;
  - a substring predicate.
- `Wrappers` (wrappers.dfy) holds `Option`. It stands for Python's `None`.

Inputs modelled as parameters:
- The text the model returns is a parameter. `None` means `generate_content` raised.
- `json.loads` is the function parameter `decode`.
- Each team's roster fetch and generation outcome is a `Fetch` value.
- The date `today` is a string parameter.

The templates are functions of their arguments and nothing else, because a
Dafny function reads no state.

The regex matches from the first `[` to the last `]` of the whole text, across
newlines and across any `]` or `[` in between. The code does this, and this
model follows the code. A description of the span as "the first bracketed
span" would give the answer `[1]` for `"[1] see [2]"`. The code gives the whole
text, as `Trends.GreedySpanTakesTrailingBracket` shows.

## Model

| member | source | states |
|---|---|---|
| Trends.MatchBoundsIsLeftmostLongest | app.py:12 | No match exists exactly when no `[...]` substring exists. A match found is one, it starts at or before every other match and it ends at or after every other match: the leftmost, longest match of `\[.*\]` under `DOTALL`. |
| Trends.MatchBounds | app.py:12 | No contract of its own: `Trends.MatchBoundsIsLeftmostLongest` pins it to the regex's leftmost, longest match. |
| Trends.ExtractSpan | app.py:12-15 | There is no span exactly when the text has no `[`, or has no `]` after its first `[`. A found span is the contiguous slice from the first `[` to the last `]`, both included. It is at least 2 long, opens with `[` and closes with `]`. |
| Trends.ExtractJsonList | app.py:10-15 | There are three outcomes. No list means no span. The decode raises exactly when a span exists and `decode` rejects it. Otherwise the result is the decoded span. |
| Trends.GetGlobalTrends | app.py:29-40 | The result is present exactly when the call returned text, the text holds a span and the span decodes. It is then the decoded span. A failure anywhere gives `None`. |
| Trends.Select | app.py:50-51 | The selection is no longer than the list, and every selected item's uppercased status is the wanted label. `SelectMembership`, `SelectMultiplicity` and `SelectIsSubsequence` fix it as the order-preserving filter. |
| Trends.UpTrends | app.py:50 | No contract of its own: `up_trends` is the selection for `UP`, so the `Select` lemmas and `UpDownPartition` cover it. |
| Trends.DownTrends | app.py:51 | No contract of its own: `down_trends` is the selection for `DOWN`, so the `Select` lemmas and `UpDownPartition` cover it. |
| Trends.SelectMembership | app.py:50-51 | An item is selected exactly when it is in the list and its uppercased status equals the wanted label. |
| Trends.SelectMultiplicity | app.py:50-51 | Each item occurs in the selection as often as it occurs in the list when its status matches, and not at all otherwise. |
| Trends.SelectAppend | app.py:50-51 | Selecting from a concatenation is concatenating the selections. |
| Trends.SelectIsSubsequence | app.py:50-51 | The selection is a subsequence of the list, so relative order is kept. |
| Trends.UpDownPartition | app.py:50-51 | No item is in both `up_trends` and `down_trends`. An item whose status is neither UP nor DOWN is in neither. Together the two lists take no item more often than the list holds it. |
| Trends.UpStatuses | app.py:50 | The statuses that count as UP are exactly `UP`, `Up`, `uP` and `up`. |
| Trends.Render | app.py:48-51 | The page is "unavailable" exactly when the trends are `None` or the empty list. Otherwise it shows the UP and DOWN selections. |
| Trends.ExtractSpanFromProse | app.py:12 | With no `[` before a bracketed candidate and no `]` after it, the extracted span is exactly that candidate. |
| Trends.ExtractSpanExample | app.py:12-14 | A JSON list that prose surrounds on both sides is extracted unchanged. |
| Trends.GreedySpanTakesTrailingBracket | app.py:12 | The greedy match of `"[1] see [2]"` is the whole string, not `"[1]"`. |
| Trends.CardsWithoutTrends | app.py:48-51 | A non-empty list with no UP or DOWN item still takes the cards branch, with two empty columns. |
| Worker.RosterContext | worker.py:31 | No contract of its own: `RosterContextIgnoresTail`, `RosterContextListsNames` and `RosterContextSeparators` pin it down. |
| Worker.RosterContextIgnoresTail | worker.py:31 | Names after the tenth never reach the roster context. |
| Worker.RosterContextListsNames | worker.py:31 | Each of the first min(10, n) names appears verbatim in the roster context. |
| Worker.RosterContextSeparators | worker.py:31 | For comma-free names the context has exactly min(10, n) - 1 commas, so it lists at most ten names. An empty roster gives none. |
| Worker.Refreshed | worker.py:24-38 | A run never removes a row, and every row it adds has the date `today`. `RefreshedLookup` gives the whole table key by key. |
| Worker.SentPrompts | worker.py:30-35 | At most one prompt is sent per listed entry. `SentPromptsMention` says what each prompt names. |
| Worker.LatestReport | worker.py:24-38 | The report a run leaves for a team is absent exactly when no attempt for that team succeeded. Otherwise it is the text of a successful attempt for the team with no later success. |
| Worker.RefreshedLookup | worker.py:19-38 | After a run, `(team, today)` holds the team's latest report. A key is present exactly when it was present before, or it is `(team, today)` for a team that succeeded. Every other row keeps its old value. |
| Worker.RefreshedWritesToday | worker.py:22-38 | Every row a run adds or changes has the report date `today`. |
| Worker.RefreshedByLatest | worker.py:24-38 | Two runs that leave the same latest report for every team leave the same table. |
| Worker.LatestReportSkipsFailure | worker.py:28-44 | An attempt that fails does not change any team's latest report. |
| Worker.RefreshedSkipsFailure | worker.py:28-44 | A team whose roster fetch or generation raises leaves the table as if it had not been listed, and the loop goes on. |
| Worker.LaterWriteWins | worker.py:24-38 | When a team is listed again and succeeds again, with no later success for it anywhere in the run, `(team, today)` holds the later report. |
| Worker.RefreshedGrowth | worker.py:24-38 | A run adds at most one row per listed entry. |
| Worker.SentPromptsMention | worker.py:30-35 | At most one prompt is sent per listed entry. Every prompt sent names `today` and one of the listed teams. |
| Worker.ReportStore.constructor | worker.py:17-18 | Opening the database gives the existing table and its rows, or no table and no rows. |
| Worker.ReportStore.CreateTableIfNotExists | worker.py:19 | After the call the table exists and every existing row survives. |
| Worker.ReportStore.InsertOrReplace | worker.py:38 | The row for `(team, date)` is set to the content and every other row is kept. Without the table nothing changes. |
| Worker.ReportStore.UpdateAllTeams | worker.py:16-46 | The table exists afterwards. Its rows are `Refreshed(old rows, attempts, today)`. The model was sent exactly `SentPrompts(attempts, today)`. |
| Prompts.VarianceLines | prompts.py:29-44 | No contract of its own: `VarianceLayout` proves these are the lines the prompt splits into. |
| Prompts.VariancePrompt | prompts.py:27-44 | No contract of its own: `VarianceMentions`, `VarianceLayout` and `ExampleObjectBraces` pin it down. |
| Prompts.VarianceMentions | prompts.py:33-34 | The variance prompt holds `date` and `context_notes` verbatim, whatever they contain. |
| Prompts.VarianceLayout | prompts.py:29-44 | Arguments that contain no newline give a prompt that splits into its 16 lines. Line 4 is `"    Current Date: " + date` and line 5 is `"    Context: " + context_notes`. The example element is alone on its line, between a `[` line and a `]` line. |
| Prompts.ExampleObjectBraces | prompts.py:42 | The doubled braces leave exactly one `{` and one `}` in the example element, at its two ends. |
| Prompts.ScoutReportLines | prompts.py:50-67 | No contract of its own: `ScoutReportLayout` proves these are the lines the prompt splits into. |
| Prompts.ScoutReportPrompt | prompts.py:48-67 | No contract of its own: `ScoutReportMentions`, `ScoutReportLayout` and `NumberedHeadings` pin it down. |
| Prompts.ScoutReportMentions | prompts.py:50-52 | The scout prompt holds `team_name`, `date` and `roster_names` verbatim. |
| Prompts.ScoutReportLayout | prompts.py:50-67 | Arguments that contain no newline give a prompt that splits into its 18 lines. The team and the date are on line 1, the roster on line 2 and line 6 is `"    SUMMARY" + ": " + text`, with `"    SUMMARY"` before its first colon. For k from 1 to 10, line 6 + k is `"    " + str(k) + ". " + label + ": " + text` for the k-th fixed label and text, and before its first colon stands `"    " + str(k) + ". " + label`. |
| Prompts.ScoutReportHeadings | prompts.py:56-66 | The same SUMMARY and numbered-line facts, stated about the template's lines before they are joined. |
| Prompts.NumberedHeadings | prompts.py:57-66 | The k-th numbered line is `"    " + str(k) + ". " + label + ": " + text`. Before its first colon stands `"    " + str(k) + ". "` and the k-th label: `INJURY STATUS`, `STARTING 5`, …, `BETTING EDGE 6`. |
| Prompts.LabelledHeading | prompts.py:56-66 | Before its first colon, a `label: text` line holds the four-space indentation and the label. |
| Text.FirstIndexOf | app.py:12 | The index, if any, of the first occurrence of a character: where the regex match starts. |
| Text.LastIndexOf | app.py:12 | The index, if any, of the last occurrence of a character: where the greedy match ends. |
| Text.LinesOfJoin | prompts.py:29-67 | Splitting the newline-join of lines that contain no newline gives those lines back. |
| Text.Join | worker.py:31 | No contract of its own: `LinesOfJoin`, `JoinContainsElement` and `JoinCountChar` pin it down. |
| Text.JoinContainsElement | worker.py:31 | Every element of a list appears verbatim in its `sep.join`. |
| Text.JoinCountChar | worker.py:31 | With a separator that holds a character once, the join holds it once per gap, plus the occurrences inside the elements. |
| Text.Upper | app.py:50-51 | The ASCII fold keeps the length of the string. |
| Text.Decimal | prompts.py:57-66 | `str(n)`: a non-empty string of digits, with no leading zero, whose value is `n`. |
| Text.DecimalOrdinals | prompts.py:57-66 | The ordinals 1 to 9 are single digits, and 10 is written `10`. |

## Left out

- The Streamlit layout, the card HTML and every `st.*` call (app.py:43-82) are user interface. The two card loops only render.
- `st.cache_data(ttl=1800)` (app.py:18) is left out. Its expiry lives in the library, so `GetGlobalTrends` is the uncached call.
- The `genai` client and the `generate_content` calls (app.py:8, 30-37; worker.py:14, 35) are network calls. Their text is an input.
- The fixed prompt of `get_global_trends` (app.py:21-28) is left out. The prompt only matters to the remote model.
- The team list (worker.py:21) is nba_api's bundled static data. The roster fetch (worker.py:30) is a network call returning a pandas frame. Both become the `attempts` input, with one outcome per team.
- `print` (worker.py:26, 44) and `time.sleep(2)` (worker.py:42) are left out. They leave no trace in the table.
- SQLite connection, cursor, `commit` and `close` mechanics are left out. Only the keyed-overwrite effect on the table is modelled.
- A connect, create, insert or commit that itself fails is left out. The table is modelled as a map.
- A `None` from `response.text` is not represented. The source stores it as SQL NULL, but `Generated.text` is always a string.
- `json.loads` internals are left out. It is the abstract `decode`. List elements are modelled as trend records, so elements that are not objects with a string `status` are not represented. On the page (app.py:50, outside the `try`) these raise `KeyError`, `TypeError` or `AttributeError`.
- `Text.Upper` folds ASCII letters only. Full Unicode case mapping is not modelled.
- `datetime.now().strftime("%Y-%m-%d")` (worker.py:22) is left out. `today` is an opaque string that is read once.
- `load_dotenv`, `st.secrets` and environment lookups are configuration.
- database.py is not part of this model. It does the same kind of keyed upsert as `ReportStore`, on another table (`scout_reports`, in another database file).
- The commented-out prompt at prompts.py:3-20 is not live code.
- Retries, back-off and a parser for the `SUMMARY:` / numbered-section reply do not exist in these files.
- Worker.RosterContextSeparators: proved only for names without commas, because a comma inside a player's name cannot be told apart from the separator.
