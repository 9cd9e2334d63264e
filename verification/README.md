# FinancialNews daily stock analysis, modelled in Dafny

This project models the per-run analysis pipeline of the FinancialNews scripts:

- `FinancialAnalyzer` issues four market-data requests per symbol: quote, earnings calendar, analyst recommendations and news. It replaces a response of the wrong JSON shape by an empty default, keeps the first three analyst ratings, and skips any symbol whose analysis raises.
- `StockAnalysisWorkflow.filter_important_updates` keeps the analyses for which any of four signals fires:
  - earnings within the window,
  - a recent analyst rating among the first two,
  - a price move strictly above 5 %,
  - a news keyword in one of the first three titles.
- `generate_summary` renders the kept analyses as text.
- `run_analysis` is the driver:
  - a weekday gate,
  - failure when nothing was fetched,
  - a choice between the "important updates" message and the brief "no major updates" message,
  - sending through Telegram,
  - saving the results,
  - an error path that sends one error notification and fails the run.

The workflow code is the program text inside the string literal of `script_3.py` (lines 2-238), which that script writes out as `main_workflow.py`.

Modules, one per component:

| file | module | models |
|---|---|---|
| outcomes.dfy | `Outcomes` | `Option`, Python exceptions (`Exc`), `Result` = value or raised exception |
| json.dfy | `JsonValues` | decoded JSON values, Python truthiness, `dict.get` |
| text.dfy | `Text` | `lower`/`upper` (ASCII), `strip` (Python's exact whitespace set), `split`, `join`, slicing, `replace`, `in` |
| subsequences.dfy | `Subsequences` | order-preserving selection shared by the aggregation loop and the filter |
| calendar.dfy | `Calendar` | "now" as (date ordinal, microseconds since midnight), floor-division day differences, `weekday()` |
| host.dfy | `Host` | the runtime functions the model takes as parameters (date/float parsing, `str()`, date formatting) |
| analyzer.dfy | `Analyzer` | `financial_analyzer.py`: shape handling, `analyze_stock`, `analyze_watchlist`, `generate_summary` |
| importance.dfy | `Importance` | `filter_important_updates` and its four signals |
| workflow.dfy | `Workflow` | `load_watchlist`, `send_notifications`, message choice, `run_analysis`, exit code |

Python exceptions are values (`Result`). A JSON value of the wrong type gives the exception Python would raise at that point. A `None` or any other non-dictionary (which has no `get`), a non-string without `lower` or `replace`, and a non-string handed to `strptime` are examples. This matters because those exceptions drive `run_analysis` into its error path. `ValueError` from date and float parsing is caught in the source, so the parsers return `Option`.

Time is `Calendar.Now(ordinal, micros)`. A parsed `%Y-%m-%d` date is midnight of its ordinal, and `timedelta.days` is floor division of the microsecond difference. Two consequences are proved:

- With any time of day past midnight, the earnings test `0 <= days_until <= 7` accepts dates from tomorrow to today+8. It misses earnings today and accepts today+8. At exactly midnight it accepts today to today+7.
- The rating test `days <= 3` is the plain calendar difference, so every future-dated rating counts as recent.

Behaviour as written that a reader might not expect, all followed by the model:

- A weekday run that fetches nothing returns failure **without** sending any notification.
- `save_results` calls `os.makedirs` outside its `try`. If that raises, the exception reaches `run_analysis`'s handler after the summary was already sent. A second, error notification follows and the run fails. A failed file write, by contrast, is caught and does not change the outcome.
- Run success is the Telegram result alone. The WhatsApp channel is commented out.
- The summary's news line scans **all** news items for three keywords. The filter scans only the first three items for seven keywords. Every title the summary shows mentions a filter keyword, but it may sit beyond the third item.
- The filter evaluates all four signals even after one has fired. A malformed later field therefore still raises. The news loop is the exception: it breaks at the first matching title.

## Model

| member | source | states |
|---|---|---|
| Text.JoinSplit | script_3.py:46 | splitting the watchlist value on commas and joining the pieces with commas gives back the value: no character is lost or invented |
| Text.StripIsMaximalTrim | script_3.py:46 | `strip()` returns a slice of its input with only whitespace outside it and no whitespace at either end |
| Text.ContainsIffOccurs | script_3.py:117 | the substring test holds exactly when the keyword occurs at some position of the title |
| Text.UpperIsCaseFold | script_3.py:46 | the upper-cased string contains no letter a-z and equals the input up to ASCII letter case |
| Text.LowerIgnoresCase | script_3.py:116 | titles that differ only in letter case lower-case to the same text |
| Calendar.DaysUntilByCalendar | script_3.py:79 | `(earnings_dt - now).days` is the calendar difference, minus one once any time of today has passed |
| Calendar.DaysSinceByCalendar | script_3.py:93 | `(now - rec_dt).days` is exactly the calendar difference, whatever the time of day |
| Calendar.EarningsWindowByCalendar | script_3.py:79-80 | the window `0 <= days_until <= 7` is today..today+7 at midnight and tomorrow..today+8 at any later time |
| Calendar.RecentRatingByCalendar | script_3.py:93 | a rating is recent iff dated at most three days ago, future dates included |
| Calendar.MarketWeek | script_3.py:58-62 | `weekday() < 5` follows the calendar: 2024-01-01 is a Monday; a Friday is open, the next two days closed, the day after open |
| Analyzer.PriceData | financial_analyzer.py:73-76 | a quote response that is not a dictionary becomes `{}`, a dictionary is kept whole |
| Analyzer.Recommendations | financial_analyzer.py:41-44 | a ratings response that is not a list becomes `[]`, a list is kept whole |
| Analyzer.NewsData | financial_analyzer.py:58-61 | a news response gives its `data` value when it is a dictionary holding one, otherwise `[]` |
| Analyzer.EarningsEntry | financial_analyzer.py:31-33 | raises iff some calendar item is not a dictionary; otherwise the first entry whose `symbol` equals the symbol, `None` iff no entry matches |
| Analyzer.EarningsFor | financial_analyzer.py:27-33 | a calendar response that is not a list yields `None`; a list is searched for the symbol's first entry |
| Analyzer.AnalyzeStock | financial_analyzer.py:78-89 | the requests are a non-empty prefix of quote, calendar, ratings, news; the analysis succeeds iff every request and the earnings lookup succeed, and then carries the symbol, the shape-defaulted responses and exactly the first `min(3, n)` ratings as a prefix |
| Analyzer.AnalyzeStockStopsAtFirstFailure | financial_analyzer.py:80-87 | the first raising request or earnings lookup ends the analysis: a raising quote leaves 1 request, a raising calendar request or lookup 2, a raising ratings request 3, a raising news request 4, and the result is that exception |
| Analyzer.AnalyzeWatchlist | financial_analyzer.py:91-105 | the loop returns the selection of successful analyses in watchlist order and the requests of every symbol in order |
| Analyzer.WatchlistKeepsSucceeded | financial_analyzer.py:95-105 | the result is an order-preserving selection holding the analysis of symbol i iff analysing symbol i did not raise, so it is no longer than the watchlist |
| Analyzer.WatchlistTriesEverySymbol | financial_analyzer.py:95-103 | a failing symbol never stops the loop: exactly one quote request per watchlist symbol, in watchlist order |
| Analyzer.TitleOf | financial_analyzer.py:138-140 | reading a news title raises iff the item is not a dictionary or its title is not a string; a missing title reads as empty |
| Analyzer.HeadlineIn | financial_analyzer.py:137-142 | every item's title is read (raising on a malformed one); the chosen headline is the first title mentioning earnings, upgrade or downgrade, none iff no title does |
| Analyzer.Headline | financial_analyzer.py:137-140 | a news value that is not a list yields no headline when it is an empty string or dictionary and raises otherwise |
| Analyzer.BlockOf | financial_analyzer.py:115-143 | the price part appears iff `Global Quote` is truthy (with 'N/A' defaults), the earnings part iff the entry is non-empty, the rating part iff there is a rating and it uses the first one (defaults 'N/A' and 'Unknown'); raises exactly on a malformed quote, first rating or news value |
| Analyzer.NewsLine | financial_analyzer.py:143 | the news line shows at most the first 50 characters of the title and always ends with "..." |
| Analyzer.RenderFrame | financial_analyzer.py:113-145 | every block starts with the "🔹 *SYMBOL*" line and ends with a blank line |
| Analyzer.Blocks | financial_analyzer.py:111-145 | the block list raises iff some analysis' block raises, with the exception of the first such analysis; otherwise it starts with the first analysis' block |
| Analyzer.BlocksOnePerAnalysis | financial_analyzer.py:111-147 | a successful summary body is the concatenation of exactly one block per analysis, in input order |
| Analyzer.GenerateSummary | financial_analyzer.py:107-147 | a successful summary is the dated header followed by exactly one block per analysis in input order; it raises iff some block raises, and then carries the first raising block's exception |
| Analyzer.SummaryFrame | financial_analyzer.py:109-113 | a summary starts with its dated header, directly followed by the first analysis' "🔹 *SYMBOL*" line |
| Importance.EarningsSignal | script_3.py:72-84 | fires iff the entry has a non-empty string `date` that parses and lies in the window; a date that does not parse adds nothing; raises iff the date is truthy but not a string |
| Importance.RatingSignal | script_3.py:89-98 | a rating fires iff it has a non-empty string date that parses and is recent; `newGrade` is never consulted; raises on a non-dictionary or a truthy non-string date |
| Importance.AnalystSignal | script_3.py:87-98 | fires iff one of the first two ratings fires and neither raises; raises iff one of the first two raises |
| Importance.PriceSignal | script_3.py:100-110 | fires iff the quote is a truthy dictionary whose change text, all "%" removed, parses to a value strictly beyond ±5 |
| Importance.ScanNews | script_3.py:115-120 | fires iff some title mentions a keyword and all earlier titles read without raising; quiet iff every title reads and none mentions a keyword |
| Importance.NewsSignal | script_3.py:112-120 | only `news[:3]` is scanned; a value that is not a list never fires, and raises unless it is the empty string |
| Importance.IsImportant | script_3.py:68-123 | an analysis is important iff no signal raises and at least one fires; it raises iff some signal raises, and then carries the exception of the first raising signal in the order earnings, analyst, price, news |
| Importance.ImportantUpdates | script_3.py:64-125 | the filter succeeds iff no analysis raises, otherwise it carries the first raising analysis' exception |
| Importance.ImportantUpdatesSelects | script_3.py:66-125 | a successful filter keeps exactly the analyses judged important, in input order (the selection `KeepMap` makes) |
| Importance.ImportantUpdatesIsSubsequence | script_3.py:64-125 | the filter's result is an order-preserving subsequence of its input holding analysis i iff analysis i is important; nothing is reordered or duplicated |
| Importance.EarningsSignalByCalendar | script_3.py:77-81 | with a valid clock the earnings signal fires iff the date is within today..today+7 at midnight, tomorrow..today+8 later in the day |
| Importance.MalformedEarningsDateIgnored | script_3.py:77-84 | an earnings date that does not parse neither fires nor raises |
| Importance.RatingSignalByCalendar | script_3.py:91-94 | with a valid clock a rating fires iff it is dated no more than three days ago, future dates included |
| Importance.AnalystSignalIgnoresOlder | script_3.py:88 | two analyses whose first two ratings agree get the same analyst signal |
| Importance.PriceThresholdIsStrict | script_3.py:105-107 | a change of exactly +5 or -5 percent does not fire; anything strictly beyond does |
| Importance.MissingChangeNeverFires | script_3.py:103-105 | a quote without a change field is read as "0%" and does not fire |
| Importance.NewsSignalIgnoresLater | script_3.py:115 | two analyses whose first three news items agree get the same news signal |
| Importance.NewsSignalIgnoresCase | script_3.py:116-117 | the keyword match gives the same answer for titles that differ only in letter case |
| Importance.SummaryHeadlinesAreImportant | financial_analyzer.py:138-140 | every title the summary's news line can show mentions one of the filter's keywords |
| Workflow.ParseWatchlist | script_3.py:44-46 | one symbol per comma-separated piece, in order, so the count is the number of commas plus one; each is the stripped, upper-cased piece |
| Workflow.ConfigStocks | script_3.py:49-52 | a config without `stocks` gives the empty list; a list of strings gives those symbols in order |
| Workflow.LoadWatchlist | script_3.py:41-56 | a non-empty environment value decides alone; otherwise the config file's `stocks`, its decoding error, or the five-symbol default when the file is missing |
| Workflow.CanonicalWatchlistRoundTrip | script_3.py:44-46 | a value without blanks or lower-case letters parses to its pieces unchanged: joining the symbols with commas gives the value back |
| Workflow.ParsedSymbolsAreClean | script_3.py:46 | every parsed symbol has no surrounding whitespace and no lower-case ASCII letter |
| Workflow.QuietMessage | script_3.py:155-157 | the brief message begins with the 📊 mark and ends with the full watchlist joined by ", " |
| Workflow.SendNotifications | script_3.py:177-203 | sending succeeds iff the Telegram send returned True; a send that raises is a failure |
| Workflow.Compose | script_3.py:146-158 | a filter exception propagates; an empty filter result gives the brief message; a non-empty one gives the IMPORTANT header followed by the summary, or the summary's exception |
| Workflow.ComposeHeaderIffImportant | script_3.py:149-157 | a composed message opens with the IMPORTANT header exactly when the filter kept some analysis |
| Workflow.Deliver | script_3.py:160-175 | the effects are exactly: the message then saving; or, when composing raised, the single error notification; or, when making the results directory raised, the message then the error notification. Success iff the message was delivered and the directory could be made |
| Workflow.RequestsThenEffects | script_3.py:131-175 | fetching sends no message, so a weekday run's notifications are exactly those sent after the requests |
| Workflow.RunAnalysis | script_3.py:127-175 | weekend: success with no request, no analysis and no message; weekday: the analyses are the watchlist's successful ones and every symbol is requested first; nothing fetched: failure and the trace is the requests alone; otherwise the requests are followed by exactly the message and saving, the message and an error notification, or (on a compose exception) the single error notification; success iff weekend or a composed message was delivered and saving did not raise |
| Workflow.ExitCode | script_3.py:229-234 | exit status 0 exactly for a successful run, 1 otherwise |

## Left out

- HTTP requests: URLs, API keys and query parameters are left out. This covers the calendar's today..today+7 window, `limit=10`, `limit=5` and `published_after`. `Analyzer.Market.fetch` gives the decoded response of a request, or the exception the HTTP client or the JSON decoder raised. The same request for the same symbol answers the same way within a run.
- Environment variables and files are left out. The `STOCK_WATCHLIST` value and the decoded `config/watchlist.json` are parameters of `Workflow.LoadWatchlist`.
- `time.sleep(1)` between symbols, the logger and `print`: none of them affects any result.
- `datetime.now()` is one `Calendar.Now` for the whole run. The source reads the clock again at each use.
- `strptime`, `float()`, `str()` of non-string JSON values, `str(e)`, `strftime` and `isoformat` are functions supplied in `Host.Runtime`. Their own formats (leap years, NaN and infinity spellings, float printing) are not modelled.
- JSON numbers and objects: `JsonValues.Json` keeps numbers as reals and objects as unordered maps. Python's `json` keeps `175` (an int) apart from `175.0` (a float) and keeps a dictionary's key order, and `str()` prints them differently. So the text `Host.Runtime.show` gives for a non-string price, change, earnings date, grade or analyst company in the summary lines cannot be reproduced for such values. Only string values are rendered exactly.
- Text.LowerChar: maps only ASCII letters. Python's `str.lower` also maps other letters, so a non-ASCII title could lower-case into a keyword that the model misses.
- Text.UpperChar: maps only ASCII letters. Python's `str.upper` also maps other letters and can change the length (`'ß'` becomes `'SS'`).
- Workflow.ConfigStocks: a `stocks` value that is not a list of strings is reported as a `TypeError` at load time. The source returns it unchanged, and it fails or is iterated character by character later in the run.
- An exception from `load_watchlist` escapes the workflow's constructor and ends the process before `run_analysis`. The model only returns it from `Workflow.LoadWatchlist`.
- Exception kinds: slicing a dictionary raises `KeyError` on recent Python versions and `TypeError` on older ones. The model calls it `TypeError`. Only the text of the error notification depends on the kind.
- Outcomes.Exc: `TypeError` and `AttributeError` record the operation that failed but not the type of the value it was applied to. Python's `str(e)` names that type (`'list' object has no attribute 'get'`, `strptime() argument 1 must be str, not int`, `'NoneType' object is not subscriptable`). So the detail after "Workflow failed: " in the error notification is not reproduced for these exceptions. It could not be in general: `JsonValues.Json` does not tell an int from a float. Which path the run takes, and which exception is carried, does not depend on it.
- `save_results` writing the file and serialising JSON is left out. A write failure is caught in the source, so the run's outcome does not depend on it. Only the `os.makedirs` exception, which is not caught there, is modelled.
- `telegram_notifier.py` is modelled only as the outcome of `send_message`: delivered, not delivered, or raised. `send_document` is never called by the workflow. `whatsapp_notifier.py` is not part of this model because the workflow has that channel commented out.
- `script_2.py`, `script_4.py`, `script_5.py` and `script_6.py` only write fixed text (notifier copy, CI workflow, cron and PowerShell setup, configuration, README) to disk. Nothing in the pipeline reads them.
- The `if __name__ == "__main__"` sample run of `financial_analyzer.py` is left out.
