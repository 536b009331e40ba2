# Market health fetcher — a Dafny model of its scraping core

The program scrapes a stock-screener web widget (chartink.com). For each
configured query it does four things:

1. It opens a web session and reads an anti-forgery (CSRF) token from the
   screener page.
2. It POSTs the query to the widget endpoint with that token.
3. It shapes the JSON reply into one row per stock.
4. It writes each non-empty result to its own sheet of a workbook.

The workbook is published only when at least one query produced data.

This project models the three pure pieces of `market_health_fetcher.py` and
proves properties of them:

- **Response shaping** (`parse_widget_data`), module `Widget`.
  - A reply without `"groupData"` is "no data" (`None`).
  - Otherwise every group becomes one row, in order. The row starts with
    `"Stock"` bound to the group's name.
  - Each field is then written under its title-cased name.
  - A non-empty list collapses to its last element. The sentinel `1.7e+308`
    is shown as `"N/A"`.
  - Anything else is stored unchanged.
  - Later writes to the same column win.
  - A reply that is not an object never produces rows. Null, booleans and
    numbers raise TypeError at `"groupData" in data`. A list or string that
    does not contain `"groupData"` is "no data"; one that does raises
    TypeError when it is indexed by a string.
  - AttributeError from `.get` or `.items()` comes from a group or a results
    entry that is not an object.
  - The first group that raises aborts the whole parse with its exception.
  - Every exception path is modelled as a `Failure` result.
- **Fetch protocol** (`fetch_from_chartink`), module `Chartink`.
  - The service's answers to the three requests are a parameter, and the
    fetch records the requests it sends.
  - A missing or empty token raises "CSRF token not found" before any POST.
  - Otherwise the POST carries the token under `X-CSRF-TOKEN`, with
    `Origin` set to the home URL and `Referer` set to the screener page's
    final URL. Its six headers are fixed in name, order and every other
    value.
- **Batch accounting** (`update_excel_file`), module `Batch`. The batch is a
  fold over per-query outcomes.
  - A query counts only if it yields a non-empty table.
  - An exception skips that query alone.
  - The sheet name is the query name cut to 31 characters.
  - An `Icon` column is put first.
  - The upload happens exactly when three things hold: the workbook writer
    opened, the workbook was saved, and the success count is positive.

Supporting modules:

- `Wrappers`: `Option` and `Result`.
- `Exceptions`: the Python exceptions one query can raise.
- `OrderedMap`: a Python `dict` as an insertion-ordered association list.
  Assigning to an existing key keeps its position. The module also gives
  reference definitions of "last write" and "keys in first-occurrence order".
- `Json`: the decoded JSON value, and Python's `in` and `for` on it.
- `TitleCase`: `str.title()` over ASCII.

Three behaviours of the code are worth knowing before reading the model:

- A missing token fails only its own query. `fetch_from_chartink` opens a new
  session and reads a new token for every query, and it does so inside the
  per-query `try` of `update_excel_file` (`Batch.MissingTokenFailsQuery`).
- The warm-up GET of the home page is never checked for its status. Only an
  exception raised by the HTTP client there (timeout, refused connection)
  aborts the fetch.
- `parse_widget_data` returns `None` only when the `"groupData"` key is
  absent. Other unexpected shapes do not all raise:
  - a `"groupData"` that is an empty object or an empty string gives an empty
    table, which the batch treats as "no data";
  - a group whose `"results"` is an empty object gives a row with only
    `"Stock"`;
  - a non-empty string or object under `"groupData"` or `"results"` makes
    `.get` or `.items()` raise AttributeError, because iterating it yields
    strings (`Widget.UnexpectedShapes`).

## Model

| member | source | states |
|---|---|---|
| OrderedMap.Lookup | market_health_fetcher.py:89-90 | `d.get(k)` is None exactly when `k` is not a key, and otherwise is a value that `d` binds to `k` |
| OrderedMap.LookupDistinct | market_health_fetcher.py:68-75 | in a dict whose keys are distinct, looking up any key finds the value it was bound to |
| OrderedMap.AssignLookup | market_health_fetcher.py:97-99 | after `row[k] = v`, `k` holds `v` and every other key keeps its value |
| OrderedMap.AssignKeys | market_health_fetcher.py:97-99 | `row[k] = v` keeps an existing key where it stands and appends a new key at the end |
| OrderedMap.AssignAllLookup | market_health_fetcher.py:93-99 | after sequential assignment, a key holds the value of its last write, and a key never written keeps its old value (last write wins) |
| OrderedMap.AssignAllKeys | market_health_fetcher.py:92-99 | starting from a row with distinct columns, the columns after sequential assignment are the old ones followed by the new names, each where it is first written, with no repeats |
| Json.Contains | market_health_fetcher.py:84 | `"groupData" in data` tests key membership on an object, element membership on a list and substring search on a string. It raises TypeError exactly when `data` is none of these |
| Json.Iterate | market_health_fetcher.py:88-93 | `for x in v` visits a list's elements, an object's keys in order, or a string's characters as one-character strings. It raises TypeError for null, booleans and numbers |
| Json.ContainsIsIterationMembership | market_health_fetcher.py:84-88 | on an object or a list, `key in v` holds exactly when iterating `v` visits the string `key`; on a string this holds for one-character keys |
| TitleCase.Title | market_health_fetcher.py:97-99 | `key.title()` has the key's length. At each position, a letter that starts a run of letters is upper-cased, any other letter is lower-cased, and other characters are kept |
| TitleCase.TitleIdempotent | market_health_fetcher.py:97-99 | a title-cased key is in title case, so title-casing it again changes nothing |
| Widget.Clean | market_health_fetcher.py:95-99 | a non-empty list becomes its last element, or "N/A" exactly when that element is the sentinel. An empty list or non-list is kept unchanged. The sentinel can survive only as a bare scalar |
| Widget.CleanIgnoresEarlier | market_health_fetcher.py:95-96 | only a list's last element decides its cell: two lists that end in the same element clean to the same value |
| Widget.ShapeResultsIsAssignAll | market_health_fetcher.py:93-99 | the nested loop over results objects and their fields is one sequential assignment of all their fields. It fails with AttributeError exactly when some results entry is not an object |
| Widget.ShapeGroup | market_health_fetcher.py:88-100 | a group is shaped exactly when it is an object whose "results" is iterable and holds only objects. The row then has distinct columns, with "Stock" first |
| Widget.ShapeGroupLookup | market_health_fetcher.py:89-99 | each column of a shaped row holds the cleaned value of the last field that title-cases to it. "Stock" holds the group's name, or "" when absent, unless a field title-cases to "Stock". No other column exists |
| Widget.ShapeGroupColumns | market_health_fetcher.py:92-99 | the row's columns are "Stock" followed by the distinct title-cased field names, in the order they are first written |
| Widget.ShapeGroupError | market_health_fetcher.py:88-94 | a group that is not an object raises AttributeError at `.get`; a "results" that cannot be iterated raises TypeError; a results entry that is not an object raises AttributeError at `.items()` |
| Widget.ShapeGroupWithoutResults | market_health_fetcher.py:89-92 | a group with no "results", or an empty list, gives just `{"Stock": name}` |
| Widget.ShapeGroups | market_health_fetcher.py:87-101 | all groups shape without error exactly when every group does. The table then has one row per group, in order, each being that group's row. A failure is the error of the first group that fails, every group before it having shaped |
| Widget.Parse | market_health_fetcher.py:82-102 | for an object reply, the result is "no data" exactly when "groupData" is absent. Rows are produced exactly when the reply is an object whose "groupData" is iterable and whose groups all shape: one row per group, in order, each that group's row. A failure is TypeError for a non-object reply, otherwise the error of the iteration or of the first group that fails |
| Widget.ParseNonObject | market_health_fetcher.py:84-88 | a reply that is not an object never produces rows. Null, booleans and numbers raise TypeError. A list raises TypeError when it contains "groupData", and a string when "groupData" is a substring of it; otherwise either is "no data" |
| Widget.UnexpectedShapes | market_health_fetcher.py:84-94 | an empty object or empty string under "groupData" gives an empty table; an empty object under "results" gives a row with only "Stock"; a non-empty string under "groupData" or a non-empty object under "results" raises AttributeError |
| Widget.ExampleLastValue | market_health_fetcher.py:87-101 | a group "ABC" whose field "growth" is [1, 2, 3] gives the row `{"Stock": "ABC", "Growth": 3}` |
| Widget.ExampleSentinel | market_health_fetcher.py:95-97 | a field whose only value is the sentinel is shown as "N/A", and a missing name gives "" |
| Chartink.CsrfToken | market_health_fetcher.py:63-66 | the token is accepted exactly when the meta content is present and non-empty; the result is then that content, and otherwise "CSRF token not found" |
| Chartink.WidgetHeaders | market_health_fetcher.py:68-75 | the header map has distinct names and maps X-CSRF-TOKEN to the token, Origin to the home URL and Referer to the given page URL |
| Chartink.WidgetHeaderNames | market_health_fetcher.py:68-75 | the header names are exactly X-CSRF-TOKEN, X-Requested-With, Accept, Origin, Referer and Content-Type, in that order |
| Chartink.WidgetFixedValues | market_health_fetcher.py:68-75 | X-Requested-With, Accept and Content-Type carry their fixed values "XMLHttpRequest", "application/json" and the URL-encoded form type with UTF-8 |
| Chartink.FetchFromChartink | market_health_fetcher.py:51-79 | the requests sent are the home GET; then also the screener GET; and the widget POST is third only after a loaded page gave a valid token, built from that token and the page's URL. The outcome is the first failure in order: home GET, screener GET, screener status, token; once all pass, the outcome is that of the POST |
| Chartink.WidgetOutcome | market_health_fetcher.py:77-79 | the POST yields the decoded body exactly when the client raised nothing, the status is not 4xx/5xx and the body is JSON. Otherwise it raises the client's exception, then an HTTP error with the status, then a JSON decode error, in that order |
| Chartink.TokenGuard | market_health_fetcher.py:63-65 | once the screener page has loaded, a missing or empty token raises "CSRF token not found" and no POST is sent |
| Chartink.PostCarriesToken | market_health_fetcher.py:66-77 | with a non-empty token, the third request is a POST to the widget endpoint. Its only form field is the query; its headers carry the token, the fixed Origin and the page's URL as Referer |
| Batch.RunQuery | market_health_fetcher.py:182-185 | a query's outcome is the fetch's exception if it raised, and otherwise the parse of the fetched JSON |
| Batch.SheetName | market_health_fetcher.py:189 | the sheet name is a prefix of the query name of length min(len, 31) |
| Batch.InsertIcon | market_health_fetcher.py:188 | inserting the icon column fails exactly when some row already has an "Icon" column. Otherwise every row gets the icon first and keeps its other columns, and distinct columns stay distinct |
| Batch.SheetFor | market_health_fetcher.py:187-189 | a query writes a sheet exactly when it produced a non-empty table that takes the icon column. The sheet is named by the truncated query name, and its rows are the query's table rows, each with the icon put first |
| Batch.LoopOnlyAppends | market_health_fetcher.py:179-198 | the loop only appends sheets, adding exactly one to the count per sheet, and adds at most one per query |
| Batch.UpdateExcelFile | market_health_fetcher.py:159-210 | when the writer cannot open or take the metadata sheet, no query runs and False is returned. Otherwise the metadata counts all queries, the success count equals the number of sheets and never exceeds the number of queries, and upload happens exactly when the workbook was saved and the count is positive |
| Batch.LoopAppend | market_health_fetcher.py:179-198 | the loop over `a + b` is the loop over `a` followed by the loop over `b` |
| Batch.BatchSplits | market_health_fetcher.py:179-198 | a batch's sheets and count are those of its two halves, concatenated and added |
| Batch.FailedQueryIsSkipped | market_health_fetcher.py:182-196 | a query that raises, yields no data or yields an empty table contributes nothing, and the later queries run as if it were absent |
| Batch.SuccessCountIsSuccessfulQueries | market_health_fetcher.py:187-191 | once the writer is open, the success count equals the number of queries that yield a non-empty table taking the icon column |
| Batch.SheetsAreWellFormed | market_health_fetcher.py:187-191 | every written sheet comes from one successful query, with a name of at most 31 characters and at least one row |
| Batch.MissingTokenFailsQuery | market_health_fetcher.py:182-196 | a screener page without a usable token fails only its own query, with "CSRF token not found", and writes no sheet |

## Left out

- HTTP sessions, cookies, the session's User-Agent header, timeouts and the
  transport. The service's answer to each request is a parameter of the fetch
  (`Chartink.Exchange`).
- HTML parsing with BeautifulSoup/lxml. The screener page is reduced to the
  `content` of its `csrf-token` meta tag.
- pandas and openpyxl. A table is a sequence of rows; the union of columns
  and the missing-cell filling of `pd.DataFrame` are not modelled. The
  following are not modelled either:
  - openpyxl's rejection of characters that are invalid in sheet names;
  - every other failure of `df.to_excel` (market_health_fetcher.py:189),
    such as openpyxl's IllegalCharacterError for a cell string holding a
    control character. The source catches it at line 195, before the count
    is raised at line 191, so it does not count that query; the model
    assumes writing a sheet succeeds, so `Batch.SheetFor` and
    `Batch.SuccessCountIsSuccessfulQueries` count it;
  - the merging of two sheets whose truncated names coincide, including a
    query whose name cut to 31 characters is "Metadata", which writes into
    the metadata sheet.
- The metadata sheet's "Last Updated" timestamp, console output and the
  two-second pause between queries. These are wall clock and output only.
- The GitHub upload: base64 encoding, the SHA lookup and the PUT request. The
  model records only whether the upload is triggered. Whether the workbook
  writer opens and takes the metadata sheet (`writerOpen`), and whether the
  workbook file is written when it closes (`saved`), are parameters of
  `Batch.UpdateExcelFile`.
- The `main` loop, its sleeps and its `KeyboardInterrupt` handling
  (scheduling).
- The contents of the `QUERIES` catalogue. Query strings are opaque, and a
  batch takes any list of queries.
- Floating-point semantics. JSON numbers are exact reals, and the sentinel
  is the constant 1.7e308 compared by equality.
- Duplicate keys inside one JSON object. Python's decoder merges them, and
  the model assumes objects arrive with distinct keys.
- Batch.SheetFor: assumes `df.to_excel` succeeds, so a query whose cells
  openpyxl would reject still writes a sheet and, in
  `Batch.SuccessCountIsSuccessfulQueries`, still counts; the workbook
  library's validation is not part of this model.
- TitleCase.Title: covers ASCII letters only. Python's `str.title()` also
  changes the case of non-ASCII letters; here every non-ASCII character is
  treated as a non-letter.
