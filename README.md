# slack-exporter retrieval core in Dafny

This project models the retrieval and assembly logic of `exporter.py`, a
command-line tool that exports private Slack conversations. It is split
into six Dafny modules:

- `Json` (json.dfy): JSON values, `Option` and `Result`, and `Fatal`, the
  reasons the tool exits with status 1 or dies on an uncaught exception.
- `Cursor` (cursor.dfy): Python's `str.strip()` and the `in` test on
  `response_metadata`. These give the continuation cursor a page hands back.
- `Governor` (governor.dfy): `get_at_cursor`. It writes the cursor into the
  caller's parameter dict (the `Params` class, updated in place), looks up
  the token, then reads HTTP responses. A 429 sleeps for its Retry-After and
  asks again, with no bound. Any other non-200 is fatal. A 200 body is then
  checked for `ok` and its cursor is read.
- `Paginator` (paginator.dfy): `paginated_get`. It fetches pages, feeds each
  page's cursor back in, and concatenates the list each page holds under the
  combine key.
- `Queries` (queries.dfy): the four request builders. They also cover the
  text `str(float(t))` that a history query sends for a window bound.
- `Export` (export.dfy): the `--all` loop over channels. It walks one-day
  windows from a channel's creation time. For each window it takes a shallow
  copy of the history list, rewrites attachments under `--skipfiles`, and
  appends the replies of every thread root. It saves the batch only when the
  batch is non-empty.

The network is an oracle throughout.
- In `Governor` and `Paginator`, the server is the sequence of responses it
  will send, one per HTTP request, and a call reports where it stopped
  reading.
- In `Export`, the history and replies requests are answered by two
  sequences of paginator outcomes, taken in order.
- When an oracle runs out, the outcome is "still waiting" (`Starved`,
  `Unfinished`, `NoMoreAnswers`), not an error.

The environment is a map from variable names to values. The clock is one
integer reading per channel, taken as `time.time()` rounded up. `start <
time.time()` and `start < ceil(time.time())` agree for an integer `start`.

Each loop of the source is a method whose `ensures` ties its result to a
recursive specification function:
- `GetAtCursor` to `Fetched`;
- `PaginatedGet` to `Paginate`;
- `SpliceThreads` to `Splice`;
- `ExportChannel` to `Windows`;
- `ExportAll` to `Channels`.

The lemmas then prove what the source promises about those functions.

Points of the code's behaviour that the model keeps:
- Neighbouring history queries share their boundary second, because the
  code sends `oldest = str(start)` and `latest = str(start + 86400.0)`
  (exporter.py:248-249). `HistoryBounds` states these bounds.
- Replies are fetched for every message with `thread_ts` and no `subtype`,
  replies included (exporter.py:263). `IsThreadRoot` is that test.
- A 429 whose `Retry-After` is missing, cannot be read by `int()`, or is
  negative (`time.sleep` refuses it) is fatal (exporter.py:61). That is
  `BadRetryAfter`.
- A body without `"ok"` makes `get_at_cursor` return `(None, [])`
  (exporter.py:83-85). `paginated_get` then indexes `[]` by the combine key,
  and the resulting TypeError is not caught. That is the `Fallback`
  outcome, which ends as `Unindexable`.

## Model

| member | source | states |
|---|---|---|
| Cursor.TrimLeft | exporter.py:78 | the result is a suffix of the input, everything removed is whitespace, and the result does not start with whitespace |
| Cursor.TrimRight | exporter.py:78 | the result is a prefix of the input, everything removed is whitespace, and the result does not end with whitespace |
| Cursor.StripEmptyIff | exporter.py:78 | `strip()` yields the empty string exactly when every character is whitespace |
| Cursor.NextCursor | exporter.py:75-79 | the cursor is present exactly when `response_metadata` is an object holding `next_cursor` whose value is neither null nor an all-whitespace string; a present cursor is that value, unchanged |
| Governor.Interpret | exporter.py:68-85 | a page or the KeyError fallback comes with the position just after the deciding response and no sleep of its own |
| Governor.AtCursor | exporter.py:47-85 | a page or fallback always consumes at least one response and never more than the oracle holds |
| Governor.Fetched | exporter.py:41-45 | same bounds; without the token the call fails with `MissingToken` before any response is read |
| Governor.GetAtCursor | exporter.py:35-85 | the parameter map gains `cursor` exactly when a cursor is given, nothing else in it changes, and the outcome is that of `Fetched` |
| Governor.StarvedIffAllThrottled | exporter.py:60-61 | a 429 never ends the call: the call runs out of responses exactly when every remaining response is a well-formed 429 |
| Governor.FirstUnthrottledDecides | exporter.py:47-66 | the first response that is not a well-formed 429 decides the outcome; the ones before it only add their Retry-After seconds |
| Governor.FatalStatusAfterThrottling | exporter.py:62-64 | a status other than 200 and 429 is fatal, carrying that status |
| Governor.NotOkIsFatal | exporter.py:70-73 | a 200 whose body has `"ok": false` is fatal and yields no page |
| Governor.RetryOnceThenPage | exporter.py:60-66 | a 429 asking for s seconds followed by a good 200 gives that page after exactly s seconds of sleep |
| Governor.OnlyOkLeaves | exporter.py:60-81 | a page or fallback comes from a 200 preceded only by well-formed 429s, and sleeps exactly their Retry-After total; a page's body is the object of that 200, its `ok` is present and not false, and its cursor is `NextCursor` of that body |
| Governor.FetchIgnoresLaterResponses | exporter.py:47-66 | a call that did not run out of responses never looks past the deciding one: responses queued behind it change nothing |
| Paginator.PageItems | exporter.py:96-103 | the page yields records exactly when the combine key is present and holds a list, and then yields that list; a missing key is the fatal `MissingKey` |
| Paginator.Paginate | exporter.py:88-108 | a completed run consumed at least one response, fetched at least one page and stayed within the oracle |
| Paginator.PaginatedGet | exporter.py:88-108 | the loop computes `Paginate` from the parameter map as given and no cursor, and on completion leaves in the caller's map the parameters of its last request |
| Paginator.PaginateCollectsChain | exporter.py:88-108 | if the first n fetches are pages with lists, and only the n-th lacks a cursor, the run makes exactly n page fetches, returns their lists concatenated in arrival order, stops right after the n-th, sums their sleeps, and leaves the last written cursor in the map (a cursor written earlier stays there) |
| Paginator.DoneMeansChain | exporter.py:88-108 | conversely, a completed run of p pages fetched exactly such a chain of p pages: each held a list, each but the last had a cursor, and the last had none |
| Paginator.MissingKeyAborts | exporter.py:96-103 | a page missing the combine key, after any number of good pages with cursors, ends the run fatally with no partial result |
| Paginator.PaginateIgnoresLaterResponses | exporter.py:91-106 | once the run has an outcome other than running out of responses, no later response was consumed |
| Queries.BuildersFixKeys | exporter.py:114-180 | channel lists are read under `channels`, user lists under `members`, history and replies under `messages`; each builder asks for pages of 200 with the parameters it was given, the channel list asks only for private channels, and the four endpoints are distinct |
| Queries.Digits | exporter.py:249 | the decimal text of a number is non-empty and made of digits |
| Queries.DigitsRoundTrip | exporter.py:249 | reading back the decimal digits of n gives n |
| Queries.FloatTextRoundTrip | exporter.py:245-249 | the `str(float(t))` text sent for an integral bound reads back as exactly t |
| Export.Redact | exporter.py:254-261 | a message without `files` is unchanged; one with `files` is rewritten exactly when the rewrite does not raise; the rewrite appends the deleted-file note, or the note with `files[0].url_private`, to `text`, removes `files` and `upload`, and keeps every other field |
| Export.RedactIdempotent | exporter.py:254-261 | rewriting a rewritten message changes nothing |
| Export.RedactKeepsThreads | exporter.py:254-263 | the rewrite neither makes nor unmakes a thread root and keeps its `thread_ts` |
| Export.SpliceThreads | exporter.py:251-265 | the loop over the history computes `Splice`: each message rewritten in place in the shared copy, and the replies of each thread root appended behind |
| Export.SpliceShape | exporter.py:251-265 | a finished splice holds the rewritten messages followed by the reply lists, issues one replies query per rewritten thread root in history order, every one of which returned records, and saves nothing |
| Export.WindowBatchShape | exporter.py:251-265 | a window's batch is its history list, rewritten under `--skipfiles`, followed by the replies of each thread root in history order; roots are kept and a message with a subtype asks for no replies |
| Export.RootsNotDeduplicated | exporter.py:263-265 | two copies of one thread root ask twice for the same replies: both queries are the replies query of that root's `thread_ts` |
| Export.ExportChannel | exporter.py:246-268 | the window loop for one channel computes `Windows` |
| Export.HistoryQueries | exporter.py:247-268 | a channel has `WindowCount` history windows |
| Export.WindowCountIsCeiling | exporter.py:247-268 | the number of windows is the ceiling of the span over 86400 seconds when the clock is past the creation time |
| Export.ThreeWindows | exporter.py:247-268 | a channel created 200000 seconds ago has three windows, the last one only partly elapsed |
| Export.HistoryQueryAt | exporter.py:248-249 | the k-th window starts exactly k days after the creation time |
| Export.WindowBounds | exporter.py:248-249 | a window's query carries bounds that read back as its start and its start plus 86400 seconds |
| Export.HistoryBounds | exporter.py:248-249 | the k-th history query names the seconds start + k·86400 and start + (k+1)·86400 |
| Export.WindowsAskEveryDay | exporter.py:247-268 | a channel's export that runs to the end issues exactly the history queries of its windows, in order |
| Export.SpliceKeepsSaved | exporter.py:251-265 | splicing saves nothing, whether it finishes or stops |
| Export.WindowsSaveNonEmpty | exporter.py:266-267 | whether the channel's export ends or stops, files saved before are kept and every file it adds holds at least one record |
| Export.WindowSavesItsBatch | exporter.py:251-268 | a window's batch is saved exactly when it is non-empty: it is then the next file, under the channel's name and the window's start, holding exactly the spliced batch; an empty batch saves nothing and the export goes on with the next day |
| Export.WindowsSaveInOrder | exporter.py:247-268 | every file a channel's export adds is in that channel's directory and named after one of its window starts (created + k·86400, before the clock reading), in strictly increasing window order |
| Export.ChannelOf | exporter.py:243-245 | a channel is read exactly when it is an object with `id`, `name` and an integer `created`, and the read keeps those values; anything else is fatal |
| Export.ExportAll | exporter.py:242-268 | the loop over the channel list computes `Channels` from an empty record of progress |
| Export.ChannelsAskInOrder | exporter.py:242-268 | an export that runs to the end issues the history queries of every channel's windows, channel after channel in list order |
| Export.ExportSavesNonEmpty | exporter.py:242-268 | every per-window file the whole export saves holds at least one record, whether it ends or stops |

## Left out

- HTTP (`requests.get`), `time.sleep`, `load_dotenv` and `os.environ`. Responses are an oracle, sleeps are counted in seconds, and the environment is a map parameter.
- Transport failures. `ChunkedEncodingError` is never imported, so any exception from `requests.get` becomes a NameError when the `except` clause at exporter.py:53 is evaluated, and the process dies. The retry and its 0.5 s sleep never happen. The model has no transport failures: every request gets one response from the oracle.
- `handle_print`, `print` and `sys.exit`. Every fatal path is a `Fatal` value that ends the run.
- `r.json()` failing on a body that is not JSON. The oracle holds decoded bodies.
- Argument parsing, `save`, `makezip`, `json.dumps`, the run's timestamped directory and the `strftime` file names. A saved batch records the channel name and the window's start second, not the file name.
- `datetime.utcfromtimestamp(start_ts)` (exporter.py:250) raises for a start outside the platform's date range, after that window's history query has been sent. The model has no such failure.
- The `--lc` and `--lu` listings and the channel and user list fetches before the loop (exporter.py:229-240). The model starts from the channel list as a value.
- The `combine_key is None` branch of `paginated_get`. No query builder uses it.
- Float timestamps. Times are integer seconds and the clock is rounded up per channel. `FloatText` is Python's `str(float(t))` only for magnitudes below 10^16.
- Export: the paginated results each history or replies request returns are oracles of `Paginator.Pagination` values. They are not re-derived from response oracles.
- JSON numbers are integers. A fractional number can appear nowhere the model inspects except `created`, which `ChannelOf` then rejects.
- Cursor.IsSpace: Unicode whitespace is CPython's `str.isspace` set, written out character by character.
- Cursor.Blank: a cursor value that is neither null nor a string is never blank. This matches `str()` of numbers, booleans, lists and objects.
- Paginator.PageItems: a value under the combine key that is not a list is fatal. Python would instead extend the result with a string's characters or an object's keys.
- Export.Redact: a `files` value that is not a list, or whose head is not an object, is fatal. For a string or list head, Python would test `"url_private" in` it by substring or membership, and it would append the deleted-file note when that test fails.
- Export.ChannelOf: a `created` that is a string of digits is fatal. Python's `float(str(created) + ".0")` would accept it.
- Export.IsThreadRoot: a history entry that is not a JSON object counts as a plain message with no keys, and `HasFiles` does the same. The model then keeps the entry in the batch unchanged. In Python this goes further:
  - On a null, number or boolean entry, `in` raises TypeError (exporter.py:255 under `--skipfiles`, otherwise exporter.py:263), so the run dies.
  - A string entry is tested by substring. If it contains "thread_ts" but not "subtype", the run dies at `message["thread_ts"]`. Under `--skipfiles`, a string containing "files" dies at `message["files"]`.
  - A list entry is tested by membership, and the same indexing then raises.
