# kafka-control-center, modelled in Dafny

kafka-control-center is a terminal console for a Kafka Connect cluster. It
lists the cluster's connectors with their state, type, worker and task count.
It shows documents such as a connector's status or config as scrollable
text. It can also create a new connector from a config template that the
operator edits in their own editor.

This project models the parts of the console that decide what is shown and
what is sent:

- the application object of `app.py`:
  - its connector list: full refresh, per-row refresh and row access;
  - the callbacks a refresh fires;
  - the success rule for REST replies and the error message built from a failed reply;
  - the config templates chosen by the command-line flags;
  - whether an edited template is submitted;
- the line source behind the document screen (`lib/document.py`);
- the two key legends (`lib/legends.py`).

The files:

- `wrappers.dfy`: `Option`, `Result` and `Outcome`. They stand for Python's
  `None` and for raised exceptions.
- `python.dfy`: the Python built-ins the code relies on, as the interpreter
  defines them:
  - list indexing, with negative indices counting from the end;
  - `str.split` and `str.join` for a one-character separator;
  - `str.strip`, with the full set of characters `str.isspace` accepts;
  - the decimal rendering `'%s' % n` of an integer.
- `dict.dfy`: a Python `dict` with string keys, as its pairs in insertion
  order. Key order matters because `json.dumps(..., sort_keys=False)` keeps it.
- `http.dfy`: `assertSuccess`, meaning success on the 2xx class of section
  15.3 of RFC 9110, and the message of the exception it raises.
- `application.dfy`:
  - the REST calls over a `Cluster` oracle;
  - the refresh specification;
  - class `App`, which holds the connector list and updates it in place;
  - the templates;
  - the editor and create decision.
- `documents.dfy`: `Document`, a text and its rows.
- `legends.dfy`: `main()` and `document()`, with the platform as a parameter.

The cluster is an oracle, the `Cluster` datatype. For each request the
console makes, it gives the reply's status code and body text. It also gives
the body as `json.loads` reads it: the list of names, or a typed status
document. `json.loads` on an edited text is the oracle's `parse`. The reply
to the creating `POST` is a function of the parsed document. A full refresh
returns the callbacks it fired as a sequence of `Event`s, in order. The
`Observer` says which of the four optional callbacks the caller passed.

Behaviour of the code worth noting:

- `refreshConnectors` does not sort the names. It stores them in the order
  the cluster lists them.
- A row carries no topic field. The row is the tuple
  `(state, type, workerId, tasks, name)`.
- A refresh that fails empties the list and keeps only the rows fetched
  before the failure. The list is emptied before anything is fetched, so the
  previous list is not kept.
- A callback that was not passed is skipped.
- `get_data(i)` and `refreshConnector(index)` also accept negative indices
  from `-n` to `-1`, as Python list indexing does, so they do not fail there.
- The document view has no wrapping and no line numbers in this code.

## Model

| member | source | states |
|---|---|---|
| Python.Position | app.py:193-195 | an index denotes a position exactly when `-n <= i < n`; a non-negative index is its own position, a negative one counts from the end (same residue mod `n`) |
| Python.Index | app.py:159-160 | `s[i]` succeeds exactly for `-len(s) <= i < len(s)`, giving `s[i]` or `s[len(s)+i]`; otherwise `IndexError(i)` |
| Python.Split | lib/document.py:8 | `split` yields at least one piece |
| Python.SplitLength | lib/document.py:8-11 | `text.split('\n')` has one more piece than `text` has newlines |
| Python.SplitPiecesHaveNoSeparator | lib/document.py:8 | no piece of a split contains the separator |
| Python.JoinSplit | lib/document.py:8 | joining the pieces of a split with the separator gives the text back |
| Python.SplitWithoutSeparator | lib/document.py:8 | a text without the separator splits into itself alone |
| Python.SplitAfterPiece | lib/document.py:8 | a separator-free piece followed by the separator becomes the first piece of the split |
| Python.SplitJoin | lib/document.py:8 | splitting undoes joining, for a non-empty list of separator-free pieces |
| Python.LeadingSpaces | app.py:206 | counts the whitespace `strip` removes at the front: every counted character is whitespace and the next one is not |
| Python.TrailingSpaces | app.py:206 | counts the whitespace `strip` removes at the back: every counted character is whitespace and the one before them is not |
| Python.Strip | app.py:206 | `strip` yields a contiguous slice of the text with only whitespace around it and no whitespace at either end |
| Python.LeadingSpacesPadded | app.py:206 | whitespace in front of a text that does not start with whitespace is exactly the leading whitespace |
| Python.TrailingSpacesPadded | app.py:206 | whitespace behind a text that does not end with whitespace is exactly the trailing whitespace |
| Python.StripPadded | app.py:206 | `strip` removes exactly the whitespace padding around a core without whitespace at its ends |
| Python.StripIdempotent | app.py:206 | stripping twice is stripping once |
| Python.Digit | app.py:150 | the digit character for `d` has code `'0' + d` |
| Python.NatToString | app.py:150 | the rendering of a natural number is a non-empty string of decimal digits |
| Python.IntToString | app.py:150 | `'%s' % n` is a non-empty string, starting with `-` exactly when `n` is negative, with decimal digits after that |
| Python.ParseNatToString | app.py:150 | the decimal rendering of a natural number reads back to the number |
| Python.ParseIntToString | app.py:150 | the status code rendered into the failure message reads back to the same integer, sign included |
| Dict.Keys | app.py:212-214 | a dict has as many keys as pairs |
| Dict.KeysCons | app.py:212-214 | the keys of a non-empty dict are its first key followed by the keys of the rest |
| Dict.Get | app.py:212-214 | a lookup finds a value exactly when the key is present |
| Dict.Set | app.py:212-214 | `d[k] = v` makes `k` map to `v` and changes no other key; an existing key keeps its place, a new key goes last; distinct keys stay distinct |
| Http.AssertSuccess | app.py:148-151 | a reply passes exactly when its status is in `range(200, 300)`; otherwise the raised exception's message is the formatted failure message |
| Http.FailureMessage | app.py:150 | the failure message starts with `"\n\nRequest "`, ends with a newline, and is longer than the URL and the body together |
| Http.FailureMessageFields | app.py:150 | the failure message carries the method, the URL, the status code (readable back as the same number) and the body, each at a fixed place |
| Application.Receive | app.py:107-112 | a GET yields the parsed body exactly on a 2xx reply, otherwise a request error naming the method, URL, status and body |
| Application.GetConnectors | app.py:93-98 | the names are the body of `GET /connectors`, returned only on a 2xx reply |
| Application.GetConnector | app.py:162-170 | a row is `(connector.state, type, connector.worker_id, len(tasks), name)` of the status document, returned only on a 2xx status reply |
| Application.FetchSummaries | app.py:181-188 | the loop stores at most one row per name; with no failure it stores one row for every name; after a failure it stores fewer rows, and the next name's fetch raised that failure |
| Application.FetchedRowsFollowNames | app.py:182-188 | every stored row is the summary of the name at the same position, so the listing's order is kept |
| Application.Refreshed | app.py:172-191 | a refresh whose name listing fails stores nothing and raises that error |
| Application.FetchAllSucceeds | app.py:182-188 | when every summary can be fetched, the list has one row per name, row `i` being the summary of name `i` |
| Application.FetchStopsAtFirstFailure | app.py:182-188 | when name `k` is the first whose summary fails, the list holds exactly the `k` rows before it and the refresh raises that error |
| Application.RefreshEventsWhenListed | app.py:172-191 | after a successful listing, the callbacks are `onBegin`, then `onFetchComplete`, then one `onLoadingBegin` per attempted name, then `onClomplete` if nothing failed, each only if it was passed |
| Application.LoadingEventsStep | app.py:182-188 | each loop iteration adds at most its own `onLoadingBegin(i, n, id)` call |
| Application.LoadingEventsInOrder | app.py:182-188 | with `onLoadingBegin` passed, the `j`-th call is `onLoadingBegin(j+1, n, ids[j])` |
| Application.LoadingEventsNeverComplete | app.py:182-191 | the loading calls never include the completion callback |
| Application.AllCallbacks | app.py:172-191 | with every callback passed, the sequence is begin, fetch-complete with the names, then loading `1..count` in name order, then the tail, and it completes only if the tail does |
| Application.RefreshEventsOnSuccess | app.py:172-191 | a refresh that succeeds, with every callback passed, fires begin, the fetched names, loading `i` of `n` for every name in order, then completion: `n + 3` calls |
| Application.RefreshEventsOnFailure | app.py:172-191 | a refresh whose fetch of name `k` fails fires begin, the names, loading for names `0..k` (the failing one last), and never completion |
| Application.CompleteIffRefreshed | app.py:189-191 | `onClomplete` is called exactly when it was passed and the refresh raised nothing |
| Application.RefreshEventsWhenListingFails | app.py:172-178 | a refresh whose name listing fails fires at most `onBegin` |
| Application.App.constructor | app.py:81-89 | the application starts with the given host and an empty connector list |
| Application.App.NumberOfRows | app.py:156-157 | `number_of_rows()` is the length of the row list |
| Application.App.GetData | app.py:159-160 | `get_data(i)` succeeds exactly for `-n <= i < n`, returning row `i` for a non-negative index and row `n + i` for a negative one; otherwise `IndexError(i)` |
| Application.App.RefreshConnectors | app.py:172-191 | the list afterwards is exactly the refresh specification's rows, the outcome is its failure, and the callbacks fired are exactly the specified sequence |
| Application.App.LoadSummaries | app.py:181-188 | starting from an empty list, the loop leaves the specified rows, reports the specified failure and fires one `onLoadingBegin` per attempted name |
| Application.App.RefreshConnector | app.py:193-195 | a bad index raises `IndexError` and changes nothing; a failed fetch changes nothing; otherwise only row `index` is replaced, by the fresh summary of the name it held |
| Application.RefreshedRowsFollowListing | app.py:176-188 | after a refresh without failure the list has one row per listed name, row `i` summarising name `i` in the cluster's order |
| Application.JdbcSourceTemplate | app.py:52-60 | the JDBC source template has distinct keys, `tasks.max` = `"1"`, the JDBC source connector class, and `topic.prefix` but no `topics` |
| Application.JdbcSinkTemplate | app.py:62-70 | the JDBC sink template has distinct keys, `tasks.max` = `"1"`, the JDBC sink connector class, and `topics` but no `topic.prefix` |
| Application.DefaultTemplate | app.py:72-75 | the default template has distinct keys, `tasks.max` = `"1"`, a `null` connector class, and `topics` but no `topic.prefix` |
| Application.ConfigFromArgs | app.py:49-77 | `--jdbcSource` wins over `--jdbcSink`; the class is the source, sink or `null` class accordingly; `tasks.max` is always `"1"`; source configs carry `topic.prefix`, the others `topics` |
| Application.OpenEditor | app.py:197-209 | the returned text is the saved text stripped, and `changed` holds exactly when it differs from the offered text |
| Application.UntouchedBufferIsUnchanged | app.py:205-207 | saving the buffer untouched, even with whitespace the editor adds around it, is no change when the offered text has none at its ends |
| Application.NewConnectorDocument | app.py:212-214 | the offered document has exactly the keys `name` then `config`, holding the name and the config |
| Application.CreateConnector | app.py:143-146 | an edited text that does not parse is reported as malformed; otherwise the creation passes exactly on a 2xx reply to the POST |
| Application.BuildConnector | app.py:211-221 | nothing is submitted exactly when the stripped saved text equals the rendered document; otherwise the stripped text is submitted and the outcome is that creation's |
| Application.UntouchedTemplateCreatesNothing | app.py:211-221 | closing the editor on the untouched template creates no connector |
| Documents.Document.NumberOfRows | lib/document.py:10-11 | `number_of_rows()` is the number of rows, which for a document made from a text is its newline count plus one |
| Documents.Document.GetData | lib/document.py:13-14 | `get_data(i)` succeeds exactly for `-n <= i < n`, returning row `i` for a non-negative index and row `n + i` for a negative one, and never returns a row holding a newline |
| Documents.Document.GetText | lib/document.py:16-17 | `getText()` is the text the document was made from, and the rows joined with newlines give it back |
| Documents.NewDocument | lib/document.py:6-17 | the document keeps its text unchanged; it has one more row than the text has newlines; no row holds a newline; its rows joined with newlines give back the text |
| Documents.DocumentOfJoinedRows | lib/document.py:6-8 | rows without newlines, joined into a text, come back as exactly the rows of that text's document |
| Legends.MainLegend | lib/legends.py:3-16 | the list legend has 9 entries with keys `[UP] [DOWN] [R] [O] [S] [C] [U] [T] [Q]` in that order, all distinct, ending with `('[Q]', ' Quit ')` |
| Legends.DocumentLegend | lib/legends.py:18-30 | Copy Key is present exactly on `Darwin`, right before Quit; the legend ends with Quit, has 6 entries on `Darwin` and 5 elsewhere, and its keys are distinct |
| Legends.DocumentLegendVariants | lib/legends.py:19-29 | the two platform variants share their first four entries, and `Darwin` only inserts Copy Key before Quit |

## Left out

- HTTP transport: the `requests` calls are replaced by the `Cluster` oracle's replies.
- A request that raises before any reply is not modelled. `requests` raises `ConnectionError` or `Timeout` when the cluster cannot be reached. In `refreshConnectors` that error would propagate like a non-2xx reply and leave the partial list. The oracle, however, always gives a reply, and `Error.Request` always carries a `Response`.
- Http.FailureMessage: uses the URL as formatted by the console. `response.url` is the URL `requests` prepared and possibly redirected: the host is lower-cased and the connector name is percent-encoded. `Http.FailureMessageFields` therefore places the raw formatted URL in the message, where the real message can carry the prepared one.
- `Error`'s `Request` case carries the failed `Response`, not the message string. The message is `RequestException.Message()`, and `Http.AssertSuccess` states what it is.
- JSON: `json.loads` on a reply body is replaced by the typed body in the oracle.
- JSON: `json.dumps`, `prettyfyJson` and `json.loads(json.dumps(...))` are the `render` parameter of `BuildConnector`.
- JSON: `json.loads` on an edited text is the oracle's `parse`. `Json` covers `null`, booleans, integers, strings, arrays and objects. JSON numbers with a fraction or an exponent are not modelled.
- Application.GetConnector: assumes a well-formed status document. The `KeyError` or `TypeError` that Python raises for a document missing `connector`, `worker_id`, `type`, `name` or `tasks` is not modelled.
- Application.JdbcSourceTemplate, Application.JdbcSinkTemplate and Application.DefaultTemplate are written as the dict their key-by-key assignments produce, not as the assignments one at a time. No key is assigned twice, so each is the assignments in program order.
- Application.OpenEditor: the editor process, the `EDITOR` environment variable and the temporary file are left out. The text read back from the file is the parameter `saved`.
- Legends.DocumentLegend: `platform.system()` is the parameter `system`.
- `parseArgs`, `__init__`'s choice between create mode and the curses UI, and the curses screen itself (lib/ui.py, main.py) are not part of this model. They are terminal I/O.
- `getConnectorOverview`, `getConnectorTasks`, `getConnectorConfig`, `restartConnector`, `pauseConnector` and `resumeConnector` are not part of this model. Each is one request followed by `assertSuccess`, which `Application.Receive` and `Http.AssertSuccess` already state.
- Callbacks are recorded as `Event`s. What the UI does inside them (repainting, progress text) is not modelled.
