# Dual-sink logger of the scraper, in Dafny

The scraper (`scraper/main.go`) fetches one news page and logs the text of
every paragraph element on it. Each entry goes twice: as a CSV row
(`scrape.csv`) and as a JSON line (`scrape.jsonl`). This project models the
logger that does this, and the two pieces of crawl-session state in `main`
that drive it: the paragraph handler and the request counter with its
100-request watermark.

- `logger_spec.dfy`, module `LoggerSpec`: the logger's state as a value
  (`Sink`) and one step function per operation. `WriteCsv`, `FlushCsv` and
  `EncodeJson` are the three stream calls `Log` makes. `LogStep` and
  `CloseStep` are `Log` and `Close`. `LogAll` is a run of `Log` calls whose
  errors are only collected. The lemmas about these functions sit beside
  them.
- `streams.dfy`, module `Streams`: the objects the logger owns. These are
  the file handle that `os.Create` returns, the buffering `csv.Writer` and
  the `json.Encoder`, as small classes with the behaviour the logger relies on.
- `logger.dfy`, module `Logging`: class `Logger` with the four fields of the
  Go struct. `NewLogger`, `Log` and `Close` are proved to change the handles
  exactly as the step functions say.
- `scraper.dfy`, module `Scraper`: the request counter (`Session`), the
  paragraph handler (`OnParagraphs`, a loop of `Log("p", text)` calls that
  collects errors) and `main` (`Scrape`).

Each place where the code can fail is an explicit input of type
`Fault = Option<IoError>`. `None` lets that step succeed. `Some(e)` makes it
fail with `e`, and the logger returns `e` unchanged. There are seven such
places: creating the CSV file, creating the JSONL file, the CSV row write,
the CSV flush, the JSON encode, closing the CSV file and closing the JSONL
file.

The model also covers the behaviour of Go's standard library that decides
what the logger does:
- The CSV writer and the JSON encoder keep the first error they meet (they
  are "sticky"). After that error, every later write or flush returns it and
  does nothing else.
- A flush with an empty buffer does no I/O.
- Writing to, or closing, a file that is already closed fails. Go returns a
  `*PathError` that wraps `os.ErrClosed`; the model abstracts it to `ErrClosed`.
- A failed close still releases the handle.

The central invariant is `Consistent`:
- the JSONL stream is a prefix of the CSV stream, so CSV is never behind;
- the two streams are equal as long as the JSON encoder has not failed;
- the CSV writer holds unflushed rows only after it has failed.

`Log` and `Close` preserve `Consistent` (the ensures of `LogStep`, `CloseStep`
and `LogAll`).

Two consequences of the sticky errors are proved:
- After one CSV failure, nothing reaches either file again. Every later
  paragraph reports that same error (`FailedCsvWriterFreezesBoth`).
- `Close` then stops at its flush and leaves both files open (`CloseStep`).

Points where the code does less than one might expect:
- `Close` does not release both handles whatever happens. A flush error is
  returned with both files still open. A CSV close error is returned with
  the JSONL file still open.
- There is no `SinkClosed` error. `Log` after `Close` puts the row in the
  writer's buffer, then fails with `ErrClosed` at the flush. Neither stream
  changes (`LogAfterCloseFails`).
- The flush after every row hands the row to the operating system. Nothing
  forces it to stable storage.
- The code does not enforce domains or depth itself. The collector library
  does that, and it is left out here. With the link handler commented out
  and a depth of 1, the crawl makes exactly one request, for the seed page.

## Model

| member | source | states |
|---|---|---|
| `LoggerSpec.WriteCsv` | scraper/main.go:59-61 | The CSV row is buffered only if the writer has no earlier error and the write succeeds. An earlier error is kept unchanged; otherwise the write's own fault becomes the writer's error. Neither file changes. |
| `LoggerSpec.FlushCsv` | scraper/main.go:62-65 | An earlier error or an empty buffer makes the flush a no-op. Otherwise the error is `ErrClosed` on a closed file, else the fault. With no error, every buffered row is now in the CSV file and the buffer is empty. With an error, the file and the buffer are unchanged. The JSONL side is untouched. |
| `LoggerSpec.EncodeJson` | scraper/main.go:66 | An earlier error is kept and nothing changes. Otherwise the new error is `ErrClosed` on a closed file, else the fault. The JSONL stream gains the one record exactly when there is no error; otherwise it is unchanged. The CSV side is untouched. |
| `LoggerSpec.LogStep` | scraper/main.go:57-67 | Log never opens or closes a file. A CSV write failure returns that error and leaves both streams and the buffer unchanged. A flush failure returns that error and leaves JSONL unchanged. Past a successful flush on open files, the result is the encode's fault. JSONL changes only after the row reached CSV. Success holds exactly when JSONL gained this one record. `Consistent` is preserved. From agreeing streams, success appends the record to both. |
| `LoggerSpec.CloseStep` | scraper/main.go:46-55 | A flush error is returned and neither file is closed. A CSV close error is returned, the CSV handle is released and the JSONL file stays as it was. A CSV file closed before gives `ErrClosed` and the JSONL file is not touched. Otherwise both are closed and the result is the JSONL close result. On success, every buffered row reached the CSV file. JSONL never changes. `Consistent` is preserved. |
| `LoggerSpec.CloseResult` | scraper/main.go:51-54 | Closing, or writing to, a file reports `ErrClosed` if it is already closed, else the fault; it succeeds exactly when the file is open and no fault is injected. |
| `LoggerSpec.ParagraphRecords` | scraper/main.go:100-101 | The records the handler logs are one per paragraph, in order, each with key "p" and the paragraph's text. |
| `LoggerSpec.LogAll` | scraper/main.go:100-104 | A run of Log calls reports at most one error per call. It never opens or closes a file. Both streams only grow. `Consistent` is preserved. |
| `LoggerSpec.AllLoggedWhenNoneFailed` | scraper/main.go:57-67 | Start from agreeing streams. If no Log call in a run returned an error, both streams gained exactly the logged records, in order, and still agree. |
| `LoggerSpec.NoFaultsNoReports` | scraper/main.go:57-67 | With open files, agreeing streams and no injected failure, every call succeeds. Each stream gains exactly the records logged. |
| `LoggerSpec.CsvGetsEveryRecord` | scraper/main.go:100-104 | Errors are only reported. So while the CSV writes and flushes succeed, every later record reaches the CSV file, even when the JSONL side fails. |
| `LoggerSpec.FailedCsvWriterFreezesBoth` | scraper/main.go:59-65 | Once the CSV writer has failed, no later Log call changes anything. Each one reports that same error. |
| `LoggerSpec.LogAfterCloseFails` | scraper/main.go:46-67 | After a successful Close, Log fails with `ErrClosed` (unless the write itself fails first). Neither stream changes. |
| `LoggerSpec.CloseTwiceFails` | scraper/main.go:46-55 | A second Close after a successful one reports `ErrClosed`. |
| `LoggerSpec.OpenThenCloseEmpty` | scraper/main.go:27-55 | Creating the logger, logging nothing and closing it succeeds. It leaves two closed, empty files. |
| `LoggerSpec.CleanRunRecordsEverything` | scraper/main.go:46-67 | Log with no failures from fresh files, then Close. Nothing reports an error, both files are closed, and each holds exactly the logged records in order. |
| `LoggerSpec.ThreeParagraphs` | scraper/main.go:100-104 | Paragraphs "A", "B", "C" with no failures end as ("p","A"), ("p","B"), ("p","C") in both files, with no error reported. |
| `Streams.Create` | scraper/main.go:28-32 | Returns a fresh, open, empty file, or the creation error and no file. |
| `Streams.File.constructor` | scraper/main.go:28 | A created file is open and empty. |
| `Streams.File.Write` | scraper/main.go:62 | An open file gains the records unless the write fails. A closed file reports `ErrClosed` and gains nothing. |
| `Streams.File.Close` | scraper/main.go:51-54 | The handle is released in every case. The result is the close error, or `ErrClosed` if the file was already closed. |
| `Streams.CsvWriter.constructor` | scraper/main.go:41 | A new CSV writer has an empty buffer and no error. |
| `Streams.CsvWriter.Write` | scraper/main.go:59 | Buffers the row unless the writer has an earlier error or this write fails. The result is the writer's error. |
| `Streams.CsvWriter.Error` | scraper/main.go:48 | Reports the error met by an earlier Write or Flush, unchanged, and no error when there was none. |
| `Streams.CsvWriter.Flush` | scraper/main.go:62 | Moves the buffer into the file, or keeps the buffer and records the error. Does nothing with an empty buffer or after an earlier error. |
| `Streams.JsonEncoder.constructor` | scraper/main.go:42 | A new encoder has no error. |
| `Streams.JsonEncoder.Encode` | scraper/main.go:66 | Appends exactly this record to the file, unless there is an earlier or a new error. The result is the encoder's error. |
| `Logging.Logger.constructor` | scraper/main.go:38-43 | The writer and the encoder sit on the two given files. Nothing is buffered and there is no error. |
| `Logging.Logger.NewLogger` | scraper/main.go:27-44 | A CSV create error is returned, with no logger and nothing created. A JSONL create error is returned after the CSV file was closed, with no logger. No created handle is left open unless a logger owns it. On success the logger is in state `Initial`. |
| `Logging.Logger.Log` | scraper/main.go:57-67 | The new handle state and the result are exactly `LogStep` of the old state. |
| `Logging.Logger.Close` | scraper/main.go:46-55 | The new handle state and the result are exactly `CloseStep` of the old state. |
| `Scraper.Session.constructor` | scraper/main.go:71 | The counter starts at 0. |
| `Scraper.Session.OnRequest` | scraper/main.go:107-116 | The counter grows by exactly one. The notice comes exactly when the count becomes 100. Nothing else changes. |
| `Scraper.OnRequests` | scraper/main.go:107-116 | The collector's requests one after another through the callback: the counter grows by the number of requests and the notices are exactly `Notices` of the old count. |
| `Scraper.Notices` | scraper/main.go:107-116 | Over n consecutive requests, request k gives the notice exactly when it brings the count to 100. |
| `Scraper.NoticeAtMostOnce` | scraper/main.go:111-114 | Any run of requests gives the notice once if it crosses 100 and never otherwise. |
| `Scraper.OnParagraphs` | scraper/main.go:100-104 | Logs ("p", text) for every paragraph in order, reporting each error and going on. Final state and reports equal `LogAll` over the paragraph records. |
| `Scraper.Scrape` | scraper/main.go:69-120 | A create error is fatal: it is returned and no request is made. Otherwise exactly one request is made and the paragraphs are handled. Then the logger is closed, and the files and the close error equal `CloseStep` after `LogAll`. |

## Left out

- The collector library: HTTP fetching, the user agent, HTML parsing,
  matching paragraph elements, and enforcing `AllowedDomains` and
  `MaxDepth` (scraper/main.go:83-88, 119). The matched paragraph texts of the
  seed page are an input of `Scrape`. A failed fetch is an empty input.
- The commented-out link handler (scraper/main.go:90-98): it is not live code.
- Byte-level formats: CSV quoting and JSON line encoding. Records are
  `(key, value)` pairs. The JSON encoder replaces invalid UTF-8 with U+FFFD,
  while the CSV writer writes the bytes as they are, so "the two streams are
  equal" holds of the text in the files only for valid UTF-8 input.
- Partial writes. A failing write or flush is modelled as committing
  nothing, though the real buffer may have written part of its contents.
  The CSV writer's `Write` can also write to the file when its buffer
  fills. The model sends rows to the file only on `Flush`, and a `Write`
  fault stands for that hidden write failing.
- Real file-system behaviour: durability, and aliasing when both paths name
  the same file. Each created handle is its own object.
- `Logging.Logger.NewLogger`: the dropped result of closing the CSV file on
  the error path is not modelled. The handle is released whatever that
  close reports.
- Console and log output: the "Visiting" line, the watermark message
  (`reached` in `OnRequest`), `log.Printf` (the `reports` and `closeErr`
  results) and `log.Fatalf` with its process exit (the `fatal` result;
  `Scrape` then returns at once: `log.Fatalf` runs before the deferred close
  is even registered, so there is no close to run).
- `Scraper.Session.OnRequest`: does not model wrap-around of Go's `int`
  counter (32 or 64 bits, depending on the platform), because it is
  unreachable within one crawl.
- Concurrency: the collector calls the callbacks one after another here.
