# dowell-caller: call registry, batch dispatcher and request checks

This project models the stateful core of `app.py`, a Flask service that places automated outbound calls through Twilio:

- **CSV row filter** (`CsvLoader`): `load_numbers_from_csv` keeps the rows whose `phone_number` field, once stripped, is non-empty and all digits. It returns nothing when the header has no such column.
- **Call registry** (`Calls`): the dictionary `calls_data` from call SID to record is a class `CallRegistry` holding a `map`. `make_call` inserts a fresh record when the provider accepts a call. The status, recording and transcription webhooks each overwrite one field of a known record and ignore unknown SIDs. Each method is proved against a pure transition function (`AfterCall`, `Apply`).
- **Batch dispatcher** (`Dispatcher`): `process_calls_in_batches` cuts the contact list into consecutive slices of `batch_size`, runs `make_call` over each slice, keeps the truthy SIDs in input order and pauses between batches. The provider is an oracle: `outcomes[i]` is its answer for contact `i` (`Some(sid)` or `None` when `calls.create` raises). The pauses are a ghost counter.
- **Request handling** (`Routes`): the greeting of `handle_call`, and the branching of `initiate_calls`. That covers which forms get a 400, the default batch size of 100, `int()` on the `batch_size` field and the reply text.
- **Text primitives** (`Text`): Python's `str.strip`, `str.isdigit` (ASCII) and `int()` on a string.

Python's `None` is `Option.None` throughout. A CSV row is a `map<string, Option<string>>`: `csv.DictReader` puts `None` in the fields that a short row lacks.

The code behaves as follows, and the model keeps it:

- A status callback overwrites the status unconditionally. A final status such as `completed` is replaced by a later `failed` (`Calls.FinalStatusOverwritten`). There is no protection for terminal states.
- The dispatcher returns SIDs in input order, because `executor.map` yields results in input order. They do not come in completion order.
- A record has no `message` or `gathered_response` field. There is no cancellation and no classification of spoken answers. A repeated SID overwrites the earlier record and raises no duplicate error.
- `make_call` checks only that the phone field is truthy. It does not strip it, and the record stores the raw field.

## Model

| member | source | states |
|---|---|---|
| `Text.StripSpec` | app.py:55 | `str.strip()`: the result is a slice of the input; everything cut off on both sides is white space; the result neither starts nor ends with white space; it is empty exactly when the input is all white space |
| `Text.SeparatorRefusedByInt` | app.py:252 | `int()` skips a narrower white-space set than `str.strip()`: a U+001C or U+001F next to the digits is removed by `strip()` but refused by `int()`, while a no-break space is skipped by both |
| `Text.ParseIntRoundTrip` | app.py:252 | `int()` of the decimal text of any integer gives that integer back (the decimal text is non-empty digits, possibly signed) |
| `CsvLoader.LoadNumbersFromCsv` | app.py:40-62 | no `phone_number` column gives `[]`; otherwise the result is exactly the valid rows before the first short row, in order and unmodified (the loop as written) |
| `CsvLoader.ValidRows` | app.py:54-59 | the kept rows are never more than the input rows and every kept row passes the phone validation |
| `CsvLoader.FirstShortRow` | app.py:55 | the index of the first row whose phone cell is `None` (where `.strip()` raises); no row before it is short |
| `CsvLoader.ValidRowHasPhone` | app.py:55-56 | a row that passes the validation has a non-`None`, non-empty `phone_number` cell |
| `CsvLoader.ValidRowsAppend` | app.py:54-57 | filtering commutes with concatenation, so kept rows keep their input order |
| `CsvLoader.ValidRowsMembers` | app.py:54-57 | a row is kept if and only if it is in the input and its phone is valid |
| `CsvLoader.IntendedRowsExact` | app.py:49-57 | the corrected load returns a row if and only if the header has `phone_number`, the row is in the file and its phone is valid |
| `CsvLoader.LoadedRowsWithoutShortRows` | app.py:54-62 | on a file with no short row, the code as written and the corrected load return the same list |
| `CsvLoader.ShortRowTruncatesLoad` | app.py:54-61 | a file whose first row lacks the phone field loses the valid row after it: as written `[]`, corrected `[good]` |
| `Calls.WithField` | app.py:182 | a record with one field overwritten holds the new value there, and every other field is unchanged |
| `Calls.Apply` | app.py:181-182 | a callback never adds or removes keys; an unknown or missing SID leaves the table unchanged; a known SID gets exactly the named field overwritten, and every other entry is unchanged |
| `Calls.CallResult` | app.py:89-93 | `make_call` returns a SID exactly when the contact has a truthy phone number and the placement succeeded, and then it is the provider's SID |
| `Calls.AfterCallSpec` | app.py:89-124 | no number or a failed placement leaves `calls_data` unchanged; on success the new SID maps to `{raw phone, name or '', 'initiated', None, None}` and every other key is kept |
| `Calls.AfterCallWellFormed` | app.py:92-93 | every record in the table keeps a non-empty phone number after `make_call` |
| `Calls.ApplyWellFormed` | app.py:181-204 | callbacks preserve the non-empty-phone invariant |
| `Calls.ApplyAllLastWriteWins` | app.py:181-204 | after any sequence of callbacks, each field of a known call holds the value of the last callback for that call and field (or its original value), whatever the interleaving; keys, phone and name are unchanged |
| `Calls.UnknownCallbacksIgnored` | app.py:181-204 | callbacks for SIDs not in the table change nothing and create no record |
| `Calls.FinalStatusOverwritten` | app.py:181-182 | statuses `ringing`, `completed`, `failed` arriving in that order leave `failed` |
| `Calls.CallRegistry.constructor` | app.py:37 | the registry starts empty |
| `Calls.CallRegistry.MakeCall` | app.py:86-124 | returns `CallResult`; the new table is `AfterCall` of the old; the number is handed to the provider only when it is truthy |
| `Calls.CallRegistry.CallStatusCallback` | app.py:175-184 | the new table is `Apply` of the old on the status field |
| `Calls.CallRegistry.RecordingCallback` | app.py:187-195 | the new table is `Apply` of the old on the recording URL field |
| `Calls.CallRegistry.TranscriptionCallback` | app.py:198-206 | the new table is `Apply` of the old on the transcript field |
| `Dispatcher.BatchesCover` | app.py:131-132 | concatenating the batches gives back the contact list: every contact in exactly one batch, in order |
| `Dispatcher.BatchesShape` | app.py:131-132 | every batch has between 1 and `batch_size` contacts, and all but the last have exactly `batch_size` |
| `Dispatcher.BatchAt` | app.py:131-132 | batch `j` is the slice `[j*k, min((j+1)*k, N))` |
| `Dispatcher.BatchCount` | app.py:131-139 | there are no batches for an empty list, otherwise `n` with `(n-1)*k < N <= n*k`, i.e. `ceil(N/k)` |
| `Dispatcher.Truthy` | app.py:135 | the comprehension `[sid for sid in batch_sids if sid]` never returns more SIDs than results |
| `Dispatcher.TruthyAppend` | app.py:135 | filtering batch by batch gives the same list as filtering all results at once |
| `Dispatcher.TruthyMembers` | app.py:135 | a SID is kept if and only if `make_call` returned it and it is non-empty |
| `Dispatcher.AfterCallsKeys` | app.py:113-134 | after the dispatch, the table's keys are exactly the old keys plus the SIDs `make_call` returned |
| `Dispatcher.AfterCallsAppend` | app.py:131-135 | placing the calls of `a + b` leaves the same table as placing `a` and then `b` |
| `Dispatcher.DialledAllAppend` | app.py:131-135 | the numbers dialled for `a + b` are those dialled for `a` followed by those for `b` |
| `Dispatcher.SuccessesSound` | app.py:134-141 | every returned SID is the provider's SID for some contact with a number, and it names a record; there are at most as many SIDs as contacts |
| `Dispatcher.SuccessesBoundedByDialled` | app.py:131-135 | there are at most as many returned SIDs as numbers handed to the provider, and at most as many of those as contacts |
| `Dispatcher.SkippedContactPlacesNoCall` | app.py:127-141 | for contacts `[15551230001, '', 15551230002]`, two SIDs are returned, two records are created, and the empty contact reaches no provider |
| `Dispatcher.MapMakeCall` | app.py:133-134 | one `make_call` result per contact of the batch, in input order; the table and the numbers dialled are those of `make_call` on each contact in turn |
| `Dispatcher.PlaceBatch` | app.py:132-135 | one pass of the batch loop: after the slice `[i..end]` the SIDs, the table and the numbers dialled are those of the prefix `[..end]` |
| `Dispatcher.ProcessCallsInBatches` | app.py:127-141 | a batch size of 0 raises (no calls); a negative one places no calls and returns `[]`; a positive one returns exactly the truthy results of `make_call` in input order, leaves the table as `make_call` on every contact does, has processed `Batches(contacts, k)`, and has paused once per batch except the last |
| `Dispatcher.RunBatches` | app.py:131-141 | the loop for a positive batch size, with the same promises |
| `Routes.GreetingAddressesName` | app.py:154-155 | every greeting starts with "Hello"; the name can be read back from it; the bare "Hello" is used exactly when the name is empty; an absent `name` argument gives the bare "Hello" |
| `Routes.PlanCalls` | app.py:211-252 | an unknown source gives `Invalid data source`; a request that is not refused has a non-empty contact list (for an upload, what `load_numbers_from_csv` returns as written), a named upload or a sheet id, and its batch size is `int(batch_size)` or 100 |
| `Routes.BatchSizeHonoured` | app.py:252 | no `batch_size` field means 100; the decimal text of `n` means `n`; the plan crashes exactly when `int()` fails on the field (a batch size of 0 parses, and its 500 comes later from `range()`, see `Routes.InitiateCalls`) |
| `Routes.SeparatorBatchSizeCrashes` | app.py:252 | a `batch_size` of U+001C followed by `5` makes `int()` raise, so the plan crashes (a 500) |
| `Routes.RejectedExactly` | app.py:213-249 | a 400 reply if and only if the source is unknown, or the upload is missing or unnamed, or loading it as written yields no row, or the sheet id is missing or the sheet yields no record |
| `Routes.ShortRowRejectsUpload` | app.py:227-230 | an upload whose only valid row follows a row without a phone cell is refused with the "No valid phone numbers" 400 |
| `Routes.CsvContactsAreDialled` | app.py:89-93 | every contact that a CSV upload dispatches has a phone cell that `make_call` dials, and the number handed to the provider is that cell |
| `Routes.InitiateCalls` | app.py:209-258 | a refused plan gives its 400 reply; a failing `int()` or a zero batch size gives a 500; in those cases and for a negative batch size neither the table nor the numbers dialled change; otherwise the reply lists the dispatcher's SIDs and says `Initiated <count> calls`, and the table and numbers dialled are those of `make_call` on every contact |

## Left out

- Twilio: `Client`, `calls.create`, the call and status-callback URLs, `record=True` and the TwiML built by `handle_call`. These are foreign library calls. Placement is an oracle answer per contact: a SID or a failure.
- Google Sheets loading (`load_numbers_from_google_sheet`) is a network call. Its result enters `Routes.PlanCalls` and `Routes.InitiateCalls` as the parameter `sheetRecords`. Numeric worksheet cells, which `gspread` returns as integers, are not modelled: every cell is a string.
- Concurrency: `ThreadPoolExecutor(max_workers=10)` runs a batch's `make_call`s in parallel, and the model runs them in order. Results still come in input order. With distinct SIDs the final table does not depend on the order; interleavings of two calls that receive the same SID are not captured.
- `time.sleep(2)` is a ghost counter of pauses. It says nothing about wall-clock time.
- File handling: saving the upload under `/tmp`, `os.remove`, and the CSV reader itself. The model starts from the parsed header and rows. An empty file behaves like a header without `phone_number`: both yield `[]`. Extra fields of long rows (`restkey`) are not modelled.
- `str.isdigit` and the digits accepted by `int()` are limited to ASCII `0`-`9`. Python also accepts other Unicode decimal digits.
- `Text.ParseInt` has no length limit. From Python 3.11, `int()` refuses a string of more than 4300 digits (`sys.int_max_str_digits`), which would be a 500; the model parses it.
- `jsonify` replies, `/calls-status`, `/export-results` (pandas CSV/JSON rendering), the index page, the inline HTML template, `app.run`, logging, `print` and dotenv/environment loading.
- Terminal-state protection, call cancellation, speech-gather classification, the `message` contact field and a duplicate-SID error do not exist in this code, so none of them is modelled.

## Findings

| source | as written | input that shows it | evidently intended | confidence | as-written member | corrected member |
|---|---|---|---|---|---|---|
| app.py:54-61 | `row.get('phone_number', '').strip()` runs on `None` when a row is shorter than the header. The resulting `AttributeError` is caught by the outer `except`, and the rows gathered so far are returned. | header `name,phone_number`; rows `Ann` then `Bob,15551230001`: the result is `[]`, and the request gets a 400 | such a row is skipped with the "Invalid or missing phone number" warning, like any other invalid row, so the result is `[Bob's row]` | medium, not executed | `CsvLoader.LoadNumbersFromCsv`, `CsvLoader.ShortRowTruncatesLoad`, `Routes.ShortRowRejectsUpload` | `CsvLoader.IntendedRows`, `CsvLoader.IntendedRowsExact` |
