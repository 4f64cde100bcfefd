# Techcombank → Actual Budget sync, modelled in Dafny

The system logs into Techcombank online banking with a headless browser and
captures the JSON response that lists an account's transactions. It converts
those transactions into Actual Budget import entries, grouped by Actual
account, and imports each group. A web dashboard starts and stops the sync and
shows its status and rolling log. A settings page edits the credentials and
the mapping from bank arrangement ids to Actual accounts.

The model covers the following:

- **Transformer** (`Convert`): `convert_to_actual_transaction` and
  `convert_to_actual_import`.
  - The empty-mapping and unmapped-account drops.
  - VND truncation (`int(amount) * 100`).
  - Foreign-currency conversion, `round(amount * rate * 100)` with ties to even.
  - Debit negation and the notes.
  - The stable sort by account and the `groupby`.
- **Mapping flatten** (`Config`): the comprehension of `get_config` that turns
  the `mappings` list into `{arrangementId: accountId}`. A later mapping wins
  on a shared id.
- **Response handling** (`Response`): how `_process_save` finds the
  transaction list in the captured body, normalises it, and reads each record.
  Python's subscription, `.get`, `in`, truthiness, `len` and iteration are
  modelled in `Json`.
- **The service** (`Service`, `Status`, `LogBuffer`): the `AppStatus`
  values, the `BankingService` object and the log plumbing.
  - The object holds the status, the last error, the `running` gate, the
    bounded log deque and its `ListHandler`.
  - One sync run goes through launch, login, fetch, save and the import
    loop, with both exception handlers and the `finally` clause.
  - The run is specified by pure functions over the observable state: status,
    last error, gate, the lines emitted and the import calls issued. Every
    method of the class is proved to change the object exactly as those
    functions say. The properties of a run are lemmas about the functions.
- **Settings page** (`Settings`):
  - loading a stored mapping, including the legacy flat dict;
  - row editing, adding and removing;
  - the JSON import merge;
  - how arrangement ids are displayed and typed back.
- **Dashboard** (`Dashboard`):
  - the status badge class and label;
  - the running/OTP flags and the controls they drive;
  - the classification of log lines.

The browser, the bank, the Actual server, the exchange-rate feed and the
clock are outside the model. The rate feed is a parameter
`string -> Option<real>`, and so is the text-to-number parser `try_real`.
What the browser and the Actual client do during a run is an `Env` of
outcomes: launch error, form error, the two login waits, a stop during login,
the captured body, the token reply and each import call's outcome.

## Model

| member | source | states |
|---|---|---|
| Status.ParseValue | service.py:11-19 | Every status is recovered from its string value, and only member values parse. |
| Status.ValueInjective | service.py:11-19 | Distinct statuses have distinct wire values. |
| Convert.Trunc | modules/convert.py:30 | `int()` truncates toward zero: the result is within one unit of the argument, on the zero side. |
| Convert.RoundHalfEven | modules/convert.py:40 | `round()` lands within half a unit, and an exact tie goes to the even integer. |
| Convert.AccountFor | modules/convert.py:13-22 | A transaction has an account exactly when its arrangement id is mapped to a non-empty id; an empty mapping never yields one. |
| Convert.Converted | modules/convert.py:38-40 | A foreign amount is `amount * rate * 100`, within half a minor unit. |
| Convert.ConvertTransaction | modules/convert.py:13-51 | It drops a transaction exactly when there is no account, and fails exactly when the rate lookup fails. Otherwise every field of the entry is fixed: id, date, account, payee, notes and the signed amount. |
| Convert.EmptyMappingConvertsToNothing | modules/convert.py:13-15 | With an empty mapping, every batch converts to nothing and the import is the empty dict. |
| Convert.ConvertAllSpec | modules/convert.py:56 | The batch fails exactly when some transaction's conversion fails. Otherwise it holds one entry per kept transaction, in input order, each the conversion of that transaction. |
| Convert.ConvertAllFails | modules/convert.py:56 | The batch fails exactly when the conversion of some transaction fails. |
| Convert.ConvertAllEntries | modules/convert.py:56 | A batch that converts holds one entry per kept transaction, in input order, each that transaction's conversion. |
| Convert.ConvertToActualImportSpec | modules/convert.py:54-66 | The grouped result is a grouping of exactly the converted entries (same multiset), with one entry per kept transaction. |
| Convert.GroupByAccount | modules/convert.py:60-64 | Groups have increasing distinct keys. Each group holds exactly its account's entries in their original order, and together they hold every entry. |
| Convert.SortByAccountSpec | modules/convert.py:60 | The sort is sorted by account, is a permutation, and is stable: each account's entries keep their relative order. |
| Convert.GroupRunsSpec | modules/convert.py:62-64 | `groupby` over sorted entries yields a grouping whose concatenation is the input. |
| Convert.VndPurchaseExample | modules/convert.py:27-49 | Worked example: a 12.5 VND card-purchase debit becomes -1200, with the card prefix stripped from the notes. |
| Convert.VndAmount | modules/convert.py:30 | A VND amount ignores the rate feed, is a multiple of 100 and equals 100 times the truncated amount, up to sign. |
| Convert.ForeignAmount | modules/convert.py:38-40 | A foreign amount fails exactly when the rate lookup fails. Otherwise it is the rounded product, within half a minor unit. |
| Convert.DebitNegates | modules/convert.py:42-46 | A `DBIT` entry is the negation of the same record with any other indicator, and identical in every other field. |
| Convert.MagnitudeIgnoresIndicator | modules/convert.py:30-40 | The unsigned amount does not depend on the credit/debit indicator. |
| Convert.NotesSpec | modules/convert.py:32-49 | The notes keep what follows the card prefix verbatim. Without an account number they are a suffix of the description; with one they are those notes followed by ` @ <account number>`. |
| Config.Pieces | modules/config.py:10 | Iterating `arrangementIds`: absent gives nothing, a list gives its items, a string gives its characters. |
| Config.FlattenIsLookup | modules/config.py:7-11 | The comprehension agrees on every key with the reference lookup, "the id of the last mapping listing the key". |
| Config.LookupFound | modules/config.py:7-11 | A key is found exactly when some mapping lists it. |
| Config.LookupIsLast | modules/config.py:7-11 | A found key maps to the id of the last mapping that lists it. |
| Config.FlattenSpec | modules/config.py:7-11 | A key is in the map exactly when some mapping lists it, and it maps to the id of the last such mapping. |
| Config.FlattenValues | modules/config.py:7-11 | Every value of the map is the id of some mapping. |
| Config.FlattenConcat | modules/config.py:7-11 | Flattening two lists one after the other is the union in which the second list wins. |
| Config.AbsentContributesNothing | modules/config.py:10 | A mapping without `arrangementIds` can be removed without changing the map. |
| Config.AppendAbsent | modules/config.py:10 | Appending a mapping without `arrangementIds` leaves the map unchanged. |
| Config.FlattenSize | modules/config.py:7-11 | The map has no more keys than ids listed, and an empty list gives an empty map. |
| Response.ExtractIsFirstMatch | service.py:258-270 | The if/elif chain equals the reference priority rule: bare list, top-level `transactions`, `value` list, `value.transactions`, `data` list, else `[]`. |
| Response.ExtractPriority | service.py:258-270 | A list body is taken as is. A top-level `transactions` key wins whatever its type. A body matching no shape yields `[]`. |
| Response.DocumentPathNotRecognised | service.py:258-270 | A list nested under `document.listTransaction` is not found: the extraction yields `[]`. |
| Response.Normalize | service.py:272-277 | A falsy result becomes `[]`, a truthy one is kept, and any list is kept. |
| Response.DecodeEncode | modules/convert.py:24-49 | A record built from a bank transaction reads back as that transaction. A failed rate lookup for its foreign currency makes it fail with the transformer's rate error instead. |
| Response.MoneyOfRecord | modules/convert.py:24-25 | The raw amount and the currency code of an encoded record read back unchanged. |
| Response.DetailsOfRecord | modules/convert.py:28-49 | The id, date, amount, description, indicator and counterparty fields of an encoded record read back unchanged. The rate lookup fails exactly when the transformer's conversion of the transaction does. |
| Response.Details | modules/convert.py:24-49 | A decoded record carries the arrangement id and currency it was given, the parsed amount, and the id and account number read from the record. |
| Response.AccountNumberByPresence | modules/convert.py:48-49 | The account number is tested with `in`. A present key, null included, gives the notes a ` @ ` suffix; null prints as `None` and a string as itself. An absent key gives no suffix. |
| Response.RecordLookup | modules/convert.py:19-49 | Every key the transformer subscripts finds its field in an encoded record; the optional keys are found only when set. |
| Response.GetCons | modules/convert.py:19-49 | A key lookup in a record whose keys repeat finds the last value, as `json.loads` keeps it. |
| Response.ConvertItem | modules/convert.py:13-51 | With an empty mapping an item is dropped unread. A converted item is a dict whose string `arrangementId` maps to the entry's account. |
| Response.ConvertItemErrors | modules/convert.py:13-24 | With a non-empty mapping: a non-dict raises `TypeError`, a missing `arrangementId` raises `KeyError`, and a list or dict id is unhashable. A non-string or unmapped id is dropped; a mapped one fails exactly when its record does. |
| Response.ConvertResponse | service.py:290 | A successful conversion iterated the list, converted every item, and grouped the kept entries by account in increasing order. |
| Response.ConvertResponseOfRecords | modules/convert.py:54-66 | A list of encoded records converts exactly as `convert_to_actual_import` converts the records themselves. |
| Response.ConvertItemsOfRecords | service.py:290 | Items that are encoded records convert exactly as the transformer converts the records themselves. |
| Response.EmptyMappingIgnoresItems | modules/convert.py:13-15 | With an empty mapping, any iterable response converts to nothing, and only a non-iterable one fails. |
| Response.EmptyMappingItems | modules/convert.py:13-15 | With an empty mapping, every item, well formed or not, converts to nothing. |
| Response.TextInsteadOfList | service.py:290 | A non-empty string in place of the list fails on its first character, which is not subscriptable by key. |
| Text.Decimal | service.py:279 | The transaction count is printed as a decimal numeral that denotes the count, with no leading zero. |
| Json.Keys | service.py:261 | The keys of a parsed object are listed once each, and are exactly the keys the object holds. |
| Json.KeysInOrder | service.py:261 | The keys are listed in order of first appearance: each listed key occurs in the object before every occurrence of a key listed after it. |
| Json.RepeatedKeyCountedOnce | service.py:279 | A key repeated in the text counts once in `len` and keeps its last value. |
| Service.ImportsStop | service.py:309-310 | A raise inside the import loop ends it: later groups are not imported. |
| Service.ImportsPrefix | service.py:309-310 | The loop keeps status, error and gate. It issues a prefix of the groups in order, and all of them when nothing raises. |
| Service.ImportsComplete | service.py:309-310 | The loop completes exactly when no import call raises. |
| Service.ImportsSpec | service.py:309-310 | The loop keeps status, error and gate. It issues a prefix of the groups in order, all of them when it completes, and it completes exactly when no import raises. |
| Service.UploadOutcome | service.py:292-312 | The upload completes exactly with a truthy token and no import raising. It then ends in `SUCCESS` with every group imported, and it imports nothing without a token. |
| Service.ConvertAndSendOutcome | service.py:279-312 | The conversion and upload complete exactly when the body converts, the token is usable and no import raises. |
| Service.SaveOutcome | service.py:251-312 | `_process_save` completes exactly when the body parses and converts, the token is usable and no import raises. It then ends in `SUCCESS` with the last line reporting it. |
| Service.FetchSuccess | service.py:174-243 | `_process_fetch` completes exactly when a response is captured and saved, and then every planned group was imported. |
| Service.FetchFrame | service.py:174-243 | `_process_fetch` never touches the running flag, only appends to the log and the import calls, and imports nothing when no token was captured. |
| Service.FetchFailure | service.py:239-243 | When the fetch raises, its handler has logged "Fetch flow failed: …", recorded the error and set `ERROR` as the last line. |
| Service.LoginOutcome | service.py:149-173 | Login completes exactly when the form goes through and either wait succeeds, ending in `LOGGING_IN`. A failed long wait leaves `WAITING_OTP`. |
| Service.LoginThenFetchOutcome | service.py:107-110 | After login, the fetch runs only while the gate is open. The run then ends in `LOGGING_IN` without imports, or in `SUCCESS` with all groups imported. |
| Service.AttemptOutcome | service.py:84-110 | The `try` body completes exactly when launch and login succeed and, if the fetch is reached, the fetch succeeds. It then ends in `SUCCESS` with every planned group imported, or in `LOGGING_IN` with none. |
| Service.AttemptIsFetch | service.py:107-110 | When the gate is still open after login, the `try` body ends as the fetch step does. |
| Service.FinishSpec | service.py:112-129 | After a raise the handler logs "Error during sync: …", records the message and sets `ERROR`. The `finally` clause closes the gate, keeps `SUCCESS` or `ERROR`, and otherwise sets `IDLE`. |
| Service.FinishStatus | service.py:112-129 | The final status is `ERROR` after a raise, `SUCCESS` when the body ended there, else `IDLE`; the error is recorded only after a raise. |
| Service.FinishTerminal | service.py:116-129 | A body that only appended ends with the gate closed in a final status that is also the last line, and a new start is accepted. |
| Service.FinishAfterFetchFailure | service.py:112-115 | When the body ended with the fetch handler's report, the run's report follows it at the end of the log. |
| Service.RunTerminal | service.py:82-129 | Every run ends with the gate closed in `IDLE`, `ERROR` or `SUCCESS`. The log only grows, its last line reports the final status, and a new start is accepted. |
| Service.RunIdle | service.py:107-129 | A run ends in `IDLE` exactly when launch and login complete but the gate was closed before the fetch. The last error and the imports are then unchanged. |
| Service.RunSuccess | service.py:82-129 | A run ends in `SUCCESS` exactly when every step completes. Every planned group was then imported once, in order. |
| Service.RunError | service.py:112-115 | A run ends in `ERROR` exactly when it neither idles nor succeeds. The message is recorded, and "Error during sync: …" is the line before the final status line. |
| Service.FetchErrorReportedTwice | service.py:112-115 | A fetch failure is logged and the status set to `ERROR` twice: once by the fetch step's handler, once by the run's. |
| Service.NoImportWithoutToken | service.py:305-306 | Without a truthy token, no import call is made. |
| Service.BankingService.constructor | service.py:37-50 | A new service is `IDLE`, with no error, the gate closed and an empty log; the handler writes into the 50-line deque. |
| Service.BankingService.Logs | service.py:52-54 | The `logs` property holds the newest lines emitted, at most 50, oldest first, and ends with the newest line. |
| Service.BankingService.Log | service.py:30-34 | One logger call appends the line; the deque keeps the newest 50. |
| Service.BankingService.SetStatus | service.py:78-80 | `_set_status` sets the status and logs "Status changed to: <value>". |
| Service.BankingService.StartSync | service.py:141-147 | Refused, with "Sync already in progress", while running. Otherwise it opens the gate, stores the config and changes nothing else. |
| Service.BankingService.StopSync | service.py:75-76 | Closes the gate and changes nothing else. |
| Service.BankingService.ProcessLogin | service.py:149-173 | Changes the object exactly as the login specification says. |
| Service.BankingService.ImportAll | service.py:309-310 | The loop changes the object exactly as the import-loop specification says, stopping at the first raise. |
| Service.BankingService.ImportGroup | service.py:309-310 | One import call changes the object as one step of the import-loop specification says. |
| Service.BankingService.LogAll | service.py:174-235 | The capture phase's lines are appended to the log in order. |
| Service.BankingService.SendToActual | service.py:292-312 | Changes the object exactly as the upload specification says. |
| Service.BankingService.ProcessSave | service.py:251-312 | Changes the object exactly as the save specification says. |
| Service.BankingService.ConvertAndSendAll | service.py:279-312 | Changes the object exactly as the conversion-and-upload specification says. |
| Service.BankingService.ProcessFetch | service.py:174-243 | Changes the object exactly as the fetch specification says, including its error handler. |
| Service.BankingService.RunProcess | service.py:82-129 | Changes the object exactly as the run specification says; the run properties above then apply to it. |
| LogBuffer.LastN | service.py:46 | What a bounded deque keeps: the newest `n` elements, all of them when there are no more than `n`. |
| LogBuffer.LastNAppend | service.py:46 | Appending to a bounded deque and trimming equals trimming the whole history once. |
| LogBuffer.LastNNewest | service.py:46 | After an append, the newest line is last. |
| LogBuffer.LogDeque.Append | service.py:46 | `append` on a full deque drops the oldest element. |
| LogBuffer.LogDeque.PopLeft | service.py:34 | `popleft` removes and returns the oldest element. |
| LogBuffer.ListHandler.Emit | service.py:30-34 | `emit` records the line. The deque then holds the newest lines within the smaller bound, and the handler's own pop never fires when the deque's bound is smaller. |
| Settings.LegacyEntries | frontend/src/pages/SettingsPage.jsx:34-39 | A legacy flat dict becomes one mapping per key. |
| Settings.LoadMappings | frontend/src/pages/SettingsPage.jsx:28-43 | A stored array is used as is. A stored object is converted, and so is a stored string, through its index/scalar entries. Anything else, including unparseable text, gives no mappings. |
| Settings.LegacyRoundTrip | frontend/src/pages/SettingsPage.jsx:34-39 | Converting a legacy dict and flattening it again gives back the dict, later keys winning. |
| Settings.LegacyFlatten | frontend/src/pages/SettingsPage.jsx:34-39 | Flattening the converted legacy entries gives the dict back, key by key. |
| Settings.StringEntries | frontend/src/pages/SettingsPage.jsx:35 | `Object.entries` of a string lists each Unicode scalar value under its decimal index. |
| Settings.StoredStringFlatten | frontend/src/pages/SettingsPage.jsx:34-39 | A stored string maps arrangement `i` to the account named by its `i`-th Unicode scalar value, for every index. |
| Settings.DictOfDistinct | frontend/src/pages/SettingsPage.jsx:34-39 | With no key repeated, the flat dict holds every key/value pair as written. |
| Settings.SplitTrim | frontend/src/pages/SettingsPage.jsx:63-64 | Editing `arrangementIds` splits on commas and trims each piece, keeping empty pieces. |
| Settings.ChangeFieldSpec | frontend/src/pages/SettingsPage.jsx:60-69 | Only the edited row's edited field changes: `arrangementIds` becomes the split-and-trimmed list, and other fields the raw text. |
| Settings.SplitTrimPieces | frontend/src/pages/SettingsPage.jsx:63-64 | Every stored piece is trimmed and holds no comma. |
| Settings.SpliceStart | frontend/src/pages/SettingsPage.jsx:80 | Where `splice` starts: a negative index counts from the end, and the start is clamped to the array. |
| Settings.RemoveAtSpec | frontend/src/pages/SettingsPage.jsx:78-82 | Removing an in-range index deletes exactly that row. A negative index counts from the end, and a too-large index removes nothing. |
| Settings.Pick | frontend/src/pages/SettingsPage.jsx:93-102 | `imported \|\| previous`: a non-empty imported string wins, otherwise the previous value stays. |
| Settings.MergeMappings | frontend/src/pages/SettingsPage.jsx:101 | Any imported mapping array, even an empty one, replaces the list; otherwise the list stays. |
| Settings.MergeNothing | frontend/src/pages/SettingsPage.jsx:93-102 | A file with none of the fields leaves the form as it was. |
| Settings.MergeIdempotent | frontend/src/pages/SettingsPage.jsx:93-102 | Importing the same file twice is the same as importing it once. |
| Settings.MergeTakesTruthy | frontend/src/pages/SettingsPage.jsx:93-102 | An imported non-empty value ends up in the form whatever was there before. |
| Settings.GetArrangementsString | frontend/src/pages/SettingsPage.jsx:144-147 | A falsy value displays as "", a string as itself, and a one-element list as its element. |
| Settings.SplitJoined | frontend/src/pages/SettingsPage.jsx:144-147 | The comma pieces of a displayed list are its ids, each after the first preceded by a space. |
| Settings.DisplayRoundTrip | frontend/src/pages/SettingsPage.jsx:60-69 | A list of trimmed, comma-free ids that is displayed and typed back unchanged is the same list. |
| Settings.EmptyListEditsToOneEmptyId | frontend/src/pages/SettingsPage.jsx:144-147 | An empty list displays as "", and that text typed back becomes one empty id. |
| Settings.Values | frontend/src/pages/SettingsPage.jsx:28-43 | The values of a list of row objects, one per row, in order. |
| Settings.NewRows | frontend/src/pages/SettingsPage.jsx:28-43 | `JSON.parse` builds one fresh, distinct row object per mapping. |
| Settings.SettingsForm.constructor | frontend/src/pages/SettingsPage.jsx:6-17 | The form starts with empty credentials, no mappings and no message. |
| Settings.SettingsForm.Load | frontend/src/pages/SettingsPage.jsx:28-43 | The initial fetch installs the credentials and the loaded mappings. |
| Settings.SettingsForm.HandleMappingChange | frontend/src/pages/SettingsPage.jsx:60-69 | An edit to an existing index mutates that row object in place. The list keeps the same row objects, and its values change as the edit specification says. |
| Settings.SettingsForm.AddMapping | frontend/src/pages/SettingsPage.jsx:71-76 | A fresh blank "New Account" row is appended, and nothing else changes. |
| Settings.SettingsForm.RemoveMapping | frontend/src/pages/SettingsPage.jsx:78-82 | The list becomes the splice of the old one, and nothing else changes. |
| Settings.SettingsForm.HandleImport | frontend/src/pages/SettingsPage.jsx:84-111 | No file changes nothing, and an unparseable file only sets the error message. A parsed file merges credentials and mappings and sets the success message. |
| Dashboard.RunningIffNotTerminal | frontend/src/pages/DashboardPage.jsx:91-92 | The page counts a status as running exactly when it is not `idle`, `error` or `success`, and as awaiting OTP exactly for `waiting_otp`. |
| Dashboard.StatusClassSpec | frontend/src/pages/DashboardPage.jsx:71-77 | Final statuses and OTP get their own badge class; every other status shares `status-running`. |
| Dashboard.ControlsSpec | frontend/src/pages/DashboardPage.jsx:126-159 | Start is disabled exactly while running, which is exactly when Stop is shown and the label reads "Syncing...". The OTP banner shows exactly for `waiting_otp`. |
| Dashboard.StatusLabelSpec | frontend/src/pages/DashboardPage.jsx:108 | The two-word statuses read with a space in place of their underscore. |
| Dashboard.TwoWordLabel | frontend/src/pages/DashboardPage.jsx:108 | A value whose first word has no underscore reads with a space in place of the underscore after that word. |
| Dashboard.StatusLabelPlain | frontend/src/pages/DashboardPage.jsx:108 | One-word statuses read as they are. |
| Dashboard.StatusLabelFirstOnly | frontend/src/pages/DashboardPage.jsx:108 | `replace('_', ' ')` replaces only the first underscore. |
| Dashboard.FormatLogEntrySpec | frontend/src/pages/DashboardPage.jsx:79-89 | A rendered line keeps its text. Its class names the strongest kind it mentions: warning over success over error, else info. |
| Dashboard.FormatIgnoresCase | frontend/src/pages/DashboardPage.jsx:79-89 | Matching ignores case. |

## Left out

- The browser and the bank: launching Chromium, page navigation, form filling, the login waits, the selector loop that clicks an account, and the capture of the response (service.py:86-105, 152-171, 180-235). Each appears only as an outcome in `Env`. The log lines of the capture phase are one given sequence.
- Concurrency: `start_sync` starting the run as a task, the screenshot loop (service.py:132-139), and `stop_sync` interleaving with a run. A stop is modelled only where the run observes it, the gate check after login (service.py:109). Browser and context cleanup (service.py:118-126) is not modelled.
- The first, identical definition of `start_sync` (service.py:67-73) is replaced by the second one and is not modelled separately. `app.py`, which calls it, is not part of this model.
- The second `except Exception` of `_process_fetch` (service.py:245-249) can never run and is not modelled.
- Service.BankingService.SetStatus: logs the status's value ("idle"). Recent Python versions format a `str`-mixin enum in an f-string as its qualified name instead.
- Log lines omit the `%(asctime)s - ` timestamp prefix (service.py:28). The clock is outside the model.
- The lines with Python reprs that do not affect the run are modelled only approximately. `Data type` tells `int` from `float` by value. `Response keys` does not escape quotes. The capture lines are given as a sequence.
- Floating point: amounts and rates are exact reals. `try_real` is a parameter `string -> Option<real>`.
- Response.DecodeRecord: an amount that is neither a number nor a parseable string, and a text field that is not a string, make the record malformed. The same holds for an account number that is a number, a boolean, a list or a dict. The source would go on with whatever Python does with such values, such as printing `str(value)` after ` @ `.
- Response.DecodeRecord: a record that holds the same key twice is read through its last value, as `json.loads` keeps it.
- Config.Flatten: a malformed configuration is not modelled. This covers a mapping without `id` (`KeyError`), a null or numeric `arrangementIds` (`TypeError`), a dict in its place (Python iterates its keys), and a missing `mappings` key (`KeyError`). `IdsField` only has the absent, list and string forms.
- Settings.SettingsForm.HandleImport: each field of the imported file is an optional string, and `mappings` an optional array. JavaScript's `||` would also keep a truthy non-string credential, or a truthy non-array `mappings`; those are not representable. A file holding just `null` parses, but the state updater then reads a field of `null` and throws, after the success message is set. That crash is not modelled: `ImportEvent` has no case for such a file.
- Settings.StringEntries: a string is a sequence of Unicode scalar values here, while JavaScript's `Object.entries` lists UTF-16 code units. A character outside the Basic Multilingual Plane is one entry here, and two surrogate halves under indices `i` and `i + 1` in the source. The indices of every later character shift accordingly. A lone surrogate is not a Dafny character, so those entries are not representable.
- Settings.LoadMappings: a legacy dict whose values are not all strings is not representable. The source would take such a value unchanged as the row's id.
- Settings.SplitTrim: trimming strips only ASCII whitespace and the no-break space. JavaScript's `trim` also strips the other Unicode space separators, U+2028, U+2029 and U+FEFF.
- Exception messages other than the ones the code writes (`KeyError`, `TypeError`, network errors) are represented by fixed strings, not Python's exact wording.
- The config keys read at login and at token time (service.py:155-157, 296-301) are not modelled. A missing one shows up as `formError` or `TokenRaised`.
- The network modules: `exchange_rate.get_exchange_rate` is the `RateFeed` parameter. `actual.init_actual` and `actual.import_transactions` are the `TokenOutcome` and `ImportOutcome` values, including their logged-and-swallowed network errors.
- `get_config` reading the file, and the remaining keys it returns (modules/config.py:4-6, 12-15). Only the `arrangements` comprehension is modelled.
- SettingsPage: `handleChange`, `handleSubmit` and `handleExport`, the network calls, and the JSX rendering.
- DashboardPage: polling, the API calls, and rendering beyond the status badge, the label, the control flags and the log-line classes.
