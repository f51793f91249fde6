# Transaction remediation workflow: a verified Dafny model

This project models the sequential core of a workflow for remediating
flagged financial transactions. Transactions live in a spreadsheet with
four worksheets: transactions, e-mail history, WhatsApp history and
remediation states. The Python program works on an in-memory copy of each
worksheet and writes it back only when asked. Its parts are:

- the record store `GoogleSheetsService`: append, find by equality, bulk
  update by mask, clear, and the explicit save and reload that are its only
  links to the remote worksheet (`SheetsService`);
- the worksheet handlers that lay down a default header on an empty
  worksheet and forward to the store; the state update of the transactions
  handler; the time-stamped `add_message` of the history handler
  (`Worksheets`);
- `TransactionSheetService`, which files an e-mail or WhatsApp message under
  the movement number of the transaction carrying its identifier, and saves
  or reloads all four worksheets (`TransactionSheet`);
- the upload endpoint: drop uploaded transactions whose movement number is
  already stored, split the rest by QUERY code (2, 3, anything else), stamp
  their initial remediation state, append, save and report the counts
  (`FileProcessor`); and the same key difference written as
  `XLSXParser.new_rows` (`XlsxParser`);
- the WhatsApp send queue with bounded re-enqueueing of failed sends
  (`MessagesQueue`);
- the agent tools: the row `add_transaction_func` builds, the patch
  `update_transaction_func` builds, and the replies (`SheetTools`);
- the list-backed mock sheet of `src/agent_tools/tmp.py`, its transactions
  handler that keeps a record list in lock-step with the sheet, the mock
  update tool, and the agent's case-insensitive scope filter (`MockTools`);
- the small rules: phone-number normalisation and its pre-save inverse, the
  text step of `parse_number` and the column schemas (`DomainTypes`); the
  history time stamp format (`DateFormat`); webhook payload extraction and
  the `send_message` key guard (`WhatsApp`); the echo reply of the webhook
  (`Webhook`); e-mail header lookup, body-part selection and base64url
  decoding (`EmailService`); and the coordinator's routing of 'cobro' to the
  3C agent and everything else to the 2B agent (`Coordinator`).

Cells are modelled as `Value` (`Str`, `Int`, an opaque `Num` standing for a
float, and `Null` for NaN/None). A row is a `map<string, Value>` and a table
a header plus a sequence of rows. A Python dict handed to `add_row` or
`update_row` is a sequence of key/value pairs, so that its insertion order
(which decides the order of new columns) is kept. pandas comparison is
modelled as it behaves: `df[col] == v` never matches a NaN cell, while `isin`
does match NaN against NaN. The remote worksheet is a second table field
that only save writes and only reload reads. Whether the remote side can be
reached, the clock, what a send returned, the Drive file id and the
language model's answer are parameters.

What the code does and does not do, as the model reproduces it:

- The upload endpoint sends no e-mail, enqueues no WhatsApp message and
  fills neither EMAIL ID nor WP ID. It appends every new row and reports
  only the bucket counts, without any drop counts.
- `add_row` does not coerce a new row to the column types.
- Rows that repeat a movement number within one upload are all kept.
- The history handler's `add_message` does not check that the identifier
  belongs to a transaction. The check is made by
  `TransactionSheetService.add_email_message` / `add_whatsapp_message` before
  they call it.

The code also has quirks that the model reproduces as written:

- `update_transaction_func` always patches N° Movimiento, with 0 when the
  caller gave none.
- It puts the date under a "Date" column rather than 'Fecha'.

## Model

| member | source | states |
|---|---|---|
| SheetsService.FindRowsSpec | src/infrastructure/google_sheets_service.py:84-89 | `find_row` gives the rows whose column equals the value, in table order and with repetitions. It gives nothing both when no row matches and when the column is missing. |
| SheetsService.AnyMatchIffFound | src/infrastructure/google_sheets_service.py:85-86 | `find_row` finds something exactly when the column exists and some row matches. |
| SheetsService.MaskSpec | src/infrastructure/google_sheets_service.py:103-104 | The update mask selects a row exactly when some row matches. |
| SheetsService.WithRowSpec | src/infrastructure/google_sheets_service.py:66-70 | `add_row` appends exactly one row, holding the dict's values, after the unchanged earlier rows. The header keeps its columns and gains the dict's new keys. |
| SheetsService.FindAfterAdd | src/infrastructure/google_sheets_service.py:68-70 | A row just added is found again by any of its non-NaN cells, after the earlier matches. |
| SheetsService.PatchStep | src/infrastructure/google_sheets_service.py:109-110 | One pass of the update loop writes the next patch entry into every masked row. It also extends the header by that column if it is new. |
| SheetsService.PatchedSpec | src/infrastructure/google_sheets_service.py:103-112 | A successful update keeps the row count. Unmatched rows and unpatched columns are unchanged, and every matched row holds every patched value. |
| SheetsService.PatchOverSearchColumn | src/infrastructure/google_sheets_service.py:103-110 | The mask is fixed before patching. A patch that rewrites the search column still reaches every originally matched row, which then matches the new value, and no row matches the old one. |
| SheetsService.ClearedSpec | src/infrastructure/google_sheets_service.py:117-125 | `clear_data` keeps the header, leaves no rows, and afterwards every search finds nothing. |
| SheetsService.OperationsKeepWellFormed | src/infrastructure/google_sheets_service.py:58-128 | Add, update and clear keep every cell inside the header. |
| SheetsService.GoogleSheetsService.constructor | src/infrastructure/google_sheets_service.py:24-26 | The in-memory table starts as the loaded remote worksheet. |
| SheetsService.GoogleSheetsService.ReadAllData | src/infrastructure/google_sheets_service.py:50-56 | Returns the table as a value, so a change to the result cannot reach the store. |
| SheetsService.GoogleSheetsService.AddRow | src/infrastructure/google_sheets_service.py:58-73 | Returns true and the table becomes the table with the dict appended. |
| SheetsService.GoogleSheetsService.FindRow | src/infrastructure/google_sheets_service.py:75-89 | Returns the `find_row` result on the current table and changes nothing. |
| SheetsService.GoogleSheetsService.UpdateRow | src/infrastructure/google_sheets_service.py:91-115 | The column-by-column loop gives the patched table exactly when something matched, and then returns true. Otherwise it returns false with the table unchanged. |
| SheetsService.GoogleSheetsService.ClearData | src/infrastructure/google_sheets_service.py:117-128 | Returns true; the table becomes the cleared table. |
| SheetsService.GoogleSheetsService.SaveChanges | src/infrastructure/google_sheets_service.py:130-141 | Writes the table to the remote worksheet and returns true when it is reachable. Otherwise it returns false with the remote worksheet unchanged. |
| SheetsService.GoogleSheetsService.ReloadData | src/infrastructure/google_sheets_service.py:143-154 | Replaces the table by the remote worksheet, discarding unsaved changes. When the remote is unreachable it returns false with the table unchanged. |
| SheetsService.SaveEditReload | src/infrastructure/google_sheets_service.py:130-154 | Changes made after a save are discarded by a reload, which restores the saved table. |
| Worksheets.HistoryColumns | src/infrastructure/worksheets/whatsapp_history_worksheet.py:8-10 | The history header has four columns, the third being the message identifier column. |
| Worksheets.HeadersDistinct | src/infrastructure/worksheets/states_worksheet.py:7-17 | Each default header names its columns once; the transactions header has 13. The six state labels are pairwise distinct. |
| Worksheets.HistoryEntryCells | src/infrastructure/worksheets/whatsapp_history_worksheet.py:56-62 | The history row holds the DD/MM/YYYY HH:MM:SS stamp of `now`, which reads back as `now`, plus the movement number, the identifier and the message, and no other column. |
| Worksheets.UpdateStateSpec | src/infrastructure/worksheets/transactions_worksheet.py:63-64 | A state update sets the remediation state of every row with that movement number, whatever its earlier state. Other rows, other columns and the row count are unchanged. |
| Worksheets.InitialTable | src/infrastructure/worksheets/transactions_worksheet.py:22-26 | A non-empty table is kept. An empty one (no rows or no columns) becomes the default header with no rows. |
| Worksheets.InitializeColumns | src/infrastructure/worksheets/transactions_worksheet.py:22-26 | `_initialize_columns`: the table becomes the initial table. The default header is saved (when reachable) only if the table was empty. |
| Worksheets.TransactionsWorksheet.constructor | src/infrastructure/worksheets/transactions_worksheet.py:13-26 | Construction lays down the 13-column header on an empty worksheet and saves it. A non-empty worksheet is untouched. |
| Worksheets.TransactionsWorksheet.ReadAll | src/infrastructure/worksheets/transactions_worksheet.py:28-30 | Returns the store's table. |
| Worksheets.TransactionsWorksheet.Add | src/infrastructure/worksheets/transactions_worksheet.py:32-34 | Has the store's `add_row` semantics. |
| Worksheets.TransactionsWorksheet.Find | src/infrastructure/worksheets/transactions_worksheet.py:36-38 | Has the store's `find_row` semantics. |
| Worksheets.TransactionsWorksheet.FindTransaction | src/infrastructure/worksheets/transactions_worksheet.py:40-42 | Gives the rows carrying the movement number, in order. It gives nothing when there are none or there is no movement-number column. |
| Worksheets.TransactionsWorksheet.Update | src/infrastructure/worksheets/transactions_worksheet.py:44-46 | Has the store's `update_row` semantics. |
| Worksheets.TransactionsWorksheet.UpdateState | src/infrastructure/worksheets/transactions_worksheet.py:48-67 | Returns false and changes nothing when no row has the movement number. Otherwise it returns true and applies the state patch to those rows, with no check on the current state. |
| Worksheets.TransactionsWorksheet.Clear | src/infrastructure/worksheets/transactions_worksheet.py:69-71 | Has the store's `clear_data` semantics. |
| Worksheets.TransactionsWorksheet.SaveChanges | src/infrastructure/worksheets/transactions_worksheet.py:73-75 | Has the store's `save_changes` semantics. |
| Worksheets.TransactionsWorksheet.ReloadData | src/infrastructure/worksheets/transactions_worksheet.py:77-79 | Has the store's `reload_data` semantics. |
| Worksheets.HistoryWorksheet.constructor | src/infrastructure/worksheets/whatsapp_history_worksheet.py:15-28 | Construction lays down the four-column history header on an empty worksheet and saves it. A non-empty worksheet is untouched. |
| Worksheets.HistoryWorksheet.ReadAll | src/infrastructure/worksheets/whatsapp_history_worksheet.py:30-32 | Returns the store's table. |
| Worksheets.HistoryWorksheet.Add | src/infrastructure/worksheets/whatsapp_history_worksheet.py:34-36 | Has the store's `add_row` semantics. |
| Worksheets.HistoryWorksheet.Find | src/infrastructure/worksheets/whatsapp_history_worksheet.py:38-40 | Has the store's `find_row` semantics: every matching history row, possibly several. |
| Worksheets.HistoryWorksheet.Update | src/infrastructure/worksheets/whatsapp_history_worksheet.py:42-44 | Has the store's `update_row` semantics. |
| Worksheets.HistoryWorksheet.AddMessage | src/infrastructure/worksheets/whatsapp_history_worksheet.py:46-66 | Appends exactly one row, the history entry built from its arguments and `now`, and returns true. It does not check the identifier or the movement number. |
| Worksheets.HistoryWorksheet.Clear | src/infrastructure/worksheets/whatsapp_history_worksheet.py:68-70 | Has the store's `clear_data` semantics. |
| Worksheets.HistoryWorksheet.SaveChanges | src/infrastructure/worksheets/whatsapp_history_worksheet.py:72-74 | Has the store's `save_changes` semantics. |
| Worksheets.HistoryWorksheet.ReloadData | src/infrastructure/worksheets/whatsapp_history_worksheet.py:76-78 | Has the store's `reload_data` semantics. |
| Worksheets.StatesWorksheet.constructor | src/infrastructure/worksheets/states_worksheet.py:19-32 | Construction lays down the Estado/Descripción header on an empty worksheet and saves it. A non-empty worksheet is untouched. |
| Worksheets.StatesWorksheet.ReadAll | src/infrastructure/worksheets/states_worksheet.py:34-36 | Returns the store's table. |
| Worksheets.StatesWorksheet.Add | src/infrastructure/worksheets/states_worksheet.py:38-40 | Has the store's `add_row` semantics. |
| Worksheets.StatesWorksheet.Find | src/infrastructure/worksheets/states_worksheet.py:42-44 | Has the store's `find_row` semantics. |
| Worksheets.StatesWorksheet.Update | src/infrastructure/worksheets/states_worksheet.py:46-48 | Has the store's `update_row` semantics. |
| Worksheets.StatesWorksheet.Clear | src/infrastructure/worksheets/states_worksheet.py:50-52 | Has the store's `clear_data` semantics. |
| Worksheets.StatesWorksheet.SaveChanges | src/infrastructure/worksheets/states_worksheet.py:54-56 | Has the store's `save_changes` semantics. |
| Worksheets.StatesWorksheet.ReloadData | src/infrastructure/worksheets/states_worksheet.py:58-60 | Has the store's `reload_data` semantics. |
| DateFormat.FormatFechaRoundTrip | src/infrastructure/worksheets/whatsapp_history_worksheet.py:13 | The DD/MM/YYYY HH:MM:SS stamp is 19 characters long and parses back to the time it was made from. |
| TransactionSheet.ConvertersAgainstSchema | src/infrastructure/transaction_sheet_service.py:35-49 | The service's converters cover the same columns as the domain schema's. They differ exactly on N° Movimiento (int here, str there) and TELEFONO. |
| TransactionSheet.MessageMovementSpec | src/infrastructure/transaction_sheet_service.py:107-121 | A message is filed exactly when some transaction carries its identifier and there is a movement-number column. It is filed under the movement number of the first such transaction. |
| TransactionSheet.TransactionSheetService.constructor | src/infrastructure/transaction_sheet_service.py:54-96 | Four handlers over four distinct stores; the histories are keyed by EMAIL ID and WP ID. Each store starts from its initial table. |
| TransactionSheet.TransactionSheetService.FileMessage | src/infrastructure/transaction_sheet_service.py:107-121 | Returns false and writes no history row when no transaction carries the identifier. Otherwise it appends one entry with the first match's movement number. The transactions table is never changed. |
| TransactionSheet.TransactionSheetService.AddEmailMessage | src/infrastructure/transaction_sheet_service.py:98-121 | `add_email_message`: filing over EMAIL ID into the e-mail history, with the contract of `FileMessage`. |
| TransactionSheet.TransactionSheetService.AddWhatsappMessage | src/infrastructure/transaction_sheet_service.py:123-146 | `add_whatsapp_message`: filing over WP ID into the WhatsApp history, with the contract of `FileMessage`. |
| TransactionSheet.TransactionSheetService.SaveAllChanges | src/infrastructure/transaction_sheet_service.py:148-168 | Every worksheet is saved whatever the earlier saves gave. The result is true exactly when all four saves succeed. |
| TransactionSheet.TransactionSheetService.ReloadAllData | src/infrastructure/transaction_sheet_service.py:170-190 | Every worksheet is reloaded whatever the earlier reloads gave. The result is true exactly when all four reloads succeed. |
| FileProcessor.RowFieldsSpec | src/application/file_processor_handler.py:57-58 | `row.to_dict()` has the frame's header as keys and each row cell, NaN included. |
| FileProcessor.StampedSpec | src/application/file_processor_handler.py:50-52 | The dicts of a bucket frame carry each row's cells plus the state its QUERY calls for. |
| FileProcessor.AddAllRows | src/application/file_processor_handler.py:55-58 | Adding dicts one by one appends one row per dict, in order, after the stored rows. |
| FileProcessor.AddAllColumns | src/application/file_processor_handler.py:55-58 | Adding dicts keeps every stored column and adds every key of the dicts. |
| FileProcessor.OrderIsPartition | src/application/file_processor_handler.py:43-47 | The 2, 3 and other buckets are disjoint and each holds only its own QUERY code. Together they hold every new row exactly once: a permutation whose sizes add up. |
| FileProcessor.OrderSegments | src/application/file_processor_handler.py:55-57 | Rows are appended as the 2B bucket, then the 3C bucket, then the rest. |
| FileProcessor.OrderWritten | src/application/file_processor_handler.py:50-58 | The dicts written are those of the three stamped buckets in that order. 2 and 3 get 'En Proceso', the rest 'No Procesado'. |
| FileProcessor.AppendedRows | src/application/file_processor_handler.py:55-58 | The appended rows hold, one for one, the written rows' cells and states, after the unchanged stored rows. |
| FileProcessor.AppendedColumns | src/application/file_processor_handler.py:55-58 | Appending at least one written dict keeps the stored columns and adds the uploaded ones. |
| FileProcessor.DedupedSpec | src/application/file_processor_handler.py:33-40 | An upload that adds something keeps its header and at least one row. Every dropped row was dropped because the non-empty store already holds its movement number. |
| FileProcessor.IngestSummary | src/application/file_processor_handler.py:43-73 | The summary counts are the bucket sizes and add up to the new transactions. |
| FileProcessor.IngestRows | src/application/file_processor_handler.py:50-58 | The store grows by exactly the new transactions, in bucket order, each with its cells and initial state. Stored rows stay in place. |
| FileProcessor.NothingNewWhenAllKnown | src/application/file_processor_handler.py:34-40 | When every uploaded movement number is stored, the upload reports "No new transactions to process" and adds nothing. |
| FileProcessor.ReingestAddsNothing | src/application/file_processor_handler.py:30-58 | Uploading the same file again, against the table the first upload produced, adds nothing. |
| FileProcessor.IngestedNotEmpty | src/application/file_processor_handler.py:55-58 | After an upload that adds transactions, the table is not empty and has every uploaded column. |
| FileProcessor.AddBucket | src/application/file_processor_handler.py:56-58 | The row-by-row add loop over one bucket frame appends its stamped dicts. An empty frame is skipped. |
| FileProcessor.AppendNew | src/application/file_processor_handler.py:55-58 | The loop over the three frames appends all their dicts, 2B first. |
| FileProcessor.StoreNew | src/application/file_processor_handler.py:33-75 | After the reload: a failed dedup, an upload with nothing new, or a missing QUERY column adds and saves nothing and gives its response. Otherwise the ingested table is stored and each reachable worksheet is saved. The response is "Processing completed" with the counts and the Drive file id, which is nothing when the upload failed. |
| FileProcessor.ProcessUpload | src/application/file_processor_handler.py:29-75 | All four worksheets are reloaded first; the dedup runs against the reloaded transactions; the rest is as in `StoreNew`. |
| FileProcessor.FileProcessorApi | src/application/file_processor_handler.py:12-78 | A missing file part, an empty file name or an unreadable file each give their error response and change no worksheet. Otherwise every worksheet is reloaded where reachable, and the upload is ingested, answered and saved exactly as `ProcessUpload` states, giving each of the four worksheets' table and remote. |
| XlsxParser.NewRowsSpec | src/infrastructure/xlsx_parser.py:13-15 | The result is a subsequence of the upload under its header. It holds exactly the rows whose key the current table lacks, with their repetitions. It is nothing when either table lacks the key column. |
| XlsxParser.NewRowsAgainstItself | src/infrastructure/xlsx_parser.py:13-15 | A table compared with itself has no new rows. |
| XlsxParser.NewRowsAgainstNoRows | src/infrastructure/xlsx_parser.py:13-15 | Against a table with no rows, every uploaded row is new. |
| XlsxParser.NewRowsIdempotent | src/infrastructure/xlsx_parser.py:13-15 | Applying the filter twice against the same table equals applying it once. |
| MessagesQueue.StepSpec | src/infrastructure/whatsapp_messages_queue.py:17-35 | An iteration takes the front job and keeps the others in order. STOP ends the loop. A failed job below 3 retries goes to the back with one more retry. Other failed jobs and delivered jobs are dropped. The queue shrinks by one unless the job is re-enqueued. |
| MessagesQueue.StepWaits | src/infrastructure/whatsapp_messages_queue.py:19 | On an empty queue the consumer waits and takes nothing. |
| MessagesQueue.LoneFailingJob | src/infrastructure/whatsapp_messages_queue.py:7 | A lone job whose sends all fail is sent `Attempts` times (4 from retry 0). It is re-enqueued after every failure but the last, then dropped. |
| MessagesQueue.StepBudget | src/infrastructure/whatsapp_messages_queue.py:19-35 | For any queue, not only a lone job: an iteration that takes a job lowers the whole queue's budget (the sum of `Attempts` over its jobs). A failed send lowers it by exactly one, and waiting on an empty queue keeps it. |
| MessagesQueue.RunBudget | src/infrastructure/whatsapp_messages_queue.py:17-38 | With no new messages, the consumer takes jobs at most `Budget(q)` times in all, whatever the send results. No job is retried without bound, whatever else is queued. |
| MessagesQueue.WhatsappMessagesQueue.constructor | src/infrastructure/whatsapp_messages_queue.py:10-15 | The queue starts empty and the consumer running. |
| MessagesQueue.WhatsappMessagesQueue.PutMessage | src/infrastructure/whatsapp_messages_queue.py:40-41 | Appends one job at the back; the retry count defaults to 0. |
| MessagesQueue.WhatsappMessagesQueue.ConsumeOne | src/infrastructure/whatsapp_messages_queue.py:17-38 | One consumer iteration has the effect and outcome of `Step`. The consumer stops exactly on a STOP job. |
| Coordinator.DispatchesSpec | src/application/coordinator_agent.py:7-18 | Every transaction gets exactly one dispatch, in input order, since none counts as processed. The 3C agent is chosen exactly for 'cobro'. |
| Coordinator.CoordinatorAgent.constructor | src/application/coordinator_agent.py:4-5 | Keeps the sheet id; no agent has been called. |
| Coordinator.CoordinatorAgent.CallAgent | src/application/coordinator_agent.py:20-22 | Records one agent call. |
| Coordinator.CoordinatorAgent.ProcessTransactions | src/application/coordinator_agent.py:7-14 | The loop makes exactly the calls `Dispatches` lists. |
| SheetTools.NewTransactionSpec | src/infrastructure/transaction_sheet_tools.py:54-68 | The new row names exactly the 13 transaction columns, once each and in header order, each holding its own input field. |
| SheetTools.AddTransactionTool | src/infrastructure/transaction_sheet_tools.py:52-70 | Appends that row and replies "added successfully", as `add` always succeeds. |
| SheetTools.BuildUpdates | src/infrastructure/transaction_sheet_tools.py:97-126 | The guarded key-by-key filling gives the patch of the given fields, in field order. |
| SheetTools.UpdatesSpec | src/infrastructure/transaction_sheet_tools.py:101-126 | Each field is in the patch exactly when it is given, and then holds its value. |
| SheetTools.UpdatesMovement | src/infrastructure/transaction_sheet_tools.py:105-106 | N° Movimiento is always patched, with the integer given (0 by default). |
| SheetTools.UpdatesDate | src/infrastructure/transaction_sheet_tools.py:101-102 | The date is patched under "Date" exactly when it is non-empty, and never under 'Fecha'. |
| SheetTools.UpdatesAmountAndState | src/infrastructure/transaction_sheet_tools.py:109-120 | Monto is patched exactly when the amount is a float. The state is patched exactly when it is non-empty. |
| SheetTools.UpdateTransactionTool | src/infrastructure/transaction_sheet_tools.py:95-131 | The store is updated only when both search column and search value are non-empty and something matches. Otherwise the table is unchanged and the reply says "not found". |
| SheetTools.UpdateStateTool | src/infrastructure/transaction_sheet_tools.py:142-145 | The reply names the new status exactly when `update_state` succeeded, and the table changes only then. |
| DomainTypes.Without | src/domain/types.py:14 | Deleting a character leaves none of it and never lengthens the text. What is left is a subsequence of the input, so its order is kept. |
| DomainTypes.WithoutAppend | src/domain/types.py:14 | Deletion works piece by piece: deleting from a concatenation equals concatenating what is left of each part. |
| DomainTypes.WithoutCounts | src/domain/types.py:14 | Deleting a character keeps every other character as often as it occurred. |
| DomainTypes.Replace | src/domain/types.py:6 | Character replacement changes exactly the occurrences of the replaced character. |
| DomainTypes.NumberTextSpec | src/domain/types.py:3-6 | The text step of `parse_number` leaves no comma and one dot per input comma. Every input dot is deleted, and other characters keep their counts. |
| DomainTypes.ReplaceAppend | src/domain/types.py:6 | Replacement works piece by piece over a concatenation. |
| DomainTypes.NumberTextByChar | src/domain/types.py:6 | The text step works character by character, in order: the text of a concatenation is the concatenation of the texts. A dot is dropped, a comma becomes a dot, and any other character is kept. Together these fix the result of every input. |
| DomainTypes.NumberTextExample | src/domain/types.py:3-6 | "1.234,5" gives "1234.5". |
| DomainTypes.NumberTextPlain | src/domain/types.py:6 | A text without dots and commas is unchanged. |
| DomainTypes.PhoneNumberPassThrough | src/domain/types.py:12-17 | Non-text values and the empty text are returned unchanged. |
| DomainTypes.PhoneNumberShape | src/domain/types.py:13-16 | A non-empty text becomes one that starts with '+' and has no apostrophe, with at most one '+' added. |
| DomainTypes.PrependPlus | src/domain/types.py:16 | Prefixing '+' adds exactly one '+' and nothing else. |
| DomainTypes.PhoneNumberFixed | src/domain/types.py:15-16 | An apostrophe-free text already starting with '+' is returned unchanged (no double '+'). |
| DomainTypes.PhoneNumberIdempotent | src/domain/types.py:12-17 | Normalising twice equals normalising once. |
| DomainTypes.PreSaveRoundTrip | src/domain/types.py:51-53 | Reading back a saved non-empty phone gives the same number as reading the original. A null stays null. |
| DomainTypes.PreSaveEmptyText | src/domain/types.py:52 | The empty text is where the round trip breaks: it is saved as "'" and read back as "+". |
| DomainTypes.TransactionSchemaCovers | src/domain/types.py:19-53 | The transactions type map and converter map name exactly the 13 header columns. The pre-save converter names one of them. |
| DomainTypes.EmailHistorySchemaCovers | src/domain/types.py:55-67 | The e-mail history type and converter maps name exactly the e-mail history header. |
| DomainTypes.WpHistorySchemaCovers | src/domain/types.py:71-83 | The WhatsApp history type and converter maps name exactly the WhatsApp history header. |
| WhatsApp.Get | src/infrastructure/whatsapp_service.py:52-59 | `.get` on a dict gives the default for a missing key. On anything else it raises, which is modelled as nothing. |
| WhatsApp.ProcessIncomingMessage | src/infrastructure/whatsapp_service.py:43-65 | A pair is returned only for a "chats.update" event, and both of its parts are non-empty. |
| WhatsApp.ProcessWellFormed | src/infrastructure/whatsapp_service.py:55-62 | For a well-formed event the pair (remoteJid, conversation) is returned exactly when fromMe is false and both are non-empty. A missing fromMe counts as true. |
| WhatsApp.ProcessFirstOnly | src/infrastructure/whatsapp_service.py:55-56 | Messages after the first never change the result. |
| WhatsApp.ProcessOwnMessage | src/infrastructure/whatsapp_service.py:57-61 | A message from this account, or one without fromMe, gives nothing. |
| WhatsApp.ProcessRejects | src/infrastructure/whatsapp_service.py:52-55 | Another event, an empty message list, or a payload that is not a dict gives nothing. |
| WhatsApp.ProcessMalformedEntry | src/infrastructure/whatsapp_service.py:56-65 | A message entry that is not a dict makes the lookup raise, and the result is nothing. |
| WhatsApp.SendRequest | src/infrastructure/whatsapp_service.py:22-36 | A request is posted exactly when the API key is set and non-empty, and it carries the recipient and the text. |
| WhatsApp.SendMessage | src/infrastructure/whatsapp_service.py:13-41 | `send_message` is true exactly when a request was posted and accepted. Without an API key it is false. |
| Webhook.BeforeAt | src/application/wp_webhook_handler.py:13 | `split('@')[0]` is the longest prefix without '@', ending just before the first '@'. |
| Webhook.BeforeAtSplit | src/application/wp_webhook_handler.py:13 | For "a@b" with no '@' in a, the part before '@' is a. |
| Webhook.BeforeAtWhole | src/application/wp_webhook_handler.py:13 | A text without '@' is kept whole. |
| Webhook.ReplyPhone | src/application/wp_webhook_handler.py:13 | The reply phone is '+' followed by the sender id's part before the first '@'. |
| Webhook.EchoText | src/application/wp_webhook_handler.py:14-17 | The reply is the echo prefix followed by the message text. |
| Webhook.HandleWebhook | src/application/wp_webhook_handler.py:7-19 | A reply is sent only when the gateway returned a pair. The handler raises only for a pair whose sender is not text. |
| Webhook.WebhookReplies | src/application/wp_webhook_handler.py:9-19 | A reply is sent exactly when the gateway extracted a message with a text sender. It goes to `ReplyPhone` with `EchoText`, and every handled request answers ('OK', 200). |
| Webhook.ReplyPhoneOfId | src/application/wp_webhook_handler.py:13 | For "<number>@<server>", and for a bare number, the reply goes to "+<number>". |
| EmailService.Encode | src/infrastructure/email_service.py:33 | base64url output is a whole number of four-character groups, and is empty only for empty input. |
| EmailService.DecodeEncode | src/infrastructure/email_service.py:70 | Decoding what was encoded gives the bytes back (section 5 of RFC 4648). |
| EmailService.HeaderValueSpec | src/infrastructure/email_service.py:50-51 | The lookup gives the value of the first header with the name, or the default when none has it. |
| EmailService.FirstPlainTextSpec | src/infrastructure/email_service.py:65-70 | The part search gives the data of the first text/plain part with data, and nothing when no part has any. |
| EmailService.ExtractBody | src/infrastructure/email_service.py:64-75 | There is no body exactly when no data was selected: with 'parts', no text/plain part with data; without 'parts', missing or empty body data. |
| EmailService.PartsOverrideBody | src/infrastructure/email_service.py:65-75 | With 'parts' but no suitable part, the result is no body, even if the payload has body data. |
| EmailService.ExtractBodyRoundTrip | src/infrastructure/email_service.py:64-75 | An encoded body is read back from the payload's own data or from the first text/plain part, whatever the later parts hold. Missing or empty data gives no body. |
| EmailService.MessageDetails | src/infrastructure/email_service.py:45-62 | The details keep the message id, and the body is `_extract_body` of the payload. |
| EmailService.MessageDetailsHeaders | src/infrastructure/email_service.py:50-51 | Subject and sender are the first such headers, or '(No Subject)' / '(No Sender)' when there are none. |
| MockTools.Zip | src/agent_tools/tmp.py:35 | `dict(zip(header, row))` holds each cell under its header name, as far as both reach, and no other key. |
| MockTools.Project | src/agent_tools/tmp.py:52-56 | A record written out has one cell per header name: its value, or None. |
| MockTools.ZipProject | src/agent_tools/tmp.py:35-56 | A full-width row read into a record and written back out is unchanged. |
| MockTools.InitialShaped | src/agent_tools/tmp.py:6-11 | The mock sheet's initial rows are all as wide as the header. |
| MockTools.ZippedInStep | src/agent_tools/tmp.py:30-35 | Records read from a full-width sheet write back out as its data rows. |
| MockTools.PatchedSpec | src/agent_tools/tmp.py:65-66 | A patched record holds the old keys and the patch's keys. Patched keys hold the patch values; the rest keep theirs. |
| MockTools.PatchStep | src/agent_tools/tmp.py:65-66 | Each `tx[key] = value` applies one more patch entry. |
| MockTools.FirstIndexSpec | src/agent_tools/tmp.py:62-63 | The index found is the first record with the movement number. There is none exactly when no record has it. |
| MockTools.GoogleSheetsService.constructor | src/agent_tools/tmp.py:3-11 | The sheet starts as the header and three data rows. |
| MockTools.GoogleSheetsService.ReadSheet | src/agent_tools/tmp.py:13-15 | Returns every row but the header, in order. |
| MockTools.GoogleSheetsService.AppendRow | src/agent_tools/tmp.py:17-19 | Appends the row at the end. |
| MockTools.GoogleSheetsService.UpdateRow | src/agent_tools/tmp.py:21-26 | Replaces only row i, and returns true, exactly when 1 <= i < len(data). Otherwise it changes nothing. |
| MockTools.TransactionsWorksheet.constructor | src/agent_tools/tmp.py:30-35 | One record per data row, zipped with the header. Lock-step with the sheet holds when the rows are full width. |
| MockTools.TransactionsWorksheet.GetAllTransactions | src/agent_tools/tmp.py:37-39 | Returns the record list. |
| MockTools.TransactionsWorksheet.FindTransaction | src/agent_tools/tmp.py:41-46 | Gives the first record with the movement number, or nothing when none has it. |
| MockTools.TransactionsWorksheet.AddTransaction | src/agent_tools/tmp.py:48-58 | Appends the record and its projection to the sheet, returns true and keeps lock-step. |
| MockTools.TransactionsWorksheet.UpdateTransaction | src/agent_tools/tmp.py:60-76 | Patches only the first matching record and rewrites sheet row idx+1, keeping lock-step. Without a match it returns false and changes nothing. |
| MockTools.TransactionsWorksheet.UpdateStatus | src/agent_tools/tmp.py:78-80 | Equals an update whose patch sets only the remediation state. |
| MockTools.StatusPatch | src/agent_tools/tmp.py:80 | The one-entry status patch sets the state and nothing else. |
| MockTools.UpdatesOfSpec | src/agent_tools/tmp.py:160-174 | The patch names each column at most once. It holds a column exactly when its field was supplied (not None), with the supplied value. |
| MockTools.UpdateTransactionTool | src/agent_tools/tmp.py:160-176 | The patch goes to the first record with the movement number, and only that record's sheet row (index + 1) is rewritten with its projection; the header and every other row stay. Without a match nothing changes. The reply says whether there was one. |
| MockTools.Lower | src/agent_tools/tmp.py:243 | Lower-casing maps each character through ASCII lower-casing and keeps the length. |
| MockTools.KeywordsOfColumns | src/agent_tools/tmp.py:232-237 | A record contributes the keywords of its movement number, EMAIL ID and WP ID. |
| MockTools.KeywordsSpec | src/agent_tools/tmp.py:230-237 | A keyword is exactly the lower-cased text of a set identifier of some record. |
| MockTools.RelatedIgnoresCase | src/agent_tools/tmp.py:241-246 | The scope filter gives the same answer for a query and its lower-cased form. |
| MockTools.RelatedWhenNamed | src/agent_tools/tmp.py:241-246 | A query naming any record's identifier, in any case, is in scope. |
| MockTools.AddKeyword | src/agent_tools/tmp.py:232-237 | One guarded `allowed_keywords.add` adds the column's keyword when it is set. |
| MockTools.CollectKeywords | src/agent_tools/tmp.py:230-237 | The constructor's loop collects exactly the keywords of all records. |
| MockTools.GeminiTextAgent.constructor | src/agent_tools/tmp.py:223-237 | The allowed keywords are those of the records present at construction. |
| MockTools.GeminiTextAgent.IsTransactionRelated | src/agent_tools/tmp.py:241-246 | True exactly when the lower-cased query contains "transaction", "movimiento" or an allowed keyword. |
| MockTools.GeminiTextAgent.Run | src/agent_tools/tmp.py:248-254 | An out-of-scope query is refused without consulting the chain. An in-scope one gets the chain's answer. |

## Left out

- Google Sheets, Drive and Gmail I/O (loading, `set_with_dataframe`, the Drive upload, `_mark_as_read`, sending mail and MIME construction): the remote worksheet is a table field, reachability a parameter, and the Drive file id an input.
- The HTTP post of `send_message` and the Flask request and response shaping: what the post returned is a parameter. The webhook's request parsing is the given JSON value.
- The consumer thread, `task_done`, `join`, `time.sleep(2)` and `wait_until_queue_is_empty`: one consumer iteration is modelled sequentially, and the send outcome (a raised send counts as failed) is its input. `stop()` calls a queue method that does not exist and is not modelled.
- Floating point: `float()` in `parse_number` and the amounts themselves. A float is an opaque `Num` compared by equality, so `Int(2)` and `Num("2.0")` differ where pandas would call them equal.
- pandas dtype coercion, converters on load, `to_string()` and `pd.read_excel`: cells keep the value they were written with. The spreadsheet parser is represented by its parsed table, or nothing when the file cannot be read.
- DomainTypes.NumberTextSpec: states only the text step of `parse_number`; what `float()` makes of the text (or its `None` on failure) is not modelled.
- The language-model chain (`initialize_agent`, `agent_chain.run`) and the LangChain tool adapters: the chain's answer is a parameter. `find_transaction_by_number` (which calls `find` with one argument) and the list/read/save/reload tools only delegate and format.
- The mock tools `list_all_transactions`, `find_transaction_by_number`, `add_transaction_func` and `save_changes_func` of `src/agent_tools/tmp.py`, and its `save()`: they only delegate to the modelled handler or print.
- MockTools.TransactionsWorksheet.UpdateTransaction: the patch is applied to a copy of the record. Aliasing between the dict a caller passed to `add_transaction` (or got from `find_transaction`) and the stored record is not modelled.
- MockTools.Lower: ASCII lower-casing only, where Python lower-cases all of Unicode.
- MockTools.KeywordsSpec: a float identifier counts as set even when it is 0.0, where Python would treat 0.0 as false.
- EmailService.DecodeEncode: decoding is modelled on canonical base64url input only. Python's decoder repairs or rejects other input, and the UTF-8 decoding of the bytes is not modelled: the body is given as bytes.
- EmailService.MessageDetails: a part without a 'body' entry, or a header without 'name'/'value', makes the Python code raise. The model assumes both are present.
- Webhook.EchoText: a list or dict message text is shown only as an opaque placeholder, since Python's `str()` of containers is not modelled.
- The clock: `datetime.now()` in `add_message` is the `now` parameter. The upload file name's time stamp is not modelled.
- src/infrastructure/worksheets/email_history_worksheet.py is not part of this model. The e-mail history is modelled by the same handler as the WhatsApp history, with EMAIL ID as its identifier column and the header of `transaction_sheet_service.py:27-29`.
- `TransactionSheetService.__init__` passes `converters=` to a store constructor that has no such parameter, so as written it raises. The model builds the four handlers over four stores without converters. The N° Movimiento column is `int` in one converter map and `str` in the other, and the model uses one value type compared by equality.
- Worksheets.HistoryWorksheet.AddMessage: always returns true. No exception can arise while building the row in the model, so the `except` branch is not modelled.
- Concurrent uploads racing on the same store are not modelled; each call runs to completion.
