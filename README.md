# Voice conversation sync and corporate-action scrapers, in Dafny

The repository is a set of one-shot batch scripts. The voice scripts pull
Decagon conversation records from a source and push them to a sink:

- from the warehouse, as the text `psql` prints, through the Satori CLI or an SSH tunnel;
- or from the Decagon export API, as paginated JSON;
- to a webhook (Workato), Slack or a Google Sheet.

On the way they filter the records, deduplicate them and reshape them. Beside
them are three versions (1.0, 1.2 and 1.4) of a scraper of the Wealthsimple
corporate-actions page. Each version writes `corporate_actions.json`. It
builds each action with four text functions: action type, ratio, date and
the parser of one action line.

This project models that logic with the I/O taken out. What the network, a
subprocess, the spreadsheet or the clock would give is a parameter:

- status-code sequences and reply functions;
- stdout text;
- sheet rows as `seq<seq<string>>`;
- integer timestamps;
- outcomes of file writes.

In the voice scripts, every `time.sleep` becomes an entry of a sequence of delays, in milliseconds.
What remains is stated and proved. That covers:

- retry caps, backoff waits and circuit breakers;
- the column contracts of the pipe-separated parsers;
- the set differences and append-only dedup against a sheet;
- the dispatch on the JSON payload's shape;
- the first-match priority rules of the scraper's text functions;
- the first-success fallback over fetch approaches.

One module per source file:

- `PsqlTable`: the `parse_psql_results` variants (9 and 12 columns, aligned and unaligned)
- `Satori`: `run_satori_query`: one try, or four with waits of 2, 4 and 8 s
- `WorkatoQa`: `decagon_voice/voice_conversations_qa.py`: retrying delivery and the send loop with its breaker, as the class `SendLoop`
- `VoiceFetch`: `decagon_voice/voice_conversations.py`: the paginated fetch with cutoff and dedup, and the Slack fan-out
- `QaGoogle`: `decagon_voice/voice_conversations_qa_google.py`
- `QaFlowTest`: `decagon_voice/test_qa_flow.py`
- `GsheetSync`: `decagon_voice/voice_conversations_to_gsheet.py`, with the worksheet as the class `Worksheet`
- `CsvInit`: `decagon_voice/initialize_from_csv.py`
- `WarehouseClean`: `decagon_voice/voice_conversations_warehouse_clean.py`
- `VoiceApi`: `decagon_voice/voice_conversations_api.py`
- `ApiQuery`: `voice_conversations_api.py` at the top of the repository
- `VoiceSend`: the send loop and run record the three voice fetchers share
- `ActionText`: the four text functions of the scrapers
- `Scraper`: the scrapers' top level

Shared helpers live in three more modules:

- `PyText`: the `str` methods the scripts use;
- `Json`: decoded JSON values and `dict.get`;
- `RegexScan`: the scrapers' regular expressions as data, run by one matcher.

The four text functions are identical, character for character, in
`scrape_corporate_actions.py:164-307`, `decagon_voice/scrape2.py:299-442` and
`decagon_voice/scrape_corporate_actions.py:447-590`. `ActionText` models them
once, and its rows below cite whichever copy states the property.

Delivery is not recorded anywhere after sending. No script commits delivered
ids to a ledger, and `voice_conversations_qa.py` sends every row it fetched
with no dedup. The model follows the code here.

## Model

| member | source | states |
|---|---|---|
| PsqlTable.ColumnsDistinct | decagon_voice/voice_conversations_qa_google.py:117-130 | the column lists hold 9, 12, 9 and 9 distinct names, so no field of a line overwrites another in the record |
| PsqlTable.ZipSpec | decagon_voice/voice_conversations_qa.py:105-115 | the record built from a line has exactly the columns as keys, column i holding field i |
| PsqlTable.FilterDataLines | decagon_voice/voice_conversations_qa.py:87-94 | the kept lines are the lines of the output that pass the filter, in order (`DataLines`) |
| PsqlTable.DataLinesMembers | decagon_voice/voice_conversations_qa.py:87-94 | a line is kept exactly when it is one of the output's lines and passes the filter: non-blank, not starting with `(`, and without `rows)`, the header marker or `---` |
| PsqlTable.BuildRows | decagon_voice/voice_conversations_qa.py:98-117 | one record per kept line with at least as many fields as columns, in order (`RowsOf`) |
| PsqlTable.RowsOfMembers | decagon_voice/voice_conversations_qa.py:98-117 | a record is produced exactly for a kept line with enough fields, and is that line's fields by position |
| PsqlTable.ParsePsqlResults | decagon_voice/voice_conversations_qa.py:78-119 | the parser returns `Parse`: nothing for aligned output of fewer than three lines, otherwise the records of the kept lines |
| PsqlTable.ParseCharacterized | decagon_voice/voice_conversations_qa_google.py:90-135 | no more records than lines; nothing for aligned output under three lines; every record comes from a kept line with enough fields, and (given three lines) every such line gives its record |
| PsqlTable.MarkerNeverInFields | decagon_voice/voice_conversations_warehouse_clean.py:114-120 | because the filter tests the whole line, no field of a parsed record contains the header marker, `rows)` or `---` |
| PsqlTable.RowOfLine | decagon_voice/voice_conversations_warehouse_clean.py:126-139 | the record of a line has exactly the columns, column i holding the stripped i-th `|`-field |
| PsqlTable.ParsedRowShape | decagon_voice/voice_conversations_qa_google.py:112-133 | every parsed record has exactly the parser's columns, each the stripped field at its position of some kept line |
| Satori.StdoutAccepted | decagon_voice/voice_conversations_qa_google.py:60-66 | an attempt is accepted exactly when the exit status is 0 and stdout is non-empty with non-blank `strip()` |
| Satori.RunSatoriQuery | decagon_voice/voice_conversations_qa_google.py:38-88 | the retrying query returns the rows, attempt count and waits of the retry schedule `RetryFrom` |
| Satori.RetryCharacterized | decagon_voice/voice_conversations_qa_google.py:52-83 | at most four attempts; the loop stops at the first accepted one, after only failed ones; rows exactly when one is accepted, parsed from its output; the k-th wait is 2·2^k seconds and there is no wait after the last attempt |
| Satori.AllFailing | decagon_voice/test_qa_flow.py:44-75 | when no attempt is ever accepted: four attempts, waits of 2, 4 and 8 seconds, no rows |
| Satori.QueryOnce | decagon_voice/voice_conversations_qa.py:48-76 | the single-attempt query yields rows exactly when the exit status is 0, even for empty output |
| VoiceSend.SentCountBounds | decagon_voice/voice_conversations_warehouse_clean.py:214-219 | the sent count is at most the number of POSTs, equals it exactly when every POST got status 200, and is 0 exactly when none did |
| VoiceSend.SendAll | decagon_voice/voice_conversations_warehouse_clean.py:214-219 | one POST per record, in order, each with that record's payload; the count is the number of status-200 replies |
| VoiceSend.ReadLastRun | decagon_voice/voice_conversations_warehouse_clean.py:34-39 | a missing run file gives nothing; a dictionary gives its `last_run_timestamp` entry (null when absent); any other JSON value raises |
| VoiceSend.LastRunReadsBack | decagon_voice/voice_conversations_warehouse_clean.py:34-46 | the record a run saves reads back, through `get_last_run_timestamp`, as that run's time |
| WarehouseClean.RecordOfSpec | decagon_voice/voice_conversations_warehouse_clean.py:83-95 | a result row becomes a record of exactly the nine columns, column i holding the row's i-th value or `''`, and `created_at_utc` always text |
| WarehouseClean.ToConversations | decagon_voice/voice_conversations_warehouse_clean.py:82-96 | one record per result row, in order |
| WarehouseClean.Fetch | decagon_voice/voice_conversations_warehouse_clean.py:144-157 | a missing or empty query file or a failed query gives no conversations; otherwise one record per result row |
| WarehouseClean.ParseWarehouse | decagon_voice/voice_conversations_warehouse_clean.py:104-142 | output under three lines gives nothing; each record has the nine columns as stripped fields of a kept line; no field mentions `conversation_id` |
| WarehouseClean.PayloadOfRecord | decagon_voice/voice_conversations_warehouse_clean.py:162-172 | a fetched record reaches the webhook whole: every column present with the record's own value |
| WarehouseClean.WarehouseMain | decagon_voice/voice_conversations_warehouse_clean.py:191-225 | no conversations ends the run without saving the timestamp; otherwise the records are saved, sent one by one only when the webhook is configured, and the run timestamp is saved |
| WorkatoQa.PayloadOfParsedRow | decagon_voice/voice_conversations_qa.py:137-147 | every QA column of a parsed row is posted with the row's own field, never as `null` |
| WorkatoQa.Attempt | decagon_voice/voice_conversations_qa.py:151-177 | one attempt stops unless the reply is a 404 or an exception with attempts left; a stop gives 200 sent, 429 rate-limited, else failed; a retry waits 2 s after a 404 and 1 s after an exception |
| WorkatoQa.SendToWorkatoWebhook | decagon_voice/voice_conversations_qa.py:135-179 | the result, POST count and waits are those of the retry schedule `Deliver` |
| WorkatoQa.DeliverCharacterized | decagon_voice/voice_conversations_qa.py:149-179 | at most `max_retries` POSTs, stopping at the first reply that is not a 404 or exception; the last reply decides the result; one wait per repeated POST (2 s after 404, 1 s after an exception) and none after the last; zero retries fail with no POST |
| WorkatoQa.DeliveryFacts | decagon_voice/voice_conversations_qa.py:153-168 | a first reply of 200 or 429 ends the delivery after one POST as sent or rate-limited; any other status but 404 fails at once |
| WorkatoQa.StoppedRecipe | decagon_voice/voice_conversations_qa.py:158-165 | a webhook that keeps answering 404 is posted to `max_retries` times with 2-second waits between, and the conversation fails |
| WorkatoQa.SendLoop.constructor | decagon_voice/voice_conversations_qa.py:215-224 | the loop starts with all counters zero, no POSTs, no waits, no rate limit |
| WorkatoQa.SendLoop.SendOne | decagon_voice/voice_conversations_qa.py:227-252 | one loop pass updates the counters as `Step` says: a rate limit breaks; a success counts and resets the failure run; a failure counts, extends the run and breaks at five; otherwise a 100 ms throttle follows |
| WorkatoQa.SendLoop.Run | decagon_voice/voice_conversations_qa.py:226-252 | the loop over the batch ends in the state `Pass` gives |
| WorkatoQa.StepConsistent | decagon_voice/voice_conversations_qa.py:227-245 | one pass keeps the counters consistent with the deliveries so far and breaks exactly on a rate limit or the fifth consecutive failure |
| WorkatoQa.PassCharacterized | decagon_voice/voice_conversations_qa.py:215-252 | the attempted conversations are a prefix of the batch; `sent_count` and `failed_count` count the sent and failed deliveries among them (a rate-limited one in neither); the loop stops early only on a rate limit, on the last one attempted, or after five consecutive failures |
| WorkatoQa.AlwaysFailing | decagon_voice/voice_conversations_qa.py:236-245 | with every delivery failing and at least five conversations, exactly five are attempted and all five fail |
| WorkatoQa.SuccessResets | decagon_voice/voice_conversations_qa.py:233-235 | a success resets the consecutive-failure count, does not break and leaves `failed_count` alone |
| WorkatoQa.QaMain | decagon_voice/voice_conversations_qa.py:120-257 | no rows (a missing or empty query file, a failed query or an empty result) ends the run before the timestamp is saved; otherwise the rows are sent exactly when the webhook URL is neither empty nor the placeholder, and the timestamp is saved |
| VoiceFetch.ParseIsoUtc | decagon_voice/voice_conversations.py:26-39 | a missing or empty value and a non-string give no timestamp; a non-empty string gives what the ISO parser makes of it |
| VoiceFetch.FirstTimestampSpec | decagon_voice/voice_conversations.py:41-50 | the chosen timestamp is that of the first key, in preference order, whose value parses; there is none exactly when no key's value parses |
| VoiceFetch.CreatedAtPreferred | decagon_voice/voice_conversations.py:46-49 | a parseable `created_at` is always the one chosen |
| VoiceFetch.NextCursor | decagon_voice/voice_conversations.py:118-120 | a next cursor is only ever a truthy value |
| VoiceFetch.ScanPage | decagon_voice/voice_conversations.py:102-114 | the record loop of a page keeps the seen ids and records exactly as the reference scan `Scan` does, and raises exactly when it does |
| VoiceFetch.GetPageSpec | decagon_voice/voice_conversations.py:87-96 | a page is requested one to three times; it is fetched iff one of the three requests answers, and then with the first answer; the waits are 1.5 s after the first failure and 3 s after the second |
| VoiceFetch.GetPage | decagon_voice/voice_conversations.py:87-96 | the retry loop returns the body and the waits of the retry schedule |
| VoiceFetch.FetchVoiceConversations | decagon_voice/voice_conversations.py:62-125 | the page loop ends as the paged reference `FetchFrom` does, with no request when the API key is missing |
| VoiceFetch.ScanMatchesReference | decagon_voice/voice_conversations.py:102-114 | scanning more records raises exactly when one of them raises, and otherwise keeps the records equal to the first occurrences over everything scanned and the seen ids equal to all candidate ids |
| VoiceFetch.FetchFromMatches | decagon_voice/voice_conversations.py:77-123 | the page loop keeps the records equal to the first occurrences over every record fetched, and never completes more than `max_pages` pages |
| VoiceFetch.FirstOccurrencesSpec | decagon_voice/voice_conversations.py:103-113 | the first occurrences all pass the filters, have pairwise distinct ids, and cover every id that passes the filters |
| VoiceFetch.FetchCharacterized | decagon_voice/voice_conversations.py:62-125 | a missing key raises before any page; at most `max_pages` pages are completed; when the fetch does not raise it returns, in fetch order, the first record of each id among the listed records that are dictionaries with a parseable timestamp at or after the cutoff and a non-empty id, no two with the same id, and every such id |
| VoiceFetch.FirstOccurrencesSubsequence | decagon_voice/voice_conversations.py:102-113 | every record returned was listed by some page |
| VoiceFetch.DeflectedText | decagon_voice/voice_conversations.py:134 | "Deflected" reads `True` exactly when `undeflected` is present and falsy; a missing flag reads `False` |
| VoiceFetch.SendAllToSlack | decagon_voice/voice_conversations.py:194-200 | the fan-out counts exactly the posts Slack answered with a 2xx status |
| VoiceFetch.CountDeliveredSpec | decagon_voice/voice_conversations.py:165-170 | the count is the total iff every post got a 2xx status, and zero iff none did (an exception counts as a failure) |
| VoiceFetch.VoiceMain | decagon_voice/voice_conversations.py:173-204 | a raising fetch ends the run with nothing saved or sent; otherwise the records are saved, and a Slack count exists iff a webhook is configured, equal to the 2xx posts |
| VoiceApi.FormatValues | decagon_voice/voice_conversations_api.py:86-96 | a reformatted conversation has one value per warehouse column |
| VoiceApi.FormatColumns | decagon_voice/voice_conversations_api.py:86-96 | the record has exactly the nine columns, each holding its value |
| VoiceApi.FormatSpec | decagon_voice/voice_conversations_api.py:86-110 | exactly the nine columns; the id is the conversation's (empty when absent); the URL is the web address, `/conversations/` and the text of that id; `deflected` is text, `False` when absent; `tags` and `metadata` are serialised, `[]` and `{}` when absent; no creation time gives empty creation fields |
| VoiceApi.Formatted | decagon_voice/voice_conversations_api.py:79-97 | never more records than conversations |
| VoiceApi.FilterVoice | decagon_voice/voice_conversations_api.py:79-104 | an element on which the filter raises makes the fetch return no conversations; otherwise the result is the reference `Formatted` of the list |
| VoiceApi.FormattedConcat | decagon_voice/voice_conversations_api.py:80-97 | filtering a concatenation filters each part in order |
| VoiceApi.FormattedMembers | decagon_voice/voice_conversations_api.py:80-97 | a record comes out exactly for each voice conversation whose summary is a non-blank string |
| VoiceApi.KeptShaped | decagon_voice/voice_conversations_api.py:81-96 | the record of a kept conversation has the nine columns, a non-blank summary and a URL built from its own id |
| VoiceApi.VoiceOutputShape | decagon_voice/voice_conversations_api.py:79-100 | every record the fetch returns has that shape |
| VoiceApi.ConversationsOf | decagon_voice/voice_conversations_api.py:41-104 | a conversation list exists exactly when the key is set, the GET answered 200, the body decoded to a dictionary and its `conversations` entry is a list (absent counts as empty); a missing or empty key gives none |
| VoiceApi.GetVoiceConversationsFromApi | decagon_voice/voice_conversations_api.py:39-104 | every failure path gives no conversations; otherwise the filtered, reformatted list, never longer than what the API listed |
| VoiceApi.PayloadIdentity | decagon_voice/voice_conversations_api.py:86-143 | a record with exactly the nine columns is posted unchanged |
| VoiceApi.VoiceApiMain | decagon_voice/voice_conversations_api.py:161-195 | the run stops before the timestamp is saved exactly when the fetch gives no conversations; otherwise the records saved are exactly the fetch's (the kept conversations, formatted, each shaped); they are posted, unchanged and in order, only with a real webhook URL, the sent count is the 200 replies, and the run timestamp is saved |
| ApiQuery.AnyVoice | voice_conversations_api.py:78 | a voice conversation is reported only when the listing holds a dictionary whose `flow_type` is `VOICE` |
| ApiQuery.RunDecagonApiQuery | voice_conversations_api.py:39-102 | no API key means no request and no answer; the `flow_filter` request always comes first; the `flow_id` fallback is made exactly when the first request did not raise and its answer was not a 200 listing a voice conversation; at most two requests |
| ApiQuery.QueryAnswerFrom200 | voice_conversations_api.py:74-95 | an answer is always the text of a 200 response: the first request's exactly when it listed a voice conversation, otherwise the fallback's |
| ApiQuery.Dispatch | voice_conversations_api.py:108-119 | a list is taken as it is; a dictionary gives its `conversations` entry, else its `data` entry, else nothing; a decode error or any other shape gives nothing |
| ApiQuery.Process | voice_conversations_api.py:126-136 | a processed conversation has exactly the nine keys |
| ApiQuery.ProcessSpec | voice_conversations_api.py:126-136 | processing keeps the nine keys' values, fills missing ones with `''`, drops every other key, and is idempotent |
| ApiQuery.ParseApiResults | voice_conversations_api.py:104-147 | no usable listing, or an element that is not a dictionary, gives `[]`; otherwise one processed record per element, in order |
| ApiQuery.GetVoiceConversationsFromApi | voice_conversations_api.py:149-159 | the result is the reference `Fetched`: an empty or failed query gives no conversations, otherwise the parse of its text, which is `[]` for a listing that is missing or holds a non-dictionary and one processed record per element otherwise; every record has exactly the nine keys |
| ApiQuery.SumOverBump | voice_conversations_api.py:226 | adding one to the count of a listed key adds one to the total |
| ApiQuery.Tally | voice_conversations_api.py:225-226 | one count step increments the flow type's count (from 0 when new), appends a new type to the end of the key order and leaves it alone otherwise, and adds one to the total |
| ApiQuery.FirstFlowTypesSpec | voice_conversations_api.py:223-230 | the reference key order lists every flow type once, each one occurring, in the order of their first occurrences |
| ApiQuery.CountFlowTypes | voice_conversations_api.py:223-230 | the distribution lists each flow type once, in order of first appearance (the reference order `FirstFlowTypes`); each count is that type's number of conversations and the counts add up to the total; an unhashable flow type raises |
| ApiQuery.OccurrencesAbsent | voice_conversations_api.py:223-226 | a flow type no conversation has is never counted |
| ApiQuery.PayloadOfRecord | voice_conversations_api.py:161-189 | a processed record is posted with the same keys and values, except that its creation time is rendered when it parses |
| ApiQuery.TopApiMain | voice_conversations_api.py:207-252 | no API key, an empty key or an empty fetch ends the run before the timestamp is saved, and only then; the run crashes exactly when the fetch is non-empty and holds an unhashable flow type; otherwise the saved records are exactly the fetch's, each flow type is counted exactly as often as it occurs, listed once in order of first appearance (`FirstFlowTypes`), the counts add up to the total, records are posted in order only with a real webhook URL, the sent count is the 200 replies, and the timestamp is saved |
| QaGoogle.IndexOf | decagon_voice/voice_conversations_qa_google.py:225 | `headers.index`: the first position holding the name, or nothing when no header is that name |
| QaGoogle.IdColumn | decagon_voice/voice_conversations_qa_google.py:224-229 | the id column is the `conversation_id` header's position, else the last column (-1 for an empty header row) |
| QaGoogle.GetExistingConversationIds | decagon_voice/voice_conversations_qa_google.py:209-242 | the loop collects exactly the ids of the reference `ExistingIds` |
| QaGoogle.IdsOfRowsSpec | decagon_voice/voice_conversations_qa_google.py:233-235 | the lookup raises exactly when some row holds a negative column it cannot index; otherwise the ids are exactly the stripped, non-empty id cells of the rows |
| QaGoogle.ExistingIdsCharacterized | decagon_voice/voice_conversations_qa_google.py:209-242 | an unreadable or empty sheet, or a row that makes the lookup raise, gives no ids; otherwise the ids are the stripped, non-empty cells of the id column in the rows after the header, and each id is non-empty and already stripped |
| QaGoogle.EmptyHeaderRow | decagon_voice/voice_conversations_qa_google.py:226-235 | with an empty header row the last cell of each data row is read, and an empty data row then makes the whole result empty |
| QaGoogle.SelectNewSpec | decagon_voice/voice_conversations_qa_google.py:330-331 | the selection keeps exactly the rows whose id is new, in order, each time it occurs |
| QaGoogle.NewRowsSelected | decagon_voice/voice_conversations_qa_google.py:320-331 | a non-empty set of new ids drawn from the rows selects at least one row, and every selected row has a new id |
| QaGoogle.SelectedIdsAreNew | decagon_voice/voice_conversations_qa_google.py:320-331 | with the new ids taken as `current - existing`, each selected row's id is not on the sheet, and some row is selected exactly when there are new ids |
| QaGoogle.AddNewConversationsToSheet | decagon_voice/voice_conversations_qa_google.py:244-281 | a sheet that cannot be opened fails with no append; an empty list succeeds with no append; otherwise one append of all rows, in order, each the twelve sheet columns of its conversation, succeeding unless the append raises |
| QaGoogle.RowsToAddIds | decagon_voice/voice_conversations_qa_google.py:252-331 | every appended row has twelve cells and a new id in the last one |
| QaGoogle.QaGoogleMain | decagon_voice/voice_conversations_qa_google.py:283-344 | the run stops without a query exactly when the SQL file is missing or empty, with no conversations exactly when the query fails or returns none, and without a client exactly when there are conversations but the client cannot be made; it appends exactly when the current ids minus the sheet's ids are not empty, then the new ids are exactly that difference and the rows exactly those selected for them, none with an id already on the sheet; otherwise the existing ids are those the sheet gives |
| QaFlowTest.SetOf | decagon_voice/test_qa_flow.py:135 | Python's `set(v)`: it raises exactly for a value that is not a list, string or dictionary, or a list with an unhashable item; a list gives exactly its items |
| QaFlowTest.ProcessedIdsSpec | decagon_voice/test_qa_flow.py:129-139 | a missing or unreadable tracking file, a value that is not a dictionary, or an absent id entry gives no processed ids; a list of strings gives exactly those strings |
| QaFlowTest.NewIds | decagon_voice/test_qa_flow.py:173-174 | the new ids are exactly the current ids that were not processed |
| QaFlowTest.QaFlowMain | decagon_voice/test_qa_flow.py:141-210 | the run stops without a query exactly when the SQL file is missing or empty, and with no conversations exactly when the query fails or returns none; it writes exactly when the current ids minus the processed ids are not empty, then the new ids are exactly that difference and the rows exactly the conversations selected for them, in a file named `new_conversations_test_` plus the time stamp plus `.json`; otherwise the processed ids are those of the file |
| QaFlowTest.NeverWritesTrackingFile | decagon_voice/test_qa_flow.py:202-205 | the dry run never writes the tracking file |
| CsvInit.HasHeaderIffId | decagon_voice/initialize_from_csv.py:28-32 | the header test holds exactly when the lower-cased first line contains `id` |
| CsvInit.CellId | decagon_voice/initialize_from_csv.py:41-44 | a row contributes an id only when it is non-empty and not the literal `conversation_id` |
| CsvInit.IdSetSpec | decagon_voice/initialize_from_csv.py:40-44 | every collected id is stripped, non-empty and not `conversation_id`, and every row whose stripped first cell is such a value contributes it |
| CsvInit.ListOf | decagon_voice/initialize_from_csv.py:52 | `list(set)` holds each element of the set exactly once |
| CsvInit.InitializeFromCsv | decagon_voice/initialize_from_csv.py:12-73 | a missing or unreadable file, or a header line with no row to skip, fails without writing; otherwise the record saved lists each id of the rows after the header exactly once, with `total_count` their number, and the result is whether the save succeeded |
| CsvInit.RecordReadsBack | decagon_voice/initialize_from_csv.py:51-56 | the processed ids read back from the saved record are exactly the collected ids |
| GsheetSync.Worksheet.constructor | decagon_voice/voice_conversations_to_gsheet.py:159-165 | a worksheet starts with the given cell values and no writing calls |
| GsheetSync.Worksheet.AppendOne | decagon_voice/voice_conversations_to_gsheet.py:184 | `append_row` adds the row after the last one and logs the call |
| GsheetSync.Worksheet.InsertFirst | decagon_voice/voice_conversations_to_gsheet.py:189 | `insert_row(row, index=1)` makes the row the first one and logs the call |
| GsheetSync.Worksheet.AppendMany | decagon_voice/voice_conversations_to_gsheet.py:221 | `append_rows` adds the rows after the last one and logs the call |
| GsheetSync.EnsureHeaders | decagon_voice/voice_conversations_to_gsheet.py:181-189 | the sheet becomes `WithHeaders` of what it held, through the calls `HeaderCalls` lists |
| GsheetSync.WithHeadersSpec | decagon_voice/voice_conversations_to_gsheet.py:181-189 | afterwards the stripped first row is the header row, the earlier rows are kept below it, at most one call is made, none exactly when nothing changes, and a second pass changes nothing and makes no call |
| GsheetSync.ToAppend | decagon_voice/voice_conversations_to_gsheet.py:204-211 | never more rows than conversations |
| GsheetSync.ToAppendSpec | decagon_voice/voice_conversations_to_gsheet.py:203-211 | the appended rows are exactly the header-ordered projections of the conversations whose link is present, non-empty and not on the sheet |
| GsheetSync.AppendedRowsAreNew | decagon_voice/voice_conversations_to_gsheet.py:205-211 | every appended row has the nine header cells and starts with a non-empty link not already on the sheet |
| GsheetSync.SameLinkTwice | decagon_voice/voice_conversations_to_gsheet.py:203-211 | the existing ids are not updated inside the loop, so a link seen twice in one batch is appended twice |
| GsheetSync.ChunksSpec | decagon_voice/voice_conversations_to_gsheet.py:217-220 | the chunks put back together are the rows, each chunk holds 1 to 200 rows, and there are ceil(n/200) of them |
| GsheetSync.AppendInChunks | decagon_voice/voice_conversations_to_gsheet.py:216-223 | the rows end up appended in order, one `append_rows` per chunk, and the count is the number of rows |
| GsheetSync.AppendNewConversations | decagon_voice/voice_conversations_to_gsheet.py:202-223 | exactly the new conversations' rows are appended, in chunks, and their number is returned |
| GsheetSync.SecondRunAppendsNothing | decagon_voice/voice_conversations_to_gsheet.py:192-211 | on a non-empty sheet, running the append twice on the same conversations appends nothing the second time |
| GsheetSync.NothingNew | decagon_voice/voice_conversations_to_gsheet.py:213-214 | when no conversation is new, nothing is appended |
| GsheetSync.GsheetMain | decagon_voice/voice_conversations_to_gsheet.py:227-258 | the sheet is touched exactly when the query file exists, the query succeeded with output, some line parsed and the client is available; the headers are then fixed first and the new rows appended after them |
| ActionText.MentionsSpec | decagon_voice/scrape_corporate_actions.py:518-522 | an alternation occurs in the text exactly when one of its alternatives matches at some position |
| ActionText.FirstMentionedSpec | decagon_voice/scrape_corporate_actions.py:516-539 | the if/elif chain stops at a type whose pattern occurs, after only types whose patterns do not, and runs out exactly when no pattern occurs |
| ActionText.ClassTable | decagon_voice/scrape2.py:368-391 | every type in the chain has a pattern, and none is named `Other` |
| ActionText.ClassifyByPriority | decagon_voice/scrape_corporate_actions.py:509-539 | the type is the first one, in the chain's order, whose word-bounded pattern occurs in the lower-cased text, and `Other` exactly when none occurs |
| ActionText.ClassifyIgnoresCase | scrape_corporate_actions.py:230 | the classification of a text and of its lower-cased form agree |
| ActionText.NumberDigits | decagon_voice/scrape2.py:399-402 | a match of `\d+(?:\.\d+)?` begins and ends with a digit |
| ActionText.ExtractRatioSpec | decagon_voice/scrape_corporate_actions.py:541-558 | the ratio is empty exactly when no ratio pattern matches anywhere; otherwise it is the leftmost match of the first pattern, in order, that matches, every earlier pattern matching nowhere |
| ActionText.RatioShape | scrape_corporate_actions.py:263-273 | a non-empty ratio is a piece of the text that begins and ends with a digit |
| ActionText.StripOrdinals | decagon_voice/scrape_corporate_actions.py:565 | dropping ordinal suffixes never lengthens the date text |
| ActionText.StripOrdinalsNoLetters | scrape_corporate_actions.py:282 | text of digits and hyphens has no ordinal suffix to drop |
| ActionText.DateAtShape | decagon_voice/scrape_corporate_actions.py:576-577 | the day group of a date match has one or two digits and the year group four |
| ActionText.MonthNumber | decagon_voice/scrape_corporate_actions.py:568-572 | a known month name gives its number from the table; an unknown name gives none |
| ActionText.FormatIso | decagon_voice/scrape_corporate_actions.py:584-588 | a four-digit year, a month number and a day of one or two digits, zero-filled, make a `YYYY-MM-DD` date |
| ActionText.TryDateIso | decagon_voice/scrape2.py:432-440 | whatever one date pattern produces is a `YYYY-MM-DD` date |
| ActionText.NormalizeDateShape | decagon_voice/scrape_corporate_actions.py:560-590 | `normalize_date` returns a `YYYY-MM-DD` date or its input unchanged |
| ActionText.NoSpaceNoDate | scrape_corporate_actions.py:293-298 | text without whitespace matches neither date pattern |
| ActionText.NormalizeDateIdempotent | decagon_voice/scrape_corporate_actions.py:560-590 | normalising a normalised date changes nothing |
| ActionText.FirstParen | decagon_voice/scrape_corporate_actions.py:456-458 | the position of the first `(`, with no `(` before it; the text's length when there is none |
| ActionText.MatchHead | decagon_voice/scrape_corporate_actions.py:465 | the lazy company group of a head pattern ends by the first `(`, and the rest of the pattern matches after it |
| ActionText.MatchHeadSpec | decagon_voice/scrape_corporate_actions.py:456-466 | the lazy company group ends at the first position after which the rest of the head pattern matches, and the pattern fails exactly when no position before the first `(` works |
| ActionText.FallbackCompanyEnd | decagon_voice/scrape_corporate_actions.py:479 | the fallback company group is non-empty and ends by the first `(` |
| ActionText.SuffixAt | decagon_voice/scrape_corporate_actions.py:487 | the first corporate suffix, in the alternation's order, whose pattern matches from the position to the end; none exactly when no suffix does |
| ActionText.FindCompanyAndTicker | decagon_voice/scrape_corporate_actions.py:461-481 | the head-pattern loop and the two fallbacks give the company and ticker of the reference `FoundCompany` and `FoundTicker` |
| ActionText.ParseSingleAction | decagon_voice/scrape_corporate_actions.py:447-507 | the parser's result is the reference `ParseAction` of the text and date |
| ActionText.TickerMatch | decagon_voice/scrape_corporate_actions.py:456 | what `[A-Z]{1,6}(?:\.[A-Z])?` matches is one to six capitals, possibly followed by a dot and one capital |
| ActionText.TickerShape | decagon_voice/scrape2.py:316-327 | the parsed ticker is empty or has that shape |
| ActionText.CompanyNoParen | decagon_voice/scrape_corporate_actions.py:461-481 | the company found before the clean-up holds no `(` |
| ActionText.DropParenTailNoParen | decagon_voice/scrape2.py:338 | on a name without `(` the parenthetical clean-up changes nothing |
| ActionText.FixSuffixSpec | decagon_voice/scrape_corporate_actions.py:487 | the suffix clean-up changes a name only when a suffix pattern matches to its end, and then, from the leftmost such position, turns the whitespace, suffix and dots into one space and the suffix |
| ActionText.FixSuffixNoParen | scrape_corporate_actions.py:204 | the suffix clean-up brings in no `(` |
| ActionText.CleanCompanyOfFound | decagon_voice/scrape_corporate_actions.py:483-488 | on the name the parser finds, the parenthetical clean-up never fires, so the clean-up is the suffix fix and `strip()`, and the result holds no `(` |
| ActionText.ParseActionFields | decagon_voice/scrape_corporate_actions.py:490-507 | an action comes out exactly when the cleaned company has at least two characters; it carries the date as given, the cleaned text as details, and the ticker, type and ratio found in that text |
| ActionText.CleanCompanyShape | scrape_corporate_actions.py:200-205 | the cleaned company holds no `(` and has no whitespace at either end |
| ActionText.ParseActionShape | decagon_voice/scrape_corporate_actions.py:447-507 | a parsed action's company has at least two characters, no `(` and no whitespace at either end, and its ticker is empty or has the ticker shape |
| ActionText.ParseActionDetails | decagon_voice/scrape2.py:304 | the details are the text with each whitespace run made one space and the ends trimmed: single-spaced, starting with a visible character, with the text's visible characters in order |
| RegexScan.SearchPatternSpec | decagon_voice/scrape_corporate_actions.py:465 | `re.search` finds the leftmost position where the pattern matches, and nothing exactly when it matches nowhere |
| RegexScan.FirstOfSpec | decagon_voice/scrape_corporate_actions.py:553-556 | the pattern loop finds nothing exactly when no pattern matches anywhere, and otherwise stops at a pattern after only patterns that match nowhere |
| PyText.StripSpec | decagon_voice/scrape_corporate_actions.py:452 | `strip()` removes exactly the whitespace at both ends: the result is a slice of the text with no whitespace at either end, and nothing outside it but whitespace |
| PyText.CollapseSpacesSpec | decagon_voice/scrape_corporate_actions.py:452 | `re.sub(r'\s+', ' ', t)` keeps the visible characters in order and leaves no two whitespace characters in a row |
| Scraper.StatusTextInjective | decagon_voice/scrape_corporate_actions.py:32 | distinct statuses are written as distinct texts, so the fallback's test on the status text is a test on the status |
| Scraper.SuccessResponse | decagon_voice/scrape_corporate_actions.py:252-285 | the record holds the actions and their number; the status is `success` exactly when there are actions, and `no_data_found` otherwise, so an empty result is never accepted; it names the page, the version and the method, with `github_actions_compatible` only in version 1.4 |
| Scraper.ErrorResponse | decagon_voice/scrape_corporate_actions.py:287-308 | the error record has no actions, a total of 0, status `error` and the message; it is never accepted |
| Scraper.MockData | decagon_voice/scrape_corporate_actions.py:310-361 | the mock record holds the sample actions (three in 1.4, two in 1.2) and their number, status `mock_data` and a note; version 1.4 names the method `fallback_mock_data` |
| Scraper.Reached | decagon_voice/scrape_corporate_actions.py:47-250 | an approach reaches `create_success_response` exactly when it got a page, with status 200 for requests and cloudscraper and any status for Selenium, and then with the actions extracted from that page |
| Scraper.ScrapeWithFallback | decagon_voice/scrape_corporate_actions.py:10-45 | the approach loop, the mock fallback and the outer error handler end as the reference `Fallback` does |
| Scraper.FallbackOutcome | decagon_voice/scrape_corporate_actions.py:22-45 | whatever the writes do, a run that returns has left in the file what it returns, which is the success response of an approach that found actions, the mock data, or the error response of the failed write |
| Scraper.FallbackFirstUseful | decagon_voice/scrape_corporate_actions.py:28-41 | with every write succeeding, the run returns and writes the success response of the first approach that found actions, and the mock data when none did |
| Scraper.ScrapeFallbackOrder | decagon_voice/scrape2.py:21-44 | a whole run of version 1.2 or 1.4 with every write succeeding: the first approach with actions wins, else the mock data |
| Scraper.ScrapeBasic | scrape_corporate_actions.py:7-99 | version 1.0 returns exactly when the page came back with status 200 and the output write succeeded, and then the file holds the success record it returns; otherwise it raises, and the file holds, when that write succeeds, an error record with no actions whose message is the fetch's exception, `HTTP <code>: Failed to fetch page` or the failed write's error |

## Left out

- Network, subprocesses and browsers. This covers `requests`, `cloudscraper`, Selenium, the Satori `subprocess.run`, the SSH tunnel and `psycopg2`. They are external; the model is given what each call returned or that it raised.
- HTML extraction. `extract_corporate_actions` and its sibling search run on BeautifulSoup, which is not part of this model. An approach's extracted actions are part of its given outcome.
- Spreadsheet client and credentials. `get_google_sheets_client`, `get_gspread_client`, `decagon_voice/setup_google_credentials.py` and dotenv loading are configuration. The worksheet is given as its cell values; the calls made on it are a log.
- Exceptions of the spreadsheet calls beyond those the model names: opening or reading the sheet, and `append_rows` in the QA sheet sync.
- GsheetSync.AppendInChunks and GsheetSync.GsheetMain: every `append_rows` chunk succeeds. In `decagon_voice/voice_conversations_to_gsheet.py` a chunk after the first can raise; `main`'s `except Exception` then ends the run with the earlier chunks already on the sheet. That partial append is not modelled.
- Python's `True == 1` and `False == 0`. Dictionary keys and set members that compare equal merge in Python. ApiQuery.CountFlowTypes (the `flow_types` dictionary) and VoiceFetch.Scan (the `seen_ids` set) key on `Json` values, where `Bool(true)` and `Num(1)` differ. A flow type `true` beside a flow type `1` is counted twice, and such ids are both kept, where Python merges them.
- Unreadable SQL files. `load_sql_query` catches only `FileNotFoundError`. A file that exists but cannot be opened or decoded raises, and `main` ends with that exception. The model's `queryFound` (and `query` in WarehouseClean.WarehouseMain) treats every unusable file as a clean stop.
- Clock and time zones. `datetime`, `ZoneInfo`, `format_et`, `format_timestamp_est` beyond its empty case, `strftime` and `fromisoformat` are left out. Timestamps are integers, the current time is a parameter, and parsing or rendering a time is a given function (`parseTs`, `render`).
- `json.dumps`, `str()` of lists and dictionaries, and `repr`. They are given functions (`dumps`, `reprOf`), so their exact text is not modelled.
- `VoiceFetch.FetchVoiceConversations`: the `while True` page loop is bounded by a `fuel` number of pages. When no `max_pages` is set, a server that always returns a cursor makes the Python loop run forever; the model stops after `fuel` pages with the status `Unfinished`.
- The Slack message blocks of `send_to_slack`. Only the `Deflected` text and the success test on the status are modelled; the other fields are formatting.
- Writes of JSON files in the voice scripts (`save_conversations_to_json`, `save_last_run_timestamp`, the test output of `decagon_voice/test_qa_flow.py`). Only whether and what they write is modelled; a failing write and a partial file are not.
- Scraper writes. A failed write of `corporate_actions.json` is modelled as leaving the file as it was. A real `open(..., 'w')` that fails after opening leaves it empty or truncated.
- The scrapers' waits: the random pauses before a request (`random.uniform(1, 3)` at `decagon_voice/scrape2.py:68`, `random.uniform(2, 5)` at `decagon_voice/scrape_corporate_actions.py:73`) and the fixed waits for the browser page (`time.sleep(5)` at `decagon_voice/scrape2.py:126`, `time.sleep(8)` at `decagon_voice/scrape_corporate_actions.py:220`). They change no result; the fetch outcomes are given.
- Logging and every `print`.
- The interactive `main` of `decagon_voice/initialize_from_csv.py` (it reads a path with `input`), and the manual scripts `decagon_voice/test_webhook.py`, `decagon_voice/test_warehouse_payload.py` and `decagon_voice/test_both_scripts.py`.
- Unicode. `\d`, `\w`, `[A-Z]`, `lower()` and the `re.IGNORECASE` comparison are modelled on ASCII; Python applies them to all of Unicode. `\s` and `strip()` use Python's full whitespace set.
- Numbers in JSON are integers; floating-point values are not modelled.
- The regular-expression matcher of `RegexScan` is greedy and never backtracks. For each pattern the scrapers use, a repetition is followed by a character outside its class, so backtracking cannot change the result. That argument is stated in the module's comment, not proved against a model of Python's backtracking matcher. `$` is modelled as the end of the text; Python's `$` also matches before a final newline.
- `ActionText.StripOrdinals`: its contract states only that the text does not grow and that digit-and-hyphen text is left alone. Which suffixes it removes is given by its definition.
- `Scraper.MockData`: the mock actions are given as constants. That they are what `parse_single_action` would make of some text is not proved.
- The status `success_alternative` is accepted by the fallback test, as in the code, but no approach of either version produces it.
- In the version 1.0 error record, `url if 'url' in locals()` always takes the URL: only a `print` comes before the assignment of `url`, and a failing `print` is not modelled. The model writes the URL.
- VoiceSend.ReadLastRun: a run file that exists but is not valid JSON makes `json.load` raise; the model is given the decoded file or its absence.

## Notes

- The QA sheet sync and its test flow drop a line containing `decagon_conversation_link`. Their first column is named `decagon_link`, so whether the header line is dropped depends on the SQL file. The SQL files are not part of this model; `PsqlTable` models the filter as written.
- In `parse_single_action` the company group `[^(]+?` can hold no `(`. The clean-up that removes a trailing parenthetical therefore never changes the name it is given. `ActionText.CleanCompanyOfFound` proves this.
- The warehouse fetcher's line filter drops any data line whose text contains `conversation_id`, not just the header. `PsqlTable` keeps that behaviour.
