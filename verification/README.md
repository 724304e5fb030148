# Conversation reports of the Telegram feedback bot, in Dafny

The bot reads chat messages exchanged between a company phone and its
clients from a database. It groups them into one conversation per client
and sends the conversations as an Excel report. It sends the report every
morning at 09:05 for the previous day, and on demand for a period given
with `/period DD-MM-YYYY DD-MM-YYYY`. This project models the logic
between the database rows and the document that is sent, and proves what
that logic promises.

- **Records** (`records.dfy`) are the `Message` and `Conversation`
  dataclasses of `bot.py`.
- **Conversations** (`conversations.dfy`) is `build_conversations`:
  - the grouping loop, with the dictionary kept as its key order plus a map
    of lists;
  - the sorting loop;
  - the reference functions `Clients`, `Thread`, `SortById` and `Build`
    (Python's stable `sorted` is a stable insertion sort);
  - the partition, attribution, order and stability lemmas.
- **Timestamps** (`timestamps.dfy`) is `clean_datetime`:
  - `datetime.fromisoformat` on the fixed-width shapes, with or without a
    `±HH:MM` offset;
  - the fallback: split at the first `+`, `strip`, then
    `strptime("%Y-%m-%d %H:%M:%S")`;
  - `strftime` back to `YYYY-MM-DD HH:MM:SS`;
  - an error value where Python raises `ValueError`.
- **Sheets** (`sheets.dfy`) stands in for an openpyxl worksheet:
  - a `Sheet` value and a `Worksheet` class whose methods (`Cell`, `Append`,
    `SetBold`, `SetWrap`, `SetWidth`, `SetHeight`) update it in place;
  - cells with a value and bold and wrap flags;
  - openpyxl's append cursor, `max_row` and `max_column`.
- **Report** (`report.dfy`) holds:
  - the texts the export writes and `LANG_MAP`;
  - each layout step as a function on sheets;
  - the closed form `BlockLayout` of a conversation block;
  - column and row sizing;
  - the finished sheet `Export`.
- **Exporter** (`exporter.dfy`) is `export_conversations_to_excel` as the
  code runs it. Its methods fill a `Worksheet` call by call, and each is
  proved to leave the sheet that `Report` describes. The method signals the
  cases where the code raises:
  - an empty conversation (`conv.messages[-1]`);
  - a time stamp that `clean_datetime` rejects.
- **Layout** and **Finished** (`layout.dfy`, `finished.dfy`) state, cell by
  cell, what the exported sheet holds:
  - the title;
  - where each block sits;
  - what every title, header and message cell holds;
  - every width and height.
- **Scheduler** (`scheduler.dfy`) is the timing of `daily_report` on an
  integer clock with microsecond resolution.
- **Commands** (`commands.dfy`) is `/period`:
  - the argument check and the date parsing;
  - the look-up, which is passed in as a function;
  - the label, file name, caption and sheet of the reply.

The worksheet follows openpyxl rather than a simplified "next free row":

- `ws.cell(row, …)` raises the append cursor to `row`.
- `ws.append(values)` writes to the row after the cursor and moves the
  cursor there, even for `[]`.
- `max_row` is the last row that holds a cell.

The two empty rows appended after a block therefore move only the cursor.
The next title, placed at `max_row + 3`, lands three rows below the last
message. That is two blank rows between blocks.

## Model

| member | source | states |
|---|---|---|
| Conversations.GroupByClient | bot.py:316-328 | after the first loop the key order is the clients in order of first appearance and each key's list is that client's messages in input order |
| Conversations.SortGroups | bot.py:331-334 | the second loop yields one conversation per key, in key order, holding the key's list sorted by id |
| Conversations.BuildConversations | bot.py:315-336 | the two loops return exactly `Build`: the first-seen clients, each with its sorted thread |
| Conversations.SortByIdCorrect | bot.py:333 | the sort returns a permutation of its input, non-decreasing in id |
| Conversations.SortByIdStable | bot.py:333 | messages with equal ids keep their input order |
| Conversations.ClientsExact | bot.py:325-326 | the dictionary's keys are distinct and are exactly the clients of the input messages |
| Conversations.ClientsFirstSeen | bot.py:325-332 | a key listed before another belongs to a message earlier than any message of the other |
| Conversations.ThreadMembers | bot.py:318-328 | a client's list holds only messages attributed to it and every such message |
| Conversations.BuildAttribution | bot.py:320-323 | a message sits in a conversation only if it is to the client when sent by the bot, and from the client otherwise |
| Conversations.BuildPartition | bot.py:318-334 | every input message is in the conversation of its own client and in no other |
| Conversations.BuildPreservesMessages | bot.py:318-334 | all conversations together hold each input message exactly as often as the input; the total count is preserved |
| Conversations.BuildNonEmptyDistinct | bot.py:325-334 | every conversation is non-empty and no two share a client phone |
| Conversations.BuildOrderedGroups | bot.py:332-334 | each conversation is a permutation of its client's group, sorted by id and stable among equal ids |
| Conversations.BuildFirstSeenOrder | bot.py:316-332 | conversations follow the first appearance of their client; the result is empty exactly when the input is |
| Timestamps.CleanIsoWithOffset | bot_utils.py:102-108 | "YYYY-MM-DDTHH:MM:SS±HH:MM" becomes "YYYY-MM-DD HH:MM:SS" with the same fields, the offset dropped |
| Timestamps.CleanSpaceThenPlus | bot_utils.py:104-108 | a formatted timestamp, whitespace, '+' and anything after it becomes that timestamp |
| Timestamps.CleanCanonical | bot_utils.py:102-108 | a canonical timestamp is returned unchanged |
| Timestamps.CleanIdempotent | bot_utils.py:95-108 | every result is 19 characters long and normalising it again changes nothing |
| Timestamps.CleanFallback | bot_utils.py:104-106 | when the ISO reading fails only the stripped text before the first '+' is parsed; with the fixed-width reading, the result is that text, or an error carrying it |
| Timestamps.StrpTimeInverse | bot_utils.py:106-108 | a text the fixed-width "YYYY-MM-DD HH:MM:SS" reading accepts is the strftime formatting of what it read |
| Timestamps.CleanIsoExample | bot_utils.py:98-100 | "2025-08-31T13:39:02+05:00" gives "2025-08-31 13:39:02" |
| Timestamps.OffsetBounds | bot_utils.py:103 | `fromisoformat` bounds an offset by its total, not by its fields: "+05:60" and "-23:59" are accepted, "+24:00" and "+23:60" are not |
| Timestamps.CleanUnreducedOffsetExample | bot_utils.py:103-108 | "2025-08-31T13:39:02+05:60" takes the ISO path and gives "2025-08-31 13:39:02" |
| Timestamps.CleanSpaceOffsetExample | bot_utils.py:99-100 | "2025-08-31 13:39:14 +0500 +05" gives "2025-08-31 13:39:14" |
| Timestamps.CleanRejectsDayFirst | bot_utils.py:102-106 | a day-first timestamp matches neither reading and is an error |
| Sheets.Worksheet.constructor | bot_utils.py:17-18 | a new workbook's active sheet: no cells, cursor 0, extent 1 by 1 |
| Sheets.Worksheet.Cell | bot_utils.py:37 | `ws.cell(row, col, value)` sets the value, keeps the style, and raises the cursor and extent |
| Sheets.Worksheet.Append | bot_utils.py:43-46 | `ws.append(values)` writes plain cells to the row after the cursor and moves the cursor there, the extent only for a non-empty row |
| Sheets.Worksheet.SetBold | bot_utils.py:38 | setting the font makes exactly that cell bold, creating it when missing |
| Sheets.Worksheet.SetWrap | bot_utils.py:63-65 | setting the alignment wraps exactly that cell, creating it when missing |
| Sheets.Worksheet.SetWidth | bot_utils.py:80 | sets one column's width and nothing else |
| Sheets.Worksheet.SetHeight | bot_utils.py:89 | sets one row's height and nothing else |
| Sheets.AppendRowWellFormed | bot_utils.py:43-46 | an appended row lies below every existing cell: no cell is replaced and the extent stays that of the cells |
| Sheets.PutCellWellFormed | bot_utils.py:37-40 | writing or styling one cell keeps the extent that of the cells |
| Report.LangLabel | bot_utils.py:10-13 | "ru" shows as "Русский", "kk" as "Казахский", and any other code as is, by `LANG_MAP.get(code, code)` at line 53 |
| Report.Speaker | bot_utils.py:52 | "Клиент" exactly when the sender is the conversation's client, "Бот" otherwise |
| Report.MessageTable | bot_utils.py:51-65 | row `i` of a block's table is the block's language (the label of its last message), message `i`'s sender, text and stamp, wrapped and not bold |
| Report.CleanStamps | bot_utils.py:59 | one normalised stamp per message, each what the normaliser returns for that message |
| Report.LongestIsMaximum | bot_utils.py:73-79 | the accumulator ends at the largest length of a non-empty value in the column, 0 when there is none |
| Report.ColumnWidth | bot_utils.py:80 | a width is the longest length plus 2, capped at 120, and never below 2 |
| Report.SizeColumnsWidths | bot_utils.py:72-80 | sizing sets each of columns 1..n to the width of its longest value and changes nothing else |
| Report.RowHeight | bot_utils.py:87-89 | a height is at least 20, at least 15 per explicit line, at least 15 times `len(text) // 80 + 1`, and equals one of these |
| Report.RowHeightExamples | bot_utils.py:87-89 | one line of 200 characters is 45 high; one of 10 characters is 20 |
| Report.HeaderHeights | bot_utils.py:83-89 | each header, a single short line, gets height 20 |
| Report.SizeRowsHeights | bot_utils.py:83-89 | sizing sets the height of each row from 2 on with message text and changes nothing else |
| Exporter.StyleRow | bot_utils.py:47-48 | makes columns 1..n of a row bold, or wrapped, one cell at a time |
| Exporter.AppendMessageRow | bot_utils.py:55-65 | appends one message row and wraps its four cells |
| Exporter.AppendMessage | bot_utils.py:52-65 | appends message `j`'s row exactly when its time stamp normalises, and leaves the sheet unchanged otherwise |
| Exporter.AppendMessages | bot_utils.py:51-65 | appends every message row in message order, and fails exactly when some stamp is rejected |
| Exporter.AppendTitleRow | bot_utils.py:36-40 | writes the bold chat number and client phone three rows below the last occupied row |
| Exporter.AppendBlockHead | bot_utils.py:36-48 | writes the title row, a blank row and the bold header row |
| Exporter.AppendBlock | bot_utils.py:33-69 | fails on an empty conversation without writing, and on a rejected stamp; otherwise leaves the block `BlockLayout` describes |
| Exporter.LongestInColumn | bot_utils.py:73-79 | the loop's maximum is `Longest` of the column |
| Exporter.FitColumns | bot_utils.py:72-80 | the width loop leaves `SizeColumns` of the sheet |
| Exporter.FitRows | bot_utils.py:83-89 | the height loop leaves `SizeRows` of the sheet |
| Exporter.AppendBlocks | bot_utils.py:32-69 | writes every block in order, and fails exactly when some conversation is empty or has a rejected stamp (openpyxl's string check and row limit aside, see Left out) |
| Exporter.ExportWith | bot_utils.py:16-90 | the export succeeds exactly when every conversation is ready, and then leaves `Export` of the input (openpyxl's string check and row limit aside, see Left out) |
| Exporter.ExportConversations | bot_utils.py:16-92 | `ExportWith` using `clean_datetime` |
| Layout.MessagesCursor | bot_utils.py:51-60 | each message row moves the cursor one row down and becomes the last occupied row |
| Layout.MessagesCells | bot_utils.py:51-65 | message rows sit on consecutive rows after the cursor, in message order, and leave other cells alone |
| Layout.HeadCells | bot_utils.py:36-48 | the title sits three rows below the last occupied row and the headers two rows below the title, in order, bold |
| Layout.WriteBlockAt | bot_utils.py:32-69 | each cell of a block written step by step has the shape the whole-block description gives |
| Layout.BlockMatchesLayout | bot_utils.py:32-69 | writing a block step by step equals its closed-form `BlockLayout` |
| Layout.BlocksCursor | bot_utils.py:32-69 | after k blocks the last occupied row is `LastRow(k)`, the cursor two rows below it, and nothing is sized yet |
| Layout.BlocksBound | bot_utils.py:29-69 | every cell lies between row 1 and the last row, in the used columns |
| Layout.BlocksKeep | bot_utils.py:32-69 | later blocks never touch a row of an earlier block or of the title |
| Layout.BlockInPlace | bot_utils.py:36-60 | block `i` sits three rows below the rows of the blocks before it and holds its title, headers and messages and nothing else |
| Layout.MessageInPlace | bot_utils.py:51-60 | message `k` of conversation `i` occupies its row's four cells, wrapped |
| Layout.BlocksTitle | bot_utils.py:29-30 | row 1 holds only the bold period title |
| Finished.ExportIsFinal | bot_utils.py:16-90 | the export is the final sheet over the stamps the normaliser makes of every message |
| Finished.BlockOfRow | bot_utils.py:32-69 | every row below the title, up to the last row of block k, lies in the rows of one of the first k blocks |
| Finished.FinalSizes | bot_utils.py:72-89 | sizing keeps the cells; a column is sized iff used, a row iff from row 2 with message text |
| Finished.FinalTitle | bot_utils.py:29-30 | row 1 of the report holds only "Отзывы за период " + period, bold |
| Finished.FinalBound | bot_utils.py:29-69 | no cell of the report lies outside rows 1..max_row and columns 1..4 |
| Finished.FinalBlock | bot_utils.py:36-48 | conversation `i` is block `i + 1`: "Чат №i+1" and "Клиент: "+phone, a blank row, the headers, its messages |
| Finished.FinalMessage | bot_utils.py:51-65 | a message row holds the last message's language label, "Клиент" iff from the client, the text and the normalised stamp |
| Finished.FinalMessageHeight | bot_utils.py:83-89 | a message row gets a height exactly when the message has text, that of the text |
| Finished.FinalHeaderHeight | bot_utils.py:83-89 | every header row gets height 20 |
| Scheduler.NextTrigger | bot.py:37-39 | the target is 09:05:00, strictly after now, and the earliest such instant |
| Scheduler.Wait | bot.py:40 | the sleep is positive and at most a day, a full day exactly at 09:05:00 |
| Scheduler.ReportLag | bot.py:36-42 | the reported day is the day before the send when now was before 09:05, and two days before it otherwise |
| Scheduler.RoundsAdvance | bot.py:35-44 | after a clock reading past 09:05 each round reports the next day, two days late |
| Scheduler.EarlyStartRepeats | bot.py:35-44 | a first reading before 09:05 makes the second round report the same day again |
| Scheduler.EarlyStartExample | bot.py:35-44 | a start at 08:00 on day 10 reports day 9 on day 10 and again on day 11 |
| Scheduler.WaitExamples | bot.py:37-40 | at 09:06 the sleep is 23 h 59 min to the next day; at 09:00 it is 5 min |
| Scheduler.WakeReportedDay | bot.py:42 | the day whose 09:05 is the last at or before now: the day before the send |
| Scheduler.WakeRoundsAdvance | bot.py:42 | reporting the day before the send, consecutive rounds report consecutive days from any start |
| Commands.ParseDmy | bot.py:153-154 | an accepted text names a valid calendar date |
| Commands.ParseDmyText | bot.py:153-154 | every date reads back from its own "DD-MM-YYYY" text |
| Commands.DmyTextParsed | bot.py:171 | an accepted text is the "DD-MM-YYYY" text of the date read |
| Commands.PeriodUsage | bot.py:145-147 | any argument count but 2 gets the usage reply and nothing else |
| Commands.PeriodBadDate | bot.py:152-157 | two arguments not both "DD-MM-YYYY" dates get the date-format reply, and only they do |
| Commands.PeriodLabelArgs | bot.py:171 | the label of two accepted arguments is the arguments joined by "_to_" |
| Commands.PeriodOutcome | bot.py:163-174 | with valid dates: not found iff no conversation, raised iff some conversation is not ready, a document otherwise (openpyxl's string check and row limit aside, see Left out) |
| Commands.PeriodDocument | bot.py:171-183 | the document is named "conversations-"+start+"_to_"+end+".xlsx", with caption "Отзывы за период "+start+" — "+end, and holds the export of the period's conversations |
| Commands.Period | bot.py:145-183 | the handler's steps give exactly `PeriodAnswer` |

## Left out

- The Telegram side is left out: `/start`, `/today`, `/yesterday`, `echo`, `send_document`, `reply_document`, the application wiring and `main`. The `/period` reply is returned as a value instead.
- The SQLite readers `get_todays_messages` and `get_messages_between_dates` are left out. The look-up is a function parameter `fetch` of `/period`.
- The daily loop itself is left out: `while True`, `asyncio.sleep`, `datetime.now` and the Asia/Almaty zone. The clock is an integer (day, microseconds since midnight) reading passed in. The wait is in microseconds rather than float seconds.
- The daily report's strings are left out: turning the reported day number into "%Y-%m-%d" and "%d-%m-%Y" text, and the daily caption and file name. The day is modelled as a day number only.
- Commands.ParseDmy: accepts only the fixed-width "DD-MM-YYYY" form. `strptime` also accepts single-digit day and month fields.
- Timestamps.CleanDatetime: `datetime.fromisoformat` is modelled on the fixed-width shapes only. These are "YYYY-MM-DD?HH:MM:SS", optionally followed by "±HH:MM". Other ISO forms read as failures of the ISO reading, as are fractional seconds, "Z", and date-only or week-date forms. The offset's fields are not range-checked one by one, only its total is bounded below 24 hours, as `timezone` bounds it.
- Timestamps.StrpTime: reads only the fixed-width "YYYY-MM-DD HH:MM:SS" form. Python's `strptime` also accepts one-digit month, day, hour, minute and second fields, a space-padded day, any run of whitespace for the space, and non-ASCII digits. Such a stamp, for example "2025-8-31 9:39:14 +05", is an error in the model and normalises in the program, so the model's export fails where the program's succeeds.
- Timestamps.CleanFallback: its result equals the stripped text only because the modelled reading is fixed-width. Under Python's `strptime` the result is the fields written back in canonical form.
- Timestamps.StrpTimeInverse: holds of the fixed-width reading only, not of Python's `strptime`.
- Timestamps.Format: years before 1000 are written with four digits. strftime's %Y pads such years differently on different platforms.
- Several openpyxl details are left out:
  - fonts and alignment beyond the bold and wrap flags, including vertical="top";
  - `get_column_letter`;
  - the sheet title "Диалоги";
  - `wb.save` and the file path.
- Exporter.ExportWith: openpyxl's check of every string written to a cell is not modelled. A value with a control character in \x00-\x08, \x0b, \x0c or \x0e-\x1f raises IllegalCharacterError, and a value longer than 32767 characters is cut to that length. The model writes every text as given. For such message texts the program fails where the model succeeds, or gets other widths and heights. openpyxl's row limit is not modelled either: `ws.cell` raises ValueError for a row above 1048576, which a title row or a wrapped message row reaches for a large enough period. The model's sheet has no last row, so there it succeeds.
- Exporter.AppendBlocks: the same string check is not modelled, so a block whose text holds an illegal character is written instead of raising. Nor is the row limit, so a block that reaches past row 1048576 is written too.
- Commands.PeriodOutcome: the raise of openpyxl's string check is not among the "raised" cases. Nor is the raise of `ws.cell` past row 1048576. A `/period` whose messages hold an illegal character, or fill more rows than a sheet has, gets a document in the model and an error in the program.
- Iteration over `ws.columns` and `ws.iter_rows` creates empty cells in openpyxl. The model does not create them. It reads only existing cells, which gives the same widths and heights.
- A None cell value is modelled as the empty string. `str(cell.value)` of a non-string is not modelled, because every value the report writes is a string.
- `os.remove` of the temporary file, `load_dotenv`, environment variables and logging are left out.
- The classes in models.py are left out. bot.py shadows them with its own dataclasses, which are the ones modelled.

Where the code and its documentation differ, the model follows the code:

- A row's wrap factor is `len(text) // 80 + 1`, one more line at exact multiples of 80.
- Conversations come in the order of each client's first message, which is the dictionary's insertion order.
- The reported day is computed from the clock reading taken before the sleep (see Findings).

## Findings

| source | as written | input that shows it | evidently intended | confidence | as-written member | corrected member |
|---|---|---|---|---|---|---|
| bot.py:36-44 | `yesterday_date = now - timedelta(days=1)` uses `now` read before the sleep | bot started at 08:00 on day 10: it reports day 9 at 09:05 on day 10, reads the clock a second later, and reports day 9 again at 09:05 on day 11; from then on every report is two days old | report the day before the day the report is sent | medium, not executed | Scheduler.EarlyStartExample | Scheduler.WakeRoundsAdvance |
