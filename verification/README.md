# Expense bot — a Dafny model

This project models the core of a small Telegram bot that records personal
expenses and reports a daily summary (`expense_bot.py`). It covers:

- the amount grammar `valid_amount` (a full match of `\d+`) and the `int(text)`
  conversion of accepted text (module `AmountText`);
- the `expenses` table as an append-only log whose ids are positions
  (module `Storage`);
- the `/add` conversation: the stages `SELECT_CATEGORY`, `OTHER_TYPE`, `AMOUNT`
  and the ended state, the per-user `user_data` ("category", "other"), and one
  pure function per handler (`add_start`, `select_category`, `other_type`,
  `amount`), plus runs of several messages (module `Conversation`);
- the `/daily` report: today's records grouped by `(category, other)`, summed,
  labelled, totalled, or the "no expenses" reply (module `Daily`);
- the bot as a whole: per-user stages and data, the shared log, and the
  `/start`, `/add`, `/daily` and text updates, with example conversations
  worked through as lemmas (module `Bot`).

The clock is a parameter: each record carries `day`, the calendar date of its
insert timestamp, and `/daily` takes `today`.

The code does not tie a subtype to the "boshqalar" category and never discards
`user_data` when a conversation ends:

- `other` is written by `other_type` and read with `.get` by `amount`, and
  nothing clears it. A subtype entered in one conversation is therefore stored
  on later records of any category. `Bot.StaleSubtypeScenario` shows this, and
  `Conversation.UserDataOnlyOverwritten` states it in general. The model does
  not claim that a record has a subtype exactly when its category is
  "boshqalar"; `Conversation.RunConsistent` proves only what the code keeps.
- The category is any text except the cancel entry, whether or not it is on the
  keyboard.

## Model

| member | source | states |
|---|---|---|
| AmountText.ValidAmount | expense_bot.py:48-49 | text is accepted exactly when it is non-empty and every character is a digit; accepted text contains no sign, decimal point, space, tab or newline |
| AmountText.ValidAmountExamples | expense_bot.py:48-49 | "120", "0" and "007" are accepted; "", "12.5", "-5", "+5", "12 ", " 12", "12\n", "1 000" and "abc" are refused (a full match rejects a trailing newline) |
| AmountText.Parse | expense_bot.py:119 | the value `int` gives a digit string is a natural number below 10 to the power of its length |
| AmountText.ParseShow | expense_bot.py:119 | reading back the decimal text of n gives n |
| AmountText.ShowParse | expense_bot.py:119 | an accepted text without a leading zero is exactly the decimal text of its value |
| AmountText.ParsePositive | expense_bot.py:119 | an accepted text not starting with '0' has a value of at least 1 |
| AmountText.LeadingZeros | expense_bot.py:119 | leading zeros do not change the stored amount ("007" stores 7) |
| AmountText.Show | expense_bot.py:155-158 | the decimal text of an amount is itself an accepted amount with no leading zero |
| Storage.Insert | expense_bot.py:114-125 | an insert appends the record at the next id and changes no stored record |
| Storage.Store | expense_bot.py:111-126 | after a handler the old log is kept as a prefix; the log grows by one record exactly when the handler inserts one, and that record is the last one |
| Conversation.AddStart | expense_bot.py:61-67 | `/add` enters SELECT_CATEGORY with the category keyboard, inserts nothing and keeps the user's earlier data |
| Conversation.SelectCategoryStep | expense_bot.py:70-93 | "bekor qilish" ends the conversation with the cancel reply and leaves the data alone; any other text is stored verbatim as the category and leads to OTHER_TYPE exactly when it is "boshqalar", else to AMOUNT; no record |
| Conversation.OtherTypeStep | expense_bot.py:96-99 | the text becomes the subtype, the category is untouched, the next stage is always AMOUNT; no record |
| Conversation.AmountStep | expense_bot.py:102-129 | the conversation always ends and the data are kept; a record is inserted exactly when the text is a valid amount, and it holds the user, the day, the text's value and the current category and subtype (stale or not); otherwise the error reply |
| Conversation.Step | expense_bot.py:168-176 | a text message runs the handler of the user's stage: with no conversation in progress nothing changes and nothing is said; a record is stored exactly in AMOUNT on a valid amount, and AMOUNT always ends; OTHER_TYPE is entered exactly from SELECT_CATEGORY on "boshqalar"; AMOUNT is entered exactly from OTHER_TYPE or from SELECT_CATEGORY on a text that is neither the cancel entry nor "boshqalar"; only SELECT_CATEGORY changes the category and only OTHER_TYPE changes the subtype, each to the text sent |
| Conversation.StepConsistent | expense_bot.py:80-99 | each handler keeps "OTHER_TYPE only after boshqalar, AMOUNT only after some category", and only inserts records that have a category |
| Conversation.RunConsistent | expense_bot.py:70-129 | from any consistent point, for any messages, every stage reached stays consistent and every inserted record has a category |
| Conversation.EndIsQuiet | expense_bot.py:168-176 | once the conversation has ended, further text neither changes data nor inserts |
| Conversation.AtMostOneRecord | expense_bot.py:102-129 | a run of messages inserts at most one record, and the conversation is over once it has |
| Conversation.UserDataOnlyOverwritten | expense_bot.py:80-97 | nothing clears `user_data`: after any messages, category and subtype each hold their old value or one of the texts sent |
| Daily.OnDay | expense_bot.py:136-141 | a record is selected exactly when it is in the log and its day is today |
| Daily.OnDayCounts | expense_bot.py:136-141 | each of today's records is selected as many times as it occurs in the log, duplicates included, and no record of another day is |
| Daily.Keys | expense_bot.py:139 | the groups are distinct and are exactly the `(category, other)` pairs of the selected records |
| Daily.RowsFor | expense_bot.py:139 | each result row is a group with the sum of the amounts of the records in that group |
| Daily.Summarize | expense_bot.py:150-158 | the report loop labels each row (subtype for "boshqalar", category otherwise) with its sum, in row order, and its total is the sum of the row sums |
| Daily.DailyReport | expense_bot.py:132-158 | "no expenses" exactly when no record is from today; otherwise one line per group with that group's exact sum and label, and a total equal to the sum of all of today's amounts read straight off the log |
| Daily.OnDayTotal | expense_bot.py:136-141 | the selected records' amounts add up to the sum of today's amounts over the whole log, so no same-day record is lost or counted twice |
| Daily.GroupTotalIsTotal | expense_bot.py:139 | the group sums add up to the sum of all selected amounts |
| Daily.SumRowsSnoc | expense_bot.py:139 | one more record adds its amount once to the sum over distinct groups when its group is among them, and nothing otherwise |
| Daily.AbsentKeyTotal | expense_bot.py:139 | a group with no record sums to zero |
| Daily.OtherDaysIgnored | expense_bot.py:136-141 | inserting a record of another day leaves today's rows unchanged |
| Daily.ReportText | expense_bot.py:146-158 | with no rows the reply is exactly "Bugun harajat yo'q."; otherwise it starts with the header and ends with "Umumiy: " and the grand total |
| Bot.Handle | expense_bot.py:168-180 | an update changes only its sender's stage and data; the log only grows, by at most one record of that sender and day; `/start` and `/daily` change nothing; `/add` enters SELECT_CATEGORY keeping the data |
| Bot.DailyIsReadOnly | expense_bot.py:132-160 | any number of `/daily` requests leave stages, data and log as they were |
| Bot.SessionIsolation | expense_bot.py:168-176 | one user's updates never change another user's stage or data |
| Bot.LogIsAppendOnly | expense_bot.py:111-126 | stored records are never changed or removed |
| Bot.PlainEntry | expense_bot.py:61-129 | for a user with no conversation in progress, `/add`, a category other than "boshqalar" or the cancel entry, and a valid amount store exactly one record of that user and day with that category, the amount's value and whatever subtype the user's data still held, end the conversation, and reply keyboard, amount prompt, saved |
| Bot.OtherEntry | expense_bot.py:61-129 | for a user with no conversation in progress, `/add`, "boshqalar", a subtype and a valid amount store exactly one record with category "boshqalar" and that subtype, and end the conversation |
| Bot.InvalidEntry | expense_bot.py:102-109 | for a user with no conversation in progress, `/add`, a category and text that is not an amount store nothing, reply with the error and end the conversation |
| Bot.CancelEntry | expense_bot.py:73-78 | for a user with no conversation in progress, `/add` and "bekor qilish" store nothing, keep the user's data, reply with the cancellation and end the conversation |
| Bot.FoodScenario | expense_bot.py:61-129 | `/add`, "ovqatlanish", "50000" from a new user stores the one record (50000, "ovqatlanish", no subtype) and replies with the saved acknowledgment |
| Bot.OtherScenario | expense_bot.py:61-158 | `/add`, "boshqalar", "kitob", "30000" from a new user stores one record with subtype "kitob", and that day's report has the single line "kitob" with 30000 and total 30000 |
| Bot.InvalidAmountScenario | expense_bot.py:102-109 | `/add`, "transport", "abc" from a new user stores nothing, replies with the error and ends the conversation |
| Bot.StaleSubtypeScenario | expense_bot.py:97-121 | after a "boshqalar"/"kitob" entry, a later "transport" entry of 50 is stored with the subtype "kitob" |

## Left out

- Telegram transport, reply keyboards, `main`, `run_polling`, logging and the
  `BOT_TOKEN` lookup: I/O and a foreign library. Replies are modelled as
  constructors with their texts; keyboard markup is not modelled.
- Which updates the library's `ConversationHandler` hands to which handler
  (`/add` in mid-conversation, command filtering, `allow_reentry`, per-chat
  keys) is library code that is not part of this model. `Bot.Handle` runs
  `add_start` whenever an `/add` update is given to it, and runs the handler of
  the sender's stage for a text update.
- Storage.Insert: ids are 0-based log positions, where SQLite's AUTOINCREMENT
  starts at 1; only their order and uniqueness are modelled.
- The SQLite connection, schema creation and commit; a failing database
  (storage errors) is not modelled: every insert succeeds.
- Conversation.AmountStep: does not model sqlite3 refusing integers above
  2^63 − 1 (an `OverflowError` raised during the insert); the model stores any
  accepted amount.
- Daily.DailyReport: does not model SQLite's integer overflow in `SUM`. SQL leaves
  the row order open; the model lists groups in order of first insertion, and no
  property here depends on that order.
- AmountText.ValidAmount: digits are the ASCII digits only; Python's `\d` on text
  also accepts other Unicode decimal digits, which `int` converts as well.
- `datetime.utcnow()` and SQLite's `date(ts)`: replaced by the `day` field of a
  record and the `today` parameter.
- Daily.ReportText: the text of the per-group lines is rendered but its
  contract states only the fixed parts (the empty reply, header and total line).
