# cat_time: subscriber store and daily broadcast, modelled in Dafny

The bot keeps its subscribers in SQLite and, on every hourly cron tick,
sends one cat picture to each of them. This project models that core:

- the `users` and `bot_users` tables of `database/users.py` and
  `database/bot_users.py`, as the class `Database.Connection`. Each table is
  a map keyed by `user_id`. A `connected` flag stands for the process-wide
  connection having been initialised.
- the older store of `cat_bot/database.py` (user_id → subscribed_at), as the class
  `LegacyStore.SubscriberDb`. A `tableExists` flag records whether `init_db`
  has created the table.
- the tick `send_daily_cats` in both versions (`services/scheduler.py`,
  modelled in `Dispatch`, and the older `scheduler.py`, modelled in
  `LegacyScheduler`). Both share one statement on values in `Broadcast`:
  - `SentCount` is the final `sent_count`.
  - `Reconcile` is the table after the loop.
  - `Refused` is the set of ids whose send raised TelegramForbiddenError or
    TelegramBadRequest.
- the row decoders `User.from_row` and `BotUser.from_row` of
  `database/models.py`, in `Models`.

The image fetch is an input, `image: Option<string>`. The Telegram send is an
input too: a function `send` from chat id to one of `Delivered`,
`Forbidden`, `BadRequest` or `OtherError`. The tick is aborted when the image
is missing or empty, as Python's `not image_url` is. SQL queries without
ORDER BY are modelled as listing keys in ascending order (`Listing`).

The tick is wired to an hourly cron (`bot.py:46-53`). The comment at
`bot.py:47` says each run should "check if any users should receive their
daily cat". Yet `services/scheduler.py:21` sends to every subscriber on
every run, without reading `daily_cat_time` or `timezone`. The model does
the same. No code range-checks the hour, and `UpdateUserTime` accepts any
integer.

## Model

| member | source | states |
|---|---|---|
| `Database.Connection.IsUserSubscribed` | database/users.py:9-23 | the query itself: a row with that key exists on a live connection; what it promises is stated against the commands in `AddUser` (true after an insert), `RemoveUser` (false after a delete, others unchanged) and `GetAllUsers` (true exactly for listed ids) |
| `Database.Connection.AddUser` | database/users.py:26-47 | insert-if-absent with defaults hour 9 and "Europe/Moscow"; a duplicate leaves the table unchanged (the stored timezone is not overwritten); a new row then appears in the listing; no connection changes nothing |
| `Database.Connection.RemoveUser` | database/users.py:50-61 | the user is afterwards not subscribed; every other user keeps its status; removing an absent user is a no-op, so a second call is idempotent |
| `Database.Connection.GetAllUsers` | database/users.py:64-76 | lists exactly the subscribed ids, each once (strictly increasing); empty without a connection |
| `Database.Connection.GetUsersWithTimes` | database/users.py:79-93 | one triple per subscribed id, in the order of `GetAllUsers`, carrying that row's hour and the timezone `GetUserTimezone` reports |
| `Database.Connection.UpdateUserTime` | database/users.py:96-112 | only that user's hour changes, to any integer; no-op for an absent user or without a connection; the timezone is untouched |
| `Database.Connection.GetUserTimezone` | database/users.py:115-132 | the query itself: the stored timezone, or "Europe/Moscow"; what it promises is stated in `AddUser` (a duplicate add keeps the timezone), `UpdateUserTimezone` (returns the new one afterwards), `UpdateUserTime` (unchanged by an hour update) and `GetUsersWithTimes` (agrees with the listing) |
| `Database.Connection.UpdateUserTimezone` | database/users.py:135-151 | only that user's timezone changes; no-op for an absent user or without a connection |
| `Database.Connection.IsBotUser` | database/bot_users.py:9-23 | the query itself: a `bot_users` row exists on a live connection; what it promises is stated in `AddBotUser` (true after an add), `GetAllBotUsers` (true exactly for listed ids) and `GetNonSubscribedBotUsers` |
| `Database.Connection.AddBotUser` | database/bot_users.py:26-44 | insert-if-absent into `bot_users` only; a duplicate leaves the table unchanged; `GetFirstUsedAt` then reports the timestamp of the first use (the assumed CURRENT_TIMESTAMP default), never overwritten by a later add, and no other user's timestamp changes; the `users` table is not in its frame |
| `Database.Connection.GetAllBotUsers` | database/bot_users.py:47-59 | lists exactly the ids of `bot_users`, each once |
| `Database.Connection.GetNonSubscribedBotUsers` | database/bot_users.py:62-80 | an id is listed if and only if it is a bot user and not a subscriber; each once |
| `Database.Connection.GetFirstUsedAt` | database/bot_users.py:83-97 | a timestamp exactly for bot users (`IsBotUser`, with `first_used_at` assumed never NULL), None otherwise; its value over time is stated in `AddBotUser` |
| `LegacyStore.SubscriberDb.InitDb` | cat_bot/database.py:7-17 | afterwards the table exists and every existing row is intact |
| `LegacyStore.SubscriberDb.IsUserSubscribed` | cat_bot/database.py:19-23 | no answer (the query raises) before the table exists, otherwise true exactly for stored ids; stated against the commands in `AddUser` (true after an add or duplicate), `RemoveUser` (false after a delete, others unchanged) and `GetAllUsers` (true exactly for listed ids) |
| `LegacyStore.SubscriberDb.AddUser` | cat_bot/database.py:25-33 | inserts an absent id with its `subscribed_at`; a duplicate is caught and changes nothing; no stored `subscribed_at` ever changes; with the table present the id is subscribed afterwards |
| `LegacyStore.SubscriberDb.RemoveUser` | cat_bot/database.py:35-40 | the id is gone (`IsUserSubscribed` answers false), all other rows, their status and their `subscribed_at` are unchanged, and removing an absent id is a no-op |
| `LegacyStore.SubscriberDb.GetAllUsers` | cat_bot/database.py:42-47 | every id `IsUserSubscribed` affirms, exactly once; no answer before the table exists |
| `Listing.Ascending` | database/users.py:72-73 | the listing of a key set has every key exactly once, in ascending order, and nothing else |
| `Models.UserFromRow` | database/models.py:21-35 | succeeds exactly on rows of 2 or 3 cells; `user_id` and `subscribed_at` come from cells 0 and 1; the hour is cell 2 or the default 9; the timezone is always "UTC"; other lengths give the ValueError |
| `Models.UserRoundTrip` | database/models.py:8-35 | storing a user as a row and decoding it gives the user back exactly when its timezone is the default "UTC" |
| `Models.RowRoundTrip` | database/models.py:27-33 | a three-cell row decodes and re-encodes to itself |
| `Models.BotUserFromRow` | database/models.py:45-49 | succeeds exactly on two-cell rows, giving (user_id, first_used_at); other lengths fail to unpack |
| `Models.BotUserRoundTrip` | database/models.py:38-49 | a bot user written as a pair decodes back to itself |
| `Broadcast.SentCount` | services/scheduler.py:20-37 | `sent_count` is at most the number of snapshot ids, and equals it exactly when every send was delivered |
| `Broadcast.Reconcile` | services/scheduler.py:21-33 | the loop only deletes rows: it adds no key and changes no stored value |
| `Broadcast.ReconcileIsRemoval` | scheduler.py:37-49 | the table after the loop is the table before it minus the ids whose send was Forbidden or BadRequest |
| `Broadcast.TickFate` | services/scheduler.py:25-33 | a refused id is gone; a delivered id, one with any other error, or one outside the snapshot keeps its row unchanged |
| `Broadcast.RemovedExactlyRefused` | scheduler.py:45-47 | for a snapshot of stored ids, the deleted ids are exactly the refused ones |
| `Dispatch.SendDailyCats` | services/scheduler.py:10-37 | a missing or empty image aborts with the store unchanged; otherwise every id of the snapshot, taken before any removal, is attempted once in order, the report carries `SentCount`, and the store loses exactly the refused ids |
| `Dispatch.SendToEach` | services/scheduler.py:20-33 | the loop attempts each id in order, counts deliveries and deletes refused users, one iteration at a time |
| `Dispatch.BlockedUserDroppedTransientKept` | services/scheduler.py:21-33 | one worked example on the loop's effect `Reconcile`: in the table {7, 8}, 7 (Forbidden) is dropped and 8 (another error) keeps hour 9 and "Europe/Moscow"; the general statement for any user is `Broadcast.TickFate` |
| `LegacyScheduler.SendDailyCats` | scheduler.py:26-51 | a missing table raises before anything is sent; a missing image aborts; otherwise each snapshot id is attempted once in order, `sent_count` is the number of deliveries, and the store loses exactly the refused ids |
| `LegacyScheduler.SendToEach` | scheduler.py:36-49 | the loop attempts each id in order, counts deliveries and deletes refused users, one iteration at a time |

## Left out

- Timezone conversion (`utils/common.py`) and any due-hour filter: the tick never calls them, so there is nothing to model.
- All chat handlers, keyboards and admin export (`users/`, `admin/`, `cat_bot/handlers.py`): user interface, not part of this model.
- `services/cat_api.py` and `get_cat_image_url` in `scheduler.py`: HTTP requests; their result is the `image` input.
- `bot.send_photo`: the Telegram call is the `send` input; the photo and caption arguments are not modelled.
- `bot.py`, `bot/core.py`, `config/settings.py`, `database/connection.py`: startup, cron registration, environment variables and schema creation.
- Logging, and async scheduling: every call is treated as sequential, one tick at a time.
- SQLite failures other than a duplicate key, a missing connection and a missing table (disk or lock errors): the model assumes each statement otherwise succeeds.
- The table schemas used by `database/users.py` and `database/bot_users.py` are not part of the source (the `users` schema in `database/connection.py` has neither column). The model assumes `users` has `daily_cat_time` and `timezone` columns, and that `bot_users.first_used_at` defaults to CURRENT_TIMESTAMP, so it is never NULL. `AddBotUser` and `GetFirstUsedAt` rely on this second assumption.
- The `subscribed_at` column of the newer `users` table: no operation of `database/users.py` reads or writes it.
- `Dispatch.SendToEach` and `LegacyScheduler.SendToEach` require that the connection or table that produced the snapshot still exists during the loop; the source never drops either mid-tick.
- `LegacyStore.SubscriberDb.Open` requires that a database file without the table has no rows.
- The listing order: SQL without ORDER BY promises none; the model fixes ascending key order.
