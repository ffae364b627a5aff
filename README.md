# Single-slot video bot, modelled in Dafny

The bot stores one video. The owner sends the bot a video, and the bot keeps that video's
platform-issued `file_id` in a single slot. Anyone who then invokes the bot through an
inline query in any chat is offered that video. The repository holds three versions of
this logic, and the model covers all three.

- **Polling bot** (`bot.py`), module `PollingBot` in `polling_bot.dfy`.
  - The module-global `stored_video` and the JSON state file are fields of the class `Bot`.
  - An optional owner id, parsed from a digit string, guards the store and clear handlers.
  - The handlers are specified by pure transition functions: `StoreStep`, `ClearStep`, `Loaded` and `Written`.
  - The lemmas cover the owner guard, persistence, last-write-wins over any run of commands, the inline answer and the status reply.
- **Package bot** (`bot/db.py`, `bot/handlers.py`), modules `VideoDb` in `video_db.dfy` and `PackageHandlers` in `package_handlers.dfy`.
  - The SQLite database file is the class `DatabaseFile`. Its `stored_video` table is a map from the primary key to a row.
  - `VideoStorage` is a handle on that file. Two handles on one path share one table.
  - `CHECK (id = 1)` is the invariant `OneRowTable`. Lemmas show that every operation keeps it, that there is no delete, and that the last upsert wins.
  - `handle_start` is a function of the message and the owner id. The other three handlers are methods over `VideoStorage`.
- **Unguarded bot** (`handlers/`), modules `VideoHandlers`, `CommandHandlers` and `InlineHandlers`.
  - The global slot is the class `VideoSlot`. It is set by `store_video` and cleared by `clear_video`, with no identity check.
  - `handlers/inline_handlers.py` imports `stored_video` by name when the module loads. It therefore answers from a frozen copy of the slot (see Findings).

The shared modules are `Wrappers` (`Option`), `Strings` and `Telegram`.
- `Strings` holds Python truthiness, `s[-n:]`, and ASCII-digit `isdigit`/`int` with their decimal rendering.
- `Telegram` holds the incoming-message fields and the inline-answer records the handlers produce.

Outside inputs become parameters:
- the bot's username;
- the sender id and video of a message;
- whether an inline query is present;
- the timestamp `datetime.utcnow().isoformat()`;
- the outcome of writing the state file (`Saved`, `OpenFailed` with the file untouched, or `WriteFailed` with the file truncated and unreadable).

Points where the code behaves differently from what a reader might expect; the model follows the code:
- A failed `load_state` leaves the in-memory slot unchanged (`bot.py:39-46`). It does not reset the slot to empty.
- There is no key-value backend in these files. Persistence is only the local file (`bot.py`) or SQLite (`bot/db.py`).
- In `bot/handlers.py`, an empty slot is answered with an empty result list plus a switch-to-private-chat button. It does not get a placeholder result.
- The unguarded inline handler passes neither a cache time nor a personal flag. The platform defaults apply, modelled as `cacheTime == None` and `isPersonal == false`.
- In `bot/db.py`, `has_video` is true for a stored empty `file_id`. `handle_inline_query` treats that same id as "no video", because it tests truthiness. Both methods state this difference in their contracts.

## Model

| member | source | states |
|---|---|---|
| Strings.LastChars | bot.py:112 | `s[-n:]` has length min(n, len(s)) and is the suffix of `s` of that length |
| Strings.Decimal | bot.py:139 | the decimal rendering of a non-negative int is a non-empty string of ASCII digits with no leading zero |
| Strings.DecimalRoundTrip | bot.py:32 | `int()` applied to the decimal rendering of `n` gives `n` back |
| PollingBot.ParseOwnerIdOfDecimal | bot.py:31-32 | an owner id written in decimal in `OWNER_ID` configures exactly that owner |
| PollingBot.ParseOwnerIdRejects | bot.py:31-32 | an unset or empty variable, or one containing a sign or any non-digit, configures no owner |
| PollingBot.ParseOwnerIdLeadingZero | bot.py:32 | leading zeros do not change the configured owner id |
| PollingBot.OpenModeAdmitsAnyone | bot.py:67 | with no owner configured, every sender, including an absent one, passes the guard |
| PollingBot.OwnerGuard | bot.py:66-69 | with an owner configured, a sender passes exactly when its id equals the owner id; an absent sender never passes |
| PollingBot.SaveLoadRoundTrip | bot.py:36-55 | after a successful `save_state`, `load_state` restores exactly the saved value, including `None` |
| PollingBot.LoadFailuresKeepMemory | bot.py:36-46 | a missing or unreadable file leaves memory unchanged; a document without the key loads as `None` |
| PollingBot.LoadThenSaveKeepsDurableValue | bot.py:36-55 | loading at a cold start and saving straight back leaves unchanged the value that a restart would load |
| PollingBot.RefusedSenderChangesNothing | bot.py:66-129 | when an owner is set and the sender is someone else or absent, store and clear change neither slot nor file and reply with their rejection texts |
| PollingBot.OpenModeStoreAndClear | bot.py:63-132 | with no owner, any sender's video becomes the slot and any sender's clear empties it |
| PollingBot.StoreSetsSlotAndPersists | bot.py:73-79 | a message that passes the guard but has no video changes nothing and gets the "send a video" reply; a video becomes the slot, and after a successful save a restart loads it |
| PollingBot.FailedSaveKeepsMemoryOnly | bot.py:48-79 | a failed save keeps the new value in memory; a restart then sees the previous durable value (open failed) or nothing (file truncated) |
| PollingBot.ClearIdempotent | bot.py:121-132 | clearing twice gives the same state as clearing once, for any sender |
| PollingBot.RunLastWriteWins | bot.py:63-132 | after any sequence of store and clear commands, the slot holds the value of the last command that passed the guard and wrote (its file id, or `None` for a clear) |
| PollingBot.RefusedRunChangesNothing | bot.py:66-129 | a sequence of commands none of which passes the guard leaves slot and file unchanged |
| PollingBot.InlineAnswerFor | bot.py:85-119 | every inline answer has exactly one result, `cache_time` 0, is personal, and has no switch button |
| PollingBot.InlineAnswerServesSlot | bot.py:93-117 | a falsy slot (`None` or `""`) gets the `"no_video"` placeholder; a truthy slot gets a cached-video result whose file id is exactly the slot and whose id is `VideoResultId` of it |
| PollingBot.VideoResultIdShape | bot.py:112 | the result id is `"vid_"` followed by a suffix of the file id, 4 to 36 characters long, and never equal to `"no_video"` |
| PollingBot.VideoResultIdDeterminedBySuffix | bot.py:112 | two file ids get the same result id exactly when their last 32 characters agree |
| PollingBot.VideoResultIdInjectiveOnShortIds | bot.py:112 | distinct file ids of at most 32 characters get distinct result ids |
| PollingBot.StatusReportsTail | bot.py:137-142 | a truthy slot is reported with its last ≤8 characters; the reply is the fixed "No video stored" text exactly when the slot is falsy |
| PollingBot.StatusReportsOwner | bot.py:139-140 | with an owner configured, the report of a truthy slot names the owner id in decimal |
| PollingBot.OwnerScenario | bot.py:63-132 | owner 42 stores `"ABCDEF123"`, the inline answer re-sends it, user 99 cannot clear it, the owner clears it, and the next answer is the placeholder |
| PollingBot.Bot.constructor | bot.py:27-32 | at module load the slot is `None` and `OWNER_ID` is parsed from the environment |
| PollingBot.Bot.LoadState | bot.py:36-46 | the new slot is the one `Loaded` gives for the file on disk and the old slot; the file is not written |
| PollingBot.Bot.SaveState | bot.py:48-55 | the file becomes the one `Written` gives for the slot and the outcome; the slot is not changed |
| PollingBot.Bot.StoreVideoHandler | bot.py:63-83 | the new slot and file are `StoreStep` of the old ones (guard, then video check, then set and save), and the reply is `StoreReply` |
| PollingBot.Bot.ClearVideo | bot.py:121-132 | the new slot and file are `ClearStep` of the old ones (guard, then set to `None` and save), and the reply is `ClearReply` |
| VideoDb.FreshTableIsEmpty | bot/db.py:7-13 | a freshly created table has no row, so the query returns `None` |
| VideoDb.ReinitializeKeepsRow | bot/db.py:8 | `CREATE TABLE IF NOT EXISTS` keeps an existing table and its row |
| VideoDb.UpsertReplacesRow | bot/db.py:33-46 | after an upsert the table is exactly row 1 with the new `file_id` and `created_at`, and the query returns that file id |
| VideoDb.ApplyAllKeepsOneRow | bot/db.py:9 | every run of initialize, upsert and query operations keeps the table present and holding no key other than 1 |
| VideoDb.NoDeleteOnceStored | bot/db.py:16-55 | once row 1 exists, every later run of operations still has a video |
| VideoDb.LastUpsertWins | bot/db.py:33-52 | after any run of operations, the query returns the file id of the last upsert, or the initial one if there was none |
| VideoDb.DatabaseFile.constructor | bot/db.py:7-13 | a database file as found on disk, possibly without the table, whose rows satisfy the check constraint |
| VideoDb.VideoStorage.constructor | bot/db.py:17-20 | opening a storage runs the schema statement, so the table exists and an existing row is kept |
| VideoDb.VideoStorage.Initialize | bot/db.py:27-31 | the table becomes `Initialized` of the old one, satisfying the one-row invariant |
| VideoDb.VideoStorage.UpsertVideo | bot/db.py:33-46 | row 1 becomes `(file_id, now)`, the one-row invariant is kept, and the stored id is `file_id` |
| VideoDb.VideoStorage.GetVideoFileId | bot/db.py:48-52 | returns the file id of row 1, and is `None` exactly when the table is empty |
| VideoDb.VideoStorage.HasVideo | bot/db.py:54-55 | true exactly when `get_video_file_id` would return something other than `None` |
| PackageHandlers.HandleStart | bot/handlers.py:14-26 | no reply without a message; the owner greeting exactly when the sender id equals the owner id, the inline greeting otherwise |
| PackageHandlers.HandleStatus | bot/handlers.py:29-37 | no reply without a message; otherwise the reply depends only on whether storage holds a row |
| PackageHandlers.HandleOwnerVideo | bot/handlers.py:40-54 | storage changes, to row 1 holding the video's file id, only for a message from the owner that has a video; every other message leaves storage unchanged and gets no reply |
| PackageHandlers.HandleInlineQuery | bot/handlers.py:57-82 | no answer without a query; a falsy stored id gets no results and a switch-to-private-chat button with parameter `"start"`; a truthy one gets exactly one cached result `"video-1"` with that file id; both are cached 2 s and personal |
| VideoHandlers.VideoSlot.constructor | handlers/video_handlers.py:8 | the slot starts as `None` at module load |
| VideoHandlers.VideoSlot.StoreVideo | handlers/video_handlers.py:10-19 | without a video, the slot is unchanged and the reply is an error; with one, the slot becomes its file id, whoever sent it |
| CommandHandlers.ClearVideo | handlers/command_handlers.py:37-42 | the slot becomes `None` whatever it held and whoever asked, so clearing is idempotent |
| CommandHandlers.VideoStatus | handlers/command_handlers.py:44-51 | reports "stored" exactly when the slot is truthy (an empty string reports as not stored), and does not change the slot |
| InlineHandlers.InlineAnswerFor | handlers/inline_handlers.py:10-43 | every answer is exactly one result with id `"1"`, with platform-default caching and not personal |
| InlineHandlers.InlineAnswerServesValue | handlers/inline_handlers.py:14-41 | a falsy value gets the "No video stored" text result; a truthy value gets a result whose file id is exactly that value |
| InlineHandlers.ImportedBinding.constructor | handlers/inline_handlers.py:8 | importing the module copies the slot's value at that moment |
| InlineHandlers.ImportedBinding.InlineQuery | handlers/inline_handlers.py:10-43 | the as-written handler answers from the import-time copy |
| InlineHandlers.ImportedBindingMissesStore | handlers/inline_handlers.py:8 | after the modules load and a video is stored, the as-written handler still answers "No video stored" |
| InlineHandlers.CorrectedAnswerFor | handlers/inline_handlers.py:14-41 | the corrected answer has one result with id `"1"`: the same placeholder for a falsy value, a cached video re-sending exactly the value for a truthy one |
| InlineHandlers.InlineQuery | handlers/inline_handlers.py:10-43 | the corrected handler answers from the slot's current value, with `CorrectedAnswerFor` |
| InlineHandlers.LiveQueryServesStore | handlers/inline_handlers.py:29-41 | after a video is stored, the corrected handler's one result is a cached video re-sending exactly that file id |

## Findings

| source | as written | input that shows it | evidently intended | confidence | as-written member | corrected member |
|---|---|---|---|---|---|---|
| handlers/inline_handlers.py:8 | `from .video_handlers import stored_video` binds a module-local name to the slot's value at import time (`None`). `store_video` and `clear_video` rebind only `handlers.video_handlers.stored_video`. | Load the modules, then send a video with file id `"F"`. The slot holds `"F"`, but an inline query still answers "No video stored". | Read `video_handlers.stored_video` at call time, as `clear_video` and `video_status` do, and build the video result as `InlineQueryResultCachedVideo(id, video_file_id=…)`, as `bot.py:111-116` does, so that the stored video is offered. The source's `InlineQueryResultVideo(video_file_id=…)` at lines 32-40 is not a valid call (it takes a URL and a MIME type), so reading the live slot alone would not be enough. | high; not executed | InlineHandlers.ImportedBindingMissesStore | InlineHandlers.LiveQueryServesStore |

## Left out

- `bot.py` `start`: a fixed greeting that neither reads nor changes the slot.
- `bot.py` `on_error`, `main` and all logging.
  - These are the error notification to the owner, the handler registration and `run_polling`.
  - `main` runs `load_state` once before polling. That is `Bot.LoadState` after the constructor.
- `handlers/command_handlers.py` `start_command` and `help_command`: text-only replies that never touch the slot.
- `bot/main.py`, `api/bot.py`, `config.py` and `bot/config.py`.
  - These are the dispatcher wiring, the webhook HTTP server and environment loading.
  - `bot/config.py` parses the owner id with `int()`, which accepts signs and whitespace. The package handlers therefore take `ownerId` as any integer.
- `bot/db.py` `_ensure_parent_directory`, the connection handling, WAL mode and SQL parsing.
  - The table is an abstract map.
  - A table dropped by someone else after `_initialize` is not modelled, so the query methods require that the table exists.
- Telegram SDK internals.
  - The reply and answer calls are modelled as returned values.
  - The SDK's argument checks are not modelled. Results are values that cannot fail to be built.
  - Transport errors while replying are not modelled.
- A missing `update.message` in `bot.py` and `handlers/` is not modelled. There it raises and goes to the error handler, so those handlers always receive a message.
  - `clear_video` (`bot.py:121-132`, `handlers/command_handlers.py:37-42`) raises only at `reply_text`. By then it has already cleared the slot, and in `bot.py` it has called `save_state()`. So an authorised update with no message still clears the video.
- JSON values other than strings or `null` under `stored_video`, and JSON that is not an object: the first is not modelled, and the second counts as `Unreadable`.
  - For the same reason, the `isinstance(stored_video, str)` test in `status` is always true here.
- InlineHandlers.InlineAnswerServesValue: its truthy clause models the result `handlers/inline_handlers.py:32-40` asks for. It does not capture that the SDK call there raises `TypeError`: `InlineQueryResultVideo` has no `video_file_id` parameter and requires `video_url` and `mime_type`. The corrected handler (`CorrectedAnswerFor`) uses a cached-video result instead.
- `async` scheduling and interleaving: each handler is one atomic step.
- PollingBot.ParseOwnerIdOfDecimal: Python's limit on integer-string conversion (3.11 and later) is not modelled. There, `int()` raises `ValueError` on a digit string longer than 4300 characters, so `bot.py:32` fails at import instead of configuring the owner.
- Non-ASCII digits: `str.isdigit()` accepts non-ASCII digits (for example `'²'`, on which `int()` then raises). The model treats only ASCII `0`-`9` as digits.
- The sender id in `Telegram.Message` is the message's `from_user` / `effective_user`. These coincide for the message updates the handlers receive.
