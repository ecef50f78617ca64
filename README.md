# Appointment booking bot — a Dafny model

The bot walks a user through a three-step inline-keyboard dialogue: pick a
service language (`ru`, `en` or `ka`), pick one of the next three days, and
pick an hourly slot from 12:00 to 21:00. It then writes the booking into
`appointments.json`, a nested map `date -> (time -> language)`, and ends the
conversation. Slots already booked are shown in the time menu with a cross
and the booked language, and their buttons send the sentinel `"taken"`.
The last handler answers the sentinel by keeping the dialogue at the time
step with nothing changed, and tries to show an alert.

The model has five modules:

- `Render` (render.dfy): Python's `f"{n}"` for natural numbers, with its inverse.
- `Appointments` (appointments.dfy): the slot catalog, the three keyboards,
  the store and the booking write `Book`, and `appointments.json` as a value
  that is either absent or holds a store.
- `Dialogue` (dialogue.dfy): the states `Language`, `Date`, `Time` and `End`,
  one function per handler (`Start`, `LanguageSelected`, `DateSelected`,
  `TimeSelected`, `Cancel`), the conversation's routing of updates (`Step`,
  `Run`), and the properties of whole dialogues.
- `Bot` (bot.dfy): the handlers as the bot runs them. `user_data` is a
  class whose fields they write in place. The file is a class read by
  `Load` and rewritten by `Save`. The time keyboard is built by a loop.
  Each method is proved to agree with its `Dialogue` function.
- `Wrappers` (wrappers.dfy): `Option`.

Dates are day numbers. The clock's "today" is a parameter, carried by each
button press. A day's key (`DayKey`) is its decimal text. It stands for the
ISO date the bot uses as both button label and callback data.

The model follows what the code does, including where it falls short of
what the bot is meant to do:

- `time_selected` does not check again whether the slot is free. A menu
  shown before another user booked the slot still offers it, and pressing it
  overwrites that booking (`Dialogue.StaleMenuOverwrites`). The code does
  not re-check at write time and reject a slot booked since the menu was shown.
- A booking stores only the language string, not the user's identity.
- `user_data` is never cleared. The selections outlive a finished or
  cancelled dialogue, and the next dialogue overwrites them one by one.
- Callback data is not checked against the menu that was shown. Whatever a
  button sends is recorded as the language or the date. In the time step,
  anything other than `"taken"` is booked as the time.

## Model

| member | source | states |
|---|---|---|
| `Render.DecimalRoundTrip` | async_bot.py:70 | reading back the decimal text of an hour gives the hour, so distinct hours get distinct labels |
| `Appointments.SaveData` | async_bot.py:23-32 | loading the file that `save_data` wrote gives back exactly the saved store (an absent file loads as the empty store) |
| `Appointments.LanguageMenuOffersLanguages` | async_bot.py:36-40 | the language menu's callbacks are `ru`, `en`, `ka`, in that order |
| `Appointments.DateMenuOffersNextDays` | async_bot.py:51-54 | a day's key is offered if and only if the day is today, tomorrow or the day after, and every button shows the date it sends |
| `Appointments.DateMenuDistinct` | async_bot.py:51-54 | no date is offered twice |
| `Appointments.SlotsAreHourly` | async_bot.py:69-70 | the day's slots are exactly `12:00`, `13:00`, …, `21:00`, in order |
| `Appointments.SlotsDistinct` | async_bot.py:69-73 | slot labels are pairwise distinct and none equals the sentinel `"taken"` |
| `Appointments.TimeMenuMarksTaken` | async_bot.py:68-77 | the time menu has 10 buttons in slot order; a booked slot's button shows time, cross and booked language and sends `"taken"`; a free slot's button shows and sends its time; a button sends `"taken"` if and only if its slot is booked |
| `Appointments.SelectableAreFree` | async_bot.py:71-77 | the non-sentinel callbacks of the time menu are exactly the free slots, so no booked slot is selectable |
| `Appointments.Book` | async_bot.py:100-103 | after the write the slot holds the language; the date keys are the old ones plus the date; the date's slot keys are its old ones plus the time; every other slot of the date and every other date keep their values |
| `Appointments.BookNewDate` | async_bot.py:100-103 | booking on a date not in the store adds that date with a one-entry map and one more date key |
| `Appointments.BookOverwrites` | async_bot.py:103 | booking an already booked slot replaces its language and grows neither the date keys nor the date's slot keys |
| `Appointments.BookLastWriteWins` | async_bot.py:103 | of two bookings of the same slot only the later language remains |
| `Appointments.BookedSlotShowsTaken` | async_bot.py:64-77 | once a slot is booked, that date's time menu shows it as taken with the booked language and makes it send `"taken"` |
| `Dialogue.Start` | async_bot.py:35-42 | `start` offers exactly the three languages, moves to `Language`, and changes neither selections nor file |
| `Dialogue.LanguageSelected` | async_bot.py:45-56 | records the language only, moves to `Date`, and offers a day if and only if it is one of the next three days |
| `Dialogue.DateSelected` | async_bot.py:59-80 | records the date only, moves to `Time`, leaves the file alone, and shows 10 buttons in slot order: exactly the booked slots send `"taken"`, a booked slot's button shows its time, a cross and the stored language, and a free slot's button shows and sends its own time |
| `Dialogue.TimeSelected` | async_bot.py:83-112 | on `"taken"`: stays at `Time`, selections (the time included) and file unchanged; otherwise: records the time, the file then maps date and time to the language, adds at most that date and, under it, at most that time, keeps every other date and every other slot of the date, confirms date, time and language, and ends |
| `Dialogue.Cancel` | async_bot.py:115-117 | `cancel` ends the dialogue and changes neither selections nor file |
| `Dialogue.Step` | async_bot.py:123-131 | routing a single update keeps every handler's lookups defined: at `Date` the language is recorded, at `Time` the language and the date |
| `Dialogue.Run` | async_bot.py:123-131 | over any sequence of updates the lookups of `time_selected` (async_bot.py:95-97) always succeed, and no booked date or slot ever disappears from the file |
| `Dialogue.BookingDialogue` | async_bot.py:35-112 | /start, a language, an offered day and a free slot, each pressed from the menu shown, end the dialogue with that slot booked for that language and the three selections recorded |
| `Dialogue.TakenButtonChangesNothing` | async_bot.py:88-90 | pressing a booked slot's button at the time step leaves state, selections and file unchanged |
| `Dialogue.CancelEndsWithoutWriting` | async_bot.py:115-117 | /cancel, from any state, leaves the dialogue ended with selections and file untouched |
| `Dialogue.StaleMenuOverwrites` | async_bot.py:98-104 | a slot free when its menu was shown but booked since is booked again for this user, replacing the other booking |
| `Bot.AppointmentsFile.Load` | async_bot.py:23-27 | returns the file's store, or the empty store when there is no file |
| `Bot.AppointmentsFile.Save` | async_bot.py:30-32 | the file afterwards holds exactly the given store |
| `Bot.LanguageSelected` | async_bot.py:45-56 | writing `user_data["language"]` in place gives the reply, state and selections of `Dialogue.LanguageSelected` |
| `Bot.BuildTimeKeyboard` | async_bot.py:68-77 | the loop over hours 12 to 21 builds exactly the time menu |
| `Bot.DateSelected` | async_bot.py:59-80 | writing `user_data["date"]`, loading the file and building the keyboard gives the reply, state and selections of `Dialogue.DateSelected` |
| `Bot.TimeSelected` | async_bot.py:83-112 | the sentinel check, the in-place write of `user_data["time"]`, and the load, nested-map update and save give the reply, state, selections and file of `Dialogue.TimeSelected` |

## Left out

- Messaging-platform calls (`reply_text`, `edit_message_text`, `query.answer`, keyboard markup, async/await). A keyboard is a sequence of (text, callback) buttons, and prompt texts are not modelled.
- The confirmation message text and the administrator notification (async_bot.py:106-110): these are a formatted string and a network send. The model keeps the confirmed date, time and language in `Confirmed`.
- Failures after the write in `time_selected` (async_bot.py:106-110): if
  `edit_message_text` or `send_message` fails, or `int(ADMIN_CHAT_ID)` meets
  a non-numeric value, the handler raises after `save_data` (line 104) and
  never returns END (line 112). The booking is then saved but the
  conversation stays at the time step. `Dialogue.TimeSelected` always ends
  after the write, so the model does not capture this.
- The alert for the sentinel (async_bot.py:89) answers a callback query
  that line 85 has already answered. Whether the platform shows it or
  refuses it is not modelled. Either way the handler changes nothing and
  the dialogue stays at the time step, as `Dialogue.TimeSelected` states.
- File I/O: `os.path.exists`, `json.load` and `json.dump` are modelled as reading and replacing an in-memory value. A malformed file, on which `json.load` raises, is not modelled.
- `datetime.now()`, `strftime` and `isoformat`: today is a parameter, and a date's key is its day number in decimal, not ISO text.
- `main` and the conversation library: only its state-to-handler table, its entry point and its fallback are modelled (`Dialogue.Step`). Re-entry options, timeouts, per-chat keys and handler error reporting are not.
- main.py: webhook and startup glue. It imports `get_handlers`, which async_bot.py does not define.
- Concurrent sessions: `Run` follows one user's session over one file. Another user's write is modelled only as a changed file between two steps (`Dialogue.StaleMenuOverwrites`). The code has no synchronisation to verify.
