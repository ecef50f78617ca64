/**
 * The handlers as the bot runs them: they write the user's selections in
 * place, load the appointments file, update its nested map, and save it
 * back. Each is proved to do what the matching `Dialogue` function says.
 */
module Bot {
  import opened Wrappers
  import opened Appointments
  import opened Dialogue

  /** `context.user_data`: the user's selections, written in place by the handlers. */
  class UserData {
    var language: Option<string>
    var date: Option<string>
    var time: Option<string>

    /** A user the bot has not heard from yet. */
    constructor ()
      ensures Record() == UserRecord(None, None, None)
    {
      language, date, time := None, None, None;
    }

    function Record(): UserRecord
      reads this
    {
      UserRecord(language, date, time)
    }
  }

  /** appointments.json, read whole by `load_data` and rewritten whole by `save_data`. */
  class AppointmentsFile {
    var file: DataFile

    /** No file yet. */
    constructor ()
      ensures file == Absent
    {
      file := Absent;
    }

    /** `load_data`: the stored appointments; the empty store when there is no file. */
    method Load() returns (a: Store)
      ensures file.Absent? ==> a == map[]
      ensures file.Written? ==> a == file.store
    {
      if file.Written? {
        a := file.store;
      } else {
        a := map[];
      }
    }

    /** `save_data`: overwrite the file with `a`; loading it afterwards gives `a` back. */
    method Save(a: Store)
      modifies this
      ensures file == SaveData(a) && LoadData(file) == a
    {
      file := Written(a);
    }
  }

  /** `language_selected`: record the language, then offer today and the next two days. */
  method LanguageSelected(user: UserData, store: AppointmentsFile, data: string, today: Day)
    returns (reply: Reply, next: State)
    modifies user
    ensures Handled(reply, next, user.Record(), store.file)
         == Dialogue.LanguageSelected(old(user.Record()), store.file, data, today)
  {
    user.language := Some(data);
    reply, next := Menu(DateMenu(today)), Date;
  }

  /**
   * The loop of `date_selected` that builds the time keyboard, one button
   * per hour from 12 to 21.
   */
  method BuildTimeKeyboard(taken: map<string, string>) returns (keyboard: Keyboard)
    ensures keyboard == TimeMenu(taken)
  {
    keyboard := [];
    for hour := FirstHour to EndHour
      invariant |keyboard| == hour - FirstHour
      invariant forall i :: 0 <= i < |keyboard| ==> keyboard[i] == TimeMenu(taken)[i]
    {
      var timeStr := SlotLabel(hour);
      SlotAt(hour - FirstHour);
      var text, callback;
      if timeStr in taken {
        text := timeStr + " \U{274C} " + taken[timeStr];
        callback := TakenCallback;
      } else {
        text := timeStr;
        callback := timeStr;
      }
      keyboard := keyboard + [Button(text, callback)];
    }
  }

  /** `date_selected`: record the date, then show the time menu for the date's bookings. */
  method DateSelected(user: UserData, store: AppointmentsFile, data: string)
    returns (reply: Reply, next: State)
    modifies user
    ensures Handled(reply, next, user.Record(), store.file)
         == Dialogue.DateSelected(old(user.Record()), store.file, data)
  {
    user.date := Some(data);
    var appointments := store.Load();
    var dateKey := user.date.value;
    var taken := if dateKey in appointments then appointments[dateKey] else map[];
    var keyboard := BuildTimeKeyboard(taken);
    reply, next := Menu(keyboard), Time;
  }

  /**
   * `time_selected`: on the sentinel, alert and stay; otherwise record the
   * time, load the file, create the date's map if missing, set the slot to
   * the language, save, and end.
   */
  method TimeSelected(user: UserData, store: AppointmentsFile, data: string)
    returns (reply: Reply, next: State)
    requires user.language.Some? && user.date.Some?
    modifies user, store
    ensures Handled(reply, next, user.Record(), store.file)
         == Dialogue.TimeSelected(old(user.Record()), old(store.file), data)
  {
    if data == TakenCallback {
      return AlreadyTaken, Time;
    }
    user.time := Some(data);
    var dateKey, timeKey, lang := user.date.value, user.time.value, user.language.value;
    var appointments := store.Load();
    if dateKey !in appointments {
      appointments := appointments[dateKey := map[]];
    }
    appointments := appointments[dateKey := appointments[dateKey][timeKey := lang]];
    store.Save(appointments);
    reply, next := Confirmed(dateKey, timeKey, lang), End;
  }
}
