/**
 * The booking dialogue: its states, what each handler does to the user's
 * selections and to the appointments file, and how the conversation routes
 * updates to handlers.
 */
module Dialogue {
  import opened Wrappers
  import opened Appointments

  /** The dialogue's states; `End` is also the state of a user with no conversation open. */
  datatype State = Language | Date | Time | End

  /** The per-user selections (`user_data`), each absent until a handler writes it. */
  datatype UserRecord = UserRecord(language: Option<string>, date: Option<string>, time: Option<string>)

  /** What a handler shows the user. */
  datatype Reply =
    | Menu(keyboard: Keyboard)                                   // a prompt with an inline keyboard
    | AlreadyTaken                                               // the "already booked" alert
    | Confirmed(date: string, time: string, language: string)    // the booking confirmation
    | Cancelled

  /** A handler's outcome: its reply, the state it returns, and the new selections and file. */
  datatype Handled = Handled(reply: Reply, next: State, user: UserRecord, file: DataFile)

  /** `start`: offer the three languages. */
  function Start(user: UserRecord, file: DataFile): (h: Handled)
    ensures h.next == Language && h.user == user && h.file == file
    ensures h.reply.Menu? && Callbacks(h.reply.keyboard) == Languages
  {
    LanguageMenuOffersLanguages();
    Handled(Menu(LanguageMenu()), Language, user, file)
  }

  /** `language_selected`: record the language and offer today and the next two days. */
  function LanguageSelected(user: UserRecord, file: DataFile, data: string, today: Day): (h: Handled)
    ensures h.next == Date && h.file == file
    ensures h.user == UserRecord(Some(data), user.date, user.time)
    ensures h.reply.Menu? && |h.reply.keyboard| == OfferedDays
    ensures forall d: Day :: DayKey(d) in Callbacks(h.reply.keyboard) <==> today <= d < today + OfferedDays
  {
    DateMenuAt(today);
    DateMenuOffersNextDays(today);
    Handled(Menu(DateMenu(today)), Date, user.(language := Some(data)), file)
  }

  /** `date_selected`: record the date and show that date's time menu. */
  function DateSelected(user: UserRecord, file: DataFile, data: string): (h: Handled)
    ensures h.next == Time && h.file == file
    ensures h.user == UserRecord(user.language, Some(data), user.time)
    ensures h.reply.Menu? && |h.reply.keyboard| == |Slots()|
    ensures forall i :: 0 <= i < |Slots()| ==>
      (h.reply.keyboard[i].callback == TakenCallback <==> Slots()[i] in TakenOn(LoadData(file), data))
    ensures forall i :: 0 <= i < |Slots()| && Slots()[i] !in TakenOn(LoadData(file), data) ==>
      h.reply.keyboard[i] == Button(Slots()[i], Slots()[i])
    ensures forall i :: 0 <= i < |Slots()| && Slots()[i] in TakenOn(LoadData(file), data) ==>
      h.reply.keyboard[i].text == Slots()[i] + " \U{274C} " + TakenOn(LoadData(file), data)[Slots()[i]]
  {
    TimeMenuMarksTaken(TakenOn(LoadData(file), data));
    Handled(Menu(TimeMenu(TakenOn(LoadData(file), data))), Time, user.(date := Some(data)), file)
  }

  /**
   * `time_selected`: the sentinel keeps the dialogue at the time step and
   * changes nothing; any other callback is booked for the recorded date and
   * language, whatever the slot held, and the dialogue ends.
   */
  function TimeSelected(user: UserRecord, file: DataFile, data: string): (h: Handled)
    requires user.language.Some? && user.date.Some?
    ensures data == TakenCallback ==> h == Handled(AlreadyTaken, Time, user, file)
    ensures data != TakenCallback ==>
      && h.next == End
      && h.user == UserRecord(user.language, user.date, Some(data))
      && h.reply == Confirmed(user.date.value, data, user.language.value)
      && var before, after := LoadData(file), LoadData(h.file);
         && user.date.value in after && data in after[user.date.value]
         && after[user.date.value][data] == user.language.value
         && after.Keys == before.Keys + {user.date.value}
         && after[user.date.value].Keys == TakenOn(before, user.date.value).Keys + {data}
         && (forall d :: d in before && d != user.date.value ==> after[d] == before[d])
         && (forall t :: t in TakenOn(before, user.date.value) && t != data ==>
               t in after[user.date.value] && after[user.date.value][t] == before[user.date.value][t])
  {
    if data == TakenCallback then
      Handled(AlreadyTaken, Time, user, file)
    else
      var date, lang := user.date.value, user.language.value;
      Handled(Confirmed(date, data, lang), End, user.(time := Some(data)),
              SaveData(Book(LoadData(file), date, data, lang)))
  }

  /** `cancel`: end the dialogue, touching nothing. */
  function Cancel(user: UserRecord, file: DataFile): (h: Handled)
    ensures h.next == End && h.user == user && h.file == file
  {
    Handled(Cancelled, End, user, file)
  }

  // ---------------------------------------------------------------------
  // Routing
  // ---------------------------------------------------------------------

  /** What reaches the conversation: the two commands, or a button press on the given day. */
  datatype Update = StartCommand | CancelCommand | CallbackQuery(data: string, today: Day)

  /** One user's conversation state, selections, and the shared appointments file. */
  datatype Session = Session(state: State, user: UserRecord, file: DataFile)

  /**
   * Every handler the current state can route to finds the selections it
   * reads: at the time step the date and the language have been recorded.
   */
  ghost predicate HandlersDefined(s: Session) {
    (s.state == Date ==> s.user.language.Some?) &&
    (s.state == Time ==> s.user.language.Some? && s.user.date.Some?)
  }

  function Apply(s: Session, h: Handled): Session {
    Session(h.next, h.user, h.file)
  }

  /**
   * One update: with no conversation open only /start is heard; inside one,
   * a button press goes to the current state's handler, /cancel ends it,
   * and /start is ignored.
   */
  function Step(s: Session, u: Update): (r: Session)
    requires HandlersDefined(s)
    ensures HandlersDefined(r)
  {
    match (s.state, u)
    case (End, StartCommand) => Apply(s, Start(s.user, s.file))
    case (End, _) => s
    case (_, StartCommand) => s
    case (_, CancelCommand) => Apply(s, Cancel(s.user, s.file))
    case (Language, CallbackQuery(data, today)) => Apply(s, LanguageSelected(s.user, s.file, data, today))
    case (Date, CallbackQuery(data, _)) => Apply(s, DateSelected(s.user, s.file, data))
    case (Time, CallbackQuery(data, _)) => Apply(s, TimeSelected(s.user, s.file, data))
  }

  /** Every booking in `a` is still in `b`, possibly with another language. */
  ghost predicate KeptSlots(a: Store, b: Store) {
    forall d :: d in a ==> d in b && a[d].Keys <= b[d].Keys
  }

  /**
   * A run of updates keeps every handler defined, and never removes a
   * booked date or slot from the file.
   */
  function Run(s: Session, us: seq<Update>): (r: Session)
    requires HandlersDefined(s)
    ensures HandlersDefined(r)
    ensures KeptSlots(LoadData(s.file), LoadData(r.file))
    decreases |us|
  {
    if us == [] then s else Run(Step(s, us[0]), us[1..])
  }

  // ---------------------------------------------------------------------
  // Properties of the dialogue
  // ---------------------------------------------------------------------

  /**
   * The whole dialogue, every choice taken from the menu shown: /start, a
   * language, one of the three offered days, then a free slot of that day.
   * It ends with the slot booked for that language and the selections
   * recorded, and nothing else in the file changed.
   */
  lemma {:induction false} BookingDialogue(user: UserRecord, file: DataFile, today: Day, l: nat, k: nat, j: nat)
    requires l < |LanguageMenu()| && k < OfferedDays && j < |Slots()|
    requires Slots()[j] !in TakenOn(LoadData(file), DayKey(today + k))
    ensures
      var lang, date, time := Languages[l], DayKey(today + k), Slots()[j];
      var taken := TakenOn(LoadData(file), date);
      Run(Session(End, user, file),
          [ StartCommand,
            CallbackQuery(LanguageMenu()[l].callback, today),
            CallbackQuery(DateMenu(today)[k].callback, today),
            CallbackQuery(TimeMenu(taken)[j].callback, today) ])
      == Session(End, UserRecord(Some(lang), Some(date), Some(time)),
                 SaveData(Book(LoadData(file), date, time, lang)))
  {
    var lang, date, time := Languages[l], DayKey(today + k), Slots()[j];
    var taken := TakenOn(LoadData(file), date);
    LanguageMenuOffersLanguages();
    DateMenuAt(today);
    TimeMenuMarksTaken(taken);
    SlotsDistinct();
    var us := [ StartCommand,
                CallbackQuery(LanguageMenu()[l].callback, today),
                CallbackQuery(DateMenu(today)[k].callback, today),
                CallbackQuery(TimeMenu(taken)[j].callback, today) ];
    var s0 := Session(End, user, file);
    var s1 := Step(s0, us[0]);
    assert s1 == Session(Language, user, file);
    var s2 := Step(s1, us[1]);
    assert s2 == Session(Date, user.(language := Some(lang)), file);
    var s3 := Step(s2, us[2]);
    assert s3 == Session(Time, UserRecord(Some(lang), Some(date), user.time), file);
    var s4 := Step(s3, us[3]);
    assert s4 == Session(End, UserRecord(Some(lang), Some(date), Some(time)),
                         SaveData(Book(LoadData(file), date, time, lang)));
    assert us[1..][1..][1..][1..] == [];
    calc {
      Run(s0, us);
      Run(s1, us[1..]);
      Run(s2, us[1..][1..]);
      Run(s3, us[1..][1..][1..]);
      Run(s4, us[1..][1..][1..][1..]);
      s4;
    }
  }

  /**
   * Pressing a button of a booked slot, at the time step, leaves the state,
   * the selections (the recorded time included) and the file as they were.
   */
  lemma TakenButtonChangesNothing(s: Session, i: nat, today: Day)
    requires HandlersDefined(s) && s.state == Time && i < |Slots()|
    requires Slots()[i] in TakenOn(LoadData(s.file), s.user.date.value)
    ensures Step(s, CallbackQuery(TimeMenu(TakenOn(LoadData(s.file), s.user.date.value))[i].callback, today)) == s
  {
  }

  /** /cancel, in any state, leaves the dialogue ended and the selections and file untouched. */
  lemma CancelEndsWithoutWriting(s: Session)
    requires HandlersDefined(s)
    ensures Step(s, CancelCommand) == Session(End, s.user, s.file)
  {
  }

  /**
   * No re-check at booking time: a slot that was free when its menu was
   * shown, and was booked by someone else since, is booked again over the
   * other booking, for this user's language.
   */
  lemma StaleMenuOverwrites(s: Session, other: string, i: nat, today: Day)
    requires HandlersDefined(s) && s.state == Time && i < |Slots()|
    requires Slots()[i] !in TakenOn(LoadData(s.file), s.user.date.value)
    ensures
      var date, time := s.user.date.value, Slots()[i];
      var shown := TimeMenu(TakenOn(LoadData(s.file), date));
      var raced := s.(file := SaveData(Book(LoadData(s.file), date, time, other)));
      var r := Step(raced, CallbackQuery(shown[i].callback, today));
      r.state == End && LoadData(r.file) == Book(LoadData(s.file), date, time, s.user.language.value)
  {
    var date, time := s.user.date.value, Slots()[i];
    TimeMenuMarksTaken(TakenOn(LoadData(s.file), date));
    SlotsDistinct();
    BookLastWriteWins(LoadData(s.file), date, time, other, s.user.language.value);
  }
}
