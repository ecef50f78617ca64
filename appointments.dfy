/**
 * The slot catalog, the three inline keyboards the bot shows, and the
 * appointments store: `date -> (time -> language)`, kept in the file
 * appointments.json and rewritten whole on every booking.
 */
module Appointments {
  import opened Render

  /** A calendar day, counted in days from a fixed epoch. */
  type Day = nat

  /**
   * The key under which a day is offered and stored. It stands for the ISO
   * date text; the keyboard shows the same text as its label.
   */
  function DayKey(d: Day): string {
    Decimal(d)
  }

  /** The appointments store: date key -> (time label -> language). */
  type Store = map<string, map<string, string>>

  /** appointments.json: either not there yet, or holding a store. */
  datatype DataFile = Absent | Written(store: Store)

  /** What `load_data` returns: the file's store, or the empty store when there is no file. */
  function LoadData(f: DataFile): Store {
    match f
    case Absent => map[]
    case Written(a) => a
  }

  /** What `save_data` leaves behind; loading it gives back exactly what was saved. */
  function SaveData(a: Store): (f: DataFile)
    ensures LoadData(f) == a
  {
    Written(a)
  }

  /** One inline keyboard button: its text and the callback data it sends. */
  datatype Button = Button(text: string, callback: string)

  type Keyboard = seq<Button>

  function Callbacks(k: Keyboard): (r: seq<string>)
    ensures |r| == |k| && forall i :: 0 <= i < |k| ==> r[i] == k[i].callback
  {
    seq(|k|, i requires 0 <= i < |k| => k[i].callback)
  }

  // ---------------------------------------------------------------------
  // Language menu
  // ---------------------------------------------------------------------

  /** The three service languages, by callback code. */
  const Languages: seq<string> := ["ru", "en", "ka"]

  /** The keyboard `start` sends: one button per language, in its own script. */
  function LanguageMenu(): Keyboard {
    [ Button("\U{0420}\U{0443}\U{0441}\U{0441}\U{043A}\U{0438}\U{0439}", "ru"),
      Button("English", "en"),
      Button("\U{10E5}\U{10D0}\U{10E0}\U{10D7}\U{10E3}\U{10DA}\U{10D8}", "ka") ]
  }

  lemma LanguageMenuOffersLanguages()
    ensures Callbacks(LanguageMenu()) == Languages
  {
  }

  // ---------------------------------------------------------------------
  // Date menu
  // ---------------------------------------------------------------------

  /** How many consecutive days, from today, the date menu offers. */
  const OfferedDays: nat := 3

  /** The keyboard `language_selected` sends: today and the next two days. */
  function DateMenu(today: Day): Keyboard {
    seq(OfferedDays, i requires 0 <= i < OfferedDays => Button(DayKey(today + i), DayKey(today + i)))
  }

  /** The date menu has three buttons, for today onwards, each labelled with the date it sends. */
  lemma DateMenuAt(today: Day)
    ensures |DateMenu(today)| == OfferedDays
    ensures forall i :: 0 <= i < OfferedDays ==>
      DateMenu(today)[i] == Button(DayKey(today + i), DayKey(today + i))
  {
  }

  /** Two days share a key only when they are the same day. */
  lemma DayKeyInjective(a: Day, b: Day)
    requires DayKey(a) == DayKey(b)
    ensures a == b
  {
    DecimalInjective(a, b);
  }

  /**
   * A day's key is offered by the date menu exactly when the day is today,
   * tomorrow or the day after, and every button shows the date it sends.
   */
  lemma DateMenuOffersNextDays(today: Day)
    ensures forall d: Day :: DayKey(d) in Callbacks(DateMenu(today)) <==> today <= d < today + OfferedDays
    ensures forall b :: b in DateMenu(today) ==> b.text == b.callback
  {
    DateMenuAt(today);
    var cs := Callbacks(DateMenu(today));
    forall d: Day | DayKey(d) in cs
      ensures today <= d < today + OfferedDays
    {
      var i :| 0 <= i < OfferedDays && cs[i] == DayKey(d);
      DayKeyInjective(d, today + i);
    }
    forall d: Day | today <= d < today + OfferedDays
      ensures DayKey(d) in cs
    {
      assert cs[d - today] == DayKey(d);
    }
  }

  /** The date menu offers no date twice. */
  lemma DateMenuDistinct(today: Day)
    ensures forall i, j :: 0 <= i < j < |DateMenu(today)| ==> DateMenu(today)[i].callback != DateMenu(today)[j].callback
  {
    DateMenuAt(today);
    forall i, j | 0 <= i < j < OfferedDays
      ensures DateMenu(today)[i].callback != DateMenu(today)[j].callback
    {
      if DateMenu(today)[i].callback == DateMenu(today)[j].callback {
        DayKeyInjective(today + i, today + j);
      }
    }
  }

  // ---------------------------------------------------------------------
  // Time slots and the time menu
  // ---------------------------------------------------------------------

  /** The first bookable hour and the hour after the last one. */
  const FirstHour: nat := 12
  const EndHour: nat := 22

  /** The callback a booked slot's button sends instead of its time. */
  const TakenCallback: string := "taken"

  /** The label of the slot starting at `hour`, e.g. "14:00". */
  function SlotLabel(hour: nat): string {
    Decimal(hour) + ":00"
  }

  /** The day's slot labels, in order. */
  function Slots(): seq<string> {
    seq(EndHour - FirstHour, i requires 0 <= i < EndHour - FirstHour => SlotLabel(FirstHour + i))
  }

  lemma SlotAt(i: nat)
    requires i < |Slots()|
    ensures Slots()[i] == Decimal(FirstHour + i) + ":00"
  {
    assert Slots()[i] == SlotLabel(FirstHour + i);
  }

  /** The hourly slots are 12:00 through 21:00, in order. */
  lemma SlotsAreHourly()
    ensures Slots() == ["12:00", "13:00", "14:00", "15:00", "16:00",
                        "17:00", "18:00", "19:00", "20:00", "21:00"]
  {
    var expected := ["12:00", "13:00", "14:00", "15:00", "16:00",
                     "17:00", "18:00", "19:00", "20:00", "21:00"];
    forall i | 0 <= i < |Slots()|
      ensures Slots()[i] == expected[i]
    {
      var h := FirstHour + i;
      SlotAt(i);
      assert Decimal(h) == Decimal(h / 10) + [DigitChar(h % 10)];
      assert Decimal(h / 10) == [DigitChar(h / 10)];
    }
  }

  /** Slot labels are pairwise distinct, and none is the "taken" sentinel. */
  lemma {:induction false} SlotsDistinct()
    ensures forall i, j :: 0 <= i < j < |Slots()| ==> Slots()[i] != Slots()[j]
    ensures TakenCallback !in Slots()
  {
    forall i, j | 0 <= i < j < |Slots()|
      ensures Slots()[i] != Slots()[j]
    {
      var a, b := Decimal(FirstHour + i), Decimal(FirstHour + j);
      SlotAt(i);
      SlotAt(j);
      if a + ":00" == b + ":00" {
        assert a == (a + ":00")[..|a|] == (b + ":00")[..|b|] == b;
        DecimalInjective(FirstHour + i, FirstHour + j);
      }
    }
    forall i | 0 <= i < |Slots()|
      ensures Slots()[i] != TakenCallback
    {
      var s := Slots()[i];
      SlotAt(i);
      assert s[|s| - 1] == '0';
    }
  }

  /** The booked slots of a date: its inner map, or nothing when the date has none. */
  function TakenOn(a: Store, date: string): map<string, string> {
    if date in a then a[date] else map[]
  }

  /** The button of one slot, given the date's booked slots. */
  function SlotButton(taken: map<string, string>, time: string): Button {
    if time in taken then Button(time + " \U{274C} " + taken[time], TakenCallback)
    else Button(time, time)
  }

  /** The keyboard `date_selected` sends for a date whose booked slots are `taken`. */
  function TimeMenu(taken: map<string, string>): Keyboard {
    seq(|Slots()|, i requires 0 <= i < |Slots()| => SlotButton(taken, Slots()[i]))
  }

  /**
   * The time menu has one button per slot, in slot order. A booked slot's
   * button sends the sentinel and shows the time, a cross and the booked
   * language; a free slot's button shows its time and sends it. So a button
   * sends the sentinel exactly when its slot is booked.
   */
  lemma TimeMenuMarksTaken(taken: map<string, string>)
    ensures |TimeMenu(taken)| == |Slots()| == 10
    ensures forall i :: 0 <= i < |Slots()| && Slots()[i] in taken ==>
      TimeMenu(taken)[i] == Button(Slots()[i] + " \U{274C} " + taken[Slots()[i]], TakenCallback)
    ensures forall i :: 0 <= i < |Slots()| && Slots()[i] !in taken ==>
      TimeMenu(taken)[i] == Button(Slots()[i], Slots()[i])
    ensures forall i :: 0 <= i < |Slots()| ==>
      (TimeMenu(taken)[i].callback == TakenCallback <==> Slots()[i] in taken)
  {
    SlotsDistinct();
  }

  /**
   * The callbacks a user can book with from the time menu are exactly the
   * free slots: no booked slot is selectable.
   */
  lemma SelectableAreFree(taken: map<string, string>)
    ensures (set c | c in Callbacks(TimeMenu(taken)) && c != TakenCallback)
         == (set s | s in Slots() && s !in taken)
  {
    var k := TimeMenu(taken);
    TimeMenuMarksTaken(taken);
    forall c | c in Callbacks(k) && c != TakenCallback
      ensures c in Slots() && c !in taken
    {
      var i :| 0 <= i < |k| && Callbacks(k)[i] == c;
    }
    forall s | s in Slots() && s !in taken
      ensures s in Callbacks(k) && s != TakenCallback
    {
      var i :| 0 <= i < |Slots()| && Slots()[i] == s;
      assert Callbacks(k)[i] == s;
    }
  }

  // ---------------------------------------------------------------------
  // The booking write
  // ---------------------------------------------------------------------

  /**
   * The store after booking `time` on `date` for `lang`: the date's inner
   * map is created if missing, then the slot is set, whatever it held.
   */
  function Book(a: Store, date: string, time: string, lang: string): (r: Store)
    ensures date in r && time in r[date] && r[date][time] == lang
    ensures r.Keys == a.Keys + {date}
    ensures r[date].Keys == TakenOn(a, date).Keys + {time}
    ensures forall t :: t in TakenOn(a, date) && t != time ==> r[date][t] == TakenOn(a, date)[t]
    ensures forall d :: d in a && d != date ==> r[d] == a[d]
  {
    a[date := TakenOn(a, date)[time := lang]]
  }

  /** Booking on a date the store does not have adds that date with one slot. */
  lemma BookNewDate(a: Store, date: string, time: string, lang: string)
    requires date !in a
    ensures Book(a, date, time, lang)[date] == map[time := lang]
    ensures |Book(a, date, time, lang)| == |a| + 1
  {
  }

  /**
   * Booking a slot that is already booked overwrites its language and adds
   * no date and no time.
   */
  lemma BookOverwrites(a: Store, date: string, time: string, old_lang: string, lang: string)
    requires date in a && time in a[date] && a[date][time] == old_lang
    ensures Book(a, date, time, lang)[date][time] == lang
    ensures Book(a, date, time, lang).Keys == a.Keys
    ensures Book(a, date, time, lang)[date].Keys == a[date].Keys
    ensures |Book(a, date, time, lang)| == |a| && |Book(a, date, time, lang)[date]| == |a[date]|
  {
  }

  /** Of two bookings of the same slot, the later one is all that remains. */
  lemma BookLastWriteWins(a: Store, date: string, time: string, first: string, second: string)
    ensures Book(Book(a, date, time, first), date, time, second) == Book(a, date, time, second)
  {
    var twice, once := Book(Book(a, date, time, first), date, time, second), Book(a, date, time, second);
    assert twice[date] == once[date];
  }

  /**
   * Once booked, a slot shows in that date's time menu as taken, with the
   * booked language in its label.
   */
  lemma BookedSlotShowsTaken(a: Store, date: string, i: nat, lang: string)
    requires i < |Slots()|
    ensures TimeMenu(TakenOn(Book(a, date, Slots()[i], lang), date))[i]
         == Button(Slots()[i] + " \U{274C} " + lang, TakenCallback)
  {
  }
}
