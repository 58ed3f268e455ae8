/** The booking calendar screen: a mock June 2025 grid whose days before the
    10th are disabled, the fixed list of start times, and the booking action
    that looks the service up, derives the time window and inserts one
    appointment row with status `agendado`. */
module CalendarBooking {
  import opened Wrappers
  import opened Text
  import opened Records
  import opened TimeWindow

  /** The selection on the screen. `selectedDate` is `null` until a day is
      clicked; `selectedTime` is `""` until a time is clicked. */
  datatype CalendarState = CalendarState(selectedDate: Option<int>, selectedTime: string, loading: bool)

  const Initial: CalendarState := CalendarState(None, "", false)

  /** The grid shows the days 1 to 30. */
  const FirstDay: int := 1
  const LastDay: int := 30

  /** Days before the 10th are drawn disabled ("past dates"). */
  predicate DayEnabled(day: int) {
    !(day < 10)
  }

  /** JavaScript truthiness of the `number | null` date: absent and `0` are falsy. */
  predicate DateChosen(s: CalendarState) {
    s.selectedDate.Some? && s.selectedDate.value != 0
  }

  /** The states the screen can be in: a date is either unset or an enabled
      day of the grid, and a time is either unset or one of the offered
      entries, chosen after a date. */
  predicate WellFormed(s: CalendarState) {
    && (s.selectedDate.Some? ==> DayEnabled(s.selectedDate.value) && s.selectedDate.value <= LastDay)
    && (s.selectedTime == "" || (s.selectedTime in AvailableTimes && DateChosen(s)))
  }

  /** A click on a day of the grid. A disabled button ignores the click;
      an enabled one runs `handleDateSelect`, which always clears the time. */
  function ClickDay(s: CalendarState, day: int): (r: CalendarState)
    requires FirstDay <= day <= LastDay
    ensures !DayEnabled(day) ==> r == s
    ensures DayEnabled(day) ==> r.selectedDate == Some(day) && r.selectedTime == ""
    ensures r.loading == s.loading
  {
    if !DayEnabled(day) then s else s.(selectedDate := Some(day), selectedTime := "")
  }

  /** A click on one of the offered start times (`handleTimeSelect`); the
      time buttons are rendered only once a date is chosen. */
  function ClickTime(s: CalendarState, time: string): (r: CalendarState)
    requires DateChosen(s) && time in AvailableTimes
    ensures r.selectedTime == time && r.selectedDate == s.selectedDate && r.loading == s.loading
  {
    s.(selectedTime := time)
  }

  /** `disabled={!selectedDate || !selectedTime || loading}` on the book button. */
  predicate BookEnabled(s: CalendarState) {
    !(!DateChosen(s) || s.selectedTime == "" || s.loading)
  }

  /** The result of `handleBook`. Nothing happens unless a date, a time and a
      signed-in user are all present; otherwise the service lookup may fail,
      the insert of the built row may fail, or the booking succeeds and
      `onBook` receives the displayed date `D/06/2025` and the start time. */
  datatype BookResult =
    | NotStarted
    | LookupFailed
    | InsertFailed(row: Appointment)
    | Booked(row: Appointment, shownDate: string, shownTime: string)
  {
    predicate Inserted() {
      InsertFailed? || Booked?
    }
  }

  /** The fixed year and month of every stored appointment date. */
  const DatePrefix: string := "2025-06-"

  /** `2025-06-${day.toString().padStart(2, '0')}`: the stored appointment date. */
  function DateString(day: int): string {
    DatePrefix + PadStart2(ShowInt(day))
  }

  /** The appointment row built for a service, a day and a start time. */
  function AppointmentRow(userId: string, petId: string, serviceId: string, service: Service,
                          day: int, start: Clock): (r: Appointment)
    ensures r.establishmentId == service.establishmentId && r.precoFinal == service.preco
    ensures start.hours >= 0 && start.minutes >= 0 ==> ParseTime(r.horarioInicio) == Some(start)
    ensures start.hours >= 0 && start.minutes >= 0 && service.duracao >= 0 ==>
      var end := ParseTime(r.horarioFim);
      && end.Some? && 0 <= end.value.minutes < 60
      && MinutesOf(end.value) == MinutesOf(start) + service.duracao
  {
    var valid := start.hours >= 0 && start.minutes >= 0;
    assert valid ==> ParseTime(FormatClock(start)) == Some(start) by {
      if valid { FormatThenParse(start); }
    }
    assert valid && service.duracao >= 0 ==>
      var end := ParseTime(FormatClock(EndClock(start, service.duracao)));
      && end == Some(EndClock(start, service.duracao)) && 0 <= end.value.minutes < 60
      && MinutesOf(end.value) == MinutesOf(start) + service.duracao
    by {
      if valid && service.duracao >= 0 { EndTimeRoundTrip(start, service.duracao); }
    }
    Appointment(
      userId := userId,
      petId := petId,
      serviceId := serviceId,
      establishmentId := service.establishmentId,
      dataAgendamento := DateString(day),
      horarioInicio := FormatClock(start),
      horarioFim := FormatClock(EndClock(start, service.duracao)),
      precoFinal := service.preco,
      status := "agendado")
  }

  /** `handleBook`. `user` is the signed-in user's id, `lookup` the backend's
      answer to the service query and `insert` its answer to the insert. */
  function Book(s: CalendarState, user: Option<string>, petId: string, serviceId: string,
                lookup: Outcome<Service>, insert: Outcome<()>): (r: BookResult)
    requires WellFormed(s)
    ensures r.NotStarted? <==> !(DateChosen(s) && s.selectedTime != "" && user.Some?)
    ensures r.LookupFailed? <==> !r.NotStarted? && lookup.Err?
    ensures r.Booked? <==> !r.NotStarted? && lookup.Ok? && insert.Ok?
    ensures r.Inserted() ==>
      && lookup.Ok? && user.Some? && s.selectedDate.Some?
      && r.row.userId == user.value
      && r.row.petId == petId
      && r.row.serviceId == serviceId
      && r.row.establishmentId == lookup.value.establishmentId
      && r.row.precoFinal == lookup.value.preco
      && r.row.status == "agendado"
      && r.row.dataAgendamento == DateString(s.selectedDate.value)
      && r.row.horarioInicio == s.selectedTime
    ensures r.Booked? ==> r.shownDate == ShowInt(s.selectedDate.value) + "/06/2025" && r.shownTime == s.selectedTime
  {
    if !(DateChosen(s) && s.selectedTime != "" && user.Some?) then NotStarted
    else match lookup
      case Err => LookupFailed
      case Ok(service) =>
        OfferedTimeReads(s.selectedTime);
        var start := ParseTime(s.selectedTime).value;
        var row := AppointmentRow(user.value, petId, serviceId, service, s.selectedDate.value, start);
        match insert
        case Err => InsertFailed(row)
        case Ok(_) => Booked(row, ShowInt(s.selectedDate.value) + "/06/2025", s.selectedTime)
  }

  // ---------------------------------------------------------------- lemmas

  /** An offered start time reads as a clock that is written back as the same string. */
  lemma OfferedTimeReads(t: string)
    requires t in AvailableTimes
    ensures ParseTime(t).Some? && FormatClock(ParseTime(t).value) == t
  {
    var i :| 0 <= i < |AvailableTimes| && AvailableTimes[i] == t;
    FixedTimeEntry(i);
  }

  /** The screen starts well formed and every click keeps it so. */
  lemma ClicksKeepWellFormed(s: CalendarState, day: int, time: string)
    requires WellFormed(s)
    requires FirstDay <= day <= LastDay
    requires time in AvailableTimes
    ensures WellFormed(Initial)
    ensures WellFormed(ClickDay(s, day))
    ensures DateChosen(s) ==> WellFormed(ClickTime(s, time))
  {
  }

  /** Choosing another day after a time was chosen forgets the time, so the
      book button is disabled again until a time is picked for the new day. */
  lemma NewDayDisablesBooking(s: CalendarState, day: int)
    requires FirstDay <= day <= LastDay && DayEnabled(day)
    ensures !BookEnabled(ClickDay(s, day))
  {
  }

  /** The book button is enabled exactly when `handleBook` would start
      (for a signed-in user) and no booking is in flight. */
  lemma BookButtonMatchesGuard(s: CalendarState, user: string, petId: string, serviceId: string,
                               lookup: Outcome<Service>, insert: Outcome<()>)
    requires WellFormed(s)
    ensures BookEnabled(s) <==> !s.loading && !Book(s, Some(user), petId, serviceId, lookup, insert).NotStarted?
  {
  }

  /** For the days the calendar shows, the stored date is `2025-06-` followed by
      the day as exactly two digits. */
  lemma DateStringShape(day: int)
    requires 1 <= day <= 30
    ensures var s := DateString(day);
      && |s| == |DatePrefix| + 2 && s[..|DatePrefix|] == DatePrefix
      && AllDigits(s[|DatePrefix|..]) && ReadNat(s[|DatePrefix|..]) == day
      && (day < 10 <==> s[|DatePrefix|] == '0')
  {
    PrefixedTwoDigits(DatePrefix, day);
  }

  /** A prefix followed by a number below 100 padded to two digits: the two
      digits read back as the number, the first of them `0` exactly for
      one-digit numbers. */
  lemma PrefixedTwoDigits(prefix: string, n: nat)
    requires n < 100
    ensures var s := prefix + PadStart2(ShowInt(n));
      && |s| == |prefix| + 2 && s[..|prefix|] == prefix
      && AllDigits(s[|prefix|..]) && ReadNat(s[|prefix|..]) == n
      && (n < 10 <==> s[|prefix|] == '0')
  {
    var dd := [DigitChar(n / 10), DigitChar(n % 10)];
    TwoDigits(n);
    ReadTwoDigits(n);
    LeadingZero(n);
    var s := prefix + dd;
    assert s[..|prefix|] == prefix;
    assert s[|prefix|..] == dd;
  }

  /** A booked appointment occupies exactly the service's duration: the stored
      start and end strings both read back as clocks, the start is the chosen
      entry of the time list, the end has a minute field in 0..59 and lies
      `duracao` minutes after the start, and the date is `2025-06-DD`. */
  lemma BookedWindow(s: CalendarState, user: string, petId: string, serviceId: string,
                     lookup: Outcome<Service>, insert: Outcome<()>)
    requires WellFormed(s) && DateChosen(s) && s.selectedTime != ""
    requires lookup.Ok? && lookup.value.duracao >= 0
    ensures Book(s, Some(user), petId, serviceId, lookup, insert).Inserted()
    ensures var row := Book(s, Some(user), petId, serviceId, lookup, insert).row;
      && ParseTime(row.horarioInicio).Some?
      && ParseTime(row.horarioFim).Some?
      && 0 <= ParseTime(row.horarioFim).value.minutes < 60
      && MinutesOf(ParseTime(row.horarioFim).value)
         == MinutesOf(ParseTime(row.horarioInicio).value) + lookup.value.duracao
      && |row.dataAgendamento| == |DatePrefix| + 2 && row.dataAgendamento[..|DatePrefix|] == DatePrefix
      && ReadNat(row.dataAgendamento[|DatePrefix|..]) == s.selectedDate.value
  {
    OfferedTimeReads(s.selectedTime);
    BookedRow(s, user, petId, serviceId, lookup, insert);
    DateStringShape(s.selectedDate.value);
  }

  /** With a date and a time chosen and the service found, the inserted row
      is the appointment row for the chosen day and start time. */
  lemma BookedRow(s: CalendarState, user: string, petId: string, serviceId: string,
                  lookup: Outcome<Service>, insert: Outcome<()>)
    requires WellFormed(s) && DateChosen(s) && s.selectedTime != "" && lookup.Ok?
    ensures ParseTime(s.selectedTime).Some?
    ensures var r := Book(s, Some(user), petId, serviceId, lookup, insert);
      && r.Inserted()
      && r.row == AppointmentRow(user, petId, serviceId, lookup.value, s.selectedDate.value, ParseTime(s.selectedTime).value)
  {
    OfferedTimeReads(s.selectedTime);
  }
}
