/** The owner portal's availability calendar (owner-portal/pages/Availability.tsx):
    the two status vocabularies, the month grid, and marking a day. Dates are
    the local calendar dates `Date` reports; the calendar arithmetic follows
    the time values of ECMA-262 section 21.4.1 (day numbers counted from
    1 January 1970). */
module Availability {
  import opened Common
  import opened Domain
  import opened Browser

  // ---------------------------------------------------------------------
  // Status vocabularies

  /** How a day is shown: `'available' | 'booked' | 'maintenance' | 'blocked'`. */
  datatype DateStatus = Available | Booked | Maintenance | Blocked

  /** `statusForDate`: the schedule status written when a day is marked. */
  function StatusForDate(d: DateStatus): (s: ScheduleStatus)
    ensures s != CANCELLED
    ensures d == Available <==> s == ACTIVE
  {
    match d
    case Available => ACTIVE
    case Booked => SOLD_OUT
    case Maintenance => MAINTENANCE
    case Blocked => BLOCKED
  }

  /** `toDateStatus`: how a schedule status is shown; a cancelled trip shows
      as blocked. */
  function ToDateStatus(s: ScheduleStatus): (d: DateStatus)
    ensures d == Blocked <==> s == BLOCKED || s == CANCELLED
    ensures d == Available <==> s == ACTIVE
  {
    match s
    case ACTIVE => Available
    case SOLD_OUT => Booked
    case MAINTENANCE => Maintenance
    case BLOCKED => Blocked
    case CANCELLED => Blocked
  }

  /** Marking a day and reading it back gives the status chosen; every
      schedule status but `CANCELLED` survives the opposite trip. */
  lemma StatusRoundTrip(d: DateStatus, s: ScheduleStatus)
    ensures ToDateStatus(StatusForDate(d)) == d
    ensures s != CANCELLED ==> StatusForDate(ToDateStatus(s)) == s
    ensures s == CANCELLED ==> StatusForDate(ToDateStatus(s)) == BLOCKED
  {
  }

  /** `defaultReason`: the reason shown when a schedule has none; an
      available day has none. */
  function DefaultReason(d: DateStatus): (r: Option<string>)
    ensures r.None? <==> d == Available
  {
    match d
    case Available => None
    case Booked => Some("Customer Booking")
    case Maintenance => Some("Maintenance Block")
    case Blocked => Some("Owner Private Trip")
  }

  // ---------------------------------------------------------------------
  // Calendar arithmetic (ECMA-262 section 21.4.1)

  /** A local calendar date: full year, month 0..11, day of the month. */
  datatype LocalDate = LocalDate(year: int, month: int, day: int)

  /** `DaysInYear`: 366 exactly in Gregorian leap years. */
  function DaysInYear(y: int): (n: int)
    ensures n == 365 || n == 366
    ensures n == 366 <==> (y % 4 == 0 && y % 100 != 0) || y % 400 == 0
  {
    if y % 4 != 0 then 365
    else if y % 100 != 0 then 366
    else if y % 400 != 0 then 365
    else 366
  }

  /** `DayFromYear`: the day number of 1 January of year `y`. */
  function DayFromYear(y: int): int {
    365 * (y - 1970) + (y - 1969) / 4 - (y - 1901) / 100 + (y - 1601) / 400
  }

  /** Consecutive first days of the year lie `DaysInYear` apart: the closed
      formula agrees with the leap-year rule. */
  lemma YearLength(y: int)
    ensures DayFromYear(y + 1) - DayFromYear(y) == DaysInYear(y)
  {
    LeapSteps(y);
  }

  /** Each of the three floor terms of `DayFromYear` steps up by one
      exactly in the years its divisor divides. */
  lemma LeapSteps(y: int)
    ensures (y - 1968) / 4 - (y - 1969) / 4 == if y % 4 == 0 then 1 else 0
    ensures (y - 1900) / 100 - (y - 1901) / 100 == if y % 100 == 0 then 1 else 0
    ensures (y - 1600) / 400 - (y - 1601) / 400 == if y % 400 == 0 then 1 else 0
  {
    var q4, r4 := y / 4, y % 4;
    assert y - 1968 == 4 * (q4 - 492) + r4;
    assert (y - 1968) / 4 == q4 - 492;
    if r4 == 0 {
      assert y - 1969 == 4 * (q4 - 493) + 3;
    } else {
      assert y - 1969 == 4 * (q4 - 492) + (r4 - 1);
    }
    var q100, r100 := y / 100, y % 100;
    assert y - 1900 == 100 * (q100 - 19) + r100;
    assert (y - 1900) / 100 == q100 - 19;
    if r100 == 0 {
      assert y - 1901 == 100 * (q100 - 20) + 99;
    } else {
      assert y - 1901 == 100 * (q100 - 19) + (r100 - 1);
    }
    var q400, r400 := y / 400, y % 400;
    assert y - 1600 == 400 * (q400 - 4) + r400;
    assert (y - 1600) / 400 == q400 - 4;
    if r400 == 0 {
      assert y - 1601 == 400 * (q400 - 5) + 399;
    } else {
      assert y - 1601 == 400 * (q400 - 4) + (r400 - 1);
    }
  }

  /** The day of the year on which month `m` starts (`MonthFromTime`'s
      table); `leap` is 1 in a leap year and 0 otherwise. */
  function MonthStart(m: int, leap: int): int
    requires 0 <= m < 12
  {
    match m
    case 0 => 0
    case 1 => 31
    case 2 => 59 + leap
    case 3 => 90 + leap
    case 4 => 120 + leap
    case 5 => 151 + leap
    case 6 => 181 + leap
    case 7 => 212 + leap
    case 8 => 243 + leap
    case 9 => 273 + leap
    case 10 => 304 + leap
    case _ => 334 + leap
  }

  /** `MakeDay(year, month, date)`: the day number of the given date, where
      the month may run past December and the date past either end of the
      month, as in `new Date(year, month, date)`. */
  function MakeDay(year: int, month: int, date: int): int {
    var ym := year + month / 12;
    var mn := month % 12;
    DayFromYear(ym) + MonthStart(mn, DaysInYear(ym) - 365) + date - 1
  }

  /** `daysInMonth`: the date of `new Date(year, month + 1, 0)`, the day
      before the first of the next month, counted from the first of `month`.
      It is the Gregorian month length. */
  function DaysInMonth(year: int, month: int): (n: int)
    requires 0 <= month < 12
    ensures 28 <= n <= 31
    ensures n == 31 <==> month in {0, 2, 4, 6, 7, 9, 11}
    ensures n == 30 <==> month in {3, 5, 8, 10}
    ensures month == 1 ==> (n == 29 <==> DaysInYear(year) == 366)
  {
    MonthLength(year, month);
    MakeDay(year, month + 1, 0) - MakeDay(year, month, 1) + 1
  }

  /** The distance from the first of `month` to the first of the next month,
      month by month; December needs the year length. */
  lemma MonthLength(year: int, month: int)
    requires 0 <= month < 12
    ensures var n := MakeDay(year, month + 1, 0) - MakeDay(year, month, 1) + 1;
            && (month in {0, 2, 4, 6, 7, 9, 11} ==> n == 31)
            && (month in {3, 5, 8, 10} ==> n == 30)
            && (month == 1 ==> n == DaysInYear(year) - 337)
  {
    MakeDayWithinYear(year, month, 1);
    if month < 11 {
      MakeDayWithinYear(year, month + 1, 0);
      MonthGap(month, DaysInYear(year) - 365);
    } else {
      MakeDayNextYear(year, 0);
      YearLength(year);
    }
  }

  /** The gaps between consecutive entries of the month table. */
  lemma MonthGap(m: int, leap: int)
    requires 0 <= m < 11
    ensures var g := MonthStart(m + 1, leap) - MonthStart(m, leap);
            && (m in {0, 2, 4, 6, 7, 9} ==> g == 31)
            && (m in {3, 5, 8, 10} ==> g == 30)
            && (m == 1 ==> g == 28 + leap)
  {
  }

  /** A month of the year itself counts from that year's first day. */
  lemma MakeDayWithinYear(year: int, month: int, date: int)
    requires 0 <= month < 12
    ensures MakeDay(year, month, date) == DayFromYear(year) + MonthStart(month, DaysInYear(year) - 365) + date - 1
  {
    assert month / 12 == 0 && month % 12 == month;
  }

  /** Month 12 is January of the next year. */
  lemma MakeDayNextYear(year: int, date: int)
    ensures MakeDay(year, 12, date) == DayFromYear(year + 1) + date - 1
  {
    assert 12 / 12 == 1 && 12 % 12 == 0;
  }

  /** `WeekDay`: 0 is Sunday, 1 Monday; 1 January 1970 was a Thursday. */
  function WeekDay(t: int): (w: int)
    ensures 0 <= w < 7
  {
    (t + 4) % 7
  }

  /** `leadingEmptyCells`: the blank cells before the first of the month in a
      grid whose columns start on Monday. Stepping back that many days from
      the first lands on a Monday, and no Monday lies in between. */
  function LeadingEmptyCells(year: int, month: int): (n: int)
    ensures 0 <= n < 7
    ensures WeekDay(MakeDay(year, month, 1) - n) == 1
    ensures forall t :: MakeDay(year, month, 1) - n < t <= MakeDay(year, month, 1) ==> WeekDay(t) != 1
  {
    var first := MakeDay(year, month, 1);
    var n := (WeekDay(first) + 6) % 7;
    assert n == if WeekDay(first) == 0 then 6 else WeekDay(first) - 1;
    WeekDayBack(first, n);
    forall t | first - n < t <= first
      ensures WeekDay(t) != 1
    {
      WeekDayBack(first, first - t);
    }
    n
  }

  /** Stepping back `k` days within a week steps the weekday back `k`,
      wrapping past Sunday. */
  lemma WeekDayBack(t: int, k: int)
    requires 0 <= k < 7
    ensures WeekDay(t - k) == if k <= WeekDay(t) then WeekDay(t) - k else WeekDay(t) - k + 7
  {
    var q := (t + 4) / 7;
    assert t + 4 == 7 * q + WeekDay(t);
    if k <= WeekDay(t) {
      assert t - k + 4 == 7 * q + (WeekDay(t) - k);
    } else {
      assert t - k + 4 == 7 * (q - 1) + (WeekDay(t) - k + 7);
    }
  }

  // ---------------------------------------------------------------------
  // The calendar of one month

  datatype OwnerSchedule = OwnerSchedule(
    id: string,
    departure: LocalDate,
    arrival: Option<LocalDate>,
    origin: string,
    destination: string,
    availableSeats: int,
    price: string,
    status: ScheduleStatus,
    statusReason: Option<string>)

  datatype OwnerBus = OwnerBus(id: string, title: string, registrationNo: string, capacity: int,
                               schedules: seq<OwnerSchedule>)

  /** One day of the calendar and the schedule it shows. */
  datatype CalendarEntry = CalendarEntry(day: int, status: DateStatus, reason: Option<string>,
                                         schedule: OwnerSchedule)

  predicate InMonth(s: OwnerSchedule, year: int, month: int) {
    s.departure.year == year && s.departure.month == month
  }

  /** The entry a schedule gives its day: its status as shown, and its own
      reason or else the default for that status. */
  function EntryOf(s: OwnerSchedule): (e: CalendarEntry)
    ensures e.day == s.departure.day && e.schedule == s && e.status == ToDateStatus(s.status)
    ensures s.statusReason.Some? ==> e.reason == s.statusReason
    ensures s.statusReason.None? ==> e.reason == DefaultReason(e.status)
  {
    var status := ToDateStatus(s.status);
    CalendarEntry(s.departure.day, status, Coalesce(s.statusReason, DefaultReason(status)), s)
  }

  /** Whether `s` departs on `day` of `month` of `year`. */
  predicate DepartsOn(s: OwnerSchedule, year: int, month: int, day: int) {
    InMonth(s, year, month) && s.departure.day == day
  }

  /** The position of the last schedule departing on `day` of the month. */
  function LastDeparture(schedules: seq<OwnerSchedule>, year: int, month: int, day: int): (r: Option<nat>)
    ensures r.Some? ==> r.value < |schedules| && DepartsOn(schedules[r.value], year, month, day)
    ensures r.Some? ==> forall j :: r.value < j < |schedules| ==> !DepartsOn(schedules[j], year, month, day)
    ensures r.None? ==> forall j :: 0 <= j < |schedules| ==> !DepartsOn(schedules[j], year, month, day)
  {
    if schedules == [] then None
    else if DepartsOn(schedules[|schedules| - 1], year, month, day) then Some(|schedules| - 1)
    else LastDeparture(schedules[..|schedules| - 1], year, month, day)
  }

  /** The calendar of `month` of `year`, built from `schedules` in order. */
  function Entries(schedules: seq<OwnerSchedule>, year: int, month: int): map<int, CalendarEntry> {
    if schedules == [] then map[]
    else
      var n := |schedules| - 1;
      var s := schedules[n];
      var earlier := Entries(schedules[..n], year, month);
      if InMonth(s, year, month) then earlier[s.departure.day := EntryOf(s)] else earlier
  }

  /** A day is on the calendar exactly when some schedule departs on it that
      month, and it shows the last such schedule: a later schedule replaces
      an earlier one. */
  lemma {:induction false} EntriesShowLastSchedule(schedules: seq<OwnerSchedule>, year: int, month: int)
    ensures forall d :: d in Entries(schedules, year, month) <==> LastDeparture(schedules, year, month, d).Some?
    ensures forall d :: d in Entries(schedules, year, month) ==>
      Entries(schedules, year, month)[d] == EntryOf(schedules[LastDeparture(schedules, year, month, d).value])
  {
    if schedules != [] {
      var n := |schedules| - 1;
      EntriesShowLastSchedule(schedules[..n], year, month);
    }
  }

  /** `calendarEntries`: nothing without a selected bus; otherwise the
      schedules are walked in order and each one departing in the month sets
      its day. */
  method CalendarEntries(selected: Option<OwnerBus>, year: int, month: int) returns (m: map<int, CalendarEntry>)
    ensures selected.None? ==> m == map[]
    ensures selected.Some? ==> m == Entries(selected.value.schedules, year, month)
  {
    m := map[];
    if selected.None? {
      return;
    }
    var schedules := selected.value.schedules;
    var i := 0;
    while i < |schedules|
      invariant 0 <= i <= |schedules|
      invariant m == Entries(schedules[..i], year, month)
    {
      assert schedules[..i + 1][..i] == schedules[..i];
      var s := schedules[i];
      if InMonth(s, year, month) {
        m := m[s.departure.day := EntryOf(s)];
      }
      i := i + 1;
    }
    assert schedules[..i] == schedules;
  }

  // ---------------------------------------------------------------------
  // Marking a day

  /** The body sent to the schedule upsert. */
  datatype SchedulePayload = SchedulePayload(
    id: string,
    departure: LocalDate,
    arrival: Option<LocalDate>,
    origin: string,
    destination: string,
    availableSeats: int,
    price: string,
    status: ScheduleStatus,
    statusReason: Option<string>)

  /** The reason written when `e`'s day is marked `status`: the reason
      given, else the one the day shows, else the default for the new
      status, else none. */
  function NewReason(e: CalendarEntry, status: DateStatus, reason: Option<string>): (r: Option<string>)
    ensures reason.Some? ==> r == reason
    ensures reason.None? && e.reason.Some? ==> r == e.reason
    ensures reason.None? && e.reason.None? ==> r == DefaultReason(status)
  {
    Coalesce(reason, Coalesce(e.reason, DefaultReason(status)))
  }

  /** The payload: the entry's schedule as it is, with the new status and
      reason. */
  function PayloadFor(e: CalendarEntry, status: DateStatus, reason: Option<string>): (p: SchedulePayload)
    ensures p.id == e.schedule.id && p.status == StatusForDate(status)
    ensures p.statusReason == NewReason(e, status, reason)
  {
    var s := e.schedule;
    SchedulePayload(s.id, s.departure, s.arrival, s.origin, s.destination, s.availableSeats, s.price,
                    StatusForDate(status), NewReason(e, status, reason))
  }

  /** A schedule with a new status and reason and nothing else changed. */
  function Restatus(s: OwnerSchedule, status: ScheduleStatus, reason: Option<string>): OwnerSchedule {
    s.(status := status, statusReason := reason)
  }

  /** The offline edit of one bus's schedules: each schedule with id `id`
      gets the new status and reason; the others stay as they are. */
  function WithStatus(schedules: seq<OwnerSchedule>, id: string, status: ScheduleStatus,
                      reason: Option<string>): (r: seq<OwnerSchedule>)
    ensures |r| == |schedules|
    ensures forall k :: 0 <= k < |r| ==> r[k].id == schedules[k].id && r[k].departure == schedules[k].departure
    ensures forall k :: 0 <= k < |r| && schedules[k].id != id ==> r[k] == schedules[k]
  {
    MapSeq(schedules, (item: OwnerSchedule) => if item.id == id then Restatus(item, status, reason) else item)
  }

  /** The online edit: the schedule the server returned replaces each local
      schedule with its id (every field shown is copied from the reply). */
  function WithReply(schedules: seq<OwnerSchedule>, updated: OwnerSchedule): (r: seq<OwnerSchedule>)
    ensures |r| == |schedules|
    ensures forall k :: 0 <= k < |r| && schedules[k].id != updated.id ==> r[k] == schedules[k]
    ensures forall k :: 0 <= k < |r| && schedules[k].id == updated.id ==> r[k] == updated
  {
    MapSeq(schedules, (item: OwnerSchedule) => if item.id == updated.id then updated else item)
  }

  /** The offline edit of the bus list: the buses with id `busId` get
      `WithStatus` applied to their schedules; no other field and no other
      bus changes. */
  function MarkBuses(buses: seq<OwnerBus>, busId: string, id: string, status: ScheduleStatus,
                     reason: Option<string>): (r: seq<OwnerBus>)
    ensures |r| == |buses|
    ensures forall k :: 0 <= k < |r| ==> r[k] == buses[k].(schedules := r[k].schedules)
    ensures forall k :: 0 <= k < |r| && buses[k].id != busId ==> r[k] == buses[k]
    ensures forall k :: 0 <= k < |r| && buses[k].id == busId ==> r[k].schedules == WithStatus(buses[k].schedules, id, status, reason)
  {
    MapSeq(buses, (bus: OwnerBus) => if bus.id == busId then bus.(schedules := WithStatus(bus.schedules, id, status, reason)) else bus)
  }

  /** The online edit of the bus list: `WithReply` on the buses with id
      `busId`, nothing else. */
  function ReplyBuses(buses: seq<OwnerBus>, busId: string, updated: OwnerSchedule): (r: seq<OwnerBus>)
    ensures |r| == |buses|
    ensures forall k :: 0 <= k < |r| ==> r[k] == buses[k].(schedules := r[k].schedules)
    ensures forall k :: 0 <= k < |r| && buses[k].id != busId ==> r[k] == buses[k]
    ensures forall k :: 0 <= k < |r| && buses[k].id == busId ==> r[k].schedules == WithReply(buses[k].schedules, updated)
  {
    MapSeq(buses, (bus: OwnerBus) => if bus.id == busId then bus.(schedules := WithReply(bus.schedules, updated)) else bus)
  }

  /** After the offline edit of schedule `id` the calendar has the same
      days; each day showing a schedule with that id shows it with the new
      status and reason, and every other day is unchanged. */
  lemma {:induction false} EditedCalendar(schedules: seq<OwnerSchedule>, id: string, status: ScheduleStatus,
                                          reason: Option<string>, year: int, month: int)
    ensures var before := Entries(schedules, year, month);
            var after := Entries(WithStatus(schedules, id, status, reason), year, month);
            && after.Keys == before.Keys
            && forall d :: d in before ==>
                 after[d] == if before[d].schedule.id == id then EntryOf(Restatus(before[d].schedule, status, reason))
                             else before[d]
  {
    if schedules != [] {
      var n := |schedules| - 1;
      var edited := WithStatus(schedules, id, status, reason);
      assert edited[..n] == WithStatus(schedules[..n], id, status, reason);
      EditedCalendar(schedules[..n], id, status, reason, year, month);
    }
  }

  /** Ids are unique within a bus's schedules. */
  predicate DistinctIds(schedules: seq<OwnerSchedule>) {
    forall i, j :: 0 <= i < j < |schedules| ==> schedules[i].id != schedules[j].id
  }

  /** Marking a day offline shows on the calendar: with distinct schedule
      ids, that day now shows the chosen status and the reason written, and
      every other day is as before. */
  lemma MarkedDayShows(schedules: seq<OwnerSchedule>, year: int, month: int, day: int,
                       status: DateStatus, reason: Option<string>)
    requires DistinctIds(schedules)
    requires day in Entries(schedules, year, month)
    ensures var before := Entries(schedules, year, month);
            var e := before[day];
            var after := Entries(WithStatus(schedules, e.schedule.id, StatusForDate(status), NewReason(e, status, reason)), year, month);
            && after.Keys == before.Keys
            && after[day].status == status
            && after[day].reason == Coalesce(NewReason(e, status, reason), DefaultReason(status))
            && forall d :: d in before && d != day ==> after[d] == before[d]
  {
    var before := Entries(schedules, year, month);
    var e := before[day];
    var st, rs := StatusForDate(status), NewReason(e, status, reason);
    EditedCalendar(schedules, e.schedule.id, st, rs, year, month);
    EntriesShowLastSchedule(schedules, year, month);
    StatusRoundTrip(status, ACTIVE);
    var j := LastDeparture(schedules, year, month, day).value;
    assert e.schedule == schedules[j];
    forall d | d in before && d != day
      ensures before[d].schedule.id != e.schedule.id
    {
      var i := LastDeparture(schedules, year, month, d).value;
      assert before[d].schedule == schedules[i];
      assert i != j;
    }
  }

  /** Marking a day available without a reason keeps the reason the day
      showed, since the available status has no default of its own. */
  lemma AvailableKeepsShownReason(e: CalendarEntry)
    ensures NewReason(e, Available, None) == e.reason
  {
  }

  /** The message shown when a day without a schedule is marked. */
  const NoScheduleMessage := "Create a schedule for this date before updating availability."

  /** The state of the availability page. */
  class AvailabilityPage {
    var buses: seq<OwnerBus>
    var selectedBusId: Option<string>
    /** The month shown: `activeMonth.getFullYear()` and `getMonth()`. */
    var activeYear: int
    var activeMonth: int
    var editingDate: Option<int>
    var saving: bool
    var feedback: Option<Feedback>
    var isOffline: bool
    /** `session?.user?.ownerProfile?.id` and `session?.token`. */
    var ownerProfileId: Option<string>
    var token: Option<string>

    constructor (buses: seq<OwnerBus>, selectedBusId: Option<string>, year: int, month: int,
                 isOffline: bool, ownerProfileId: Option<string>, token: Option<string>)
      ensures this.buses == buses && this.selectedBusId == selectedBusId
      ensures activeYear == year && activeMonth == month && editingDate.None? && !saving && feedback.None?
      ensures this.isOffline == isOffline && this.ownerProfileId == ownerProfileId && this.token == token
    {
      this.buses := buses;
      this.selectedBusId := selectedBusId;
      activeYear := year;
      activeMonth := month;
      editingDate := None;
      saving := false;
      feedback := None;
      this.isOffline := isOffline;
      this.ownerProfileId := ownerProfileId;
      this.token := token;
    }

    /** `selectedBus`: the first bus whose id is the selected one. */
    function SelectedBus(): (b: Option<OwnerBus>)
      reads this
      ensures b.Some? ==> selectedBusId == Some(b.value.id) && b.value in buses
      ensures b.None? ==> selectedBusId.None? || forall k :: 0 <= k < |buses| ==> Some(buses[k].id) != selectedBusId
    {
      var wanted := selectedBusId;
      if wanted.None? then None
      else
        match FindIndex(buses, (bus: OwnerBus) => Some(bus.id) == wanted)
        case None => None
        case Some(i) => Some(buses[i])
    }

    /** Whether edits stay local: offline, or no owner profile id, or no token. */
    predicate Local()
      reads this
    {
      isOffline || !Present(ownerProfileId) || !Present(token)
    }

    /** `handleUpdateStatus(day, status, reason)`. Without a selected bus
        nothing happens. A day without a schedule only gets an error and
        closes the editor. Otherwise the day's entry is written as
        `WriteEntry` says. */
    method HandleUpdateStatus(day: int, status: DateStatus, reason: Option<string>,
                              upsert: (string, string, SchedulePayload, string) -> Option<OwnerSchedule>)
      modifies this
      ensures selectedBusId == old(selectedBusId) && activeYear == old(activeYear) && activeMonth == old(activeMonth)
      ensures isOffline == old(isOffline) && ownerProfileId == old(ownerProfileId) && token == old(token)
      ensures old(SelectedBus()).None? ==>
        buses == old(buses) && feedback == old(feedback) && editingDate == old(editingDate) && saving == old(saving)
      ensures old(SelectedBus()).Some? ==> editingDate.None?
      ensures old(SelectedBus()).Some? && day !in Entries(old(SelectedBus()).value.schedules, activeYear, activeMonth) ==>
        buses == old(buses) && saving == old(saving) && feedback == Some(Feedback(Failure, NoScheduleMessage))
      ensures old(SelectedBus()).Some? && day in Entries(old(SelectedBus()).value.schedules, activeYear, activeMonth) ==>
        Written(old(buses), old(saving), old(SelectedBus()).value.id,
                Entries(old(SelectedBus()).value.schedules, activeYear, activeMonth)[day], status, reason, upsert)
    {
      var selected := SelectedBus();
      if selected.None? {
        return;
      }
      var entries := CalendarEntries(selected, activeYear, activeMonth);
      if day !in entries {
        feedback := Some(Feedback(Failure, NoScheduleMessage));
        editingDate := None;
        return;
      }
      WriteEntry(selected.value.id, entries[day], status, reason, upsert);
    }

    /** What writing entry `e` of bus `busId` leaves behind, from the buses
        and saving flag before it. Offline, only that schedule's status and
        reason change, locally. Online, `upsert` is called with the owner
        profile id, the bus id, the payload and the token (`None` when it
        fails); only a reply changes the buses, and saving ends false. The
        editor is closed either way. */
    ghost predicate Written(buses0: seq<OwnerBus>, saving0: bool, busId: string, e: CalendarEntry,
                            status: DateStatus, reason: Option<string>,
                            upsert: (string, string, SchedulePayload, string) -> Option<OwnerSchedule>)
      reads this
    {
      && (Local() ==> WrittenLocally(buses0, saving0, busId, e, status, reason))
      && (!Local() ==> WrittenOnline(buses0, busId, e, status, reason, upsert))
    }

    /** The offline half of `Written`. */
    ghost predicate WrittenLocally(buses0: seq<OwnerBus>, saving0: bool, busId: string, e: CalendarEntry,
                                   status: DateStatus, reason: Option<string>)
      reads this
    {
      && editingDate.None?
      && buses == MarkBuses(buses0, busId, e.schedule.id, StatusForDate(status), NewReason(e, status, reason))
      && saving == saving0
      && feedback == Some(Feedback(Success, "Availability updated locally (offline mode)."))
    }

    /** The online half of `Written`. */
    ghost predicate WrittenOnline(buses0: seq<OwnerBus>, busId: string, e: CalendarEntry,
                                  status: DateStatus, reason: Option<string>,
                                  upsert: (string, string, SchedulePayload, string) -> Option<OwnerSchedule>)
      reads this
      requires !Local()
    {
      var reply := upsert(ownerProfileId.value, busId, PayloadFor(e, status, reason), token.value);
      && editingDate.None?
      && !saving
      && (reply.Some? ==> buses == ReplyBuses(buses0, busId, reply.value)
                          && feedback == Some(Feedback(Success, "Availability updated.")))
      && (reply.None? ==> buses == buses0
                          && feedback == Some(Feedback(Failure, "Failed to update availability. Please try again.")))
    }

    /** Writes the day's entry `e` of bus `busId`, offline or online. */
    method WriteEntry(busId: string, e: CalendarEntry, status: DateStatus, reason: Option<string>,
                      upsert: (string, string, SchedulePayload, string) -> Option<OwnerSchedule>)
      modifies this
      ensures selectedBusId == old(selectedBusId) && activeYear == old(activeYear) && activeMonth == old(activeMonth)
      ensures isOffline == old(isOffline) && ownerProfileId == old(ownerProfileId) && token == old(token)
      ensures Written(old(buses), old(saving), busId, e, status, reason, upsert)
    {
      if Local() {
        WriteLocally(busId, e, status, reason);
      } else {
        WriteOnline(busId, e, status, reason, upsert);
      }
    }

    /** The offline path: the schedule is marked locally. */
    method WriteLocally(busId: string, e: CalendarEntry, status: DateStatus, reason: Option<string>)
      modifies this
      ensures selectedBusId == old(selectedBusId) && activeYear == old(activeYear) && activeMonth == old(activeMonth)
      ensures isOffline == old(isOffline) && ownerProfileId == old(ownerProfileId) && token == old(token)
      ensures WrittenLocally(old(buses), old(saving), busId, e, status, reason)
    {
      var payload := PayloadFor(e, status, reason);
      buses := MarkBuses(buses, busId, e.schedule.id, payload.status, payload.statusReason);
      feedback := Some(Feedback(Success, "Availability updated locally (offline mode)."));
      editingDate := None;
    }

    /** The online path: `upsert` first, and the buses change only with its
        reply. */
    method WriteOnline(busId: string, e: CalendarEntry, status: DateStatus, reason: Option<string>,
                       upsert: (string, string, SchedulePayload, string) -> Option<OwnerSchedule>)
      requires !Local()
      modifies this
      ensures selectedBusId == old(selectedBusId) && activeYear == old(activeYear) && activeMonth == old(activeMonth)
      ensures isOffline == old(isOffline) && ownerProfileId == old(ownerProfileId) && token == old(token)
      ensures WrittenOnline(old(buses), busId, e, status, reason, upsert)
    {
      var payload := PayloadFor(e, status, reason);
      var reply := upsert(ownerProfileId.value, busId, payload, token.value);
      saving := true;
      if reply.Some? {
        buses := ReplyBuses(buses, busId, reply.value);
        feedback := Some(Feedback(Success, "Availability updated."));
      } else {
        feedback := Some(Feedback(Failure, "Failed to update availability. Please try again."));
      }
      saving := false;
      editingDate := None;
    }
  }
}
