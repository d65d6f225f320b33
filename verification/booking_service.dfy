/** Seat reservation and booking lists (backend/src/services/booking.service.js). */
module BookingService {
  import opened Common
  import opened Domain
  import opened Store
  import opened Socket

  /** The request body: `scheduleId` and `seatsRequested`, each possibly absent. */
  datatype BookingPayload = BookingPayload(scheduleId: Option<string>, seatsRequested: Option<int>)

  /** The payload guard: a non-empty schedule id and at least one seat. */
  predicate ValidPayload(p: BookingPayload) {
    Present(p.scheduleId) && p.seatsRequested.Some? && p.seatsRequested.value >= 1
  }

  /** The position of the schedule with id `id`. */
  function ScheduleIndex(schedules: seq<Schedule>, id: string): (r: Option<nat>)
    ensures r.Some? ==> r.value < |schedules| && schedules[r.value].id == id
    ensures r.None? ==> forall k :: 0 <= k < |schedules| ==> schedules[k].id != id
  {
    FindIndex(schedules, (s: Schedule) => s.id == id)
  }

  /** A schedule that can take `n` more passengers. */
  predicate Bookable(s: Schedule, n: int) {
    s.status == ACTIVE && s.availableSeats >= n
  }

  /** The checks `createBooking` makes before writing anything, in their
      order: the payload (400), the schedule's existence and status (409),
      then the free seats (409). On success, the position of the schedule.
      Schedule ids are the table's primary key, hence distinct. */
  function Admission(schedules: seq<Schedule>, p: BookingPayload): (r: Result<nat>)
    requires Unique(schedules, ScheduleId)
    ensures r.Err? ==> r.error in {Http(400, "Invalid booking payload"), Http(409, "Schedule unavailable"),
                                   Http(409, "Not enough seats available")}
    ensures !ValidPayload(p) <==> r == Err(Http(400, "Invalid booking payload"))
    ensures ValidPayload(p) ==>
              (r == Err(Http(409, "Schedule unavailable")) <==>
                 forall k :: 0 <= k < |schedules| && schedules[k].id == p.scheduleId.value ==> schedules[k].status != ACTIVE)
    ensures ValidPayload(p) ==>
              (r == Err(Http(409, "Not enough seats available")) <==>
                 exists k :: 0 <= k < |schedules| && schedules[k].id == p.scheduleId.value
                   && schedules[k].status == ACTIVE && schedules[k].availableSeats < p.seatsRequested.value)
    ensures r.Ok? <==>
              ValidPayload(p) && exists k :: 0 <= k < |schedules| && schedules[k].id == p.scheduleId.value
                                  && Bookable(schedules[k], p.seatsRequested.value)
    ensures r.Ok? ==> r.value < |schedules| && schedules[r.value].id == p.scheduleId.value
                      && Bookable(schedules[r.value], p.seatsRequested.value)
  {
    if !ValidPayload(p) then Err(Http(400, "Invalid booking payload"))
    else
      match ScheduleIndex(schedules, p.scheduleId.value)
      case None => Err(Http(409, "Schedule unavailable"))
      case Some(i) =>
        if schedules[i].status != ACTIVE then Err(Http(409, "Schedule unavailable"))
        else if schedules[i].availableSeats < p.seatsRequested.value then Err(Http(409, "Not enough seats available"))
        else Ok(i)
  }

  /** `createBooking`: admits the request, takes the seats off the schedule,
      records a confirmed booking priced at `price * seats` for the bus's
      owner, then announces it to the customers, the admins and the owner's
      room. A refused request changes no table and announces nothing.
      `newId` and `now` are the id and timestamp the database assigns. */
  method CreateBooking(db: Database, hub: Hub<Event>, userId: string, p: BookingPayload, newId: string, now: int)
    returns (r: Result<Booking>)
    requires db.Valid()
    requires forall k :: 0 <= k < |db.bookings| ==> db.bookings[k].id != newId
    modifies db, hub
    ensures db.Valid()
    ensures hub.io == old(hub.io) && hub.connections == old(hub.connections)
    ensures r.Err? ==> Admission(old(db.schedules), p) == Err(r.error)
    ensures r.Err? ==> db.schedules == old(db.schedules) && db.bookings == old(db.bookings)
                       && hub.outbox == old(hub.outbox)
    ensures r.Ok? <==> Admission(old(db.schedules), p).Ok?
    ensures r.Ok? ==>
      var i := Admission(old(db.schedules), p).value;
      var s := old(db.schedules)[i];
      var n := p.seatsRequested.value;
      && db.schedules == old(db.schedules)[i := s.(availableSeats := s.availableSeats - n)]
      && db.schedules[i].availableSeats >= 0
      && db.bookings == old(db.bookings) + [r.value]
      && r.value.id == newId && r.value.userId == userId && r.value.scheduleId == s.id
      && r.value.seatsBooked == n && r.value.totalAmount == s.price * n
      && r.value.status == "CONFIRMED" && r.value.createdAt == now
      && exists j :: 0 <= j < |db.buses| && db.buses[j].id == s.busId
           && r.value.ownerId == db.buses[j].ownerId
           && var e := BookingEvent(r.value, db.schedules[i], db.buses[j]);
              hub.outbox == old(hub.outbox) + Published(hub.io, [
                Emit(Users, "booking:confirmed", e),
                Emit(Admins, "booking:confirmed", e),
                Emit(OwnerRoom(r.value.ownerId), "booking:confirmed", e)])
    ensures db.users == old(db.users) && db.profiles == old(db.profiles) && db.buses == old(db.buses)
    ensures db.audit == old(db.audit) && db.media == old(db.media) && db.pricing == old(db.pricing)
  {
    var verdict := Admission(db.schedules, p);
    if verdict.Err? {
      return Err(verdict.error);
    }
    var i := verdict.value;
    var s := db.schedules[i];
    var n := p.seatsRequested.value;
    assert HasBus(db.buses, s.busId);
    var bi := FindIndex(db.buses, (b: Bus) => b.id == s.busId);
    assert bi.Some?;
    var bus := db.buses[bi.value];
    assert bus.id == s.busId;

    var updated := s.(availableSeats := s.availableSeats - n);
    var booking := Booking(newId, userId, s.id, bus.ownerId, n, s.price * n, "CONFIRMED", now);
    UpdateKeepsUnique(db.schedules, ScheduleId, i, updated);
    AppendKeepsUnique(db.bookings, BookingId, booking);
    SameScheduleBuses(db.buses, db.schedules, db.schedules[i := updated]);
    db.schedules := db.schedules[i := updated];
    db.bookings := db.bookings + [booking];

    var event := BookingEvent(booking, updated, bus);
    ghost var outbox0 := hub.outbox;
    hub.EmitToUsers("booking:confirmed", event);
    hub.EmitToAdmins("booking:confirmed", event);
    hub.EmitToOwners(booking.ownerId, "booking:confirmed", event);
    PublishThree(hub.io, outbox0,
                 Emit(Users, "booking:confirmed", event),
                 Emit(Admins, "booking:confirmed", event),
                 Emit(OwnerRoom(booking.ownerId), "booking:confirmed", event));
    assert db.buses[bi.value] == bus && db.schedules[i] == updated;
    r := Ok(booking);
  }

  function CreatedAt(b: Booking): int { b.createdAt }

  /** The bookings whose `key` column is `id`, each as many times as
      stored, newest first: the query both booking lists run. */
  function NewestFirstWhere(bookings: seq<Booking>, key: Booking -> string, id: string): (r: seq<Booking>)
    ensures forall b :: b in r <==> b in bookings && key(b) == id
    ensures forall b :: multiset(r)[b] == if key(b) == id then multiset(bookings)[b] else 0
    ensures SortedDesc(r, CreatedAt)
  {
    SortDesc(Filter(bookings, (b: Booking) => key(b) == id), CreatedAt)
  }

  function BookingOwnerId(b: Booking): string { b.ownerId }
  function BookingUserId(b: Booking): string { b.userId }

  /** `listBookingsForOwner`: exactly the bookings of the owner, each as many
      times as stored, newest first. */
  function BookingsForOwner(bookings: seq<Booking>, ownerId: string): (r: seq<Booking>)
    ensures forall b :: b in r <==> b in bookings && b.ownerId == ownerId
    ensures forall b :: multiset(r)[b] == if b.ownerId == ownerId then multiset(bookings)[b] else 0
    ensures SortedDesc(r, CreatedAt)
  {
    NewestFirstWhere(bookings, BookingOwnerId, ownerId)
  }

  /** `listBookingsForUser`: exactly the caller's bookings, each as many
      times as stored, newest first. */
  function BookingsForUser(bookings: seq<Booking>, userId: string): (r: seq<Booking>)
    ensures forall b :: b in r <==> b in bookings && b.userId == userId
    ensures forall b :: multiset(r)[b] == if b.userId == userId then multiset(bookings)[b] else 0
    ensures SortedDesc(r, CreatedAt)
  {
    NewestFirstWhere(bookings, BookingUserId, userId)
  }

  /** In a newest-first list, a booking newer than every other one is first. */
  lemma NewestIsFirst(r: seq<Booking>, b: Booking)
    requires SortedDesc(r, CreatedAt) && b in r
    requires forall x :: x in r && x != b ==> x.createdAt < b.createdAt
    ensures r[0] == b
  {
    var i :| 0 <= i < |r| && r[i] == b;
  }

  /** A booking just created appears at the head of its customer's list when
      no earlier booking of that customer is newer. */
  lemma NewBookingListedFirst(bookings: seq<Booking>, b: Booking)
    requires forall k :: 0 <= k < |bookings| && bookings[k].userId == b.userId ==> bookings[k].createdAt < b.createdAt
    ensures var r := BookingsForUser(bookings + [b], b.userId); |r| > 0 && r[0] == b
  {
    var r := BookingsForUser(bookings + [b], b.userId);
    forall x | x in r && x != b
      ensures x.createdAt < b.createdAt
    {
      assert x in bookings;
      var k :| 0 <= k < |bookings| && bookings[k] == x;
    }
    NewestIsFirst(r, b);
  }
}
