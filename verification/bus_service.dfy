/** Buses and their schedules (backend/src/services/bus.service.js). */
module BusService {
  import opened Common
  import opened Domain
  import opened Store
  import opened Socket

  function BusCreatedAt(b: Bus): int { b.createdAt }
  function Departure(s: Schedule): int { s.departureDate }
  function BusOf(d: BusWithSchedules): Bus { d.bus }

  /** The schedules of bus `busId`, in table order. */
  function SchedulesOf(schedules: seq<Schedule>, busId: string): (r: seq<Schedule>)
    ensures forall s :: s in r <==> s in schedules && s.busId == busId
    ensures IsSubsequence(r, schedules)
  {
    Filter(schedules, (s: Schedule) => s.busId == busId)
  }

  /** The `ACTIVE` schedules of bus `busId`, in table order. */
  function ActiveSchedulesOf(schedules: seq<Schedule>, busId: string): (r: seq<Schedule>)
    ensures forall s :: s in r <==> s in schedules && s.busId == busId && s.status == ACTIVE
    ensures IsSubsequence(r, schedules)
  {
    Filter(schedules, (s: Schedule) => s.busId == busId && s.status == ACTIVE)
  }

  /** `listActiveBuses`: every bus with `active` set, in table order, each
      with only its `ACTIVE` schedules. */
  function ActiveBuses(buses: seq<Bus>, schedules: seq<Schedule>): (r: seq<BusWithSchedules>)
    ensures forall b :: b in MapSeq(r, BusOf) <==> b in buses && b.active
    ensures IsSubsequence(MapSeq(r, BusOf), buses)
    ensures forall k :: 0 <= k < |r| ==>
              forall s :: s in r[k].schedules <==> s in schedules && s.busId == r[k].bus.id && s.status == ACTIVE
  {
    var shown := Filter(buses, (b: Bus) => b.active);
    var r := MapSeq(shown, (b: Bus) => BusWithSchedules(b, ActiveSchedulesOf(schedules, b.id)));
    assert MapSeq(r, BusOf) == shown;
    r
  }

  /** `getOwnerBuses`: exactly the owner's buses, newest first, each with
      all of its schedules. */
  function OwnerBuses(buses: seq<Bus>, schedules: seq<Schedule>, ownerId: string): (r: seq<BusWithSchedules>)
    ensures forall b :: multiset(MapSeq(r, BusOf))[b] == if b.ownerId == ownerId then multiset(buses)[b] else 0
    ensures SortedDesc(MapSeq(r, BusOf), BusCreatedAt)
    ensures forall k :: 0 <= k < |r| ==> forall s :: s in r[k].schedules <==> s in schedules && s.busId == r[k].bus.id
  {
    var mine := SortDesc(Filter(buses, (b: Bus) => b.ownerId == ownerId), BusCreatedAt);
    var r := MapSeq(mine, (b: Bus) => BusWithSchedules(b, SchedulesOf(schedules, b.id)));
    assert MapSeq(r, BusOf) == mine;
    r
  }

  /** `getBusSchedules`: the bus's `ACTIVE` schedules, earliest departure first. */
  function BusSchedules(schedules: seq<Schedule>, busId: string): (r: seq<Schedule>)
    ensures forall s :: multiset(r)[s] == if s.busId == busId && s.status == ACTIVE then multiset(schedules)[s] else 0
    ensures SortedAsc(r, Departure)
  {
    SortAsc(Filter(schedules, (s: Schedule) => s.busId == busId && s.status == ACTIVE), Departure)
  }

  /** The request body of `createBus`; `None` is an absent or null field. */
  datatype NewBus = NewBus(
    title: string,
    registrationNo: string,
    capacity: int,
    description: Option<string>,
    amenities: Option<seq<string>>)

  /** The row `createBus` inserts: a falsy description becomes null, absent
      amenities become `[]`; a new bus awaits approval and is active. */
  function NewBusRow(id: string, ownerId: string, p: NewBus, now: int): (b: Bus)
    ensures b.id == id && b.ownerId == ownerId && b.createdAt == now
    ensures b.title == p.title && b.registrationNo == p.registrationNo && b.capacity == p.capacity
    ensures b.description == (if Present(p.description) then p.description else None)
    ensures b.amenities == p.amenities.GetOr([])
    ensures b.approvalStatus == PENDING && b.active && b.approvalNote == JNull
  {
    Bus(id, ownerId, p.title, p.registrationNo, p.capacity,
        if Present(p.description) then p.description else None,
        p.amenities.GetOr([]), true, PENDING, JNull, now)
  }

  /** Whether some owner profile has id `ownerId` (the bus's foreign key). */
  predicate HasProfile(profiles: seq<OwnerProfile>, ownerId: string) {
    exists j :: 0 <= j < |profiles| && profiles[j].id == ownerId
  }

  /** `createBus`: inserts the bus and announces `bus:created` to the admins,
      the customers and the owner's room. A bus whose owner profile does not
      exist is refused by the database. */
  method CreateBus(db: Database, hub: Hub<Event>, ownerId: string, p: NewBus, newId: string, now: int)
    returns (r: Result<Bus>)
    requires db.Valid()
    requires forall k :: 0 <= k < |db.buses| ==> db.buses[k].id != newId
    modifies db, hub
    ensures db.Valid()
    ensures hub.io == old(hub.io) && hub.connections == old(hub.connections)
    ensures r.Err? <==> !HasProfile(db.profiles, ownerId)
    ensures r.Err? ==> r.error.Fault? && db.buses == old(db.buses) && hub.outbox == old(hub.outbox)
    ensures r.Ok? ==>
      && r.value == NewBusRow(newId, ownerId, p, now)
      && db.buses == old(db.buses) + [r.value]
      && hub.outbox == old(hub.outbox) + Published(hub.io, [
           Emit(Admins, "bus:created", BusEvent(r.value)),
           Emit(Users, "bus:created", BusEvent(r.value)),
           Emit(OwnerRoom(ownerId), "bus:created", BusEvent(r.value))])
    ensures db.users == old(db.users) && db.profiles == old(db.profiles) && db.schedules == old(db.schedules)
    ensures db.bookings == old(db.bookings) && db.audit == old(db.audit)
    ensures db.media == old(db.media) && db.pricing == old(db.pricing)
  {
    var owner := FindIndex(db.profiles, (o: OwnerProfile) => o.id == ownerId);
    if owner.None? {
      return Err(Fault("Foreign key constraint violated on the field: ownerId"));
    }
    var bus := NewBusRow(newId, ownerId, p, now);
    AppendKeepsUnique(db.buses, BusId, bus);
    AppendKeepsBuses(db.buses, bus, db.schedules);
    db.buses := db.buses + [bus];
    ghost var outbox0 := hub.outbox;
    hub.EmitToAdmins("bus:created", BusEvent(bus));
    hub.EmitToUsers("bus:created", BusEvent(bus));
    hub.EmitToOwners(ownerId, "bus:created", BusEvent(bus));
    PublishThree(hub.io, outbox0,
                 Emit(Admins, "bus:created", BusEvent(bus)),
                 Emit(Users, "bus:created", BusEvent(bus)),
                 Emit(OwnerRoom(ownerId), "bus:created", BusEvent(bus)));
    r := Ok(bus);
  }

  /** `broadcastBusUpdate`: `bus:updated` to the customers, the admins and
      the owner's room, in that order. */
  method BroadcastBusUpdate(hub: Hub<Event>, ownerId: string, detail: Option<BusWithSchedules>)
    modifies hub
    ensures hub.io == old(hub.io) && hub.connections == old(hub.connections)
    ensures hub.outbox == old(hub.outbox) + Published(hub.io, [
              Emit(Users, "bus:updated", BusDetailEvent(detail)),
              Emit(Admins, "bus:updated", BusDetailEvent(detail)),
              Emit(OwnerRoom(ownerId), "bus:updated", BusDetailEvent(detail))])
  {
    ghost var outbox0 := hub.outbox;
    hub.EmitToUsers("bus:updated", BusDetailEvent(detail));
    hub.EmitToAdmins("bus:updated", BusDetailEvent(detail));
    hub.EmitToOwners(ownerId, "bus:updated", BusDetailEvent(detail));
    PublishThree(hub.io, outbox0,
                 Emit(Users, "bus:updated", BusDetailEvent(detail)),
                 Emit(Admins, "bus:updated", BusDetailEvent(detail)),
                 Emit(OwnerRoom(ownerId), "bus:updated", BusDetailEvent(detail)));
  }

  /** The request body of `updateBus`; `None` is an absent or null field. */
  datatype BusChanges = BusChanges(
    title: Option<string>,
    description: Option<string>,
    amenities: Option<seq<string>>,
    capacity: Option<int>,
    active: Option<bool>)

  /** The row after `updateBus`: an absent title or capacity leaves the
      column as it was; description, amenities and active fall back to null,
      `[]` and `true`; the approval columns are never touched. */
  function ApplyBusChanges(b: Bus, c: BusChanges): (r: Bus)
    ensures r.id == b.id && r.ownerId == b.ownerId && r.registrationNo == b.registrationNo
    ensures r.approvalStatus == b.approvalStatus && r.approvalNote == b.approvalNote
    ensures r.createdAt == b.createdAt
    ensures r.title == c.title.GetOr(b.title) && r.capacity == c.capacity.GetOr(b.capacity)
    ensures r.description == c.description && r.amenities == c.amenities.GetOr([])
    ensures r.active == c.active.GetOr(true)
  {
    b.(title := c.title.GetOr(b.title),
       description := c.description,
       amenities := c.amenities.GetOr([]),
       capacity := c.capacity.GetOr(b.capacity),
       active := c.active.GetOr(true))
  }

  /** Applying the same changes twice is applying them once. */
  lemma ApplyBusChangesIdempotent(b: Bus, c: BusChanges)
    ensures ApplyBusChanges(ApplyBusChanges(b, c), c) == ApplyBusChanges(b, c)
  {
  }

  /** `updateBus`: updates the bus only when it has both the given id and
      the given owner; then broadcasts it with its schedules. */
  method UpdateBus(db: Database, hub: Hub<Event>, ownerId: string, busId: string, c: BusChanges)
    returns (r: Result<BusWithSchedules>)
    requires db.Valid()
    modifies db, hub
    ensures db.Valid()
    ensures hub.io == old(hub.io) && hub.connections == old(hub.connections)
    ensures r.Err? <==> forall k :: 0 <= k < |old(db.buses)| ==> !(old(db.buses)[k].id == busId && old(db.buses)[k].ownerId == ownerId)
    ensures r.Err? ==> r.error.Fault? && db.buses == old(db.buses) && hub.outbox == old(hub.outbox)
    ensures r.Ok? ==>
      exists k :: 0 <= k < |old(db.buses)| && old(db.buses)[k].id == busId && old(db.buses)[k].ownerId == ownerId
        && db.buses == old(db.buses)[k := ApplyBusChanges(old(db.buses)[k], c)]
        && r.value == BusWithSchedules(db.buses[k], SchedulesOf(db.schedules, busId))
        && hub.outbox == old(hub.outbox) + Published(hub.io, [
             Emit(Users, "bus:updated", BusDetailEvent(Some(r.value))),
             Emit(Admins, "bus:updated", BusDetailEvent(Some(r.value))),
             Emit(OwnerRoom(ownerId), "bus:updated", BusDetailEvent(Some(r.value)))])
    ensures db.users == old(db.users) && db.profiles == old(db.profiles) && db.schedules == old(db.schedules)
    ensures db.bookings == old(db.bookings) && db.audit == old(db.audit)
    ensures db.media == old(db.media) && db.pricing == old(db.pricing)
  {
    var found := FindIndex(db.buses, (b: Bus) => b.id == busId && b.ownerId == ownerId);
    if found.None? {
      return Err(Fault("Record to update not found."));
    }
    var k := found.value;
    var updated := ApplyBusChanges(db.buses[k], c);
    var buses := db.buses[k := updated];
    UpdateKeepsUnique(db.buses, BusId, k, updated);
    SameBusIds(db.buses, buses, db.schedules);
    db.buses := buses;
    var detail := BusWithSchedules(updated, SchedulesOf(db.schedules, busId));
    BroadcastBusUpdate(hub, ownerId, Some(detail));
    r := Ok(detail);
  }

  /** The request body of `upsertSchedule`; `None` is an absent field, and
      `arrivalDate` is `None` for every falsy value. */
  datatype ScheduleInput = ScheduleInput(
    id: Option<string>,
    departureDate: int,
    arrivalDate: Option<int>,
    origin: Option<string>,
    destination: Option<string>,
    availableSeats: Option<int>,
    price: Option<int>,
    status: Option<ScheduleStatus>,
    statusReason: Option<string>)

  /** The schedule after the update branch: dates and the reason are always
      written (a missing reason becomes null); an absent origin, destination,
      seat count, price or status leaves that column as it was; the bus
      stays the same. */
  function ReviseSchedule(s: Schedule, d: ScheduleInput): (r: Schedule)
    ensures r.id == s.id && r.busId == s.busId
    ensures r.departureDate == d.departureDate && r.arrivalDate == d.arrivalDate
    ensures r.statusReason == d.statusReason
    ensures r.origin == d.origin.GetOr(s.origin) && r.destination == d.destination.GetOr(s.destination)
    ensures r.availableSeats == d.availableSeats.GetOr(s.availableSeats) && r.price == d.price.GetOr(s.price)
    ensures r.status == d.status.GetOr(s.status)
  {
    s.(departureDate := d.departureDate,
       arrivalDate := d.arrivalDate,
       origin := d.origin.GetOr(s.origin),
       destination := d.destination.GetOr(s.destination),
       availableSeats := d.availableSeats.GetOr(s.availableSeats),
       price := d.price.GetOr(s.price),
       status := d.status.GetOr(s.status),
       statusReason := d.statusReason)
  }

  /** Whether the create branch has every column it must write. */
  predicate Complete(d: ScheduleInput) {
    d.origin.Some? && d.destination.Some? && d.availableSeats.Some? && d.price.Some?
  }

  /** The schedule the create branch inserts: status `ACTIVE` unless given. */
  function FreshSchedule(id: string, busId: string, d: ScheduleInput): (r: Schedule)
    requires Complete(d)
    ensures r.id == id && r.busId == busId
    ensures r.departureDate == d.departureDate && r.arrivalDate == d.arrivalDate
    ensures r.statusReason == d.statusReason
    ensures r.origin == d.origin.value && r.destination == d.destination.value
    ensures r.availableSeats == d.availableSeats.value && r.price == d.price.value
    ensures r.status == d.status.GetOr(ACTIVE)
  {
    Schedule(id, busId, d.departureDate, d.arrivalDate, d.origin.value, d.destination.value,
             d.availableSeats.value, d.price.value, d.status.GetOr(ACTIVE), d.statusReason)
  }

  /** The bus `busId` with all its schedules, or `None` (`findUnique`). */
  function BusDetail(buses: seq<Bus>, schedules: seq<Schedule>, busId: string): (r: Option<BusWithSchedules>)
    ensures r.None? <==> !HasBus(buses, busId)
    ensures r.Some? ==> r.value.bus in buses && r.value.bus.id == busId
                        && forall s :: s in r.value.schedules <==> s in schedules && s.busId == busId
  {
    match FindIndex(buses, (b: Bus) => b.id == busId)
    case None => None
    case Some(k) => Some(BusWithSchedules(buses[k], SchedulesOf(schedules, busId)))
  }

  /** The update branch of `upsertSchedule`: rewrites the schedule whose id
      is `id`, or fails when there is none. */
  method ReviseStoredSchedule(db: Database, id: string, d: ScheduleInput) returns (r: Result<Schedule>)
    requires db.Valid()
    modifies db
    ensures db.Valid()
    ensures r.Err? <==> forall k :: 0 <= k < |old(db.schedules)| ==> old(db.schedules)[k].id != id
    ensures r.Err? ==> r.error.Fault? && db.schedules == old(db.schedules)
    ensures r.Ok? ==>
      exists k :: 0 <= k < |old(db.schedules)| && old(db.schedules)[k].id == id
        && r.value == ReviseSchedule(old(db.schedules)[k], d)
        && db.schedules == old(db.schedules)[k := r.value]
    ensures db.users == old(db.users) && db.profiles == old(db.profiles) && db.buses == old(db.buses)
    ensures db.bookings == old(db.bookings) && db.audit == old(db.audit)
    ensures db.media == old(db.media) && db.pricing == old(db.pricing)
  {
    var found := FindIndex(db.schedules, (s: Schedule) => s.id == id);
    if found.None? {
      return Err(Fault("Record to update not found."));
    }
    var k := found.value;
    var schedule := ReviseSchedule(db.schedules[k], d);
    db.schedules := db.schedules[k := schedule];
    assert forall j :: 0 <= j < |db.schedules| ==> db.schedules[j].busId == old(db.schedules)[j].busId;
    r := Ok(schedule);
  }

  /** The create branch of `upsertSchedule`: inserts one schedule on bus
      `busId`, or fails when a column is missing or the bus does not exist. */
  method InsertSchedule(db: Database, busId: string, d: ScheduleInput, newId: string) returns (r: Result<Schedule>)
    requires db.Valid()
    requires forall k :: 0 <= k < |db.schedules| ==> db.schedules[k].id != newId
    modifies db
    ensures db.Valid()
    ensures r.Ok? <==> Complete(d) && HasBus(db.buses, busId)
    ensures r.Err? ==> r.error.Fault? && db.schedules == old(db.schedules)
    ensures r.Ok? ==> r.value == FreshSchedule(newId, busId, d) && db.schedules == old(db.schedules) + [r.value]
    ensures db.users == old(db.users) && db.profiles == old(db.profiles) && db.buses == old(db.buses)
    ensures db.bookings == old(db.bookings) && db.audit == old(db.audit)
    ensures db.media == old(db.media) && db.pricing == old(db.pricing)
  {
    if !Complete(d) {
      return Err(Fault("Argument is missing."));
    }
    var bus := FindIndex(db.buses, (b: Bus) => b.id == busId);
    if bus.None? {
      return Err(Fault("Foreign key constraint violated on the field: busId"));
    }
    var schedule := FreshSchedule(newId, busId, d);
    db.schedules := db.schedules + [schedule];
    r := Ok(schedule);
  }

  /** `upsertSchedule`: with a truthy `id`, updates the schedule having that
      id, whichever bus it belongs to; otherwise inserts one schedule on
      `busId`. After either, broadcasts bus `busId` (or null when there is no
      such bus) to the audiences of owner `ownerId`. */
  method UpsertSchedule(db: Database, hub: Hub<Event>, ownerId: string, busId: string, d: ScheduleInput, newId: string)
    returns (r: Result<Schedule>)
    requires db.Valid()
    requires forall k :: 0 <= k < |db.schedules| ==> db.schedules[k].id != newId
    modifies db, hub
    ensures db.Valid()
    ensures hub.io == old(hub.io) && hub.connections == old(hub.connections)
    ensures Present(d.id) ==>
      (r.Err? <==> forall k :: 0 <= k < |old(db.schedules)| ==> old(db.schedules)[k].id != d.id.value)
    ensures Present(d.id) && r.Ok? ==>
      exists k :: 0 <= k < |old(db.schedules)| && old(db.schedules)[k].id == d.id.value
        && r.value == ReviseSchedule(old(db.schedules)[k], d)
        && db.schedules == old(db.schedules)[k := r.value]
    ensures !Present(d.id) ==> (r.Ok? <==> Complete(d) && HasBus(db.buses, busId))
    ensures !Present(d.id) && r.Ok? ==>
      r.value == FreshSchedule(newId, busId, d) && db.schedules == old(db.schedules) + [r.value]
    ensures r.Err? ==> r.error.Fault? && db.schedules == old(db.schedules) && hub.outbox == old(hub.outbox)
    ensures r.Ok? ==>
      var e := BusDetailEvent(BusDetail(db.buses, db.schedules, busId));
      hub.outbox == old(hub.outbox) + Published(hub.io, [Emit(Users, "bus:updated", e),
                                                         Emit(Admins, "bus:updated", e),
                                                         Emit(OwnerRoom(ownerId), "bus:updated", e)])
    ensures db.users == old(db.users) && db.profiles == old(db.profiles) && db.buses == old(db.buses)
    ensures db.bookings == old(db.bookings) && db.audit == old(db.audit)
    ensures db.media == old(db.media) && db.pricing == old(db.pricing)
  {
    if Present(d.id) {
      r := ReviseStoredSchedule(db, d.id.value, d);
    } else {
      r := InsertSchedule(db, busId, d, newId);
    }
    if r.Ok? {
      BroadcastBusUpdate(hub, ownerId, BusDetail(db.buses, db.schedules, busId));
    }
  }

  /** The update branch is not scoped by bus or owner: it rewrites a schedule
      of another bus just as well, while the broadcast names bus `busId`. */
  lemma UpsertReachesOtherBuses(schedules: seq<Schedule>, k: nat, d: ScheduleInput, busId: string)
    requires k < |schedules| && Present(d.id) && schedules[k].id == d.id.value
    requires schedules[k].busId != busId
    ensures ReviseSchedule(schedules[k], d).busId != busId
    ensures ReviseSchedule(schedules[k], d).id == d.id.value
  {
  }
}
