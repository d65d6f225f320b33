/** The backend's rows (the Prisma models the services read and write) and
    the payloads they push to the real-time channels. Dates are instants
    counted as integers; prices and totals are integer minor units. */
module Domain {
  import opened Common

  datatype Role = ADMIN | OWNER | CUSTOMER

  /** A stored user; `email` is kept lower-cased. */
  datatype User = User(
    id: string,
    email: string,
    passwordHash: string,
    firstName: string,
    lastName: string,
    phone: Option<string>,
    role: Role)

  /** An owner's company profile, one per owner user. */
  datatype OwnerProfile = OwnerProfile(
    id: string,
    userId: string,
    companyName: string,
    gstNumber: Option<string>,
    address: Option<string>,
    verifiedByAdmin: bool)

  datatype ApprovalStatus = PENDING | APPROVED | REJECTED

  /** A bus; `ownerId` is the id of its owner's profile. */
  datatype Bus = Bus(
    id: string,
    ownerId: string,
    title: string,
    registrationNo: string,
    capacity: int,
    description: Option<string>,
    amenities: seq<string>,
    active: bool,
    approvalStatus: ApprovalStatus,
    approvalNote: Json,
    createdAt: int)

  datatype ScheduleStatus = ACTIVE | SOLD_OUT | CANCELLED | MAINTENANCE | BLOCKED

  /** One dated departure of a bus. */
  datatype Schedule = Schedule(
    id: string,
    busId: string,
    departureDate: int,
    arrivalDate: Option<int>,
    origin: string,
    destination: string,
    availableSeats: int,
    price: int,
    status: ScheduleStatus,
    statusReason: Option<string>)

  datatype Booking = Booking(
    id: string,
    userId: string,
    scheduleId: string,
    ownerId: string,
    seatsBooked: int,
    totalAmount: int,
    status: string,
    createdAt: int)

  /** A photo or video of a bus; `data` holds inline bytes when uploaded. */
  datatype Media = Media(
    id: string,
    busId: string,
    fileName: string,
    mimeType: string,
    kind: string,
    url: Option<string>,
    data: Option<seq<bv8>>,
    createdAt: int,
    updatedAt: int)

  /** `Media` as the admin API returns it: inline bytes as base64 text. */
  datatype MediaView = MediaView(
    id: string,
    busId: string,
    fileName: string,
    mimeType: string,
    kind: string,
    url: Option<string>,
    data: Option<string>,
    createdAt: int,
    updatedAt: int)

  /** The pricing row of a bus; its columns are carried as one JSON value. */
  datatype Pricing = Pricing(id: string, busId: string, details: Json)

  /** The columns of the owner's user that the admin reads select. */
  datatype OwnerContact = OwnerContact(firstName: string, lastName: string, email: string)

  /** The `owner` relation as the admin reads include it: the owner profile
      with its user's name and e-mail. */
  datatype BusOwner = BusOwner(profile: OwnerProfile, user: Option<OwnerContact>)

  /** A bus read with its `owner`, `media` and `pricing` relations; `media`
      is `None` when the relation was not loaded as an array. */
  datatype LoadedBus = LoadedBus(bus: Bus, owner: Option<BusOwner>, media: Option<seq<Media>>, pricing: Option<Pricing>)

  /** The admin API's view of a bus. */
  datatype FormattedBus = FormattedBus(bus: Bus, owner: Option<BusOwner>, media: seq<MediaView>, pricing: Option<Pricing>)

  /** A bus read with its `schedules` relation. */
  datatype BusWithSchedules = BusWithSchedules(bus: Bus, schedules: seq<Schedule>)

  datatype AuditAction = OWNER_APPROVED | BUS_APPROVED | BUS_REJECTED

  datatype AuditPayload =
    | OwnerRef(ownerId: string)
    | BusRef(busId: string, note: Json)

  /** One row of the append-only audit log. */
  datatype AuditEntry = AuditEntry(
    actorId: string,
    action: AuditAction,
    entity: string,
    entityId: string,
    payload: AuditPayload)

  /** What the services push to the real-time rooms. */
  datatype Event =
    | BookingEvent(booking: Booking, schedule: Schedule, bus: Bus)
    | BusEvent(bus: Bus)
    | BusDetailEvent(detail: Option<BusWithSchedules>)
    | FormattedBusEvent(formatted: FormattedBus)
    | BusRemovedEvent(id: string)
    | OwnerEvent(profile: OwnerProfile, user: Option<User>)

  /** `v ?? null` for an optional JSON value. */
  function OrNull(v: Option<Json>): (r: Json)
    ensures Nullish(v) ==> r == JNull
    ensures !Nullish(v) ==> r == v.value
  {
    if v.Some? then v.value else JNull
  }
}
