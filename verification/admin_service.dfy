/** Admin moderation (backend/src/services/admin.service.js): the media and
    bus projections, owner approval, the dashboard counts, the pending queue
    and the approve/reject decisions. Base64 encoding of inline media bytes
    is the parameter `encode`. */
module AdminService {
  import opened Common
  import opened Domain
  import opened Store
  import opened Socket

  /** `formatMedia`: a missing item stays missing; otherwise every column is
      kept and inline bytes, when there are any, become their base64 text. */
  function FormatMedia(m: Option<Media>, encode: seq<bv8> -> string): (r: Option<MediaView>)
    ensures m.None? <==> r.None?
    ensures m.Some? ==>
      var x, v := m.value, r.value;
      && v.id == x.id && v.busId == x.busId && v.fileName == x.fileName && v.mimeType == x.mimeType
      && v.kind == x.kind && v.url == x.url && v.createdAt == x.createdAt && v.updatedAt == x.updatedAt
      && (x.data.None? ==> v.data.None?)
      && (x.data.Some? ==> v.data == Some(encode(x.data.value)))
  {
    match m
    case None => None
    case Some(x) =>
      Some(MediaView(x.id, x.busId, x.fileName, x.mimeType, x.kind, x.url,
                     if x.data.Some? then Some(encode(x.data.value)) else None,
                     x.createdAt, x.updatedAt))
  }

  /** The reverse projection, given a base64 decoder. */
  function UnformatMedia(v: MediaView, decode: string -> seq<bv8>): (m: Media)
    ensures m.id == v.id && m.busId == v.busId && m.url == v.url
    ensures m.data.Some? <==> v.data.Some?
  {
    Media(v.id, v.busId, v.fileName, v.mimeType, v.kind, v.url,
          if v.data.Some? then Some(decode(v.data.value)) else None,
          v.createdAt, v.updatedAt)
  }

  /** The projection loses nothing when base64 decoding undoes encoding. */
  lemma FormatMediaRoundTrip(m: Media, encode: seq<bv8> -> string, decode: string -> seq<bv8>)
    requires forall b :: decode(encode(b)) == b
    ensures UnformatMedia(FormatMedia(Some(m), encode).value, decode) == m
  {
    if m.data.Some? {
      assert decode(encode(m.data.value)) == m.data.value;
    }
  }

  /** `formatBus`: a missing bus stays missing; otherwise every bus column is
      kept, each loaded media item is formatted (no media array gives `[]`)
      and a missing pricing becomes null. */
  function FormatBus(b: Option<LoadedBus>, encode: seq<bv8> -> string): (r: Option<FormattedBus>)
    ensures b.None? <==> r.None?
    ensures b.Some? ==>
      && r.value.bus == b.value.bus
      && r.value.owner == b.value.owner
      && r.value.pricing == b.value.pricing
      && (b.value.media.None? ==> r.value.media == [])
      && (b.value.media.Some? ==>
            && |r.value.media| == |b.value.media.value|
            && forall k :: 0 <= k < |r.value.media| ==>
                 Some(r.value.media[k]) == FormatMedia(Some(b.value.media.value[k]), encode))
  {
    match b
    case None => None
    case Some(x) =>
      var media := if x.media.Some? then MapSeq(x.media.value, (m: Media) => FormatMedia(Some(m), encode).value) else [];
      Some(FormattedBus(x.bus, x.owner, media, x.pricing))
  }

  function MediaBusId(m: Media): string { m.busId }

  /** The `owner` relation of a bus: the profile whose id is the bus's
      `ownerId`, with the name and e-mail of the profile's user. */
  function OwnerOfBus(b: Bus, profiles: seq<OwnerProfile>, users: seq<User>): (r: Option<BusOwner>)
    ensures r.Some? <==> exists k :: 0 <= k < |profiles| && profiles[k].id == b.ownerId
    ensures r.Some? ==> r.value.profile in profiles && r.value.profile.id == b.ownerId
    ensures r.Some? ==> (r.value.user.Some? <==> exists k :: 0 <= k < |users| && users[k].id == r.value.profile.userId)
    ensures r.Some? && r.value.user.Some? ==>
      exists u :: u in users && u.id == r.value.profile.userId
                  && r.value.user.value == OwnerContact(u.firstName, u.lastName, u.email)
  {
    var p := FindIndex(profiles, (x: OwnerProfile) => x.id == b.ownerId);
    if p.None? then None
    else
      var profile := profiles[p.value];
      match UserById(users, profile.userId)
      case None => Some(BusOwner(profile, None))
      case Some(u) => Some(BusOwner(profile, Some(OwnerContact(u.firstName, u.lastName, u.email))))
  }

  /** The bus read with its `owner`, `media` and `pricing` relations. */
  function Load(b: Bus, profiles: seq<OwnerProfile>, users: seq<User>, media: seq<Media>, pricing: seq<Pricing>)
    : (r: LoadedBus)
    ensures r.bus == b && r.owner == OwnerOfBus(b, profiles, users) && r.media.Some?
    ensures forall m :: m in r.media.value <==> m in media && m.busId == b.id
    ensures r.pricing.Some? ==> r.pricing.value in pricing && r.pricing.value.busId == b.id
    ensures r.pricing.None? ==> forall k :: 0 <= k < |pricing| ==> pricing[k].busId != b.id
  {
    var p := FindIndex(pricing, (x: Pricing) => x.busId == b.id);
    LoadedBus(b, OwnerOfBus(b, profiles, users), Some(Filter(media, (m: Media) => m.busId == b.id)),
              if p.Some? then Some(pricing[p.value]) else None)
  }

  /** `getDashboardSummary`'s four counts. */
  datatype Summary = Summary(owners: nat, users: nat, buses: nat, bookings: nat)

  function Customers(users: seq<User>): (r: seq<User>)
    ensures forall u :: u in r <==> u in users && u.role == CUSTOMER
    ensures |r| <= |users|
  {
    Filter(users, (u: User) => u.role == CUSTOMER)
  }

  /** Owner profiles, customer users (admins and owners are not counted),
      buses and bookings. */
  function DashboardSummary(users: seq<User>, profiles: seq<OwnerProfile>, buses: seq<Bus>, bookings: seq<Booking>)
    : (r: Summary)
    ensures r.owners == |profiles| && r.buses == |buses| && r.bookings == |bookings|
    ensures r.users == |Customers(users)| && r.users <= |users|
  {
    Summary(|profiles|, |Customers(users)|, |buses|, |bookings|)
  }

  /** Registering an owner leaves the customer count as it was. */
  lemma NewOwnerNotCounted(users: seq<User>, u: User)
    requires u.role == OWNER
    ensures Customers(users + [u]) == Customers(users)
  {
    FilterAppendDropped(users, u, (x: User) => x.role == CUSTOMER);
  }

  function FormattedBusOf(f: FormattedBus): Bus { f.bus }

  /** Each bus of `bs`, loaded with its relations and formatted. */
  function FormatLoaded(bs: seq<Bus>, profiles: seq<OwnerProfile>, users: seq<User>, media: seq<Media>, pricing: seq<Pricing>, encode: seq<bv8> -> string)
    : (r: seq<FormattedBus>)
    ensures |r| == |bs|
    ensures forall k :: 0 <= k < |r| ==> Some(r[k]) == FormatBus(Some(Load(bs[k], profiles, users, media, pricing)), encode)
    ensures MapSeq(r, FormattedBusOf) == bs
  {
    if bs == [] then []
    else
      var rest := FormatLoaded(bs[1..], profiles, users, media, pricing, encode);
      var r := [FormatBus(Some(Load(bs[0], profiles, users, media, pricing)), encode).value] + rest;
      assert MapSeq(r, FormattedBusOf) == [bs[0]] + MapSeq(rest, FormattedBusOf);
      r
  }

  /** `listPendingBuses`: exactly the buses awaiting approval, newest first,
      each loaded with its media and pricing and formatted. */
  function PendingBuses(buses: seq<Bus>, profiles: seq<OwnerProfile>, users: seq<User>, media: seq<Media>, pricing: seq<Pricing>, encode: seq<bv8> -> string)
    : (r: seq<FormattedBus>)
    ensures forall b :: multiset(MapSeq(r, FormattedBusOf))[b] == if b.approvalStatus == PENDING then multiset(buses)[b] else 0
    ensures SortedDesc(MapSeq(r, FormattedBusOf), BusCreatedAt)
    ensures forall k :: 0 <= k < |r| ==> Some(r[k]) == FormatBus(Some(Load(r[k].bus, profiles, users, media, pricing)), encode)
  {
    var pending := SortDesc(Filter(buses, (b: Bus) => b.approvalStatus == PENDING), BusCreatedAt);
    FormatLoaded(pending, profiles, users, media, pricing, encode)
  }

  function BusCreatedAt(b: Bus): int { b.createdAt }

  /** The bus after a moderation decision: approval sets `APPROVED` and
      activates it, rejection sets `REJECTED` and deactivates it; the note is
      the given one or null. */
  function Moderated(b: Bus, approve: bool, note: Option<Json>): (r: Bus)
    ensures r.approvalStatus == (if approve then APPROVED else REJECTED)
    ensures r.active == approve
    ensures r.approvalNote == OrNull(note)
    ensures r == b.(approvalStatus := r.approvalStatus, active := r.active, approvalNote := r.approvalNote)
  {
    b.(approvalStatus := if approve then APPROVED else REJECTED, approvalNote := OrNull(note), active := approve)
  }

  /** `approveOwner`: marks the profile verified, logs `OWNER_APPROVED`, and
      notifies only that owner's room. */
  method ApproveOwner(db: Database, hub: Hub<Event>, ownerId: string, actorId: string) returns (r: Result<OwnerProfile>)
    requires db.Valid()
    modifies db, hub
    ensures db.Valid()
    ensures hub.io == old(hub.io) && hub.connections == old(hub.connections)
    ensures r.Err? <==> forall k :: 0 <= k < |old(db.profiles)| ==> old(db.profiles)[k].id != ownerId
    ensures r.Err? ==> r.error.Fault? && db.profiles == old(db.profiles) && db.audit == old(db.audit)
                       && hub.outbox == old(hub.outbox)
    ensures r.Ok? ==>
      exists k :: 0 <= k < |old(db.profiles)| && old(db.profiles)[k].id == ownerId
        && r.value == old(db.profiles)[k].(verifiedByAdmin := true)
        && db.profiles == old(db.profiles)[k := r.value]
        && db.audit == old(db.audit) + [AuditEntry(actorId, OWNER_APPROVED, "OwnerProfile", ownerId, OwnerRef(ownerId))]
        && hub.outbox == old(hub.outbox) + Published(hub.io, [
             Emit(OwnerRoom(ownerId), "owner:approved", OwnerEvent(r.value, UserById(db.users, r.value.userId)))])
    ensures db.users == old(db.users) && db.buses == old(db.buses) && db.schedules == old(db.schedules)
    ensures db.bookings == old(db.bookings) && db.media == old(db.media) && db.pricing == old(db.pricing)
  {
    var found := FindIndex(db.profiles, (o: OwnerProfile) => o.id == ownerId);
    if found.None? {
      return Err(Fault("Record to update not found."));
    }
    var k := found.value;
    var owner := db.profiles[k].(verifiedByAdmin := true);
    db.profiles := db.profiles[k := owner];
    db.audit := db.audit + [AuditEntry(actorId, OWNER_APPROVED, "OwnerProfile", ownerId, OwnerRef(ownerId))];
    hub.EmitToOwners(ownerId, "owner:approved", OwnerEvent(owner, UserById(db.users, owner.userId)));
    r := Ok(owner);
  }

  /** The audit row of a bus decision. */
  function BusAudit(actorId: string, approve: bool, busId: string, note: Option<Json>): (e: AuditEntry)
    ensures e.actorId == actorId && e.entity == "Bus" && e.entityId == busId
    ensures e.action == (if approve then BUS_APPROVED else BUS_REJECTED)
    ensures e.payload == BusRef(busId, OrNull(note))
  {
    AuditEntry(actorId, if approve then BUS_APPROVED else BUS_REJECTED, "Bus", busId, BusRef(busId, OrNull(note)))
  }

  /** The update and audit row shared by `approveBus` and `rejectBus`: fails,
      changing nothing, when no bus has id `busId`. */
  method Decide(db: Database, busId: string, actorId: string, note: Option<Json>, approve: bool)
    returns (r: Result<Bus>)
    requires db.Valid()
    modifies db
    ensures db.Valid()
    ensures r.Err? <==> !HasBus(old(db.buses), busId)
    ensures r.Err? ==> r.error.Fault? && db.buses == old(db.buses) && db.audit == old(db.audit)
    ensures r.Ok? ==>
      exists k :: 0 <= k < |old(db.buses)| && old(db.buses)[k].id == busId
        && r.value == Moderated(old(db.buses)[k], approve, note)
        && db.buses == old(db.buses)[k := r.value]
    ensures r.Ok? ==> db.audit == old(db.audit) + [BusAudit(actorId, approve, busId, note)]
    ensures db.users == old(db.users) && db.profiles == old(db.profiles) && db.schedules == old(db.schedules)
    ensures db.bookings == old(db.bookings) && db.media == old(db.media) && db.pricing == old(db.pricing)
  {
    var found := FindIndex(db.buses, (b: Bus) => b.id == busId);
    if found.None? {
      return Err(Fault("Record to update not found."));
    }
    var k := found.value;
    var bus := Moderated(db.buses[k], approve, note);
    SameBusIds(db.buses, db.buses[k := bus], db.schedules);
    db.buses := db.buses[k := bus];
    db.audit := db.audit + [BusAudit(actorId, approve, busId, note)];
    r := Ok(bus);
  }

  /** What `approveBus` sends: `bus:approved` to the owner's room and the
      admins, `bus:created` to the customers, each with the formatted bus. */
  function ApprovalEmits(f: FormattedBus): (r: seq<Emit<Event>>)
    ensures |r| == 3 && forall k :: 0 <= k < 3 ==> r[k].payload == FormattedBusEvent(f)
    ensures [r[0].room, r[1].room, r[2].room] == [OwnerRoom(f.bus.ownerId), Admins, Users]
    ensures [r[0].event, r[1].event, r[2].event] == ["bus:approved", "bus:approved", "bus:created"]
  {
    [Emit(OwnerRoom(f.bus.ownerId), "bus:approved", FormattedBusEvent(f)),
     Emit(Admins, "bus:approved", FormattedBusEvent(f)),
     Emit(Users, "bus:created", FormattedBusEvent(f))]
  }

  /** What `rejectBus` sends: `bus:rejected` with the formatted bus to the
      owner's room and the admins, and `bus:removed` with only the id to the
      customers. */
  function RejectionEmits(f: FormattedBus, busId: string): (r: seq<Emit<Event>>)
    ensures |r| == 3
    ensures r[0] == Emit(OwnerRoom(f.bus.ownerId), "bus:rejected", FormattedBusEvent(f))
    ensures r[1] == Emit(Admins, "bus:rejected", FormattedBusEvent(f))
    ensures r[2] == Emit(Users, "bus:removed", BusRemovedEvent(busId))
  {
    [Emit(OwnerRoom(f.bus.ownerId), "bus:rejected", FormattedBusEvent(f)),
     Emit(Admins, "bus:rejected", FormattedBusEvent(f)),
     Emit(Users, "bus:removed", BusRemovedEvent(busId))]
  }

  /** A rejection never shows the customers the bus itself: whatever reaches
      their room is the bare id. */
  lemma RejectionHidesBusFromCustomers(io: Option<Server>, f: FormattedBus, busId: string)
    ensures forall e :: e in Published(io, RejectionEmits(f, busId)) && e.room == Users ==>
              e.payload == BusRemovedEvent(busId)
    ensures forall e :: e in Published(io, RejectionEmits(f, busId)) ==> e.payload != FormattedBusEvent(f) || e.room != Users
  {
    var r := RejectionEmits(f, busId);
    assert forall e :: e in r ==> e == r[0] || e == r[1] || e == r[2];
  }

  /** `approveBus`: approves and activates the bus, logs `BUS_APPROVED`,
      sends `bus:approved` to the owner's room and the admins, and announces
      the bus to the customers as `bus:created`. */
  method ApproveBus(db: Database, hub: Hub<Event>, busId: string, actorId: string, note: Option<Json>,
                    encode: seq<bv8> -> string)
    returns (r: Result<FormattedBus>)
    requires db.Valid()
    modifies db, hub
    ensures db.Valid()
    ensures hub.io == old(hub.io) && hub.connections == old(hub.connections)
    ensures r.Err? <==> !HasBus(old(db.buses), busId)
    ensures r.Err? ==> r.error.Fault? && db.buses == old(db.buses) && db.audit == old(db.audit)
                       && hub.outbox == old(hub.outbox)
    ensures r.Ok? ==>
      exists k :: 0 <= k < |old(db.buses)| && old(db.buses)[k].id == busId
        && db.buses == old(db.buses)[k := Moderated(old(db.buses)[k], true, note)]
        && Some(r.value) == FormatBus(Some(Load(db.buses[k], db.profiles, db.users, db.media, db.pricing)), encode)
    ensures r.Ok? ==>
      && db.audit == old(db.audit) + [BusAudit(actorId, true, busId, note)]
      && hub.outbox == old(hub.outbox) + Published(hub.io, ApprovalEmits(r.value))
    ensures db.users == old(db.users) && db.profiles == old(db.profiles) && db.schedules == old(db.schedules)
    ensures db.bookings == old(db.bookings) && db.media == old(db.media) && db.pricing == old(db.pricing)
  {
    var decided := Decide(db, busId, actorId, note, true);
    if decided.Err? {
      return Err(decided.error);
    }
    r := Ok(FormatBus(Some(Load(decided.value, db.profiles, db.users, db.media, db.pricing)), encode).value);
    if r.Ok? {
      var e := FormattedBusEvent(r.value);
      assert ApprovalEmits(r.value) == [Emit(OwnerRoom(r.value.bus.ownerId), "bus:approved", e),
                                       Emit(Admins, "bus:approved", e), Emit(Users, "bus:created", e)];
      ghost var outbox0 := hub.outbox;
      hub.EmitToOwners(r.value.bus.ownerId, "bus:approved", e);
      hub.EmitToAdmins("bus:approved", e);
      hub.EmitToUsers("bus:created", e);
      PublishThree(hub.io, outbox0,
                   Emit(OwnerRoom(r.value.bus.ownerId), "bus:approved", e),
                   Emit(Admins, "bus:approved", e),
                   Emit(Users, "bus:created", e));
    }
  }

  /** `rejectBus`: rejects and deactivates the bus, logs `BUS_REJECTED`,
      sends `bus:rejected` to the owner's room and the admins, and tells the
      customers only the id of the bus to remove. */
  method RejectBus(db: Database, hub: Hub<Event>, busId: string, actorId: string, note: Option<Json>,
                   encode: seq<bv8> -> string)
    returns (r: Result<FormattedBus>)
    requires db.Valid()
    modifies db, hub
    ensures db.Valid()
    ensures hub.io == old(hub.io) && hub.connections == old(hub.connections)
    ensures r.Err? <==> !HasBus(old(db.buses), busId)
    ensures r.Err? ==> r.error.Fault? && db.buses == old(db.buses) && db.audit == old(db.audit)
                       && hub.outbox == old(hub.outbox)
    ensures r.Ok? ==>
      exists k :: 0 <= k < |old(db.buses)| && old(db.buses)[k].id == busId
        && db.buses == old(db.buses)[k := Moderated(old(db.buses)[k], false, note)]
        && Some(r.value) == FormatBus(Some(Load(db.buses[k], db.profiles, db.users, db.media, db.pricing)), encode)
    ensures r.Ok? ==>
      && db.audit == old(db.audit) + [BusAudit(actorId, false, busId, note)]
      && hub.outbox == old(hub.outbox) + Published(hub.io, RejectionEmits(r.value, busId))
    ensures db.users == old(db.users) && db.profiles == old(db.profiles) && db.schedules == old(db.schedules)
    ensures db.bookings == old(db.bookings) && db.media == old(db.media) && db.pricing == old(db.pricing)
  {
    var decided := Decide(db, busId, actorId, note, false);
    if decided.Err? {
      return Err(decided.error);
    }
    r := Ok(FormatBus(Some(Load(decided.value, db.profiles, db.users, db.media, db.pricing)), encode).value);
    if r.Ok? {
      var e := FormattedBusEvent(r.value);
      ghost var outbox0 := hub.outbox;
      hub.EmitToOwners(r.value.bus.ownerId, "bus:rejected", e);
      hub.EmitToAdmins("bus:rejected", e);
      hub.EmitToUsers("bus:removed", BusRemovedEvent(r.value.bus.id));
      PublishThree(hub.io, outbox0,
                   Emit(OwnerRoom(r.value.bus.ownerId), "bus:rejected", e),
                   Emit(Admins, "bus:rejected", e),
                   Emit(Users, "bus:removed", BusRemovedEvent(r.value.bus.id)));
    }
  }
}
