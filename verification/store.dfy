/** The database the services work on, as in-memory tables. Each table is a
    sequence of rows whose ids are distinct; a Prisma transaction becomes
    "every check runs before the first write, and a failed operation leaves
    every table as it was". */
module Store {
  import opened Common
  import opened Domain

  /** No two rows share a key. */
  predicate Unique<T>(rows: seq<T>, key: T -> string) {
    forall i, j :: 0 <= i < |rows| && 0 <= j < |rows| && i != j ==> key(rows[i]) != key(rows[j])
  }

  /** Replacing a row by one with the same key keeps the keys distinct. */
  lemma UpdateKeepsUnique<T>(rows: seq<T>, key: T -> string, i: nat, x: T)
    requires Unique(rows, key)
    requires i < |rows| && key(x) == key(rows[i])
    ensures Unique(rows[i := x], key)
  {
  }

  /** Appending a row with a fresh key keeps the keys distinct. */
  lemma AppendKeepsUnique<T>(rows: seq<T>, key: T -> string, x: T)
    requires Unique(rows, key)
    requires forall k :: 0 <= k < |rows| ==> key(rows[k]) != key(x)
    ensures Unique(rows + [x], key)
  {
  }

  /** Some bus has id `id`. */
  predicate HasBus(buses: seq<Bus>, id: string) {
    exists j :: 0 <= j < |buses| && buses[j].id == id
  }

  /** The user with id `id`, if any (`findUnique({ where: { id } })`). */
  function UserById(users: seq<User>, id: string): (r: Option<User>)
    ensures r.Some? ==> r.value in users && r.value.id == id
    ensures r.None? ==> forall k :: 0 <= k < |users| ==> users[k].id != id
  {
    var i := FindIndex(users, (u: User) => u.id == id);
    if i.Some? then Some(users[i.value]) else None
  }

  /** The profile whose `userId` is `userId`, if any. */
  function ProfileOf(profiles: seq<OwnerProfile>, userId: string): (r: Option<OwnerProfile>)
    ensures r.Some? ==> r.value in profiles && r.value.userId == userId
    ensures r.None? ==> forall k :: 0 <= k < |profiles| ==> profiles[k].userId != userId
  {
    var i := FindIndex(profiles, (p: OwnerProfile) => p.userId == userId);
    if i.Some? then Some(profiles[i.value]) else None
  }

  /** Rewriting buses without changing their ids keeps every schedule's bus. */
  lemma SameBusIds(before: seq<Bus>, after: seq<Bus>, schedules: seq<Schedule>)
    requires |before| == |after|
    requires forall j :: 0 <= j < |before| ==> after[j].id == before[j].id
    requires forall k :: 0 <= k < |schedules| ==> HasBus(before, schedules[k].busId)
    ensures forall k :: 0 <= k < |schedules| ==> HasBus(after, schedules[k].busId)
  {
    forall k | 0 <= k < |schedules|
      ensures HasBus(after, schedules[k].busId)
    {
      var m :| 0 <= m < |before| && before[m].id == schedules[k].busId;
      assert after[m].id == schedules[k].busId;
    }
  }

  /** Appending a bus keeps every schedule's bus. */
  lemma {:induction false} AppendKeepsBuses(before: seq<Bus>, bus: Bus, schedules: seq<Schedule>)
    requires forall k :: 0 <= k < |schedules| ==> HasBus(before, schedules[k].busId)
    ensures forall k :: 0 <= k < |schedules| ==> HasBus(before + [bus], schedules[k].busId)
  {
    forall k | 0 <= k < |schedules|
      ensures HasBus(before + [bus], schedules[k].busId)
    {
      assert HasBus(before, schedules[k].busId);
      var m :| 0 <= m < |before| && before[m].id == schedules[k].busId;
      assert (before + [bus])[m] == before[m];
    }
  }

  /** Rewriting schedules without moving them to another bus keeps every
      schedule's bus. */
  lemma SameScheduleBuses(buses: seq<Bus>, before: seq<Schedule>, after: seq<Schedule>)
    requires |after| == |before|
    requires forall k :: 0 <= k < |before| ==> after[k].busId == before[k].busId
    requires forall k :: 0 <= k < |before| ==> HasBus(buses, before[k].busId)
    ensures forall k :: 0 <= k < |after| ==> HasBus(buses, after[k].busId)
  {
  }

  function UserId(u: User): string { u.id }
  function UserEmail(u: User): string { u.email }
  function ProfileId(p: OwnerProfile): string { p.id }
  function ProfileUserId(p: OwnerProfile): string { p.userId }
  function BusId(b: Bus): string { b.id }
  function ScheduleId(s: Schedule): string { s.id }
  function BookingId(b: Booking): string { b.id }

  class Database {
    var users: seq<User>
    var profiles: seq<OwnerProfile>
    var buses: seq<Bus>
    var schedules: seq<Schedule>
    var bookings: seq<Booking>
    var audit: seq<AuditEntry>
    var media: seq<Media>
    var pricing: seq<Pricing>

    /** Primary keys are distinct, `email` is unique and stored lower-cased,
        an owner user has at most one profile, and every schedule belongs to
        a stored bus. */
    predicate Valid()
      reads this
    {
      && Unique(users, UserId)
      && Unique(users, UserEmail)
      && (forall k :: 0 <= k < |users| ==> IsLower(users[k].email))
      && Unique(profiles, ProfileId)
      && Unique(profiles, ProfileUserId)
      && Unique(buses, BusId)
      && Unique(schedules, ScheduleId)
      && Unique(bookings, BookingId)
      && (forall k :: 0 <= k < |schedules| ==> HasBus(buses, schedules[k].busId))
    }

    constructor ()
      ensures Valid()
      ensures users == [] && profiles == [] && buses == [] && schedules == []
      ensures bookings == [] && audit == [] && media == [] && pricing == []
    {
      users := [];
      profiles := [];
      buses := [];
      schedules := [];
      bookings := [];
      audit := [];
      media := [];
      pricing := [];
    }
  }
}
