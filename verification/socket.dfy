/** The real-time fan-out (backend/src/lib/socket.js): a module-level server
    handle that `initSocket` sets, the room a connection joins from its
    handshake, and the three emit functions. Delivery over the transport is
    not modelled: an emit appends `(room, event, payload)` to an outbox. */
module Socket {
  import opened Common

  /** The three audience channels. */
  datatype Room = OwnerRoom(ownerId: string) | Admins | Users

  /** The room's name on the transport: `owner:<id>`, `admins`, `users`. */
  function RoomName(r: Room): (name: string)
    ensures r.OwnerRoom? ==> |name| >= 6 && name[..6] == "owner:"
  {
    match r
    case OwnerRoom(id) => "owner:" + id
    case Admins => "admins"
    case Users => "users"
  }

  /** Different rooms never share a name, so an owner's room is never an
      audience channel of another owner, of the admins or of the customers. */
  lemma RoomNameInjective(a: Room, b: Room)
    requires RoomName(a) == RoomName(b)
    ensures a == b
  {
    var n := RoomName(a);
    match a {
      case OwnerRoom(x) =>
        assert n[0] == 'o';
        if b.OwnerRoom? {
          assert x == n[6..] == b.ownerId;
        }
      case Admins =>
        assert n[0] == 'a';
      case Users =>
        assert n[0] == 'u';
    }
  }

  /** The query of a connection's handshake (`undefined` is `None`). */
  datatype Handshake = Handshake(role: Option<string>, ownerId: Option<string>)

  /** The rooms a new connection joins: `owner:<ownerId>` for role `owner`
      with a non-empty `ownerId`, `admins` for `admin`, `users` for `user`. */
  function JoinedRooms(h: Handshake): (rooms: seq<Room>)
    ensures |rooms| <= 1
    ensures h.role == Some("owner") && Present(h.ownerId) ==> rooms == [OwnerRoom(h.ownerId.value)]
    ensures h.role == Some("owner") && !Present(h.ownerId) ==> rooms == []
    ensures h.role == Some("admin") <==> rooms == [Admins]
    ensures h.role == Some("user") <==> rooms == [Users]
    ensures h.role !in {Some("owner"), Some("admin"), Some("user")} ==> rooms == []
  {
    // the source tests the three roles one after the other; a role string
    // matches at most one of them
    if h.role == Some("owner") then
      (if Present(h.ownerId) then [OwnerRoom(h.ownerId.value)] else [])
    else if h.role == Some("admin") then [Admins]
    else if h.role == Some("user") then [Users]
    else []
  }

  /** The server handle `initSocket` creates. */
  datatype Server = Server(corsOrigins: seq<string>)

  datatype Emit<P> = Emit(room: Room, event: string, payload: P)

  /** What a series of emits leaves in the outbox: everything once the
      server exists, nothing before. */
  function Published<P>(io: Option<Server>, emits: seq<Emit<P>>): (r: seq<Emit<P>>)
    ensures io.None? ==> r == []
    ensures io.Some? ==> r == emits
  {
    if io.Some? then emits else []
  }

  /** Three emits in a row publish what one series of the three does. */
  lemma PublishThree<P>(io: Option<Server>, outbox: seq<Emit<P>>, a: Emit<P>, b: Emit<P>, c: Emit<P>)
    ensures outbox + Published(io, [a]) + Published(io, [b]) + Published(io, [c])
            == outbox + Published(io, [a, b, c])
  {
    if io.Some? {
      assert [a] + [b] + [c] == [a, b, c];
    }
  }

  /** The events a room has been sent, in order. */
  function SentTo<P(!new)>(outbox: seq<Emit<P>>, room: Room): (r: seq<Emit<P>>)
    ensures forall k :: 0 <= k < |r| ==> r[k].room == room && r[k] in outbox
    ensures forall e :: e in outbox && e.room == room ==> e in r
    ensures IsSubsequence(r, outbox)
    ensures forall e :: multiset(r)[e] == if e.room == room then multiset(outbox)[e] else 0
  {
    Filter(outbox, (e: Emit<P>) => e.room == room)
  }

  class Hub<P(!new)> {
    /** The module-level `io`: `None` until `initSocket` runs. */
    var io: Option<Server>
    /** Everything emitted so far. */
    var outbox: seq<Emit<P>>
    /** The rooms joined by each accepted connection, in arrival order. */
    var connections: seq<seq<Room>>

    constructor ()
      ensures io == None && outbox == [] && connections == []
    {
      io := None;
      outbox := [];
      connections := [];
    }

    method InitSocket(corsOrigins: seq<string>) returns (server: Server)
      modifies this
      ensures io == Some(server) && server.corsOrigins == corsOrigins
      ensures outbox == old(outbox) && connections == old(connections)
    {
      server := Server(corsOrigins);
      io := Some(server);
    }

    /** A client connects; only a running server accepts it. */
    method Connect(h: Handshake) returns (rooms: seq<Room>)
      modifies this
      ensures io == old(io) && outbox == old(outbox)
      ensures old(io).None? ==> rooms == [] && connections == old(connections)
      ensures old(io).Some? ==> rooms == JoinedRooms(h) && connections == old(connections) + [rooms]
    {
      rooms := [];
      if io.Some? {
        rooms := JoinedRooms(h);
        connections := connections + [rooms];
      }
    }

    /** `getIo`: the server, or the error thrown before initialisation. */
    method GetIo() returns (r: Result<Server>)
      ensures io.None? ==> r == Err(Fault("Socket.io has not been initialized"))
      ensures io.Some? ==> r == Ok(io.value)
    {
      if io.None? {
        r := Err(Fault("Socket.io has not been initialized"));
      } else {
        r := Ok(io.value);
      }
    }

    method EmitToOwners(ownerId: string, event: string, payload: P)
      modifies this
      ensures io == old(io) && connections == old(connections)
      ensures outbox == old(outbox) + Published(io, [Emit(OwnerRoom(ownerId), event, payload)])
    {
      if io.Some? {
        outbox := outbox + [Emit(OwnerRoom(ownerId), event, payload)];
      }
    }

    method EmitToAdmins(event: string, payload: P)
      modifies this
      ensures io == old(io) && connections == old(connections)
      ensures outbox == old(outbox) + Published(io, [Emit(Admins, event, payload)])
    {
      if io.Some? {
        outbox := outbox + [Emit(Admins, event, payload)];
      }
    }

    method EmitToUsers(event: string, payload: P)
      modifies this
      ensures io == old(io) && connections == old(connections)
      ensures outbox == old(outbox) + Published(io, [Emit(Users, event, payload)])
    {
      if io.Some? {
        outbox := outbox + [Emit(Users, event, payload)];
      }
    }
  }
}
