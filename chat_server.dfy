/** The room and membership engine of the chat server (server/index.js):
    the module-level `rooms` dictionary, the `socket.data` record of every
    connected socket, and the handlers registered for each socket. Each
    handler runs to completion as one step and returns the frames it emits,
    in emission order. */
module ChatServer {
  import opened Wrappers
  import opened RoomLists

  /** Sender name of the announcements the server makes itself. */
  const SystemUser := "System"
  /** Text appended to a username when it joins a room. */
  const JoinedSuffix := " joined the room"
  /** Text appended to a username when its socket disconnects. */
  const LeftSuffix := " left the room"

  /** An outgoing event with its payload. The `time` fields carry the
      server's wall-clock rendering, which the model receives as a value. */
  datatype Event =
    | RoomUsers(users: seq<Entry>)
    | ChatMessage(user: Option<string>, text: string, time: string)
    | PrivateMessage(user: Option<string>, text: string, time: string)
    | Typing(user: Option<string>)
    | StopTyping

  /** One emit: the sockets that receive it and what they receive. */
  datatype Frame = Frame(to: set<SocketId>, event: Event)

  /** JavaScript truthiness of an optional string field: set and non-empty. */
  predicate Truthy(v: Option<string>)
  {
    v.Some? && v.value != ""
  }

  /** The sockets `io.to(room)` reaches: those subscribed to `room`. */
  function Subscribers(subs: map<string, set<SocketId>>, room: string): set<SocketId>
  {
    if room in subs then subs[room] else {}
  }

  /** The sockets `io.to(name)` reaches when `name` was meant as a socket
      id. The transport keeps socket ids and room names in one namespace:
      every connected socket is subscribed to a room named by its own id,
      so `name` reaches that socket while it is connected, and also every
      subscriber of a chat room that happens to be called `name`. */
  function Addressee(connected: set<SocketId>, subs: map<string, set<SocketId>>, name: string)
    : (r: set<SocketId>)
    ensures r <= {name} + Subscribers(subs, name)
    ensures Subscribers(subs, name) <= r
    ensures name in r <==> name in connected || name in Subscribers(subs, name)
    ensures name !in subs ==> r <= {name}
  {
    (if name in connected then {name} else {}) + Subscribers(subs, name)
  }

  /** The list stored under `room`, or the empty list when the key is absent. */
  function ListOf(rooms: map<string, seq<Entry>>, room: string): seq<Entry>
  {
    if room in rooms then rooms[room] else []
  }

  /** Whether a disconnect with this `socket.data` filters a list and
      announces the departure: username and room set and non-empty, and the
      room's list present. */
  predicate Leaves(data: SocketData, rooms: map<string, seq<Entry>>)
  {
    data.username.Some? && data.username.value != "" &&
    data.room.Some? && data.room.value != "" && data.room.value in rooms
  }

  /** The two frames a departure sends to the room's remaining subscribers:
      the room's list, then the `System` announcement. */
  function LeftFrames(subs: map<string, set<SocketId>>, data: SocketData,
                      rooms: map<string, seq<Entry>>, time: string): seq<Frame>
    requires Leaves(data, rooms)
  {
    [Frame(Subscribers(subs, data.room.value), RoomUsers(rooms[data.room.value])),
     Frame(Subscribers(subs, data.room.value),
           ChatMessage(Some(SystemUser), data.username.value + LeftSuffix, time))]
  }

  /** The transport's subscriptions with one socket taken out of every room. */
  function Unsubscribe(subs: map<string, set<SocketId>>, id: SocketId): (r: map<string, set<SocketId>>)
    ensures r.Keys == subs.Keys
    ensures forall room :: room in r ==> id !in r[room] && r[room] <= subs[room]
    ensures forall room, s :: room in subs && s in subs[room] && s != id ==> s in r[room]
  {
    map room | room in subs :: subs[room] - {id}
  }

  /** The `socket.data` record of one connected socket: both fields stay
      unset until the socket joins a room. */
  datatype SocketData = SocketData(username: Option<string>, room: Option<string>)

  /** A socket's username and room are set together, and a socket whose
      room is set is subscribed to it and that room's list exists. */
  ghost predicate Consistent(id: SocketId, data: SocketData, rooms: map<string, seq<Entry>>,
                             subs: map<string, set<SocketId>>)
  {
    && data.username.Some? == data.room.Some?
    && (data.room.Some? ==> data.room.value in rooms && id in Subscribers(subs, data.room.value))
  }

  /** The invariant of the server state: only connected sockets are
      subscribed, every room list has distinct usernames, and every
      connected socket is consistent with the rooms and subscriptions. */
  ghost predicate Invariant(rooms: map<string, seq<Entry>>, sockets: map<SocketId, SocketData>,
                            subs: map<string, set<SocketId>>)
  {
    && (forall room :: room in subs ==> subs[room] <= sockets.Keys)
    && (forall room :: room in rooms ==> DistinctNames(rooms[room]))
    && (forall id :: id in sockets ==> Consistent(id, sockets[id], rooms, subs))
  }

  /** A join keeps the invariant. */
  lemma JoinKeepsInvariant(rooms: map<string, seq<Entry>>, sockets: map<SocketId, SocketData>,
                           subs: map<string, set<SocketId>>, id: SocketId, room: string, username: string)
    requires Invariant(rooms, sockets, subs) && id in sockets
    ensures Invariant(rooms[room := RemoveName(ListOf(rooms, room), username) + [Entry(username, id)]],
                      sockets[id := SocketData(Some(username), Some(room))],
                      subs[room := Subscribers(subs, room) + {id}])
  {
    JoinedList(ListOf(rooms, room), username, id);
  }

  /** A disconnect keeps the invariant, whether or not it filters a list. */
  lemma DisconnectKeepsInvariant(rooms: map<string, seq<Entry>>, sockets: map<SocketId, SocketData>,
                                 subs: map<string, set<SocketId>>, id: SocketId, room: string, name: string)
    requires Invariant(rooms, sockets, subs) && id in sockets
    ensures Invariant(rooms, sockets - {id}, Unsubscribe(subs, id))
    ensures room in rooms ==>
              Invariant(rooms[room := RemoveName(rooms[room], name)], sockets - {id}, Unsubscribe(subs, id))
  {
    if room in rooms {
      RemoveNameKeepsDistinct(rooms[room], name);
    }
  }

  /** The server: `rooms` maps a room name to its ordered user list,
      `sockets` maps the id of each connected socket to its `socket.data`,
      and `subs` is the transport's record of which connected sockets
      called `socket.join(room)` for each room. */
  class Server {
    var rooms: map<string, seq<Entry>>
    var sockets: map<SocketId, SocketData>
    var subs: map<string, set<SocketId>>

    ghost predicate Valid()
      reads this
    {
      Invariant(rooms, sockets, subs)
    }

    /** The state at start-up: no rooms, no sockets. */
    constructor ()
      ensures Valid()
      ensures rooms == map[] && sockets == map[] && subs == map[]
    {
      rooms := map[];
      sockets := map[];
      subs := map[];
    }

    /** The transport accepts a connection under a fresh id and the
        `connection` handler registers the socket's listeners; its data is
        empty and nothing is emitted. */
    method OnConnection(id: SocketId)
      requires Valid() && id !in sockets
      modifies this
      ensures Valid()
      ensures sockets == old(sockets)[id := SocketData(None, None)]
      ensures rooms == old(rooms) && subs == old(subs)
    {
      sockets := sockets[id := SocketData(None, None)];
    }

    /** `join room`: subscribe the socket to `room`, record its username
        and room, replace any entry of `room` with the same username by the
        joiner's entry at the end of the list, send the new list to the whole
        room and announce the join to everyone else in it. The socket's
        previous room, if any, keeps both its entry and its subscription. */
    method OnJoinRoom(id: SocketId, room: string, username: string, time: string)
      returns (frames: seq<Frame>)
      requires Valid() && id in sockets
      modifies this
      ensures Valid()
      ensures sockets == old(sockets)[id := SocketData(Some(username), Some(room))]
      ensures subs == old(subs)[room := Subscribers(old(subs), room) + {id}]
      ensures rooms == old(rooms)[room := RemoveName(ListOf(old(rooms), room), username)
                                          + [Entry(username, id)]]
      ensures frames == [Frame(subs[room], RoomUsers(rooms[room])),
                         Frame(subs[room] - {id},
                               ChatMessage(Some(SystemUser), username + JoinedSuffix, time))]
    {
      JoinedList(ListOf(rooms, room), username, id);
      JoinKeepsInvariant(rooms, sockets, subs, id, room, username);
      subs := subs[room := Subscribers(subs, room) + {id}];
      sockets := sockets[id := SocketData(Some(username), Some(room))];
      var list := if room in rooms then rooms[room] else [];
      list := RemoveName(list, username);
      list := list + [Entry(username, id)];
      rooms := rooms[room := list];
      frames := [Frame(subs[room], RoomUsers(rooms[room])),
                 Frame(subs[room] - {id},
                       ChatMessage(Some(SystemUser), username + JoinedSuffix, time))];
    }

    /** `chat message`: nothing unless the socket's room is set and non-empty;
        otherwise one message, under the socket's username, to every
        subscriber of that room, the sender included. */
    method OnChatMessage(id: SocketId, text: string, time: string) returns (frames: seq<Frame>)
      requires Valid() && id in sockets
      ensures !Truthy(sockets[id].room) ==> frames == []
      ensures Truthy(sockets[id].room) ==>
                frames == [Frame(Subscribers(subs, sockets[id].room.value),
                                 ChatMessage(sockets[id].username, text, time))]
      ensures Truthy(sockets[id].room) ==> id in frames[0].to && sockets[id].username.Some?
    {
      var data := sockets[id];
      if !(data.room.Some? && data.room.value != "") {
        return [];
      }
      frames := [Frame(Subscribers(subs, data.room.value), ChatMessage(data.username, text, time))];
    }

    /** `private message`: one message addressed to `toSocketId`, whatever
        room either socket is in and whether or not the sender has joined.
        It reaches that socket while it is connected, and nobody else unless
        `toSocketId` also names a chat room, whose subscribers then all
        receive it. */
    method OnPrivateMessage(id: SocketId, toSocketId: SocketId, message: string, time: string)
      returns (frames: seq<Frame>)
      requires Valid() && id in sockets
      ensures |frames| == 1
      ensures frames[0].event == PrivateMessage(sockets[id].username, message, time)
      ensures frames[0].to <= {toSocketId} + Subscribers(subs, toSocketId)
      ensures Subscribers(subs, toSocketId) <= frames[0].to
      ensures toSocketId in frames[0].to <==> toSocketId in sockets
      ensures frames[0].to <= sockets.Keys
    {
      frames := [Frame(Addressee(sockets.Keys, subs, toSocketId),
                       PrivateMessage(sockets[id].username, message, time))];
    }

    /** `typing`: the socket's username to the other subscribers of its room;
        nothing when its room is unset or empty. */
    method OnTyping(id: SocketId) returns (frames: seq<Frame>)
      requires Valid() && id in sockets
      ensures !Truthy(sockets[id].room) ==> frames == []
      ensures Truthy(sockets[id].room) ==>
                frames == [Frame(Subscribers(subs, sockets[id].room.value) - {id},
                                 Typing(sockets[id].username))]
      ensures forall f :: f in frames ==> id !in f.to
    {
      var data := sockets[id];
      if data.room.Some? && data.room.value != "" {
        frames := [Frame(Subscribers(subs, data.room.value) - {id}, Typing(data.username))];
      } else {
        frames := [];
      }
    }

    /** `stop typing`: a payload-free signal to the other subscribers of the
        socket's room; nothing when its room is unset or empty. */
    method OnStopTyping(id: SocketId) returns (frames: seq<Frame>)
      requires Valid() && id in sockets
      ensures !Truthy(sockets[id].room) ==> frames == []
      ensures Truthy(sockets[id].room) ==>
                frames == [Frame(Subscribers(subs, sockets[id].room.value) - {id}, StopTyping)]
      ensures forall f :: f in frames ==> id !in f.to
    {
      var data := sockets[id];
      if data.room.Some? && data.room.value != "" {
        frames := [Frame(Subscribers(subs, data.room.value) - {id}, StopTyping)];
      } else {
        frames := [];
      }
    }

    /** `disconnect`: the transport first drops the socket from every room it
        joined and from the connected sockets; then, when the socket's
        username and room are set and non-empty and the room's list exists,
        every entry of that room with the socket's username is removed
        (whichever socket holds it), and the remaining subscribers get the
        new list and a `System` "left the room" message. Otherwise nothing
        changes and nothing is emitted. No room key is ever removed. */
    method OnDisconnect(id: SocketId, time: string) returns (frames: seq<Frame>)
      requires Valid() && id in sockets
      modifies this
      ensures Valid()
      ensures sockets == old(sockets) - {id}
      ensures subs == Unsubscribe(old(subs), id)
      ensures rooms.Keys == old(rooms).Keys
      ensures !Leaves(old(sockets)[id], old(rooms)) ==> rooms == old(rooms) && frames == []
      ensures Leaves(old(sockets)[id], old(rooms)) ==>
                && rooms == old(rooms)[old(sockets)[id].room.value :=
                                       RemoveName(old(rooms)[old(sockets)[id].room.value],
                                                  old(sockets)[id].username.value)]
                && frames == LeftFrames(subs, old(sockets)[id], rooms, time)
      ensures Leaves(old(sockets)[id], old(rooms)) ==>
                CountName(rooms[old(sockets)[id].room.value], old(sockets)[id].username.value) == 0
      ensures forall f :: f in frames ==> id !in f.to
    {
      var data := sockets[id];
      DisconnectKeepsInvariant(rooms, sockets, subs, id, if data.room.Some? then data.room.value else "",
                               if data.username.Some? then data.username.value else "");
      subs := Unsubscribe(subs, id);
      sockets := sockets - {id};
      frames := [];
      if Leaves(data, rooms) {
        var room, name := data.room.value, data.username.value;
        CountNameAfterRemove(rooms[room], name, name);
        rooms := rooms[room := RemoveName(rooms[room], name)];
        frames := LeftFrames(subs, data, rooms, time);
      }
    }
  }
}
