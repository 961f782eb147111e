# Chat-app room engine in Dafny

This project models the room and membership engine of the chat-app server
(`server/index.js`), a socket.io service in which clients join named rooms,
talk in them, signal typing and send private messages to one another.

The engine has three pieces of state, all of them fields of the class
`ChatServer.Server`:

- `rooms` is the module-level `rooms` dictionary. It maps a room name to the
  ordered list of `{username, socketId}` records (`RoomLists.Entry`) of that
  room.
- `sockets` maps the id of each connected socket to its `socket.data` record.
  That record holds the optional `username` and `room` fields, which stay
  unset until the socket's first join.
- `subs` is the transport's subscription table. It maps each room to the set
  of connected sockets that called `socket.join(room)`.

Node runs every socket.io handler to completion before the next one, so each
handler is one method of `Server`: `OnConnection`, `OnJoinRoom`,
`OnChatMessage`, `OnPrivateMessage`, `OnTyping`, `OnStopTyping` and
`OnDisconnect`. Each method returns the frames it emits, in emission order.
A frame (`ChatServer.Frame`) is a recipient set and an event with its
payload. Addressing follows socket.io's rules:

- `io.to(room)` reaches every subscriber of the room.
- `socket.to(room)` reaches every subscriber except the sender.
- `io.to(socketId)` reaches that socket while it is connected. Socket ids and
  room names share one namespace, because every socket is subscribed to a
  room named by its own id. So the frame also reaches every subscriber of a
  chat room that happens to carry that name, and nobody else.
- The transport unsubscribes a socket from all its rooms before the
  `disconnect` handler runs. The departure frames therefore go to the
  subscribers that remain.

The JavaScript truthiness tests are modelled exactly:

- `if (!room)` is `ChatServer.Truthy`: the field is set and is not the empty
  string.
- `username && room && rooms[room]` is `ChatServer.Leaves`. A room's list is an
  array, which is truthy even when empty, so the last conjunct only asks that
  the key exists.

`ChatServer.Invariant` is the state invariant that every method keeps:

- only connected sockets are subscribed;
- every room list has distinct usernames;
- a socket's username and room are set together;
- a socket whose room is set is subscribed to that room, and that room's list
  exists.

`RoomLists` holds the username filter (`RemoveName`) that both the join and
the disconnect handler apply. It also holds the lemmas about that filter:
what it keeps, in what order, and how often each name occurs.

`Scenarios` pins down short runs of the server exactly. They cover:

- two users joining one room;
- a chat message;
- a departure;
- two sockets joining under one username, where the first socket's
  disconnect removes the second socket's entry;
- a socket joining a second room, which stays listed in and subscribed to its
  first room;
- a socket that never joined;
- private messages across rooms, to a socket that has gone, and to a name
  that is a chat room;
- a socket renaming itself within its room, whose old name then outlives it.

The model keeps these behaviours of the code, which a reader might not
expect:

- A private message is delivered whether or not the sender has joined a room,
  with an unset `user`. No "not joined" check exists.
- Disconnect removes entries by username, not by socket id. A stale socket's
  disconnect can therefore remove a live socket's entry and announce that
  user's departure.
- Joining a second room neither removes the socket's entry from the first
  room nor unsubscribes it there. The socket keeps receiving that room's
  messages, so rooms are not isolated from one another.
- A private message whose `toSocketId` is the name of a chat room reaches
  every subscriber of that room.
- A socket that joins the same room again under a new name keeps its old
  entry, because the filter goes by the new name. Its disconnect then removes
  only the new name, and the old one stays listed with no socket to hold it.
- `stop typing` carries no username.

## Model

| member | source | states |
|---|---|---|
| RoomLists.RemoveName | server/index.js:37 | The filter's result is no longer than its input, and an entry is in the result exactly when it is in the input and carries another username. |
| RoomLists.RemoveNameCounts | server/index.js:37 | The filter keeps each entry of another username exactly as many times as the input has it, and keeps no entry of the filtered username. |
| RoomLists.RemoveNameSubsequence | server/index.js:37 | The entries the filter keeps stay in their original relative order. |
| RoomLists.DistinctNamesCons | server/index.js:37-39 | A list has distinct usernames exactly when its tail has distinct usernames and the head's username does not occur in the tail. |
| RoomLists.RemoveNameKeepsDistinct | server/index.js:107 | Filtering a list whose usernames are distinct leaves them distinct. |
| RoomLists.CountNameAfterRemove | server/index.js:107 | After filtering on a name, that name occurs zero times, and every other username occurs as often as before. |
| RoomLists.CountNameAppend | server/index.js:39-42 | Pushing an entry adds one to the count of its username and leaves the other counts unchanged. |
| RoomLists.CountNameZero | server/index.js:37 | A username's count is zero exactly when no entry of the list carries it. |
| RoomLists.DistinctNamesIffCount | server/index.js:37-42 | The pairwise-distinct usernames of a list are equivalent to every username occurring at most once. |
| RoomLists.JoinedList | server/index.js:34-42 | After a join's filter and push, the joiner's entry `{username, socket.id}` is last and is the only entry with that username. Every other username keeps its count, and distinct usernames stay distinct. |
| RoomLists.RemoveNameAbsent | server/index.js:37 | When no entry carries the name, the filter returns the list unchanged. |
| RoomLists.RemoveNameIdempotent | server/index.js:37 | Filtering twice on a username is the same as filtering once. |
| ChatServer.Addressee | server/index.js:84 | A frame addressed to a name reaches every subscriber of a chat room of that name and nobody else but the name itself. The name is reached exactly when it is a connected socket or a subscriber of that room. When no chat room has that name, only that socket can be reached. |
| ChatServer.Unsubscribe | server/index.js:103 | Removing a disconnecting socket from the subscription table keeps every room key, so an emptied room stays as a key with no subscribers (socket.io deletes such a room; no frame depends on the difference). It takes the socket out of every room, adds nobody, and keeps every other subscriber. |
| ChatServer.JoinKeepsInvariant | server/index.js:28-42 | A join keeps the state invariant, including distinct usernames in every room list. |
| ChatServer.DisconnectKeepsInvariant | server/index.js:103-107 | A disconnect keeps the state invariant, both when it filters a room list and when it does not. |
| ChatServer.Server.constructor | server/index.js:22 | The server starts with no rooms, no sockets and no subscriptions. |
| ChatServer.Server.OnConnection | server/index.js:24 | A new connection registers the socket with unset username and room and changes nothing else. |
| ChatServer.Server.OnJoinRoom | server/index.js:28-56 | A join subscribes the socket and records its username and room. It changes only `rooms[room]`: a previous room keeps its list and no key is removed. That list is filtered on the username and then extended by the joiner's entry. The new list goes to every subscriber, the joiner included. The `System` message "`<name>` joined the room" goes to every subscriber except the joiner. The invariant is kept. |
| ChatServer.Server.OnChatMessage | server/index.js:59-73 | When the sender's room is unset or empty, nothing is emitted. Otherwise exactly one `chat message` goes to every subscriber of that room, the sender included, with the sender's username (always set then) and the text unchanged. |
| ChatServer.Server.OnPrivateMessage | server/index.js:76-89 | Exactly one `private message` is emitted, with the sender's username (possibly unset) and the text unchanged. Whatever rooms either socket is in, it reaches only connected sockets. It reaches all subscribers of a chat room named `toSocketId` and nobody else but `toSocketId` itself. It reaches `toSocketId` exactly when that socket is connected, also when a chat room has that name. |
| ChatServer.Server.OnTyping | server/index.js:92-95 | With no room, nothing is emitted. Otherwise one `typing` frame with the sender's username goes to the other subscribers of its room, and never to the sender. |
| ChatServer.Server.OnStopTyping | server/index.js:97-100 | With no room, nothing is emitted. Otherwise one payload-free `stop typing` frame goes to the other subscribers of its room, and never to the sender. |
| ChatServer.Server.OnDisconnect | server/index.js:103-124 | The socket is dropped and unsubscribed everywhere, and no room key is removed. Without a truthy username and room, or without the room's list, no list changes and nothing is emitted. Otherwise every entry of that room with the username is removed, whichever socket holds it, and no entry of that name remains. The remaining subscribers get the filtered list and then the `System` message "`<name>` left the room". The departing socket receives nothing, and the invariant is kept. |
| Scenarios.TwoSockets | server/index.js:22-24 | Two connections give two sockets with unset data, no rooms and no subscriptions. |
| Scenarios.AliceJoins | server/index.js:28-56 | The first join creates the room with the joiner's entry alone. The list goes to the joiner and the join announcement goes to nobody. |
| Scenarios.AliceThenBob | server/index.js:28-42 | A second user joining the room is listed after the first, and both sockets are subscribed. |
| Scenarios.BobJoins | server/index.js:44-55 | On that second join both sockets get the list in join order, and only the first user hears "bob joined the room". |
| Scenarios.AliceSaysHi | server/index.js:59-73 | A room message reaches both members, the sender included, under the sender's name. |
| Scenarios.BobLeaves | server/index.js:103-120 | When bob disconnects, alice alone gets the list without bob and "bob left the room". |
| Scenarios.DuplicateName | server/index.js:28-44 | A second socket joining under a taken name replaces the list entry, yet both sockets stay subscribed and hear the room. |
| Scenarios.StaleDisconnect | server/index.js:103-120 | The first socket's disconnect removes the second socket's entry, which has the same name, and tells the still-connected second socket that "alice left the room". |
| Scenarios.AliceMovesOn | server/index.js:29-42 | Joining a second room leaves the socket's entry and subscription in the first room. |
| Scenarios.Rejoin | server/index.js:59-73 | A socket whose current room is elsewhere is still listed in its first room and still hears that room's messages. |
| Scenarios.NeverJoined | server/index.js:59-104 | A socket that never joined emits nothing on a room message, typing or disconnect. Its private message is still delivered, with no user. |
| Scenarios.PrivateAcrossRooms | server/index.js:76-89 | A private message crosses rooms, and one addressed to a socket that has disconnected reaches nobody. |
| Scenarios.PrivateToRoomName | server/index.js:84-88 | A private message addressed to the name of a chat room reaches that room's subscriber. |
| Scenarios.PrivateToSharedName | server/index.js:84-88 | A private message to a connected socket's id that is also a chat room's name reaches both that socket and the room's subscriber. |
| Scenarios.Renamed | server/index.js:28-42 | A socket joining its own room again under a new name is listed under both names. |
| Scenarios.StaleName | server/index.js:103-107 | That socket's disconnect removes only the new name, and the old name stays in the list. |

## Left out

- Express, the HTTP server, CORS settings and `server.listen`/`PORT` (server/index.js:1-19, 127-131) are I/O set-up with no room logic.
- The time strings from `toLocaleTimeString` depend on the wall clock and the locale. Every handler that stamps a time (join, room message, private message, disconnect) receives it as an opaque parameter instead.
- `console.log` calls are output only.
- The socket.io library is not modelled, beyond the subscription table and the addressing rules described above. Socket ids are drawn by the caller of `OnConnection`, which must supply one that is not in use.
- ChatServer.Server.OnChatMessage: in socket.io, a chat room named like a connected socket's id also reaches that socket through its own-id room. The room handlers do not model this: `OnChatMessage`, `OnTyping`, `OnStopTyping`, `OnJoinRoom` and `OnDisconnect` address only the chat room's subscribers. Private messages do model the shared namespace.
- Payloads are modelled as strings. Malformed payloads are not modelled: a missing `room` or `username`, or a non-string value.
- Room names are keys of a plain dictionary. Names that collide with inherited object properties, such as `constructor` or `__proto__`, are not modelled.
- `socket.data` is modelled as a map from socket id to a record. The handlers reach a socket only through its id, so aliasing of socket objects is not modelled.
- Concurrency is out of scope. Node's event loop runs each handler to completion, which each method models as one atomic step.
- Events are identified by their constructors, not their wire names. Delivery, serialisation and acknowledgements are not modelled.
- The React client (client/src/App.js) is not part of this model.
