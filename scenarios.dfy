/** Concrete runs of the server, each a short sequence of handler calls
    whose emitted frames and resulting state are pinned down exactly. */
module Scenarios {
  import opened Wrappers
  import opened RoomLists
  import opened ChatServer

  /** A fresh server with two connected sockets "A" and "B", neither joined. */
  method TwoSockets() returns (server: Server)
    ensures fresh(server) && server.Valid()
    ensures server.sockets == map["A" := SocketData(None, None), "B" := SocketData(None, None)]
    ensures server.rooms == map[] && server.subs == map[]
  {
    server := new Server();
    server.OnConnection("A");
    server.OnConnection("B");
  }

  /** "A" joins "lobby" as "alice": the room is created and the joiner is
      the only one to receive its list. */
  method AliceJoins() returns (server: Server, aliceJoins: seq<Frame>)
    ensures fresh(server) && server.Valid()
    ensures server.sockets == map["A" := SocketData(Some("alice"), Some("lobby")),
                                  "B" := SocketData(None, None)]
    ensures server.subs == map["lobby" := {"A"}]
    ensures server.rooms == map["lobby" := [Entry("alice", "A")]]
    ensures aliceJoins == [Frame({"A"}, RoomUsers([Entry("alice", "A")])),
                           Frame({}, ChatMessage(Some("System"), "alice joined the room", "10:00"))]
  {
    assert "alice" + JoinedSuffix == "alice joined the room";
    server := TwoSockets();
    aliceJoins := server.OnJoinRoom("A", "lobby", "alice", "10:00");
    assert server.subs.Keys == {"lobby"} && server.subs["lobby"] == {"A"};
    assert server.rooms.Keys == {"lobby"} && server.rooms["lobby"] == [Entry("alice", "A")];
    assert aliceJoins[0] == Frame({"A"}, RoomUsers([Entry("alice", "A")]));
    assert aliceJoins[1].to == {};
  }

  /** Continuing from there, "B" joins "lobby" as "bob": bob is added to
      the room after alice and both sockets are subscribed. */
  method AliceThenBob() returns (server: Server)
    ensures fresh(server) && server.Valid()
    ensures server.sockets == map["A" := SocketData(Some("alice"), Some("lobby")),
                                  "B" := SocketData(Some("bob"), Some("lobby"))]
    ensures server.subs == map["lobby" := {"A", "B"}]
    ensures server.rooms == map["lobby" := [Entry("alice", "A"), Entry("bob", "B")]]
  {
    assert RemoveName([Entry("alice", "A")], "bob") == [Entry("alice", "A")];
    var aliceJoins;
    server, aliceJoins := AliceJoins();
    var bobJoins := server.OnJoinRoom("B", "lobby", "bob", "10:01");
    assert server.subs.Keys == {"lobby"} && server.subs["lobby"] == {"A", "B"};
    assert server.rooms.Keys == {"lobby"};
    assert server.rooms["lobby"] == [Entry("alice", "A"), Entry("bob", "B")];
  }

  /** The frames of that same join: the whole room gets the list in join
      order and only alice hears that bob joined. */
  method BobJoins() returns (bobJoins: seq<Frame>)
    ensures bobJoins == [Frame({"A", "B"}, RoomUsers([Entry("alice", "A"), Entry("bob", "B")])),
                         Frame({"A"}, ChatMessage(Some("System"), "bob joined the room", "10:01"))]
  {
    assert RemoveName([Entry("alice", "A")], "bob") == [Entry("alice", "A")];
    assert "bob" + JoinedSuffix == "bob joined the room";
    var server, aliceJoins := AliceJoins();
    bobJoins := server.OnJoinRoom("B", "lobby", "bob", "10:01");
    assert server.subs["lobby"] == {"A", "B"};
    assert server.rooms["lobby"] == [Entry("alice", "A"), Entry("bob", "B")];
    assert bobJoins[0] == Frame({"A", "B"}, RoomUsers([Entry("alice", "A"), Entry("bob", "B")]));
    assert bobJoins[1].to == {"A"};
  }

  /** Continuing from there, alice says "hi", which both sockets receive. */
  method AliceSaysHi() returns (hi: seq<Frame>)
    ensures hi == [Frame({"A", "B"}, ChatMessage(Some("alice"), "hi", "10:02"))]
  {
    var server := AliceThenBob();
    hi := server.OnChatMessage("A", "hi", "10:02");
    assert hi[0].to == {"A", "B"};
  }

  /** Continuing instead with bob's socket disconnecting, which alice alone
      hears about, with the list she is left in. */
  method BobLeaves() returns (bobLeaves: seq<Frame>)
    ensures bobLeaves == [Frame({"A"}, RoomUsers([Entry("alice", "A")])),
                          Frame({"A"}, ChatMessage(Some("System"), "bob left the room", "10:03"))]
  {
    assert RemoveName([Entry("alice", "A"), Entry("bob", "B")], "bob") == [Entry("alice", "A")];
    assert "bob" + LeftSuffix == "bob left the room";
    var server := AliceThenBob();
    assert Leaves(server.sockets["B"], server.rooms);
    bobLeaves := server.OnDisconnect("B", "10:03");
    assert server.rooms["lobby"] == [Entry("alice", "A")];
    assert server.subs["lobby"] == {"A"};
    assert bobLeaves[0] == Frame({"A"}, RoomUsers([Entry("alice", "A")]));
    assert bobLeaves[1].to == {"A"};
  }

  /** Continuing from "A" in "lobby" as "alice", "B" joins "lobby" under the
      same name: the list keeps only B's entry, yet a message to the room
      still reaches both sockets. */
  method DuplicateName() returns (server: Server, reached: set<SocketId>)
    ensures fresh(server) && server.Valid()
    ensures server.sockets == map["A" := SocketData(Some("alice"), Some("lobby")),
                                  "B" := SocketData(Some("alice"), Some("lobby"))]
    ensures server.subs == map["lobby" := {"A", "B"}]
    ensures server.rooms == map["lobby" := [Entry("alice", "B")]]
    ensures reached == {"A", "B"}
  {
    assert RemoveName([Entry("alice", "A")], "alice") == [];
    var aliceJoins;
    server, aliceJoins := AliceJoins();
    var _ := server.OnJoinRoom("B", "lobby", "alice", "10:01");
    assert server.subs.Keys == {"lobby"} && server.subs["lobby"] == {"A", "B"};
    assert server.rooms.Keys == {"lobby"} && server.rooms["lobby"] == [Entry("alice", "B")];
    var said := server.OnChatMessage("B", "hello", "10:02");
    reached := said[0].to;
  }

  /** Continuing from there, the first socket disconnects: removal goes by
      username, so it takes the second socket's entry, and the second
      socket, still connected, is told that "alice" left. */
  method StaleDisconnect() returns (frames: seq<Frame>)
    ensures frames == [Frame({"B"}, RoomUsers([])),
                       Frame({"B"}, ChatMessage(Some("System"), "alice left the room", "10:03"))]
  {
    assert RemoveName([Entry("alice", "B")], "alice") == [];
    assert "alice" + LeftSuffix == "alice left the room";
    var server, _ := DuplicateName();
    assert Leaves(server.sockets["A"], server.rooms);
    frames := server.OnDisconnect("A", "10:03");
    assert server.subs["lobby"] == {"B"};
    assert server.rooms["lobby"] == [];
    assert frames[0] == Frame({"B"}, RoomUsers([]));
    assert frames[1].to == {"B"};
  }

  /** Continuing from "A" in "lobby" as "alice", the same socket joins
      "attic": its entry and its subscription in "lobby" both stay. */
  method AliceMovesOn() returns (server: Server)
    ensures fresh(server) && server.Valid()
    ensures server.sockets == map["A" := SocketData(Some("alice"), Some("attic")),
                                  "B" := SocketData(None, None)]
    ensures server.subs == map["lobby" := {"A"}, "attic" := {"A"}]
    ensures server.rooms == map["lobby" := [Entry("alice", "A")], "attic" := [Entry("alice", "A")]]
  {
    var aliceJoins;
    server, aliceJoins := AliceJoins();
    var _ := server.OnJoinRoom("A", "attic", "alice", "10:01");
    assert server.subs.Keys == {"lobby", "attic"};
    assert server.subs["lobby"] == {"A"} && server.subs["attic"] == {"A"};
    assert server.rooms.Keys == {"lobby", "attic"};
    assert server.rooms["attic"] == [Entry("alice", "A")];
  }

  /** Continuing from there, "B" joins "lobby" as "bob" and speaks: A, whose
      room is now "attic", is still listed in "lobby" and still hears it. */
  method Rejoin() returns (lobbyList: seq<Entry>, reached: set<SocketId>)
    ensures lobbyList == [Entry("alice", "A"), Entry("bob", "B")]
    ensures reached == {"A", "B"}
  {
    assert RemoveName([Entry("alice", "A")], "bob") == [Entry("alice", "A")];
    var server := AliceMovesOn();
    var _ := server.OnJoinRoom("B", "lobby", "bob", "10:02");
    assert server.subs["lobby"] == {"A", "B"};
    lobbyList := server.rooms["lobby"];
    var said := server.OnChatMessage("B", "anyone?", "10:03");
    reached := said[0].to;
  }

  /** A socket that never joined emits nothing on a room message, typing or
      disconnect, yet its private message is delivered, with no user. */
  method NeverJoined() returns (chat: seq<Frame>, typing: seq<Frame>, whisper: seq<Frame>, gone: seq<Frame>)
    ensures chat == [] && typing == [] && gone == []
    ensures whisper == [Frame({"B"}, PrivateMessage(None, "psst", "10:01"))]
  {
    var server := TwoSockets();
    chat := server.OnChatMessage("A", "hello", "10:01");
    typing := server.OnTyping("A");
    whisper := server.OnPrivateMessage("A", "B", "psst", "10:01");
    assert whisper[0].to == {"B"};
    gone := server.OnDisconnect("A", "10:02");
  }

  /** A private message crosses rooms, and one addressed to a socket that
      has gone reaches nobody. */
  method PrivateAcrossRooms() returns (crossing: set<SocketId>, dropped: set<SocketId>)
    ensures crossing == {"B"}
    ensures dropped == {}
  {
    var server := TwoSockets();
    var _ := server.OnJoinRoom("A", "x", "alice", "10:00");
    var _ := server.OnJoinRoom("B", "y", "bob", "10:00");
    var sent := server.OnPrivateMessage("A", "B", "hi bob", "10:01");
    crossing := sent[0].to;
    assert crossing == {"B"};
    var _ := server.OnDisconnect("B", "10:02");
    sent := server.OnPrivateMessage("A", "B", "still there?", "10:03");
    assert "B" !in server.sockets;
    dropped := sent[0].to;
  }

  /** A private message whose `toSocketId` is the name of a chat room
      reaches every subscriber of that room. */
  method PrivateToRoomName() returns (reached: set<SocketId>)
    ensures reached == {"B"}
  {
    var server := TwoSockets();
    var _ := server.OnJoinRoom("B", "lobby", "bob", "10:00");
    assert "lobby" !in server.sockets && server.subs["lobby"] == {"B"};
    var sent := server.OnPrivateMessage("A", "lobby", "psst", "10:01");
    reached := sent[0].to;
  }

  /** Continuing from "A" in "lobby" as "alice", the same socket joins
      "lobby" again as "alicia": only entries named "alicia" are filtered,
      so the room lists both names for the one socket. */
  method Renamed() returns (server: Server)
    ensures fresh(server) && server.Valid()
    ensures server.sockets == map["A" := SocketData(Some("alicia"), Some("lobby")),
                                  "B" := SocketData(None, None)]
    ensures server.subs == map["lobby" := {"A"}]
    ensures server.rooms == map["lobby" := [Entry("alice", "A"), Entry("alicia", "A")]]
  {
    assert RemoveName([Entry("alice", "A")], "alicia") == [Entry("alice", "A")];
    var aliceJoins;
    server, aliceJoins := AliceJoins();
    var _ := server.OnJoinRoom("A", "lobby", "alicia", "10:01");
    assert server.subs.Keys == {"lobby"} && server.subs["lobby"] == {"A"};
    assert server.rooms.Keys == {"lobby"};
    assert server.rooms["lobby"] == [Entry("alice", "A"), Entry("alicia", "A")];
  }

  /** Continuing from there, A disconnects: only "alicia" is removed, and
      "alice" stays listed although no socket is left to hold it. */
  method StaleName() returns (lobbyList: seq<Entry>)
    ensures lobbyList == [Entry("alice", "A")]
  {
    assert RemoveName([Entry("alice", "A"), Entry("alicia", "A")], "alicia") == [Entry("alice", "A")];
    var server := Renamed();
    assert Leaves(server.sockets["A"], server.rooms);
    var _ := server.OnDisconnect("A", "10:02");
    lobbyList := server.rooms["lobby"];
  }

  /** A private message to "B" after "A" joined a chat room called "B":
      both the socket "B" and the room's subscriber "A" receive it. */
  method PrivateToSharedName() returns (reached: set<SocketId>)
    ensures reached == {"A", "B"}
  {
    var server := TwoSockets();
    var _ := server.OnJoinRoom("A", "B", "alice", "10:00");
    assert server.subs["B"] == {"A"};
    var sent := server.OnPrivateMessage("B", "B", "who is there?", "10:01");
    reached := sent[0].to;
  }
}
