/** One chat room: the membership set, the history and the control loop's
    event handlers, run one after another. Each client's outgoing channel
    is an outbox the room appends to; stopping a client marks it stopped. */
module ChatRoom {
  import opened ChatType
  import opened RoomSpec

  class Room {
    const name: string
    /** The registered clients. */
    var clients: set<ClientId>
    /** The room's history, oldest first. */
    var messages: seq<Message>
    /** What has been sent to each client so far; absent means nothing. */
    var outbox: map<ClientId, seq<Message>>
    /** The clients the room has stopped. */
    var stopped: set<ClientId>
    /** How many times the room has been written to the store. */
    var writes: nat

    /** A room over a chat room record: its name and stored history, with
        no clients yet. */
    constructor (name: string, history: seq<Message>)
      ensures this.name == name && messages == history
      ensures clients == {} && stopped == {} && writes == 0
      ensures forall c :: Outbox(c) == []
    {
      this.name := name;
      clients := {};
      messages := history;
      outbox := map[];
      stopped := {};
      writes := 0;
    }

    /** Everything sent to client `c` so far. */
    function Outbox(c: ClientId): seq<Message>
      reads this`outbox
    {
      OutboxOf(outbox, c)
    }

    /** The state the control loop owns. */
    function Snap(): Snapshot
      reads this`clients, this`messages, this`stopped, this`writes
    {
      Snapshot(clients, messages, stopped, writes)
    }

    /** The number of registered clients. */
    function UserCount(): (n: nat)
      reads this
      ensures n == |clients|
      ensures n == 0 <==> clients == {}
    {
      |clients|
    }

    /** Hands `m` to client `c`'s outgoing channel. */
    method Send(c: ClientId, m: Message)
      modifies this`outbox
      ensures outbox == old(outbox)[c := old(Outbox(c)) + [m]]
    {
      outbox := outbox[c := Outbox(c) + [m]];
    }

    /** Hands `m` once to each client in `targets`. */
    method FanOut(targets: set<ClientId>, m: Message)
      modifies this`outbox
      ensures forall c :: Outbox(c) == old(Outbox(c)) + (if c in targets then [m] else [])
    {
      var pending := targets;
      while pending != {}
        invariant pending <= targets
        invariant forall c :: Outbox(c) == old(Outbox(c)) + (if c in targets - pending then [m] else [])
        decreases pending
      {
        var c :| c in pending;
        Send(c, m);
        pending := pending - {c};
      }
    }

    /** The loop's register branch: the client becomes a member (again, if
        it already was one); the history is untouched. */
    method Register(c: ClientId)
      modifies this`clients
      ensures clients == old(clients) + {c}
      ensures c in old(clients) ==> clients == old(clients)
      ensures Snap() == Step(old(Snap()), Event.Register(c))
    {
      clients := clients + {c};
    }

    /** The loop's unregister branch: a member is removed and stopped; a
        client that is not a member changes nothing. */
    method Unregister(c: ClientId)
      modifies this`clients, this`stopped
      ensures c in old(clients) ==>
                clients == old(clients) - {c} && |clients| == |old(clients)| - 1
                && stopped == old(stopped) + {c}
      ensures c !in old(clients) ==> clients == old(clients) && stopped == old(stopped)
      ensures Snap() == Step(old(Snap()), Event.Unregister(c))
    {
      if c in clients {
        clients := clients - {c};
        stopped := stopped + {c};
      }
    }

    /** The loop's broadcast branch: a text, image or file message is
        appended to the history and the room is written to the store; then
        every member, and no one else, receives the message once, whatever
        its type. */
    method Broadcast(m: Message)
      modifies this`messages, this`writes, this`outbox
      ensures messages == if Persistable(m.kind) then old(messages) + [m] else old(messages)
      ensures writes == old(writes) + (if Persistable(m.kind) then 1 else 0)
      ensures forall c :: Outbox(c) == old(Outbox(c)) + (if c in clients then [m] else [])
      ensures Snap() == Step(old(Snap()), Event.Broadcast(m))
    {
      if Persistable(m.kind) {
        messages := messages + [m];
        writes := writes + 1;
      }
      FanOut(clients, m);
    }

    /** Replays the history to client `c`: the most recent messages, at most
        MaxHistoryCount of them, oldest first, then the room's `over`
        marker. Nothing else changes. */
    method SendHistory(c: ClientId)
      modifies this`outbox
      ensures forall d :: Outbox(d) == old(Outbox(d)) + (if d == c then Replay(messages, name) else [])
    {
      var window := HistoryWindow(messages);
      for i := 0 to |window|
        invariant Outbox(c) == old(Outbox(c)) + window[..i]
        invariant forall d :: d != c ==> Outbox(d) == old(Outbox(d))
      {
        assert window[..i + 1] == window[..i] + [window[i]];
        Send(c, window[i]);
      }
      assert window[..|window|] == window;
      Send(c, OverMarker(name));
    }

    /** Broadcasts the member count, unless the room is empty. The notice
        is never persisted, so only the outboxes change. */
    method NotifyUserCount() returns (notice: Option<Message>)
      modifies this`messages, this`writes, this`outbox
      ensures notice == UserCountNotice(|clients|, name)
      ensures notice.None? <==> clients == {}
      ensures Snap() == old(Snap())
      ensures forall c :: Outbox(c) == old(Outbox(c)) + (if notice.Some? && c in clients then [notice.value] else [])
    {
      var userCount := |clients|;
      notice := UserCountNotice(userCount, name);
      if notice.Some? {
        Broadcast(notice.value);
      }
    }

    /** A client joins: it is registered, then every member, the newcomer
        included, is told the new count. */
    method Join(c: ClientId) returns (notice: Option<Message>)
      modifies this`clients, this`messages, this`writes, this`outbox
      ensures clients == old(clients) + {c}
      ensures messages == old(messages) && writes == old(writes)
      ensures notice == Some(Message(UserCountKind, "", RoomCount(|clients|, name)))
      ensures forall d :: Outbox(d) == old(Outbox(d)) + (if d in clients then [notice.value] else [])
    {
      Register(c);
      notice := NotifyUserCount();
    }

    /** A client leaves: it is unregistered (and stopped, if it was a
        member), then the remaining members are told the new count; when
        none remain, nothing is broadcast. */
    method Leave(c: ClientId) returns (notice: Option<Message>)
      modifies this`clients, this`stopped, this`messages, this`writes, this`outbox
      ensures clients == old(clients) - {c}
      ensures stopped == if c in old(clients) then old(stopped) + {c} else old(stopped)
      ensures messages == old(messages) && writes == old(writes)
      ensures notice == UserCountNotice(|clients|, name)
      ensures clients == {} ==> notice == None
      ensures forall d :: Outbox(d) == old(Outbox(d)) + (if notice.Some? && d in clients then [notice.value] else [])
    {
      Unregister(c);
      notice := NotifyUserCount();
    }

    /** One turn of the control loop: the request `e` goes to its branch. */
    method Handle(e: Event)
      modifies this`clients, this`stopped, this`messages, this`writes, this`outbox
      ensures Snap() == Step(old(Snap()), e)
      ensures forall c :: Outbox(c) == old(Outbox(c)) + Delivery(old(Snap()), e, c)
    {
      match e
      case Register(c) => Register(c);
      case Unregister(c) => Unregister(c);
      case Broadcast(m) => Broadcast(m);
    }

    /** The control loop, handling `events` in arrival order. */
    method Serve(events: seq<Event>)
      modifies this`clients, this`stopped, this`messages, this`writes, this`outbox
      ensures Snap() == Run(old(Snap()), events)
      ensures forall c :: Outbox(c) == old(Outbox(c)) + DeliveredTo(old(Snap()), events, c)
    {
      ghost var s0, o0 := Snap(), outbox;
      for i := 0 to |events|
        invariant Snap() == Run(s0, events[..i])
        invariant forall c :: OutboxOf(outbox, c) == OutboxOf(o0, c) + DeliveredTo(s0, events[..i], c)
      {
        ghost var done, o := events[..i], outbox;
        var e := events[i];
        assert events[..i + 1] == done + [e];
        RunSnoc(s0, done, e);
        Handle(e);
        forall c
          ensures OutboxOf(outbox, c) == OutboxOf(o0, c) + DeliveredTo(s0, done + [e], c)
        {
          DeliveredToSnoc(s0, done, e, c);
          assert OutboxOf(outbox, c) == OutboxOf(o, c) + Delivery(Run(s0, done), e, c);
        }
      }
      assert events[..|events|] == events;
    }
  }

  /** Two history replays with nothing in between deliver the same
      messages twice, each run ending in the `over` marker. */
  method SendHistoryTwice(room: Room, c: ClientId)
    modifies room`outbox
    ensures room.Outbox(c) == old(room.Outbox(c)) + Replay(room.messages, room.name)
                                                  + Replay(room.messages, room.name)
  {
    room.SendHistory(c);
    room.SendHistory(c);
  }

  /** The opening of the lobby walk-through: in a fresh room "lobby",
      A joins, then B joins. */
  method LobbyOpening() returns (room: Room, a: ClientId, b: ClientId)
    ensures fresh(room) && room.name == "lobby"
    ensures room.clients == {a, b} && a != b && room.messages == []
    ensures room.Outbox(a) == [Message(UserCountKind, "", RoomCount(1, "lobby")),
                               Message(UserCountKind, "", RoomCount(2, "lobby"))]
    ensures room.Outbox(b) == [Message(UserCountKind, "", RoomCount(2, "lobby"))]
  {
    a, b := 1, 2;
    room := new Room("lobby", []);
    var n1 := room.Join(a);
    assert room.Outbox(b) == [];
    var n2 := room.Join(b);
  }

  /** The lobby walk-through: A joins, B joins, A says "hi", B leaves. */
  method LobbyScenario() returns (toA: seq<Message>, toB: seq<Message>, history: seq<Message>)
    ensures toA == [Message(UserCountKind, "", RoomCount(1, "lobby")),
                    Message(UserCountKind, "", RoomCount(2, "lobby")),
                    Message(TextKind, "lobby", Bytes([104, 105])),
                    Message(UserCountKind, "", RoomCount(1, "lobby"))]
    ensures toB == [Message(UserCountKind, "", RoomCount(2, "lobby")),
                    Message(TextKind, "lobby", Bytes([104, 105]))]
    ensures history == [Message(TextKind, "lobby", Bytes([104, 105]))]
  {
    var room, a, b := LobbyOpening();
    room.Broadcast(Message(TextKind, "lobby", Bytes([104, 105])));
    var n3 := room.Leave(b);
    assert room.clients == {a};
    toA, toB, history := room.Outbox(a), room.Outbox(b), room.messages;
  }
}
