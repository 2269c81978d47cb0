/** The relay server: a registry of rooms keyed by room id, each holding its
    member connections and the url it was created for, driven by three
    WebSocket events (open, message, close).

    The registry is described twice: by pure functions over
    `map<string, Room>` that say what each handler does (`Handle`,
    `CloseRooms`), and by the class `Server`, whose methods update the map,
    the set of open connections and the outbox in place and are proved to
    agree with those functions. */
module Relay {
  import opened Envelope
  import opened Lists

  /** Opaque identity of one WebSocket connection. */
  type Conn = nat

  /** A room: its members in insertion order (a JavaScript `Set` iterates in
      insertion order, so the order of a broadcast is the order of joining),
      and the url given by the connection that created it. */
  datatype Room = Room(clients: seq<Conn>, url: Value)

  /** One `send` on one connection. */
  datatype Delivery = Delivery(to: Conn, reply: Reply)

  /** What one handler invocation leaves in the registry and what it sends. */
  datatype Effect = Effect(rooms: map<string, Room>, sent: seq<Delivery>)

  /** Registry invariant: no room is empty, and no member is listed twice. */
  ghost predicate Valid(rooms: map<string, Room>) {
    forall id :: id in rooms ==> rooms[id].clients != [] && NoDup(rooms[id].clients)
  }

  /** The connections a sequence of deliveries goes to, in order. */
  function Recipients(ds: seq<Delivery>): (r: seq<Conn>)
    ensures |r| == |ds|
  {
    if ds == [] then [] else [ds[0].to] + Recipients(ds[1..])
  }

  // ---------------------------------------------------------------------
  // Set operations on a member list

  /** `Set.add`: a new member goes last; an existing member changes nothing. */
  function Add(s: seq<Conn>, c: Conn): (r: seq<Conn>)
    ensures forall x :: x in r <==> x in s || x == c
    ensures c in s ==> r == s
    ensures |s| <= |r| && r[..|s|] == s
    ensures NoDup(s) ==> NoDup(r)
  {
    if c in s then s else s + [c]
  }

  /** `Set.delete`: removes `c`, keeping the other members in order. */
  function Delete(s: seq<Conn>, c: Conn): (r: seq<Conn>)
    ensures forall x :: x in r <==> x in s && x != c
    ensures c !in s ==> r == s
  {
    if s == [] then []
    else if s[0] == c then Delete(s[1..], c)
    else [s[0]] + Delete(s[1..], c)
  }

  /** Deleting from a duplicate-free list keeps it duplicate-free and
      shortens it by one exactly when `c` was a member. */
  lemma {:induction false} DeleteNoDup(s: seq<Conn>, c: Conn)
    requires NoDup(s)
    ensures NoDup(Delete(s, c))
    ensures |Delete(s, c)| == if c in s then |s| - 1 else |s|
  {
    if s != [] {
      assert s[0] !in s[1..];
      assert NoDup(s[1..]);
      DeleteNoDup(s[1..], c);
    }
  }

  /** `DeleteNoDup` for every room of a registry at once. */
  lemma DeleteNoDupAll(rooms: map<string, Room>, ws: Conn)
    ensures forall id :: id in rooms && NoDup(rooms[id].clients) ==> NoDup(Delete(rooms[id].clients, ws))
  {
    forall id | id in rooms && NoDup(rooms[id].clients) {
      DeleteNoDup(rooms[id].clients, ws);
    }
  }

  // ---------------------------------------------------------------------
  // The message handler

  /** The registry after `{type: "join", roomId: id, content}` from `ws`:
      an unknown room is created only when `content` is truthy, and then the
      sender is added to the room if it exists. */
  function JoinRooms(rooms: map<string, Room>, ws: Conn, id: string, content: Value): (r: map<string, Room>)
    ensures id in r <==> id in rooms || Truthy(content)
    ensures id !in rooms && Truthy(content) ==> r[id] == Room([ws], content)
    ensures id in rooms ==> r[id].url == rooms[id].url
    ensures id in rooms ==> forall c :: c in r[id].clients <==> c in rooms[id].clients || c == ws
    ensures id in rooms && ws in rooms[id].clients ==> r == rooms
    ensures id !in rooms && !Truthy(content) ==> r == rooms
    ensures r.Keys <= rooms.Keys + {id}
    ensures forall other :: other in rooms && other != id ==> other in r && r[other] == rooms[other]
    ensures Valid(rooms) ==> Valid(r)
  {
    if id in rooms then rooms[id := rooms[id].(clients := Add(rooms[id].clients, ws))]
    else if Truthy(content) then rooms[id := Room(Add([], ws), content)]
    else rooms
  }

  /** What a join sends: one `joined` envelope carrying the room's url, to
      the sender only, or nothing when the room neither exists nor can be
      created. */
  function JoinReplies(rooms: map<string, Room>, ws: Conn, id: string, content: Value): (r: seq<Delivery>)
    ensures r == [] <==> id !in rooms && !Truthy(content)
    ensures id in rooms ==> r == [Delivery(ws, Joined(id, rooms[id].url))]
    ensures id !in rooms && Truthy(content) ==> r == [Delivery(ws, Joined(id, content))]
  {
    var after := JoinRooms(rooms, ws, id, content);
    if id in after then [Delivery(ws, Joined(id, after[id].url))] else []
  }

  /** The fan-out loop: one delivery of `reply` per member other than `sender`. */
  function FanOut(members: seq<Conn>, sender: Conn, reply: Reply): seq<Delivery> {
    if members == [] then []
    else (if members[0] != sender then [Delivery(members[0], reply)] else []) + FanOut(members[1..], sender, reply)
  }

  /** The fan-out reaches exactly the members other than the sender, in
      order. */
  lemma {:induction false} FanOutRecipients(members: seq<Conn>, sender: Conn, reply: Reply)
    ensures Recipients(FanOut(members, sender, reply)) == Delete(members, sender)
  {
    if members != [] {
      var rest := FanOut(members[1..], sender, reply);
      FanOutRecipients(members[1..], sender, reply);
      if members[0] != sender {
        assert ([Delivery(members[0], reply)] + rest)[1..] == rest;
      } else {
        assert FanOut(members, sender, reply) == [] + rest == rest;
      }
    }
  }

  /** Every delivery of the fan-out carries the same reply to a member other
      than the sender. */
  lemma {:induction false} FanOutDeliveries(members: seq<Conn>, sender: Conn, reply: Reply)
    ensures forall d :: d in FanOut(members, sender, reply) ==> d.reply == reply && d.to != sender && d.to in members
  {
    if members != [] {
      FanOutDeliveries(members[1..], sender, reply);
    }
  }

  /** Appending one member to the list appends at most one delivery. */
  lemma {:induction false} FanOutSnoc(members: seq<Conn>, c: Conn, sender: Conn, reply: Reply)
    ensures FanOut(members + [c], sender, reply)
         == FanOut(members, sender, reply) + (if c != sender then [Delivery(c, reply)] else [])
  {
    if members != [] {
      assert (members + [c])[1..] == members[1..] + [c];
      FanOutSnoc(members[1..], c, sender, reply);
    }
  }

  /** One more turn of the fan-out loop over `members`. */
  lemma FanOutStep(members: seq<Conn>, i: nat, sender: Conn, reply: Reply)
    requires i < |members|
    ensures FanOut(members[..i + 1], sender, reply)
         == FanOut(members[..i], sender, reply) + (if members[i] != sender then [Delivery(members[i], reply)] else [])
  {
    assert members[..i + 1] == members[..i] + [members[i]];
    FanOutSnoc(members[..i], members[i], sender, reply);
  }

  /** What `{type: "message", roomId: id, content}` from `ws` sends: the
      content, unchanged, to every other member of the room exactly once,
      never to the sender; nothing when the room does not exist. */
  function MessageReplies(rooms: map<string, Room>, ws: Conn, id: string, content: Value): (r: seq<Delivery>)
    ensures id !in rooms ==> r == []
    ensures id in rooms ==> Recipients(r) == Delete(rooms[id].clients, ws)
    ensures id in rooms ==> forall c :: c in Recipients(r) <==> c in rooms[id].clients && c != ws
    ensures id in rooms && NoDup(rooms[id].clients) ==> NoDup(Recipients(r))
    ensures id in rooms && rooms[id].clients == [ws] ==> r == []
    ensures forall d :: d in r ==> d.to != ws && d.reply == Relayed(id, content)
  {
    if id in rooms then
      FanOutRecipients(rooms[id].clients, ws, Relayed(id, content));
      FanOutDeliveries(rooms[id].clients, ws, Relayed(id, content));
      DeleteNoDupAll(rooms, ws);
      FanOut(rooms[id].clients, ws, Relayed(id, content))
    else []
  }

  /** The whole `message` handler: dispatch on `type`. */
  function Handle(rooms: map<string, Room>, ws: Conn, req: Request): (e: Effect)
    ensures req.kind == "join" ==>
      e == Effect(JoinRooms(rooms, ws, req.roomId, req.content), JoinReplies(rooms, ws, req.roomId, req.content))
    ensures req.kind != "join" ==> e.rooms == rooms
    ensures req.kind == "message" && req.roomId != "" ==> e.sent == MessageReplies(rooms, ws, req.roomId, req.content)
    ensures req.kind != "join" && (req.kind != "message" || req.roomId == "") ==> e.sent == []
    ensures forall d :: d in e.sent ==> (d.to == ws <==> req.kind == "join")
    ensures Valid(rooms) ==> Valid(e.rooms)
  {
    if req.kind == "join" then
      Effect(JoinRooms(rooms, ws, req.roomId, req.content), JoinReplies(rooms, ws, req.roomId, req.content))
    else if req.kind == "message" && req.roomId != "" then
      Effect(rooms, MessageReplies(rooms, ws, req.roomId, req.content))
    else
      Effect(rooms, [])
  }

  // ---------------------------------------------------------------------
  // The close handler

  /** The registry after `close(ws)`: `ws` is taken out of every room and
      every room left empty is deleted. */
  function CloseRooms(rooms: map<string, Room>, ws: Conn): (r: map<string, Room>)
    ensures r.Keys <= rooms.Keys
    ensures forall id :: id in r ==> r[id].clients != [] && ws !in r[id].clients && r[id].url == rooms[id].url
    ensures forall id :: id in r ==> r[id].clients == Delete(rooms[id].clients, ws)
    ensures forall id :: id in r ==> forall c :: c in r[id].clients <==> c in rooms[id].clients && c != ws
    ensures forall id :: id in rooms && id !in r ==> forall c :: c in rooms[id].clients ==> c == ws
    ensures forall id :: id in rooms && ws !in rooms[id].clients && rooms[id].clients != [] ==> id in r && r[id] == rooms[id]
    ensures Valid(rooms) ==> Valid(r)
  {
    DeleteNoDupAll(rooms, ws);
    map id | id in rooms && Delete(rooms[id].clients, ws) != [] :: rooms[id].(clients := Delete(rooms[id].clients, ws))
  }

  /** Closing the same connection twice has the effect of closing it once. */
  lemma CloseIdempotent(rooms: map<string, Room>, ws: Conn)
    ensures CloseRooms(CloseRooms(rooms, ws), ws) == CloseRooms(rooms, ws)
  {
  }

  // ---------------------------------------------------------------------
  // Whole runs of the server

  /** An event the runtime delivers to the server, one at a time. */
  datatype Event = Opened(ws: Conn) | Received(ws: Conn, req: Request) | Closed(ws: Conn)

  function Apply(rooms: map<string, Room>, ev: Event): map<string, Room> {
    match ev
    case Opened(_) => rooms
    case Received(ws, req) => Handle(rooms, ws, req).rooms
    case Closed(ws) => CloseRooms(rooms, ws)
  }

  function RunRooms(rooms: map<string, Room>, evs: seq<Event>): map<string, Room>
    decreases |evs|
  {
    if evs == [] then rooms else RunRooms(Apply(rooms, evs[0]), evs[1..])
  }

  /** Whatever the server receives, no empty room survives a handler. */
  lemma {:induction false} RoomsNeverEmpty(rooms: map<string, Room>, evs: seq<Event>)
    requires Valid(rooms)
    ensures Valid(RunRooms(rooms, evs))
    decreases |evs|
  {
    if evs != [] {
      RoomsNeverEmpty(Apply(rooms, evs[0]), evs[1..]);
    }
  }

  /** A room whose last member disconnects is gone: a later join that brings
      no url gets no reply and creates nothing, and a message to it reaches
      nobody. */
  lemma LastLeaveForgetsRoom(rooms: map<string, Room>, id: string, ws: Conn, other: Conn, content: Value)
    requires id in rooms && rooms[id].clients == [ws]
    ensures id !in CloseRooms(rooms, ws)
    ensures Handle(CloseRooms(rooms, ws), other, Request("join", id, Str(""))).sent == []
    ensures Handle(CloseRooms(rooms, ws), other, Request("message", id, content)).sent == []
  {
  }

  /** End to end: one connection creates room "abc" for a url, a second joins
      it with an empty url and is told the stored url, and a message from the
      first reaches the second only, unchanged. */
  lemma JoinThenRelay(url: Value, v1: Conn, v2: Conn, payload: Value)
    requires Truthy(url) && v1 != v2
    ensures var r1 := Handle(map[], v1, Request("join", "abc", url));
            var r2 := Handle(r1.rooms, v2, Request("join", "abc", Str("")));
            && r1.sent == [Delivery(v1, Joined("abc", url))]
            && r2.sent == [Delivery(v2, Joined("abc", url))]
            && r2.rooms["abc"] == Room([v1, v2], url)
            && Handle(r2.rooms, v1, Request("message", "abc", payload)).sent
               == [Delivery(v2, Relayed("abc", payload))]
  {
  }

  // ---------------------------------------------------------------------
  // The server object

  /** Registry state between two closures in the partially run close loop:
      rooms still in `pending` are untouched, the others are processed. */
  ghost function ClosePartial(rooms: map<string, Room>, ws: Conn, pending: set<string>): map<string, Room> {
    map id | id in rooms && (id in pending || Delete(rooms[id].clients, ws) != [])
      :: if id in pending then rooms[id] else rooms[id].(clients := Delete(rooms[id].clients, ws))
  }

  lemma ClosePartialNone(rooms: map<string, Room>, ws: Conn)
    ensures ClosePartial(rooms, ws, rooms.Keys) == rooms
  {
  }

  lemma ClosePartialAll(rooms: map<string, Room>, ws: Conn)
    ensures ClosePartial(rooms, ws, {}) == CloseRooms(rooms, ws)
  {
  }

  /** One turn of the close loop processes room `id`. */
  lemma ClosePartialStep(rooms: map<string, Room>, ws: Conn, pending: set<string>, id: string)
    requires id in pending && pending <= rooms.Keys
    ensures id in ClosePartial(rooms, ws, pending)
    ensures var room := ClosePartial(rooms, ws, pending)[id].(clients := Delete(rooms[id].clients, ws));
            var after := ClosePartial(rooms, ws, pending)[id := room];
            ClosePartial(rooms, ws, pending - {id}) == if room.clients == [] then after - {id} else after
  {
  }

  class Server {
    /** Every open connection. */
    var clients: set<Conn>
    /** Room id to room. */
    var rooms: map<string, Room>
    /** Every envelope sent so far, in order. */
    var outbox: seq<Delivery>

    constructor ()
      ensures clients == {} && rooms == map[] && outbox == []
    {
      clients := {};
      rooms := map[];
      outbox := [];
    }

    /** The `open` handler. */
    method Open(ws: Conn)
      modifies this
      ensures clients == old(clients) + {ws}
      ensures rooms == old(rooms) && outbox == old(outbox)
    {
      clients := clients + {ws};
    }

    /** The `message` handler, for a message that parsed. */
    method OnMessage(ws: Conn, req: Request)
      modifies this
      ensures clients == old(clients)
      ensures rooms == Handle(old(rooms), ws, req).rooms
      ensures outbox == old(outbox) + Handle(old(rooms), ws, req).sent
    {
      if req.kind == "join" {
        Join(ws, req.roomId, req.content);
      } else if req.kind == "message" && req.roomId != "" {
        Broadcast(ws, req.roomId, req.content);
      } else {
        // unknown type or missing roomId: logged and dropped
      }
    }

    /** The `join` branch. */
    method Join(ws: Conn, id: string, content: Value)
      modifies this
      ensures clients == old(clients)
      ensures rooms == JoinRooms(old(rooms), ws, id, content)
      ensures outbox == old(outbox) + JoinReplies(old(rooms), ws, id, content)
    {
      if id !in rooms && Truthy(content) {
        rooms := rooms[id := Room([], content)];
      }
      if id !in rooms {
        // the room was not created: logged, nothing sent
        return;
      }
      var room := rooms[id];
      room := room.(clients := Add(room.clients, ws));
      rooms := rooms[id := room];
      outbox := outbox + [Delivery(ws, Joined(id, room.url))];
    }

    /** The `message` branch: send the content to every member but the sender. */
    method Broadcast(ws: Conn, id: string, content: Value)
      modifies this
      ensures clients == old(clients) && rooms == old(rooms)
      ensures outbox == old(outbox) + MessageReplies(old(rooms), ws, id, content)
    {
      if id in rooms {
        var members := rooms[id].clients;
        var i := 0;
        while i < |members|
          invariant 0 <= i <= |members|
          invariant clients == old(clients) && rooms == old(rooms)
          invariant outbox == old(outbox) + FanOut(members[..i], ws, Relayed(id, content))
        {
          if members[i] != ws {
            outbox := outbox + [Delivery(members[i], Relayed(id, content))];
          }
          FanOutStep(members, i, ws, Relayed(id, content));
          i := i + 1;
        }
        assert members[..|members|] == members;
      }
    }

    /** The `close` handler: forget the connection, take it out of every
        room, and delete each room that is left empty. */
    method Close(ws: Conn)
      modifies this
      ensures clients == old(clients) - {ws}
      ensures rooms == CloseRooms(old(rooms), ws)
      ensures outbox == old(outbox)
    {
      clients := clients - {ws};
      ghost var start := rooms;
      var pending := rooms.Keys;
      ClosePartialNone(start, ws);
      while pending != {}
        invariant pending <= start.Keys
        invariant rooms == ClosePartial(start, ws, pending)
        invariant clients == old(clients) - {ws} && outbox == old(outbox)
        decreases pending
      {
        var id :| id in pending;
        ClosePartialStep(start, ws, pending, id);
        var room := rooms[id];
        room := room.(clients := Delete(room.clients, ws));
        rooms := rooms[id := room];
        if room.clients == [] {
          rooms := rooms - {id};
        }
        pending := pending - {id};
      }
      ClosePartialAll(start, ws);
    }
  }
}
