/** The room/session engine of the whiteboard server, in its in-memory mode (`useDatabase`
    false): the `activeRooms` and `activeUsers` maps, the per-connection variables
    `currentRoomId`, `currentUsername` and `currentUserId`, and one method per socket event.
    Each handler runs to completion; what socket.io would deliver is appended to an
    output log together with the set of connections that receive it. */
module Server {
  import opened Wire
  import opened Lists
  import Helpers

  /** An entry of `room.users`. */
  datatype User = User(
    id: SocketId,
    userId: string,
    username: string,
    isCreator: bool,
    permission: Permission,
    isOnline: bool,
    joinedAt: string)

  /** A value of `activeRooms`. `canvasData` is `null` until a drawing arrives or a join
      fills it in; `joinRequests` is absent from a room made by create-room until the
      first join-room or respond-join-request adds it. */
  datatype Room = Room(
    roomId: RoomId,
    creatorId: SocketId,
    roomType: string,
    users: seq<User>,
    canvasData: Option<seq<Element>>,
    chatMessages: seq<ChatMessage>,
    joinRequests: Option<seq<JoinRequest>>)

  /** A value of `activeUsers`: `{...user, roomId}`. */
  datatype ActiveUser = ActiveUser(user: User, roomId: RoomId)

  /** The three variables each connection's handlers close over; `None` is `null`. */
  datatype Session = Session(
    currentRoomId: Option<RoomId>,
    currentUsername: Option<string>,
    currentUserId: Option<string>)

  /** The events the server emits, one constructor per event name. */
  datatype Event =
    | Error(message: string)                                              // 'error'
    | RoomCreated(roomId: RoomId, room: Room, users: seq<User>, permission: Permission)
    | RoomNotFound(message: string)                                       // 'room-not-found'
    | RoomJoined(room: Room, users: seq<User>, permission: Permission)
    | Drawing(elements: seq<Element>)                                     // 'drawing'
    | ChatHistory(messages: seq<ChatMessage>)                             // 'chat-history'
    | UserJoined(user: User, users: seq<User>)                            // 'user-joined'
    | JoinRequestSent(request: JoinRequest, roomId: RoomId)               // 'join-request'
    | JoinRequestPending(message: string, roomId: RoomId)
    | JoinRequestApproved(room: Room, users: seq<User>, permission: Permission)
    | JoinRequestRejected(message: string, roomId: RoomId)
    | JoinRequestResponded(requestId: SocketId, approved: bool, username: string)
    | ClearCanvas                                                         // 'clear-canvas'
    | ChatMessageSent(chat: ChatMessage)                               // 'chat-message'
    | UserTyping(typist: Option<string>, isTyping: bool)                // 'user-typing'
    | CanvasData(canvasData: seq<Element>)                                // 'canvas-data'
    | UserLeft(userId: SocketId, users: seq<User>)                        // 'user-left'

  /** One delivery: the connections that receive the event. */
  datatype Emit = Emit(to: set<SocketId>, event: Event)

  const RoomExistsMessage := "Room already exists"
  const RoomNotFoundMessage := "Room not found. Please ask the room creator to create the room first."
  const SentToLeaderMessage := "Join request sent to room leader. Waiting for approval..."
  const CreatorOfflineMessage := "Room creator is not currently online. Please try again later."
  const UnknownRoomMessage := "Room not found"
  const OnlyLeaderMessage := "Only room leader can approve/reject join requests"
  const RequestNotFoundMessage := "Join request not found"
  const RejectedMessage := "Your join request was rejected by the room leader."

  /** The most entries `chatMessages` keeps, and the most `chat-history` sends. */
  const ChatLogLimit := 100
  const ChatHistoryLength := 50

  /** JavaScript truthiness of `currentRoomId`: neither `null` nor the empty string. */
  predicate Truthy(roomId: Option<RoomId>) {
    roomId.Some? && roomId.value != ""
  }

  /** The join requests of a room; an absent array reads as empty. */
  function Requests(room: Room): seq<JoinRequest> {
    room.joinRequests.GetOr([])
  }

  /** `room.canvasData || []`. */
  function CanvasOrEmpty(room: Room): seq<Element> {
    room.canvasData.GetOr([])
  }

  /** join-room's repair of an existing room: missing `joinRequests` and a `null`
      `canvasData` become empty arrays (`chatMessages` is always present). */
  function Prepared(room: Room): (r: Room)
    ensures Requests(r) == Requests(room) && r.joinRequests.Some?
    ensures r.canvasData == Some(CanvasOrEmpty(room))
    ensures r.users == room.users && r.chatMessages == room.chatMessages
    ensures r.roomId == room.roomId && r.creatorId == room.creatorId && r.roomType == room.roomType
  {
    room.(joinRequests := Some(Requests(room)), canvasData := Some(CanvasOrEmpty(room)))
  }

  /** The socket ids listed in `room.users`. */
  function MemberIds(room: Room): set<SocketId> {
    set u | u in room.users :: u.id
  }

  /** What every active room satisfies between events. */
  predicate RoomInvariant(id: RoomId, room: Room) {
    && room.roomId == id
    && room.creatorId != ""
    && |room.users| >= 1
    && |room.chatMessages| <= ChatLogLimit
    && (forall u :: u in room.users ==> (u.isCreator <==> u.id == room.creatorId))
    && (forall q :: q in Requests(room) ==>
          q.status == Pending && q.respondedBy == None && q.respondedAt == None && q.id != room.creatorId)
  }

  /** Every active room satisfies its invariant. */
  predicate RoomsOk(rooms: map<RoomId, Room>) {
    forall r :: r in rooms ==> RoomInvariant(r, rooms[r])
  }

  /** The connections of socket.io room `r`; a room nobody joined is empty. */
  function ChannelOf(channels: map<RoomId, set<SocketId>>, r: RoomId): set<SocketId> {
    if r in channels then channels[r] else {}
  }

  /** The socket ids listed as users of room `r`, none if it is not active. */
  function RoomMembers(rooms: map<RoomId, Room>, r: RoomId): set<SocketId> {
    if r in rooms then MemberIds(rooms[r]) else {}
  }

  /** Only open connections are in socket.io rooms. */
  predicate ChannelsLive(channels: map<RoomId, set<SocketId>>, open: set<SocketId>) {
    forall r :: r in channels ==> channels[r] <= open
  }

  /** Only listed users of an active room are in its socket.io room: a connection that is
      not in `users` of room `r` receives none of `r`'s broadcasts. (A connection can be
      listed in a room and also have a request pending there, or in another room.) */
  predicate ChannelsMembers(channels: map<RoomId, set<SocketId>>, rooms: map<RoomId, Room>) {
    forall r :: r in channels ==> channels[r] <= RoomMembers(rooms, r)
  }

  lemma PreparedInvariant(id: RoomId, room: Room)
    requires RoomInvariant(id, room)
    ensures RoomInvariant(id, Prepared(room)) && MemberIds(Prepared(room)) == MemberIds(room)
  {
  }

  lemma MemberIdsAppend(room: Room, user: User)
    ensures MemberIds(room.(users := room.users + [user])) == MemberIds(room) + {user.id}
  {
    var grown := room.(users := room.users + [user]);
    forall x | x in MemberIds(grown) ensures x in MemberIds(room) + {user.id} {
      var u :| u in grown.users && u.id == x;
      if u != user {
        assert u in room.users;
      }
    }
    assert user in grown.users;
    forall x | x in MemberIds(room) ensures x in MemberIds(grown) {
      var u :| u in room.users && u.id == x;
      assert u in grown.users;
    }
  }

  /** Replacing an active room by one that keeps its invariant and its members keeps both
      room-level invariants of the registry. */
  lemma UpdateRoomOk(rooms: map<RoomId, Room>, channels: map<RoomId, set<SocketId>>, id: RoomId, room: Room)
    requires RoomsOk(rooms) && ChannelsMembers(channels, rooms) && id in rooms
    requires RoomInvariant(id, room) && MemberIds(rooms[id]) <= MemberIds(room)
    ensures RoomsOk(rooms[id := room]) && ChannelsMembers(channels, rooms[id := room])
  {
    forall r | r in channels ensures channels[r] <= RoomMembers(rooms[id := room], r) {
      assert channels[r] <= RoomMembers(rooms, r);
    }
  }

  /** `socket.join(id)` by an open connection listed as a user of room `id`. */
  lemma JoinChannelOk(channels: map<RoomId, set<SocketId>>, rooms: map<RoomId, Room>, open: set<SocketId>,
                      id: RoomId, sid: SocketId)
    requires ChannelsMembers(channels, rooms) && ChannelsLive(channels, open)
    requires sid in RoomMembers(rooms, id) && sid in open
    ensures ChannelsMembers(channels[id := ChannelOf(channels, id) + {sid}], rooms)
    ensures ChannelsLive(channels[id := ChannelOf(channels, id) + {sid}], open)
  {
  }

  /** respond-join-request's repair: a missing `joinRequests` becomes an empty array. */
  function WithRequests(room: Room): (r: Room)
    ensures Requests(r) == Requests(room) && r.joinRequests.Some?
    ensures r.users == room.users && r.canvasData == room.canvasData && r.chatMessages == room.chatMessages
  {
    room.(joinRequests := Some(Requests(room)))
  }

  /** The responder check: the first user listed with the responder's socket id is the creator. */
  function IsLeader(room: Room, sid: SocketId): (ok: bool)
    ensures ok ==> exists u :: u in room.users && u.id == sid && u.isCreator
    ensures (forall u :: u in room.users && u.id == sid ==> u.isCreator) && sid in MemberIds(room) ==> ok
  {
    match FindIndex(room.users, (u: User) => u.id == sid)
    case Some(i) => room.users[i].isCreator
    case None => false
  }

  /** The position of the first join request with that id. */
  function FindRequest(room: Room, requestId: SocketId): (r: Option<nat>)
    ensures r.Some? ==> r.value < |Requests(room)| && Requests(room)[r.value].id == requestId
    ensures r.None? <==> forall q :: q in Requests(room) ==> q.id != requestId
  {
    FindIndex(Requests(room), (q: JoinRequest) => q.id == requestId)
  }

  /** A request once the creator answered it. */
  function Answer(q: JoinRequest, approved: bool, responder: SocketId, respondedAt: string): JoinRequest {
    q.(status := if approved then Approved else Rejected, respondedBy := Some(responder), respondedAt := Some(respondedAt))
  }

  /** The user an approval adds: never a creator, always an editor. */
  function AdmittedUser(q: JoinRequest, joinedAt: string): User {
    User(q.id, q.userId, q.username, false, Edit, true, joinedAt)
  }

  /** `joinRequests.filter(r => r.id !== requestId)`. */
  function WithoutRequest(requests: seq<JoinRequest>, requestId: SocketId): (r: seq<JoinRequest>)
    ensures forall q :: q in r <==> q in requests && q.id != requestId
  {
    Filter(requests, (q: JoinRequest) => q.id != requestId)
  }

  /** The room as the approval shows it: the request at `i` marked with the answer and,
      on approval, the requester appended to `users`. */
  function Marked(room: Room, i: nat, approved: bool, responder: SocketId, respondedAt: string, joinedAt: string): (r: Room)
    requires i < |Requests(room)|
    ensures approved ==> r.users == room.users + [AdmittedUser(Requests(room)[i], joinedAt)]
    ensures !approved ==> r.users == room.users
    ensures Requests(r) == Requests(room)[i := Answer(Requests(room)[i], approved, responder, respondedAt)]
    ensures r.roomId == room.roomId && r.creatorId == room.creatorId
    ensures r.canvasData == room.canvasData && r.chatMessages == room.chatMessages
  {
    var q := Requests(room)[i];
    var m := room.(joinRequests := Some(Requests(room)[i := Answer(q, approved, responder, respondedAt)]));
    if approved then m.(users := m.users + [AdmittedUser(q, joinedAt)]) else m
  }

  /** The room after respond-join-request: `Marked`, then every request with the answered
      id filtered out. */
  function Resolved(room: Room, i: nat, approved: bool, responder: SocketId, respondedAt: string, joinedAt: string): (r: Room)
    requires i < |Requests(room)|
    ensures FindRequest(r, Requests(room)[i].id).None?
    ensures forall q :: q in Requests(r) <==> q in Requests(room) && q.id != Requests(room)[i].id
    ensures r.users == Marked(room, i, approved, responder, respondedAt, joinedAt).users
  {
    var m := Marked(room, i, approved, responder, respondedAt, joinedAt);
    FilterRequestsIgnoresAnswer(Requests(room), i, Answer(Requests(room)[i], approved, responder, respondedAt), Requests(room)[i].id);
    m.(joinRequests := Some(WithoutRequest(Requests(m), Requests(room)[i].id)))
  }

  /** Answering a request keeps the room's invariant and adds the requester on approval. */
  lemma ResolvedInvariant(id: RoomId, room: Room, i: nat, approved: bool, responder: SocketId, respondedAt: string, joinedAt: string)
    requires RoomInvariant(id, room) && i < |Requests(room)|
    ensures RoomInvariant(id, Resolved(room, i, approved, responder, respondedAt, joinedAt))
    ensures MemberIds(room) <= MemberIds(Resolved(room, i, approved, responder, respondedAt, joinedAt))
    ensures approved ==> Requests(room)[i].id in MemberIds(Resolved(room, i, approved, responder, respondedAt, joinedAt))
  {
    var q := Requests(room)[i];
    assert q in Requests(room);
    var r := Resolved(room, i, approved, responder, respondedAt, joinedAt);
    if approved {
      MemberIdsAppend(room, AdmittedUser(q, joinedAt));
      assert MemberIds(r) == MemberIds(room.(users := room.users + [AdmittedUser(q, joinedAt)]));
    } else {
      assert MemberIds(r) == MemberIds(room);
    }
  }

  /** What respond-join-request sends once the request at `i` of room `roomId` is answered.
      An approved requester that is still connected (`live`) gets the room, its canvas and
      the recent chat, and joins the room's connections `channel`, which all hear that it
      joined. A rejected live requester is told so. Last, the responder gets the outcome. */
  function Notices(roomId: RoomId, room: Room, i: nat, approved: bool, responder: SocketId, respondedAt: string, joinedAt: string,
                   live: bool, channel: set<SocketId>): seq<Emit>
    requires i < |Requests(room)|
  {
    var request := Requests(room)[i];
    var shown := Marked(room, i, approved, responder, respondedAt, joinedAt);
    (if approved then
       (if live then [Emit({request.id}, JoinRequestApproved(shown, shown.users, Edit)),
                      Emit({request.id}, Drawing(CanvasOrEmpty(shown))),
                      Emit({request.id}, ChatHistory(Last(shown.chatMessages, ChatHistoryLength)))]
        else [])
       + [Emit(if live then channel + {request.id} else channel, UserJoined(AdmittedUser(request, joinedAt), shown.users))]
     else if live then [Emit({request.id}, JoinRequestRejected(RejectedMessage, roomId))]
     else [])
    + [Emit({responder}, JoinRequestResponded(request.id, approved, request.username))]
  }

  /** `users.filter(u => u.id !== sid)`. */
  function WithoutUser(users: seq<User>, sid: SocketId): (r: seq<User>)
    ensures forall u :: u in r <==> u in users && u.id != sid
    ensures |r| <= |users|
  {
    Filter(users, (u: User) => u.id != sid)
  }

  /** Removing a connection's entries removes exactly its id from the members. */
  lemma MemberIdsWithout(room: Room, sid: SocketId)
    ensures MemberIds(room.(users := WithoutUser(room.users, sid))) == MemberIds(room) - {sid}
  {
    var rest := room.(users := WithoutUser(room.users, sid));
    forall x | x in MemberIds(room) - {sid} ensures x in MemberIds(rest) {
      var u :| u in room.users && u.id == x;
      assert u in rest.users;
    }
  }

  /** disconnect leaves a room without users exactly when every entry was the leaving
      connection's own. */
  lemma WithoutUserEmptyIff(users: seq<User>, sid: SocketId)
    ensures WithoutUser(users, sid) == [] <==> forall u :: u in users ==> u.id == sid
  {
    var r := WithoutUser(users, sid);
    if r != [] {
      assert r[0] in r;
    }
  }

  /** chat-message's stamping: a missing or empty timestamp becomes `now`. */
  function Stamp(message: ChatMessage, now: string): (r: ChatMessage)
    ensures r.username == message.username && r.message == message.message
    ensures message.timestamp.Some? && message.timestamp.value != "" ==> r == message
    ensures !(message.timestamp.Some? && message.timestamp.value != "") ==> r.timestamp == Some(now)
  {
    if message.timestamp.None? || message.timestamp.value == "" then message.(timestamp := Some(now))
    else message
  }

  /** `push` followed by `slice(-100)` when the log grew past 100 entries: the new message
      is last, at most 100 entries remain, and they are the newest ones in their order. */
  function AppendChat(log: seq<ChatMessage>, message: ChatMessage): (r: seq<ChatMessage>)
    ensures |r| == if |log| < ChatLogLimit then |log| + 1 else ChatLogLimit
    ensures r[|r| - 1] == message
    ensures r == (log + [message])[|log| + 1 - |r|..]
    ensures |log| < ChatLogLimit ==> r == log + [message]
  {
    var pushed := log + [message];
    if |pushed| > ChatLogLimit then Last(pushed, ChatLogLimit) else pushed
  }

  /** Repeated chat messages: the log never exceeds 100 entries and ends with the newest. */
  function AppendAllChat(log: seq<ChatMessage>, messages: seq<ChatMessage>): seq<ChatMessage>
    decreases |messages|
  {
    if messages == [] then log else AppendAllChat(AppendChat(log, messages[0]), messages[1..])
  }

  lemma {:induction false} AppendAllChatBounded(log: seq<ChatMessage>, messages: seq<ChatMessage>)
    requires |log| <= ChatLogLimit
    ensures |AppendAllChat(log, messages)| <= ChatLogLimit
    decreases |messages|
  {
    if messages != [] {
      var next := AppendChat(log, messages[0]);
      assert AppendAllChat(log, messages) == AppendAllChat(next, messages[1..]);
      AppendAllChatBounded(next, messages[1..]);
    }
  }

  /** After repeated chat messages the log ends with the newest one. */
  lemma {:induction false} AppendAllChatEndsWithNewest(log: seq<ChatMessage>, messages: seq<ChatMessage>)
    requires messages != []
    ensures var r := AppendAllChat(log, messages); |r| > 0 && r[|r| - 1] == messages[|messages| - 1]
    decreases |messages|
  {
    var next := AppendChat(log, messages[0]);
    var rest := messages[1..];
    assert AppendAllChat(log, messages) == AppendAllChat(next, rest);
    if rest == [] {
      assert AppendAllChat(next, rest) == next;
    } else {
      AppendAllChatEndsWithNewest(next, rest);
      assert rest[|rest| - 1] == messages[|messages| - 1];
    }
  }

  /** Filtering by id does not see the entry whose fields other than the id changed. */
  lemma {:induction false} FilterRequestsIgnoresAnswer(s: seq<JoinRequest>, i: nat, answered: JoinRequest, requestId: SocketId)
    requires i < |s| && s[i].id == requestId && answered.id == requestId
    ensures WithoutRequest(s[i := answered], requestId) == WithoutRequest(s, requestId)
  {
    if i > 0 {
      FilterRequestsIgnoresAnswer(s[1..], i - 1, answered, requestId);
      assert s[i := answered][1..] == s[1..][i - 1 := answered];
    } else {
      assert s[i := answered][1..] == s[1..];
    }
  }

  /** The sum of `room.users.length` over rooms, as `/health` reports it. */
  ghost function TotalUsers(rooms: map<RoomId, Room>): nat
    decreases |rooms|
  {
    if rooms == map[] then 0
    else
      var k :| k in rooms;
      assert |rooms - {k}| < |rooms| by {
        assert (rooms - {k}).Keys == rooms.Keys - {k};
      }
      |rooms[k].users| + TotalUsers(rooms - {k})
  }

  /** The sum does not depend on which room is taken first. */
  lemma {:induction false} TotalUsersRemove(rooms: map<RoomId, Room>, k: RoomId)
    requires k in rooms
    ensures TotalUsers(rooms) == |rooms[k].users| + TotalUsers(rooms - {k})
    decreases |rooms|
  {
    var j :| j in rooms && TotalUsers(rooms) == |rooms[j].users| + TotalUsers(rooms - {j});
    if j != k {
      assert |rooms - {j}| < |rooms| by {
        assert (rooms - {j}).Keys == rooms.Keys - {j};
      }
      assert |rooms - {k}| < |rooms| by {
        assert (rooms - {k}).Keys == rooms.Keys - {k};
      }
      TotalUsersRemove(rooms - {j}, k);
      TotalUsersRemove(rooms - {k}, j);
      assert rooms - {j} - {k} == rooms - {k} - {j};
    }
  }

  class Registry {
    /** `activeRooms`. */
    var rooms: map<RoomId, Room>
    /** `activeUsers`. */
    var activeUsers: map<SocketId, ActiveUser>
    /** The open connections and their handlers' variables. */
    var sessions: map<SocketId, Session>
    /** socket.io's rooms: the connections that `socket.join(roomId)` has added to each. */
    var channels: map<RoomId, set<SocketId>>
    /** Everything emitted so far, in order. */
    var outbox: seq<Emit>

    ghost predicate Valid()
      reads this
    {
      && "" !in sessions
      && RoomsOk(rooms)
      && ChannelsLive(channels, sessions.Keys)
      && ChannelsMembers(channels, rooms)
    }

    constructor ()
      ensures Valid()
      ensures rooms == map[] && activeUsers == map[] && sessions == map[] && channels == map[] && outbox == []
    {
      rooms, activeUsers, sessions, channels, outbox := map[], map[], map[], map[], [];
    }

    /** The connections `io.to(roomId)` reaches. */
    function Channel(roomId: RoomId): set<SocketId>
      reads this
    {
      ChannelOf(channels, roomId)
    }

    /** The connection `io.to(socketId)` reaches: that one, if it is still open. */
    function Live(socketId: SocketId): set<SocketId>
      reads this
    {
      if socketId in sessions then {socketId} else {}
    }

    /** The room a connection's room-scoped handlers act on, if `currentRoomId` is truthy. */
    function CurrentRoomId(sid: SocketId): Option<RoomId>
      reads this
      requires sid in sessions
    {
      if Truthy(sessions[sid].currentRoomId) then sessions[sid].currentRoomId else None
    }

    /** `io.on('connection')`: a new connection with all three variables `null`. */
    method Connect(sid: SocketId)
      requires Valid() && sid != "" && sid !in sessions
      modifies this
      ensures Valid()
      ensures sessions == old(sessions)[sid := Session(None, None, None)]
      ensures rooms == old(rooms) && activeUsers == old(activeUsers) && channels == old(channels)
      ensures outbox == old(outbox)
    {
      sessions := sessions[sid := Session(None, None, None)];
    }

    /** `create-room`. The duplicate check consults `activeRooms` only. */
    method CreateRoom(sid: SocketId, roomId: RoomId, username: string, roomType: Option<string>,
                      random: seq<Helpers.byte>, now: string)
      requires Valid() && sid in sessions && |random| == 8
      modifies this
      ensures Valid()
      ensures roomId in old(rooms) ==>
        && rooms == old(rooms) && sessions == old(sessions)
        && activeUsers == old(activeUsers) && channels == old(channels)
        && outbox == old(outbox) + [Emit({sid}, Error(RoomExistsMessage))]
      ensures roomId !in old(rooms) ==>
        var userId := Helpers.GenerateUserId(random);
        var user := User(sid, userId, username, true, Edit, true, now);
        var room := Room(roomId, sid, roomType.GetOr("public"), [user], None, [], None);
        && rooms == old(rooms)[roomId := room]
        && sessions == old(sessions)[sid := Session(Some(roomId), Some(username), Some(userId))]
        && activeUsers == old(activeUsers)[sid := ActiveUser(user, roomId)]
        && channels == old(channels)[roomId := {sid}]
        && outbox == old(outbox) + [Emit({sid}, RoomCreated(roomId, room, [user], Edit))]
    {
      if roomId in rooms {
        outbox := outbox + [Emit({sid}, Error(RoomExistsMessage))];
        return;
      }
      var userId := Helpers.GenerateUserId(random);
      var user := User(sid, userId, username, true, Edit, true, now);
      var room := Room(roomId, sid, roomType.GetOr("public"), [user], None, [], None);
      rooms := rooms[roomId := room];
      channels := channels[roomId := {sid}];
      sessions := sessions[sid := Session(Some(roomId), Some(username), Some(userId))];
      activeUsers := activeUsers[sid := ActiveUser(user, roomId)];
      outbox := outbox + [Emit({sid}, RoomCreated(roomId, room, room.users, Edit))];
    }

    /** `join-room`. The variables are set first, before the room is even looked up. The
        creator's own connection is admitted at once; anyone else gets a pending request,
        announced to the first `isCreator` member if there is one. */
    method JoinRoom(sid: SocketId, roomId: RoomId, username: string, random: seq<Helpers.byte>, now: string)
      requires Valid() && sid in sessions && |random| == 8
      modifies this
      ensures Valid()
      ensures sessions == old(sessions)[sid := Session(Some(roomId), Some(username), Some(Helpers.GenerateUserId(random)))]
      ensures roomId !in old(rooms) ==>
        && rooms == old(rooms) && activeUsers == old(activeUsers) && channels == old(channels)
        && outbox == old(outbox) + [Emit({sid}, RoomNotFound(RoomNotFoundMessage))]
      ensures roomId in old(rooms) && sid == old(rooms)[roomId].creatorId ==>
        var room := Prepared(old(rooms)[roomId]);
        var user := User(sid, Helpers.GenerateUserId(random), username, true, Edit, true, now);
        var joined := room.(users := room.users + [user]);
        && rooms == old(rooms)[roomId := joined]
        && activeUsers == old(activeUsers)[sid := ActiveUser(user, roomId)]
        && channels == old(channels)[roomId := old(Channel(roomId)) + {sid}]
        && outbox == old(outbox) + [
             Emit({sid}, RoomJoined(joined, joined.users, Edit)),
             Emit({sid}, Drawing(CanvasOrEmpty(joined))),
             Emit({sid}, ChatHistory(Last(joined.chatMessages, ChatHistoryLength))),
             Emit(old(Channel(roomId)) - {sid}, UserJoined(user, joined.users))]
      ensures roomId in old(rooms) && sid != old(rooms)[roomId].creatorId ==>
        var room := Prepared(old(rooms)[roomId]);
        var request := JoinRequest(sid, Helpers.GenerateUserId(random), username, now, Pending, None, None);
        && rooms == old(rooms)[roomId := room.(joinRequests := Some(Requests(room) + [request]))]
        && rooms[roomId].users == old(rooms)[roomId].users
        && activeUsers == old(activeUsers) && channels == old(channels)
        && outbox == old(outbox) +
             match FindIndex(room.users, (u: User) => u.isCreator)
             case Some(i) => [Emit(old(Live(room.users[i].id)), JoinRequestSent(request, roomId)),
                              Emit({sid}, JoinRequestPending(SentToLeaderMessage, roomId))]
             case None => [Emit({sid}, JoinRequestPending(CreatorOfflineMessage, roomId))]
    {
      var userId := Helpers.GenerateUserId(random);
      sessions := sessions[sid := Session(Some(roomId), Some(username), Some(userId))];
      if roomId !in rooms {
        outbox := outbox + [Emit({sid}, RoomNotFound(RoomNotFoundMessage))];
        return;
      }
      if rooms[roomId].creatorId != "" && sid == rooms[roomId].creatorId {
        AdmitCreator(sid, roomId, username, userId, now);
      } else {
        RequestToJoin(sid, roomId, username, userId, now);
      }
    }

    /** join-room's fast path: the creator's own connection is listed, subscribed, sent the
        room, its canvas and the recent chat, and announced to the room's other connections. */
    method AdmitCreator(sid: SocketId, roomId: RoomId, username: string, userId: string, now: string)
      requires Valid() && sid in sessions && roomId in rooms && sid == rooms[roomId].creatorId
      modifies this
      ensures Valid()
      ensures sessions == old(sessions)
      ensures
        var room := Prepared(old(rooms)[roomId]);
        var user := User(sid, userId, username, true, Edit, true, now);
        var joined := room.(users := room.users + [user]);
        && rooms == old(rooms)[roomId := joined]
        && activeUsers == old(activeUsers)[sid := ActiveUser(user, roomId)]
        && channels == old(channels)[roomId := old(Channel(roomId)) + {sid}]
        && outbox == old(outbox) + [
             Emit({sid}, RoomJoined(joined, joined.users, Edit)),
             Emit({sid}, Drawing(CanvasOrEmpty(joined))),
             Emit({sid}, ChatHistory(Last(joined.chatMessages, ChatHistoryLength))),
             Emit(old(Channel(roomId)) - {sid}, UserJoined(user, joined.users))]
    {
      var room := Prepared(rooms[roomId]);
      PreparedInvariant(roomId, rooms[roomId]);
      var user := User(sid, userId, username, true, Edit, true, now);
      var joined := room.(users := room.users + [user]);
      var others := Channel(roomId) - {sid};
      MemberIdsAppend(room, user);
      UpdateRoomOk(rooms, channels, roomId, joined);
      rooms := rooms[roomId := joined];
      JoinChannelOk(channels, rooms, sessions.Keys, roomId, sid);
      activeUsers := activeUsers[sid := ActiveUser(user, roomId)];
      channels := channels[roomId := Channel(roomId) + {sid}];
      outbox := outbox + [
        Emit({sid}, RoomJoined(joined, joined.users, Edit)),
        Emit({sid}, Drawing(CanvasOrEmpty(joined))),
        Emit({sid}, ChatHistory(Last(joined.chatMessages, ChatHistoryLength))),
        Emit(others, UserJoined(user, joined.users))];
    }

    /** join-room for anyone but the creator: a pending request is appended, the first
        `isCreator` member (if any) is told, and the requester hears which case applied. */
    method RequestToJoin(sid: SocketId, roomId: RoomId, username: string, userId: string, now: string)
      requires Valid() && roomId in rooms && sid != rooms[roomId].creatorId
      modifies this
      ensures Valid()
      ensures sessions == old(sessions)
      ensures
        var room := Prepared(old(rooms)[roomId]);
        var request := JoinRequest(sid, userId, username, now, Pending, None, None);
        && rooms == old(rooms)[roomId := room.(joinRequests := Some(Requests(room) + [request]))]
        && rooms[roomId].users == old(rooms)[roomId].users
        && activeUsers == old(activeUsers) && channels == old(channels)
        && outbox == old(outbox) +
             match FindIndex(room.users, (u: User) => u.isCreator)
             case Some(i) => [Emit(old(Live(room.users[i].id)), JoinRequestSent(request, roomId)),
                              Emit({sid}, JoinRequestPending(SentToLeaderMessage, roomId))]
             case None => [Emit({sid}, JoinRequestPending(CreatorOfflineMessage, roomId))]
    {
      var room := Prepared(rooms[roomId]);
      PreparedInvariant(roomId, rooms[roomId]);
      var request := JoinRequest(sid, userId, username, now, Pending, None, None);
      var pending := room.(joinRequests := Some(Requests(room) + [request]));
      assert RoomInvariant(roomId, pending);
      UpdateRoomOk(rooms, channels, roomId, pending);
      rooms := rooms[roomId := pending];
      var creator := FindIndex(room.users, (u: User) => u.isCreator);
      if creator.Some? {
        outbox := outbox + [Emit(Live(room.users[creator.value].id), JoinRequestSent(request, roomId)),
                            Emit({sid}, JoinRequestPending(SentToLeaderMessage, roomId))];
      } else {
        outbox := outbox + [Emit({sid}, JoinRequestPending(CreatorOfflineMessage, roomId))];
      }
    }

    /** `respond-join-request`. An unknown room, a responder who is not the creator, or an
        unknown request id is answered with `error` and changes no users and no requests.
        Otherwise the request is marked, the requester is added as an editor on approval,
        and every request with that id is dropped, so a second answer finds none.
        `respondedAt` and `joinedAt` are the handler's two clock readings: the answer's
        timestamp and the admitted user's. */
    method RespondJoinRequest(sid: SocketId, requestId: SocketId, approved: bool, roomId: RoomId, respondedAt: string, joinedAt: string)
      requires Valid() && sid in sessions
      modifies this
      ensures Valid()
      ensures sessions == old(sessions)
      ensures roomId !in old(rooms) ==>
        && rooms == old(rooms) && activeUsers == old(activeUsers) && channels == old(channels)
        && outbox == old(outbox) + [Emit({sid}, Error(UnknownRoomMessage))]
      ensures roomId in old(rooms) && !IsLeader(old(rooms)[roomId], sid) ==>
        && rooms == old(rooms)[roomId := WithRequests(old(rooms)[roomId])]
        && activeUsers == old(activeUsers) && channels == old(channels)
        && outbox == old(outbox) + [Emit({sid}, Error(OnlyLeaderMessage))]
      ensures roomId in old(rooms) && IsLeader(old(rooms)[roomId], sid)
              && FindRequest(old(rooms)[roomId], requestId).None? ==>
        && rooms == old(rooms)[roomId := WithRequests(old(rooms)[roomId])]
        && activeUsers == old(activeUsers) && channels == old(channels)
        && outbox == old(outbox) + [Emit({sid}, Error(RequestNotFoundMessage))]
      ensures roomId in old(rooms) && IsLeader(old(rooms)[roomId], sid)
              && FindRequest(old(rooms)[roomId], requestId).Some? ==>
        var room := old(rooms)[roomId];
        var i := FindRequest(room, requestId).value;
        var request := Requests(room)[i];
        var live := request.id in old(sessions);
        && rooms == old(rooms)[roomId := Resolved(room, i, approved, sid, respondedAt, joinedAt)]
        && activeUsers == (if approved && live then old(activeUsers)[request.id := ActiveUser(AdmittedUser(request, joinedAt), roomId)]
                           else old(activeUsers))
        && channels == (if approved && live then old(channels)[roomId := old(Channel(roomId)) + {request.id}]
                        else old(channels))
        && outbox == old(outbox) + Notices(roomId, room, i, approved, sid, respondedAt, joinedAt, live, old(Channel(roomId)))
    {
      if roomId !in rooms {
        outbox := outbox + [Emit({sid}, Error(UnknownRoomMessage))];
        return;
      }
      var room := rooms[roomId];
      if !IsLeader(room, sid) {
        Refuse(sid, roomId, OnlyLeaderMessage);
        return;
      }
      var found := FindRequest(room, requestId);
      if found.None? {
        Refuse(sid, roomId, RequestNotFoundMessage);
        return;
      }
      Resolve(sid, roomId, found.value, approved, respondedAt, joinedAt);
    }

    /** A refused answer: the room keeps its (now present) request list and the responder
        gets the error. */
    method Refuse(sid: SocketId, roomId: RoomId, message: string)
      requires Valid() && roomId in rooms
      modifies this
      ensures Valid()
      ensures rooms == old(rooms)[roomId := WithRequests(old(rooms)[roomId])]
      ensures sessions == old(sessions) && activeUsers == old(activeUsers) && channels == old(channels)
      ensures outbox == old(outbox) + [Emit({sid}, Error(message))]
    {
      var room := WithRequests(rooms[roomId]);
      UpdateRoomOk(rooms, channels, roomId, room);
      rooms := rooms[roomId := room];
      outbox := outbox + [Emit({sid}, Error(message))];
    }

    /** The answer itself, once the room, the responder and the request are known. */
    method Resolve(sid: SocketId, roomId: RoomId, i: nat, approved: bool, respondedAt: string, joinedAt: string)
      requires Valid() && sid in sessions && roomId in rooms
      requires i < |Requests(rooms[roomId])|
      modifies this
      ensures Valid()
      ensures sessions == old(sessions)
      ensures
        var room := old(rooms)[roomId];
        var request := Requests(room)[i];
        var user := AdmittedUser(request, joinedAt);
        var live := request.id in old(sessions);
        && rooms == old(rooms)[roomId := Resolved(room, i, approved, sid, respondedAt, joinedAt)]
        && activeUsers == (if approved && live then old(activeUsers)[request.id := ActiveUser(user, roomId)]
                           else old(activeUsers))
        && channels == (if approved && live then old(channels)[roomId := old(Channel(roomId)) + {request.id}]
                        else old(channels))
        && outbox == old(outbox) + Notices(roomId, room, i, approved, sid, respondedAt, joinedAt, live, old(Channel(roomId)))
    {
      var room := rooms[roomId];
      var request := Requests(room)[i];
      var settled := Resolved(room, i, approved, sid, respondedAt, joinedAt);
      var live := request.id in sessions;
      var notices := Notices(roomId, room, i, approved, sid, respondedAt, joinedAt, live, Channel(roomId));
      ResolvedInvariant(roomId, room, i, approved, sid, respondedAt, joinedAt);
      UpdateRoomOk(rooms, channels, roomId, settled);
      rooms := rooms[roomId := settled];
      if approved && live {
        JoinChannelOk(channels, rooms, sessions.Keys, roomId, request.id);
        channels := channels[roomId := Channel(roomId) + {request.id}];
        activeUsers := activeUsers[request.id := ActiveUser(AdmittedUser(request, joinedAt), roomId)];
      }
      outbox := outbox + notices;
    }

    /** `drawing`: for a connection whose `currentRoomId` is set and names an active room,
        the payload becomes the room's canvas and goes, unchanged, to the room's other
        connections. Otherwise nothing happens. */
    method ReceiveDrawing(sid: SocketId, elements: seq<Element>)
      requires Valid() && sid in sessions
      modifies this
      ensures Valid()
      ensures sessions == old(sessions) && activeUsers == old(activeUsers) && channels == old(channels)
      ensures var cur := old(CurrentRoomId(sid));
        if cur.Some? && cur.value in old(rooms) then
          && rooms == old(rooms)[cur.value := old(rooms)[cur.value].(canvasData := Some(elements))]
          && outbox == old(outbox) + [Emit(old(Channel(cur.value)) - {sid}, Drawing(elements))]
        else rooms == old(rooms) && outbox == old(outbox)
    {
      var cur := CurrentRoomId(sid);
      if cur.None? || cur.value !in rooms {
        return;
      }
      var room := rooms[cur.value].(canvasData := Some(elements));
      UpdateRoomOk(rooms, channels, cur.value, room);
      rooms := rooms[cur.value := room];
      outbox := outbox + [Emit(Channel(cur.value) - {sid}, Drawing(elements))];
    }

    /** `clear-canvas`: the canvas becomes empty and every connection of the room, the
        sender's included if it joined, is told. */
    method ReceiveClearCanvas(sid: SocketId)
      requires Valid() && sid in sessions
      modifies this
      ensures Valid()
      ensures sessions == old(sessions) && activeUsers == old(activeUsers) && channels == old(channels)
      ensures var cur := old(CurrentRoomId(sid));
        if cur.Some? && cur.value in old(rooms) then
          && rooms == old(rooms)[cur.value := old(rooms)[cur.value].(canvasData := Some([]))]
          && outbox == old(outbox) + [Emit(old(Channel(cur.value)), ClearCanvas)]
        else rooms == old(rooms) && outbox == old(outbox)
    {
      var cur := CurrentRoomId(sid);
      if cur.None? || cur.value !in rooms {
        return;
      }
      var room := rooms[cur.value].(canvasData := Some([]));
      UpdateRoomOk(rooms, channels, cur.value, room);
      rooms := rooms[cur.value := room];
      outbox := outbox + [Emit(Channel(cur.value), ClearCanvas)];
    }

    /** `chat-message`: the message, stamped with `now` when it has no timestamp, is
        appended to the bounded log and sent to every connection of the room. */
    method ReceiveChatMessage(sid: SocketId, message: ChatMessage, now: string)
      requires Valid() && sid in sessions
      modifies this
      ensures Valid()
      ensures sessions == old(sessions) && activeUsers == old(activeUsers) && channels == old(channels)
      ensures var cur := old(CurrentRoomId(sid));
        if cur.Some? && cur.value in old(rooms) then
          var log := old(rooms)[cur.value].chatMessages;
          && rooms == old(rooms)[cur.value := old(rooms)[cur.value].(chatMessages := AppendChat(log, Stamp(message, now)))]
          && outbox == old(outbox) + [Emit(old(Channel(cur.value)), ChatMessageSent(Stamp(message, now)))]
        else rooms == old(rooms) && outbox == old(outbox)
    {
      var cur := CurrentRoomId(sid);
      if cur.None? || cur.value !in rooms {
        return;
      }
      var stamped := Stamp(message, now);
      var room := rooms[cur.value];
      room := room.(chatMessages := AppendChat(room.chatMessages, stamped));
      UpdateRoomOk(rooms, channels, cur.value, room);
      rooms := rooms[cur.value := room];
      outbox := outbox + [Emit(Channel(cur.value), ChatMessageSent(stamped))];
    }

    /** `user-typing`: relayed to the room's other connections under the connection's own
        `currentUsername`; the name in the payload is ignored and the room is not looked up. */
    method ReceiveUserTyping(sid: SocketId, payloadUsername: string, isTyping: bool)
      requires Valid() && sid in sessions
      modifies this
      ensures Valid()
      ensures rooms == old(rooms) && sessions == old(sessions)
      ensures activeUsers == old(activeUsers) && channels == old(channels)
      ensures var cur := old(CurrentRoomId(sid));
        if cur.Some? then
          outbox == old(outbox) + [Emit(old(Channel(cur.value)) - {sid}, UserTyping(old(sessions)[sid].currentUsername, isTyping))]
        else outbox == old(outbox)
    {
      var cur := CurrentRoomId(sid);
      if cur.None? {
        return;
      }
      outbox := outbox + [Emit(Channel(cur.value) - {sid}, UserTyping(sessions[sid].currentUsername, isTyping))];
    }

    /** `canvas-update`: like `drawing`, but relayed as `canvas-data`. */
    method ReceiveCanvasUpdate(sid: SocketId, canvasData: seq<Element>)
      requires Valid() && sid in sessions
      modifies this
      ensures Valid()
      ensures sessions == old(sessions) && activeUsers == old(activeUsers) && channels == old(channels)
      ensures var cur := old(CurrentRoomId(sid));
        if cur.Some? && cur.value in old(rooms) then
          && rooms == old(rooms)[cur.value := old(rooms)[cur.value].(canvasData := Some(canvasData))]
          && outbox == old(outbox) + [Emit(old(Channel(cur.value)) - {sid}, CanvasData(canvasData))]
        else rooms == old(rooms) && outbox == old(outbox)
    {
      var cur := CurrentRoomId(sid);
      if cur.None? || cur.value !in rooms {
        return;
      }
      var room := rooms[cur.value].(canvasData := Some(canvasData));
      UpdateRoomOk(rooms, channels, cur.value, room);
      rooms := rooms[cur.value := room];
      outbox := outbox + [Emit(Channel(cur.value) - {sid}, CanvasData(canvasData))];
    }

    /** `disconnect`. socket.io has already taken the connection out of every room. If its
        `currentRoomId` names an active room listing it, its entries leave `users`, the
        others are told, and the room is evicted exactly when no user is left. */
    method Disconnect(sid: SocketId)
      requires Valid() && sid in sessions
      modifies this
      ensures Valid()
      ensures sessions == old(sessions) - {sid}
      ensures channels == map r | r in old(channels) :: old(channels)[r] - {sid}
      ensures var cur := old(CurrentRoomId(sid));
        cur.None? ==> rooms == old(rooms) && activeUsers == old(activeUsers) && outbox == old(outbox)
      ensures var cur := old(CurrentRoomId(sid));
        cur.Some? ==> activeUsers == old(activeUsers) - {sid}
      ensures var cur := old(CurrentRoomId(sid));
        cur.Some? && (cur.value !in old(rooms) || sid !in MemberIds(old(rooms)[cur.value])) ==>
          rooms == old(rooms) && outbox == old(outbox)
      ensures var cur := old(CurrentRoomId(sid));
        cur.Some? && cur.value in old(rooms) && sid in MemberIds(old(rooms)[cur.value]) ==>
          var room := old(rooms)[cur.value];
          var remaining := WithoutUser(room.users, sid);
          && outbox == old(outbox) + [Emit(old(Channel(cur.value)) - {sid}, UserLeft(sid, remaining))]
          && (remaining == [] ==> rooms == old(rooms) - {cur.value})
          && (remaining != [] ==> rooms == old(rooms)[cur.value := room.(users := remaining)])
          && (cur.value in rooms <==> remaining != [])
    {
      var cur := CurrentRoomId(sid);
      var others := if cur.Some? then Channel(cur.value) - {sid} else {};
      channels := map r | r in channels :: channels[r] - {sid};
      sessions := sessions - {sid};
      if cur.None? {
        return;
      }
      var id := cur.value;
      if id in rooms && sid in MemberIds(rooms[id]) {
        LeaveRoom(sid, id, others);
      }
      activeUsers := activeUsers - {sid};
    }

    /** disconnect's room cleanup: the closed connection's entries leave `users`, `audience`
        hears who is left, and the room is evicted when nobody is. */
    method LeaveRoom(sid: SocketId, id: RoomId, audience: set<SocketId>)
      requires Valid() && sid !in sessions && id in rooms && sid in MemberIds(rooms[id])
      requires forall r :: r in channels ==> sid !in channels[r]
      modifies this
      ensures Valid()
      ensures sessions == old(sessions) && activeUsers == old(activeUsers) && channels == old(channels)
      ensures
        var room := old(rooms)[id];
        var remaining := WithoutUser(room.users, sid);
        && outbox == old(outbox) + [Emit(audience, UserLeft(sid, remaining))]
        && (remaining == [] ==> rooms == old(rooms) - {id})
        && (remaining != [] ==> rooms == old(rooms)[id := room.(users := remaining)])
        && (id in rooms <==> remaining != [])
    {
      var room := rooms[id];
      var remaining := WithoutUser(room.users, sid);
      MemberIdsWithout(room, sid);
      outbox := outbox + [Emit(audience, UserLeft(sid, remaining))];
      if remaining == [] {
        assert MemberIds(room) <= {sid};
        rooms := rooms - {id};
      } else {
        rooms := rooms[id := room.(users := remaining)];
      }
    }

    /** `GET /health`: the number of active rooms and the sum of their user counts. */
    method Health() returns (roomCount: nat, totalUsers: nat)
      ensures roomCount == |rooms|
      ensures totalUsers == TotalUsers(rooms)
    {
      roomCount := |rooms|;
      totalUsers := 0;
      var rest := rooms;
      while rest != map[]
        invariant totalUsers + TotalUsers(rest) == TotalUsers(rooms)
        decreases |rest|
      {
        var k :| k in rest;
        TotalUsersRemove(rest, k);
        assert |rest - {k}| < |rest| by {
          assert (rest - {k}).Keys == rest.Keys - {k};
        }
        totalUsers := totalUsers + |rest[k].users|;
        rest := rest - {k};
      }
    }
  }
}
