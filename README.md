# Collaborative whiteboard: room engine, id helpers and client list transitions

This project models three parts of a real-time collaborative whiteboard in Dafny.

- **The server's room/session engine** (`server/server.js`, module `Server`). The
  `activeRooms` and `activeUsers` maps, socket.io's rooms, and each connection's three
  handler variables (`currentRoomId`, `currentUsername`, `currentUserId`) are fields of a
  `Registry` class. There is one method per socket event: create-room, join-room,
  respond-join-request, drawing, clear-canvas, chat-message, user-typing, canvas-update
  and disconnect. The `/health` aggregate is a method too. Every `emit` is appended to
  an `outbox` log as the set of connections that receive it plus the event and its
  payload. Each handler runs as one atomic step and keeps the registry invariant
  `Valid()`. The invariant says:
  - every active room has at least one user and at most 100 chat entries;
  - `isCreator` marks exactly the entries whose id is the room's `creatorId`;
  - every stored join request is pending, unanswered, and not from the creator;
  - only open connections that are listed users of an active room are in its socket.io
    room.
- **The id helpers** (`server/utils/helpers.js`, module `Helpers`). These are
  `validateRoomId`, `generateRoomId` and `generateUserId`. The random bytes are a
  parameter. Hex encoding is defined by digit arithmetic and compared with the RFC 4648
  section 8 alphabet.
- **The Whiteboard component's list transitions**
  (`client/src/components/Whiteboard.jsx`, module `Whiteboard`). These are undo, redo,
  clear, cut, and the `drawing`, `clear-canvas`, `user-typing`, `join-request` and
  `join-request-responded` updates. Each is a function from a state record to the new
  record, plus the message it sends, if any.

Module `Wire` holds the records both sides exchange. Module `Lists` holds
`Array.prototype.filter`, `find`/`findIndex` and `slice(-n)` with their contracts.

The server is modelled in its in-memory mode (`useDatabase` false). Several behaviours
follow the code as written:

- join-room sets `currentRoomId` before the room is looked up. It stays set on
  room-not-found and while a join request is pending.
- drawing, clear-canvas, chat-message and canvas-update check only that `currentRoomId`
  is set and names an active room. So a connection whose request is still pending, or
  was rejected, can still change the room's canvas and chat.
- Consequently, admission gates only what a connection *receives*, and only per room.
  `Valid()` proves that a connection not listed in `users` of room `r` is not in `r`'s
  socket.io room, so it receives none of `r`'s broadcasts. It does not promise that a
  connection with a pending request receives nothing: a listed member that sends
  join-room again, or a creator asking to join another room, keeps its subscriptions.
  The model follows the code: nothing checks admission or permission before a
  connection changes the canvas or chat.
- user-typing does not look the room up. It relays the server's `currentUsername` and
  ignores the name in the payload.
- On approval the server sets properties on the requester's socket object that no
  handler reads. The requester's own handler variables are left as join-room set them,
  and the model leaves them unchanged too.
- An approved requester whose connection has already closed is still added to `users`,
  and is then never removed.
- A connection that sends join-room for its own room again is listed once more, under
  the same id.
- disconnect removes the connection's entries only from its `currentRoomId` room.

## Model

| member | source | states |
|---|---|---|
| Lists.Filter | server/server.js:367 | `filter` keeps exactly the elements satisfying the predicate and never grows the list |
| Lists.FindIndex | server/server.js:292 | `find` returns the first match; it returns none exactly when no element matches |
| Lists.Last | server/server.js:434 | `slice(-n)` is the suffix of length `min(n, length)` |
| Helpers.ToHex | server/utils/helpers.js:12 | `toString('hex')` gives two lowercase hex digits per byte |
| Helpers.Base16 | server/utils/helpers.js:3-5 | uppercase base16 of section 8 of RFC 4648 is two alphabet characters per byte |
| Helpers.UpperHexIsBase16 | server/utils/helpers.js:4 | upper-casing the lowercase hex encoding gives exactly the RFC 4648 base16 encoding |
| Helpers.MatchesRoomIdPatternIff | server/utils/helpers.js:8 | the anchored pattern `[A-Z0-9]{n}` matches exactly the strings of length n over that class |
| Helpers.ValidateRoomId | server/utils/helpers.js:7-9 | a room id is valid iff it has 6 characters, each an uppercase letter or a digit |
| Helpers.LowercaseRoomIdRejected | server/utils/helpers.js:7-9 | a room id containing a lowercase letter is rejected |
| Helpers.GenerateRoomId | server/utils/helpers.js:3-5 | 3 bytes give their uppercase base16 encoding, 6 characters long and accepted by the validator |
| Helpers.Base16InRoomIdClass | server/utils/helpers.js:3-9 | every base16 character is in the `[A-Z0-9]` class |
| Helpers.GenerateUserId | server/utils/helpers.js:11-13 | 8 bytes give 16 lowercase hex characters |
| Helpers.FromHexToHex | server/utils/helpers.js:11-13 | decoding the hex encoding gives back the bytes |
| Helpers.GenerateUserIdInjective | server/utils/helpers.js:11-13 | distinct 8-byte inputs give distinct user ids |
| Whiteboard.Undo | client/src/components/Whiteboard.jsx:361-372 | no change without elements or edit permission; otherwise the last element moves to the history, the rest is sent when connected, and the total count is kept |
| Whiteboard.Redo | client/src/components/Whiteboard.jsx:374-385 | no change without history or edit permission; otherwise the last history entry returns to the end of the elements and is sent when connected |
| Whiteboard.RedoAfterUndo | client/src/components/Whiteboard.jsx:361-385 | an effective undo followed by redo restores both lists exactly |
| Whiteboard.UndoAfterRedo | client/src/components/Whiteboard.jsx:361-385 | an effective redo followed by undo restores both lists exactly |
| Whiteboard.UndoKeepsTimeline | client/src/components/Whiteboard.jsx:361-372 | undo keeps the sequence "elements, then history newest first" unchanged |
| Whiteboard.RedoKeepsTimeline | client/src/components/Whiteboard.jsx:374-385 | redo keeps the same sequence unchanged |
| Whiteboard.ClearCanvas | client/src/components/Whiteboard.jsx:351-359 | an editor empties elements and history and sends clear-canvas when connected; anyone else changes nothing |
| Whiteboard.OnClearCanvas | client/src/components/Whiteboard.jsx:228-232 | the received clear-canvas empties elements and history, whatever the permission |
| Whiteboard.OnDrawing | client/src/components/Whiteboard.jsx:223-226 | a received drawing replaces the elements and nothing else |
| Whiteboard.CutElements | client/src/components/Whiteboard.jsx:77 | an element survives a cut iff its id is not the id of a selected element |
| Whiteboard.CutElementsConcat | client/src/components/Whiteboard.jsx:77 | the cut keeps the survivors in their order: it distributes over concatenation |
| Whiteboard.CutUnselectedIsIdentity | client/src/components/Whiteboard.jsx:77 | a selection sharing no id with the drawing leaves it unchanged |
| Whiteboard.Cut | client/src/components/Whiteboard.jsx:52-82 | a viewer or an empty selection changes nothing; otherwise the cut drawing is kept and sent when a room is set |
| Whiteboard.OnUserTyping | client/src/components/Whiteboard.jsx:240-251 | starting to type adds the name once, only if absent; stopping removes every entry with that name |
| Whiteboard.OnUserTypingNoDuplicates | client/src/components/Whiteboard.jsx:240-251 | a typing event keeps the typing list free of duplicates |
| Whiteboard.ApplyTypingNoDuplicates | client/src/components/Whiteboard.jsx:240-251 | any run of typing events keeps the typing list free of duplicates |
| Whiteboard.OnJoinRequest | client/src/components/Whiteboard.jsx:254-256 | a received join request is appended after the existing ones |
| Whiteboard.OnJoinRequestResponded | client/src/components/Whiteboard.jsx:294-298 | a request survives iff its id differs from the answered one |
| Whiteboard.RespondedToAbsentIdIsIdentity | client/src/components/Whiteboard.jsx:297 | answering an id no request has leaves the list exactly as it was |
| Whiteboard.RespondedKeepsOthersInOrder | client/src/components/Whiteboard.jsx:297 | the surviving requests keep their order: dropping the answered id distributes over concatenation |
| Whiteboard.RequestThenResponse | client/src/components/Whiteboard.jsx:254-298 | a new request followed by its answer restores the earlier list |
| Server.Prepared | server/server.js:180-189 | join-room fills a missing request list and a null canvas with empty arrays and keeps everything else |
| Server.PreparedInvariant | server/server.js:180-189 | that repair keeps the room invariant and the members |
| Server.WithRequests | server/server.js:286-289 | respond-join-request fills a missing request list and keeps users, canvas and chat |
| Server.IsLeader | server/server.js:291-296 | a responder passes only if it is listed as a creator; a listed connection whose entries are all creator entries passes |
| Server.FindRequest | server/server.js:298-302 | the lookup returns a request with that id, or none exactly when no request has it |
| Server.Marked | server/server.js:304-322 | the answer is recorded on that request with its own timestamp `respondedAt`; approval appends the requester as a non-creator editor joined at `joinedAt`, rejection keeps the users |
| Server.WithoutRequest | server/server.js:367 | a request survives iff its id differs from the answered one |
| Server.Resolved | server/server.js:304-367 | after an answer no request with that id remains, so a second answer finds none; the other requests stay |
| Server.ResolvedInvariant | server/server.js:304-367 | an answer keeps the room invariant, keeps every member, and on approval adds the requester |
| Server.WithoutUser | server/server.js:509 | the users left are exactly those whose id is not the leaving connection's |
| Server.MemberIdsWithout | server/server.js:507-509 | removing the connection's entries removes exactly its id from the member ids |
| Server.WithoutUserEmptyIff | server/server.js:519-522 | no user is left exactly when every entry belonged to the leaving connection |
| Server.Stamp | server/server.js:424-427 | a message without a timestamp, or with an empty one, gets the current time; any other message is unchanged |
| Server.AppendChat | server/server.js:429-435 | the new message is last; at most 100 entries stay; they are the newest ones in order, and nothing is dropped below the limit |
| Server.AppendAllChatBounded | server/server.js:429-435 | any run of chat messages keeps the log at most 100 entries long |
| Server.AppendAllChatEndsWithNewest | server/server.js:429-435 | after any non-empty run of chat messages the log ends with the newest one |
| Server.Registry.constructor | server/server.js:38-39 | the server starts with no rooms, users or connections, satisfying the invariant |
| Server.Registry.Connect | server/server.js:61-65 | a new connection starts with all three variables null and nothing else changes |
| Server.Registry.CreateRoom | server/server.js:68-140 | an existing id gets "Room already exists" and nothing else changes; otherwise the room has exactly one creator editor, the session is bound, and room-created carries that user list |
| Server.Registry.JoinRoom | server/server.js:143-275 | the variables are always set; an unknown room gets room-not-found and no other change; the creator is admitted with four replies; anyone else gets one pending request, `users` is unchanged, and the leader is told only if present |
| Server.Registry.AdmitCreator | server/server.js:193-229 | the creator's connection is appended as a creator editor, subscribed, sent room-joined, the canvas and the last 50 chat entries, and announced to the room's other connections |
| Server.Registry.RequestToJoin | server/server.js:231-269 | one pending request from the connection is appended and `users` is unchanged; the first creator entry, if any and still connected, is told, and the requester hears "sent" or "creator offline" |
| Server.Registry.RespondJoinRequest | server/server.js:278-380 | an unknown room, a responder who is not the leader, or an unknown id gives an error and changes no users and no requests; otherwise as `Resolve` |
| Server.Registry.Refuse | server/server.js:286-302 | a refused answer keeps the room apart from the repaired request list and sends only the error to the responder |
| Server.Registry.Resolve | server/server.js:304-375 | the request is answered and removed; approval adds the requester, subscribes it if still connected and announces it to the room; rejection notifies only the requester; the leader is told |
| Server.Registry.ReceiveDrawing | server/server.js:383-391 | with a room set and active, the canvas becomes the payload and it goes to the others; otherwise nothing changes |
| Server.Registry.ReceiveClearCanvas | server/server.js:394-416 | with a room set and active, the canvas becomes empty and the whole room is told; otherwise nothing changes |
| Server.Registry.ReceiveChatMessage | server/server.js:419-457 | with a room set and active, the stamped message is appended to the bounded log and goes to the whole room; otherwise nothing changes |
| Server.Registry.ReceiveUserTyping | server/server.js:460-470 | with a room set, the server-side username and the flag go to the others; no state changes |
| Server.Registry.ReceiveCanvasUpdate | server/server.js:473-498 | with a room set and active, the canvas becomes the payload and canvas-data goes to the others; otherwise nothing changes |
| Server.Registry.Disconnect | server/server.js:501-527 | the connection leaves every socket.io room; only its own user entries leave its room, the others are told, and the room is evicted iff no user is left |
| Server.Registry.LeaveRoom | server/server.js:507-524 | the closed connection's entries leave `users`, the others hear who is left, and the room is evicted iff no user is left |
| Server.Registry.Health | server/server.js:536-544 | reports the number of active rooms and the sum of their user counts |

## Left out

- MongoDB persistence is left out: `connectToMongoDB`, the `Room` model and every database
  read or write. `useDatabase` is fixed to false. So the rehydration branch of join-room
  (server/server.js:153-169) is not modelled, nor is its stale `creatorId`, which stops
  the creator fast path from firing for a restored room.
- socket.io and Express setup, CORS and `server.listen` are left out. `socket.join` is
  an update of the `channels` field. Every emit is an entry of the `outbox`. Event
  delivery order across connections and the `room` object being shared by reference
  are not modelled: a payload is the value at the time of the emit.
- The `catch` branches ("Failed to create room", "Failed to process join request",
  "Failed to respond to join request") are left out. Without a database every handler
  body is plain map and list work, and none of it throws for well-formed payloads.
- Malformed payloads are left out: a missing `canvasData`, a `message` that is not an
  object, a missing `data`. Payloads are typed records.
- `GET /api/rooms/:roomId` is left out. Its answer is mostly clock and database fields.
  Its id check is `Helpers.ValidateRoomId`.
- The `socket.on('error')` handler and all logging are left out; they only print.
- No `leave-room` handler exists on the server, although the client sends that event.
  The model has none either.
- server/socket/index.js (an unused, database-only handler set), server/config/db.js and
  server/models/*.js are not part of this model.
- Randomness and the clock are parameters: 8 random bytes for a user id, a `now` string
  for `new Date().toISOString()` and `toLocaleTimeString()`. Each clock reading a handler
  makes is its own parameter. respond-join-request reads the clock twice, so
  `RespondJoinRequest` takes two values, `respondedAt` and `joinedAt`; every other
  handler reads it at most once. `Date.now() + Math.random()`
  element ids are opaque `real` values, and element geometry is an opaque `shape`
  string.
- client/src/components/Canvas.jsx is not part of this model: rendering, hit-testing and
  geometry are floating point and canvas API calls. The other Whiteboard.jsx parts are
  UI: socket wiring, copy/paste, clipboard, selection state, notifications, download and
  JSX. LandingPage.jsx, JoinRoom.jsx and App.jsx are navigation and forms.
  LandingPage's room-code check is the same pattern as `Helpers.ValidateRoomId`.
- Concurrency is not modelled. Node runs each handler to completion between `await`s,
  and with the database off no handler awaits, so each event is one atomic step.
- Helpers.ToUpperCase: `toUpperCase` is modelled for ASCII letters only, which is all that
  hex output contains.
