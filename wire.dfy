/** Records that travel between the whiteboard client and the room server. */
module Wire {

  datatype Option<+T> = None | Some(value: T) {
    /** The value, or `default` when absent (JavaScript's `x || default` on objects). */
    function GetOr(default: T): T {
      match this
      case Some(v) => v
      case None => default
    }
  }

  /** A socket.io connection id. */
  type SocketId = string

  /** A room code as sent by clients; the server does not validate it on the socket path. */
  type RoomId = string

  /** Element ids are JavaScript numbers (`Date.now()`, or `Date.now() + Math.random()`);
      they are only ever compared with `===`. */
  type ElementId = real

  /** One drawing element. The room engine never looks inside it; the client only looks at
      its id, so everything else (type, points, colour, ...) is one opaque field. */
  datatype Element = Element(id: ElementId, shape: string)

  datatype Permission = Edit | View

  datatype RequestStatus = Pending | Approved | Rejected

  /** A join request as the server stores it in `room.joinRequests` and sends it
      in the `join-request` event. */
  datatype JoinRequest = JoinRequest(
    id: SocketId,
    userId: string,
    username: string,
    requestedAt: string,
    status: RequestStatus,
    respondedBy: Option<SocketId>,
    respondedAt: Option<string>)

  /** A chat message `{username, message, timestamp}`; the timestamp may be missing. */
  datatype ChatMessage = ChatMessage(username: string, message: string, timestamp: Option<string>)
}
