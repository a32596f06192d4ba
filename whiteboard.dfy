/** The list transitions of the Whiteboard component: undo, redo, clear, cut, and the
    updates it makes when the server sends `drawing`, `clear-canvas`, `user-typing`,
    `join-request` and `join-request-responded`. React's `setState` calls become functions
    from the old state to the new one. */
module Whiteboard {
  import opened Wire
  import opened Lists

  /** The component state these transitions read and write. `typingUsers` holds the
      usernames of the `{username}` entries. */
  datatype Board = Board(
    elements: seq<Element>,
    history: seq<Element>,
    typingUsers: seq<string>,
    joinRequests: seq<JoinRequest>)

  /** What a transition emits on the socket. */
  datatype Outgoing = SendDrawing(elements: seq<Element>) | SendClearCanvas

  /** A new state and the message sent, if any. */
  datatype Step = Step(board: Board, sent: Option<Outgoing>)

  /** `undo`: move the newest element onto the redo history and publish what is left.
      `connected` stands for `socketRef.current && isConnected`. */
  function Undo(b: Board, permission: Permission, connected: bool): (s: Step)
    ensures b.elements == [] || permission != Edit ==> s == Step(b, None)
    ensures b.elements != [] && permission == Edit ==>
      && s.board.elements + [b.elements[|b.elements| - 1]] == b.elements
      && s.board.history == b.history + [b.elements[|b.elements| - 1]]
      && s.board.typingUsers == b.typingUsers && s.board.joinRequests == b.joinRequests
      && s.sent == (if connected then Some(SendDrawing(s.board.elements)) else None)
    ensures |s.board.elements| + |s.board.history| == |b.elements| + |b.history|
  {
    if |b.elements| == 0 || permission != Edit then Step(b, None)
    else
      var last := b.elements[|b.elements| - 1];
      var newElements := b.elements[..|b.elements| - 1];
      Step(b.(history := b.history + [last], elements := newElements),
           if connected then Some(SendDrawing(newElements)) else None)
  }

  /** `redo`: move the newest history entry back to the end of the elements. */
  function Redo(b: Board, permission: Permission, connected: bool): (s: Step)
    ensures b.history == [] || permission != Edit ==> s == Step(b, None)
    ensures b.history != [] && permission == Edit ==>
      && s.board.elements == b.elements + [b.history[|b.history| - 1]]
      && s.board.history + [b.history[|b.history| - 1]] == b.history
      && s.board.typingUsers == b.typingUsers && s.board.joinRequests == b.joinRequests
      && s.sent == (if connected then Some(SendDrawing(s.board.elements)) else None)
    ensures |s.board.elements| + |s.board.history| == |b.elements| + |b.history|
  {
    if |b.history| == 0 || permission != Edit then Step(b, None)
    else
      var last := b.history[|b.history| - 1];
      var newElements := b.elements + [last];
      Step(b.(elements := newElements, history := b.history[..|b.history| - 1]),
           if connected then Some(SendDrawing(newElements)) else None)
  }

  /** An undo that took effect is cancelled by the next redo. */
  lemma RedoAfterUndo(b: Board, connected: bool)
    requires b.elements != []
    ensures Redo(Undo(b, Edit, connected).board, Edit, connected).board == b
  {
    var u := Undo(b, Edit, connected).board;
    assert u.elements + [b.elements[|b.elements| - 1]] == b.elements;
  }

  /** A redo that took effect is cancelled by the next undo. */
  lemma UndoAfterRedo(b: Board, connected: bool)
    requires b.history != []
    ensures Undo(Redo(b, Edit, connected).board, Edit, connected).board == b
  {
    var r := Redo(b, Edit, connected).board;
    assert r.history + [b.history[|b.history| - 1]] == b.history;
  }

  function Reversed<T>(s: seq<T>): (r: seq<T>)
    ensures |r| == |s|
  {
    if s == [] then [] else Reversed(s[1..]) + [s[0]]
  }

  lemma {:induction false} ReversedSnoc<T>(s: seq<T>, x: T)
    ensures Reversed(s + [x]) == [x] + Reversed(s)
  {
    if s == [] {
      assert s + [x] == [x];
    } else {
      assert (s + [x])[1..] == s[1..] + [x];
      ReversedSnoc(s[1..], x);
    }
  }

  /** The drawing an editor could reach by redoing everything: undo and redo only move
      the boundary between what is shown and what is kept for redo. */
  function Timeline(b: Board): seq<Element> {
    b.elements + Reversed(b.history)
  }

  lemma UndoKeepsTimeline(b: Board, permission: Permission, connected: bool)
    ensures Timeline(Undo(b, permission, connected).board) == Timeline(b)
  {
    if b.elements != [] && permission == Edit {
      var n := |b.elements|;
      var last := b.elements[n - 1];
      ReversedSnoc(b.history, last);
      assert b.elements[..n - 1] + ([last] + Reversed(b.history)) == b.elements + Reversed(b.history) by {
        assert b.elements[..n - 1] + [last] == b.elements;
      }
    }
  }

  lemma RedoKeepsTimeline(b: Board, permission: Permission, connected: bool)
    ensures Timeline(Redo(b, permission, connected).board) == Timeline(b)
  {
    if b.history != [] && permission == Edit {
      var n := |b.history|;
      var last := b.history[n - 1];
      ReversedSnoc(b.history[..n - 1], last);
      assert b.history[..n - 1] + [last] == b.history;
      assert (b.elements + [last]) + Reversed(b.history[..n - 1]) == b.elements + ([last] + Reversed(b.history[..n - 1]));
    }
  }

  /** `clearCanvas`: an editor empties the drawing and the redo history. */
  function ClearCanvas(b: Board, permission: Permission, connected: bool): (s: Step)
    ensures permission != Edit ==> s == Step(b, None)
    ensures permission == Edit ==>
      && s.board == b.(elements := [], history := [])
      && s.sent == (if connected then Some(SendClearCanvas) else None)
  {
    if permission != Edit then Step(b, None)
    else Step(b.(elements := [], history := []), if connected then Some(SendClearCanvas) else None)
  }

  /** The `clear-canvas` event from the server: every client ends with nothing to show
      and nothing to redo, whatever its permission. */
  function OnClearCanvas(b: Board): (r: Board)
    ensures r.elements == [] && r.history == []
    ensures r.typingUsers == b.typingUsers && r.joinRequests == b.joinRequests
  {
    b.(elements := [], history := [])
  }

  /** The `drawing` event from the server: the received snapshot replaces the elements. */
  function OnDrawing(b: Board, data: seq<Element>): (r: Board)
    ensures r.elements == data
    ensures r.history == b.history && r.typingUsers == b.typingUsers && r.joinRequests == b.joinRequests
  {
    b.(elements := data)
  }

  /** The ids of the selected elements. */
  function SelectedIds(selected: seq<Element>): set<ElementId> {
    set e | e in selected :: e.id
  }

  /** The filter of the ctrl/cmd-x handler: drop every element sharing an id with a selected one. */
  function CutElements(elements: seq<Element>, selected: seq<Element>): (r: seq<Element>)
    ensures forall e :: e in r <==> e in elements && e.id !in SelectedIds(selected)
  {
    Filter(elements, (e: Element) => !exists s :: s in selected && s.id == e.id)
  }

  /** Cut keeps the unselected elements in their order: it commutes with splitting the drawing. */
  lemma CutElementsConcat(a: seq<Element>, b: seq<Element>, selected: seq<Element>)
    ensures CutElements(a + b, selected) == CutElements(a, selected) + CutElements(b, selected)
  {
    FilterConcat(a, b, (e: Element) => !exists s :: s in selected && s.id == e.id);
  }

  /** Cutting with nothing selected that is on the drawing changes nothing. */
  lemma CutUnselectedIsIdentity(elements: seq<Element>, selected: seq<Element>)
    requires forall i :: 0 <= i < |elements| ==> elements[i].id !in SelectedIds(selected)
    ensures CutElements(elements, selected) == elements
  {
    var keep := (e: Element) => !exists s :: s in selected && s.id == e.id;
    forall i | 0 <= i < |elements| ensures keep(elements[i]) {
      assert elements[i].id !in SelectedIds(selected);
    }
    FilterKeepsAll(elements, keep);
  }

  /** ctrl/cmd-x with a non-empty selection, for a non-viewer: the cut drawing is kept
      and published; `connected` stands for `socketRef.current && roomId`. */
  function Cut(b: Board, selected: seq<Element>, permission: Permission, connected: bool): (s: Step)
    ensures permission == View || selected == [] ==> s == Step(b, None)
    ensures permission != View && selected != [] ==>
      && s.board == b.(elements := CutElements(b.elements, selected))
      && s.sent == (if connected then Some(SendDrawing(CutElements(b.elements, selected))) else None)
  {
    if permission == View || selected == [] then Step(b, None)
    else
      var kept := CutElements(b.elements, selected);
      Step(b.(elements := kept), if connected then Some(SendDrawing(kept)) else None)
  }

  /** The `user-typing` event: add the name when it starts typing and is not listed yet,
      remove every entry with that name when it stops. */
  function OnUserTyping(b: Board, username: string, isTyping: bool): (r: Board)
    ensures isTyping ==> username in r.typingUsers
    ensures isTyping && username in b.typingUsers ==> r.typingUsers == b.typingUsers
    ensures isTyping && username !in b.typingUsers ==> r.typingUsers == b.typingUsers + [username]
    ensures !isTyping ==> forall u :: u in r.typingUsers <==> u in b.typingUsers && u != username
    ensures r.elements == b.elements && r.history == b.history && r.joinRequests == b.joinRequests
  {
    if isTyping then
      match FindIndex(b.typingUsers, (u: string) => u == username)
      case Some(_) => b
      case None => b.(typingUsers := b.typingUsers + [username])
    else
      b.(typingUsers := Filter(b.typingUsers, (u: string) => u != username))
  }

  /** A typing notification never puts a name in the list twice. */
  lemma OnUserTypingNoDuplicates(b: Board, username: string, isTyping: bool)
    requires NoDuplicates(b.typingUsers)
    ensures NoDuplicates(OnUserTyping(b, username, isTyping).typingUsers)
  {
    if !isTyping {
      FilterNoDuplicates(b.typingUsers, (u: string) => u != username);
    }
  }

  /** Starting from an empty list, any run of typing notifications keeps it duplicate-free. */
  function ApplyTyping(b: Board, events: seq<(string, bool)>): Board
    decreases |events|
  {
    if events == [] then b else ApplyTyping(OnUserTyping(b, events[0].0, events[0].1), events[1..])
  }

  lemma {:induction false} ApplyTypingNoDuplicates(b: Board, events: seq<(string, bool)>)
    requires NoDuplicates(b.typingUsers)
    ensures NoDuplicates(ApplyTyping(b, events).typingUsers)
    decreases |events|
  {
    if events != [] {
      OnUserTypingNoDuplicates(b, events[0].0, events[0].1);
      ApplyTypingNoDuplicates(OnUserTyping(b, events[0].0, events[0].1), events[1..]);
    }
  }

  /** The `join-request` event: the request joins the end of the list. */
  function OnJoinRequest(b: Board, request: JoinRequest): (r: Board)
    ensures |r.joinRequests| == |b.joinRequests| + 1 && r.joinRequests[|b.joinRequests|] == request
    ensures r.joinRequests[..|b.joinRequests|] == b.joinRequests
    ensures r.elements == b.elements && r.history == b.history && r.typingUsers == b.typingUsers
  {
    b.(joinRequests := b.joinRequests + [request])
  }

  /** The `join-request-responded` event: every request with that id is dropped. */
  function OnJoinRequestResponded(b: Board, requestId: SocketId): (r: Board)
    ensures forall q :: q in r.joinRequests <==> q in b.joinRequests && q.id != requestId
    ensures r.elements == b.elements && r.history == b.history && r.typingUsers == b.typingUsers
  {
    b.(joinRequests := Filter(b.joinRequests, (q: JoinRequest) => q.id != requestId))
  }

  /** Answering an id that no listed request has leaves the list as it was. */
  lemma RespondedToAbsentIdIsIdentity(b: Board, requestId: SocketId)
    requires forall i :: 0 <= i < |b.joinRequests| ==> b.joinRequests[i].id != requestId
    ensures OnJoinRequestResponded(b, requestId) == b
  {
    FilterKeepsAll(b.joinRequests, (q: JoinRequest) => q.id != requestId);
  }

  /** The requests that survive an answer keep their order: dropping them commutes with
      splitting the list. */
  lemma RespondedKeepsOthersInOrder(a: seq<JoinRequest>, c: seq<JoinRequest>, t: seq<string>, requestId: SocketId)
    ensures OnJoinRequestResponded(Board([], [], t, a + c), requestId).joinRequests
         == OnJoinRequestResponded(Board([], [], t, a), requestId).joinRequests
          + OnJoinRequestResponded(Board([], [], t, c), requestId).joinRequests
  {
    FilterConcat(a, c, (q: JoinRequest) => q.id != requestId);
  }

  /** A request that is added and then answered leaves the earlier list as it was. */
  lemma RequestThenResponse(b: Board, request: JoinRequest)
    requires forall i :: 0 <= i < |b.joinRequests| ==> b.joinRequests[i].id != request.id
    ensures OnJoinRequestResponded(OnJoinRequest(b, request), request.id) == b
  {
    var keep := (q: JoinRequest) => q.id != request.id;
    FilterConcat(b.joinRequests, [request], keep);
    FilterKeepsAll(b.joinRequests, keep);
    assert Filter([request], keep) == [];
  }
}
