/** The server's socket event handler as one pure step function. The three
    pieces of global state are an explicit record; every event yields the
    next record and the list of messages the server emits, in emission
    order, each addressed to an abstract set of recipients. */
module Signaling {
  import opened Wrappers
  import ChatLog

  /** A socket.io connection id, compared only for equality. Real ids are
      non-empty strings, so the server's truthiness test on the broadcaster
      slot is the same as asking whether the slot holds an id. */
  type Id(==)

  /** The payload of an `offer`, `answer` or `candidate` message; the server
      forwards it without looking inside. */
  type Body

  datatype SignalKind = Offer | Answer | Candidate

  /** `viewers`, `broadcasterSocketId` and `chatHistory`. */
  datatype State = State(viewers: nat, broadcaster: Option<Id>, history: seq<ChatLog.Entry>)

  /** One incoming event. Every event but `Connect` and `Disconnect` is a
      message from the connection `sender`. */
  datatype Event =
    | Connect(id: Id)
    | ChatSend(sender: Id, payload: Option<ChatLog.Payload>, stamp: ChatLog.Stamp)
    | Announce(sender: Id)
    | Watch(sender: Id)
    | Relay(sender: Id, kind: SignalKind, target: Id, body: Body)
    | Disconnect(id: Id)

  /** Who an emission is addressed to: `io.emit` (every connection),
      `socket.broadcast.emit` (every connection but one), `io.to(room)`
      and `socket.emit` (the connection with that id, if it is connected). */
  datatype Recipients = All | AllExcept(except: Id) | To(room: Id)

  /** The messages the server emits, named after their socket.io events. */
  datatype Message =
    | Viewers(count: nat)                                // "viewers"
    | ChatHistory(entries: seq<ChatLog.Entry>)           // "chat:history"
    | ChatMsg(entry: ChatLog.Entry)                      // "chat:msg"
    | BroadcasterOnline                                  // "broadcaster"
    | WatchRequest(watcher: Id)                          // "watcher"
    | Signal(kind: SignalKind, from: Id, body: Body)      // "offer" / "answer" / "candidate"
    | BroadcasterLeft                                    // "broadcaster-left"
    | DisconnectPeer(peer: Id)                           // "disconnectPeer"

  datatype Send = Send(to: Recipients, msg: Message)

  datatype Reaction = Reaction(next: State, out: seq<Send>)

  /** The server's state at start-up, given the log read from disk. */
  function Initial(loaded: seq<ChatLog.Entry>): (s: State)
    ensures s.viewers == 0 && s.broadcaster == None && s.history == loaded
  {
    State(0, None, loaded)
  }

  /** A new connection: the counter goes up by one and the new count goes
      to everybody, then the newcomer alone gets the history as it stood
      before the event. */
  function OnConnect(s: State, id: Id): (r: Reaction)
    ensures r.next.viewers == s.viewers + 1
    ensures r.next.broadcaster == s.broadcaster && r.next.history == s.history
    ensures r.out == [Send(All, Viewers(r.next.viewers)), Send(To(id), ChatHistory(s.history))]
  {
    var n := s.viewers + 1;
    Reaction(s.(viewers := n), [Send(All, Viewers(n)), Send(To(id), ChatHistory(s.history))])
  }

  /** `chat:send`: a rejected submission changes nothing and emits nothing;
      an accepted one is appended to the log and emitted once to everybody. */
  function OnChatSend(s: State, payload: Option<ChatLog.Payload>, stamp: ChatLog.Stamp): (r: Reaction)
    ensures r.next.viewers == s.viewers && r.next.broadcaster == s.broadcaster
    ensures !ChatLog.Acceptable(payload) ==> r.next == s && r.out == []
    ensures ChatLog.Acceptable(payload) ==>
      var e := ChatLog.Accept(payload, stamp).value;
      && r.next.history == ChatLog.Append(s.history, e)
      && r.out == [Send(All, ChatMsg(e))]
  {
    match ChatLog.Accept(payload, stamp)
    case None => Reaction(s, [])
    case Some(e) => Reaction(s.(history := ChatLog.Append(s.history, e)), [Send(All, ChatMsg(e))])
  }

  /** `broadcaster`: the sender takes the slot whoever held it (the previous
      holder is not told) and every other connection hears that a
      broadcaster is online. Counter and log are untouched. */
  function OnAnnounce(s: State, sender: Id): (r: Reaction)
    ensures r.next.broadcaster == Some(sender)
    ensures r.next.viewers == s.viewers && r.next.history == s.history
    ensures r.out == [Send(AllExcept(sender), BroadcasterOnline)]
  {
    Reaction(s.(broadcaster := Some(sender)), [Send(AllExcept(sender), BroadcasterOnline)])
  }

  /** `watcher`: with no broadcaster, nothing happens; otherwise exactly
      one request carrying the sender's id goes to the broadcaster. */
  function OnWatch(s: State, sender: Id): (r: Reaction)
    ensures r.next == s
    ensures s.broadcaster.None? ==> r.out == []
    ensures s.broadcaster.Some? ==> r.out == [Send(To(s.broadcaster.value), WatchRequest(sender))]
  {
    match s.broadcaster
    case None => Reaction(s, [])
    case Some(b) => Reaction(s, [Send(To(b), WatchRequest(sender))])
  }

  /** `offer` / `answer` / `candidate`: exactly one message of the same kind
      to the target, its `from` the sender's own id (whatever the body
      says) and its body unchanged. No state changes. */
  function OnRelay(s: State, sender: Id, kind: SignalKind, target: Id, body: Body): (r: Reaction)
    ensures r.next == s
    ensures |r.out| == 1
    ensures r.out[0].to == To(target)
    ensures r.out[0].msg.Signal? && r.out[0].msg.kind == kind
    ensures r.out[0].msg.from == sender && r.out[0].msg.body == body
  {
    Reaction(s, [Send(To(target), Signal(kind, sender, body))])
  }

  /** `disconnect`. If the leaver holds the slot, the slot empties and all
      others hear `broadcaster-left`. Otherwise the slot stays and, if it is
      held, its holder alone hears which peer left. Either way the counter
      drops by one, never below zero, and the new count goes to everybody,
      last. */
  function OnDisconnect(s: State, id: Id): (r: Reaction)
    ensures r.next.viewers == if s.viewers == 0 then 0 else s.viewers - 1
    ensures r.next.history == s.history
    ensures s.broadcaster == Some(id) ==>
      && r.next.broadcaster == None
      && r.out == [Send(AllExcept(id), BroadcasterLeft), Send(All, Viewers(r.next.viewers))]
    ensures s.broadcaster != Some(id) ==> r.next.broadcaster == s.broadcaster
    ensures s.broadcaster.Some? && s.broadcaster != Some(id) ==>
      r.out == [Send(To(s.broadcaster.value), DisconnectPeer(id)), Send(All, Viewers(r.next.viewers))]
    ensures s.broadcaster.None? ==> r.out == [Send(All, Viewers(r.next.viewers))]
  {
    var leaving := s.broadcaster == Some(id);
    var notice :=
      if leaving then [Send(AllExcept(id), BroadcasterLeft)]
      else if s.broadcaster.Some? then [Send(To(s.broadcaster.value), DisconnectPeer(id))]
      else [];
    var n := Max(0, s.viewers - 1);
    var slot := if leaving then None else s.broadcaster;
    Reaction(State(n, slot, s.history), notice + [Send(All, Viewers(n))])
  }

  /** `Math.max`, on integers. */
  function Max(a: int, b: int): (m: int)
    ensures m >= a && m >= b && (m == a || m == b)
  {
    if a >= b then a else b
  }

  /** The count updates in an outbox, in order. */
  function CountUpdates(out: seq<Send>): (r: seq<Send>)
    ensures |r| <= |out|
    ensures forall k :: 0 <= k < |r| ==> r[k].msg.Viewers? && r[k] in out
    decreases |out|
  {
    if out == [] then []
    else (if out[0].msg.Viewers? then [out[0]] else []) + CountUpdates(out[1..])
  }

  /** The whole handler: dispatch one event. Each piece of state is changed
      only by the events that own it, and the count goes out, once and to
      everybody, exactly on a connect or a disconnect. */
  function Step(s: State, e: Event): (r: Reaction)
    ensures r.next.viewers != s.viewers ==> e.Connect? || e.Disconnect?
    ensures r.next.broadcaster != s.broadcaster ==> e.Announce? || e.Disconnect?
    ensures r.next.history != s.history ==> e.ChatSend?
    ensures CountUpdates(r.out) ==
      if e.Connect? || e.Disconnect? then [Send(All, Viewers(r.next.viewers))] else []
  {
    match e
    case Connect(id) => OnConnect(s, id)
    case ChatSend(_, payload, stamp) => OnChatSend(s, payload, stamp)
    case Announce(sender) => OnAnnounce(s, sender)
    case Watch(sender) => OnWatch(s, sender)
    case Relay(sender, kind, target, body) => OnRelay(s, sender, kind, target, body)
    case Disconnect(id) => OnDisconnect(s, id)
  }

  /** Last announcement wins: after two announcements the later sender
      holds the slot, whatever state came before. */
  lemma LastAnnouncementWins(s: State, a: Id, b: Id)
    ensures Step(Step(s, Announce(a)).next, Announce(b)).next.broadcaster == Some(b)
  {
  }

  /** After the broadcaster leaves, the slot is free and a different
      connection's announcement takes it at once. */
  lemma SlotReusableAfterLeave(s: State, b: Id, c: Id)
    requires s.broadcaster == Some(b)
    ensures Step(s, Disconnect(b)).next.broadcaster == None
    ensures Step(Step(s, Disconnect(b)).next, Announce(c)).next.broadcaster == Some(c)
  {
  }
}
