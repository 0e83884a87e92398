/** What the connections actually receive. socket.io keeps the set of open
    connections; an emission reaches the open connections its recipients
    name, and one addressed to a closed or unknown id reaches nobody. A
    `World` pairs the server state with that set. */
module Transport {
  import opened Wrappers
  import ChatLog
  import opened Signaling

  /** Whether an emission to `to` is meant for connection `x`. */
  predicate Addressed(to: Recipients, x: Id)
  {
    match to
    case All => true
    case AllExcept(y) => x != y
    case To(room) => x == room
  }

  /** The messages connection `x` receives from an outbox, in emission order. */
  function Inbox(out: seq<Send>, live: set<Id>, x: Id): (r: seq<Message>)
    ensures x !in live ==> r == []
    ensures |r| <= |out|
    decreases |out|
  {
    if out == [] then []
    else
      var head := if x in live && Addressed(out[0].to, x) then [out[0].msg] else [];
      var rest := Inbox(out[1..], live, x);
      head + rest
  }

  /** Delivering two outboxes one after the other. */
  lemma {:induction false} InboxConcat(a: seq<Send>, b: seq<Send>, live: set<Id>, x: Id)
    ensures Inbox(a + b, live, x) == Inbox(a, live, x) + Inbox(b, live, x)
    decreases |a|
  {
    if a == [] {
      assert a + b == b;
    } else {
      assert (a + b)[0] == a[0];
      assert (a + b)[1..] == a[1..] + b;
      InboxConcat(a[1..], b, live, x);
    }
  }

  lemma InboxSingle(to: Recipients, m: Message, live: set<Id>, x: Id)
    ensures Inbox([Send(to, m)], live, x) == if x in live && Addressed(to, x) then [m] else []
  {
    assert [Send(to, m)][1..] == [];
  }

  lemma InboxPair(a: Send, b: Send, live: set<Id>, x: Id)
    ensures Inbox([a, b], live, x) == Inbox([a], live, x) + Inbox([b], live, x)
  {
    InboxConcat([a], [b], live, x);
    assert [a] + [b] == [a, b];
  }

  datatype World = World(server: State, live: set<Id>)

  /** The open connections once socket.io has processed the event: a new
      socket is in the set before its handler runs, a closed one is out of
      it before its `disconnect` handler runs. */
  function LiveAfter(live: set<Id>, e: Event): (r: set<Id>)
    ensures e.Connect? ==> r == live + {e.id}
    ensures e.Disconnect? ==> r == live - {e.id}
    ensures !e.Connect? && !e.Disconnect? ==> r == live
  {
    match e
    case Connect(id) => live + {id}
    case Disconnect(id) => live - {id}
    case _ => live
  }

  function Advance(w: World, e: Event): World
  {
    World(Step(w.server, e).next, LiveAfter(w.live, e))
  }

  /** What connection `x` receives while the server handles `e`. */
  function Received(w: World, e: Event, x: Id): seq<Message>
  {
    Inbox(Step(w.server, e).out, LiveAfter(w.live, e), x)
  }

  /** Events socket.io can deliver: a new id on connect, and every other
      event from a connection that is open. */
  predicate Admissible(w: World, e: Event)
  {
    match e
    case Connect(id) => id !in w.live
    case Disconnect(id) => id in w.live
    case ChatSend(sender, _, _) => sender in w.live
    case Announce(sender) => sender in w.live
    case Watch(sender) => sender in w.live
    case Relay(sender, _, _, _) => sender in w.live
  }

  /** The invariants the handler keeps about connections: the counter is
      the number of open connections, and the slot holds an open connection
      or nothing. (The log's bound is kept by `ChatLog.Append`.) */
  predicate Good(w: World)
  {
    && w.server.viewers == |w.live|
    && (w.server.broadcaster.Some? ==> w.server.broadcaster.value in w.live)
  }

  /** Every admissible event keeps the invariants. In particular the floor
      at zero in the disconnect handler never comes into play. */
  lemma StepPreservesGood(w: World, e: Event)
    requires Good(w) && Admissible(w, e)
    ensures Good(Advance(w, e))
  {
    match e
    case Connect(id) =>
      assert |w.live + {id}| == |w.live| + 1;
    case Disconnect(id) =>
      assert |w.live - {id}| == |w.live| - 1;
    case _ =>
  }

  /** A connect: everybody open, the newcomer included, learns the new
      count, which is the number of open connections; the newcomer then
      gets the log as it stood. */
  lemma ConnectDelivery(w: World, id: Id, x: Id)
    requires Good(w) && Admissible(w, Connect(id))
    ensures Advance(w, Connect(id)).server.viewers == |w.live| + 1
    ensures Received(w, Connect(id), x) ==
      if x == id then [Viewers(|w.live| + 1), ChatHistory(w.server.history)]
      else if x in w.live then [Viewers(|w.live| + 1)]
      else []
  {
    var r := Step(w.server, Connect(id));
    var live := LiveAfter(w.live, Connect(id));
    InboxPair(r.out[0], r.out[1], live, x);
    InboxSingle(r.out[0].to, r.out[0].msg, live, x);
    InboxSingle(r.out[1].to, r.out[1].msg, live, x);
  }

  /** A disconnect of an open connection. If it held the slot, every other
      open connection hears `broadcaster-left`; otherwise a holder, if any,
      alone hears which peer left. Then every remaining connection gets the
      new count, one less than before. The leaver receives nothing. */
  lemma DisconnectDelivery(w: World, id: Id, x: Id)
    requires Good(w) && Admissible(w, Disconnect(id))
    ensures Advance(w, Disconnect(id)).server.viewers == |w.live| - 1
    ensures Advance(w, Disconnect(id)).server.broadcaster ==
      if w.server.broadcaster == Some(id) then None else w.server.broadcaster
    ensures Received(w, Disconnect(id), x) ==
      if x !in w.live || x == id then []
      else if w.server.broadcaster == Some(id) then [BroadcasterLeft, Viewers(|w.live| - 1)]
      else if w.server.broadcaster == Some(x) then [DisconnectPeer(id), Viewers(|w.live| - 1)]
      else [Viewers(|w.live| - 1)]
  {
    var b := w.server.broadcaster;
    if b == Some(id) {
      HolderLeaves(w, id, x);
    } else if b.Some? {
      PeerLeavesWithHolder(w, id, x);
    } else {
      PeerLeavesWithoutHolder(w, id, x);
    }
  }

  lemma HolderLeaves(w: World, id: Id, x: Id)
    requires w.server.broadcaster == Some(id)
    ensures Received(w, Disconnect(id), x) ==
      if x in w.live && x != id then [BroadcasterLeft, Viewers(Step(w.server, Disconnect(id)).next.viewers)] else []
  {
    var r := OnDisconnect(w.server, id);
    var n := r.next.viewers;
    assert r.out == [Send(AllExcept(id), BroadcasterLeft), Send(All, Viewers(n))];
    TwoNotices(Send(AllExcept(id), BroadcasterLeft), BroadcasterLeft, n, w.live, id, x);
  }

  lemma PeerLeavesWithHolder(w: World, id: Id, x: Id)
    requires w.server.broadcaster.Some? && w.server.broadcaster != Some(id)
    ensures Received(w, Disconnect(id), x) ==
      var n := Step(w.server, Disconnect(id)).next.viewers;
      if x !in w.live || x == id then []
      else if w.server.broadcaster == Some(x) then [DisconnectPeer(id), Viewers(n)]
      else [Viewers(n)]
  {
    var r := OnDisconnect(w.server, id);
    var b := w.server.broadcaster.value;
    var n := r.next.viewers;
    assert r.out == [Send(To(b), DisconnectPeer(id)), Send(All, Viewers(n))];
    TwoNotices(Send(To(b), DisconnectPeer(id)), DisconnectPeer(id), n, w.live, id, x);
  }

  /** Delivery after a disconnect: a notice, then the new count, to the
      connections still open. */
  lemma TwoNotices(first: Send, m: Message, n: nat, live: set<Id>, id: Id, x: Id)
    requires first.msg == m
    ensures Inbox([first, Send(All, Viewers(n))], live - {id}, x) ==
      if x !in live || x == id then []
      else if Addressed(first.to, x) then [m, Viewers(n)]
      else [Viewers(n)]
  {
    InboxPair(first, Send(All, Viewers(n)), live - {id}, x);
    InboxSingle(first.to, m, live - {id}, x);
    InboxSingle(All, Viewers(n), live - {id}, x);
  }

  lemma PeerLeavesWithoutHolder(w: World, id: Id, x: Id)
    requires w.server.broadcaster.None?
    ensures Received(w, Disconnect(id), x) ==
      if x in w.live && x != id then [Viewers(Step(w.server, Disconnect(id)).next.viewers)] else []
  {
    var r := OnDisconnect(w.server, id);
    assert r.out == [Send(All, Viewers(r.next.viewers))];
    InboxSingle(All, Viewers(r.next.viewers), w.live - {id}, x);
  }

  /** A `broadcaster` announcement reaches every open connection but the
      announcer, once; the announcer receives nothing back. */
  lemma AnnounceDelivery(w: World, sender: Id, x: Id)
    requires Admissible(w, Announce(sender))
    ensures Advance(w, Announce(sender)).server.broadcaster == Some(sender)
    ensures Received(w, Announce(sender), x) ==
      if x in w.live && x != sender then [BroadcasterOnline] else []
  {
    var r := Step(w.server, Announce(sender));
    InboxSingle(r.out[0].to, r.out[0].msg, w.live, x);
  }

  /** A `watcher` request reaches the slot holder alone, exactly once and
      carrying the requester's id; with an empty slot nobody receives
      anything. */
  lemma WatchDelivery(w: World, sender: Id, x: Id)
    requires Good(w) && Admissible(w, Watch(sender))
    ensures Advance(w, Watch(sender)) == w
    ensures Received(w, Watch(sender), x) ==
      if w.server.broadcaster == Some(x) then [WatchRequest(sender)] else []
  {
    var r := Step(w.server, Watch(sender));
    if w.server.broadcaster.Some? {
      InboxSingle(r.out[0].to, r.out[0].msg, w.live, x);
    }
  }

  /** A negotiation message reaches its target once, if the target is open,
      tagged with the true sender; nobody else receives anything, and a
      closed or unknown target makes it vanish silently. */
  lemma RelayDelivery(w: World, sender: Id, kind: SignalKind, target: Id, body: Body, x: Id)
    requires Admissible(w, Relay(sender, kind, target, body))
    ensures Advance(w, Relay(sender, kind, target, body)) == w
    ensures Received(w, Relay(sender, kind, target, body), x) ==
      if x == target && x in w.live then [Signal(kind, sender, body)] else []
  {
    var r := Step(w.server, Relay(sender, kind, target, body));
    InboxSingle(r.out[0].to, r.out[0].msg, w.live, x);
  }

  /** A chat submission: an accepted entry reaches every open connection
      once; a rejected one reaches nobody. */
  lemma ChatDelivery(w: World, sender: Id, payload: Option<ChatLog.Payload>, stamp: ChatLog.Stamp, x: Id)
    requires Admissible(w, ChatSend(sender, payload, stamp))
    ensures Received(w, ChatSend(sender, payload, stamp), x) ==
      if x in w.live && ChatLog.Acceptable(payload)
      then [ChatMsg(ChatLog.Accept(payload, stamp).value)]
      else []
  {
    var r := Step(w.server, ChatSend(sender, payload, stamp));
    if ChatLog.Acceptable(payload) {
      InboxSingle(r.out[0].to, r.out[0].msg, w.live, x);
    }
  }

  /** Handling events in order. */
  function Run(w: World, es: seq<Event>): World
    decreases |es|
  {
    if es == [] then w else Run(Advance(w, es[0]), es[1..])
  }

  /** A sequence of events socket.io can deliver, starting from `w`. */
  predicate ValidTrace(w: World, es: seq<Event>)
    decreases |es|
  {
    es == [] || (Admissible(w, es[0]) && ValidTrace(Advance(w, es[0]), es[1..]))
  }

  /** The invariants hold after any deliverable sequence of events: the
      count every connection is told always equals the number of open
      connections, and the slot never names a closed connection. */
  lemma {:induction false} RunPreservesGood(w: World, es: seq<Event>)
    requires Good(w) && ValidTrace(w, es)
    ensures Good(Run(w, es))
    decreases |es|
  {
    if es != [] {
      StepPreservesGood(w, es[0]);
      RunPreservesGood(Advance(w, es[0]), es[1..]);
    }
  }

  /** The entries a sequence of events adds to the log, in order. */
  function Accepted(es: seq<Event>): (r: seq<ChatLog.Entry>)
    ensures |r| <= |es|
    decreases |es|
  {
    if es == [] then []
    else
      AcceptedBy(es[0]) + Accepted(es[1..])
  }

  /** The entries one event adds to the log: the accepted submission, if
      it is one. */
  function AcceptedBy(e: Event): (r: seq<ChatLog.Entry>)
    ensures |r| <= 1
  {
    if e.ChatSend? && ChatLog.Acceptable(e.payload)
    then [ChatLog.Accept(e.payload, e.stamp).value] else []
  }

  /** Appending entries one by one: a single entry first, then the rest. */
  lemma AppendAllCons(h: seq<ChatLog.Entry>, head: seq<ChatLog.Entry>, tail: seq<ChatLog.Entry>)
    requires |head| <= 1
    ensures ChatLog.AppendAll(h, head + tail) ==
      ChatLog.AppendAll(if head == [] then h else ChatLog.Append(h, head[0]), tail)
  {
    if head == [] {
      assert head + tail == tail;
    } else {
      assert (head + tail)[0] == head[0];
      assert (head + tail)[1..] == tail;
    }
  }

  /** After any sequence of events, the log is the starting log with every
      accepted submission appended in turn, in submission order. Nothing
      else touches it. */
  lemma {:induction false} RunHistoryIsAppendAll(w: World, es: seq<Event>)
    ensures Run(w, es).server.history == ChatLog.AppendAll(w.server.history, Accepted(es))
    decreases |es|
  {
    if es != [] {
      var w' := Advance(w, es[0]);
      var head := AcceptedBy(es[0]);
      assert w'.server.history ==
        if head == [] then w.server.history else ChatLog.Append(w.server.history, head[0]);
      RunHistoryIsAppendAll(w', es[1..]);
      AppendAllCons(w.server.history, head, Accepted(es[1..]));
    }
  }

  /** Starting within the bound, after any sequence of events the log is the
      newest `MAX_HISTORY` entries of the starting log followed by every
      accepted submission, in submission order. */
  lemma {:induction false} RunHistoryIsWindow(w: World, es: seq<Event>)
    requires |w.server.history| <= ChatLog.MAX_HISTORY
    ensures Run(w, es).server.history == ChatLog.Window(w.server.history + Accepted(es))
  {
    RunHistoryIsAppendAll(w, es);
    ChatLog.AppendAllIsWindow(w.server.history, Accepted(es));
  }

  /** The world at start-up: nobody connected, the slot empty, the log
      read from disk. */
  function Boot(f: ChatLog.StoredFile): (w: World)
    ensures w.live == {} && w.server.viewers == 0 && w.server.broadcaster == None
    ensures w.server.history == ChatLog.LoadHistory(f)
  {
    World(Initial(ChatLog.LoadHistory(f)), {})
  }

  /** From start-up, whatever was loaded and whatever deliverable events
      follow, the counter equals the number of open connections and the
      slot never names a closed one. */
  lemma InvariantsFromBoot(f: ChatLog.StoredFile, es: seq<Event>)
    requires ValidTrace(Boot(f), es)
    ensures Run(Boot(f), es).server.viewers == |Run(Boot(f), es).live|
    ensures Run(Boot(f), es).server.broadcaster.Some? ==>
      Run(Boot(f), es).server.broadcaster.value in Run(Boot(f), es).live
  {
    RunPreservesGood(Boot(f), es);
  }

  /** A connection opened after any deliverable sequence of events from
      start-up is sent a snapshot holding exactly the newest entries
      submitted before it: all of them while there are at most
      `MAX_HISTORY`, and nothing submitted later. */
  lemma SnapshotOnConnect(f: ChatLog.StoredFile, es: seq<Event>, id: Id)
    requires |ChatLog.LoadHistory(f)| <= ChatLog.MAX_HISTORY
    requires ValidTrace(Boot(f), es)
    requires id !in Run(Boot(f), es).live
    ensures var w := Run(Boot(f), es);
            Received(w, Connect(id), id) ==
              [Viewers(|w.live| + 1), ChatHistory(ChatLog.Window(ChatLog.LoadHistory(f) + Accepted(es)))]
  {
    var w := Run(Boot(f), es);
    RunPreservesGood(Boot(f), es);
    RunHistoryIsWindow(Boot(f), es);
    ConnectDelivery(w, id, id);
  }
}
