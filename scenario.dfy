/**
 The server of index.js and any number of browsers running
 public/js/main.js, composed. Each connection delivers the server's events
 in the order they were emitted (socket.io's per-connection ordering); a
 browser handles them one at a time, whenever the transport delivers the
 oldest. The main result: every browser's `clients`, once it has handled
 everything sent to it, has exactly the server's keys minus its own id,
 and at no moment does a browser list itself.
 */
module Scenario {
  import opened Wrappers
  import opened Objects
  import opened Protocol
  import Server
  import opened Client

  /** One browser: its globals and the events sent to it and not yet
      handled, oldest first. */
  datatype Browser = Browser(mirror: MirrorState, inbox: seq<Message>)

  /** The server's `clients` and the connected browsers, by socket id. */
  datatype World = World(registry: Obj<Pose>, browsers: map<Id, Browser>)

  /** What can happen next: a socket connects, a connected socket's `move`
      or `disconnect` reaches the server, or the transport hands a browser
      the oldest event waiting for it. `count` stands for
      `io.engine.clientsCount`. */
  datatype Event =
    | Connect(id: Id, count: nat)
    | Move(id: Id, data: Pose)
    | Disconnect(id: Id)
    | Deliver(id: Id)

  /** Before any connection. */
  function Init(): (w: World)
    ensures w.registry.Valid() && w.registry.vals == map[] && w.browsers == map[]
  {
    World(Empty(), map[])
  }

  /** Whether an event sent to `to` reaches socket `c`. */
  predicate Reaches(to: Recipients, c: Id) {
    to == Everyone || to == Only(c)
  }

  /** The messages among `es` that reach `c`, in emission order. */
  function SentTo(es: seq<Envelope>, c: Id): (r: seq<Message>)
    ensures |r| <= |es|
    ensures (forall i :: 0 <= i < |es| ==> !Reaches(es[i].to, c)) ==> r == []
    ensures (forall i :: 0 <= i < |es| ==> Reaches(es[i].to, c)) ==>
      |r| == |es| && forall i :: 0 <= i < |es| ==> r[i] == es[i].msg
  {
    if es == [] then []
    else (if Reaches(es[0].to, c) then [es[0].msg] else []) + SentTo(es[1..], c)
  }

  /** One event reaches `c` exactly when it is addressed to everyone or to `c`. */
  lemma SentToOne(e: Envelope, c: Id)
    ensures SentTo([e], c) == if Reaches(e.to, c) then [e.msg] else []
  {
    assert [e][1..] == [];
  }

  lemma Associative(x: seq<Message>, y: seq<Message>, z: seq<Message>)
    ensures x + (y + z) == (x + y) + z
  {
  }

  /** Filtering is done event by event, so the events reaching `c` from
      two batches are those from the first followed by those from the
      second: emission order is kept. */
  lemma {:induction false} SentToAppend(a: seq<Envelope>, b: seq<Envelope>, c: Id)
    ensures SentTo(a + b, c) == SentTo(a, c) + SentTo(b, c)
    decreases |a|
  {
    if a == [] {
      assert a + b == b;
    } else {
      var head := if Reaches(a[0].to, c) then [a[0].msg] else [];
      assert (a + b)[0] == a[0];
      assert (a + b)[1..] == a[1..] + b;
      assert SentTo(a + b, c) == head + SentTo(a[1..] + b, c);
      SentToAppend(a[1..], b, c);
      assert SentTo(a, c) == head + SentTo(a[1..], c);
      Associative(head, SentTo(a[1..], c), SentTo(b, c));
    }
  }

  /** Hand the events `es` to the transport: each connected browser's
      inbox grows by the events that reach it, in emission order; an event
      for a socket that is no longer connected is dropped. */
  function PostAll(browsers: map<Id, Browser>, es: seq<Envelope>): map<Id, Browser> {
    map c | c in browsers :: Browser(browsers[c].mirror, browsers[c].inbox + SentTo(es, c))
  }

  /** `io.on('connection')` for socket `id`: the server registers it and
      emits; the new browser starts with fresh globals. */
  function Connecting(w: World, id: Id, count: nat): World {
    var o := Server.Connected(w.registry, id, count);
    World(o.clients, PostAll(w.browsers[id := Browser(Start(), [])], o.sent))
  }

  /** A `move` from socket `id` reaches the server. */
  function Moving(w: World, id: Id, data: Pose): World {
    var o := Server.Moved(w.registry, id, data);
    World(o.clients, PostAll(w.browsers, o.sent))
  }

  /** Socket `id` disconnects: its browser is gone and the server emits. */
  function Disconnecting(w: World, id: Id): World {
    var o := Server.Disconnected(w.registry, id);
    World(o.clients, PostAll(w.browsers - {id}, o.sent))
  }

  /** The browser of `id` handles the oldest event waiting for it. */
  function Delivering(w: World, id: Id): World {
    if id in w.browsers && w.browsers[id].inbox != [] then
      var b := w.browsers[id];
      World(w.registry, w.browsers[id := Browser(Receive(b.mirror, b.inbox[0]), b.inbox[1..])])
    else w
  }

  /** One step of the whole system. */
  function Step(w: World, ev: Event): World {
    match ev
    case Connect(id, count) => Connecting(w, id, count)
    case Move(id, data) => Moving(w, id, data)
    case Disconnect(id) => Disconnecting(w, id)
    case Deliver(id) => Delivering(w, id)
  }

  /** What the transport guarantees before it produces an event: socket
      ids are not shared by two live connections, only a connected socket
      disconnects, and only a waiting event is delivered. A `move` may come
      from any id, covering one that raced its own disconnect. */
  predicate Enabled(w: World, ev: Event) {
    match ev
    case Connect(id, _) => id !in w.browsers
    case Move(_, _) => true
    case Disconnect(id) => id in w.browsers
    case Deliver(id) => id in w.browsers && w.browsers[id].inbox != []
  }

  /** The browser's globals once it has handled every event in `q`. */
  function Settle(m: MirrorState, q: seq<Message>): MirrorState
    decreases |q|
  {
    if q == [] then m else Settle(Receive(m, q[0]), q[1..])
  }

  /** Handling one more event after a queue is handling the longer queue. */
  lemma {:induction false} SettleAppend(m: MirrorState, q: seq<Message>, x: Message)
    ensures Settle(m, q + [x]) == Receive(Settle(m, q), x)
    decreases |q|
  {
    if q == [] {
      assert [x][1..] == [];
    } else {
      assert (q + [x])[1..] == q[1..] + [x];
      SettleAppend(Receive(m, q[0]), q[1..], x);
    }
  }

  /** Browser `c` is either introduced and lists no entry for itself, or
      has handled nothing yet and its first event is its introduction; and
      every introduction waiting for it carries its own id. */
  ghost predicate SelfSafe(c: Id, b: Browser) {
    && ((b.mirror.id == Some(c) && c !in b.mirror.clients.vals)
        || (b.mirror == Start() && b.inbox != [] && b.inbox[0].Introduction? && b.inbox[0].id == c))
    && forall i :: 0 <= i < |b.inbox| && b.inbox[i].Introduction? ==> b.inbox[i].id == c
  }

  /** Once browser `c` has handled what is waiting for it, it knows its id
      and lists exactly the registry's other keys. */
  ghost predicate Converges(registry: Obj<Pose>, c: Id, b: Browser) {
    var v := Settle(b.mirror, b.inbox);
    v.id == Some(c) && forall k :: k in v.clients.vals <==> k in registry.vals && k != c
  }

  /** The invariant of the composed system. */
  ghost predicate Agrees(w: World) {
    && w.registry.Valid()
    && (forall c :: c in w.browsers <==> c in w.registry.vals)
    && (forall c :: c in w.browsers ==> Healthy(w.registry, c, w.browsers[c]))
  }

  /** Browser `c` is self-safe and converges to the registry's view. */
  ghost predicate Healthy(registry: Obj<Pose>, c: Id, b: Browser) {
    SelfSafe(c, b) && Converges(registry, c, b)
  }

  /** Queuing one more event that is not an introduction keeps a browser
      self-safe, and its settled state is that event handled last. */
  lemma Enqueue(c: Id, b: Browser, x: Message)
    requires SelfSafe(c, b) && !x.Introduction?
    ensures SelfSafe(c, Browser(b.mirror, b.inbox + [x]))
    ensures Settle(b.mirror, b.inbox + [x]) == Receive(Settle(b.mirror, b.inbox), x)
  {
    SettleAppend(b.mirror, b.inbox, x);
    var q := b.inbox + [x];
    assert forall i :: 0 <= i < |b.inbox| ==> q[i] == b.inbox[i];
  }

  /** A browser that hears of a newcomer ends up listing it too. */
  lemma HearsJoin(registry: Obj<Pose>, registry': Obj<Pose>, c: Id, b: Browser, n: Id, count: nat)
    requires Healthy(registry, c, b) && c != n
    requires forall k :: k in registry'.vals <==> k in registry.vals || k == n
    ensures Healthy(registry', c, Browser(b.mirror, b.inbox + [NewUserConnected(DefaultPose, count, n)]))
  {
    Enqueue(c, b, NewUserConnected(DefaultPose, count, n));
  }

  /** A browser that hears of a departure ends up without it. */
  lemma HearsLeave(registry: Obj<Pose>, registry': Obj<Pose>, c: Id, b: Browser, d: Id)
    requires Healthy(registry, c, b) && c != d
    requires forall k :: k in registry'.vals <==> k in registry.vals && k != d
    ensures Healthy(registry', c, Browser(b.mirror, b.inbox + [UserDisconnected(d)]))
  {
    Enqueue(c, b, UserDisconnected(d));
  }

  /** A broadcast of poses changes no browser's set of peers. */
  lemma HearsMoves(registry: Obj<Pose>, registry': Obj<Pose>, c: Id, b: Browser, props: Obj<Pose>)
    requires Healthy(registry, c, b)
    requires forall k :: k in registry'.vals <==> k in registry.vals
    ensures Healthy(registry', c, Browser(b.mirror, b.inbox + [UserMoves(props)]))
  {
    Enqueue(c, b, UserMoves(props));
  }

  /** A browser stays healthy while the registry keeps its keys. */
  lemma HearsNothing(registry: Obj<Pose>, registry': Obj<Pose>, c: Id, b: Browser)
    requires Healthy(registry, c, b)
    requires forall k :: k in registry'.vals <==> k in registry.vals
    ensures Healthy(registry', c, b)
  {
  }

  /** A newcomer whose introduction lists the registry, followed by the
      broadcast of its own arrival, ends up listing everyone else. */
  lemma NewcomerHealthy(registry: Obj<Pose>, n: Id, count: nat)
    requires registry.Valid()
    ensures Healthy(registry, n, Browser(Start(), [Introduction(registry, n, registry.keys), NewUserConnected(DefaultPose, count, n)]))
  {
    var intro, joined := Introduction(registry, n, registry.keys), NewUserConnected(DefaultPose, count, n);
    SettleAppend(Start(), [intro], joined);
    SettleAppend(Start(), [], intro);
    assert [intro] + [joined] == [intro, joined];
    assert [] + [intro] == [intro];
  }

  /** Handling the oldest waiting event keeps the settled state and keeps
      the browser from listing itself. */
  lemma HandlesOldest(registry: Obj<Pose>, c: Id, b: Browser)
    requires Healthy(registry, c, b) && b.inbox != []
    ensures Healthy(registry, c, Browser(Receive(b.mirror, b.inbox[0]), b.inbox[1..]))
  {
  }

  /** On `connection`, the newcomer is sent its introduction and then the
      announcement of its own arrival; every other socket only the
      announcement. */
  lemma ConnectedReaches(registry: Obj<Pose>, n: Id, count: nat, c: Id)
    ensures var o := Server.Connected(registry, n, count);
      SentTo(o.sent, c) == if c == n then [o.sent[0].msg, o.sent[1].msg] else [o.sent[1].msg]
  {
  }

  /** On `move`, only the mover is sent `userMoves`. */
  lemma MovedReaches(registry: Obj<Pose>, m: Id, data: Pose, c: Id)
    ensures var o := Server.Moved(registry, m, data);
      SentTo(o.sent, c) == if c == m then [UserMoves(o.clients)] else []
  {
  }

  /** On `disconnect`, every socket is sent `userDisconnected`. */
  lemma DisconnectedReaches(registry: Obj<Pose>, d: Id, c: Id)
    ensures SentTo(Server.Disconnected(registry, d).sent, c) == [UserDisconnected(d)]
  {
  }

  /** After `n` connects, each connected browser is healthy. */
  lemma ConnectKeepsBrowser(w: World, n: Id, count: nat, c: Id)
    requires w.registry.Valid() && n !in w.browsers
    requires c == n || (c in w.browsers && Healthy(w.registry, c, w.browsers[c]))
    ensures var w' := Connecting(w, n, count); c in w'.browsers && Healthy(w'.registry, c, w'.browsers[c])
  {
    var o := Server.Connected(w.registry, n, count);
    ConnectedReaches(w.registry, n, count, c);
    if c == n {
      assert [] + [o.sent[0].msg, o.sent[1].msg] == [o.sent[0].msg, o.sent[1].msg];
      NewcomerHealthy(o.clients, n, count);
    } else {
      HearsJoin(w.registry, o.clients, c, w.browsers[c], n, count);
    }
  }

  /** Connecting `n` keeps the invariant. */
  lemma ConnectKeepsAgreement(w: World, n: Id, count: nat)
    requires Agrees(w) && n !in w.browsers
    ensures Agrees(Connecting(w, n, count))
  {
    var w' := Connecting(w, n, count);
    forall c | c in w'.browsers
      ensures Healthy(w'.registry, c, w'.browsers[c])
    {
      ConnectKeepsBrowser(w, n, count, c);
    }
  }

  /** After a move, each connected browser is healthy. */
  lemma MoveKeepsBrowser(w: World, m: Id, data: Pose, c: Id)
    requires c in w.browsers && Healthy(w.registry, c, w.browsers[c])
    ensures var w' := Moving(w, m, data); c in w'.browsers && Healthy(w'.registry, c, w'.browsers[c])
  {
    var o := Server.Moved(w.registry, m, data);
    MovedReaches(w.registry, m, data, c);
    var b := w.browsers[c];
    if c == m {
      HearsMoves(w.registry, o.clients, c, b, o.clients);
    } else {
      assert b.inbox + [] == b.inbox;
      HearsNothing(w.registry, o.clients, c, b);
    }
  }

  /** A move reaches only the mover, as its `userMoves`. */
  lemma MoveKeepsAgreement(w: World, m: Id, data: Pose)
    requires Agrees(w)
    ensures Agrees(Moving(w, m, data))
  {
    var w' := Moving(w, m, data);
    forall c | c in w'.browsers
      ensures Healthy(w'.registry, c, w'.browsers[c])
    {
      MoveKeepsBrowser(w, m, data, c);
    }
  }

  /** After `d` disconnects, each remaining browser is healthy. */
  lemma DisconnectKeepsBrowser(w: World, d: Id, c: Id)
    requires c in w.browsers && c != d && Healthy(w.registry, c, w.browsers[c])
    ensures var w' := Disconnecting(w, d); c in w'.browsers && Healthy(w'.registry, c, w'.browsers[c])
  {
    var o := Server.Disconnected(w.registry, d);
    DisconnectedReaches(w.registry, d, c);
    HearsLeave(w.registry, o.clients, c, w.browsers[c], d);
  }

  /** Disconnecting `d` keeps the invariant. */
  lemma DisconnectKeepsAgreement(w: World, d: Id)
    requires Agrees(w) && d in w.browsers
    ensures Agrees(Disconnecting(w, d))
  {
    var w' := Disconnecting(w, d);
    forall c | c in w'.browsers
      ensures Healthy(w'.registry, c, w'.browsers[c])
    {
      DisconnectKeepsBrowser(w, d, c);
    }
  }

  /** Delivering the oldest event waiting for `c` keeps the invariant. */
  lemma DeliverKeepsAgreement(w: World, c: Id)
    requires Agrees(w) && c in w.browsers && w.browsers[c].inbox != []
    ensures Agrees(Delivering(w, c))
  {
    HandlesOldest(w.registry, c, w.browsers[c]);
  }

  /** Every event the transport may produce keeps the invariant. */
  lemma StepKeepsAgreement(w: World, ev: Event)
    requires Agrees(w) && Enabled(w, ev)
    ensures Agrees(Step(w, ev))
  {
    match ev
    case Connect(id, count) => ConnectKeepsAgreement(w, id, count);
    case Move(id, data) => MoveKeepsAgreement(w, id, data);
    case Disconnect(id) => DisconnectKeepsAgreement(w, id);
    case Deliver(id) => DeliverKeepsAgreement(w, id);
  }

  /** The system after the events `evs`, in order. */
  function Run(w: World, evs: seq<Event>): World
    decreases |evs|
  {
    if evs == [] then w else Run(Step(w, evs[0]), evs[1..])
  }

  /** Every event of `evs` is one the transport may produce at that point. */
  predicate Feasible(w: World, evs: seq<Event>)
    decreases |evs|
  {
    evs == [] || (Enabled(w, evs[0]) && Feasible(Step(w, evs[0]), evs[1..]))
  }

  lemma InitAgrees()
    ensures Agrees(Init())
  {
  }

  /** The invariant holds after any feasible run. */
  lemma {:induction false} RunKeepsAgreement(w: World, evs: seq<Event>)
    requires Agrees(w) && Feasible(w, evs)
    ensures Agrees(Run(w, evs))
    decreases |evs|
  {
    if evs != [] {
      StepKeepsAgreement(w, evs[0]);
      RunKeepsAgreement(Step(w, evs[0]), evs[1..]);
    }
  }

  /** After any feasible run from the start, a connected browser with
      nothing left to handle knows its own id and lists exactly the other
      connected sockets; and a browser that knows its id never lists
      itself, whatever is still waiting for it. */
  lemma MirrorsAgree(evs: seq<Event>, c: Id)
    requires Feasible(Init(), evs)
    requires c in Run(Init(), evs).browsers
    ensures var w := Run(Init(), evs); var m := w.browsers[c].mirror;
      && c in w.registry.vals
      && (m.id == Some(c) ==> c !in m.clients.vals)
      && (w.browsers[c].inbox == [] ==>
            m.id == Some(c) && forall k :: k in m.clients.vals <==> k in w.registry.vals && k != c)
  {
    InitAgrees();
    RunKeepsAgreement(Init(), evs);
  }
}
