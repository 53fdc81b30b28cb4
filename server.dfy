/**
 The socket.io connection handler of index.js: a registry `clients` from
 connection id to pose, updated by the `connection`, `move` and
 `disconnect` events, each of which emits events to the sender only or to
 every connected socket. The functions give each handler's effect as a
 value; class `Hub` performs the same steps in place.
 */
module Server {
  import opened Objects
  import opened Protocol

  /** The registry after a handler ran, and the events it emitted, in order. */
  datatype Outcome = Outcome(clients: Obj<Pose>, sent: seq<Envelope>)

  /** `io.on('connection')`: register the id with the default pose, introduce
      the registry to the newcomer, then announce the newcomer to everyone. */
  function Connected(clients: Obj<Pose>, id: Id, count: nat): (r: Outcome)
    ensures clients.Valid() ==> r.clients.Valid()
    ensures forall k :: k in r.clients.vals <==> k in clients.vals || k == id
    ensures id in r.clients.vals && r.clients.vals[id] == DefaultPose
    ensures forall k :: k in clients.vals && k != id ==> r.clients.vals[k] == clients.vals[k]
    ensures id !in clients.vals ==> r.clients.keys == clients.keys + [id]
    ensures |r.sent| == 2
    ensures r.sent[0].to == Only(id) && r.sent[1].to == Everyone
    ensures r.sent[0].msg == Introduction(r.clients, id, r.clients.keys)
    ensures clients.Valid() ==> forall k :: k in r.sent[0].msg.ids <==> k in r.clients.vals
    ensures r.sent[1].msg == NewUserConnected(DefaultPose, count, id)
  {
    var registry := clients.Put(id, DefaultPose);
    Outcome(registry, [Envelope(Only(id), Introduction(registry, id, registry.keys)),
                       Envelope(Everyone, NewUserConnected(registry.vals[id], count, id))])
  }

  /** `move`: overwrite the sender's pose if it is still registered, then
      echo the whole registry to the sender. */
  function Moved(clients: Obj<Pose>, id: Id, data: Pose): (r: Outcome)
    ensures clients.Valid() ==> r.clients.Valid()
    ensures forall k :: k in r.clients.vals <==> k in clients.vals
    ensures r.clients.keys == clients.keys
    ensures id in clients.vals ==> r.clients.vals[id] == data
    ensures forall k :: k in clients.vals && k != id ==> r.clients.vals[k] == clients.vals[k]
    ensures id !in clients.vals ==> r.clients == clients
    ensures r.sent == [Envelope(Only(id), UserMoves(r.clients))]
  {
    var registry := if id in clients.vals then clients.Put(id, Pose(data.position, data.quaternion)) else clients;
    Outcome(registry, [Envelope(Only(id), UserMoves(registry))])
  }

  /** `disconnect`: forget the id and tell every remaining socket. */
  function Disconnected(clients: Obj<Pose>, id: Id): (r: Outcome)
    ensures clients.Valid() ==> r.clients.Valid()
    ensures forall k :: k in r.clients.vals <==> k in clients.vals && k != id
    ensures forall k :: k in r.clients.vals ==> r.clients.vals[k] == clients.vals[k]
    ensures clients.Valid() && id !in clients.vals ==> r.clients == clients
    ensures r.sent == [Envelope(Everyone, UserDisconnected(id))]
  {
    Outcome(clients.Delete(id), [Envelope(Everyone, UserDisconnected(id))])
  }

  /** A pose sent by a client is stored unchanged, so when clients only send
      poses of the three.js shape, every registry entry keeps that shape. */
  lemma MovePreservesShape(clients: Obj<Pose>, id: Id, data: Pose)
    requires forall k :: k in clients.vals ==> WellShaped(clients.vals[k])
    requires WellShaped(data)
    ensures var r := Moved(clients, id, data);
      forall k :: k in r.clients.vals ==> WellShaped(r.clients.vals[k])
  {
  }

  /** The server process: the `clients` object and everything emitted so far. */
  class Hub {
    var clients: Obj<Pose>
    var outbox: seq<Envelope>

    /** `clients` is a well-formed object. */
    ghost predicate Valid()
      reads this
    {
      clients.Valid()
    }

    /** `let clients = {};` */
    constructor ()
      ensures Valid() && clients.vals == map[] && clients.keys == [] && outbox == []
    {
      clients := Empty();
      outbox := [];
    }

    /** The connection handler, for a socket with id `id` while `count`
        sockets are connected. */
    method Connection(id: Id, count: nat)
      requires Valid()
      modifies this
      ensures Valid()
      ensures clients == Connected(old(clients), id, count).clients
      ensures outbox == old(outbox) + Connected(old(clients), id, count).sent
    {
      clients := clients.Put(id, DefaultPose);
      outbox := outbox + [Envelope(Only(id), Introduction(clients, id, clients.keys))];
      outbox := outbox + [Envelope(Everyone, NewUserConnected(clients.vals[id], count, id))];
    }

    /** The `move` handler of connection `id`; `data` is the pair
        `[position, quaternion]`. */
    method Move(id: Id, data: Pose)
      requires Valid()
      modifies this
      ensures Valid()
      ensures clients == Moved(old(clients), id, data).clients
      ensures outbox == old(outbox) + Moved(old(clients), id, data).sent
    {
      if id in clients.vals {
        var entry := clients.vals[id];
        entry := entry.(position := data.position);
        entry := entry.(quaternion := data.quaternion);
        clients := clients.Put(id, entry);
      }
      outbox := outbox + [Envelope(Only(id), UserMoves(clients))];
    }

    /** The `disconnect` handler of connection `id`. */
    method Disconnect(id: Id)
      requires Valid()
      modifies this
      ensures Valid()
      ensures clients == Disconnected(old(clients), id).clients
      ensures outbox == old(outbox) + Disconnected(old(clients), id).sent
    {
      clients := clients.Delete(id);
      outbox := outbox + [Envelope(Everyone, UserDisconnected(id))];
    }
  }
}
