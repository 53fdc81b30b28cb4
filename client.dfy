/**
 The browser side of public/js/main.js: the globals `id` (this browser's own
 socket id, `undefined` until the server introduces it) and `clients` (one
 entry per other connected peer), updated by the socket.io handlers. The
 functions give each handler's effect as a value; class `Mirror` performs
 the same steps in place, with the loops of the source.
 */
module Client {
  import opened Wrappers
  import opened Objects
  import opened Protocol

  /** A peer's avatar, reduced to the poses it has been eased towards, oldest
      first; a fresh avatar sits at the scene origin and has none. */
  datatype Avatar = Avatar(targets: seq<Pose>)

  const FreshAvatar: Avatar := Avatar([])

  /** The browser's globals `id` and `clients`. */
  datatype MirrorState = MirrorState(id: Option<Id>, clients: Obj<Avatar>)

  /** Before any event: `id` undefined, `clients = {}`. */
  function Start(): (s: MirrorState)
    ensures s.id == None && s.clients.vals == map[] && s.clients.Valid()
  {
    MirrorState(None, Empty())
  }

  /** The browser never lists itself among its peers. */
  ghost predicate SelfFree(s: MirrorState) {
    s.id.Some? ==> s.id.value !in s.clients.vals
  }

  /** `addClient`: a fresh entry for `k`, replacing any previous one. */
  function Added(c: Obj<Avatar>, k: Id): (r: Obj<Avatar>)
    ensures c.Valid() ==> r.Valid()
    ensures forall j :: j in r.vals <==> j in c.vals || j == k
    ensures r.vals[k] == FreshAvatar
    ensures forall j :: j in c.vals && j != k ==> r.vals[j] == c.vals[j]
  {
    c.Put(k, FreshAvatar)
  }

  /** `removeClient`: drop the entry of `k`, if any. */
  function Removed(c: Obj<Avatar>, k: Id): (r: Obj<Avatar>)
    ensures c.Valid() ==> r.Valid()
    ensures forall j :: j in r.vals <==> j in c.vals && j != k
    ensures forall j :: j in r.vals ==> r.vals[j] == c.vals[j]
  {
    c.Delete(k)
  }

  /** The loop of the `introduction` handler, run over `ids`: every id other
      than `self` gets a fresh entry. */
  function AddedExcept(c: Obj<Avatar>, self: Id, ids: seq<Id>): (r: Obj<Avatar>)
    ensures c.Valid() ==> r.Valid()
    ensures forall k :: k in r.vals <==> k in c.vals || (k in ids && k != self)
    ensures forall k :: k in r.vals ==> r.vals[k] == if k in ids && k != self then FreshAvatar else c.vals[k]
    decreases |ids|
  {
    if ids == [] then c
    else
      var prefix := AddedExcept(c, self, ids[..|ids| - 1]);
      assert ids == ids[..|ids| - 1] + [ids[|ids| - 1]];
      var k := ids[|ids| - 1];
      if k != self then Added(prefix, k) else prefix
  }

  /** `introduction(_clientProps, _id, _ids)`: remember the own id, then add
      every listed id except it. The poses in `props` do not reach the new
      avatars. */
  function Introduced(s: MirrorState, props: Obj<Pose>, id: Id, ids: seq<Id>): (r: MirrorState)
    ensures s.clients.Valid() ==> r.clients.Valid()
    ensures r.id == Some(id)
    ensures forall k :: k in r.clients.vals <==> k in s.clients.vals || (k in ids && k != id)
    ensures forall k :: k in ids && k != id ==> r.clients.vals[k] == FreshAvatar
    ensures forall k :: k in s.clients.vals && !(k in ids && k != id) ==> r.clients.vals[k] == s.clients.vals[k]
  {
    MirrorState(Some(id), AddedExcept(s.clients, id, ids))
  }

  /** `newUserConnected(_clientProp, clientCount, _id)`: add `id` unless it is
      the own id or already has an entry. */
  function Joined(s: MirrorState, prop: Pose, count: nat, id: Id): (r: MirrorState)
    ensures s.clients.Valid() ==> r.clients.Valid()
    ensures r.id == s.id
    ensures s.id != Some(id) && id !in s.clients.vals ==>
      (forall k :: k in r.clients.vals <==> k in s.clients.vals || k == id) && r.clients.vals[id] == FreshAvatar
    ensures s.id == Some(id) || id in s.clients.vals ==> r == s
    ensures forall k :: k in s.clients.vals ==> k in r.clients.vals && r.clients.vals[k] == s.clients.vals[k]
  {
    var alreadyHasUser := id in s.clients.vals;
    if s.id != Some(id) && !alreadyHasUser then MirrorState(s.id, Added(s.clients, id)) else s
  }

  /** `userDisconnected(_id)`: remove `id` unless it is the own id. */
  function Left(s: MirrorState, id: Id): (r: MirrorState)
    ensures s.clients.Valid() ==> r.clients.Valid()
    ensures r.id == s.id
    ensures s.id == Some(id) ==> r == s
    ensures s.id != Some(id) ==> forall k :: k in r.clients.vals <==> k in s.clients.vals && k != id
    ensures forall k :: k in r.clients.vals ==> r.clients.vals[k] == s.clients.vals[k]
  {
    if s.id != Some(id) then MirrorState(s.id, Removed(s.clients, id)) else s
  }

  /** The avatar of `k` once `userMoves(props)` has been handled by a
      browser whose own id is `self`. */
  function EasedAvatar(a: Avatar, self: Option<Id>, props: Obj<Pose>, k: Id): Avatar {
    if self != Some(k) && k in props.vals then Avatar(a.targets + [props.vals[k]]) else a
  }

  /** `userMoves(_clientProps)`: every known peer other than oneself that
      appears in the server's registry has its avatar eased towards its pose
      there, once; nobody is added or removed, and the key order is kept. */
  function MovesApplied(s: MirrorState, props: Obj<Pose>): (r: MirrorState)
    ensures s.clients.Valid() ==> r.clients.Valid()
    ensures r.id == s.id && r.clients.keys == s.clients.keys
    ensures forall k :: k in r.clients.vals <==> k in s.clients.vals
    ensures forall k :: k in s.clients.vals && (s.id == Some(k) || k !in props.vals) ==>
      r.clients.vals[k] == s.clients.vals[k]
    ensures forall k :: k in s.clients.vals && s.id != Some(k) && k in props.vals ==>
      r.clients.vals[k].targets == s.clients.vals[k].targets + [props.vals[k]]
  {
    MirrorState(s.id, Obj(s.clients.keys, map k | k in s.clients.vals :: EasedAvatar(s.clients.vals[k], s.id, props, k)))
  }

  /** The handler the browser runs for one server event. */
  function Receive(s: MirrorState, msg: Message): (r: MirrorState)
    ensures s.clients.Valid() ==> r.clients.Valid()
    ensures msg.Introduction? ==> r.id == Some(msg.id)
    ensures !msg.Introduction? ==> r.id == s.id
  {
    match msg
    case Introduction(props, id, ids) => Introduced(s, props, id, ids)
    case NewUserConnected(prop, count, id) => Joined(s, prop, count, id)
    case UserDisconnected(id) => Left(s, id)
    case UserMoves(props) => MovesApplied(s, props)
  }

  /** Once the own id is known, no event adds it to `clients`, except an
      introduction under an id that already has an entry. */
  lemma ReceiveKeepsSelfOut(s: MirrorState, msg: Message)
    requires SelfFree(s)
    requires s.id.Some? || msg.Introduction?
    requires msg.Introduction? ==> msg.id !in s.clients.vals
    ensures SelfFree(Receive(s, msg))
  {
  }

  /** Why the server must introduce before it announces: a browser that
      heard its own arrival first would keep itself as a peer. */
  lemma AnnouncementFirstMirrorsSelf(id: Id, count: nat, props: Obj<Pose>, ids: seq<Id>)
    ensures var s := Receive(Receive(Start(), NewUserConnected(DefaultPose, count, id)), Introduction(props, id, ids));
      s.id == Some(id) && id in s.clients.vals && !SelfFree(s)
  {
  }

  /** A page whose socket reconnects keeps its globals, and the new
      introduction only adds: a peer `p` listed before the reconnection
      and gone from the registry since stays listed. */
  lemma ReintroductionKeepsStalePeer(prev: Id, p: Id, newId: Id, registry: Obj<Pose>)
    requires p !in registry.vals && p != newId
    ensures var s := Receive(MirrorState(Some(prev), Added(Empty(), p)), Introduction(registry, newId, registry.keys));
      s.id == Some(newId) && p in s.clients.vals && p !in registry.vals
  {
  }

  /** A three.js position and quaternion. */
  datatype Vector3 = Vector3(x: real, y: real, z: real)
  datatype Quaternion = Quaternion(x: real, y: real, z: real, w: real)

  /** `Scene.getPlayerMove`: the pair `[position, quaternion]` sent with `move`. */
  function PlayerMove(position: Vector3, quaternion: Quaternion): (r: Pose)
    ensures WellShaped(r)
    ensures r.position[0] == position.x && r.position[1] == position.y && r.position[2] == position.z
    ensures r.quaternion[0] == quaternion.x && r.quaternion[1] == quaternion.y
    ensures r.quaternion[2] == quaternion.z && r.quaternion[3] == quaternion.w
  {
    Pose([position.x, position.y, position.z], [quaternion.x, quaternion.y, quaternion.z, quaternion.w])
  }

  /** The scan over `Object.keys(clients)` in the `newUserConnected` handler. */
  method HasKey(keys: seq<Id>, x: Id) returns (found: bool)
    ensures found <==> x in keys
  {
    found := false;
    var i := 0;
    while i < |keys|
      invariant 0 <= i <= |keys|
      invariant !found && x !in keys[..i]
    {
      if keys[i] == x {
        found := true;
        break;
      }
      assert keys[..i + 1] == keys[..i] + [keys[i]];
      i := i + 1;
    }
  }

  /** The `for ... in` loop of `Scene.updateClientMoves`, run on the
      entries `clients` of a browser whose own id is `self`. Each turn
      touches a different entry, so the order in which the keys of `props`
      are visited does not matter; here it is left open. */
  method EaseAll(clients: Obj<Avatar>, self: Option<Id>, props: Obj<Pose>) returns (r: Obj<Avatar>)
    ensures r == MovesApplied(MirrorState(self, clients), props).clients
  {
    r := clients;
    var todo := props.vals.Keys;
    while todo != {}
      invariant todo <= props.vals.Keys
      invariant r.keys == clients.keys
      invariant forall k :: k in r.vals <==> k in clients.vals
      invariant forall k :: k in clients.vals ==>
        r.vals[k] == if k in todo then clients.vals[k] else EasedAvatar(clients.vals[k], self, props, k)
      decreases todo
    {
      var k :| k in todo;
      if self != Some(k) && k in r.vals {
        r := r.Put(k, Avatar(r.vals[k].targets + [props.vals[k]]));
      }
      todo := todo - {k};
    }
    assert r.vals == MovesApplied(MirrorState(self, clients), props).clients.vals;
  }

  /** The browser's globals, updated in place by the socket handlers. */
  class Mirror {
    var id: Option<Id>
    var clients: Obj<Avatar>

    /** `clients` is a well-formed object. */
    ghost predicate Valid()
      reads this
    {
      clients.Valid()
    }

    function State(): MirrorState
      reads this
    {
      MirrorState(id, clients)
    }

    constructor ()
      ensures Valid() && State() == Start()
    {
      id := None;
      clients := Empty();
    }

    method AddClient(k: Id)
      requires Valid()
      modifies this
      ensures Valid() && id == old(id) && clients == Added(old(clients), k)
    {
      clients := clients.Put(k, FreshAvatar);
    }

    method RemoveClient(k: Id)
      requires Valid()
      modifies this
      ensures Valid() && id == old(id) && clients == Removed(old(clients), k)
    {
      clients := clients.Delete(k);
    }

    method Introduction(props: Obj<Pose>, newId: Id, ids: seq<Id>)
      requires Valid()
      modifies this
      ensures Valid() && State() == Introduced(old(State()), props, newId, ids)
    {
      id := Some(newId);
      var i := 0;
      while i < |ids|
        invariant 0 <= i <= |ids|
        invariant Valid() && id == Some(newId)
        invariant clients == AddedExcept(old(clients), newId, ids[..i])
      {
        assert ids[..i + 1][..i] == ids[..i];
        if id != Some(ids[i]) {
          AddClient(ids[i]);
        }
        i := i + 1;
      }
      assert ids[..|ids|] == ids;
    }

    method NewUserConnected(prop: Pose, count: nat, newcomer: Id)
      requires Valid()
      modifies this
      ensures Valid() && State() == Joined(old(State()), prop, count, newcomer)
    {
      var alreadyHasUser := HasKey(clients.keys, newcomer);
      if id != Some(newcomer) && !alreadyHasUser {
        AddClient(newcomer);
      }
    }

    method UserDisconnected(gone: Id)
      requires Valid()
      modifies this
      ensures Valid() && State() == Left(old(State()), gone)
    {
      if id != Some(gone) {
        RemoveClient(gone);
      }
    }

    method UpdateClientMoves(props: Obj<Pose>)
      requires Valid()
      modifies this
      ensures Valid() && State() == MovesApplied(old(State()), props)
    {
      clients := EaseAll(clients, id, props);
    }

    /** Dispatch one server event to its handler. */
    method Handle(msg: Message)
      requires Valid()
      modifies this
      ensures Valid() && State() == Receive(old(State()), msg)
    {
      match msg
      case Introduction(props, newId, ids) => Introduction(props, newId, ids);
      case NewUserConnected(prop, count, newcomer) => NewUserConnected(prop, count, newcomer);
      case UserDisconnected(gone) => UserDisconnected(gone);
      case UserMoves(props) => UpdateClientMoves(props);
    }
  }
}
