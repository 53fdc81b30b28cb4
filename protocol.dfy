/**
 The values exchanged over socket.io between the server (index.js) and the
 browser clients (public/js/main.js). Positions and quaternions are the
 three.js float arrays; they are treated as opaque sequences of reals.
 */
module Protocol {
  import opened Objects

  /** A player's pose as the server stores it: `{position, quaternion}`. */
  datatype Pose = Pose(position: seq<real>, quaternion: seq<real>)

  /** The entry the server creates for a new connection. */
  const DefaultPose: Pose := Pose([0.0, 0.0, 0.0], [0.0, 0.0, 0.0, 0.0])

  /** A pose of the shape three.js produces: a 3-vector and a 4-component quaternion. */
  predicate WellShaped(p: Pose) {
    |p.position| == 3 && |p.quaternion| == 4
  }

  /** Server-to-client events, with their arguments in emission order. */
  datatype Message =
    | Introduction(clients: Obj<Pose>, id: Id, ids: seq<Id>)
    | NewUserConnected(client: Pose, count: nat, id: Id)
    | UserMoves(clients: Obj<Pose>)
    | UserDisconnected(id: Id)

  /** `client.emit` reaches the one connection; `io.sockets.emit` every connected one. */
  datatype Recipients = Only(id: Id) | Everyone

  /** One emitted event and who it is addressed to. */
  datatype Envelope = Envelope(to: Recipients, msg: Message)
}
