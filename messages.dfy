/** The messages exchanged between the drawing side and the physics worker.
    The `type` string of a message becomes its constructor; a message whose
    type is none of the recognised ones is `Unrecognised`. */
module Messages {
  import opened Particles

  datatype Message =
    | Init(particles: seq<Snapshot>, simSize: real)
    | Update(particles: seq<Snapshot>)
    | Pause(paused: bool)
    | Speed(speed: real)
    | Friction(friction: real)
    | Dampening(dampening: real)
    | SimSize(size: real)
    | Unrecognised(kind: string)
}
