/** Wire messages exchanged between the arena server and the invader client.
    Only the fields the core reads or writes are kept. */
module Msg {

  /** A missile: fixed horizontal coordinate, vertical progress origin
      (CoordY at instant Start, advancing at Speed per second) and owner team. */
  datatype Missile = Missile(id: int, coordX: real, coordY: real, speed: real, team: int, start: real)

  /** An obstacle placed by a player. */
  datatype Brick = Brick(id: int, coordX: real, coordY: real, team: int)

  /** One cannon entry of a snapshot; `player` marks the recipient's own cannon. */
  datatype Cannon = Cannon(id: int, start: real, coordX: real, speed: real, team: int, life: real, player: bool)

  /** The snapshot the server sends to one player. */
  datatype Update = Update(
    fuel: real,
    interval: real,
    worldMissiles: seq<Missile>,
    bricks: seq<Brick>,
    team: int,
    scores: (int, int),
    fireSound: bool,
    cannons: seq<Cannon>)

  /** Button identifiers carried by a client's button message. */
  const ButtonFire: int := 0
  const ButtonTurn: int := 1
  const ButtonBrick: int := 2

  /** Identifiers of the entities a snapshot carries. */
  function MissileIdOf(m: Missile): int { m.id }
  function BrickIdOf(b: Brick): int { b.id }
  function CannonEntryIdOf(c: Cannon): int { c.id }
}
