/** The client's copy of one player record, with the fields only the client
    keeps: the velocity it predicts with, the minimap target it is heading
    to, and whether a decoded avatar image is cached. */
module Mirror {
  import opened Js
  import Protocol

  datatype Point = Point(x: real, y: real)

  datatype Entity = Entity(
    id: string,
    x: real,
    y: real,
    vx: real,
    vy: real,
    name: string,
    color: string,
    isSpeaking: bool,
    customImage: Option<string>,
    isBot: bool,
    soundFile: Option<string>,
    audioStartTime: Option<int>,
    target: Option<Point>,
    imageCached: bool)

  /** A record received in `init` or `playerJoined`.  The server never sends a
      velocity, so `velocityX === undefined` always holds and both components
      start at 0. */
  function FromWire(p: Protocol.Player): Entity
  {
    Entity(p.id, p.x, p.y, 0.0, 0.0, p.name, p.color, p.isSpeaking, p.customImage,
           p.bot.Some?,
           if p.bot.Some? then Some(p.bot.value.soundFile) else None,
           if p.bot.Some? then Some(p.bot.value.audioStartTime) else None,
           None, false)
  }
}
