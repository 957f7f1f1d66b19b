/** The records and messages exchanged between the server and its browser
    clients over the socket connection: the player record as the server stores
    and sends it, who an emitted event is delivered to, and each event's
    payload. */
module Protocol {
  import opened Js

  /** Opaque JSON the server only stores and forwards (whiteboard strokes,
      WebRTC offers, answers and ICE candidates, emote fields). */
  type Blob = string

  /** The fields that only the bot's record carries. */
  datatype BotInfo = BotInfo(
    soundFile: string,
    lastSpeakingChange: int,
    speakingDuration: int,
    forceSpeakingChange: bool,
    audioStartTime: int)

  /** A player record, as stored in the server's `players` object and sent in
      `init` and `playerJoined`.  Human players carry `bot == None`. */
  datatype Player = Player(
    id: string,
    socketId: string,
    x: real,
    y: real,
    color: string,
    name: string,
    isSpeaking: bool,
    customImage: Option<string>,
    bot: Option<BotInfo>)

  /** The addressing of an emit: `io.emit` (every socket),
      `socket.broadcast.emit` (every socket except the sender), and
      `socket.emit` / `io.to(id).emit` (one socket). */
  datatype Target = Everyone | AllBut(except: string) | Only(socket: string)

  predicate Reaches(t: Target, socket: string)
  {
    match t
    case Everyone => true
    case AllBut(s) => socket != s
    case Only(s) => socket == s
  }

  datatype Payload =
    | InitState(you: string, roster: map<string, Player>, width: real, height: real)
    | BoardState(log: seq<Blob>)
    | Joined(player: Player)
    | Moved(id: string, x: real, y: real)
    | SpeakingStatus(id: string, isSpeaking: bool, timestamp: Option<int>)
    | Customized(id: string, name: string, color: string, customImage: Option<string>)
    | Signal(body: Blob, from: Option<string>)
    | Stroke(data: Blob)
    | Cleared
    | Emote(id: Blob, emote: Blob, symbol: Blob)
    | Left(id: string)

  datatype Emit = Emit(to: Target, event: string, payload: Payload)
}
