/** The authoritative game state kept by the server process: the `players`
    object keyed by player id, the whiteboard log, and the socket event
    handlers that update them and emit events to the connected sockets.
    Every emit is appended to `outbox` together with who receives it. */
module Server {
  import opened Js
  import opened Protocol
  import Whiteboard

  const WorldWidth: real := 10000.0
  const WorldHeight: real := 10000.0
  /** Bots keep inside [BotMargin, world size - BotMargin]. */
  const BotMargin: real := 30.0
  const BotStep: real := 5.0
  /** Speaking for longer than this (37.5 minutes, in ms) restarts the bot's audio. */
  const AudioRestartAfter: int := 2250000
  /** The socket id the bot's record carries instead of a real connection. */
  const BotSocket: string := "bot"
  const BotName: string := "Dracula Bot"
  const BotColor: string := "#FF5733"
  const BotImage: string := "/assets/bots/GASOv75XUAAuLZq.jpg"
  const BotSound: string := "/assets/bots/DraculaFlowa.mp3"

  /** `Math.floor(Math.random() * size)` along an axis of length `size`
      (`worldSize.width` for x, `worldSize.height` for y), `random` in [0, 1). */
  function SpawnCoord(random: real, size: real): (c: real)
    requires 0.0 <= random < 1.0
    ensures size > 0.0 ==> 0.0 <= c < size
    ensures c == c.Floor as real
  {
    (random * size).Floor as real
  }

  /** `'#' + Math.floor(Math.random() * 16777215).toString(16)`. */
  function RandomColor(random: real): (color: string)
    requires 0.0 <= random < 1.0
    ensures 2 <= |color| && color[0] == '#'
    ensures forall i :: 1 <= i < |color| ==> IsDigit(color[i], 16)
    ensures FromRadix(color[1..], 16) < 16777215
    ensures color[1] == '0' ==> |color| == 2
  {
    var n := (random * 16777215.0).Floor;
    assert 0 <= n < 16777215;
    var hex := ToRadix(n, 16);
    RadixRoundTrip(n, 16);
    assert ("#" + hex)[1..] == hex;
    "#" + hex
  }

  /** The default name `Player ${count + 1}`, `count` being how many players
      were registered before this one. */
  function DefaultName(count: nat): (name: string)
    ensures |name| > 7 && name[..7] == "Player "
    ensures forall i :: 7 <= i < |name| ==> IsDigit(name[i], 10)
    ensures name[7] != '0'
    ensures FromRadix(name[7..], 10) == count + 1
  {
    var digits := ToRadix(count + 1, 10);
    RadixRoundTrip(count + 1, 10);
    assert ("Player " + digits)[7..] == digits;
    "Player " + digits
  }

  /** One coordinate of a bot tick: a step of 5 whose sign comes from
      `Math.random() > 0.5`, then `Math.max(30, Math.min(size - 30, c))`. */
  function BotCoord(pos: real, random: real, size: real): (c: real)
    ensures size >= 2.0 * BotMargin ==> BotMargin <= c <= size - BotMargin
    ensures BotMargin + BotStep <= pos <= size - BotMargin - BotStep ==>
              c == (if random > 0.5 then pos + BotStep else pos - BotStep)
    ensures BotMargin <= pos <= size - BotMargin ==> Abs(c - pos) <= BotStep
  {
    var moved := pos + (if random > 0.5 then 1.0 else -1.0) * BotStep;
    Clamp(BotMargin, size - BotMargin, moved)
  }

  datatype SignalKind = Offer | Answer | IceCandidate

  function SignalEvent(kind: SignalKind): string
  {
    match kind
    case Offer => "webrtc-offer"
    case Answer => "webrtc-answer"
    case IceCandidate => "webrtc-ice-candidate"
  }

  ghost predicate WellKeyed(players: map<string, Player>)
  {
    && (forall k :: k in players ==> players[k].id == k)
    && (forall a, b :: a in players && b in players && a != b ==>
          players[a].socketId != players[b].socketId)
  }

  /** Rewriting a record without touching its id or socket id keeps the
      registry well keyed. */
  lemma UpdateKeepsWellKeyed(players: map<string, Player>, k: string, p: Player)
    requires WellKeyed(players) && k in players
    requires p.id == players[k].id && p.socketId == players[k].socketId
    ensures WellKeyed(players[k := p])
  {
  }

  class GameServer {
    var players: map<string, Player>
    var board: seq<Blob>
    var outbox: seq<Emit>

    /** Every record sits under its own id, no two records share a socket id,
        and the whiteboard log is within its cap. */
    ghost predicate Valid()
      reads this
    {
      WellKeyed(players) && |board| <= Whiteboard.Cap
    }

    predicate SocketInUse(socketId: string)
      reads this
    {
      exists k :: k in players && players[k].socketId == socketId
    }

    /** The id of the player bound to `socketId`, if any (unique by `Valid`). */
    ghost function OwnerOf(socketId: string): Option<string>
      reads this
    {
      if SocketInUse(socketId) then
        var k :| k in players && players[k].socketId == socketId; Some(k)
      else None
    }

    lemma OwnerOfUnique(socketId: string, k: string)
      requires Valid()
      requires k in players && players[k].socketId == socketId
      ensures OwnerOf(socketId) == Some(k)
    {
    }

    constructor ()
      ensures Valid()
      ensures players == map[] && board == [] && outbox == []
    {
      players := map[];
      board := [];
      outbox := [];
    }

    /** `findPlayerIdBySocketId`: a scan over the registered ids that returns
        the first whose record carries `socketId`, or null. */
    method FindPlayerIdBySocketId(socketId: string) returns (r: Option<string>)
      requires Valid()
      ensures r.Some? ==> r.value in players && players[r.value].socketId == socketId
      ensures r.None? <==> !SocketInUse(socketId)
      ensures r == OwnerOf(socketId)
    {
      var remaining := players.Keys;
      while remaining != {}
        invariant remaining <= players.Keys
        invariant forall k :: k in players && k !in remaining ==> players[k].socketId != socketId
        decreases |remaining|
      {
        var k :| k in remaining;
        if players[k].socketId == socketId {
          OwnerOfUnique(socketId, k);
          return Some(k);
        }
        remaining := remaining - {k};
      }
      return None;
    }

    /** `Object.values(players).find(player => player.id === to)`. */
    function PlayerWithId(to: string): (r: Option<Player>)
      reads this
      requires Valid()
      ensures r.Some? <==> exists k :: k in players && players[k].id == to
      ensures r.Some? ==> to in players && r.value == players[to] && r.value.id == to
    {
      if to in players then Some(players[to]) else None
    }

    /** The `connection` handler: register a fresh player for the socket, send
        it `init` and `whiteboard-init`, and announce it to every other socket. */
    method Connect(socketId: string, playerId: string, randomX: real, randomY: real, randomColor: real)
      requires Valid()
      requires playerId !in players
      requires !SocketInUse(socketId)
      requires 0.0 <= randomX < 1.0 && 0.0 <= randomY < 1.0 && 0.0 <= randomColor < 1.0
      modifies this
      ensures Valid()
      ensures playerId in players
      ensures players == old(players)[playerId := players[playerId]]
      ensures var p := players[playerId];
        && p.id == playerId && p.socketId == socketId
        && p.x == SpawnCoord(randomX, WorldWidth) && p.y == SpawnCoord(randomY, WorldHeight)
        && p.color == RandomColor(randomColor)
        && p.name == DefaultName(|old(players)|)
        && !p.isSpeaking && p.customImage == None && p.bot == None
      ensures board == old(board)
      ensures outbox == old(outbox) + [
        Emit(Only(socketId), "init", InitState(playerId, players, WorldWidth, WorldHeight)),
        Emit(Only(socketId), "whiteboard-init", BoardState(board)),
        Emit(AllBut(socketId), "playerJoined", Joined(players[playerId]))]
    {
      var x := SpawnCoord(randomX, WorldWidth);
      var y := SpawnCoord(randomY, WorldHeight);
      var p := Player(playerId, socketId, x, y, RandomColor(randomColor),
                      DefaultName(|players|), false, None, None);
      players := players[playerId := p];
      outbox := outbox + [Emit(Only(socketId), "init", InitState(playerId, players, WorldWidth, WorldHeight))];
      outbox := outbox + [Emit(Only(socketId), "whiteboard-init", BoardState(board))];
      outbox := outbox + [Emit(AllBut(socketId), "playerJoined", Joined(players[playerId]))];
    }

    /** `move`: store the reported position verbatim and relay it to every
        other socket; an unknown id is ignored. */
    method Move(socketId: string, id: string, x: real, y: real)
      requires Valid()
      modifies this
      ensures Valid()
      ensures board == old(board)
      ensures id !in old(players) ==> players == old(players) && outbox == old(outbox)
      ensures id in old(players) ==>
        && players == old(players)[id := old(players)[id].(x := x, y := y)]
        && outbox == old(outbox) + [Emit(AllBut(socketId), "playerMoved", Moved(id, x, y))]
    {
      if id in players {
        UpdateKeepsWellKeyed(players, id, players[id].(x := x, y := y));
        players := players[id := players[id].(x := x, y := y)];
        outbox := outbox + [Emit(AllBut(socketId), "playerMoved", Moved(id, x, y))];
      }
    }

    /** `speaking`: store the flag and relay it to every other socket. */
    method Speaking(socketId: string, id: string, isSpeaking: bool)
      requires Valid()
      modifies this
      ensures Valid()
      ensures board == old(board)
      ensures id !in old(players) ==> players == old(players) && outbox == old(outbox)
      ensures id in old(players) ==>
        && players == old(players)[id := old(players)[id].(isSpeaking := isSpeaking)]
        && outbox == old(outbox) + [Emit(AllBut(socketId), "playerSpeaking", SpeakingStatus(id, isSpeaking, None))]
    {
      if id in players {
        UpdateKeepsWellKeyed(players, id, players[id].(isSpeaking := isSpeaking));
        players := players[id := players[id].(isSpeaking := isSpeaking)];
        outbox := outbox + [Emit(AllBut(socketId), "playerSpeaking", SpeakingStatus(id, isSpeaking, None))];
      }
    }

    /** `customize`: a truthy name or colour replaces the stored one, a
        `customImage` that is present (even null) replaces the stored image;
        the resulting appearance goes to every other socket and back to the
        sender. */
    method Customize(socketId: string, id: string, name: Field, color: Field, customImage: Field)
      requires Valid()
      modifies this
      ensures Valid()
      ensures board == old(board)
      ensures id !in old(players) ==> players == old(players) && outbox == old(outbox)
      ensures id in old(players) ==>
        var o := old(players)[id];
        && id in players
        && var p := players[id];
        && players == old(players)[id := p]
        && p == o.(name := p.name, color := p.color, customImage := p.customImage)
        && p.name == (if Truthy(name) then name.s else o.name)
        && p.color == (if Truthy(color) then color.s else o.color)
        && p.customImage == (if customImage.Undefined? then o.customImage else Defined(customImage))
        && var msg := Customized(id, p.name, p.color, p.customImage);
           outbox == old(outbox) + [Emit(AllBut(socketId), "playerCustomized", msg),
                                    Emit(Only(socketId), "playerCustomized", msg)]
    {
      if id in players {
        var p := players[id];
        if Truthy(name) {
          p := p.(name := name.s);
        }
        if Truthy(color) {
          p := p.(color := color.s);
        }
        if !customImage.Undefined? {
          p := p.(customImage := Defined(customImage));
        }
        UpdateKeepsWellKeyed(players, id, p);
        players := players[id := p];
        outbox := outbox + [Emit(AllBut(socketId), "playerCustomized", Customized(id, p.name, p.color, p.customImage))];
        outbox := outbox + [Emit(Only(socketId), "playerCustomized", Customized(id, p.name, p.color, p.customImage))];
      }
    }

    /** `webrtc-offer`, `webrtc-answer`, `webrtc-ice-candidate`: forward the
        body to the target player's socket only, tagged with the sender's
        player id; a target that is not registered drops the message. */
    method Relay(socketId: string, kind: SignalKind, to: string, body: Blob)
      requires Valid()
      modifies this
      ensures Valid()
      ensures players == old(players) && board == old(board)
      ensures to !in players ==> outbox == old(outbox)
      ensures to in players ==>
        outbox == old(outbox) + [Emit(Only(players[to].socketId), SignalEvent(kind),
                                      Signal(body, OwnerOf(socketId)))]
    {
      var target := PlayerWithId(to);
      if target.Some? {
        var from := FindPlayerIdBySocketId(socketId);
        outbox := outbox + [Emit(Only(target.value.socketId), SignalEvent(kind), Signal(body, from))];
      }
    }

    /** `whiteboard-draw`: append to the capped log and relay to the others. */
    method WhiteboardDraw(socketId: string, data: Blob)
      requires Valid()
      modifies this
      ensures Valid()
      ensures players == old(players)
      ensures board == Whiteboard.Push(old(board), data)
      ensures outbox == old(outbox) + [Emit(AllBut(socketId), "whiteboard-draw", Stroke(data))]
    {
      board := Whiteboard.Push(board, data);
      outbox := outbox + [Emit(AllBut(socketId), "whiteboard-draw", Stroke(data))];
    }

    /** `whiteboard-clear`: empty the log and relay to the others. */
    method WhiteboardClear(socketId: string)
      requires Valid()
      modifies this
      ensures Valid()
      ensures players == old(players) && board == []
      ensures outbox == old(outbox) + [Emit(AllBut(socketId), "whiteboard-clear", Cleared)]
    {
      board := [];
      outbox := outbox + [Emit(AllBut(socketId), "whiteboard-clear", Cleared)];
    }

    /** `player-emote`: relayed to the others as it came, never stored. */
    method PlayerEmote(socketId: string, id: Blob, emote: Blob, symbol: Blob)
      requires Valid()
      modifies this
      ensures Valid()
      ensures players == old(players) && board == old(board)
      ensures outbox == old(outbox) + [Emit(AllBut(socketId), "player-emote", Emote(id, emote, symbol))]
    {
      outbox := outbox + [Emit(AllBut(socketId), "player-emote", Emote(id, emote, symbol))];
    }

    /** `disconnect`: remove the player bound to the socket and tell the
        others once; a socket with no player changes nothing. */
    method Disconnect(socketId: string)
      requires Valid()
      modifies this
      ensures Valid()
      ensures board == old(board)
      ensures !SocketInUse(socketId)
      ensures old(OwnerOf(socketId)).None? ==> players == old(players) && outbox == old(outbox)
      ensures old(OwnerOf(socketId)).Some? ==>
        var gone := old(OwnerOf(socketId)).value;
        && gone in old(players)
        && players == old(players) - {gone}
        && outbox == old(outbox) + [Emit(AllBut(socketId), "playerLeft", Left(gone))]
    {
      var playerId := FindPlayerIdBySocketId(socketId);
      if playerId.Some? {
        players := players - {playerId.value};
        outbox := outbox + [Emit(AllBut(socketId), "playerLeft", Left(playerId.value))];
      }
    }

    /** `createBot`: register the bot under `botId`, already speaking.  The
        record reads the clock twice: `changeTime` for `lastSpeakingChange`
        and `startTime` for `audioStartTime`. */
    method CreateBot(botId: string, randomX: real, randomY: real, changeTime: int, startTime: int)
      requires Valid()
      requires botId !in players
      requires !SocketInUse(BotSocket)
      requires 0.0 <= randomX < 1.0 && 0.0 <= randomY < 1.0
      modifies this
      ensures Valid()
      ensures board == old(board) && outbox == old(outbox)
      ensures players == old(players)[botId := Player(botId, BotSocket,
        SpawnCoord(randomX, WorldWidth), SpawnCoord(randomY, WorldHeight), BotColor, BotName, true, Some(BotImage),
        Some(BotInfo(BotSound, changeTime, 0, false, startTime)))]
    {
      players := players[botId := Player(botId, BotSocket,
        SpawnCoord(randomX, WorldWidth), SpawnCoord(randomY, WorldHeight), BotColor, BotName, true, Some(BotImage),
        Some(BotInfo(BotSound, changeTime, 0, false, startTime)))];
    }

    /** The timer `createBot` schedules: mark the bot speaking and tell
        everyone the audio start time.  The clock is read twice:
        `changeTime` for `lastSpeakingChange`, `startTime` for
        `audioStartTime`. */
    method BotStartSpeaking(botId: string, changeTime: int, startTime: int)
      requires Valid()
      requires botId in players && players[botId].bot.Some?
      modifies this
      ensures Valid()
      ensures board == old(board)
      ensures var o := old(players)[botId];
        players == old(players)[botId := o.(isSpeaking := true,
          bot := Some(o.bot.value.(lastSpeakingChange := changeTime, audioStartTime := startTime)))]
      ensures outbox == old(outbox) + [Emit(Everyone, "playerSpeaking", SpeakingStatus(botId, true, Some(startTime)))]
    {
      var p := players[botId];
      p := p.(isSpeaking := true,
        bot := Some(p.bot.value.(lastSpeakingChange := changeTime, audioStartTime := startTime)));
      UpdateKeepsWellKeyed(players, botId, p);
      players := players[botId := p];
      outbox := outbox + [Emit(Everyone, "playerSpeaking", SpeakingStatus(botId, true, Some(startTime)))];
    }

    /** `moveBotRandomly`: one bot tick.  The bot steps 5 along each axis
        and is clamped into the world; it is forced to be speaking (telling
        everyone when it was not); after more than `AudioRestartAfter` ms its
        audio timestamp is refreshed and re-announced; its position goes to
        everyone. */
    method MoveBotRandomly(botId: string, randomX: real, randomY: real, now: int)
      requires Valid()
      requires botId in players ==> players[botId].bot.Some?
      modifies this
      ensures Valid()
      ensures board == old(board)
      ensures botId !in old(players) ==> players == old(players) && outbox == old(outbox)
      ensures botId in old(players) ==>
        var o := old(players)[botId];
        var ob := o.bot.value;
        var duration := now - ob.lastSpeakingChange;
        var restart := !o.isSpeaking || duration > AudioRestartAfter;
        var tell := Emit(Everyone, "playerSpeaking", SpeakingStatus(botId, true, Some(now)));
        && botId in players
        && var p := players[botId];
        && players == old(players)[botId := p]
        && p.x == BotCoord(o.x, randomX, WorldWidth) && p.y == BotCoord(o.y, randomY, WorldHeight)
        && BotMargin <= p.x <= WorldWidth - BotMargin
        && BotMargin <= p.y <= WorldHeight - BotMargin
        && p.isSpeaking
        && p == o.(x := p.x, y := p.y, isSpeaking := true, bot := p.bot)
        && p.bot == Some(ob.(speakingDuration := duration,
             lastSpeakingChange := if restart then now else ob.lastSpeakingChange,
             audioStartTime := if restart then now else ob.audioStartTime))
        && outbox == old(outbox)
             + (if !o.isSpeaking then [tell] else [])
             + (if duration > AudioRestartAfter then [tell] else [])
             + [Emit(Everyone, "playerMoved", Moved(botId, p.x, p.y))]
    {
      if botId !in players {
        return;
      }
      var p := players[botId];
      var b := p.bot.value;
      p := p.(x := BotCoord(p.x, randomX, WorldWidth), y := BotCoord(p.y, randomY, WorldHeight));
      b := b.(speakingDuration := now - b.lastSpeakingChange);
      if !p.isSpeaking {
        p := p.(isSpeaking := true);
        b := b.(lastSpeakingChange := now, audioStartTime := now);
        outbox := outbox + [Emit(Everyone, "playerSpeaking", SpeakingStatus(botId, true, Some(b.audioStartTime)))];
      }
      if p.isSpeaking && b.speakingDuration > AudioRestartAfter {
        b := b.(lastSpeakingChange := now, audioStartTime := now);
        outbox := outbox + [Emit(Everyone, "playerSpeaking", SpeakingStatus(botId, true, Some(b.audioStartTime)))];
      }
      p := p.(bot := Some(b));
      UpdateKeepsWellKeyed(players, botId, p);
      players := players[botId := p];
      outbox := outbox + [Emit(Everyone, "playerMoved", Moved(botId, p.x, p.y))];
    }
  }
}
