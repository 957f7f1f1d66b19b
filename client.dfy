/** The browser client: its mirror of the server's player records, the local
    player's movement and the messages it sends about it, the proximity
    volume of every other player's audio, the mute and friend lists, player
    selection, and the region label. */
module Client {
  import opened Js
  import opened Mirror
  import opened Voice
  import Protocol
  import Lists
  import Regions
  import Movement

  /** The `move` message the client sends about itself. */
  datatype MoveMsg = MoveMsg(id: string, x: real, y: real, vx: real, vy: real)

  const MinimapSize: real := 200.0
  /** `handleMobileInteract` only picks players closer than this. */
  const InteractRange: real := 100.0

  /** A bot whose record names a (non-empty) sound file gets a sound. */
  predicate HasSound(e: Entity)
  {
    e.isBot && e.soundFile.Some? && e.soundFile.value != ""
  }

  /** `setupBotSound`: the element and the gain node start at full volume,
      the bot counts as speaking, and nothing has been heard playing yet. */
  const FreshBotSound: BotSound := BotSound(1.0, 1.0, true, false)

  /** The local player's record, once the client knows its id and the record. */
  function Me(players: map<string, Entity>, playerId: Option<string>): (r: Option<Entity>)
    ensures r.Some? <==> playerId.Some? && playerId.value in players
    ensures r.Some? ==> r.value == players[playerId.value]
  {
    if playerId.Some? && playerId.value in players then Some(players[playerId.value]) else None
  }

  /** Squared distance between two records. */
  function Gap(a: Entity, b: Entity): (s: real)
    ensures s >= 0.0
  {
    SqDist(a.x, a.y, b.x, b.y)
  }

  /** What `updateAudioVolume(k)` makes of `k`'s element `a`. */
  function PeerRefresh(players: map<string, Entity>, playerId: Option<string>, muted: seq<string>,
                       k: string, a: PeerAudio): (r: PeerAudio)
    ensures Me(players, playerId).None? || k !in players || k in muted ==> r == a
    ensures Me(players, playerId).Some? && k in players && k !in muted ==>
              r == a.(volume := Volume(Gap(Me(players, playerId).value, players[k])))
  {
    var me := Me(players, playerId);
    if me.Some? && k in players then PeerAudioAt(a, Gap(me.value, players[k]), k in muted) else a
  }

  /** What `updateBotSoundVolume(k)` makes of bot `k`'s sound `b`. */
  function BotRefresh(players: map<string, Entity>, playerId: Option<string>, muted: seq<string>,
                      k: string, b: BotSound): (r: BotSound)
    ensures Me(players, playerId).None? || k !in players ==> r == b
    ensures r == b.(gain := r.gain)
  {
    var me := Me(players, playerId);
    if me.Some? && k in players then BotSoundAt(b, Gap(me.value, players[k]), k in muted) else b
  }

  /** `shouldPlayBotSound`: both records are known, the unclamped volume is
      positive and the bot is not muted. */
  function ShouldPlay(players: map<string, Entity>, playerId: Option<string>, muted: seq<string>,
                      botId: string): (r: bool)
    ensures r <==> Me(players, playerId).Some? && botId in players && botId !in muted
                   && Gap(Me(players, playerId).value, players[botId]) < MaxVoiceDistance * MaxVoiceDistance
  {
    var me := Me(players, playerId);
    me.Some? && botId in players && Audible(Gap(me.value, players[botId])) && botId !in muted
  }

  /** What `handleBotSpeaking` makes of a bot's sound `b`, given whether the
      bot should be heard: the speaking flag is recorded; a bot that stops
      speaking is silenced, and one that speaks out of earshot is marked not
      playing. */
  function Announced(b: BotSound, isSpeaking: bool, shouldPlay: bool): (r: BotSound)
    ensures r.isPlaying == isSpeaking && r.elementVolume == b.elementVolume
    ensures !isSpeaking ==> r.gain == 0.0 && r.actuallyPlaying == b.actuallyPlaying
    ensures isSpeaking ==> r.gain == b.gain && (r.actuallyPlaying <==> b.actuallyPlaying && shouldPlay)
  {
    var b' := b.(isPlaying := isSpeaking);
    if !isSpeaking then b'.(gain := 0.0)
    else if shouldPlay then b'
    else b'.(actuallyPlaying := false)
  }

  /** The gain `updateBotSoundVolume` leaves agrees with `shouldPlayBotSound`:
      at least the distance volume when the bot should play, at most the ramp
      floor when it should not, and silence when it is muted. */
  lemma ShouldPlayAgreesWithGain(players: map<string, Entity>, playerId: Option<string>,
                                 muted: seq<string>, k: string, b: BotSound)
    requires Me(players, playerId).Some? && k in players
    ensures var r := BotRefresh(players, playerId, muted, k, b);
      && var v := Volume(Gap(Me(players, playerId).value, players[k]));
      && (ShouldPlay(players, playerId, muted, k) ==> r.gain >= v && r.gain > 0.0)
      && (!ShouldPlay(players, playerId, muted, k) ==> r.gain <= RampFloor)
      && (k in muted ==> r.gain == 0.0)
  {
    var sq := Gap(Me(players, playerId).value, players[k]);
    assert BotRefresh(players, playerId, muted, k, b) == BotSoundAt(b, sq, k in muted);
  }

  class GameClient {
    var playerId: Option<string>
    var players: map<string, Entity>
    var width: real
    var height: real
    var muted: seq<string>
    var friends: seq<string>
    var selected: Option<Entity>
    var currentRegion: Option<Regions.Region>
    /** The audio elements playing the other players' WebRTC streams. */
    var audio: map<string, PeerAudio>
    var botSounds: map<string, BotSound>
    var board: seq<Protocol.Blob>
    /** Every `move` message sent so far, oldest first. */
    var sent: seq<MoveMsg>

    /** Neither id list ever holds an id twice. */
    ghost predicate Valid()
      reads this
    {
      Lists.NoDup(muted) && Lists.NoDup(friends)
    }

    constructor ()
      ensures Valid()
      ensures playerId.None? && players == map[] && width == 10000.0 && height == 10000.0
      ensures muted == [] && friends == [] && selected.None? && currentRegion.None?
      ensures audio == map[] && botSounds == map[] && board == [] && sent == []
    {
      playerId := None;
      players := map[];
      width, height := 10000.0, 10000.0;
      muted, friends := [], [];
      selected, currentRegion := None, None;
      audio, botSounds := map[], map[];
      board, sent := [], [];
    }

    // -------------------------------------------------------------------
    // Volume updates

    /** `updateAudioVolume(peerId)`. */
    method UpdateAudioVolume(peerId: string)
      modifies this`audio
      ensures peerId in old(audio) ==>
        audio == old(audio)[peerId := PeerRefresh(players, playerId, muted, peerId, old(audio)[peerId])]
      ensures peerId !in old(audio) ==> audio == old(audio)
    {
      var me := Me(players, playerId);
      if me.None? || peerId !in players || peerId !in audio {
        return;
      }
      var volume := Volume(Gap(me.value, players[peerId]));
      if peerId !in muted {
        audio := audio[peerId := audio[peerId].(volume := volume)];
      }
    }

    /** `updateBotSoundVolume(botId)`, without the asynchronous start of
        playback it requests when the bot comes into earshot. */
    method UpdateBotSoundVolume(botId: string)
      modifies this`botSounds
      ensures botId in old(botSounds) ==>
        botSounds == old(botSounds)[botId := BotRefresh(players, playerId, muted, botId, old(botSounds)[botId])]
      ensures botId !in old(botSounds) ==> botSounds == old(botSounds)
    {
      var me := Me(players, playerId);
      if me.None? || botId !in players || botId !in botSounds {
        return;
      }
      var volume := Volume(Gap(me.value, players[botId]));
      var shouldBeAudible := volume > 0.0 && botId !in muted;
      var b := botSounds[botId];
      if botId !in muted {
        b := b.(gain := if RampFloor < volume then volume else RampFloor);
      } else {
        b := b.(gain := 0.0);
      }
      if !shouldBeAudible && b.actuallyPlaying {
        b := b.(gain := 0.0);
      }
      botSounds := botSounds[botId := b];
    }

    /** `handleBotSpeaking`, without the playback it starts: a bot out of
        earshot is marked not playing, and a bot that stops speaking is
        silenced. */
    method HandleBotSpeaking(botId: string, isSpeaking: bool)
      modifies this`botSounds
      ensures botId !in old(botSounds) ==> botSounds == old(botSounds)
      ensures botId in old(botSounds) ==>
        botSounds == old(botSounds)[botId := Announced(old(botSounds)[botId], isSpeaking,
                                                         ShouldPlay(players, playerId, muted, botId))]
    {
      if botId !in botSounds {
        return;
      }
      var b := botSounds[botId].(isPlaying := isSpeaking);
      if isSpeaking {
        if !ShouldPlay(players, playerId, muted, botId) {
          b := b.(actuallyPlaying := false);
        }
      } else {
        b := b.(gain := 0.0);
      }
      botSounds := botSounds[botId := b];
    }

    /** The `ontrack` handler: the remote stream gets a fresh element at full
        volume, which is then set for the distance. */
    method OnRemoteTrack(peerId: string)
      modifies this`audio
      ensures audio == old(audio)[peerId := PeerRefresh(players, playerId, muted, peerId, PeerAudio(1.0, false))]
    {
      audio := audio[peerId := PeerAudio(1.0, false)];
      UpdateAudioVolume(peerId);
    }

    // -------------------------------------------------------------------
    // Mirror handlers

    /** `init`: adopt the id, the roster (defaulting every velocity to 0) and
        the world size, then give every bot with a sound file a fresh sound. */
    method OnInit(you: string, roster: map<string, Protocol.Player>, w: real, h: real)
      modifies this`playerId, this`players, this`width, this`height, this`botSounds
      ensures playerId == Some(you) && width == w && height == h
      ensures players.Keys == roster.Keys
      ensures forall k :: k in players ==> players[k] == FromWire(roster[k])
      ensures forall k :: k in players ==> players[k].vx == 0.0 && players[k].vy == 0.0
      ensures forall k :: k in botSounds <==> k in old(botSounds) || (k in players && HasSound(players[k]))
      ensures forall k :: k in botSounds ==>
        botSounds[k] == if k in players && HasSound(players[k]) then FreshBotSound else old(botSounds)[k]
    {
      playerId := Some(you);
      width, height := w, h;
      var conv: map<string, Entity> := map[];
      var remaining := roster.Keys;
      while remaining != {}
        invariant remaining <= roster.Keys
        invariant conv.Keys == roster.Keys - remaining
        invariant forall k :: k in conv ==> conv[k] == FromWire(roster[k])
        decreases remaining
      {
        var k :| k in remaining;
        conv := conv[k := FromWire(roster[k])];
        remaining := remaining - {k};
      }
      players := conv;
      // setupBotSounds
      var bots := botSounds;
      var todo := players.Keys;
      while todo != {}
        invariant todo <= players.Keys
        invariant forall k :: k in bots <==>
          k in old(botSounds) || (k in players && k !in todo && HasSound(players[k]))
        invariant forall k :: k in bots ==>
          bots[k] == if k in players && k !in todo && HasSound(players[k]) then FreshBotSound else old(botSounds)[k]
        decreases todo
      {
        var k :| k in todo;
        if HasSound(players[k]) {
          bots := bots[k := FreshBotSound];
        }
        todo := todo - {k};
      }
      botSounds := bots;
    }

    /** `playerJoined`: store the record with zero velocity, and give a bot
        with a sound file a fresh sound. */
    method OnPlayerJoined(p: Protocol.Player)
      modifies this`players, this`botSounds
      ensures players == old(players)[p.id := FromWire(p)]
      ensures players[p.id].vx == 0.0 && players[p.id].vy == 0.0
      ensures botSounds == if HasSound(FromWire(p)) then old(botSounds)[p.id := FreshBotSound] else old(botSounds)
    {
      var e := FromWire(p);
      players := players[p.id := e];
      if HasSound(e) {
        botSounds := botSounds[p.id := FreshBotSound];
      }
    }

    /** `playerLeft`: forget the record, the peer's audio element and the
        bot's sound. */
    method OnPlayerLeft(id: string)
      modifies this`players, this`audio, this`botSounds
      ensures players == old(players) - {id} && id !in players
      ensures audio == old(audio) - {id}
      ensures botSounds == old(botSounds) - {id}
    {
      players := players - {id};
      audio := audio - {id};
      if id in botSounds {
        botSounds := botSounds - {id};
      }
    }

    /** `playerMoved`: a known player takes the new position, and the
        velocity components that were sent; then its volume is refreshed.
        Unknown ids are ignored. */
    method OnPlayerMoved(id: string, x: real, y: real, vx: Option<real>, vy: Option<real>)
      modifies this`players, this`audio, this`botSounds
      ensures id !in old(players) ==>
        players == old(players) && audio == old(audio) && botSounds == old(botSounds)
      ensures id in old(players) ==>
        var o := old(players)[id];
        && players == old(players)[id := o.(x := x, y := y,
                                            vx := if vx.Some? then vx.value else o.vx,
                                            vy := if vy.Some? then vy.value else o.vy)]
        && (o.isBot ==> audio == old(audio))
        && (o.isBot && id in old(botSounds) ==>
              botSounds == old(botSounds)[id := BotRefresh(players, playerId, muted, id, old(botSounds)[id])])
        && (!o.isBot ==> botSounds == old(botSounds))
        && (!o.isBot && id in old(audio) ==>
              audio == old(audio)[id := PeerRefresh(players, playerId, muted, id, old(audio)[id])])
        && (id !in old(botSounds) ==> botSounds == old(botSounds))
        && (id !in old(audio) ==> audio == old(audio))
    {
      if id !in players {
        return;
      }
      var p := players[id].(x := x, y := y);
      if vx.Some? {
        p := p.(vx := vx.value);
      }
      if vy.Some? {
        p := p.(vy := vy.value);
      }
      players := players[id := p];
      if p.isBot {
        UpdateBotSoundVolume(id);
      } else {
        UpdateAudioVolume(id);
      }
    }

    /** `playerSpeaking`: a known player takes the flag; for a bot a non-zero
        timestamp becomes its audio start time and the sound is told. */
    method OnPlayerSpeaking(id: string, isSpeaking: bool, timestamp: Option<int>)
      modifies this`players, this`botSounds
      ensures id !in old(players) ==> players == old(players) && botSounds == old(botSounds)
      ensures id in old(players) ==>
        var o := old(players)[id];
        var stamp := o.isBot && timestamp.Some? && timestamp.value != 0;
        && players == old(players)[id := o.(isSpeaking := isSpeaking,
                                            audioStartTime := if stamp then timestamp else o.audioStartTime)]
        && (!o.isBot ==> botSounds == old(botSounds))
        && (o.isBot && id !in old(botSounds) ==> botSounds == old(botSounds))
        && (o.isBot && id in old(botSounds) ==>
              botSounds == old(botSounds)[id := Announced(old(botSounds)[id], isSpeaking,
                                                            ShouldPlay(players, playerId, muted, id))])
    {
      if id !in players {
        return;
      }
      var p := players[id].(isSpeaking := isSpeaking);
      if p.isBot {
        if timestamp.Some? && timestamp.value != 0 {
          p := p.(audioStartTime := timestamp);
        }
        players := players[id := p];
        HandleBotSpeaking(id, isSpeaking);
      } else {
        players := players[id := p];
      }
    }

    /** `playerCustomized`: on a known player a truthy name or colour is
        taken, and a defined image replaces the old one (null clears it) and
        drops the cached picture. Unknown ids are ignored. */
    method OnPlayerCustomized(id: string, name: Field, color: Field, customImage: Field)
      modifies this`players
      ensures id !in old(players) ==> players == old(players)
      ensures id in old(players) ==>
        var o := old(players)[id];
        && id in players
        && players == old(players)[id := players[id]]
        && players[id] == o.(name := players[id].name, color := players[id].color,
                             customImage := players[id].customImage, imageCached := players[id].imageCached)
        && players[id].name == (if Truthy(name) then name.s else o.name)
        && players[id].color == (if Truthy(color) then color.s else o.color)
        && players[id].customImage == (if customImage.Undefined? then o.customImage else Defined(customImage))
        && players[id].imageCached == (customImage.Undefined? && o.imageCached)
    {
      if id !in players {
        return;
      }
      var p := players[id];
      if Truthy(name) {
        p := p.(name := name.s);
      }
      if Truthy(color) {
        p := p.(color := color.s);
      }
      if !customImage.Undefined? {
        p := p.(customImage := Defined(customImage));
        if p.imageCached {
          p := p.(imageCached := false);
        }
      }
      players := players[id := p];
    }

    /** `playerDisconnect`: forget the record of a known player. */
    method OnPlayerDisconnect(id: string)
      modifies this`players
      ensures players == old(players) - {id} && id !in players
    {
      if id in players {
        players := players - {id};
      }
    }

    /** `whiteboard-draw`: the client's copy has no cap. */
    method OnWhiteboardDraw(data: Protocol.Blob)
      modifies this`board
      ensures board == old(board) + [data]
    {
      board := board + [data];
    }

    method OnWhiteboardClear()
      modifies this`board
      ensures board == []
    {
      board := [];
    }

    method OnWhiteboardInit(log: seq<Protocol.Blob>)
      modifies this`board
      ensures board == log
    {
      board := log;
    }

    // -------------------------------------------------------------------
    // The local player

    /** One `handlePlayerMovement` frame.  `dist` is the distance to the
        minimap target, if one is set.  After the step a `move` message is
        sent when the player moved on purpose or is still drifting, and then
        every other player's volume is refreshed. */
    method HandlePlayerMovement(input: Movement.Input, dist: real)
      requires Me(players, playerId).Some? && Me(players, playerId).value.target.Some? ==>
        dist >= 0.0 && dist * dist == Movement.TargetSqDist(Me(players, playerId).value)
      modifies this`players, this`sent, this`audio, this`botSounds
      ensures Me(old(players), playerId).None? ==>
        players == old(players) && sent == old(sent) && audio == old(audio) && botSounds == old(botSounds)
      ensures Me(old(players), playerId).Some? ==>
        var pid := playerId.value;
        var f := Movement.Step(old(players)[pid], input, width, height, dist);
        var q := f.player;
        var send := f.moved || Abs(q.vx) > 0.01 || Abs(q.vy) > 0.01;
        // the local record becomes the frame's result, and nothing else in players changes
        && players == old(players)[pid := q]
        // one message carrying the new state exactly when the player moved or drifts
        && sent == old(sent) + (if send then [MoveMsg(pid, q.x, q.y, q.vx, q.vy)] else [])
        // after a message every other entry's volume has been refreshed
        && (send ==>
              && audio.Keys == old(audio).Keys && botSounds.Keys == old(botSounds).Keys
              && (forall k :: k in audio ==>
                    audio[k] == if k != pid && k in players && !players[k].isBot
                                then PeerRefresh(players, playerId, muted, k, old(audio)[k]) else old(audio)[k])
              && (forall k :: k in botSounds ==>
                    botSounds[k] == if k != pid && k in players && players[k].isBot
                                    then BotRefresh(players, playerId, muted, k, old(botSounds)[k])
                                    else old(botSounds)[k]))
        && (!send ==> audio == old(audio) && botSounds == old(botSounds))
    {
      var me := Me(players, playerId);
      if me.None? {
        return;
      }
      var pid := playerId.value;
      var f := Movement.Step(me.value, input, width, height, dist);
      var q := f.player;
      players := players[pid := q];
      if f.moved || Abs(q.vx) > 0.01 || Abs(q.vy) > 0.01 {
        sent := sent + [MoveMsg(pid, q.x, q.y, q.vx, q.vy)];
        RefreshOthers();
      }
    }

    /** The loop over `players` at the end of `handlePlayerMovement`. */
    method RefreshOthers()
      requires playerId.Some?
      modifies this`audio, this`botSounds
      ensures audio.Keys == old(audio).Keys && botSounds.Keys == old(botSounds).Keys
      ensures forall k :: k in audio ==>
        audio[k] == if k != playerId.value && k in players && !players[k].isBot
                    then PeerRefresh(players, playerId, muted, k, old(audio)[k]) else old(audio)[k]
      ensures forall k :: k in botSounds ==>
        botSounds[k] == if k != playerId.value && k in players && players[k].isBot
                        then BotRefresh(players, playerId, muted, k, old(botSounds)[k]) else old(botSounds)[k]
    {
      var pid := playerId.value;
      var todo := players.Keys;
      while todo != {}
        invariant todo <= players.Keys
        invariant audio.Keys == old(audio).Keys && botSounds.Keys == old(botSounds).Keys
        invariant forall k :: k in audio ==>
          audio[k] == if k != pid && k in players && k !in todo && !players[k].isBot
                      then PeerRefresh(players, playerId, muted, k, old(audio)[k]) else old(audio)[k]
        invariant forall k :: k in botSounds ==>
          botSounds[k] == if k != pid && k in players && k !in todo && players[k].isBot
                          then BotRefresh(players, playerId, muted, k, old(botSounds)[k]) else old(botSounds)[k]
        decreases todo
      {
        var k :| k in todo;
        if k != pid {
          if players[k].isBot {
            UpdateBotSoundVolume(k);
          } else {
            UpdateAudioVolume(k);
          }
        }
        todo := todo - {k};
      }
    }

    /** A minimap coordinate scaled to the world along an axis of length
        `size`. */
    static function ToWorld(click: real, size: real): real
    {
      click / MinimapSize * size
    }

    /** `length > PLAYER_RADIUS * 2` for the click at (`gx`, `gy`), compared
        squared: both sides are non-negative. */
    static predicate FarEnough(gx: real, gy: real, p: Entity)
    {
      SqDist(gx, gy, p.x, p.y) > (Movement.PlayerRadius * 2.0) * (Movement.PlayerRadius * 2.0)
    }

    /** `handleMinimapClick` at (`clickX`, `clickY`) on the 200-pixel minimap:
        the point is scaled to the world and becomes the target only when it
        is more than two player radii away. */
    method HandleMinimapClick(clickX: real, clickY: real)
      modifies this`players
      ensures Me(old(players), playerId).None? ==> players == old(players)
      ensures Me(old(players), playerId).Some? ==>
        var pid := playerId.value;
        var o := old(players)[pid];
        var gx := ToWorld(clickX, width);
        var gy := ToWorld(clickY, height);
        var far := FarEnough(gx, gy, o);
        && (far ==> players == old(players)[pid := o.(target := Some(Point(gx, gy)))])
        && (!far ==> players == old(players))
    {
      var worldX := ToWorld(clickX, width);
      var worldY := ToWorld(clickY, height);
      var me := Me(players, playerId);
      if me.Some? && FarEnough(worldX, worldY, me.value) {
        players := players[playerId.value := me.value.(target := Some(Point(worldX, worldY)))];
      }
    }

    // -------------------------------------------------------------------
    // Selection, mute and friends

    /** The loop of `handleMobileInteract`: the other player nearest to the
        local one, among those closer than 100. */
    method ClosestWithin() returns (c: Option<string>)
      ensures Me(players, playerId).None? ==> c.None?
      ensures c.Some? ==> var me := Me(players, playerId).value;
        && c.value in players && Some(c.value) != playerId
        && Gap(players[c.value], me) < InteractRange * InteractRange
        && forall k :: k in players && Some(k) != playerId ==> Gap(players[c.value], me) <= Gap(players[k], me)
      ensures c.None? && Me(players, playerId).Some? ==> var me := Me(players, playerId).value;
        forall k :: k in players && Some(k) != playerId ==> Gap(players[k], me) >= InteractRange * InteractRange
    {
      var me := Me(players, playerId);
      c := None;
      if me.None? {
        return;
      }
      var todo := players.Keys;
      while todo != {}
        invariant todo <= players.Keys
        invariant c.Some? ==>
          c.value in players && c.value !in todo && Some(c.value) != playerId
          && Gap(players[c.value], me.value) < InteractRange * InteractRange
        invariant forall k :: k in players && k !in todo && Some(k) != playerId ==>
          if c.Some? then Gap(players[c.value], me.value) <= Gap(players[k], me.value)
          else Gap(players[k], me.value) >= InteractRange * InteractRange
        decreases todo
      {
        var k :| k in todo;
        if Some(k) != playerId {
          var sq := Gap(players[k], me.value);
          if (c.None? || sq < Gap(players[c.value], me.value)) && sq < InteractRange * InteractRange {
            c := Some(k);
          }
        }
        todo := todo - {k};
      }
    }

    /** `handleMobileInteract`: select the nearest other player within reach,
        if any. */
    method HandleMobileInteract()
      modifies this`selected
      ensures Me(players, playerId).None? ==> selected == old(selected)
      ensures Me(players, playerId).Some? ==> var me := Me(players, playerId).value;
        && ((forall k :: k in players && Some(k) != playerId ==>
               Gap(players[k], me) >= InteractRange * InteractRange) ==> selected == old(selected))
        && ((exists k :: k in players && Some(k) != playerId && Gap(players[k], me) < InteractRange * InteractRange) ==>
              exists c :: c in players && Some(c) != playerId && selected == Some(players[c])
                && Gap(players[c], me) < InteractRange * InteractRange
                && forall k :: k in players && Some(k) != playerId ==> Gap(players[c], me) <= Gap(players[k], me))
    {
      var c := ClosestWithin();
      if c.Some? {
        selected := Some(players[c.value]);
      }
    }

    /** The loop of `handleCanvasClick` at world point (`mx`, `my`): another
        player whose disc of radius `PlayerRadius` holds the point. */
    method PlayerAt(mx: real, my: real) returns (hit: Option<string>)
      ensures hit.Some? ==>
        hit.value in players && Some(hit.value) != playerId
        && SqDist(mx, my, players[hit.value].x, players[hit.value].y) <= Movement.PlayerRadius * Movement.PlayerRadius
      ensures hit.None? ==> forall k :: k in players && Some(k) != playerId ==>
        SqDist(mx, my, players[k].x, players[k].y) > Movement.PlayerRadius * Movement.PlayerRadius
    {
      var todo := players.Keys;
      while todo != {}
        invariant todo <= players.Keys
        invariant forall k :: k in players && k !in todo && Some(k) != playerId ==>
          SqDist(mx, my, players[k].x, players[k].y) > Movement.PlayerRadius * Movement.PlayerRadius
        decreases todo
      {
        var k :| k in todo;
        if Some(k) != playerId
           && SqDist(mx, my, players[k].x, players[k].y) <= Movement.PlayerRadius * Movement.PlayerRadius {
          return Some(k);
        }
        todo := todo - {k};
      }
      return None;
    }

    /** `handleCanvasClick`: select the player under the pointer, or clear the
        selection when there is none. */
    method HandleCanvasClick(mx: real, my: real)
      modifies this`selected
      ensures selected.Some? ==>
        exists k :: k in players && Some(k) != playerId && selected == Some(players[k])
                    && SqDist(mx, my, players[k].x, players[k].y) <= Movement.PlayerRadius * Movement.PlayerRadius
      ensures selected.None? ==> forall k :: k in players && Some(k) != playerId ==>
        SqDist(mx, my, players[k].x, players[k].y) > Movement.PlayerRadius * Movement.PlayerRadius
    {
      var hit := PlayerAt(mx, my);
      if hit.Some? {
        selected := Some(players[hit.value]);
      } else {
        selected := None;
      }
    }

    /** `muteSelectedPlayer`: toggle the selected id in the mute list.  Muting
        a bot zeroes its element's volume and muting a peer mutes its element;
        unmuting refreshes the bot's gain, or unmutes the peer's element and
        refreshes its volume. */
    method MuteSelectedPlayer()
      requires Valid()
      modifies this`muted, this`audio, this`botSounds
      ensures Valid()
      ensures selected.None? ==> muted == old(muted) && audio == old(audio) && botSounds == old(botSounds)
      ensures selected.Some? ==> var id := selected.value.id;
        && muted == Lists.Toggle(old(muted), id)
        && (id in muted <==> id !in old(muted))
        && Lists.Without(muted, id) == Lists.Without(old(muted), id)
        && (selected.value.isBot ==> audio == old(audio))
        && (!selected.value.isBot ==> botSounds == old(botSounds))
        && (id !in old(muted) && selected.value.isBot && id in old(botSounds) ==>
              botSounds == old(botSounds)[id := old(botSounds)[id].(elementVolume := 0.0)])
        && (id !in old(muted) && !selected.value.isBot && id in old(audio) ==>
              audio == old(audio)[id := old(audio)[id].(muted := true)])
        && (id in old(muted) && selected.value.isBot && id in old(botSounds) ==>
              botSounds == old(botSounds)[id := BotRefresh(players, playerId, muted, id, old(botSounds)[id])])
        && (id in old(muted) && !selected.value.isBot && id in old(audio) ==>
              audio == old(audio)[id := PeerRefresh(players, playerId, muted, id, old(audio)[id].(muted := false))])
        && (selected.value.isBot && id !in old(botSounds) ==> botSounds == old(botSounds))
        && (!selected.value.isBot && id !in old(audio) ==> audio == old(audio))
    {
      if selected.None? {
        return;
      }
      var sel := selected.value;
      Lists.ToggleSpec(muted, sel.id);
      var index := Lists.IndexOf(muted, sel.id);
      if index == -1 {
        muted := muted + [sel.id];
        Silence(sel);
      } else {
        muted := Lists.RemoveAt(muted, index);
        Restore(sel);
      }
    }

    /** The muting half of `muteSelectedPlayer`, on the selected record. */
    method Silence(sel: Entity)
      modifies this`audio, this`botSounds
      ensures sel.isBot ==> audio == old(audio)
      ensures !sel.isBot ==> botSounds == old(botSounds)
      ensures sel.isBot && sel.id in old(botSounds) ==>
        botSounds == old(botSounds)[sel.id := old(botSounds)[sel.id].(elementVolume := 0.0)]
      ensures !sel.isBot && sel.id in old(audio) ==>
        audio == old(audio)[sel.id := old(audio)[sel.id].(muted := true)]
      ensures sel.id !in old(botSounds) ==> botSounds == old(botSounds)
      ensures sel.id !in old(audio) ==> audio == old(audio)
    {
      if sel.isBot {
        if sel.id in botSounds {
          botSounds := botSounds[sel.id := botSounds[sel.id].(elementVolume := 0.0)];
        }
      } else if sel.id in audio {
        audio := audio[sel.id := audio[sel.id].(muted := true)];
      }
    }

    /** The unmuting half of `muteSelectedPlayer`, on the selected record. */
    method Restore(sel: Entity)
      modifies this`audio, this`botSounds
      ensures sel.isBot ==> audio == old(audio)
      ensures !sel.isBot ==> botSounds == old(botSounds)
      ensures sel.isBot && sel.id in old(botSounds) ==>
        botSounds == old(botSounds)[sel.id := BotRefresh(players, playerId, muted, sel.id, old(botSounds)[sel.id])]
      ensures !sel.isBot && sel.id in old(audio) ==>
        audio == old(audio)[sel.id := PeerRefresh(players, playerId, muted, sel.id, old(audio)[sel.id].(muted := false))]
      ensures sel.id !in old(botSounds) ==> botSounds == old(botSounds)
      ensures sel.id !in old(audio) ==> audio == old(audio)
    {
      if sel.isBot {
        if sel.id in botSounds {
          UpdateBotSoundVolume(sel.id);
        }
      } else if sel.id in audio {
        audio := audio[sel.id := audio[sel.id].(muted := false)];
        UpdateAudioVolume(sel.id);
      }
    }

    /** `addSelectedPlayerAsFriend`: toggle the selected id in the friend
        list. */
    method AddSelectedPlayerAsFriend()
      requires Valid()
      modifies this`friends
      ensures Valid()
      ensures selected.None? ==> friends == old(friends)
      ensures selected.Some? ==> var id := selected.value.id;
        && friends == Lists.Toggle(old(friends), id)
        && (id in friends <==> id !in old(friends))
        && Lists.Without(friends, id) == Lists.Without(old(friends), id)
    {
      if selected.None? {
        return;
      }
      var id := selected.value.id;
      Lists.ToggleSpec(friends, id);
      if id !in friends {
        friends := friends + [id];
      } else {
        var index := Lists.IndexOf(friends, id);
        if index != -1 {
          friends := Lists.RemoveAt(friends, index);
        }
      }
    }

    /** The friends panel's Remove button for `friendId`: `splice` it out
        of the friend list when it is there. */
    method RemoveFriend(friendId: string)
      requires Valid()
      modifies this`friends
      ensures Valid()
      ensures friendId !in friends
      ensures Lists.Without(friends, friendId) == Lists.Without(old(friends), friendId)
      ensures friendId in old(friends) ==> |friends| == |old(friends)| - 1
      ensures friendId !in old(friends) ==> friends == old(friends)
    {
      var index := Lists.IndexOf(friends, friendId);
      if index != -1 {
        Lists.RemoveSpec(friends, index);
        friends := Lists.RemoveAt(friends, index);
      }
    }

    // -------------------------------------------------------------------
    // Regions

    /** `checkPlayerRegion`: the region holding the local player becomes the
        current one when its name differs from the current one's. */
    method CheckPlayerRegion()
      modifies this`currentRegion
      ensures Me(players, playerId).None? ==> currentRegion == old(currentRegion)
      ensures currentRegion == old(currentRegion) || currentRegion.Some?
      ensures currentRegion.Some? && currentRegion != old(currentRegion) ==>
        var me := Me(players, playerId).value;
        && currentRegion.value in Regions.MapRegions
        && Regions.Contains(currentRegion.value, me.x, me.y)
        && (old(currentRegion).None? || old(currentRegion).value.name != currentRegion.value.name)
      ensures Me(players, playerId).Some? ==> var me := Me(players, playerId).value;
        0.0 <= me.x < Regions.Side && 0.0 <= me.y < Regions.Side ==>
          currentRegion.Some? && currentRegion.value.name ==
            Regions.MapRegions[3 * Regions.Band(me.y) + Regions.Band(me.x)].name
    {
      var me := Me(players, playerId);
      if me.None? {
        return;
      }
      var found := Regions.RegionAt(me.value.x, me.value.y);
      if found.Some? {
        if currentRegion.None? || currentRegion.value.name != found.value.name {
          currentRegion := found;
        }
      }
    }
  }
}
