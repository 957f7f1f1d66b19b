# Proximity chat world — a Dafny model

This project models a small multiplayer 2-D world with proximity voice chat and
proves properties of the model. A Node.js server keeps the authoritative
`players` registry and a shared whiteboard log. It handles socket events
(connect, move, speaking, customize, WebRTC signalling relay, whiteboard,
emote, disconnect) and moves a single looping-audio bot around the world.
Each browser client mirrors the registry and moves its own player with
acceleration, a velocity cap, friction and world-bounds clamping. It sets
every other player's audio volume from distance with a quadratic falloff
that a mute overrides. It also keeps mute and friend lists, selects nearby
players and labels the region the player is in.

Modules:

- `Js`: JavaScript semantics the two sides rely on.
  - `Option`.
  - The three states of a JSON field (`undefined`, `null`, string) and their truthiness.
  - `Math.max(lo, Math.min(hi, v))`.
  - `Number.prototype.toString(radix)` on naturals.
- `Protocol`: the player record, who an emit reaches (`io.emit`, `socket.broadcast.emit`, `socket.emit`/`io.to(id).emit`) and each event's payload.
- `Whiteboard`: the server's log, capped at 10000 strokes (oldest dropped first).
- `Server`: class `GameServer`. Its fields are `players` (a `map` keyed by player id), `board` (the whiteboard log) and `outbox` (every emit, in order, with its recipients). Each socket handler is a method.
- `Mirror`: the client's copy of a player record.
- `Movement`: the per-frame movement step of the local player.
- `Voice`: the distance-to-volume rule and its effect on a peer's audio element and on the bot's sound.
- `Lists`: `indexOf`, `push` and `splice` on the mute and friend lists.
- `Regions`: the nine named map regions and the lookup over them.
- `Client`: class `GameClient`. Its fields are the local player id, the mirrored `players` map, the world size, the mute and friend lists, the selected player, the current region, the peers' audio elements, the bot sounds, the client's whiteboard copy, and every `move` message sent. The socket handlers and the local rules are its methods.

Inputs from the environment become method parameters:

- `Math.random()` values (in [0, 1)), `Date.now()` readings, fresh UUIDs and socket ids;
- the keys and joystick state of a frame;
- the pointer position of a click;
- the square root of the squared distance to a minimap target.

Coordinates are exact `real`s. Distances are compared squared. On non-negative numbers `d < D` holds exactly when `d² < D²`, and `(√s / D)²` equals `s / D²`.

JavaScript objects iterated with `for ... in` become Dafny maps, which have no key order. Loops therefore take the keys in an arbitrary order.

- `findPlayerIdBySocketId` does not depend on that order, because no two records share a socket id (`GameServer.Valid`).
- A client lookup that stops at the first match may return any of the matches.
- A running-minimum lookup may return any of the tied nearest players.

Behaviour worth knowing, modelled as written:

- While a minimap target is set, `handlePlayerMovement` does not read the keys or the joystick at all. The lines that clear the target on manual input sit in the branch taken only when no target is set. A minimap target is therefore dropped only when the player comes within `MOVEMENT_SPEED` of it (`Movement.Steer`).
- `move` stores the reported position without clamping.
- The client's whiteboard copy has no cap.
- Muting a bot sets its audio element's volume to 0, and unmuting does not restore it.

## Model

| member | source | states |
|---|---|---|
| Js.Clamp | server/index.js:84-85 | `Math.max(lo, Math.min(hi, v))` lies in [lo, hi] when lo ≤ hi, is v inside the range, lo below it and hi above it |
| Js.Defined | server/index.js:207 | a present `customImage` field is stored as given: `null` clears the image (None), a string replaces it |
| Js.ToRadix | server/index.js:148 | `toString(radix)` gives at least one digit, every character a digit of the base, a single digit below the base, and no leading zero: it starts with `0` only for the number 0, and then it is just `0` |
| Js.CanonicalDigits | server/index.js:148-149 | a digit string of the base with no leading zero is exactly the one `toString(radix)` writes for its value, so the contracts of the colour and the default name fix those strings completely |
| Js.RadixRoundTrip | server/index.js:148-149 | reading back the digits `toString(radix)` wrote gives the number again |
| Js.RadixInjective | server/index.js:148-149 | distinct numbers give distinct digit strings, so distinct counts give distinct default names |
| Whiteboard.Last | server/index.js:283 | `slice(length - 10000)` keeps the last n elements, or all when there are fewer |
| Whiteboard.Push | server/index.js:279-284 | after a draw the log has min(10000, n + 1) strokes, is a suffix of old log ++ [stroke], and ends with the new stroke |
| Whiteboard.LastOfLast | server/index.js:282-284 | trimming to the cap after every append equals trimming once at the end |
| Whiteboard.ReplayKeepsMostRecent | server/index.js:277-288 | after any series of draws on a log within the cap, the log is exactly the last 10000 strokes of old log ++ draws, in order |
| Whiteboard.ReplayOverflow | server/index.js:279-284 | after 10000 or more draws the log holds exactly the latest 10000 draws |
| Server.SpawnCoord | server/index.js:138-139 | `Math.floor(random * size)` is a whole number in [0, size) for the axis's size (`worldSize.width` for x, `worldSize.height` for y, both 10000) |
| Server.RandomColor | server/index.js:148 | the colour is `#` followed by unpadded lower-case hex digits whose value is below 16777215 |
| Server.DefaultName | server/index.js:149 | the default name is `Player ` followed by decimal digits, with no leading zero, whose value is the old player count plus one |
| Server.BotCoord | server/index.js:77-85 | a bot coordinate stays in [30, size - 30] for its axis's size (so [30, 9970]); away from the walls it moves by exactly +5 or -5 as `random > 0.5` says; from inside the range it moves by at most 5 |
| Server.UpdateKeepsWellKeyed | server/index.js:170-171 | rewriting a record in place without changing its id or socket id keeps every record under its own id with distinct socket ids |
| Server.GameServer.constructor | server/index.js:22-25 | the server starts with no players, an empty whiteboard and nothing sent |
| Server.GameServer.OwnerOfUnique | server/index.js:324-331 | the record carrying a socket id is the only one with that socket id |
| Server.GameServer.FindPlayerIdBySocketId | server/index.js:324-331 | the scan returns an id whose record carries the socket id, and null exactly when no record does |
| Server.GameServer.PlayerWithId | server/index.js:238 | `Object.values(players).find(p => p.id === to)` finds a record exactly when one has that id, and then it is the record stored under `to` |
| Server.GameServer.Connect | server/index.js:134-165 | a connection adds exactly one record: the socket's id, a spawn position, a random colour, the default name, not speaking, no image. The socket gets `init` (its id, the registry, the world size) and then `whiteboard-init`. Every other socket gets `playerJoined` |
| Server.GameServer.Move | server/index.js:168-180 | a known id takes x and y verbatim with every other field unchanged, and `playerMoved {id, x, y}` goes to every other socket; an id with no own record changes nothing and sends nothing |
| Server.GameServer.Speaking | server/index.js:183-193 | a known id takes the flag and `playerSpeaking {id, isSpeaking}` goes to every other socket; an id with no own record changes nothing and sends nothing |
| Server.GameServer.Customize | server/index.js:196-233 | a known id takes a truthy name and a truthy colour, and a present image (null clears it), with nothing else changed. The same `playerCustomized` payload goes to the other sockets and back to the sender. An id with no own record changes nothing |
| Server.GameServer.Relay | server/index.js:236-274 | an offer, answer or ICE candidate goes only to the target player's socket, unchanged and tagged with the sender's player id (null if it has none). An unregistered target sends nothing. Nothing is stored |
| Server.GameServer.WhiteboardDraw | server/index.js:277-288 | the log becomes the capped push of the stroke, and the stroke goes to every other socket |
| Server.GameServer.WhiteboardClear | server/index.js:291-294 | the log becomes empty and `whiteboard-clear` goes to every other socket |
| Server.GameServer.PlayerEmote | server/index.js:297-304 | the emote goes to every other socket as received and nothing is stored |
| Server.GameServer.Disconnect | server/index.js:307-320 | exactly the record bound to the socket is removed, with every other record unchanged, and `playerLeft` goes once to the others. Afterwards no record carries the socket id, so a second disconnect changes nothing and sends nothing |
| Server.GameServer.CreateBot | server/index.js:28-48 | the bot record is added under its id: socket id `bot`, spawn position, fixed colour, name, image and sound file, already speaking, duration 0, `lastSpeakingChange` from the first clock reading and `audioStartTime` from the second |
| Server.GameServer.BotStartSpeaking | server/index.js:53-67 | the delayed start marks the bot speaking, takes `lastSpeakingChange` from the first clock reading and `audioStartTime` from the second, and sends everyone `playerSpeaking` with the audio start time |
| Server.GameServer.MoveBotRandomly | server/index.js:73-131 | a missing bot changes nothing. Otherwise both coordinates step and are clamped into [30, 9970], and the bot ends up speaking. A silent bot first gets `playerSpeaking` with the new audio start time. When the elapsed time exceeds 2250000 ms, both timestamps are reset to now and one `playerSpeaking` goes out. The new position then goes to everyone. No other field changes |
| Lists.IndexOf | public/js/game.js:1555 | `indexOf` gives the first position of the id, or -1 exactly when the id is absent |
| Lists.PushSpec | public/js/game.js:1558 | pushing an absent id keeps the list free of duplicates and changes nothing else |
| Lists.RemoveSpec | public/js/game.js:1573 | `splice(index, 1)` of an id in a duplicate-free list removes every occurrence, keeps the list free of duplicates and keeps the other ids in order |
| Lists.ToggleSpec | public/js/game.js:1555-1588 | one toggle puts the id in the list exactly when it was absent, never creates a duplicate and keeps all other ids in order; an absent id is appended at the end |
| Lists.ToggleTwice | public/js/game.js:1591-1622 | toggling an absent id twice gives back the original list |
| Voice.SqDist | public/js/game.js:2091-2094 | the squared distance is non-negative |
| Voice.Volume | public/js/game.js:2097-2098 | the volume lies in [0, 1]; it is 1 at distance 0, 0 at every distance from 250 on, and positive below 250 |
| Voice.VolumeNonIncreasing | public/js/game.js:2097-2098 | the volume never rises as the distance grows |
| Voice.VolumeOfDistance | public/js/game.js:2097-2098 | the squared-distance form equals `clamp(1 - (d/250)², 0, 1)` |
| Voice.Audible | public/js/game.js:843-846 | the unclamped volume is positive exactly when the distance is below 250 |
| Voice.PeerAudioAt | public/js/game.js:2100-2103 | a muted peer's element is left untouched; otherwise only its volume is written, within [0, 1], and it is 0 from distance 250 on |
| Voice.BotSoundAt | public/js/game.js:860-875 | only the gain changes and it lies in [0, 1]. A muted bot gets 0. An audible bot gets at least its volume and more than 0, and exactly its volume when that is at least 0.0001. An inaudible bot gets at most 0.0001 |
| Regions.ContainsByBands | public/js/game.js:14-33 | an in-world point is in region i exactly when i is 3·row + column of its bands |
| Regions.RegionsTileWorld | public/js/game.js:14-33 | every point of [0,10000)² is in exactly one of the nine regions |
| Regions.OutsideWorldInNoRegion | public/js/game.js:14-33 | no point outside the world is in any region |
| Regions.NamesDistinct | public/js/game.js:14-33 | the nine region names are distinct |
| Regions.RegionAt | public/js/game.js:2937-2948 | the scan finds a region containing the point or none exactly when no region does; for an in-world point it is the one tiling region |
| Movement.SqrtCompare | public/js/game.js:2647-2650 | for non-negative numbers, `distance < 5` holds exactly when the squared distance is below 25 |
| Movement.Steer | public/js/game.js:2642-2701 | a target closer than 5 is dropped, with velocity unchanged and no deliberate move. A farther target is kept, and the velocity gains 0.5 times the unit vector toward it (Δv · distance = 0.5 · direction). With no target, each pressed key adds ±0.5 along its axis and an active joystick adds its deflection times 1. The player then moves on purpose exactly when a key or the joystick beyond the dead zone is active |
| Movement.SteerTowardTarget | public/js/game.js:2653-2661 | pursuing a target changes the velocity by a vector pointing toward the target (positive dot product with the direction) |
| Movement.Settle | public/js/game.js:2704-2729 | along one axis: the position ends up in [30, size-30], moving at most 8 from a start inside. The velocity ends up in [-7.2, 7.2]. A non-zero velocity is at least 0.01 and the position moved by exactly velocity/0.9. A zero velocity means a tiny velocity after friction or a stop at a wall. A capped move c that stays inside gives exactly pos + c and velocity 0.9·c (or 0 when that is below 0.01). A move that would leave the world stops at the wall it crosses with velocity 0 |
| Movement.Step | public/js/game.js:2629-2729 | one frame is Steer followed by Settle on each axis. The new position and velocity are exactly those, and the target and the moved flag come from Steer. The player stays inside [30, width-30] × [30, height-30], each velocity component stays in [-7.2, 7.2], and nothing but position, velocity and target changes |
| Movement.Drift | public/js/game.js:2704-2729 | with no target and no input, a player away from the walls moves by its velocity and keeps 0.9 of it |
| Client.Me | public/js/game.js:2088 | the local record exists exactly when the id is known and registered |
| Client.PeerRefresh | public/js/game.js:2087-2104 | with both records known and the peer not muted, the element's volume becomes the distance volume; otherwise the element is unchanged |
| Client.BotRefresh | public/js/game.js:850-875 | with both records known, only the gain of the bot's sound changes; otherwise it is unchanged |
| Client.ShouldPlay | public/js/game.js:834-847 | the bot should play exactly when both records are known, the distance is below 250 and the bot is not muted |
| Client.Announced | public/js/game.js:755-831 | the speaking state is recorded. A bot that stops speaking gets gain 0. A bot that speaks out of earshot or muted is marked not playing. Nothing else changes |
| Client.ShouldPlayAgreesWithGain | public/js/game.js:834-875 | after a volume update the gain is at least the distance volume (and positive) when the bot should play, at most 0.0001 when it should not, and 0 when it is muted |
| Client.GameClient.constructor | public/js/game.js:39-49 | the client starts with no id, no players, a 10000 × 10000 world, empty lists, no selection and no region |
| Client.GameClient.UpdateAudioVolume | public/js/game.js:2087-2104 | only the peer's element changes, and it becomes the refreshed element; a peer without an element changes nothing |
| Client.GameClient.UpdateBotSoundVolume | public/js/game.js:850-929 | only the bot's sound changes, and it becomes the refreshed sound; a bot without a sound changes nothing |
| Client.GameClient.HandleBotSpeaking | public/js/game.js:755-831 | only the bot's sound changes, as `Announced` says; a bot without a sound changes nothing |
| Client.GameClient.OnRemoteTrack | public/js/game.js:1901-1939 | the peer gets a new element at full volume, not muted, and its volume is then set for the distance |
| Client.GameClient.OnInit | public/js/game.js:396-422 | the client takes the id, the world size and exactly the roster's records, each with velocity 0 and no target. Every bot with a sound file gets a fresh sound, and other sounds are kept |
| Client.GameClient.OnPlayerJoined | public/js/game.js:425-446 | the record is stored with velocity 0, and a bot with a sound file gets a fresh sound |
| Client.GameClient.OnPlayerLeft | public/js/game.js:449-462 | the record, the peer's audio element and the bot's sound are removed |
| Client.GameClient.OnPlayerMoved | public/js/game.js:465-481 | a known player takes the position and any velocity component that was sent, and its volume is refreshed; an id with no own record changes nothing |
| Client.GameClient.OnPlayerSpeaking | public/js/game.js:484-497 | a known player takes the flag. A bot takes a non-zero timestamp as its audio start time and its sound is updated. An id with no own record changes nothing |
| Client.GameClient.OnPlayerCustomized | public/js/game.js:500-524 | a known player takes a truthy name and a truthy colour, and a defined image (null clears it). A defined image also drops the cached picture. Nothing else changes, and an id with no own record changes nothing |
| Client.GameClient.OnPlayerDisconnect | public/js/game.js:574-588 | the record is removed |
| Client.GameClient.OnWhiteboardDraw | public/js/game.js:532-554 | the stroke is appended to the client's copy, with no cap |
| Client.GameClient.OnWhiteboardClear | public/js/game.js:556-559 | the client's copy becomes empty |
| Client.GameClient.OnWhiteboardInit | public/js/game.js:561-564 | the client's copy becomes the log the server sent |
| Client.GameClient.HandlePlayerMovement | public/js/game.js:2629-2757 | with a local record, the record becomes the result of `Movement.Step` and nothing else in the roster changes. So it stays inside the world, its speed is capped and its target is handled as `Steer` says. A `move` message with the new position and velocity is sent exactly when the player moved on purpose or a velocity component still exceeds 0.01. After a message every other player's audio or bot sound is refreshed, and without one nothing else changes. Without a local record nothing changes |
| Client.GameClient.RefreshOthers | public/js/game.js:2745-2755 | every other player's element or bot sound is refreshed according to whether it is a bot, and the local player's own entries are untouched |
| Client.GameClient.HandleMinimapClick | public/js/game.js:2255-2284 | the click is scaled to the world and becomes the local player's target exactly when it is more than 60 away; otherwise nothing changes |
| Client.GameClient.ClosestWithin | public/js/game.js:2897-2913 | the result is another player closer than 100 and no farther than any other player. It is none exactly when no other player is closer than 100 |
| Client.GameClient.HandleMobileInteract | public/js/game.js:2897-2921 | with another player closer than 100, the selection becomes a nearest such player; with none, or with no local record, the selection is unchanged |
| Client.GameClient.PlayerAt | public/js/game.js:1476-1495 | the result is another player whose radius-30 disc holds the point; none means no such player |
| Client.GameClient.HandleCanvasClick | public/js/game.js:1476-1499 | the selection becomes a player under the pointer, or none exactly when no other player is under it |
| Client.GameClient.MuteSelectedPlayer | public/js/game.js:1552-1588 | with a selection, the id is toggled in the mute list, with no duplicate and other ids in order. Muting zeroes a bot's element volume or mutes a peer's element. Unmuting refreshes the bot's gain, or unmutes and refreshes the peer's element |
| Client.GameClient.Silence | public/js/game.js:1561-1567 | muting zeroes the bot's element volume or mutes the peer's element, and nothing else |
| Client.GameClient.Restore | public/js/game.js:1576-1583 | unmuting refreshes the bot's gain, or unmutes the peer's element and refreshes its volume, and nothing else |
| Client.GameClient.AddSelectedPlayerAsFriend | public/js/game.js:1591-1622 | with a selection, the id is toggled in the friend list, with no duplicate and other ids in order; with no selection nothing changes |
| Client.GameClient.RemoveFriend | public/js/game.js:1664-1669 | the Remove button takes the id out of the friend list and keeps every other id in order; an id that was not there leaves the list unchanged |
| Client.GameClient.CheckPlayerRegion | public/js/game.js:2930-2950 | the current region changes only to a region holding the local player whose name differs from the current one; for an in-world player the region afterwards carries the name of the one region that tiles that point |

## Left out

- Rendering and the DOM are not modelled: canvas and minimap drawing, the camera, particles, menus, toasts, the friend-list widget's markup and the login screen with its image resizing.
- Browser media and WebRTC are not modelled: peer-connection setup and teardown, offers and answers on the client, the AudioContext, microphone analysis, and the retry timers of bot playback (`ensureBotAudioPlaying`). `OnRemoteTrack` models only what the `ontrack` handler does to the audio-element map.
- Client.GameClient.UpdateBotSoundVolume: the asynchronous start of playback that `updateBotSoundVolume` and `handleBotSpeaking` request is not modelled. Its completion is a promise the model does not see, so `actuallyPlaying` never becomes true in the model.
- Voice.BotSoundAt: the 0.2 s `exponentialRampToValueAtTime` is modelled as its target value, because the model has no audio clock.
- The bot audio time offset `(elapsed / 1000) % audio.duration` is not modelled. It depends on a duration the browser supplies.
- Joystick trigonometry (`updateJoystickPosition`) is not modelled, because it needs atan2, cos and sin. The joystick enters a frame as its deflection.
- IEEE-754 rounding is not modelled: arithmetic is over exact reals.
- Movement.Step: the frame updates the player object in place, field by field; the model computes the new record as a value and `HandlePlayerMovement` stores it in the roster, so aliasing of that object is not captured.
- Movement.Step: `Math.sqrt` is not modelled. The distance to a minimap target is a parameter whose square is the squared distance.
- Key order of JavaScript objects is not modelled. `players` and `botSounds` are maps, so first-match and tie-breaking order is not captured.
- Express, socket.io wiring, `server.listen`, the bot's `setInterval` timer and process signal handling are not modelled. Each handler is a method the environment calls. start.js and start-simple.js are not part of this model.
- The client's `player-emote` handler is not modelled; it only displays the emote.
- The client's own whiteboard input handlers are not modelled: drawing a stroke (public/js/game.js:2448, 2499, 2545) and pressing clear (public/js/game.js:2325) change the local copy and emit to the server from DOM mouse and touch events. Only the server's relays of these events reach the modelled client copy.
- Server.GameServer.Move: `players` is modelled as a map with no inherited keys. In the source it is a plain object, so an id such as `constructor` or `__proto__` passes `if (players[data.id])`, writes x and y onto a built-in object and is broadcast; the model treats such an id as unknown.
- Server.GameServer.Speaking: `players` is modelled as a map with no inherited keys, so an id naming an `Object.prototype` member, which the source accepts and broadcasts, is treated as unknown.
- Server.GameServer.Customize: `players` is modelled as a map with no inherited keys, so an id naming an `Object.prototype` member (such as `__proto__`), whose fields the source overwrites before emitting `playerCustomized`, is treated as unknown.
- Client.GameClient.OnPlayerMoved: the client's `players` is modelled as a map with no inherited keys, so a relayed id naming an `Object.prototype` member, which the source writes position onto, is treated as unknown.
- Client.GameClient.OnPlayerSpeaking: the client's `players` is modelled as a map with no inherited keys, so an id naming an `Object.prototype` member, which the source accepts, is treated as unknown.
- Client.GameClient.OnPlayerCustomized: the client's `players` is modelled as a map with no inherited keys, so an id naming an `Object.prototype` member, which the source accepts and overwrites, is treated as unknown.
- Server.GameServer.Connect: a connection needs a fresh player id and a socket id no record carries yet. UUIDs and socket.io connection ids are unique in the running system, and the record-per-socket invariant depends on this.
