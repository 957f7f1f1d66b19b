/** The proximity voice rule every client applies to the other players: the
    volume falls off with the square of the distance and is silent from
    `MaxVoiceDistance` on, and a muted player's output is overridden.
    Distances are handled squared: `Math.pow(Math.sqrt(s) / D, 2)` is `s / D²`. */
module Voice {
  import opened Js

  const MaxVoiceDistance: real := 250.0
  /** The smallest target `exponentialRampToValueAtTime` is given. */
  const RampFloor: real := 0.0001

  function SqDist(x1: real, y1: real, x2: real, y2: real): (s: real)
    ensures s >= 0.0
  {
    (x1 - x2) * (x1 - x2) + (y1 - y2) * (y1 - y2)
  }

  /** `Math.max(0, Math.min(1, 1 - Math.pow(distance / VOICE_MAX_DISTANCE, 2)))`
      for a squared distance `sq`. */
  function Volume(sq: real): (v: real)
    requires sq >= 0.0
    ensures 0.0 <= v <= 1.0
    ensures sq == 0.0 ==> v == 1.0
    ensures sq >= MaxVoiceDistance * MaxVoiceDistance ==> v == 0.0
    ensures sq < MaxVoiceDistance * MaxVoiceDistance ==> v > 0.0
  {
    Clamp(0.0, 1.0, 1.0 - sq / (MaxVoiceDistance * MaxVoiceDistance))
  }

  /** The falloff never rises with distance. */
  lemma VolumeNonIncreasing(near: real, far: real)
    requires 0.0 <= near <= far
    ensures Volume(far) <= Volume(near)
  {
  }

  /** The same rule written with the distance itself, as the client does. */
  lemma VolumeOfDistance(d: real)
    requires d >= 0.0
    ensures Volume(d * d) == Clamp(0.0, 1.0, 1.0 - (d / MaxVoiceDistance) * (d / MaxVoiceDistance))
  {
    assert d * d / (MaxVoiceDistance * MaxVoiceDistance) == (d / MaxVoiceDistance) * (d / MaxVoiceDistance);
  }

  /** The unclamped volume is positive: the bot can be heard at all. */
  function Audible(sq: real): (r: bool)
    ensures r <==> sq < MaxVoiceDistance * MaxVoiceDistance
  {
    1.0 - sq / (MaxVoiceDistance * MaxVoiceDistance) > 0.0
  }

  /** The audio element a player's WebRTC stream plays through. */
  datatype PeerAudio = PeerAudio(volume: real, muted: bool)

  /** The bot's looping sound: the element's own volume, the gain node it is
      routed through, the speaking state last announced for the bot, and
      whether playback has been seen to start. */
  datatype BotSound = BotSound(elementVolume: real, gain: real, isPlaying: bool, actuallyPlaying: bool)

  /** What `updateAudioVolume` does to a peer's element once the local player,
      the peer and the element all exist: the distance volume is written
      unless the peer is muted, in which case the element is left alone. */
  function PeerAudioAt(a: PeerAudio, sq: real, isMuted: bool): (r: PeerAudio)
    requires sq >= 0.0
    ensures isMuted ==> r == a
    ensures !isMuted ==> r == a.(volume := r.volume) && 0.0 <= r.volume <= 1.0
    ensures !isMuted && sq >= MaxVoiceDistance * MaxVoiceDistance ==> r.volume == 0.0
  {
    if isMuted then a else a.(volume := Volume(sq))
  }

  /** What `updateBotSoundVolume` leaves as the gain of the bot's sound once the
      local player, the bot and its sound exist: zero when the bot is muted, or
      when it is out of earshot while playing; otherwise the ramp target,
      the distance volume but at least `RampFloor`. */
  function BotSoundAt(b: BotSound, sq: real, isMuted: bool): (r: BotSound)
    requires sq >= 0.0
    ensures r == b.(gain := r.gain)
    ensures 0.0 <= r.gain <= 1.0
    ensures isMuted ==> r.gain == 0.0
    ensures !isMuted && Audible(sq) ==> r.gain >= Volume(sq) && r.gain > 0.0
    ensures !isMuted && Audible(sq) && Volume(sq) >= RampFloor ==> r.gain == Volume(sq)
    ensures !Audible(sq) ==> r.gain <= RampFloor
  {
    var volume := Volume(sq);
    var shouldBeAudible := volume > 0.0 && !isMuted;
    var gain := if !isMuted then (if RampFloor < volume then volume else RampFloor) else 0.0;
    var gain' := if !shouldBeAudible && b.actuallyPlaying then 0.0 else gain;
    b.(gain := gain')
  }
}
