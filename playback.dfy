/** Vocabulary shared by the three pygame players: the decoded wave track an
    audio adapter keeps, the pygame Sound it plays, and what ffprobe reports
    about the video together with the decoder behind the frame pipe. */
module Playback {
  import opened Common
  import opened Probe

  /** The wave file as read once by an audio adapter: every sample byte, and
      the header values (frame rate, channel count, sample width in bytes). */
  datatype Track = Track(raw: seq<int>, rate: int, channels: int, width: int)

  /** A pygame Sound: the samples it was built from, how many mixer channels
      are playing it, and its volume. */
  datatype Sound = Sound(samples: seq<int>, playbacks: nat, volume: real)
  {
    /** The mixer is playing the Sound on at least one channel. */
    predicate Mixing() { playbacks > 0 }
  }

  /** pygame.mixer.Sound(samples): silent until played, at full volume. */
  function NewSound(samples: seq<int>): Sound
  {
    Sound(samples, 0, 1.0)
  }

  /** Sound.play(): one more channel plays the Sound, overlapping any playback
      already running. */
  function SoundPlay(s: Sound): Sound
  {
    s.(playbacks := s.playbacks + 1)
  }

  /** Sound.stop(): every channel playing the Sound stops. */
  function SoundStop(s: Sound): Sound
  {
    s.(playbacks := 0)
  }

  /** The state of the audio adapters of videoplayer2.py and videoplayer3.py:
      the current Sound and the adapter's own playing flag, which set_pos may
      leave out of step with the mixer. */
  datatype Adapter = Adapter(sound: Sound, isPlaying: bool)

  function AdapterInit(track: Track): (a: Adapter)
    ensures a.sound.samples == track.raw && !a.sound.Mixing() && !a.isPlaying
  {
    Adapter(NewSound(track.raw), false)
  }

  /** play: one more playback of the Sound is started and the flag set. */
  function AdapterPlay(a: Adapter): (r: Adapter)
    ensures r.isPlaying && r.sound.Mixing() && r.sound.playbacks == a.sound.playbacks + 1
    ensures r.sound.samples == a.sound.samples && r.sound.volume == a.sound.volume
  {
    Adapter(SoundPlay(a.sound), true)
  }

  /** stop: every playback of the Sound is stopped and the flag cleared. */
  function AdapterStop(a: Adapter): (r: Adapter)
    ensures !r.isPlaying && !r.sound.Mixing()
    ensures r.sound.samples == a.sound.samples && r.sound.volume == a.sound.volume
  {
    Adapter(SoundStop(a.sound), false)
  }

  /** stop undoes any number of plays and is idempotent; play is not: a second
      play overlaps a second playback with the first. */
  lemma {:induction false} AdapterPlayStop(a: Adapter)
    ensures AdapterStop(AdapterPlay(a)) == AdapterStop(a) && AdapterStop(AdapterStop(a)) == AdapterStop(a)
    ensures AdapterPlay(AdapterStop(a)).sound.playbacks == 1
    ensures AdapterPlay(AdapterPlay(a)).sound.playbacks == a.sound.playbacks + 2
  {
  }

  /** The probed properties of a video and the decoder that a frame pipe
      opened at some offset (in seconds) reads from. */
  datatype Video = Video(numerator: int, totalFrames: int, resolution: Size, decoder: real -> seq<FrameId>)
  {
    /** _get_video_fps: the normalised frame rate. */
    function Fps(): real { NormaliseFps(numerator) }

    /** The frame position of a whole second: seconds * fps. */
    function FrameOfSecond(seconds: int): real { seconds as real * Fps() }

    /** The frame rate is a Python int (no division by 1000 took place). */
    predicate IntFps() { numerator <= 1000 }
  }

  /** Seconds elapsed between two pygame.time.get_ticks() readings. */
  function Elapsed(now: int, before: int): (r: real)
    ensures r * 1000.0 == (now - before) as real
    ensures now >= before ==> r >= 0.0
  {
    (now - before) as real / 1000.0
  }
}
