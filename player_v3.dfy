/** The frame clock of VideoPlayer/videoplayer3.py: the cursor is advanced
    before the frame check, at most one frame is read per tick, and `last`
    only moves while it is below the frame count. Audio is always present. */
module Sync3 {
  import opened Common
  import opened Playback

  /** set_pos: a new Sound from the ORIGINAL samples at seconds * rate (no channel
      or width factor); nothing is stopped or started, the flag is unchanged. */
  function AudioSetPos(track: Track, a: Adapter, seconds: int): (r: Adapter)
    ensures r.isPlaying == a.isPlaying && !r.sound.Mixing()
    ensures 0 <= seconds * track.rate <= |track.raw| ==> r.sound.samples == track.raw[seconds * track.rate..]
    ensures seconds * track.rate >= |track.raw| ==> r.sound.samples == []
  {
    a.(sound := NewSound(PySliceFrom(track.raw, seconds * track.rate)))
  }

  lemma {:induction false} AudioSetPosNotCumulative(track: Track, a: Adapter, s1: int, s2: int)
    ensures AudioSetPos(track, AudioSetPos(track, a, s1), s2) == AudioSetPos(track, a, s2)
  {
  }

  /** _open_frame_pipe(index): `index` is a frame number; the decoder is started
      at index / fps seconds. */
  function OpenAt(video: Video, index: int): (p: Pipe)
    requires video.Fps() != 0.0
    ensures p.Valid() && p.pos == 0
    ensures p.seek * video.Fps() == index as real
  {
    OpenPipe(video.decoder, index as real / video.Fps())
  }

  /** Opening at frame k * fps seeks to second k. */
  lemma {:induction false} OpenAtWholeSeconds(video: Video, k: int)
    requires video.Fps() != 0.0 && video.IntFps()
    ensures OpenAt(video, k * video.numerator).seek == k as real
  {
    assert video.Fps() == video.numerator as real;
    var f := video.Fps();
    assert (k * video.numerator) as real == k as real * f;
    assert k as real * f / f == k as real;
  }

  datatype PlayerState = PlayerState(
    pipe: Pipe,
    cursor: real,
    last: int,
    playing: bool,
    lastFrameTime: int,
    image: Image,
    audio: Adapter)

  /** The constructor without a resolution argument: the resize resolution is the
      video's own, and the pipe is opened at frame 0. */
  function Initial(video: Video, track: Track): (s: PlayerState)
    requires video.Fps() != 0.0
    ensures s.pipe.Valid() && s.pipe.pos == 0 && s.pipe.seek == 0.0
    ensures s.cursor == 0.0 && s.last == 0 && !s.playing && s.lastFrameTime == 0
    ensures s.image == Fill(video.resolution) && !s.audio.isPlaying
    ensures s.pipe == OpenPipe(video.decoder, 0.0)
    ensures s.audio == AdapterInit(track) && s.audio.sound == NewSound(track.raw)
  {
    PlayerState(OpenAt(video, 0), 0.0, 0, false, 0, Fill(video.resolution), AdapterInit(track))
  }

  function Play(s: PlayerState): (r: PlayerState)
    ensures r.playing && r.audio == s.audio && r.(playing := s.playing) == s
  {
    s.(playing := true)
  }

  /** stop: the video flag cleared and the adapter stopped, unconditionally. */
  function Stop(s: PlayerState): (r: PlayerState)
    ensures !r.playing && !r.audio.isPlaying && !r.audio.sound.Mixing()
    ensures r.audio == AdapterStop(s.audio)
    ensures r.(playing := s.playing, audio := s.audio) == s
  {
    s.(playing := false, audio := AdapterStop(s.audio))
  }

  lemma {:induction false} StopIdempotent(s: PlayerState)
    ensures Stop(Stop(s)) == Stop(s) && Stop(Play(s)) == Stop(s)
  {
    AdapterPlayStop(s.audio);
  }

  /** The displayed form of a frame: read at the video size, then scaled to the
      resize resolution, which is the video size here. */
  function Shown(video: Video, frame: FrameId): (img: Image)
    ensures img == Picture(frame, video.resolution)
  {
    ScaleTo(Picture(frame, video.resolution), video.resolution)
  }

  /** The frame check, made against the already advanced cursor. */
  predicate Moves(video: Video, s: PlayerState)
  {
    Trunc(s.cursor) != s.last && s.last < video.totalFrames
  }

  /** _read_frame: one read, shown, under the same conditions re-checked. */
  function ReadFrame(video: Video, s: PlayerState): (r: (Pipe, Image))
    requires s.pipe.Valid() && (Moves(video, s) ==> s.pipe.pos < |s.pipe.frames|)
    ensures Moves(video, s) ==> r.0.pos == s.pipe.pos + 1 && r.1 == Shown(video, s.pipe.frames[s.pipe.pos])
    ensures !Moves(video, s) ==> r == (s.pipe, s.image)
    ensures r.0.Valid() && r.0.frames == s.pipe.frames
  {
    if Moves(video, s) then
      var (frame, pipe) := PipeRead(s.pipe);
      (pipe, Shown(video, frame.value))
    else (s.pipe, s.image)
  }

  /** The cursor as update leaves it, before the frame check. */
  function Advanced(video: Video, s: PlayerState, now: int): real
  {
    if s.playing then s.cursor + Elapsed(now, s.lastFrameTime) * video.Fps() else s.cursor
  }

  /** update does not raise: a read the frame condition asks for returns a frame. */
  predicate UpdateDefined(video: Video, s: PlayerState, now: int)
  {
    && s.pipe.Valid()
    && (s.playing && Moves(video, s.(cursor := Advanced(video, s, now))) ==> s.pipe.pos < |s.pipe.frames|)
  }

  function Update(video: Video, s: PlayerState, now: int): (r: PlayerState)
    requires UpdateDefined(video, s, now)
    ensures r.pipe.Valid() && r.lastFrameTime == now && r.playing == s.playing
    ensures r.cursor == Advanced(video, s, now)
  {
    var delta := Elapsed(now, s.lastFrameTime);
    if !s.playing then s.(lastFrameTime := now)
    else
      var audio := if !s.audio.isPlaying then AdapterPlay(s.audio) else s.audio;
      var advanced := s.(audio := audio, cursor := s.cursor + delta * video.Fps());
      if Moves(video, advanced) then
        var (pipe, image) := ReadFrame(video, advanced);
        advanced.(pipe := pipe, image := image, last := Trunc(advanced.cursor), lastFrameTime := now)
      else advanced.(lastFrameTime := now)
  }

  /** At most one frame per tick, and exactly one when the advanced cursor's index
      differs from `last` and the end is not reached. */
  lemma {:induction false} UpdateReadsAtMostOne(video: Video, s: PlayerState, now: int)
    requires UpdateDefined(video, s, now)
    ensures var r := Update(video, s, now);
            var moved := s.playing && Moves(video, s.(cursor := Advanced(video, s, now)));
            r.pipe.frames == s.pipe.frames &&
            (moved ==> r.pipe.pos == s.pipe.pos + 1 && r.last == Trunc(r.cursor)) &&
            (!moved ==> r.pipe == s.pipe && r.image == s.image && r.last == s.last)
  {
    var r := Update(video, s, now);
    if s.playing {
      var audio := if !s.audio.isPlaying then AdapterPlay(s.audio) else s.audio;
      var advanced := s.(audio := audio, cursor := Advanced(video, s, now));
      assert Moves(video, advanced) == Moves(video, s.(cursor := Advanced(video, s, now)));
    }
  }

  /** No catch-up: however far the cursor jumped, the picture is the next frame of
      the pipe, so the shown frame falls behind `last`. */
  lemma {:induction false} UpdateShowsNextFrame(video: Video, s: PlayerState, now: int)
    requires UpdateDefined(video, s, now) && s.playing
    requires Moves(video, s.(cursor := Advanced(video, s, now)))
    ensures Update(video, s, now).image == Shown(video, s.pipe.frames[s.pipe.pos])
  {
    var audio := if !s.audio.isPlaying then AdapterPlay(s.audio) else s.audio;
    var advanced := s.(audio := audio, cursor := Advanced(video, s, now));
    assert Moves(video, advanced);
  }

  /** Past the end `last` freezes and nothing is read, while the cursor goes on. */
  lemma {:induction false} UpdateFreezesAtEnd(video: Video, s: PlayerState, now: int)
    requires UpdateDefined(video, s, now) && s.last >= video.totalFrames
    ensures var r := Update(video, s, now);
            r.last == s.last && r.pipe == s.pipe && r.image == s.image && r.playing == s.playing
  {
    UpdateReadsAtMostOne(video, s, now);
  }

  /** Audio is started whenever the video plays and the flag is false. */
  lemma {:induction false} UpdateStartsAudio(video: Video, s: PlayerState, now: int)
    requires UpdateDefined(video, s, now)
    ensures Update(video, s, now).audio.isPlaying == (s.audio.isPlaying || s.playing)
  {
  }

  /** There is no first-call anchor: the first tick after construction counts the
      whole time since tick 0. */
  lemma {:induction false} FirstUpdateCountsFromZero(video: Video, track: Track, now: int)
    requires video.Fps() != 0.0
    requires UpdateDefined(video, Play(Initial(video, track)), now)
    ensures Update(video, Play(Initial(video, track)), now).cursor == Elapsed(now, 0) * video.Fps()
  {
  }
}

/** The classes of VideoPlayer/videoplayer3.py. */
module Player3 {
  import opened Common
  import opened Playback
  import opened Sync3

  class AudioAdapter {
    const track: Track
    var sound: Sound
    var isPlaying: bool

    function State(): Adapter
      reads this
    {
      Adapter(sound, isPlaying)
    }

    constructor(track: Track)
      ensures this.track == track && State() == AdapterInit(track)
    {
      this.track := track;
      sound := NewSound(track.raw);
      isPlaying := false;
    }

    method SetPos(seconds: int)
      modifies this
      ensures State() == Sync3.AudioSetPos(track, old(State()), seconds)
    {
      sound := NewSound(PySliceFrom(track.raw, seconds * track.rate));
    }

    method Play()
      modifies this
      ensures State() == AdapterPlay(old(State()))
    {
      sound := SoundPlay(sound);
      isPlaying := true;
    }

    method Stop()
      modifies this
      ensures State() == AdapterStop(old(State()))
    {
      sound := SoundStop(sound);
      isPlaying := false;
    }
  }

  class VideoPlayer {
    const video: Video
    const audio: AudioAdapter
    var pipe: Pipe
    var cursor: real
    var last: int
    var playing: bool
    var lastFrameTime: int
    var image: Image

    function State(): PlayerState
      reads this, audio
    {
      PlayerState(pipe, cursor, last, playing, lastFrameTime, image, audio.State())
    }

    constructor(video: Video, track: Track)
      requires video.Fps() != 0.0
      ensures this.video == video && fresh(audio) && audio.track == track
      ensures State() == Initial(video, track)
    {
      this.video := video;
      audio := new AudioAdapter(track);
      pipe := OpenAt(video, 0);
      cursor := 0.0;
      last := 0;
      playing := false;
      lastFrameTime := 0;
      image := Fill(video.resolution);
    }

    method Play()
      modifies this
      ensures State() == Sync3.Play(old(State()))
    {
      playing := true;
    }

    method Stop()
      modifies this, audio
      ensures State() == Sync3.Stop(old(State()))
    {
      playing := false;
      audio.Stop();
    }

    method ReadFrame()
      requires pipe.Valid() && (Moves(video, State()) ==> pipe.pos < |pipe.frames|)
      modifies this
      ensures (pipe, image) == Sync3.ReadFrame(video, old(State()))
      ensures cursor == old(cursor) && last == old(last) && playing == old(playing)
      ensures lastFrameTime == old(lastFrameTime)
    {
      if Trunc(cursor) != last {
        if last < video.totalFrames {
          var (frame, next) := PipeRead(pipe);
          pipe := next;
          image := Picture(frame.value, video.resolution);
          image := ScaleTo(image, video.resolution);
        }
      }
    }

    method Update(now: int)
      requires UpdateDefined(video, State(), now)
      modifies this, audio
      ensures State() == Sync3.Update(video, old(State()), now)
    {
      var delta := Elapsed(now, lastFrameTime);
      if playing {
        if !audio.isPlaying {
          audio.Play();
        }
        cursor := cursor + delta * video.Fps();
        if Trunc(cursor) != last {
          if last < video.totalFrames {
            ReadFrame();
            last := Trunc(cursor);
          }
        }
      }
      lastFrameTime := now;
    }
  }
}
