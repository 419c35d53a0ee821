/** The frame clock of VideoPlayer/videoplayer2.py: the same clock as
    videoplayer.py without pause, mute or resize, with an audio start that
    ignores muting and a set_pos that plays the Sound behind the adapter's back. */
module Sync2 {
  import opened Common
  import opened Playback

  /** set_pos: stop the Sound, rebuild it from the ORIGINAL samples at the byte
      offset and play the new Sound directly; the adapter's flag is not touched. */
  function AudioSetPos(track: Track, a: Adapter, seconds: int): (r: Adapter)
    ensures r.isPlaying == a.isPlaying
    ensures r.sound.playbacks == 1 && r.sound.volume == 1.0
    ensures var index := track.rate * seconds * track.channels * track.width;
            && (0 <= index <= |track.raw| ==> r.sound.samples == track.raw[index..])
            && (index >= |track.raw| ==> r.sound.samples == [])
  {
    var index := track.rate * seconds * track.channels * track.width;
    var stopped := a.(sound := SoundStop(a.sound));
    var rebuilt := stopped.(sound := NewSound(PySliceFrom(track.raw, index)));
    rebuilt.(sound := SoundPlay(rebuilt.sound))
  }

  /** Seeks are not cumulative. */
  lemma {:induction false} AudioSetPosNotCumulative(track: Track, a: Adapter, s1: int, s2: int)
    ensures AudioSetPos(track, AudioSetPos(track, a, s1), s2) == AudioSetPos(track, a, s2)
  {
  }

  /** A seek on a stopped adapter leaves the Sound playing while the flag still
      says it is not: mixer and flag disagree until the next play or stop. */
  lemma {:induction false} SeekDesynchronisesFlag(track: Track, a: Adapter, seconds: int)
    requires !a.isPlaying
    ensures var r := AudioSetPos(track, a, seconds); r.sound.Mixing() && !r.isPlaying
    ensures !AdapterStop(AudioSetPos(track, a, seconds)).sound.Mixing()
  {
  }

  datatype PlayerState = PlayerState(
    pipe: Pipe,
    cursor: real,
    last: int,
    playing: bool,
    firstCall: bool,
    lastFrameTime: int,
    image: Image,
    audio: Option<Adapter>)

  function Initial(video: Video, track: Option<Track>): (s: PlayerState)
    ensures s.pipe.Valid() && s.cursor == 0.0 && s.last == 0 && !s.playing && s.firstCall
    ensures s.pipe == OpenPipe(video.decoder, 0.0) && s.image == Fill(video.resolution) && s.lastFrameTime == 0
    ensures s.audio.Some? <==> track.Some?
    ensures track.Some? ==> s.audio == Some(AdapterInit(track.value))
  {
    PlayerState(OpenPipe(video.decoder, 0.0), 0.0, 0, false, true, 0, Fill(video.resolution),
                if track.Some? then Some(AdapterInit(track.value)) else None)
  }

  /** play sets only the video flag. */
  function Play(s: PlayerState): (r: PlayerState)
    ensures r.playing && r.audio == s.audio && r.(playing := s.playing) == s
  {
    s.(playing := true)
  }

  /** stop clears the video flag and stops the adapter, which clears its flag. */
  function Stop(s: PlayerState): (r: PlayerState)
    ensures !r.playing
    ensures r.audio.Some? <==> s.audio.Some?
    ensures r.audio.Some? ==> !r.audio.value.isPlaying && !r.audio.value.sound.Mixing()
    ensures r.audio.Some? ==> r.audio.value == AdapterStop(s.audio.value)
    ensures r.(playing := s.playing, audio := s.audio) == s
  {
    s.(playing := false, audio := if s.audio.Some? then Some(AdapterStop(s.audio.value)) else None)
  }

  lemma {:induction false} StopIdempotent(s: PlayerState)
    ensures Stop(Stop(s)) == Stop(s) && Stop(Play(s)) == Stop(s)
  {
    if s.audio.Some? {
      AdapterPlayStop(s.audio.value);
    }
  }

  function SetPosition(video: Video, track: Option<Track>, s: PlayerState, index: int): (r: PlayerState)
    requires s.audio.Some? <==> track.Some?
    ensures r.pipe == OpenPipe(video.decoder, index as real)
    ensures r.cursor == video.FrameOfSecond(index) && r.last == Trunc(r.cursor)
    ensures r.audio.Some? <==> s.audio.Some?
    ensures r.audio.Some? ==> r.audio.value == AudioSetPos(track.value, s.audio.value, index)
    ensures r.(pipe := s.pipe, cursor := s.cursor, last := s.last, audio := s.audio) == s
  {
    var audio := if s.audio.Some? then Some(AudioSetPos(track.value, s.audio.value, index)) else None;
    s.(audio := audio, pipe := OpenPipe(video.decoder, index as real),
       cursor := video.FrameOfSecond(index), last := Trunc(video.FrameOfSecond(index)))
  }

  function Reads(difference: int): nat
  {
    if difference > 1 then difference else 1
  }

  predicate Catches(video: Video, s: PlayerState)
  {
    Trunc(s.cursor) != s.last && s.last < video.totalFrames
  }

  /** update does not raise: the adapter exists while playing, and the shown read
      of a catch-up returns a frame. */
  predicate UpdateDefined(video: Video, s: PlayerState)
  {
    && s.pipe.Valid()
    && (s.playing ==>
         && s.audio.Some?
         && (Catches(video, s) ==> s.pipe.pos + Reads(Trunc(s.cursor) - s.last) <= |s.pipe.frames|))
  }

  function CatchUp(video: Video, s: PlayerState): (r: (Pipe, Image))
    requires UpdateDefined(video, s) && s.playing && Catches(video, s)
    ensures var n := Reads(Trunc(s.cursor) - s.last);
            && r.0.Valid() && r.0.seek == s.pipe.seek && r.0.frames == s.pipe.frames
            && r.0.pos == s.pipe.pos + n
            && r.1 == Picture(s.pipe.frames[s.pipe.pos + n - 1], video.resolution)
  {
    var difference := Trunc(s.cursor) - s.last;
    var skipped := PipeSkip(s.pipe, if difference > 1 then difference - 1 else 0);
    var (frame, pipe) := PipeRead(skipped);
    (pipe, Picture(frame.value, video.resolution))
  }

  /** The audio start of update: only the adapter's flag is consulted. */
  function AutoStart(a: Adapter): (r: Adapter)
    ensures r.isPlaying
    ensures !a.isPlaying ==> r.sound.playbacks == a.sound.playbacks + 1
    ensures a.isPlaying ==> r == a
    ensures r.sound.samples == a.sound.samples && r.sound.volume == a.sound.volume
  {
    if !a.isPlaying then AdapterPlay(a) else a
  }

  function Update(video: Video, s: PlayerState, now: int): (r: PlayerState)
    requires UpdateDefined(video, s)
    ensures r.pipe.Valid() && !r.firstCall && r.lastFrameTime == now && r.playing == s.playing
  {
    var anchor := if s.firstCall then now else s.lastFrameTime;
    var delta := Elapsed(now, anchor);
    var ticked := s.(firstCall := false, lastFrameTime := now);
    if !s.playing then ticked
    else
      var audio := Some(AutoStart(s.audio.value));
      var (pipe, image, last) :=
        if Trunc(s.cursor) == s.last then (s.pipe, s.image, s.last)
        else if s.last < video.totalFrames then
          var (p, img) := CatchUp(video, s); (p, img, Trunc(s.cursor))
        else (s.pipe, s.image, Trunc(s.cursor));
      ticked.(audio := audio, pipe := pipe, image := image, last := last, cursor := s.cursor + delta * video.Fps())
  }

  /** The frame-consumption law of this variant. */
  lemma {:induction false} UpdateConsumesDifference(video: Video, s: PlayerState, now: int)
    requires UpdateDefined(video, s) && s.playing && Catches(video, s)
    ensures var r := Update(video, s, now);
            var n := Reads(Trunc(s.cursor) - s.last);
            r.pipe.pos == s.pipe.pos + n && r.pipe.frames == s.pipe.frames &&
            r.image == Picture(s.pipe.frames[s.pipe.pos + n - 1], video.resolution) &&
            r.last == Trunc(s.cursor)
  {
  }

  /** Audio starts in update whenever the video plays and the flag is false,
      muted or not (this player has no mute). */
  lemma {:induction false} UpdateStartsAudio(video: Video, s: PlayerState, now: int)
    requires UpdateDefined(video, s) && s.audio.Some?
    ensures var r := Update(video, s, now);
            r.audio.Some? && r.audio.value.isPlaying == (s.audio.value.isPlaying || s.playing)
  {
  }

  lemma {:induction false} UpdateCursor(video: Video, s: PlayerState, now: int)
    requires UpdateDefined(video, s)
    ensures var r := Update(video, s, now);
            (!s.playing || s.firstCall ==> r.cursor == s.cursor) &&
            (s.playing && !s.firstCall ==> r.cursor == s.cursor + Elapsed(now, s.lastFrameTime) * video.Fps())
  {
  }

  /** stop, set_position, play, update: the seek starts the new Sound while
      the flag stays false, so update plays it a second time and two playbacks
      of the same Sound overlap. */
  lemma {:induction false} SeekWhileStoppedOverlaps(video: Video, track: Track, s: PlayerState, index: int, now: int)
    requires s.audio.Some?
    ensures var p := Play(SetPosition(video, Some(track), Stop(s), index));
            && UpdateDefined(video, p)
            && Update(video, p, now).audio.Some?
            && Update(video, p, now).audio.value.isPlaying
            && Update(video, p, now).audio.value.sound.playbacks == 2
  {
  }

  /** Where update raises, the model has no successor state. Near the end of
      the stream a tick that moves the index two or more frames ahead, with at
      most one frame left in the pipe, skips the last frame and the shown read
      comes back empty: frombuffer raises ValueError. */
  lemma {:induction false} EndOvershootRaises(video: Video, s: PlayerState)
    requires s.playing && s.audio.Some? && s.last < video.totalFrames
    requires Trunc(s.cursor) >= s.last + 2 && s.pipe.pos + 2 > |s.pipe.frames|
    ensures !UpdateDefined(video, s)
  {
  }

  /** The case that ends every video whose last tick overshoots: 10 frames, 9
      read, frame 9 shown, cursor at 11.0. */
  lemma {:induction false} EndOvershootExample(video: Video, s: PlayerState)
    requires s.playing && s.audio.Some? && video.totalFrames == 10
    requires |s.pipe.frames| == 10 && s.pipe.pos == 9 && s.last == 9 && s.cursor == 11.0
    ensures !UpdateDefined(video, s)
  {
    assert Trunc(11.0) == 11;
    EndOvershootRaises(video, s);
  }

  /** A playing player built without sound raises AttributeError in update: the
      adapter is read before the hasSound test. */
  lemma {:induction false} PlayingWithoutSoundRaises(video: Video, s: PlayerState)
    requires s.playing && s.audio.None?
    ensures !UpdateDefined(video, s)
  {
  }

  /** After a seek the next update reads nothing: the cursor and `last` agree. */
  lemma {:induction false} SeekThenUpdateReadsNothing(video: Video, track: Option<Track>, s: PlayerState, index: int, now: int)
    requires s.audio.Some? <==> track.Some?
    requires UpdateDefined(video, s)
    ensures UpdateDefined(video, SetPosition(video, track, s, index))
    ensures var p := SetPosition(video, track, s, index);
            Update(video, p, now).pipe == p.pipe && Update(video, p, now).image == p.image
  {
  }
}

/** The classes of VideoPlayer/videoplayer2.py. */
module Player2 {
  import opened Common
  import opened Playback
  import opened Sync2

  class AudioAdapter {
    const track: Track
    var sound: Sound
    var isPlaying: bool

    function State(): Adapter
      reads this
    {
      Adapter(sound, isPlaying)
    }

    constructor(track: Track)
      ensures this.track == track && State() == AdapterInit(track)
    {
      this.track := track;
      sound := NewSound(track.raw);
      isPlaying := false;
    }

    method Play()
      modifies this
      ensures State() == AdapterPlay(old(State()))
    {
      sound := SoundPlay(sound);
      isPlaying := true;
    }

    method Stop()
      modifies this
      ensures State() == AdapterStop(old(State()))
    {
      sound := SoundStop(sound);
      isPlaying := false;
    }

    method SetPos(seconds: int)
      modifies this
      ensures State() == Sync2.AudioSetPos(track, old(State()), seconds)
    {
      var index := track.rate * seconds * track.channels * track.width;
      sound := SoundStop(sound);
      sound := NewSound(PySliceFrom(track.raw, index));
      sound := SoundPlay(sound);
    }
  }

  class VideoPlayer {
    const video: Video
    /** null when the player was built with hasSound false. */
    const audio: AudioAdapter?
    var pipe: Pipe
    var cursor: real
    var last: int
    var playing: bool
    var firstCall: bool
    var lastFrameTime: int
    var image: Image

    function State(): PlayerState
      reads this, audio
    {
      PlayerState(pipe, cursor, last, playing, firstCall, lastFrameTime, image,
                  if audio == null then None else Some(audio.State()))
    }

    function Track(): Option<Track>
      reads this
    {
      if audio == null then None else Some(audio.track)
    }

    constructor(video: Video, track: Option<Track>)
      ensures this.video == video && Track() == track && (track.Some? ==> fresh(audio))
      ensures State() == Initial(video, track)
    {
      this.video := video;
      if track.Some? {
        audio := new AudioAdapter(track.value);
      } else {
        audio := null;
      }
      pipe := OpenPipe(video.decoder, 0.0);
      cursor := 0.0;
      last := 0;
      playing := false;
      firstCall := true;
      lastFrameTime := 0;
      image := Fill(video.resolution);
    }

    method Play()
      modifies this
      ensures State() == Sync2.Play(old(State()))
    {
      playing := true;
    }

    method Stop()
      modifies this, audio
      ensures State() == Sync2.Stop(old(State()))
    {
      playing := false;
      if audio != null {
        audio.Stop();
      }
    }

    method SetPosition(index: int)
      modifies this, audio
      ensures State() == Sync2.SetPosition(video, Track(), old(State()), index)
    {
      if audio != null {
        audio.SetPos(index);
      }
      pipe := OpenPipe(video.decoder, index as real);
      cursor := video.FrameOfSecond(index);
      last := Trunc(video.FrameOfSecond(index));
    }

    method CatchUpFrames()
      requires UpdateDefined(video, State()) && playing && Catches(video, State())
      modifies this
      ensures (pipe, image) == CatchUp(video, old(State()))
      ensures cursor == old(cursor) && last == old(last) && playing == old(playing)
      ensures firstCall == old(firstCall) && lastFrameTime == old(lastFrameTime)
    {
      var difference := Trunc(cursor) - last;
      if difference > 1 {
        pipe := SkipFrames(pipe, difference - 1);
      }
      var (frame, next) := PipeRead(pipe);
      pipe := next;
      image := Picture(frame.value, video.resolution);
    }

    method Update(now: int)
      requires UpdateDefined(video, State())
      modifies this, audio
      ensures State() == Sync2.Update(video, old(State()), now)
    {
      ghost var s := State();
      if firstCall {
        firstCall := false;
        lastFrameTime := now;
      }
      var delta := Elapsed(now, lastFrameTime);
      if playing {
        if !audio.isPlaying {
          audio.Play();
        }
        assert audio.State() == AutoStart(s.audio.value);
        if Trunc(cursor) != last {
          if last < video.totalFrames {
            CatchUpFrames();
          }
          last := Trunc(cursor);
        }
        cursor := cursor + delta * video.Fps();
      }
      lastFrameTime := now;
    }
  }
}
