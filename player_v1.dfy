/** The frame clock of VideoPlayer/videoplayer.py, as functions on a snapshot of
    the player: a real cursor in frames, the integer index of the last frame
    shown, a forward-only frame pipe, and an audio adapter that may be absent. */
module Sync1 {
  import opened Common
  import opened Playback

  // ----- AudioAdapter -----

  /** The adapter's changing state: the current Sound and the two flags. */
  datatype AudioState = AudioState(sound: Sound, isPlaying: bool, isMuted: bool)

  /** A freshly built adapter: the whole track loaded, silent, not muted. */
  function AudioInit(track: Track): (a: AudioState)
    ensures a.sound.samples == track.raw && !a.sound.Mixing() && !a.isPlaying && !a.isMuted
  {
    AudioState(NewSound(track.raw), false, false)
  }

  /** play: one more playback of the Sound, overlapping any that runs. */
  function AudioPlay(a: AudioState): (r: AudioState)
    ensures r.isPlaying && r.sound.Mixing() && r.sound.playbacks == a.sound.playbacks + 1
    ensures r.sound.samples == a.sound.samples && r.sound.volume == a.sound.volume && r.isMuted == a.isMuted
  {
    a.(sound := SoundPlay(a.sound), isPlaying := true)
  }

  /** stop: every playback of the Sound ends. */
  function AudioStop(a: AudioState): (r: AudioState)
    ensures !r.isPlaying && !r.sound.Mixing()
    ensures r.sound.samples == a.sound.samples && r.sound.volume == a.sound.volume && r.isMuted == a.isMuted
  {
    a.(sound := SoundStop(a.sound), isPlaying := false)
  }

  /** The byte offset of a position in whole seconds: that many seconds of audio
      frames, each frame one sample of every channel, so the offset never splits
      a frame. */
  function ByteOffset(track: Track, seconds: int): (r: int)
    ensures r == seconds * track.rate * (track.channels * track.width)
    ensures seconds >= 0 && track.rate >= 0 && track.channels >= 0 && track.width >= 0 ==> r >= 0
  {
    track.rate * seconds * track.channels * track.width
  }

  /** set_pos: stop, rebuild the Sound from the ORIGINAL samples at the byte
      offset, and play it. */
  function AudioSetPos(track: Track, a: AudioState, seconds: int): (r: AudioState)
    ensures r.isPlaying && r.sound.playbacks == 1 && r.isMuted == a.isMuted
    ensures r.sound.volume == 1.0
    ensures 0 <= ByteOffset(track, seconds) <= |track.raw| ==> r.sound.samples == track.raw[ByteOffset(track, seconds)..]
    ensures ByteOffset(track, seconds) >= |track.raw| ==> r.sound.samples == []
    ensures |r.sound.samples| <= |track.raw| && r.sound.samples == track.raw[|track.raw| - |r.sound.samples|..]
  {
    var index := ByteOffset(track, seconds);
    var stopped := AudioStop(a);
    AudioPlay(stopped.(sound := NewSound(PySliceFrom(track.raw, index))))
  }

  /** A seek depends only on the track and the target: earlier seeks leave no trace. */
  lemma {:induction false} AudioSetPosNotCumulative(track: Track, a: AudioState, s1: int, s2: int)
    ensures AudioSetPos(track, AudioSetPos(track, a, s1), s2) == AudioSetPos(track, a, s2)
  {
  }

  /** The mixer level pygame's Sound.set_volume hands to SDL_mixer: int(vol * 128). */
  function VolumeLevel(vol: real): int
  {
    Trunc(vol * 128.0)
  }

  /** The volume get_volume reads back after Sound.set_volume(vol): SDL_mixer
      ignores a negative level and caps one above 128, and the level is read back
      over 128. */
  function StoredVolume(current: real, vol: real): real
  {
    var level := VolumeLevel(vol);
    if level < 0 then current else if level > 128 then 1.0 else level as real / 128.0
  }

  /** set_volume: the Sound's volume, in steps of 1/128, within the range pygame
      accepts. */
  function AudioSetVolume(a: AudioState, vol: real): (r: AudioState)
    ensures -1.0 / 128.0 < vol <= 1.0 ==> r.sound.volume == VolumeLevel(vol) as real / 128.0
    ensures 0.0 <= vol <= 1.0 ==> r.sound.volume <= vol < r.sound.volume + 1.0 / 128.0
    ensures -1.0 / 128.0 < vol < 0.0 ==> r.sound.volume == 0.0
    ensures vol >= 1.0 ==> r.sound.volume == 1.0
    ensures vol <= -1.0 / 128.0 ==> r.sound.volume == a.sound.volume
    ensures 0.0 <= a.sound.volume <= 1.0 ==> 0.0 <= r.sound.volume <= 1.0
    ensures r.sound.samples == a.sound.samples && r.sound.playbacks == a.sound.playbacks
    ensures r.isPlaying == a.isPlaying && r.isMuted == a.isMuted
  {
    a.(sound := a.sound.(volume := StoredVolume(a.sound.volume, vol)))
  }

  // ----- VideoPlayer -----

  /** The fields of a VideoPlayer the frame clock works on. */
  datatype PlayerState = PlayerState(
    pipe: Pipe,
    cursor: real,
    last: int,
    playing: bool,
    firstCall: bool,
    lastFrameTime: int,
    image: Image,
    doResize: bool,
    resizeTo: Option<Size>,
    audio: Option<AudioState>)
  {
    predicate Valid()
    {
      pipe.Valid() && (doResize ==> resizeTo.Some?)
    }
  }

  /** The state the constructor leaves: pipe opened at 0, red fill, stopped. */
  function Initial(video: Video, track: Option<Track>, resolution: Option<Size>): (s: PlayerState)
    ensures s.Valid() && s.cursor == 0.0 && s.last == 0 && !s.playing && s.firstCall && !s.doResize
    ensures s.pipe == OpenPipe(video.decoder, 0.0) && s.image == Fill(video.resolution)
    ensures s.lastFrameTime == 0 && s.resizeTo == resolution
    ensures s.audio.Some? <==> track.Some?
    ensures track.Some? ==> s.audio == Some(AudioInit(track.value))
  {
    PlayerState(OpenPipe(video.decoder, 0.0), 0.0, 0, false, true, 0, Fill(video.resolution), false, resolution,
                if track.Some? then Some(AudioInit(track.value)) else None)
  }

  /** play sets the video flag and nothing else; the adapter starts in update. */
  function Play(s: PlayerState): (r: PlayerState)
    ensures r.playing && r.audio == s.audio && r.(playing := s.playing) == s
  {
    s.(playing := true)
  }

  /** stop: the video flag cleared and the adapter, when present, stopped. */
  function Stop(s: PlayerState): (r: PlayerState)
    ensures !r.playing
    ensures r.audio.Some? <==> s.audio.Some?
    ensures r.audio.Some? ==> r.audio == Some(AudioStop(s.audio.value))
    ensures r.(playing := s.playing, audio := s.audio) == s
  {
    s.(playing := false, audio := if s.audio.Some? then Some(AudioStop(s.audio.value)) else None)
  }

  /** pause has the same body as stop. */
  function Pause(s: PlayerState): (r: PlayerState)
    ensures !r.playing && (r.audio.Some? ==> !r.audio.value.isPlaying && !r.audio.value.sound.Mixing())
  {
    Stop(s)
  }

  lemma {:induction false} StopIdempotent(s: PlayerState)
    ensures Stop(Stop(s)) == Stop(s)
    ensures Pause(Pause(s)) == Pause(s)
  {
  }

  /** Starting and then stopping is the same as stopping. */
  lemma {:induction false} StopAfterPlay(s: PlayerState)
    ensures Stop(Play(s)) == Stop(s)
  {
  }

  /** set_position(index): audio sought to `index` seconds, a new pipe opened at
      `index` seconds, and the cursor placed on index * fps. */
  function SetPosition(video: Video, track: Option<Track>, s: PlayerState, index: int): (r: PlayerState)
    requires s.audio.Some? <==> track.Some?
    ensures r.pipe == OpenPipe(video.decoder, index as real)
    ensures r.cursor == video.FrameOfSecond(index) && r.last == Trunc(r.cursor)
    ensures r.audio.Some? <==> s.audio.Some?
    ensures r.audio.Some? ==> r.audio.value == AudioSetPos(track.value, s.audio.value, index)
    ensures r.(pipe := s.pipe, cursor := s.cursor, last := s.last, audio := s.audio) == s
  {
    var audio := if s.audio.Some? then Some(AudioSetPos(track.value, s.audio.value, index)) else None;
    s.(audio := audio, pipe := OpenPipe(video.decoder, index as real),
       cursor := video.FrameOfSecond(index), last := Trunc(video.FrameOfSecond(index)))
  }

  /** A seek forgets the previous one entirely. */
  lemma {:induction false} SetPositionForgets(video: Video, track: Option<Track>, s: PlayerState, i: int, j: int)
    requires s.audio.Some? <==> track.Some?
    ensures SetPosition(video, track, SetPosition(video, track, s, i), j) == SetPosition(video, track, s, j)
  {
    if s.audio.Some? {
      AudioSetPosNotCumulative(track.value, s.audio.value, i, j);
    }
  }

  /** unpause needs a non-zero rate, and the seek it performs needs whole seconds
      when there is sound (a float slice index raises). */
  predicate CanUnpause(video: Video, s: PlayerState)
  {
    video.Fps() != 0.0 && (s.audio.Some? ==> video.IntFps())
  }

  /** floor(x / f) * f is the largest multiple of f not above x. */
  lemma FloorTimes(x: real, f: real)
    ensures f > 0.0 ==> (x / f).Floor as real * f <= x < (x / f).Floor as real * f + f
  {
    if f > 0.0 {
      var q := x / f;
      var k := q.Floor as real;
      assert k * f <= q * f by {
        assert (q - k) * f >= 0.0;
      }
      calc {
        x;
      ==
        q * f;
      <  { assert (k + 1.0 - q) * f > 0.0; }
        (k + 1.0) * f;
      ==
        k * f + f;
      }
    }
  }

  /** The second unpause seeks to: last // fps, the start of the second holding
      frame `last`. */
  function ResumeSecond(video: Video, last: int): (k: int)
    requires video.Fps() != 0.0
    ensures video.Fps() > 0.0 ==>
              video.FrameOfSecond(k) <= last as real < video.FrameOfSecond(k) + video.Fps()
  {
    FloorTimes(last as real, video.Fps());
    (last as real / video.Fps()).Floor
  }

  /** unpause: play, then seek to the whole second ResumeSecond, with the cursor on
      its first frame. Pausing and unpausing thus loses at most one second of the
      video: the cursor resumes at most fps frames before the last frame shown. */
  function Unpause(video: Video, track: Option<Track>, s: PlayerState): (r: PlayerState)
    requires s.audio.Some? <==> track.Some?
    requires CanUnpause(video, s)
    ensures r.playing && r.pipe == OpenPipe(video.decoder, ResumeSecond(video, s.last) as real)
    ensures r.cursor == video.FrameOfSecond(ResumeSecond(video, s.last)) && r.last == Trunc(r.cursor)
    ensures video.Fps() > 0.0 ==> r.cursor <= s.last as real < r.cursor + video.Fps()
    ensures r.audio.Some? <==> s.audio.Some?
    ensures r.audio.Some? ==> r.audio.value == AudioSetPos(track.value, s.audio.value, ResumeSecond(video, s.last))
    ensures r.(pipe := s.pipe, cursor := s.cursor, last := s.last, audio := s.audio, playing := s.playing) == s
  {
    SetPosition(video, track, s.(playing := true), ResumeSecond(video, s.last))
  }

  /** Where unpause raises: with sound and a milli-unit rate, last // fps is a
      float and the byte slice of set_pos raises TypeError; with rate 0 the
      floor division raises ZeroDivisionError. */
  lemma {:induction false} UnpauseRaises(video: Video, s: PlayerState)
    ensures s.audio.Some? && video.numerator > 1000 ==> !CanUnpause(video, s)
    ensures video.numerator == 0 ==> !CanUnpause(video, s)
  {
  }

  function Mute(s: PlayerState): (r: PlayerState)
    ensures s.audio.None? ==> r == s
    ensures s.audio.Some? ==> r.audio == Some(AudioSetVolume(s.audio.value, 0.0).(isMuted := true))
    ensures r.(audio := s.audio) == s
  {
    if s.audio.Some? then s.(audio := Some(AudioSetVolume(s.audio.value, 0.0).(isMuted := true))) else s
  }

  /** unmute: the volume restored to vol, 1 when the caller gives none. */
  function Unmute(s: PlayerState, vol: real := 1.0): (r: PlayerState)
    ensures s.audio.None? ==> r == s
    ensures s.audio.Some? ==> r.audio == Some(AudioSetVolume(s.audio.value, vol).(isMuted := false))
    ensures r.(audio := s.audio) == s
  {
    if s.audio.Some? then s.(audio := Some(AudioSetVolume(s.audio.value, vol).(isMuted := false))) else s
  }

  /** The volume property: the Sound's volume, None (Python None) without sound. */
  function Volume(s: PlayerState): (r: Option<real>)
    ensures r.Some? <==> s.audio.Some?
    ensures r.Some? ==> r.value == s.audio.value.sound.volume
  {
    if s.audio.Some? then Some(s.audio.value.sound.volume) else None
  }

  function SetVolume(s: PlayerState, vol: real): (r: PlayerState)
    ensures s.audio.None? ==> r == s
    ensures s.audio.Some? ==> r.audio == Some(AudioSetVolume(s.audio.value, vol))
    ensures r.(audio := s.audio) == s
  {
    if s.audio.Some? then s.(audio := Some(AudioSetVolume(s.audio.value, vol))) else s
  }

  /** Set then get returns the volume rounded down to a step of 1/128 when it
      lies in [0, 1]; above 1 it reads back as 1, a value just below 0 reads
      back as 0, and one at or below -1/128 leaves the old volume in place. */
  lemma {:induction false} VolumeRoundTrip(s: PlayerState, vol: real)
    requires s.audio.Some?
    ensures -1.0 / 128.0 < vol <= 1.0 ==>
              && Volume(SetVolume(s, vol)) == Some(VolumeLevel(vol) as real / 128.0)
              && Volume(Unmute(s, vol)) == Some(VolumeLevel(vol) as real / 128.0)
    ensures 0.0 <= vol <= 1.0 ==> Volume(SetVolume(s, vol)).value <= vol < Volume(SetVolume(s, vol)).value + 1.0 / 128.0
    ensures vol >= 1.0 ==> Volume(SetVolume(s, vol)) == Some(1.0) && Volume(Unmute(s, vol)) == Some(1.0)
    ensures vol <= -1.0 / 128.0 ==> Volume(SetVolume(s, vol)) == Volume(s)
    ensures Volume(Mute(s)) == Some(0.0) && Volume(Unmute(s)) == Some(1.0)
  {
  }

  /** Exactly the multiples of 1/128 in [0, 1] read back unchanged. */
  lemma {:induction false} VolumeSteps(s: PlayerState, k: int)
    requires s.audio.Some? && 0 <= k <= 128
    ensures Volume(SetVolume(s, k as real / 128.0)) == Some(k as real / 128.0)
  {
    assert k as real / 128.0 * 128.0 == k as real;
  }

  /** set_volume(0.3) reads back 38/128 = 0.296875, not 0.3. */
  lemma {:induction false} VolumeRoundedDown(s: PlayerState)
    requires s.audio.Some?
    ensures Volume(SetVolume(s, 0.3)) == Some(0.296875)
  {
    assert 0.3 * 128.0 == 38.4;
    assert (38.4).Floor == 38;
  }

  /** unmute with a volume pygame accepts undoes mute completely; with a
      negative one the muted volume 0 survives the unmute. */
  lemma {:induction false} UnmuteAfterMute(s: PlayerState, vol: real)
    ensures vol >= 0.0 ==> Unmute(Mute(s), vol) == Unmute(s, vol)
    ensures vol < 0.0 && s.audio.Some? ==> Volume(Unmute(Mute(s), vol)) == Some(0.0)
    ensures Mute(Mute(s)) == Mute(s)
  {
  }

  /** ismuted: dereferences the adapter without a hasSound check. */
  function IsMuted(s: PlayerState): (r: bool)
    requires s.audio.Some?
    ensures r <==> s.audio.value.isMuted
  {
    s.audio.value.isMuted
  }

  lemma {:induction false} MuteFlag(s: PlayerState, vol: real)
    requires s.audio.Some?
    ensures IsMuted(Mute(s)) && !IsMuted(Unmute(s, vol))
  {
  }

  function Resize(s: PlayerState, size: Size): (r: PlayerState)
    ensures r.doResize && r.resizeTo == Some(size)
    ensures r.(doResize := s.doResize, resizeTo := s.resizeTo) == s
  {
    s.(resizeTo := Some(size), doResize := true)
  }

  // ----- update -----

  /** How many pipe reads an index change costs: the skipped frames plus the shown one. */
  function Reads(difference: int): nat
  {
    if difference > 1 then difference else 1
  }

  /** A frame as update shows it: at the video size, scaled when resizing is on. */
  function Shown(video: Video, s: PlayerState, frame: FrameId): Image
    requires s.doResize ==> s.resizeTo.Some?
  {
    var img := Picture(frame, video.resolution);
    if s.doResize then ScaleTo(img, s.resizeTo.value) else img
  }

  /** The frame check reads frames: the index moved and the end is not reached. */
  predicate Catches(video: Video, s: PlayerState)
  {
    Trunc(s.cursor) != s.last && s.last < video.totalFrames
  }

  /** update does not raise: while playing the adapter exists (it is dereferenced
      before the hasSound test), and the last read of a catch-up returns a frame
      (frombuffer of an empty read raises). */
  predicate UpdateDefined(video: Video, s: PlayerState)
  {
    s.Valid() &&
    (s.playing ==>
       && s.audio.Some?
       && (Catches(video, s) ==> s.pipe.pos + Reads(Trunc(s.cursor) - s.last) <= |s.pipe.frames|))
  }

  /** The catch-up: difference - 1 reads thrown away, one read shown. */
  function CatchUp(video: Video, s: PlayerState): (r: (Pipe, Image))
    requires UpdateDefined(video, s) && s.playing && Catches(video, s)
    ensures var n := Reads(Trunc(s.cursor) - s.last);
            && r.0.Valid() && r.0.seek == s.pipe.seek && r.0.frames == s.pipe.frames
            && r.0.pos == s.pipe.pos + n
            && r.1 == Shown(video, s, s.pipe.frames[s.pipe.pos + n - 1])
  {
    var difference := Trunc(s.cursor) - s.last;
    var skipped := PipeSkip(s.pipe, if difference > 1 then difference - 1 else 0);
    var (frame, pipe) := PipeRead(skipped);
    (pipe, Shown(video, s, frame.value))
  }

  /** Audio is started when the adapter reports not playing and is not muted. */
  function AutoStart(a: AudioState): (r: AudioState)
    ensures r.isPlaying == (a.isPlaying || !a.isMuted) && r.isMuted == a.isMuted
    ensures !a.isPlaying && !a.isMuted ==> r.sound.playbacks == a.sound.playbacks + 1
    ensures a.isPlaying || a.isMuted ==> r == a
    ensures r.sound.samples == a.sound.samples && r.sound.volume == a.sound.volume
  {
    if !a.isPlaying && !a.isMuted then AudioPlay(a) else a
  }

  /** The playing branch of update: start the audio if needed, catch up with the
      cursor's index, then advance the cursor by delta seconds of frames. */
  function Advance(video: Video, s: PlayerState, delta: real): (r: PlayerState)
    requires UpdateDefined(video, s) && s.playing
    ensures r.Valid() && r.playing && r.audio == Some(AutoStart(s.audio.value))
    ensures r.last == Trunc(s.cursor) && r.cursor == s.cursor + delta * video.Fps()
    ensures r.pipe.frames == s.pipe.frames && s.pipe.pos <= r.pipe.pos
    ensures r.(audio := s.audio, pipe := s.pipe, image := s.image, last := s.last, cursor := s.cursor) == s
  {
    var audio := Some(AutoStart(s.audio.value));
    var (pipe, image, last) :=
      if Trunc(s.cursor) == s.last then (s.pipe, s.image, s.last)
      else if s.last < video.totalFrames then
        var (p, img) := CatchUp(video, s); (p, img, Trunc(s.cursor))
      else (s.pipe, s.image, Trunc(s.cursor));
    s.(audio := audio, pipe := pipe, image := image, last := last, cursor := s.cursor + delta * video.Fps())
  }

  /** update at tick `now` (milliseconds). */
  function Update(video: Video, s: PlayerState, now: int): (r: PlayerState)
    requires UpdateDefined(video, s)
    ensures r.Valid() && !r.firstCall && r.lastFrameTime == now && r.playing == s.playing
  {
    var anchor := if s.firstCall then now else s.lastFrameTime;
    var ticked := s.(firstCall := false, lastFrameTime := now);
    if !s.playing then ticked else Advance(video, ticked, Elapsed(now, anchor))
  }

  /** The frame-consumption law: an index change reads exactly `difference` frames
      (at least one), shows the last of them, and moves `last` to the cursor's index. */
  lemma {:induction false} UpdateConsumesDifference(video: Video, s: PlayerState, now: int)
    requires UpdateDefined(video, s) && s.playing && Catches(video, s)
    ensures var r := Update(video, s, now);
            var n := Reads(Trunc(s.cursor) - s.last);
            r.pipe.pos == s.pipe.pos + n && r.pipe.frames == s.pipe.frames &&
            r.image == Shown(video, s, s.pipe.frames[s.pipe.pos + n - 1]) &&
            r.last == Trunc(s.cursor)
  {
  }

  /** Without an index change, or while stopped, nothing is read or shown. */
  lemma {:induction false} UpdateIdle(video: Video, s: PlayerState, now: int)
    requires UpdateDefined(video, s) && (!s.playing || Trunc(s.cursor) == s.last)
    ensures var r := Update(video, s, now);
            r.pipe == s.pipe && r.image == s.image && r.last == s.last
  {
  }

  /** Past the end nothing is read and the picture stays, yet the player keeps
      playing: there is no automatic stop. */
  lemma {:induction false} UpdateAtEnd(video: Video, s: PlayerState, now: int)
    requires UpdateDefined(video, s) && s.last >= video.totalFrames
    ensures var r := Update(video, s, now);
            r.pipe == s.pipe && r.image == s.image && r.playing == s.playing
  {
  }

  /** The cursor grows only while playing, by elapsed seconds times fps, measured
      from the previous tick; on the first call the elapsed time is zero. */
  lemma {:induction false} UpdateCursor(video: Video, s: PlayerState, now: int)
    requires UpdateDefined(video, s)
    ensures var r := Update(video, s, now);
            (!s.playing ==> r.cursor == s.cursor) &&
            (s.playing && !s.firstCall ==> r.cursor == s.cursor + Elapsed(now, s.lastFrameTime) * video.Fps()) &&
            (s.firstCall ==> r.cursor == s.cursor)
  {
  }

  /** Audio is started by update exactly when the video plays, the adapter reports
      not playing, and it is not muted. */
  lemma {:induction false} UpdateStartsAudio(video: Video, s: PlayerState, now: int)
    requires UpdateDefined(video, s) && s.audio.Some?
    ensures var r := Update(video, s, now);
            r.audio.Some? &&
            r.audio.value.isPlaying == (s.audio.value.isPlaying || (s.playing && !s.audio.value.isMuted))
  {
  }

  /** The cursor runs ahead of the shown index: last <= int(cursor). */
  ghost predicate Synced(s: PlayerState)
  {
    s.last <= Trunc(s.cursor)
  }

  /** update keeps the cursor ahead of the shown index while the clock does not go
      backwards and the rate is not negative. */
  lemma {:induction false} UpdateKeepsSynced(video: Video, s: PlayerState, now: int)
    requires UpdateDefined(video, s) && Synced(s)
    requires video.Fps() >= 0.0 && (s.firstCall || now >= s.lastFrameTime)
    ensures Synced(Update(video, s, now))
  {
    var r := Update(video, s, now);
    if s.playing {
      UpdateCursor(video, s, now);
      assert r.cursor >= s.cursor;
      TruncMonotone(s.cursor, r.cursor);
    }
  }

  /** Where update raises, the model has no successor state. Near the end of
      the stream a tick that moves the index two or more frames ahead, with at
      most one frame left in the pipe, skips the last frame and the shown read
      comes back empty: frombuffer raises ValueError. */
  lemma {:induction false} EndOvershootRaises(video: Video, s: PlayerState)
    requires s.playing && s.audio.Some? && s.last < video.totalFrames
    requires Trunc(s.cursor) >= s.last + 2 && s.pipe.pos + 2 > |s.pipe.frames|
    ensures !UpdateDefined(video, s)
  {
  }

  /** The case that ends every video whose last tick overshoots: 10 frames, 9
      read, frame 9 shown, cursor at 11.0. */
  lemma {:induction false} EndOvershootExample(video: Video, s: PlayerState)
    requires s.playing && s.audio.Some? && video.totalFrames == 10
    requires |s.pipe.frames| == 10 && s.pipe.pos == 9 && s.last == 9 && s.cursor == 11.0
    ensures !UpdateDefined(video, s)
  {
    assert Trunc(11.0) == 11;
    EndOvershootRaises(video, s);
  }

  /** A playing player built without sound raises AttributeError in update: the
      adapter is read before the hasSound test. */
  lemma {:induction false} PlayingWithoutSoundRaises(video: Video, s: PlayerState)
    requires s.playing && s.audio.None?
    ensures !UpdateDefined(video, s)
  {
  }

  /** After a seek the next update reads nothing: the cursor and `last` agree. */
  lemma {:induction false} SeekThenUpdateReadsNothing(video: Video, track: Option<Track>, s: PlayerState, index: int, now: int)
    requires s.audio.Some? <==> track.Some?
    requires UpdateDefined(video, s)
    ensures UpdateDefined(video, SetPosition(video, track, s, index))
    ensures var p := SetPosition(video, track, s, index);
            Update(video, p, now).pipe == p.pipe && Update(video, p, now).image == p.image
  {
    var p := SetPosition(video, track, s, index);
    UpdateIdle(video, p, now);
  }
}

/** The classes of VideoPlayer/videoplayer.py, each method proved against the
    matching function of Sync1. */
module Player1 {
  import opened Common
  import opened Playback
  import opened Sync1

  class AudioAdapter {
    const track: Track
    var sound: Sound
    var isPlaying: bool
    var isMuted: bool

    function State(): AudioState
      reads this
    {
      AudioState(sound, isPlaying, isMuted)
    }

    constructor(track: Track)
      ensures this.track == track && State() == AudioInit(track)
    {
      this.track := track;
      sound := NewSound(track.raw);
      isPlaying := false;
      isMuted := false;
    }

    method Play()
      modifies this
      ensures State() == AudioPlay(old(State()))
    {
      sound := SoundPlay(sound);
      isPlaying := true;
    }

    method Stop()
      modifies this
      ensures State() == AudioStop(old(State()))
    {
      sound := SoundStop(sound);
      isPlaying := false;
    }

    method SetMuted(b: bool)
      modifies this
      ensures State() == old(State()).(isMuted := b)
    {
      isMuted := b;
    }

    method SetPos(seconds: int)
      modifies this
      ensures State() == AudioSetPos(track, old(State()), seconds)
    {
      var index := track.rate * seconds * track.channels * track.width;
      Stop();
      sound := NewSound(PySliceFrom(track.raw, index));
      Play();
    }

    function GetVolume(): (r: real)
      reads this
      ensures r == State().sound.volume
    {
      sound.volume
    }

    method SetVolume(vol: real)
      modifies this
      ensures State() == AudioSetVolume(old(State()), vol)
      ensures -1.0 / 128.0 < vol <= 1.0 ==> GetVolume() == VolumeLevel(vol) as real / 128.0
      ensures 0.0 <= vol <= 1.0 ==> GetVolume() <= vol < GetVolume() + 1.0 / 128.0
    {
      sound := sound.(volume := StoredVolume(sound.volume, vol));
    }
  }

  class VideoPlayer {
    const video: Video
    /** null when the player was built with hasSound false. */
    const audio: AudioAdapter?
    var pipe: Pipe
    var cursor: real
    var last: int
    var playing: bool
    var firstCall: bool
    var lastFrameTime: int
    var image: Image
    var doResize: bool
    var resizeTo: Option<Size>

    function State(): PlayerState
      reads this, audio
    {
      PlayerState(pipe, cursor, last, playing, firstCall, lastFrameTime, image, doResize, resizeTo,
                  if audio == null then None else Some(audio.State()))
    }

    function Track(): Option<Track>
      reads this
    {
      if audio == null then None else Some(audio.track)
    }

    constructor(video: Video, track: Option<Track>, resolution: Option<Size>)
      ensures this.video == video && Track() == track && (track.Some? ==> fresh(audio))
      ensures State() == Initial(video, track, resolution)
    {
      this.video := video;
      if track.Some? {
        audio := new AudioAdapter(track.value);
      } else {
        audio := null;
      }
      pipe := OpenPipe(video.decoder, 0.0);
      cursor := 0.0;
      last := 0;
      playing := false;
      firstCall := true;
      lastFrameTime := 0;
      image := Fill(video.resolution);
      doResize := false;
      resizeTo := resolution;
    }

    method Play()
      modifies this
      ensures State() == Sync1.Play(old(State()))
    {
      playing := true;
    }

    method Stop()
      modifies this, audio
      ensures State() == Sync1.Stop(old(State()))
    {
      playing := false;
      if audio != null {
        audio.Stop();
      }
    }

    method Pause()
      modifies this, audio
      ensures State() == Sync1.Pause(old(State()))
    {
      playing := false;
      if audio != null {
        audio.Stop();
      }
    }

    method SetPosition(index: int)
      modifies this, audio
      ensures State() == Sync1.SetPosition(video, Track(), old(State()), index)
    {
      if audio != null {
        audio.SetPos(index);
      }
      pipe := OpenPipe(video.decoder, index as real);
      cursor := video.FrameOfSecond(index);
      last := Trunc(video.FrameOfSecond(index));
    }

    method Unpause()
      requires CanUnpause(video, State())
      modifies this, audio
      ensures State() == Sync1.Unpause(video, Track(), old(State()))
    {
      playing := true;
      SetPosition((last as real / video.Fps()).Floor);
    }

    function Volume(): (r: Option<real>)
      reads this, audio
      ensures r == Sync1.Volume(State())
    {
      if audio == null then None else Some(audio.GetVolume())
    }

    method SetVolume(vol: real)
      modifies audio
      ensures State() == Sync1.SetVolume(old(State()), vol)
    {
      if audio != null {
        audio.SetVolume(vol);
      }
    }

    method Mute()
      modifies audio
      ensures State() == Sync1.Mute(old(State()))
    {
      if audio != null {
        audio.SetVolume(0.0);
        audio.SetMuted(true);
      }
    }

    method Unmute(vol: real := 1.0)
      modifies audio
      ensures State() == Sync1.Unmute(old(State()), vol)
    {
      if audio != null {
        audio.SetVolume(vol);
        audio.SetMuted(false);
      }
    }

    function IsMuted(): (r: bool)
      requires audio != null
      reads this, audio
      ensures r == Sync1.IsMuted(State())
    {
      audio.isMuted
    }

    method Resize(size: Size)
      modifies this
      ensures State() == Sync1.Resize(old(State()), size)
    {
      resizeTo := Some(size);
      doResize := true;
    }

    /** The frame check's reads: skip difference - 1 frames, show the next one. */
    method CatchUpFrames()
      requires UpdateDefined(video, State()) && playing && Catches(video, State())
      modifies this
      ensures (pipe, image) == CatchUp(video, old(State()))
      ensures cursor == old(cursor) && last == old(last) && playing == old(playing)
      ensures firstCall == old(firstCall) && lastFrameTime == old(lastFrameTime)
      ensures doResize == old(doResize) && resizeTo == old(resizeTo)
    {
      var difference := Trunc(cursor) - last;
      if difference > 1 {
        pipe := SkipFrames(pipe, difference - 1);
      }
      var (frame, next) := PipeRead(pipe);
      pipe := next;
      image := Picture(frame.value, video.resolution);
      if doResize {
        image := ScaleTo(image, resizeTo.value);
      }
    }

    /** Start the adapter unless it is playing or muted. */
    method StartAudio()
      requires audio != null
      modifies audio
      ensures audio.State() == AutoStart(old(audio.State()))
    {
      if !audio.isPlaying && !audio.isMuted {
        audio.Play();
      }
    }

    /** The playing branch of update. */
    method Advance(delta: real)
      requires UpdateDefined(video, State()) && playing
      modifies this, audio
      ensures State() == Sync1.Advance(video, old(State()), delta)
    {
      StartAudio();
      if Trunc(cursor) != last {
        if last < video.totalFrames {
          CatchUpFrames();
        }
        last := Trunc(cursor);
      }
      cursor := cursor + delta * video.Fps();
    }

    /** update: the tick is recorded before the playing branch, which never reads it. */
    method Update(now: int)
      requires UpdateDefined(video, State())
      modifies this, audio
      ensures State() == Sync1.Update(video, old(State()), now)
    {
      if firstCall {
        firstCall := false;
        lastFrameTime := now;
      }
      var delta := Elapsed(now, lastFrameTime);
      lastFrameTime := now;
      if playing {
        Advance(delta);
      }
    }
  }
}
