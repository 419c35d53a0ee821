/** The buffered player of videoplayer.py: frames are fetched in chunks by a
    fresh decoder per chunk into a FIFO list, update pops one frame per index
    change, and the list is topped up by 25 frames whenever it falls below 225. */
module Buffered {
  import opened Common
  import opened Probe
  import opened Text
  import opened Playback

  /** What the player learns from the probes: the frame rate as get_fps returns it
      (the raw numerator), the frame count, the frame size, and the decoder. */
  datatype Source = Source(fps: int, totalFrames: int, resolution: Size, decoder: real -> seq<FrameId>)

  /** get_fps: the numerator of r_frame_rate, with no milli-unit normalisation. */
  function GetFps(output: string): (r: Option<int>)
    ensures var head := Split(output, '/')[0];
            && |head| <= |output| && head == output[..|head|] && '/' !in head
            && (|head| == |output| || output[|head|] == '/')
            && r == ParseInt(head)
  {
    SplitHead(output, '/');
    FpsNumerator(output)
  }

  /** Unlike the other players, a numerator above 1000 is kept as it is. */
  lemma {:induction false} GetFpsIsRaw(num: nat, den: nat)
    requires num > 1000
    ensures GetFps(ShowInt(num) + "/" + ShowInt(den)) == Some(num)
    ensures NormaliseFps(num) != num as real
  {
    FpsNumeratorOfRatio(num, den);
  }

  /** The count _read_frame asks for: reduced to total - i when i + n passes the end. */
  function Clamp(src: Source, i: int, n: int): (c: int)
    ensures i + n <= src.totalFrames ==> c == n
    ensures i + n > src.totalFrames ==> c == src.totalFrames - i && c < n
  {
    if i + n > src.totalFrames then src.totalFrames - i else n
  }

  /** Everything a decoder started at frame i (i / fps seconds) would emit. */
  function Chunk(src: Source, i: int): seq<FrameId>
    requires src.fps != 0
  {
    src.decoder(i as real / src.fps as real)
  }

  /** The chunk for frame i comes from the decoder started at the second t with
      t * fps == i; for a multiple of fps that is the whole second i / fps. */
  lemma {:induction false} ChunkSeek(src: Source, i: int, t: real)
    requires src.fps != 0 && t * src.fps as real == i as real
    ensures Chunk(src, i) == src.decoder(t)
    ensures i % src.fps == 0 ==> Chunk(src, i) == src.decoder((i / src.fps) as real)
  {
    var f := src.fps as real;
    assert (i as real / f) * f == i as real;
    assert (t - i as real / f) * f == 0.0;
    assert t == i as real / f;
    if i % src.fps == 0 {
      assert (i / src.fps) * src.fps == i;
      assert (i / src.fps) as real * f == i as real;
      assert (t - (i / src.fps) as real) * f == 0.0;
      assert t == (i / src.fps) as real;
    }
  }

  /** _read_frame(i, n) does not raise: fps is not zero (the seek offset divides by
      it), and the decoder emits every frame the loop reads. */
  predicate Readable(src: Source, i: int, n: int)
  {
    src.fps != 0 && Max(0, Clamp(src, i, n)) <= |Chunk(src, i)|
  }

  /** The list _read_frame(i, n) returns: exactly max(0, reduced count) frames,
      the first ones the decoder emits from i / fps seconds. */
  function Frames(src: Source, i: int, n: int): (r: seq<FrameId>)
    requires Readable(src, i, n)
    ensures |r| == Max(0, Clamp(src, i, n))
    ensures i + n <= src.totalFrames ==> |r| == Max(0, n)
    ensures i >= src.totalFrames ==> r == []
    ensures forall k :: 0 <= k < |r| ==> r[k] == Chunk(src, i)[k]
  {
    Chunk(src, i)[..Max(0, Clamp(src, i, n))]
  }

  /** _read_frame: one pipe per call, read frame by frame into a list. */
  method ReadFrame(src: Source, i: int, n: int) returns (frames: seq<FrameId>)
    requires Readable(src, i, n)
    ensures frames == Frames(src, i, n)
  {
    var count := Clamp(src, i, n);
    var pipe := OpenPipe(src.decoder, i as real / src.fps as real);
    frames := [];
    var k := 0;
    while k < count
      invariant 0 <= k <= Max(0, count)
      invariant pipe.Valid() && pipe.frames == Chunk(src, i) && pipe.pos == k
      invariant frames == Chunk(src, i)[..k]
    {
      var (frame, next) := PipeRead(pipe);
      frames := frames + [frame.value];
      pipe := next;
      k := k + 1;
    }
  }

  /** Every chunk the player can ask for inside the video is available in full. */
  ghost predicate Supplies(src: Source)
  {
    src.fps != 0 && forall i :: 0 <= i <= src.totalFrames ==> src.totalFrames - i <= |Chunk(src, i)|
  }

  lemma {:induction false} SuppliedReadable(src: Source, i: int, n: int)
    requires Supplies(src) && 0 <= i && 0 <= n
    ensures Readable(src, i, n)
  {
    if i <= src.totalFrames {
      assert src.totalFrames - i <= |Chunk(src, i)|;
    }
  }

  /** Frames fetched so far: the preload of min(200, total) and each refill of
      25 frames add up to min(buffer cursor, total). */
  lemma {:induction false} ChunkCount(src: Source, bc: int)
    requires 0 <= bc && 0 <= src.totalFrames
    ensures Min(bc, src.totalFrames) + Max(0, Clamp(src, bc, 25)) == Min(bc + 25, src.totalFrames)
    ensures Max(0, Clamp(src, 0, 200)) == Min(200, src.totalFrames)
  {
  }

  /** The audio adapter of videoplayer.py: only set_pos, which builds a new Sound
      from the ORIGINAL samples at seconds * rate and does not play it. */
  class AudioAdapter {
    const track: Track
    var sound: Sound

    constructor(track: Track)
      ensures this.track == track && sound == NewSound(track.raw)
    {
      this.track := track;
      sound := NewSound(track.raw);
    }

    method SetPos(seconds: int)
      modifies this
      ensures sound == NewSound(PySliceFrom(track.raw, seconds * track.rate))
      ensures sound.samples == PySliceFrom(track.raw, seconds * track.rate) && !sound.Mixing() && sound.volume == 1.0
      ensures 0 <= seconds * track.rate <= |track.raw| ==> sound.samples == track.raw[seconds * track.rate..]
      ensures seconds * track.rate >= |track.raw| ==> sound.samples == []
    {
      sound := NewSound(PySliceFrom(track.raw, seconds * track.rate));
    }
  }

  class VideoPlayer {
    const src: Source
    const audio: AudioAdapter
    var frameBuffer: seq<FrameId>
    var bufferCursor: int
    var cursor: real
    var last: int
    var isPlaying: bool
    var image: Image
    var lastTick: int
    /** Frames popped for display, in order. */
    ghost var shown: seq<FrameId>
    /** Frames appended to the buffer, in order. */
    ghost var appended: seq<FrameId>

    /** FIFO order: what was shown, followed by what is buffered, is exactly what
        was appended. */
    ghost predicate Valid()
      reads this
    {
      shown + frameBuffer == appended
    }

    /** The buffer's reserve: every frame up to the buffer cursor was fetched,
        at most `last` were shown, and while frames remain to be fetched at least
        200 are buffered. */
    ghost predicate Reserve()
      reads this
    {
      && Supplies(src) && src.fps > 0 && src.totalFrames >= 0
      && 0 <= last <= src.totalFrames
      && |shown| <= last
      && 200 <= bufferCursor
      && |appended| == Min(bufferCursor, src.totalFrames)
      && (bufferCursor < src.totalFrames ==> |frameBuffer| >= 200)
    }

    /** Forward playback from the constructor on: the reserve, and a cursor that
        is not behind the shown index. */
    ghost predicate Steady()
      reads this
    {
      Reserve() && last <= Trunc(cursor) && 0.0 <= cursor
    }

    /** The cursor update would move to, before its frame check. */
    function Advanced(now: int): real
      reads this
    {
      if isPlaying then cursor + Elapsed(now, lastTick) * src.fps as real else cursor
    }

    /** update pops a frame: the index moved and the cursor is not past the end. */
    predicate Pops(now: int)
      reads this
    {
      isPlaying && Trunc(Advanced(now)) != last && Advanced(now) <= src.totalFrames as real
    }

    /** update does not raise: a pop finds a frame, and a refill can be read. */
    predicate UpdateDefined(now: int)
      reads this
    {
      Pops(now) ==> |frameBuffer| > 0 && (|frameBuffer| - 1 < 225 ==> Readable(src, bufferCursor, 25))
    }

    /** The constructor without the .frames dump: preload_pattern(0, 200). The
        initial image is a new Surface of the output size that is never filled. */
    constructor(src: Source, track: Track, resizeTo: Size)
      requires Readable(src, 0, 200)
      ensures this.src == src && fresh(audio) && audio.track == track && Valid()
      ensures frameBuffer == Frames(src, 0, 200) && bufferCursor == 200
      ensures cursor == 0.0 && last == 0 && isPlaying && lastTick == 0 && image == Fill(resizeTo)
      ensures Supplies(src) && src.fps > 0 && src.totalFrames >= 0 ==> Steady()
    {
      this.src := src;
      audio := new AudioAdapter(track);
      cursor := 0.0;
      last := 0;
      bufferCursor := 0;
      isPlaying := true;
      image := Fill(resizeTo);
      lastTick := 0;
      frameBuffer := [];
      shown := [];
      appended := [];
      new;
      PreloadPattern(0, 200);
      if src.totalFrames >= 0 {
        ChunkCount(src, 0);
      }
    }

    /** _preload_pattern(start, end): `end` is passed on as a COUNT, and becomes
        the buffer cursor. */
    method PreloadPattern(start: int, end: int)
      requires Valid() && Readable(src, start, end)
      modifies this
      ensures Valid() && shown == old(shown)
      ensures frameBuffer == old(frameBuffer) + Frames(src, start, end)
      ensures appended == old(appended) + Frames(src, start, end)
      ensures bufferCursor == end
      ensures cursor == old(cursor) && last == old(last) && isPlaying == old(isPlaying)
      ensures image == old(image) && lastTick == old(lastTick)
    {
      var frames := ReadFrame(src, start, end);
      frameBuffer := frameBuffer + frames;
      appended := appended + frames;
      bufferCursor := end;
    }

    /** _buffer_video_frames: up to 25 frames from the buffer cursor, which always
        advances by exactly 25. */
    method BufferVideoFrames()
      requires Valid() && Readable(src, bufferCursor, 25)
      modifies this
      ensures Valid() && shown == old(shown)
      ensures frameBuffer == old(frameBuffer) + Frames(src, old(bufferCursor), 25)
      ensures appended == old(appended) + Frames(src, old(bufferCursor), 25)
      ensures bufferCursor == old(bufferCursor) + 25
      ensures cursor == old(cursor) && last == old(last) && isPlaying == old(isPlaying)
      ensures image == old(image) && lastTick == old(lastTick)
    {
      var frames := ReadFrame(src, bufferCursor, 25);
      frameBuffer := frameBuffer + frames;
      appended := appended + frames;
      bufferCursor := bufferCursor + 25;
    }

    /** _set_pos(index): the cursor is set to `index` as given (seconds, not
        frames) and the audio is repositioned; the buffer is left alone. */
    method SetPos(index: int)
      requires Valid()
      modifies this, audio
      ensures Valid() && cursor == index as real
      ensures audio.sound == NewSound(PySliceFrom(audio.track.raw, index * audio.track.rate))
      ensures audio.sound.samples == PySliceFrom(audio.track.raw, index * audio.track.rate) && !audio.sound.Mixing()
      ensures frameBuffer == old(frameBuffer) && bufferCursor == old(bufferCursor) && last == old(last)
      ensures isPlaying == old(isPlaying) && image == old(image) && lastTick == old(lastTick)
      ensures shown == old(shown) && appended == old(appended)
    {
      cursor := index as real;
      audio.SetPos(index);
    }

    method Play()
      modifies this
      ensures isPlaying
      ensures cursor == old(cursor) && last == old(last) && frameBuffer == old(frameBuffer)
      ensures bufferCursor == old(bufferCursor) && image == old(image) && lastTick == old(lastTick)
      ensures shown == old(shown) && appended == old(appended)
    {
      isPlaying := true;
    }

    /** The body of update's frame check: pop and show the front frame, move
        `last` to the cursor's index, and top the buffer up below 225. */
    method ShowNext()
      requires Valid() && |frameBuffer| > 0 && (|frameBuffer| - 1 < 225 ==> Readable(src, bufferCursor, 25))
      modifies this
      ensures Valid() && image == Picture(old(frameBuffer)[0], src.resolution)
      ensures shown == old(shown) + [old(frameBuffer)[0]] && last == Trunc(cursor)
      ensures |old(frameBuffer)| - 1 < 225 ==>
                frameBuffer == old(frameBuffer)[1..] + Frames(src, old(bufferCursor), 25) &&
                bufferCursor == old(bufferCursor) + 25
      ensures |old(frameBuffer)| - 1 >= 225 ==>
                frameBuffer == old(frameBuffer)[1..] && bufferCursor == old(bufferCursor)
      ensures cursor == old(cursor) && isPlaying == old(isPlaying) && lastTick == old(lastTick)
      ensures old(Reserve()) && old(last) < Trunc(cursor) <= src.totalFrames ==> Reserve()
    {
      image := Picture(frameBuffer[0], src.resolution);
      shown := shown + [frameBuffer[0]];
      frameBuffer := frameBuffer[1..];
      last := Trunc(cursor);
      if |frameBuffer| < 225 {
        ghost var bc := bufferCursor;
        BufferVideoFrames();
        if old(Reserve()) {
          ChunkCount(src, bc);
        }
      }
    }

    /** update at tick `now`: advance the cursor; on an index change inside the
        video pop and show the front frame. */
    method Update(now: int)
      requires Valid() && UpdateDefined(now)
      modifies this
      ensures Valid() && cursor == old(Advanced(now)) && lastTick == now && isPlaying == old(isPlaying)
      ensures old(Pops(now)) ==>
                && image == Picture(old(frameBuffer)[0], src.resolution)
                && shown == old(shown) + [old(frameBuffer)[0]]
                && last == Trunc(cursor)
                && (|old(frameBuffer)| - 1 < 225 ==>
                      frameBuffer == old(frameBuffer)[1..] + Frames(src, old(bufferCursor), 25) &&
                      bufferCursor == old(bufferCursor) + 25)
                && (|old(frameBuffer)| - 1 >= 225 ==>
                      frameBuffer == old(frameBuffer)[1..] && bufferCursor == old(bufferCursor))
      ensures !old(Pops(now)) ==>
                && frameBuffer == old(frameBuffer) && bufferCursor == old(bufferCursor)
                && image == old(image) && last == old(last) && shown == old(shown)
      ensures old(Steady()) && now >= old(lastTick) ==> Steady()
    {
      ghost var wasSteady := Steady() && now >= lastTick;
      ghost var advanced := Advanced(now);
      var delta := Elapsed(now, lastTick);
      if isPlaying {
        if wasSteady {
          ForwardAdvance(cursor, delta, src.fps);
        }
        cursor := cursor + delta * src.fps as real;
        assert cursor == advanced;
        if Trunc(cursor) != last {
          if cursor <= src.totalFrames as real {
            ShowNext();
          }
        }
      }
      lastTick := now;
    }
  }

  /** On a clock that does not run backwards a positive rate only moves the
      cursor forward, and its frame index with it. */
  lemma ForwardAdvance(cursor: real, delta: real, fps: int)
    requires 0.0 <= cursor && 0.0 <= delta && fps > 0
    ensures cursor <= cursor + delta * fps as real
    ensures Trunc(cursor) <= Trunc(cursor + delta * fps as real)
  {
    assert delta * fps as real >= 0.0;
    TruncMonotone(cursor, cursor + delta * fps as real);
  }

  /** While the player only plays forward, update never pops an empty buffer and
      every refill can be read. */
  lemma {:induction false} SteadyUpdateDefined(p: VideoPlayer, now: int)
    requires p.Steady() && p.Valid() && now >= p.lastTick
    ensures p.UpdateDefined(now)
  {
    if p.Pops(now) {
      var c := p.Advanced(now);
      assert Elapsed(now, p.lastTick) * p.src.fps as real >= 0.0;
      TruncMonotone(p.cursor, c);
      assert Trunc(c) <= p.src.totalFrames;
      if p.bufferCursor >= p.src.totalFrames {
        assert |p.frameBuffer| == p.src.totalFrames - |p.shown|;
      }
      SuppliedReadable(p.src, p.bufferCursor, 25);
    }
  }
}
