/** Shared vocabulary of the players: failure-compatible wrappers, the Python
    conversions the sync code relies on, the frame pipe and the displayed image. */
module Common {

  datatype Option<+T> = None | Some(value: T)

  datatype Result<+T, +E> = Ok(value: T) | Err(error: E)

  /** A pixel resolution (width, height). */
  type Size = (int, int)

  /** Frames are opaque; a frame is identified by the id the decoder gave it. */
  type FrameId = int

  function Min(a: int, b: int): int { if a <= b then a else b }

  function Max(a: int, b: int): int { if a <= b then b else a }

  /** Python's int() on a float: truncation toward zero. */
  function Trunc(x: real): (r: int)
    ensures x >= 0.0 ==> r as real <= x < r as real + 1.0
    ensures x < 0.0 ==> r as real - 1.0 < x <= r as real
    ensures (r >= 0) == (x > -1.0)
  {
    if x >= 0.0 then x.Floor else -((-x).Floor)
  }

  lemma TruncMonotone(x: real, y: real)
    requires x <= y
    ensures Trunc(x) <= Trunc(y)
  {
  }

  /** Python's s[i:] for an integer i, negative indices counting from the end. */
  function PySliceFrom<T>(s: seq<T>, i: int): (r: seq<T>)
    ensures 0 <= i <= |s| ==> r == s[i..]
    ensures i >= |s| ==> r == []
    ensures i < 0 ==> r == s[Max(0, |s| + i)..]
    ensures |r| <= |s| && r == s[|s| - |r|..]
  {
    if i >= 0 then (if i <= |s| then s[i..] else [])
    else if |s| + i >= 0 then s[|s| + i..]
    else s
  }

  /** A decoder session: the seek offset (seconds) it was opened at, the frames
      the decoder emits from there, and how many of them have been read. */
  datatype Pipe = Pipe(seek: real, frames: seq<FrameId>, pos: nat)
  {
    predicate Valid() { pos <= |frames| }

    /** Frames still to come. */
    function Remaining(): nat { if pos <= |frames| then |frames| - pos else 0 }
  }

  /** Spawning the decoder at `seconds`: a fresh session positioned at its first frame. */
  function OpenPipe(decoder: real -> seq<FrameId>, seconds: real): (p: Pipe)
    ensures p.Valid() && p.pos == 0 && p.seek == seconds && p.Remaining() == |decoder(seconds)|
  {
    Pipe(seconds, decoder(seconds), 0)
  }

  /** One fixed-size read of the pipe: the next frame, or nothing at end of stream
      (the read returns b''). */
  function PipeRead(p: Pipe): (r: (Option<FrameId>, Pipe))
    requires p.Valid()
    ensures r.1.Valid() && r.1.seek == p.seek && r.1.frames == p.frames
    ensures r.0.Some? <==> p.pos < |p.frames|
    ensures r.0.Some? ==> r.0.value == p.frames[p.pos] && r.1.pos == p.pos + 1
    ensures r.0.None? ==> r.1 == p
  {
    if p.pos < |p.frames| then (Some(p.frames[p.pos]), p.(pos := p.pos + 1)) else (None, p)
  }

  /** `k` reads whose results are thrown away. */
  function PipeSkip(p: Pipe, k: nat): (q: Pipe)
    requires p.Valid()
    ensures q.Valid() && q.seek == p.seek && q.frames == p.frames
    ensures q.pos == Min(p.pos + k, |p.frames|)
    decreases k
  {
    if k == 0 then p else PipeSkip(PipeRead(p).1, k - 1)
  }

  /** The frame-skipping loop: `k` reads from the pipe, one at a time. */
  method SkipFrames(p: Pipe, k: nat) returns (q: Pipe)
    requires p.Valid()
    ensures q == PipeSkip(p, k)
  {
    q := p;
    for i := 0 to k
      invariant q == PipeSkip(p, i)
    {
      var (_, next) := PipeRead(q);
      q := next;
    }
  }

  /** What the player holds as its current picture: the initial Surface before
      any frame is shown (red-filled in v1 to v3, left blank in the buffered
      player), or a decoded frame shown at some size. */
  datatype Image = Fill(size: Size) | Picture(frame: FrameId, size: Size)

  /** pygame.transform.scale: the same content at a new size. */
  function ScaleTo(img: Image, size: Size): (r: Image)
    ensures r.size == size && r.Fill? == img.Fill?
    ensures r.Picture? ==> r.frame == img.frame
  {
    match img
    case Fill(_) => Fill(size)
    case Picture(f, _) => Picture(f, size)
  }
}
