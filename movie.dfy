/** The in-memory movie of pygmov.py: every decoded frame held in a list, a
    cursor that steps by cursor_inc and wraps to 0 at the length, and transforms
    that always start again from the untouched copy of the frames. */
module Movie {
  import opened Common

  /** One step of blit's cursor: add the increment, reset to 0 on reaching the length. */
  function Step(cursor: int, inc: int, length: int): (c: int)
    ensures 0 <= cursor < length && 0 <= inc <= 1 ==> 0 <= c < length
    ensures c == 0 || c == cursor + inc
  {
    if cursor + inc == length then 0 else cursor + inc
  }

  /** k blits in a row. */
  function Steps(cursor: int, inc: int, length: int, k: nat): int
    decreases k
  {
    if k == 0 then cursor else Steps(Step(cursor, inc, length), inc, length, k - 1)
  }

  /** The k-th blit is one more step after the first k - 1. */
  lemma {:induction false} StepsLast(cursor: int, inc: int, length: int, k: nat)
    requires k > 0
    ensures Steps(cursor, inc, length, k) == Step(Steps(cursor, inc, length, k - 1), inc, length)
    decreases k
  {
    if k > 1 {
      StepsLast(Step(cursor, inc, length), inc, length, k - 1);
    }
  }

  /** A positive multiple of n is at least n. */
  lemma {:induction false} MultipleAtLeast(d: nat, n: nat)
    requires d >= 1
    ensures d * n >= n
    decreases d
  {
    if d > 1 {
      MultipleAtLeast(d - 1, n);
      assert d * n == (d - 1) * n + n;
    }
  }

  /** Euclidean remainder is determined by any quotient/remainder split. */
  lemma {:induction false} ModUnique(a: int, n: int, q: int, r: int)
    requires 0 <= r < n && a == q * n + r
    ensures a % n == r
  {
    var q', r' := a / n, a % n;
    assert a == q' * n + r';
    var d := q - q';
    assert d * n == r' - r by {
      assert q * n - q' * n == (q - q') * n;
    }
    if d > 0 {
      MultipleAtLeast(d, n);
    } else if d < 0 {
      MultipleAtLeast(-d, n);
    }
  }

  /** While playing the cursor runs round the movie: after k blits it is at
      (cursor + k) mod length. */
  lemma {:induction false} PlayingWraps(cursor: int, length: int, k: nat)
    requires 0 <= cursor < length
    ensures Steps(cursor, 1, length, k) == (cursor + k) % length
    decreases k
  {
    if k == 0 {
      ModUnique(cursor, length, 0, cursor);
    } else {
      PlayingWraps(cursor, length, k - 1);
      StepsLast(cursor, 1, length, k);
      var x := cursor + k - 1;
      var q, r := x / length, x % length;
      if r + 1 == length {
        ModUnique(x + 1, length, q + 1, 0);
      } else {
        ModUnique(x + 1, length, q, r + 1);
      }
    }
  }

  /** While stopped the cursor does not move, however many blits. */
  lemma {:induction false} StoppedStays(cursor: int, length: int, k: nat)
    requires 0 <= cursor < length
    ensures Steps(cursor, 0, length, k) == cursor
    decreases k
  {
    if k > 0 {
      StoppedStays(cursor, length, k - 1);
    }
  }

  /** The frame apply_transform produces from an original frame: rotated by
      rotation + 90 degrees, then resized when a scale is given. */
  function TransformFrame<F>(rotate: (F, real) -> F, resize: (F, real) -> F, frame: F, scale: Option<real>, rotation: real): (r: F)
    ensures scale.None? ==> r == rotate(frame, rotation + 90.0)
    ensures scale.Some? ==> r == resize(rotate(frame, rotation + 90.0), scale.value)
  {
    var turned := rotate(frame, rotation + 90.0);
    if scale.Some? then resize(turned, scale.value) else turned
  }

  /** The result of apply_transform: each original frame transformed at its own index. */
  function Transformed<F>(rotate: (F, real) -> F, resize: (F, real) -> F, frames: seq<F>, scale: Option<real>, rotation: real): (r: seq<F>)
    ensures |r| == |frames|
    ensures forall i :: 0 <= i < |r| ==> r[i] == TransformFrame(rotate, resize, frames[i], scale, rotation)
    decreases |frames|
  {
    if |frames| == 0 then []
    else Transformed(rotate, resize, frames[..|frames| - 1], scale, rotation)
         + [TransformFrame(rotate, resize, frames[|frames| - 1], scale, rotation)]
  }

  /** Python's movie[frame] for a frame number blit_frame accepts without
      raising: negative numbers count from the end, so the frame is the one at
      frame mod length. */
  function FrameAt<F>(movie: seq<F>, frame: int): (f: F)
    requires -|movie| <= frame < |movie|
    ensures f == movie[frame % |movie|]
  {
    if frame >= 0 then movie[frame] else movie[|movie| + frame]
  }

  class Movie<F> {
    /** The PIL rotate and cv2 resize calls, as opaque operations on frames. */
    const rotate: (F, real) -> F
    const resize: (F, real) -> F
    const unmodified: seq<F>
    const length: int
    var movie: seq<F>
    var cursor: int
    var cursorInc: int

    ghost predicate Valid()
      reads this
    {
      && length == |unmodified| && |movie| == length
      && 0 <= cursorInc <= 1
      && 0 <= cursor && (length > 0 ==> cursor < length)
    }

    constructor(frames: seq<F>, rotate: (F, real) -> F, resize: (F, real) -> F)
      ensures Valid() && movie == frames && unmodified == frames && length == |frames|
      ensures cursor == 0 && cursorInc == 0
      ensures this.rotate == rotate && this.resize == resize
    {
      this.rotate := rotate;
      this.resize := resize;
      movie := frames;
      unmodified := frames;
      length := |frames|;
      cursor := 0;
      cursorInc := 0;
    }

    method Play()
      requires Valid()
      modifies this
      ensures Valid() && cursorInc == 1 && cursor == old(cursor) && movie == old(movie)
    {
      cursorInc := 1;
    }

    method Stop()
      requires Valid()
      modifies this
      ensures Valid() && cursorInc == 0 && cursor == old(cursor) && movie == old(movie)
    {
      cursorInc := 0;
    }

    /** apply_transform: rebuilt from the untouched frames, so the result depends
        on the arguments only (a second call with the same arguments changes
        nothing), and each frame stays at its index. */
    method ApplyTransform(scale: Option<real>, rotation: real)
      requires Valid()
      modifies this
      ensures Valid() && movie == Transformed(rotate, resize, unmodified, scale, rotation)
      ensures cursor == old(cursor) && cursorInc == old(cursorInc)
    {
      var m := unmodified;
      for i := 0 to |m|
        invariant |m| == |unmodified|
        invariant forall j :: 0 <= j < i ==> m[j] == rotate(unmodified[j], rotation + 90.0)
        invariant forall j :: i <= j < |m| ==> m[j] == unmodified[j]
      {
        m := m[i := rotate(m[i], rotation + 90.0)];
      }
      if scale.Some? {
        for i := 0 to |m|
          invariant |m| == |unmodified|
          invariant forall j :: 0 <= j < i ==> m[j] == resize(rotate(unmodified[j], rotation + 90.0), scale.value)
          invariant forall j :: i <= j < |m| ==> m[j] == rotate(unmodified[j], rotation + 90.0)
        {
          m := m[i := resize(m[i], scale.value)];
        }
      }
      movie := m;
    }

    /** blit: show the frame under the cursor, then step the cursor. */
    method Blit() returns (shown: F)
      requires Valid() && length > 0
      modifies this
      ensures Valid() && shown == movie[old(cursor)]
      ensures cursor == Step(old(cursor), cursorInc, length)
      ensures movie == old(movie) && cursorInc == old(cursorInc)
    {
      shown := movie[cursor];
      cursor := cursor + cursorInc;
      if cursor == length {
        cursor := 0;
      }
    }

    /** blit_frame: a frame number above the length reaches the unimported
        `warnings` and one equal to it is out of range, so both are excluded;
        negative numbers index from the end. The cursor is never moved. */
    method BlitFrame(frame: int) returns (shown: F)
      requires Valid() && -length <= frame < length
      ensures shown == FrameAt(movie, frame)
    {
      if frame >= 0 {
        shown := movie[frame];
      } else {
        shown := movie[length + frame];
      }
    }
  }
}
