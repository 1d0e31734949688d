/** A pipe: one rectangle of an obstacle pair, translating left at a fixed speed. */
module PipeMotion {

  /** Which half of a pair a pipe is; only the top half is used for scoring. */
  datatype PipeKind = Top | Bottom

  /** Every pipe is 52 wide and moves 2 to the left per frame. */
  const PipeWidth: real := 52.0
  const PipeSpeed: real := 2.0

  /**
   * The state of one pipe: the top-left corner (x, y), its size, its speed,
   * its kind and the one-shot `passed` flag that the session sets when the
   * bird has overtaken it.
   */
  datatype Pipe = Pipe(x: real, y: real, width: real, height: real, speed: real, kind: PipeKind, passed: bool)
  {
    /** One frame of motion: the pipe moves left by its speed. */
    function Updated(): Pipe
    {
      this.(x := x - speed)
    }
  }

  /** A newly built pipe at (x, y): standard width and speed, not yet passed. */
  function NewPipe(x: real, y: real, height: real, kind: PipeKind): (p: Pipe)
    ensures p.x == x && p.y == y && p.height == height && p.kind == kind
    ensures p.width == 52.0 && p.speed == 2.0 && !p.passed
  {
    Pipe(x, y, PipeWidth, height, PipeSpeed, kind, false)
  }

  /** The pipe after k frames of motion. */
  function UpdatedTimes(p: Pipe, k: nat): Pipe
  {
    if k == 0 then p else UpdatedTimes(p, k - 1).Updated()
  }

  /** After k updates the pipe has moved left by exactly k times its speed, and nothing else about it has changed. */
  lemma {:induction false} UpdatedTimesTranslates(p: Pipe, k: nat)
    ensures UpdatedTimes(p, k) == p.(x := p.x - (k as real) * p.speed)
  {
    if k > 0 {
      UpdatedTimesTranslates(p, k - 1);
    }
  }
}
