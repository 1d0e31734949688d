/**
 * The game session: the Start/Playing/GameOver state machine, the frame
 * clock and pipe-spawn cadence, the per-frame update of bird and pipes,
 * scoring, collision and off-screen removal.
 */
module Session {
  import opened PipeMotion
  import opened BirdPhysics

  /** The three states of a session. */
  datatype GameState = Start | Playing | GameOver

  /** Tunable constants of the session. */
  const Gravity: real := 0.25
  const PipeGap: int := 120
  const PipeSpawnInterval: int := 90
  /** The smallest height either half of a pipe pair may have. */
  const MinPipeHeight: int := 50
  /** The bird's fixed horizontal position. */
  const BirdStartX: real := 50.0

  /** The largest top-pipe height the spawner may draw. */
  function MaxPipeHeight(canvasHeight: int): int
  {
    canvasHeight - PipeGap - MinPipeHeight
  }

  /** The bird's starting height: its centre at the middle of the canvas. */
  function StartY(canvasHeight: int): real
  {
    canvasHeight as real / 2.0 - 12.0
  }

  /** An axis-aligned box: top-left corner and size. */
  datatype Box = Box(x: real, y: real, width: real, height: real)

  function PipeBox(p: Pipe): Box
  {
    Box(p.x, p.y, p.width, p.height)
  }

  function BirdBox(b: Bird): Box
    reads b
  {
    Box(b.x, b.y, b.width, b.height)
  }

  /** The strict overlap test between the bird's box and a pipe's box: touching edges do not collide. */
  predicate CheckCollision(bird: Box, pipe: Box)
  {
    bird.x < pipe.x + pipe.width &&
    bird.x + bird.width > pipe.x &&
    bird.y < pipe.y + pipe.height &&
    bird.y + bird.height > pipe.y
  }

  /** The pipe pair a spawn appends: a top pipe of the drawn height and a bottom pipe below the gap, both at the right edge. */
  function PipePair(canvasWidth: nat, canvasHeight: nat, h: int): (r: seq<Pipe>)
    requires MinPipeHeight <= h <= MaxPipeHeight(canvasHeight)
    ensures |r| == 2
    ensures r[0].kind == Top && r[1].kind == Bottom
    ensures r[0].x == r[1].x == canvasWidth as real
    ensures r[0].y == 0.0 && r[0].height == h as real
    ensures r[1].y == r[0].height + PipeGap as real && r[1].y + r[1].height == canvasHeight as real
    ensures r[0].height + r[1].height == (canvasHeight - PipeGap) as real
    ensures r[0].height >= MinPipeHeight as real && r[1].height >= MinPipeHeight as real
    ensures forall i | 0 <= i < 2 :: r[i].width == PipeWidth && r[i].speed == PipeSpeed && !r[i].passed
  {
    [NewPipe(canvasWidth as real, 0.0, h as real, Top),
     NewPipe(canvasWidth as real, (h + PipeGap) as real, (canvasHeight - h - PipeGap) as real, Bottom)]
  }

  /** The frame clock: frames since the last reset and the frame of the last spawn. */
  datatype Clock = Clock(frameCount: nat, lastPipeFrame: nat)

  /** The spawn rule: more than the spawn interval has elapsed since the last spawn. */
  predicate SpawnDue(frameCount: int, lastPipeFrame: int)
  {
    frameCount - lastPipeFrame > PipeSpawnInterval
  }

  /** The clock part of one playing frame. */
  function Tick(c: Clock): Clock
  {
    var frame := c.frameCount + 1;
    if SpawnDue(frame, c.lastPipeFrame) then Clock(frame, frame) else Clock(frame, c.lastPipeFrame)
  }

  /** The scoring condition, evaluated on a pipe that has just moved: a top pipe not yet passed whose right edge is left of the bird. */
  predicate Scores(p: Pipe, birdX: real)
  {
    p.x + p.width < birdX && !p.passed && p.kind == Top
  }

  /** What one iteration of the pipe loop does to one pipe: move it, then mark it passed if it scores. */
  function StepPipe(p: Pipe, birdX: real): Pipe
  {
    var q := p.Updated();
    if Scores(q, birdX) then q.(passed := true) else q
  }

  /** The whole pipe loop applied to every pipe, in order. */
  function StepAll(ps: seq<Pipe>, birdX: real): (r: seq<Pipe>)
    ensures |r| == |ps|
  {
    if ps == [] then [] else StepAll(ps[..|ps| - 1], birdX) + [StepPipe(ps[|ps| - 1], birdX)]
  }

  /** The number of points the pipe loop scores on ps. */
  function Gained(ps: seq<Pipe>, birdX: real): nat
  {
    if ps == [] then 0
    else Gained(ps[..|ps| - 1], birdX) + (if Scores(ps[|ps| - 1].Updated(), birdX) then 1 else 0)
  }

  /** Some pipe of ps collides with the bird. */
  predicate AnyCollision(ps: seq<Pipe>, bird: Box)
  {
    exists i | 0 <= i < |ps| :: CheckCollision(bird, PipeBox(ps[i]))
  }

  /** The keep test of the off-screen filter. */
  predicate OnScreenPipe(p: Pipe)
  {
    p.x > -p.width
  }

  /** The off-screen filter: the pipes that pass the keep test, in their order. */
  function OnScreen(ps: seq<Pipe>): seq<Pipe>
  {
    if ps == [] then []
    else (if OnScreenPipe(ps[0]) then [ps[0]] else []) + OnScreen(ps[1..])
  }

  /** The ground and ceiling test. */
  predicate HitsEdge(y: real, height: real, canvasHeight: int)
  {
    y <= 0.0 || y + height >= canvasHeight as real
  }

  /** The number of pipes already marked passed. */
  function CountPassed(ps: seq<Pipe>): nat
  {
    if ps == [] then 0 else CountPassed(ps[..|ps| - 1]) + (if ps[|ps| - 1].passed then 1 else 0)
  }

  /** The number of top pipes not yet marked passed: the points still to be had from ps. */
  function CountOpenTops(ps: seq<Pipe>): nat
  {
    if ps == [] then 0
    else CountOpenTops(ps[..|ps| - 1]) + (if ps[|ps| - 1].kind == Top && !ps[|ps| - 1].passed then 1 else 0)
  }

  /** Pipe k of StepAll(ps) is pipe k of ps stepped. */
  lemma {:induction false} StepAllAt(ps: seq<Pipe>, birdX: real, k: int)
    requires 0 <= k < |ps|
    ensures StepAll(ps, birdX)[k] == StepPipe(ps[k], birdX)
  {
    if k < |ps| - 1 {
      StepAllAt(ps[..|ps| - 1], birdX, k);
    }
  }

  /** A sequence equal elementwise to the stepped pipes is StepAll. */
  lemma StepAllFromElements(ps: seq<Pipe>, qs: seq<Pipe>, birdX: real)
    requires |qs| == |ps|
    requires forall k | 0 <= k < |ps| :: qs[k] == StepPipe(ps[k], birdX)
    ensures qs == StepAll(ps, birdX)
  {
    forall k | 0 <= k < |ps|
      ensures qs[k] == StepAll(ps, birdX)[k]
    {
      StepAllAt(ps, birdX, k);
    }
  }

  /** A pipe is in the filtered list iff it was in the list and passes the keep test. */
  lemma {:induction false} OnScreenMembership(ps: seq<Pipe>, p: Pipe)
    ensures p in OnScreen(ps) <==> p in ps && OnScreenPipe(p)
  {
    if ps != [] {
      OnScreenMembership(ps[1..], p);
      assert ps == [ps[0]] + ps[1..];
    }
  }

  /** Removing off-screen pipes never adds passed pipes. */
  lemma {:induction false} OnScreenCountPassed(ps: seq<Pipe>)
    ensures CountPassed(OnScreen(ps)) <= CountPassed(ps)
  {
    if ps != [] {
      OnScreenCountPassed(ps[1..]);
      var head := if OnScreenPipe(ps[0]) then [ps[0]] else [];
      CountPassedAppend(head, OnScreen(ps[1..]));
      CountPassedAppend([ps[0]], ps[1..]);
      assert ps == [ps[0]] + ps[1..];
    }
  }

  lemma {:induction false} CountPassedAppend(a: seq<Pipe>, b: seq<Pipe>)
    ensures CountPassed(a + b) == CountPassed(a) + CountPassed(b)
  {
    if b == [] {
      assert a + b == a;
    } else {
      CountPassedAppend(a, b[..|b| - 1]);
      assert (a + b)[..|a + b| - 1] == a + b[..|b| - 1];
    }
  }

  /** The score gained on ps is exactly the number of passed flags the loop turns on. */
  lemma {:induction false} GainedCountsFlips(ps: seq<Pipe>, birdX: real)
    ensures CountPassed(StepAll(ps, birdX)) == CountPassed(ps) + Gained(ps, birdX)
  {
    if ps != [] {
      GainedCountsFlips(ps[..|ps| - 1], birdX);
      var r := StepAll(ps, birdX);
      assert r[..|r| - 1] == StepAll(ps[..|ps| - 1], birdX);
    }
  }

  /** Only top pipes are marked passed. */
  ghost predicate PassedAreTops(ps: seq<Pipe>)
  {
    forall p | p in ps :: p.passed ==> p.kind == Top
  }

  /** Appending pipes that are not yet passed keeps the passed flags sound and adds no passed pipe. */
  lemma SpawnKeepsPassedSound(ps: seq<Pipe>, added: seq<Pipe>)
    requires PassedAreTops(ps)
    requires forall i | 0 <= i < |added| :: !added[i].passed
    ensures PassedAreTops(ps + added)
    ensures CountPassed(ps + added) == CountPassed(ps)
  {
    CountPassedAppend(ps, added);
    NoneCountPassed(added);
  }

  lemma {:induction false} NoneCountPassed(ps: seq<Pipe>)
    requires forall i | 0 <= i < |ps| :: !ps[i].passed
    ensures CountPassed(ps) == 0
  {
    if ps != [] {
      NoneCountPassed(ps[..|ps| - 1]);
    }
  }

  /**
   * A frame keeps the passed flags sound: after the pipe loop and the
   * off-screen filter, only top pipes are passed, and there are no more
   * passed pipes than points scored.
   */
  lemma FrameKeepsPassedSound(ps: seq<Pipe>, birdX: real, score: nat)
    requires PassedAreTops(ps) && CountPassed(ps) <= score
    ensures PassedAreTops(OnScreen(StepAll(ps, birdX)))
    ensures CountPassed(OnScreen(StepAll(ps, birdX))) <= score + Gained(ps, birdX)
  {
    var moved := StepAll(ps, birdX);
    GainedCountsFlips(ps, birdX);
    OnScreenCountPassed(moved);
    forall p | p in OnScreen(moved)
      ensures p.passed ==> p.kind == Top
    {
      OnScreenMembership(moved, p);
      var k :| 0 <= k < |moved| && moved[k] == p;
      StepAllAt(ps, birdX, k);
      assert ps[k] in ps;
    }
  }

  class Game {
    const canvasWidth: nat
    const canvasHeight: nat
    var bird: Bird
    var pipes: seq<Pipe>
    var score: nat
    var frameCount: nat
    var lastPipeFrame: nat
    var gameState: GameState

    /**
     * The session invariant: the bird's counters are in range and it falls
     * with the session's gravity, no more than the spawn interval has elapsed
     * since the last spawn, only top pipes are ever marked passed, and every
     * passed pipe still on screen has been paid for in the score.
     */
    ghost predicate Valid()
      reads this, bird
    {
      bird.Valid() && bird.gravity == Gravity &&
      lastPipeFrame <= frameCount && frameCount - lastPipeFrame <= PipeSpawnInterval &&
      PassedAreTops(pipes) && CountPassed(pipes) <= score
    }

    /** The state right after a reset: no pipes, zero counters, a fresh bird at its starting point. */
    ghost predicate Initial()
      reads this, bird
    {
      pipes == [] && score == 0 && frameCount == 0 && lastPipeFrame == 0 &&
      bird.x == BirdStartX && bird.y == StartY(canvasHeight) && bird.velocity == 0.0 &&
      bird.gravity == Gravity && bird.frameCount == 0 && bird.frameIndex == 0
    }

    constructor (canvasWidth: nat, canvasHeight: nat)
      ensures Valid() && Initial() && gameState == Start && fresh(bird)
      ensures this.canvasWidth == canvasWidth && this.canvasHeight == canvasHeight
    {
      this.canvasWidth := canvasWidth;
      this.canvasHeight := canvasHeight;
      bird := new Bird(BirdStartX, StartY(canvasHeight), Gravity);
      pipes := [];
      score := 0;
      frameCount := 0;
      lastPipeFrame := 0;
      gameState := Start;
    }

    /** The single input event: start playing, flap, or reset after a game over. */
    method HandleInput()
      requires Valid()
      modifies this, bird
      ensures Valid()
      ensures old(gameState) == Start ==>
        gameState == Playing && bird == old(bird) && unchanged(bird) &&
        pipes == old(pipes) && score == old(score) &&
        frameCount == old(frameCount) && lastPipeFrame == old(lastPipeFrame)
      ensures old(gameState) == Playing ==>
        gameState == Playing && bird == old(bird) && bird.velocity == bird.flapStrength &&
        bird.x == old(bird.x) && bird.y == old(bird.y) &&
        bird.frameCount == old(bird.frameCount) && bird.frameIndex == old(bird.frameIndex) &&
        pipes == old(pipes) && score == old(score) &&
        frameCount == old(frameCount) && lastPipeFrame == old(lastPipeFrame)
      ensures old(gameState) == GameOver ==> gameState == Start && Initial() && fresh(bird)
    {
      match gameState
      case Start =>
        gameState := Playing;
      case Playing =>
        bird.Flap();
      case GameOver =>
        Reset();
        gameState := Start;
    }

    /** Back to the initial state; the state machine's state is left to the caller. */
    method Reset()
      modifies this
      ensures Valid() && Initial() && fresh(bird)
      ensures gameState == old(gameState)
    {
      bird := new Bird(BirdStartX, StartY(canvasHeight), Gravity);
      pipes := [];
      score := 0;
      frameCount := 0;
      lastPipeFrame := 0;
    }

    /** Appends the pair for a drawn top-pipe height h. */
    method SpawnPipe(h: int)
      requires MinPipeHeight <= h <= MaxPipeHeight(canvasHeight)
      modifies this`pipes
      ensures pipes == old(pipes) + PipePair(canvasWidth, canvasHeight, h)
    {
      // PipePair lists the two pushes in the source's order: top, then bottom.
      pipes := pipes + PipePair(canvasWidth, canvasHeight, h);
    }

    /**
     * The pipe loop: in order, each pipe moves, a top pipe not yet passed
     * whose right edge is left of the bird is marked passed and scores one
     * point, and a pipe that overlaps the bird ends the game; the loop goes
     * on after a collision.
     */
    method UpdatePipes()
      modifies this`pipes, this`score, this`gameState
      ensures pipes == StepAll(old(pipes), bird.x)
      ensures score == old(score) + Gained(old(pipes), bird.x)
      ensures gameState == if AnyCollision(pipes, BirdBox(bird)) then GameOver else old(gameState)
    {
      ghost var before := pipes;
      var i := 0;
      while i < |pipes|
        invariant 0 <= i <= |pipes| == |before|
        invariant forall k | 0 <= k < i :: pipes[k] == StepPipe(before[k], bird.x)
        invariant forall k | i <= k < |pipes| :: pipes[k] == before[k]
        invariant score == old(score) + Gained(before[..i], bird.x)
        invariant gameState == if (exists k | 0 <= k < i :: CheckCollision(BirdBox(bird), PipeBox(pipes[k])))
                               then GameOver else old(gameState)
      {
        pipes := pipes[i := pipes[i].Updated()];
        if Scores(pipes[i], bird.x) {
          pipes := pipes[i := pipes[i].(passed := true)];
          score := score + 1;
        }
        if CheckCollision(BirdBox(bird), PipeBox(pipes[i])) {
          gameState := GameOver;
        }
        assert before[..i + 1][..i] == before[..i];
        i := i + 1;
      }
      assert before[..i] == before;
      StepAllFromElements(before, pipes, bird.x);
    }

    /**
     * One frame. Outside Playing nothing changes. While Playing: the clock
     * ticks and may spawn a pair (using the drawn height h), the bird moves,
     * every pipe moves, scores and is tested for collision (a collision does
     * not stop the loop), off-screen pipes are dropped, and touching the
     * ceiling or the ground ends the game.
     */
    method Update(h: int)
      requires Valid()
      requires gameState == Playing && SpawnDue(frameCount + 1, lastPipeFrame) ==>
        MinPipeHeight <= h <= MaxPipeHeight(canvasHeight)
      modifies this, bird
      ensures Valid()
      ensures old(gameState) != Playing ==> unchanged(this) && unchanged(bird)
      ensures old(gameState) == Playing ==>
        var spawn := SpawnDue(old(frameCount) + 1, old(lastPipeFrame));
        var spawned := old(pipes) + (if spawn then PipePair(canvasWidth, canvasHeight, h) else []);
        var moved := StepAll(spawned, bird.x);
        bird == old(bird) &&
        Clock(frameCount, lastPipeFrame) == Tick(Clock(old(frameCount), old(lastPipeFrame))) &&
        bird.velocity == old(bird.velocity) + Gravity && bird.y == old(bird.y) + bird.velocity &&
        bird.x == old(bird.x) &&
        Anim(bird.frameCount, bird.frameIndex) == AnimStep(Anim(old(bird.frameCount), old(bird.frameIndex)), bird.frameDelay, bird.spriteCount) &&
        pipes == OnScreen(moved) &&
        score == old(score) + Gained(spawned, bird.x) &&
        gameState == (if AnyCollision(moved, BirdBox(bird)) || HitsEdge(bird.y, bird.height, canvasHeight)
                      then GameOver else Playing)
    {
      if gameState != Playing {
        return;
      }
      frameCount := frameCount + 1;

      if frameCount - lastPipeFrame > PipeSpawnInterval {
        SpawnPipe(h);
        lastPipeFrame := frameCount;
      }
      SpawnKeepsPassedSound(old(pipes), pipes[|old(pipes)|..]);
      assert pipes == old(pipes) + pipes[|old(pipes)|..];

      bird.Update();

      ghost var spawned := pipes;
      UpdatePipes();
      FrameKeepsPassedSound(spawned, bird.x, old(score));
      pipes := OnScreen(pipes);

      if HitsEdge(bird.y, bird.height, canvasHeight) {
        gameState := GameOver;
      }
    }
  }
}
