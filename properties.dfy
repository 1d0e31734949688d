/** Properties of the session model that relate several frames or several operations. */
module SessionProperties {
  import opened PipeMotion
  import opened BirdPhysics
  import opened Session

  // ---------------------------------------------------------------- collision

  /** A point strictly inside a box. */
  predicate Inside(px: real, py: real, b: Box)
  {
    b.x < px < b.x + b.width && b.y < py < b.y + b.height
  }

  function Max(a: real, b: real): real { if a < b then b else a }
  function Min(a: real, b: real): real { if a < b then a else b }

  /** For boxes of positive size, the collision test holds exactly when the two open boxes share a point. */
  lemma CollisionIffCommonPoint(a: Box, b: Box)
    requires a.width > 0.0 && a.height > 0.0 && b.width > 0.0 && b.height > 0.0
    ensures CheckCollision(a, b) <==> exists px, py :: Inside(px, py, a) && Inside(px, py, b)
  {
    if CheckCollision(a, b) {
      var px := (Max(a.x, b.x) + Min(a.x + a.width, b.x + b.width)) / 2.0;
      var py := (Max(a.y, b.y) + Min(a.y + a.height, b.y + b.height)) / 2.0;
      assert Inside(px, py, a) && Inside(px, py, b);
    }
  }

  /** The collision test does not depend on which box is the bird. */
  lemma CollisionSymmetric(a: Box, b: Box)
    ensures CheckCollision(a, b) == CheckCollision(b, a)
  {
  }

  /** Boxes that only share an edge do not collide. */
  lemma TouchingBoxesDoNotCollide(a: Box, b: Box)
    requires a.x + a.width == b.x || b.x + b.width == a.x || a.y + a.height == b.y || b.y + b.height == a.y
    ensures !CheckCollision(a, b)
  {
  }

  // ---------------------------------------------------------------- spawn cadence

  /** The clock after n playing frames from a reset. */
  function TicksFromReset(n: nat): Clock
  {
    if n == 0 then Clock(0, 0) else Tick(TicksFromReset(n - 1))
  }

  /** From a reset, after n frames the last spawn happened at the latest multiple of 91 not after n. */
  lemma {:induction false} CadenceFromReset(n: nat)
    ensures TicksFromReset(n) == Clock(n, n - n % (PipeSpawnInterval + 1))
  {
    if n > 0 {
      CadenceFromReset(n - 1);
      var m := n - 1;
      assert m % 91 + 1 == n % 91 || (m % 91 == 90 && n % 91 == 0);
    }
  }

  /** From a reset, a pair is spawned on frame n exactly when n is a multiple of 91; so the first spawn is on frame 91. */
  lemma SpawnFramesFromReset(n: nat)
    requires n >= 1
    ensures SpawnDue(n, TicksFromReset(n - 1).lastPipeFrame) <==> n % (PipeSpawnInterval + 1) == 0
  {
    CadenceFromReset(n - 1);
    assert (n - 1) % 91 + 1 == n % 91 || ((n - 1) % 91 == 90 && n % 91 == 0);
  }

  /** A tick keeps at most the spawn interval between the frame count and the last spawn. */
  lemma TickKeepsSpawnGap(c: Clock)
    requires c.lastPipeFrame <= c.frameCount && c.frameCount - c.lastPipeFrame <= PipeSpawnInterval
    ensures Tick(c).frameCount == c.frameCount + 1
    ensures Tick(c).lastPipeFrame <= Tick(c).frameCount
    ensures Tick(c).frameCount - Tick(c).lastPipeFrame <= PipeSpawnInterval
  {
  }

  // ---------------------------------------------------------------- scoring

  /** The points the pipe loop can score on ps are bounded by its top pipes not yet passed: bottom pipes never score. */
  lemma {:induction false} GainedAtMostOpenTops(ps: seq<Pipe>, birdX: real)
    ensures Gained(ps, birdX) <= CountOpenTops(ps)
  {
    if ps != [] {
      GainedAtMostOpenTops(ps[..|ps| - 1], birdX);
    }
  }

  /** The total a single pipe scores over successive frames, the bird at birdXs[i] on frame i. */
  function ScoredOver(p: Pipe, birdXs: seq<real>): nat
    decreases |birdXs|
  {
    if birdXs == [] then 0
    else (if Scores(p.Updated(), birdXs[0]) then 1 else 0) + ScoredOver(StepPipe(p, birdXs[0]), birdXs[1..])
  }

  /** The one-shot flag: over any number of frames a pipe scores at most once, and a bottom pipe or a passed pipe never does. */
  lemma {:induction false} PipeScoresAtMostOnce(p: Pipe, birdXs: seq<real>)
    ensures ScoredOver(p, birdXs) <= 1
    ensures p.kind == Bottom || p.passed ==> ScoredOver(p, birdXs) == 0
    decreases |birdXs|
  {
    if birdXs != [] {
      var q := StepPipe(p, birdXs[0]);
      PipeScoresAtMostOnce(q, birdXs[1..]);
      if Scores(p.Updated(), birdXs[0]) {
        assert q.passed;
      }
    }
  }

  /** Stepping a pipe moves it exactly as Pipe.update does; only the passed flag may also change, and only from false to true. */
  lemma StepPipeMoves(p: Pipe, birdX: real)
    ensures StepPipe(p, birdX).(passed := p.passed) == p.Updated()
    ensures p.passed ==> StepPipe(p, birdX).passed
  {
  }

  /** A collision on some pipe does not stop the loop: a concrete frame where the first pipe hits the bird and the second still scores. */
  lemma CollisionDoesNotStopScoring()
    ensures var bird := Box(50.0, 200.0, 34.0, 24.0);
            var ps := [NewPipe(60.0, 0.0, 250.0, Top), NewPipe(-10.0, 0.0, 100.0, Top)];
            AnyCollision(StepAll(ps, bird.x), bird) && Gained(ps, bird.x) == 1 &&
            StepAll(ps, bird.x)[1].passed
  {
    var bird := Box(50.0, 200.0, 34.0, 24.0);
    var ps := [NewPipe(60.0, 0.0, 250.0, Top), NewPipe(-10.0, 0.0, 100.0, Top)];
    assert ps[..1] == [ps[0]];
    assert [ps[0]][..0] == [];
    assert Gained(ps[..1], bird.x) == 0;
    StepAllAt(ps, bird.x, 0);
    StepAllAt(ps, bird.x, 1);
    assert CheckCollision(bird, PipeBox(StepAll(ps, bird.x)[0]));
  }

  // ---------------------------------------------------------------- off-screen filter

  /** The filter distributes over concatenation, so it keeps the relative order of the pipes it keeps. */
  lemma {:induction false} OnScreenAppend(a: seq<Pipe>, b: seq<Pipe>)
    ensures OnScreen(a + b) == OnScreen(a) + OnScreen(b)
  {
    if a != [] {
      OnScreenAppend(a[1..], b);
      var head := if OnScreenPipe(a[0]) then [a[0]] else [];
      assert (a + b)[0] == a[0];
      assert (a + b)[1..] == a[1..] + b;
      calc {
        OnScreen(a + b);
        head + OnScreen(a[1..] + b);
        head + (OnScreen(a[1..]) + OnScreen(b));
        (head + OnScreen(a[1..])) + OnScreen(b);
        OnScreen(a) + OnScreen(b);
      }
    } else {
      assert a + b == b;
    }
  }

  /** The filtered list is no longer than the list. */
  lemma {:induction false} OnScreenShorter(ps: seq<Pipe>)
    ensures |OnScreen(ps)| <= |ps|
    ensures (forall i | 0 <= i < |ps| :: OnScreenPipe(ps[i])) ==> OnScreen(ps) == ps
  {
    if ps != [] {
      OnScreenShorter(ps[1..]);
      assert ps == [ps[0]] + ps[1..];
    }
  }

  /** A pipe is kept exactly while its right edge is strictly right of 0: one whose right edge is at 0 is removed. */
  lemma KeptIffRightEdgeVisible(p: Pipe)
    ensures OnScreenPipe(p) <==> p.x + p.width > 0.0
  {
  }

  /** A pipe spawned at x = w survives k updates exactly while w - 2k > -52. */
  lemma SpawnedPipeLifetime(w: nat, y: real, height: real, kind: PipeKind, k: nat)
    ensures OnScreenPipe(UpdatedTimes(NewPipe(w as real, y, height, kind), k)) <==> 2 * k < w + 52
  {
    UpdatedTimesTranslates(NewPipe(w as real, y, height, kind), k);
  }

  /** On the default 320-wide canvas a pipe survives 185 updates and is removed on update 186. */
  lemma DefaultPipeRemovedOnUpdate186(y: real, height: real, kind: PipeKind, k: nat)
    ensures OnScreenPipe(UpdatedTimes(NewPipe(320.0, y, height, kind), k)) <==> k < 186
  {
    SpawnedPipeLifetime(320, y, height, kind, k);
  }

  // ---------------------------------------------------------------- falling

  /** The default bird's fall without flapping from the start of a 480-high canvas. */
  function DefaultFall(n: nat): Motion
  {
    Fall(Motion(0.0, StartY(480)), Gravity, n)
  }

  /** The default fall in closed form: y = 228 + n(n+1)/8. */
  lemma DefaultFallClosedForm(n: nat)
    ensures DefaultFall(n).y == 228.0 + (n as real) * ((n as real) + 1.0) / 8.0
  {
    FallClosedForm(Motion(0.0, StartY(480)), Gravity, n);
  }

  /** Without flapping the default bird only ever moves down. */
  lemma {:induction false} DefaultFallMonotone(i: nat, j: nat)
    requires i <= j
    ensures DefaultFall(i).y <= DefaultFall(j).y
    decreases j - i
  {
    if i < j {
      DefaultFallMonotone(i, j - 1);
      FallClosedForm(Motion(0.0, StartY(480)), Gravity, j);
    }
  }

  /** A height that matches the closed form at frame k is the default bird's height on frame k. */
  lemma DefaultFallAt(k: nat, y: real)
    requires y == 228.0 + (k as real) * ((k as real) + 1.0) / 8.0
    ensures DefaultFall(k).y == y
  {
    DefaultFallClosedForm(k);
  }

  /** On a 480-high canvas a bird that never flaps touches the ground on frame 43 and not before, and never the ceiling. */
  lemma DefaultFallHitsGroundOnFrame43(n: nat)
    ensures DefaultFall(n).y >= StartY(480)
    ensures HitsEdge(DefaultFall(n).y, 24.0, 480) <==> n >= 43
  {
    // k names frame 42 without a literal, which would unfold Fall 42 times.
    var k: nat :| k == 42;
    DefaultFallMonotone(0, n);
    DefaultFallAt(k, 453.75);
    DefaultFallAt(k + 1, 464.5);
    if n <= k {
      DefaultFallMonotone(n, k);
    } else {
      DefaultFallMonotone(k + 1, n);
    }
  }

  /**
   * End to end: on a 320x480 canvas, start a game and never flap. The
   * game is over after exactly 43 updates (no pipe has been spawned by
   * then), with the score still 0.
   */
  method PlayWithoutFlapping() returns (frames: nat, score: nat)
    ensures frames == 43 && score == 0
  {
    var g := new Game(320, 480);
    g.HandleInput();
    frames := 0;
    while g.gameState == Playing
      invariant g.Valid() && fresh(g.bird)
      invariant g.canvasWidth == 320 && g.canvasHeight == 480
      invariant frames <= 43
      invariant g.pipes == [] && g.score == 0 && g.frameCount == frames && g.lastPipeFrame == 0
      invariant Motion(g.bird.velocity, g.bird.y) == DefaultFall(frames)
      invariant g.gameState == if frames < 43 then Playing else GameOver
      decreases 43 - frames
    {
      DefaultFallHitsGroundOnFrame43(frames + 1);
      g.Update(MinPipeHeight);
      frames := frames + 1;
    }
    score := g.score;
  }
}
