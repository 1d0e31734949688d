/** The bird: vertical physics under gravity, the flap impulse and the sprite animation counter. */
module BirdPhysics {

  /** The vertical motion state of the bird. */
  datatype Motion = Motion(velocity: real, y: real)

  /** The animation state: frames since the last sprite change, and the sprite shown. */
  datatype Anim = Anim(frameCount: nat, frameIndex: nat)

  /** One physics frame: gravity is added to the velocity, then the new velocity is added to y. */
  function PhysicsStep(m: Motion, gravity: real): (r: Motion)
    ensures r.velocity - m.velocity == gravity
    ensures r.y - m.y == r.velocity
  {
    var v := m.velocity + gravity;
    Motion(v, m.y + v)
  }

  /** The motion after n frames without a flap. */
  function Fall(m: Motion, gravity: real, n: nat): Motion
  {
    if n == 0 then m else PhysicsStep(Fall(m, gravity, n - 1), gravity)
  }

  /** One animation frame: the counter advances, and on reaching the delay it restarts and the sprite index advances cyclically. */
  function AnimStep(a: Anim, frameDelay: nat, spriteCount: nat): (r: Anim)
    requires spriteCount > 0
    ensures a.frameCount + 1 < frameDelay ==> r == Anim(a.frameCount + 1, a.frameIndex)
    ensures a.frameCount + 1 >= frameDelay ==> r.frameCount == 0 && r.frameIndex < spriteCount
    ensures a.frameCount + 1 >= frameDelay && a.frameIndex + 1 < spriteCount ==> r.frameIndex == a.frameIndex + 1
    ensures a.frameCount + 1 >= frameDelay && a.frameIndex + 1 == spriteCount ==> r.frameIndex == 0
  {
    var count := a.frameCount + 1;
    if count >= frameDelay then Anim(0, (a.frameIndex + 1) % spriteCount) else Anim(count, a.frameIndex)
  }

  /** The animation state after n frames. */
  function AnimAfter(a: Anim, frameDelay: nat, spriteCount: nat, n: nat): Anim
    requires spriteCount > 0
  {
    if n == 0 then a else AnimStep(AnimAfter(a, frameDelay, spriteCount, n - 1), frameDelay, spriteCount)
  }

  class Bird {
    var x: real
    var y: real
    var velocity: real
    var frameIndex: nat
    var frameCount: nat
    // No code assigns these after construction.
    const gravity: real
    const width: real := 34.0
    const height: real := 24.0
    const flapStrength: real := -5.0
    const frameDelay: nat := 5
    /** The number of sprites the bird cycles through (three frames are loaded). */
    const spriteCount: nat := 3

    /** The animation counters stay in range. */
    ghost predicate Valid()
      reads this
    {
      frameCount < frameDelay && frameIndex < spriteCount
    }

    constructor (x: real, y: real, gravity: real)
      ensures Valid()
      ensures this.x == x && this.y == y && velocity == 0.0 && this.gravity == gravity
      ensures frameIndex == 0 && frameCount == 0
    {
      this.x := x;
      this.y := y;
      this.gravity := gravity;
      velocity := 0.0;
      frameIndex := 0;
      frameCount := 0;
    }

    /** The flap sets the velocity to the flap strength, whatever it was; nothing else changes. */
    method Flap()
      modifies this
      ensures velocity == flapStrength
      ensures x == old(x) && y == old(y) && frameIndex == old(frameIndex) && frameCount == old(frameCount)
    {
      velocity := flapStrength;
    }

    /** One frame: physics with the new velocity, then the animation counter. The horizontal position never changes. */
    method Update()
      requires Valid()
      modifies this
      ensures Valid()
      ensures velocity == old(velocity) + gravity && y == old(y) + velocity
      ensures Motion(velocity, y) == PhysicsStep(Motion(old(velocity), old(y)), gravity)
      ensures Anim(frameCount, frameIndex) == AnimStep(Anim(old(frameCount), old(frameIndex)), frameDelay, spriteCount)
      ensures x == old(x)
    {
      velocity := velocity + gravity;
      y := y + velocity;

      frameCount := frameCount + 1;
      if frameCount >= frameDelay {
        frameCount := 0;
        frameIndex := (frameIndex + 1) % spriteCount;
      }
    }
  }

  /** After n frames from velocity v0 and height y0 the velocity is v0 + n*g and y has gained n*v0 + g*n*(n+1)/2. */
  lemma {:induction false} FallClosedForm(m: Motion, gravity: real, n: nat)
    ensures Fall(m, gravity, n).velocity == m.velocity + (n as real) * gravity
    ensures Fall(m, gravity, n).y == m.y + (n as real) * m.velocity + gravity * (n as real) * ((n + 1) as real) / 2.0
  {
    if n > 0 {
      FallClosedForm(m, gravity, n - 1);
      var k := (n - 1) as real;
      assert (n as real) == k + 1.0;
      calc {
        Fall(m, gravity, n).y;
        Fall(m, gravity, n - 1).y + Fall(m, gravity, n).velocity;
        m.y + k * m.velocity + gravity * k * (k + 1.0) / 2.0 + m.velocity + (k + 1.0) * gravity;
        m.y + (k + 1.0) * m.velocity + gravity * (k + 1.0) * (k + 2.0) / 2.0;
      }
    }
  }

  /** With positive gravity and no flap the velocity is strictly increasing from frame to frame. */
  lemma {:induction false} FallVelocityIncreasing(m: Motion, gravity: real, i: nat, j: nat)
    requires gravity > 0.0 && i < j
    ensures Fall(m, gravity, i).velocity < Fall(m, gravity, j).velocity
  {
    FallClosedForm(m, gravity, i);
    FallClosedForm(m, gravity, j);
    assert (j as real) * gravity - (i as real) * gravity == ((j - i) as real) * gravity;
  }

  /** Starting a cycle at counter 0, five frames show the next sprite with the counter back at 0. */
  lemma SpriteAdvancesEveryFiveFrames(i: nat)
    requires i < 3
    ensures AnimAfter(Anim(0, i), 5, 3, 5) == Anim(0, (i + 1) % 3)
    ensures forall n | 0 < n < 5 :: AnimAfter(Anim(0, i), 5, 3, n) == Anim(n, i)
  {
    var a := Anim(0, i);
    assert AnimAfter(a, 5, 3, 1) == Anim(1, i);
    assert AnimAfter(a, 5, 3, 2) == Anim(2, i);
    assert AnimAfter(a, 5, 3, 3) == Anim(3, i);
    assert AnimAfter(a, 5, 3, 4) == Anim(4, i);
  }

  /** The animation is periodic: after 15 frames from the start of a cycle, the same sprite is shown again. */
  lemma {:induction false} AnimationPeriod(i: nat)
    requires i < 3
    ensures AnimAfter(Anim(0, i), 5, 3, 15) == Anim(0, i)
  {
    var a := Anim(0, i);
    AnimAfterAdds(a, 5, 3, 5, 5);
    AnimAfterAdds(a, 5, 3, 10, 5);
    SpriteAdvancesEveryFiveFrames(i);
    SpriteAdvancesEveryFiveFrames((i + 1) % 3);
    SpriteAdvancesEveryFiveFrames((i + 2) % 3);
  }

  /** Running m frames and then n more is running m + n frames. */
  lemma {:induction false} AnimAfterAdds(a: Anim, frameDelay: nat, spriteCount: nat, m: nat, n: nat)
    requires spriteCount > 0
    ensures AnimAfter(a, frameDelay, spriteCount, m + n) == AnimAfter(AnimAfter(a, frameDelay, spriteCount, m), frameDelay, spriteCount, n)
  {
    if n > 0 {
      AnimAfterAdds(a, frameDelay, spriteCount, m, n - 1);
    }
  }

  /** The animation step keeps the counters in the range the bird's invariant promises. */
  lemma AnimStepInRange(a: Anim, frameDelay: nat, spriteCount: nat)
    requires spriteCount > 0 && a.frameCount < frameDelay && a.frameIndex < spriteCount
    ensures AnimStep(a, frameDelay, spriteCount).frameCount < frameDelay
    ensures AnimStep(a, frameDelay, spriteCount).frameIndex < spriteCount
  {
  }
}
