/** `update_circle_position`: the circle advances by velocity times the
    elapsed time, then each axis whose edge lies outside the window has its
    velocity component negated. Coordinates are `real`; nothing here claims
    anything about 32-bit floating point. */
module Animation {
  import opened Vulkan

  /** The circle's radius as used by the bounce test. */
  const RADIUS: real := 50.0

  /** The step assumed on the first call, when no previous time is known. */
  const FIRST_FRAME_DT: real := 1.0 / 60.0

  datatype Vec2 = Vec2(x: real, y: real)

  datatype Motion = Motion(position: Vec2, velocity: Vec2)

  /** The initial velocity set by `init_vulkan`, in pixels per second. */
  const START_VELOCITY: Vec2 := Vec2(200.0, 150.0)

  /** The time step: since the previous call, or 1/60 s on the first call. */
  function DeltaTime(lastTime: Option<real>, now: real): real
  {
    match lastTime
    case Some(last) => now - last
    case None => FIRST_FRAME_DT
  }

  /** The window size as a pair of coordinates. */
  function Bounds(extent: Extent): Vec2
  {
    Vec2(extent.width as real, extent.height as real)
  }

  /** The circle's edge lies outside `[0, bound]` along one axis. */
  predicate OutOfBounds(p: real, bound: real)
  {
    p - RADIUS < 0.0 || p + RADIUS > bound
  }

  function Abs(r: real): real { if r < 0.0 then -r else r }

  /** One call of the update: move, then test the moved position. */
  function Step(m: Motion, dt: real, bounds: Vec2): Motion
  {
    var p := Vec2(m.position.x + m.velocity.x * dt, m.position.y + m.velocity.y * dt);
    var vx := if OutOfBounds(p.x, bounds.x) then -m.velocity.x else m.velocity.x;
    var vy := if OutOfBounds(p.y, bounds.y) then -m.velocity.y else m.velocity.y;
    Motion(p, Vec2(vx, vy))
  }

  /** The translation comes first and is never undone, and each velocity
      component is negated exactly when its axis's edge is outside the window
      after the move. */
  lemma StepReflectsPerAxis(m: Motion, dt: real, bounds: Vec2)
    ensures var r := Step(m, dt, bounds);
      && r.position == Vec2(m.position.x + m.velocity.x * dt, m.position.y + m.velocity.y * dt)
      && (OutOfBounds(r.position.x, bounds.x) ==> r.velocity.x == -m.velocity.x)
      && (!OutOfBounds(r.position.x, bounds.x) ==> r.velocity.x == m.velocity.x)
      && (OutOfBounds(r.position.y, bounds.y) ==> r.velocity.y == -m.velocity.y)
      && (!OutOfBounds(r.position.y, bounds.y) ==> r.velocity.y == m.velocity.y)
  {
  }

  /** The axes are decided independently: the x part of a step depends only
      on the x parts of the motion and of the bounds (and likewise for y). */
  lemma AxesAreIndependent(m1: Motion, m2: Motion, dt: real, b1: Vec2, b2: Vec2)
    requires m1.position.x == m2.position.x && m1.velocity.x == m2.velocity.x && b1.x == b2.x
    ensures Step(m1, dt, b1).position.x == Step(m2, dt, b2).position.x
    ensures Step(m1, dt, b1).velocity.x == Step(m2, dt, b2).velocity.x
  {
  }

  /** The update applied to a sequence of time steps. */
  function Run(m: Motion, dts: seq<real>, bounds: Vec2): Motion
    decreases |dts|
  {
    if dts == [] then m else Run(Step(m, dts[0], bounds), dts[1..], bounds)
  }

  /** A reflection only ever flips signs: along any run the magnitude of each
      velocity component stays what it was. */
  lemma {:induction false} RunPreservesSpeed(m: Motion, dts: seq<real>, bounds: Vec2)
    decreases |dts|
    ensures Abs(Run(m, dts, bounds).velocity.x) == Abs(m.velocity.x)
    ensures Abs(Run(m, dts, bounds).velocity.y) == Abs(m.velocity.y)
  {
    if dts != [] {
      RunPreservesSpeed(Step(m, dts[0], bounds), dts[1..], bounds);
    }
  }

  predicate Inside(p: Vec2, bounds: Vec2)
  {
    !OutOfBounds(p.x, bounds.x) && !OutOfBounds(p.y, bounds.y)
  }

  /** No step of the run ends with an edge outside the window. */
  predicate NoReflection(m: Motion, dts: seq<real>, bounds: Vec2)
    decreases |dts|
  {
    dts == [] ||
    (Inside(Step(m, dts[0], bounds).position, bounds) && NoReflection(Step(m, dts[0], bounds), dts[1..], bounds))
  }

  function Sum(dts: seq<real>): real
  {
    if dts == [] then 0.0 else dts[0] + Sum(dts[1..])
  }

  /** Without a reflection the motion is linear in the total elapsed time, and
      the circle ends inside the window. */
  lemma {:induction false} LinearWithoutReflection(m: Motion, dts: seq<real>, bounds: Vec2)
    requires NoReflection(m, dts, bounds)
    decreases |dts|
    ensures Run(m, dts, bounds).velocity == m.velocity
    ensures Run(m, dts, bounds).position ==
      Vec2(m.position.x + m.velocity.x * Sum(dts), m.position.y + m.velocity.y * Sum(dts))
    ensures dts != [] ==> Inside(Run(m, dts, bounds).position, bounds)
  {
    if dts != [] {
      var next := Step(m, dts[0], bounds);
      LinearWithoutReflection(next, dts[1..], bounds);
      assert m.velocity.x * Sum(dts) == m.velocity.x * dts[0] + m.velocity.x * Sum(dts[1..]);
      assert m.velocity.y * Sum(dts) == m.velocity.y * dts[0] + m.velocity.y * Sum(dts[1..]);
    }
  }

  /** Start-up places the circle at the centre of an 800x600 window moving at
      (200, 150); the first update, which knows no previous time, advances it
      by 1/60 s without a bounce, whatever the clock reads. */
  lemma FirstFrameFromCentre(now: real)
    ensures DeltaTime(None, now) == FIRST_FRAME_DT
    ensures Step(Motion(Vec2(400.0, 300.0), START_VELOCITY), DeltaTime(None, now), Vec2(800.0, 600.0))
         == Motion(Vec2(400.0 + 200.0 / 60.0, 300.0 + 150.0 / 60.0), START_VELOCITY)
  {
  }

  /** From the centre of an 800x600 window, 2.5 s of motion at (200, 150)
      would carry the circle to (900, 675), so however the time is sliced into
      steps, some step must bounce. */
  lemma LongRunMustReflect(dts: seq<real>)
    requires Sum(dts) == 2.5
    ensures !NoReflection(Motion(Vec2(400.0, 300.0), START_VELOCITY), dts, Vec2(800.0, 600.0))
  {
    var m := Motion(Vec2(400.0, 300.0), START_VELOCITY);
    if NoReflection(m, dts, Vec2(800.0, 600.0)) {
      LinearWithoutReflection(m, dts, Vec2(800.0, 600.0));
    }
  }

  function Repeat(dt: real, n: nat): (r: seq<real>)
    ensures |r| == n && forall k :: 0 <= k < n ==> r[k] == dt
  {
    seq(n, _ => dt)
  }

  /** Along one axis, a circle at `p` moving at `v` is trapped for steps of
      `dt`: it does not move at all, or its edge is outside the window both
      where it is and where one step takes it. */
  predicate AxisTrapped(p: real, v: real, dt: real, bound: real)
  {
    v == 0.0 || (OutOfBounds(p, bound) && OutOfBounds(p + v * dt, bound))
  }

  /** The bounce test uses the moved position and ignores the direction of
      travel, so a circle trapped on both axes has its whole velocity negated
      by every step, and after any number of steps is either where it started
      (an even number) or where the first step took it (an odd number). */
  lemma {:induction false} TrappedCircleOscillates(m: Motion, dt: real, bounds: Vec2, n: nat)
    requires AxisTrapped(m.position.x, m.velocity.x, dt, bounds.x)
    requires AxisTrapped(m.position.y, m.velocity.y, dt, bounds.y)
    ensures Step(m, dt, bounds).velocity == Vec2(-m.velocity.x, -m.velocity.y)
    ensures Run(m, Repeat(dt, 2 * n), bounds) == m
    ensures Run(m, Repeat(dt, 2 * n + 1), bounds) == Step(m, dt, bounds)
  {
    var once := Step(m, dt, bounds);
    assert once.position.x + once.velocity.x * dt == m.position.x;
    assert once.position.y + once.velocity.y * dt == m.position.y;
    assert Step(once, dt, bounds) == m;
    var odd := Repeat(dt, 2 * n + 1);
    if n > 0 {
      var even := Repeat(dt, 2 * n);
      assert even[1..][1..] == Repeat(dt, 2 * (n - 1));
      assert odd[1..][1..] == Repeat(dt, 2 * (n - 1) + 1);
      TrappedCircleOscillates(m, dt, bounds, n - 1);
    } else {
      assert odd[1..] == [];
    }
  }

  /** A trapped circle that moves at all never comes back into the window:
      after every number of steps its edge is outside on some axis. */
  lemma TrappedCircleStaysOutside(m: Motion, dt: real, bounds: Vec2, k: nat)
    requires AxisTrapped(m.position.x, m.velocity.x, dt, bounds.x)
    requires AxisTrapped(m.position.y, m.velocity.y, dt, bounds.y)
    requires m.velocity.x != 0.0 || m.velocity.y != 0.0
    ensures !Inside(Run(m, Repeat(dt, k), bounds).position, bounds)
  {
    TrappedCircleOscillates(m, dt, bounds, k / 2);
    if k % 2 == 0 {
      assert k == 2 * (k / 2);
    } else {
      assert k == 2 * (k / 2) + 1;
    }
  }

  /** For instance, a resize that shrinks the window to 600x600 while the
      circle is at x = 700 leaves it flipping its x velocity on every frame. */
  lemma ShrunkWindowTrapsCircle(n: nat)
    ensures var m := Motion(Vec2(700.0, 300.0), Vec2(200.0, 0.0));
      Run(m, Repeat(FIRST_FRAME_DT, 2 * n), Vec2(600.0, 600.0)) == m
  {
    TrappedCircleOscillates(Motion(Vec2(700.0, 300.0), Vec2(200.0, 0.0)), FIRST_FRAME_DT, Vec2(600.0, 600.0), n);
  }
}
