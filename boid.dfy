/**
  One boid: the cached fan of avoidance rays, the obstacle search, the steering
  forces and the per-tick integration of Boid.UpdateBoid.

  Physics2D.CircleCast is a parameter (`CircleCast`); Time.deltaTime is the
  parameter `dt`; Transform is a small class holding the position and up vector
  the boid reads and writes, and its TransformVector as a function.
 */
module Boids {
  import opened UnityMath
  import opened Settings

  /** Physics2D.CircleCast(origin, radius, direction, distance, layerMask) hits a collider. */
  type CircleCast = (Vec3, real, Vec3, real, int) -> bool

  class Transform {
    var position: Vec3
    var up: Vec3
    /** Transform.TransformVector: a local direction in world space. */
    var localToWorld: Vec3 -> Vec3

    constructor(position: Vec3, up: Vec3, localToWorld: Vec3 -> Vec3)
      ensures this.position == position && this.up == up && this.localToWorld == localToWorld
    {
      this.position := position;
      this.up := up;
      this.localToWorld := localToWorld;
    }
  }

  // ---------------------------------------------------------------------------
  // The ray fan

  const RayCount: nat := 11
  const FieldOfView: real := 210.0

  /** The value of the fan loop's `step` counter at index i: the number of odd indices up to i. */
  function FanStep(i: nat): nat {
    (i + 1) / 2
  }

  /** The angle in degrees of ray i: even indices turn one way, odd indices the other. */
  function FanAngle(i: nat): real {
    (if i % 2 == 0 then 1.0 else -1.0) * FieldOfView / (RayCount - 1) as real * FanStep(i) as real
  }

  /** The local direction of ray i: (cos angle, sin angle) as a Vector2 stored in a Vector3. */
  function FanRay(m: Numerics, i: nat): Vec3 {
    Vec3(m.cosDeg(FanAngle(i)), m.sinDeg(FanAngle(i)), 0.0)
  }

  /** The fan is 0, -21, 21, -42, 42, ..., -105, 105 degrees. */
  lemma FanAngles()
    ensures seq(RayCount, i requires 0 <= i < RayCount => FanAngle(i))
         == [0.0, -21.0, 21.0, -42.0, 42.0, -63.0, 63.0, -84.0, 84.0, -105.0, 105.0]
  {
  }

  /** Every angle is a multiple of 21 degrees within [-105, 105], odd indices on the negative side. */
  lemma FanAngleBounds(i: nat)
    requires i < RayCount
    ensures -105.0 <= FanAngle(i) <= 105.0
    ensures FanAngle(i) == (if i % 2 == 0 then 21.0 else -21.0) * FanStep(i) as real
    ensures i % 2 == 1 ==> FanAngle(i) < 0.0
    ensures i % 2 == 0 ==> 0.0 <= FanAngle(i)
  {
  }

  /** No two rays of the fan point the same way. */
  lemma FanAnglesDistinct(i: nat, j: nat)
    requires i < RayCount && j < RayCount && i != j
    ensures FanAngle(i) != FanAngle(j)
  {
    FanAngles();
    assert FanAngle(i) == seq(RayCount, k requires 0 <= k < RayCount => FanAngle(k))[i];
    assert FanAngle(j) == seq(RayCount, k requires 0 <= k < RayCount => FanAngle(k))[j];
  }

  /** Each ray of the fan is a unit vector in the plane z = 0. */
  lemma FanRayIsUnit(m: Numerics, i: nat)
    requires Lawful(m)
    ensures SqrMag(FanRay(m, i)) == 1.0 && FanRay(m, i).z == 0.0
  {
  }

  /** Ray 0 points straight ahead (local +x); rays 2k-1 and 2k mirror each other across that axis. */
  lemma FanIsSymmetric(m: Numerics, k: nat)
    requires Lawful(m) && 1 <= k <= 5
    ensures FanRay(m, 0) == Vec3(1.0, 0.0, 0.0)
    ensures FanRay(m, 2 * k - 1) == Vec3(FanRay(m, 2 * k).x, -FanRay(m, 2 * k).y, 0.0)
  {
    assert FanAngle(0) == 0.0;
    assert FanAngle(2 * k - 1) == -FanAngle(2 * k);
  }

  // ---------------------------------------------------------------------------
  // Collision rays

  /** A Ray2D: origin and direction are Vector2 values, kept here as Vec3 with z = 0. */
  datatype Ray2D = Ray2D(origin: Vec3, direction: Vec3)

  /** new Ray2D(origin, direction): both arguments lose z, and the direction is normalised. */
  function MakeRay(m: Numerics, origin: Vec3, direction: Vec3): (r: Ray2D)
    ensures r.origin.z == 0.0 && r.direction.z == 0.0
    ensures Lawful(m) && Magnitude(m, Flatten(direction)) > Epsilon ==> SqrMag(r.direction) == 1.0
  {
    Ray2D(Flatten(origin), Normalized(m, Flatten(direction)))
  }

  /** The fan carried to world space from the boid's transform. */
  function WorldRays(m: Numerics, origin: Vec3, toWorld: Vec3 -> Vec3): (r: seq<Ray2D>)
    ensures |r| == RayCount
  {
    seq(RayCount, i requires 0 <= i < RayCount => MakeRay(m, origin, toWorld(FanRay(m, i))))
  }

  /** The circle cast along a ray hits an obstacle. */
  predicate Blocked(s: BoidSettings, cast: CircleCast, ray: Ray2D) {
    cast(ray.origin, s.boundsRadius, ray.direction, s.collisionAvoidDst, s.obstacleMask)
  }

  /** The lowest index at or after k whose ray is clear, or |rays| if there is none. */
  function FirstClear(s: BoidSettings, cast: CircleCast, rays: seq<Ray2D>, k: nat): (r: nat)
    requires k <= |rays|
    ensures k <= r <= |rays|
    ensures forall j :: k <= j < r ==> Blocked(s, cast, rays[j])
    ensures r < |rays| ==> !Blocked(s, cast, rays[r])
    decreases |rays| - k
  {
    if k == |rays| then |rays|
    else if !Blocked(s, cast, rays[k]) then k
    else FirstClear(s, cast, rays, k + 1)
  }

  /** Boid.GetObstacleDirection: the first clear ray's direction, or the current direction. */
  function ObstacleDirection(m: Numerics, s: BoidSettings, cast: CircleCast, origin: Vec3,
                             toWorld: Vec3 -> Vec3, direction: Vec3): (r: Vec3)
    ensures var rays := WorldRays(m, origin, toWorld);
      r == direction || exists k :: 0 <= k < RayCount && !Blocked(s, cast, rays[k]) && r == rays[k].direction
  {
    var rays := WorldRays(m, origin, toWorld);
    var k := FirstClear(s, cast, rays, 0);
    if k < |rays| then rays[k].direction else direction
  }

  /** The search takes the lowest-index clear ray, and falls back to `direction` only when all are blocked. */
  lemma ObstacleDirectionChoice(m: Numerics, s: BoidSettings, cast: CircleCast, origin: Vec3,
                                toWorld: Vec3 -> Vec3, direction: Vec3, k: nat)
    requires k < RayCount
    ensures var rays := WorldRays(m, origin, toWorld);
      !Blocked(s, cast, rays[k]) && (forall j :: 0 <= j < k ==> Blocked(s, cast, rays[j])) ==>
        ObstacleDirection(m, s, cast, origin, toWorld, direction) == rays[k].direction
    ensures var rays := WorldRays(m, origin, toWorld);
      (forall j :: 0 <= j < RayCount ==> Blocked(s, cast, rays[j])) ==>
        ObstacleDirection(m, s, cast, origin, toWorld, direction) == direction
  {
    var rays := WorldRays(m, origin, toWorld);
    var f := FirstClear(s, cast, rays, 0);
    if !Blocked(s, cast, rays[k]) && (forall j :: 0 <= j < k ==> Blocked(s, cast, rays[j])) {
      assert f == k;
    }
    if forall j :: 0 <= j < RayCount ==> Blocked(s, cast, rays[j]) {
      assert f == RayCount;
    }
  }

  /** Boid.IsHeadingForCollision: the circle cast straight ahead hits something. */
  predicate HeadingForCollision(s: BoidSettings, cast: CircleCast, position: Vec3, direction: Vec3): (r: bool)
    ensures r <==> Blocked(s, cast, Ray2D(Flatten(position), Flatten(direction)))
  {
    cast(Flatten(position), s.boundsRadius, Flatten(direction), s.collisionAvoidDst, s.obstacleMask)
  }

  // ---------------------------------------------------------------------------
  // Steering

  /**
    Boid.SteerTowards: the full-speed velocity towards `vector` minus the current
    velocity, capped. A steering force never exceeds maxSteerForce in length, and a
    correction within that bound is applied whole.
   */
  function SteerTowards(m: Numerics, s: BoidSettings, velocity: Vec3, vector: Vec3): (r: Vec3)
    ensures Lawful(m) ==> SqrMag(r) <= s.maxSteerForce * s.maxSteerForce
    ensures var desired := Sub(Scale(s.maxSpeed, Normalized(m, vector)), velocity);
      SqrMag(desired) <= s.maxSteerForce * s.maxSteerForce ==> r == desired
  {
    ClampMagnitude(m, Sub(Scale(s.maxSpeed, Normalized(m, vector)), velocity), s.maxSteerForce)
  }

  /** The offset to the target, replaced by zero inside targetRadius. */
  function TargetOffset(s: BoidSettings, position: Vec3, targetPosition: Vec3): Vec3 {
    var offset := Sub(targetPosition, position);
    if SqrMag(offset) < s.targetRadius * s.targetRadius then Zero else offset
  }

  /** The gain on the target force: Lerp(3, targetWeight, t) with t from InverseLerp over SqrDistanceRange. */
  function TargetGain(s: BoidSettings, offset: Vec3): real {
    Lerp(3.0, s.targetWeight, InverseLerp(s.sqrDistanceRange.x, s.sqrDistanceRange.y, SqrMag(offset)))
  }

  /** The force towards the target. */
  function TargetTerm(m: Numerics, s: BoidSettings, velocity: Vec3, position: Vec3, targetPosition: Vec3): Vec3 {
    var offset := TargetOffset(s, position, targetPosition);
    Scale(TargetGain(s, offset), SteerTowards(m, s, velocity, Normalized(m, offset)))
  }

  /** The gain lies between 3 and targetWeight; it is 3 near the target and targetWeight far away. */
  lemma TargetGainBounds(s: BoidSettings, offset: Vec3)
    ensures 3.0 <= s.targetWeight ==> 3.0 <= TargetGain(s, offset) <= s.targetWeight
    ensures s.targetWeight <= 3.0 ==> s.targetWeight <= TargetGain(s, offset) <= 3.0
    ensures s.sqrDistanceRange.x < s.sqrDistanceRange.y && SqrMag(offset) <= s.sqrDistanceRange.x ==>
      TargetGain(s, offset) == 3.0
    ensures s.sqrDistanceRange.x < s.sqrDistanceRange.y && s.sqrDistanceRange.y <= SqrMag(offset) ==>
      TargetGain(s, offset) == s.targetWeight
  {
    LerpFacts(3.0, s.targetWeight, InverseLerp(s.sqrDistanceRange.x, s.sqrDistanceRange.y, SqrMag(offset)));
  }

  /**
    Inside targetRadius the offset becomes zero, yet the target force is not zero:
    it is three times the capped reversal of the current velocity, a braking force.
   */
  lemma TargetDeadzoneBrakes(m: Numerics, s: BoidSettings, velocity: Vec3, position: Vec3, targetPosition: Vec3)
    requires Lawful(m)
    requires 0.0 <= s.sqrDistanceRange.x < s.sqrDistanceRange.y
    requires SqrMag(Sub(targetPosition, position)) < s.targetRadius * s.targetRadius
    ensures TargetOffset(s, position, targetPosition) == Zero
    ensures TargetTerm(m, s, velocity, position, targetPosition)
         == Scale(3.0, ClampMagnitude(m, Neg(velocity), s.maxSteerForce))
  {
    var offset := TargetOffset(s, position, targetPosition);
    assert offset == Zero;
    TargetGainAtZero(s);
    NormalizedZero(m);
    SteerTowardsZero(m, s, velocity, Zero);
  }

  /** With a non-degenerate range starting at or above zero, the gain at the zero offset is 3. */
  lemma TargetGainAtZero(s: BoidSettings)
    requires 0.0 <= s.sqrDistanceRange.x < s.sqrDistanceRange.y
    ensures TargetGain(s, Zero) == 3.0
  {
    assert SqrMag(Zero) == 0.0;
    TargetGainBounds(s, Zero);
  }

  lemma NormalizedZero(m: Numerics)
    requires Lawful(m)
    ensures Normalized(m, Zero) == Zero
  {
    assert SqrMag(Zero) == 0.0;
  }

  /** Steering towards a null vector steers against the current velocity, capped: a braking force. */
  lemma SteerTowardsZero(m: Numerics, s: BoidSettings, velocity: Vec3, vector: Vec3)
    requires Lawful(m) && SqrMag(vector) == 0.0
    ensures SteerTowards(m, s, velocity, vector) == ClampMagnitude(m, Neg(velocity), s.maxSteerForce)
  {
    assert Normalized(m, vector) == Zero;
    assert Scale(s.maxSpeed, Zero) == Zero;
    assert Sub(Zero, velocity) == Neg(velocity);
  }

  /** The three flocking forces: alignment, cohesion and separation, each weighted. */
  function FlockingForces(m: Numerics, s: BoidSettings, velocity: Vec3, position: Vec3,
                          heading: Vec3, centre: Vec3, avoidance: Vec3): Vec3
  {
    var alignment := Scale(s.alignWeight, SteerTowards(m, s, velocity, heading));
    var cohesion := Scale(s.cohesionWeight, SteerTowards(m, s, velocity, Sub(centre, position)));
    var separation := Scale(s.seperateWeight, SteerTowards(m, s, velocity, avoidance));
    Add(Add(alignment, cohesion), separation)
  }

  /** The force away from an obstacle ahead. */
  function ObstacleForce(m: Numerics, s: BoidSettings, velocity: Vec3, avoidDirection: Vec3): Vec3 {
    Scale(s.avoidCollisionWeight, SteerTowards(m, s, velocity, avoidDirection))
  }

  /** What UpdateBoid perceives of its surroundings for one tick. */
  datatype Surroundings = Surroundings(
    target: Option<Vec3>,       // the target's position, if there is a target
    cast: CircleCast,
    origin: Vec3,               // cachedTransform.position
    toWorld: Vec3 -> Vec3)      // cachedTransform.TransformVector

  /**
    The order in which UpdateBoid accumulates its acceleration: starting from zero,
    add the target force `t`, then the alignment, cohesion and separation forces,
    then the obstacle force `o`, each stage only when its flag holds.
   */
  function Accumulated(withTarget: bool, withFlocking: bool, withObstacle: bool,
                       t: Vec3, alignment: Vec3, cohesion: Vec3, separation: Vec3, o: Vec3): Vec3
  {
    var a1 := if withTarget then Add(Zero, t) else Zero;
    var a2 := if withFlocking then Add(Add(Add(a1, alignment), cohesion), separation) else a1;
    if withObstacle then Add(a2, o) else a2
  }

  /** The accumulation is the sum of the three gated parts. */
  lemma AccumulatedIsGatedSum(withTarget: bool, withFlocking: bool, withObstacle: bool,
                              t: Vec3, alignment: Vec3, cohesion: Vec3, separation: Vec3, o: Vec3)
    ensures Accumulated(withTarget, withFlocking, withObstacle, t, alignment, cohesion, separation, o)
         == Add(Add(if withTarget then t else Zero,
                    if withFlocking then Add(Add(alignment, cohesion), separation) else Zero),
                if withObstacle then o else Zero)
  {
  }

  /**
    The acceleration UpdateBoid accumulates. The centre sum is divided by the count
    before the cohesion force is computed; the target force needs a target, the
    flocking forces a non-zero count, the obstacle force obstacles switched on and
    a hit straight ahead.
   */
  function Acceleration(m: Numerics, s: BoidSettings, position: Vec3, direction: Vec3, velocity: Vec3,
                        heading: Vec3, centre: Vec3, avoidance: Vec3, count: int, env: Surroundings): Vec3
  {
    var centreOfFlockmates := if count != 0 then DivBy(centre, count as real) else centre;
    Accumulated(
      env.target.Some?, count != 0, HeadingForCollision(s, env.cast, position, direction) && s.useObstacles,
      if env.target.Some? then TargetTerm(m, s, velocity, position, env.target.value) else Zero,
      Scale(s.alignWeight, SteerTowards(m, s, velocity, heading)),
      Scale(s.cohesionWeight, SteerTowards(m, s, velocity, Sub(centreOfFlockmates, position))),
      Scale(s.seperateWeight, SteerTowards(m, s, velocity, avoidance)),
      ObstacleForce(m, s, velocity, ObstacleDirection(m, s, env.cast, env.origin, env.toWorld, direction)))
  }

  /**
    The acceleration is the target force (only with a target) plus the flocking forces
    (only for a non-zero count, towards the divided centre) plus the obstacle force
    (only when obstacles are used and the way ahead is blocked).
   */
  lemma AccelerationIsGatedSum(m: Numerics, s: BoidSettings, position: Vec3, direction: Vec3, velocity: Vec3,
                               heading: Vec3, centre: Vec3, avoidance: Vec3, count: int, env: Surroundings)
    ensures Acceleration(m, s, position, direction, velocity, heading, centre, avoidance, count, env)
         == Add(Add(
              if env.target.Some? then TargetTerm(m, s, velocity, position, env.target.value) else Zero,
              if count != 0 then FlockingForces(m, s, velocity, position, heading, DivBy(centre, count as real), avoidance)
              else Zero),
              if HeadingForCollision(s, env.cast, position, direction) && s.useObstacles
              then ObstacleForce(m, s, velocity, ObstacleDirection(m, s, env.cast, env.origin, env.toWorld, direction))
              else Zero)
  {
    var centreOfFlockmates := if count != 0 then DivBy(centre, count as real) else centre;
    AccumulatedIsGatedSum(
      env.target.Some?, count != 0, HeadingForCollision(s, env.cast, position, direction) && s.useObstacles,
      if env.target.Some? then TargetTerm(m, s, velocity, position, env.target.value) else Zero,
      Scale(s.alignWeight, SteerTowards(m, s, velocity, heading)),
      Scale(s.cohesionWeight, SteerTowards(m, s, velocity, Sub(centreOfFlockmates, position))),
      Scale(s.seperateWeight, SteerTowards(m, s, velocity, avoidance)),
      ObstacleForce(m, s, velocity, ObstacleDirection(m, s, env.cast, env.origin, env.toWorld, direction)));
  }

  // ---------------------------------------------------------------------------
  // Integration

  /** The speed clamp of UpdateBoid: keep the direction of v, clamp its length to [minSpeed, maxSpeed]. */
  function ClampSpeed(m: Numerics, s: BoidSettings, v: Vec3): Vec3
    requires Magnitude(m, v) != 0.0
  {
    Scale(Clamp(Magnitude(m, v), s.minSpeed, s.maxSpeed), DivBy(v, Magnitude(m, v)))
  }

  /**
    For a non-zero velocity the new direction is a unit vector, the new speed lies in
    [minSpeed, maxSpeed], the new velocity points along the new direction, and a
    velocity already in the band is kept.
   */
  lemma SpeedIsClamped(m: Numerics, s: BoidSettings, v: Vec3)
    requires Lawful(m) && SqrMag(v) != 0.0 && 0.0 <= s.minSpeed <= s.maxSpeed
    ensures Magnitude(m, v) > 0.0
    ensures SqrMag(DivBy(v, Magnitude(m, v))) == 1.0
    ensures s.minSpeed <= Magnitude(m, ClampSpeed(m, s, v)) <= s.maxSpeed
    ensures 0.0 < s.maxSpeed ==> Magnitude(m, ClampSpeed(m, s, v)) > 0.0
    ensures 0.0 < s.maxSpeed ==>
      DivBy(ClampSpeed(m, s, v), Magnitude(m, ClampSpeed(m, s, v))) == DivBy(v, Magnitude(m, v))
    ensures s.minSpeed <= Magnitude(m, v) <= s.maxSpeed ==> ClampSpeed(m, s, v) == v
  {
    var k := Magnitude(m, v);
    MagnitudeZero(m, v);
    UnitAfterDivision(v, k);
    var dir := DivBy(v, k);
    var c := Clamp(k, s.minSpeed, s.maxSpeed);
    assert ClampSpeed(m, s, v) == Scale(c, dir);
    MagnitudeOfScaledUnit(m, c, dir);
    if 0.0 < s.maxSpeed {
      ScaleThenDivide(c, dir);
    }
    if s.minSpeed <= k <= s.maxSpeed {
      DivideThenScale(k, v);
    }
  }

  /**
    The speed clamp of one UpdateBoid step applied to the integrated velocity `v`:
    the new direction is v over its length and the new velocity is ClampSpeed(v).
    For a zero `v` the game divides by zero; then only the speed along the
    unspecified direction is known.
   */
  predicate Stepped(m: Numerics, s: BoidSettings, v: Vec3, velocity: Vec3, direction: Vec3) {
    && (Magnitude(m, v) != 0.0 ==> direction == DivBy(v, Magnitude(m, v)) && velocity == ClampSpeed(m, s, v))
    && (Magnitude(m, v) == 0.0 ==> velocity == Scale(Clamp(0.0, s.minSpeed, s.maxSpeed), direction))
  }

  /** After a step from a non-zero integrated velocity the direction is a unit vector and the speed is in band. */
  lemma SteppedInBand(m: Numerics, s: BoidSettings, v: Vec3, velocity: Vec3, direction: Vec3)
    requires Lawful(m) && SqrMag(v) != 0.0 && 0.0 <= s.minSpeed <= s.maxSpeed
    requires Stepped(m, s, v, velocity, direction)
    ensures SqrMag(direction) == 1.0
    ensures s.minSpeed <= Magnitude(m, velocity) <= s.maxSpeed
    ensures 0.0 < s.maxSpeed ==> Magnitude(m, velocity) > 0.0
    ensures 0.0 < s.maxSpeed ==> DivBy(velocity, Magnitude(m, velocity)) == direction
  {
    SpeedIsClamped(m, s, v);
  }

  /** The start velocity of Init, half-way between the speed limits along a unit `up`, is within the band. */
  lemma StartSpeedInBand(m: Numerics, s: BoidSettings, up: Vec3)
    requires Lawful(m) && SqrMag(up) == 1.0 && 0.0 <= s.minSpeed <= s.maxSpeed
    ensures s.minSpeed <= Magnitude(m, Scale((s.minSpeed + s.maxSpeed) / 2.0, up)) <= s.maxSpeed
  {
    MagnitudeOfScaledUnit(m, (s.minSpeed + s.maxSpeed) / 2.0, up);
  }

  // ---------------------------------------------------------------------------
  // The boid

  class Boid {
    /** Square root and trigonometry used by this boid (see UnityMath.Numerics). */
    const maths: Numerics

    var settings: BoidSettings
    var position: Vec3
    var direction: Vec3
    var velocity: Vec3
    var avgFlockHeading: Vec3
    var avgAvoidanceHeading: Vec3
    var centreOfFlockmates: Vec3
    var numPerceivedFlockmates: int

    /** null once the game object has been destroyed. */
    var cachedTransform: Transform?
    var target: Transform?
    /** The lazily built ray fan (null until first use). */
    var obstacleRays: array?<Vec3>
    /** The owning flock, set by Init (null before). */
    var flock: object?

    /** A built fan has 11 entries, entry i being FanRay(maths, i). */
    ghost predicate RaysCached()
      reads this`obstacleRays, obstacleRays
    {
      obstacleRays != null ==>
        obstacleRays.Length == RayCount && forall i :: 0 <= i < RayCount ==> obstacleRays[i] == FanRay(maths, i)
    }

    /**
      Awake: the boid caches its transform. The settings reference is unset in the
      game until Init; here it starts as the default settings.
     */
    constructor(transform: Transform?, maths: Numerics)
      ensures this.maths == maths && cachedTransform == transform
      ensures settings == DefaultSettings() && target == null && flock == null && obstacleRays == null
      ensures position == Zero && direction == Zero && velocity == Zero && numPerceivedFlockmates == 0
      ensures avgFlockHeading == Zero && avgAvoidanceHeading == Zero && centreOfFlockmates == Zero
      ensures RaysCached()
    {
      this.maths := maths;
      settings := DefaultSettings();
      position := Zero;
      direction := Zero;
      velocity := Zero;
      avgFlockHeading := Zero;
      avgAvoidanceHeading := Zero;
      centreOfFlockmates := Zero;
      numPerceivedFlockmates := 0;
      cachedTransform := transform;
      target := null;
      obstacleRays := null;
      flock := null;
    }

    /** The ObstacleRays property: builds the fan on first access and returns the cached array afterwards. */
    method ObstacleRays() returns (rays: array<Vec3>)
      requires RaysCached()
      modifies this`obstacleRays
      ensures rays == obstacleRays && RaysCached()
      ensures rays.Length == RayCount
      ensures forall i :: 0 <= i < RayCount ==> rays[i] == FanRay(maths, i)
      ensures old(obstacleRays) != null ==> rays == old(obstacleRays)
      ensures old(obstacleRays) == null ==> fresh(rays)
    {
      if obstacleRays == null {
        var fov := 210.0;
        obstacleRays := new Vec3[11];
        var step := 0;
        for i := 0 to obstacleRays.Length
          invariant obstacleRays != null && fresh(obstacleRays) && obstacleRays.Length == RayCount
          invariant step == i / 2
          invariant forall k :: 0 <= k < i ==> obstacleRays[k] == FanRay(maths, k)
        {
          if i % 2 == 1 {
            step := step + 1;
          }
          var angle := (if i % 2 == 0 then 1.0 else -1.0) * fov / (obstacleRays.Length - 1) as real * step as real;
          obstacleRays[i] := Vec3(maths.cosDeg(angle), maths.sinDeg(angle), 0.0);
        }
      }
      rays := obstacleRays;
    }

    /** Boid.GetObstacleDirection: casts along the fan in order and returns the first clear direction. */
    method GetObstacleDirection(cast: CircleCast) returns (r: Vec3)
      requires cachedTransform != null && RaysCached()
      modifies this`obstacleRays
      ensures RaysCached() && obstacleRays != null
      ensures old(obstacleRays) != null ==> obstacleRays == old(obstacleRays)
      ensures r == ObstacleDirection(maths, settings, cast, cachedTransform.position, cachedTransform.localToWorld, direction)
    {
      var fan := ObstacleRays();
      ghost var world := WorldRays(maths, cachedTransform.position, cachedTransform.localToWorld);
      var rays := TransformRays(fan);
      r := FirstClearDirection(rays, cast, world);
    }

    /** The first loop of GetObstacleDirection: each fan ray taken to world space from the boid's position. */
    method TransformRays(fan: array<Vec3>) returns (rays: array<Ray2D>)
      requires cachedTransform != null
      requires fan.Length == RayCount && forall k :: 0 <= k < RayCount ==> fan[k] == FanRay(maths, k)
      ensures fresh(rays) && rays[..] == WorldRays(maths, cachedTransform.position, cachedTransform.localToWorld)
    {
      rays := new Ray2D[fan.Length];
      ghost var world := WorldRays(maths, cachedTransform.position, cachedTransform.localToWorld);
      for i := 0 to rays.Length
        invariant forall k :: 0 <= k < i ==> rays[k] == world[k]
      {
        rays[i] := MakeRay(maths, cachedTransform.position, cachedTransform.localToWorld(fan[i]));
      }
    }

    /** The second loop of GetObstacleDirection: the first ray whose cast is clear, else the heading. */
    method FirstClearDirection(rays: array<Ray2D>, cast: CircleCast, ghost world: seq<Ray2D>) returns (r: Vec3)
      requires rays[..] == world
      ensures var k := FirstClear(settings, cast, world, 0);
        r == if k < |world| then world[k].direction else direction
    {
      for i := 0 to rays.Length
        invariant forall k :: 0 <= k < i ==> Blocked(settings, cast, world[k])
      {
        if !cast(rays[i].origin, settings.boundsRadius, rays[i].direction, settings.collisionAvoidDst, settings.obstacleMask) {
          assert FirstClear(settings, cast, world, 0) == i by {
            FirstClearIsLeast(settings, cast, world, i);
          }
          return rays[i].direction;
        }
      }
      assert FirstClear(settings, cast, world, 0) == |world| by {
        FirstClearIsLeast(settings, cast, world, |world|);
      }
      return direction;
    }

    /** Boid.Remove: asks the owning flock, if any, to remove this boid; the flock performs the removal. */
    method Remove() returns (requested: bool)
      ensures requested <==> flock != null
    {
      requested := flock != null;
    }

    method SetSettings(s: BoidSettings)
      modifies this`settings
      ensures settings == s
    {
      settings := s;
    }

    /** The two-argument SetSettings: both values of `force` assign the settings. */
    method SetSettingsForced(s: BoidSettings, force: bool)
      modifies this`settings
      ensures settings == s
    {
      if force {
        settings := s;
      } else {
        SetSettings(s);
      }
    }

    method ChangeTarget(t: Transform?)
      modifies this`target
      ensures target == t
    {
      target := t;
    }

    /** Boid.Init: joins a flock and starts at the transform's pose, at the middle of the speed band. */
    method Init(owner: object, s: BoidSettings, t: Transform?)
      requires cachedTransform != null
      modifies this
      ensures cachedTransform == old(cachedTransform) && obstacleRays == old(obstacleRays)
      ensures settings == s && target == t && flock == owner
      ensures position == cachedTransform.position && direction == cachedTransform.up
      ensures velocity == Scale((s.minSpeed + s.maxSpeed) / 2.0, cachedTransform.up)
      ensures avgFlockHeading == old(avgFlockHeading) && avgAvoidanceHeading == old(avgAvoidanceHeading)
      ensures centreOfFlockmates == old(centreOfFlockmates) && numPerceivedFlockmates == old(numPerceivedFlockmates)
      ensures old(RaysCached()) ==> RaysCached()
    {
      settings := s;
      target := t;
      flock := owner;
      position := cachedTransform.position;
      direction := cachedTransform.up;
      var startSpeed := (s.minSpeed + s.maxSpeed) / 2.0;
      velocity := Scale(startSpeed, cachedTransform.up);
    }

    /** What this boid perceives this tick. */
    function Surround(cast: CircleCast): Surroundings
      reads this`target, this`cachedTransform, target, cachedTransform
      requires cachedTransform != null
    {
      Surroundings(if target != null then Some(target.position) else None, cast,
                   cachedTransform.position, cachedTransform.localToWorld)
    }

    /**
      Boid.UpdateBoid. With a destroyed transform it only asks for removal
      (`removeRequested`). Otherwise it accumulates the acceleration, integrates over
      `dt`, clamps the speed and moves the transform.
     */
    method UpdateBoid(dt: real, cast: CircleCast) returns (removeRequested: bool)
      requires RaysCached()
      modifies this, cachedTransform
      ensures RaysCached()
      ensures removeRequested <==> old(cachedTransform) == null && flock != null
      ensures cachedTransform == old(cachedTransform) && settings == old(settings) && target == old(target)
      ensures flock == old(flock) && numPerceivedFlockmates == old(numPerceivedFlockmates)
      ensures avgFlockHeading == old(avgFlockHeading) && avgAvoidanceHeading == old(avgAvoidanceHeading)
      ensures old(obstacleRays) != null ==> obstacleRays == old(obstacleRays)
      ensures old(cachedTransform) == null ==>
        position == old(position) && direction == old(direction) && velocity == old(velocity)
        && centreOfFlockmates == old(centreOfFlockmates)
      ensures old(cachedTransform) != null ==>
        centreOfFlockmates == (if numPerceivedFlockmates != 0
                               then DivBy(old(centreOfFlockmates), numPerceivedFlockmates as real)
                               else old(centreOfFlockmates))
      ensures old(cachedTransform) != null ==>
        Stepped(maths, settings,
                Add(old(velocity), Scale(dt, Acceleration(maths, settings, old(position), old(direction), old(velocity),
                      avgFlockHeading, old(centreOfFlockmates), avgAvoidanceHeading, numPerceivedFlockmates,
                      old(Surround(cast))))),
                velocity, direction)
      ensures old(cachedTransform) != null ==>
        cachedTransform.position == Add(old(cachedTransform.position), Scale(dt, velocity))
        && position == cachedTransform.position
    {
      if cachedTransform == null {
        removeRequested := Remove();
        return;
      }
      removeRequested := false;
      Advance(dt, cast);
    }

    /** UpdateBoid past the check on the transform: steer, then integrate. */
    method Advance(dt: real, cast: CircleCast)
      requires cachedTransform != null && RaysCached()
      modifies this`centreOfFlockmates, this`obstacleRays, this`velocity, this`position, this`direction,
               cachedTransform`position
      ensures RaysCached()
      ensures old(obstacleRays) != null ==> obstacleRays == old(obstacleRays)
      ensures centreOfFlockmates == (if numPerceivedFlockmates != 0
                                     then DivBy(old(centreOfFlockmates), numPerceivedFlockmates as real)
                                     else old(centreOfFlockmates))
      ensures Stepped(maths, settings,
                      Add(old(velocity), Scale(dt, Acceleration(maths, settings, old(position), old(direction), old(velocity),
                            avgFlockHeading, old(centreOfFlockmates), avgAvoidanceHeading, numPerceivedFlockmates,
                            old(Surround(cast))))),
                      velocity, direction)
      ensures cachedTransform.position == Add(old(cachedTransform.position), Scale(dt, velocity))
      ensures position == cachedTransform.position
    {
      var acceleration := SteeringAcceleration(cast);
      Integrate(dt, acceleration);
    }

    /** The first half of UpdateBoid: the acceleration of this tick, dividing the centre sum on the way. */
    method SteeringAcceleration(cast: CircleCast) returns (acceleration: Vec3)
      requires cachedTransform != null && RaysCached()
      modifies this`centreOfFlockmates, this`obstacleRays
      ensures RaysCached()
      ensures old(obstacleRays) != null ==> obstacleRays == old(obstacleRays)
      ensures centreOfFlockmates == (if numPerceivedFlockmates != 0
                                     then DivBy(old(centreOfFlockmates), numPerceivedFlockmates as real)
                                     else old(centreOfFlockmates))
      ensures acceleration == Acceleration(maths, settings, position, direction, velocity, avgFlockHeading,
                                           old(centreOfFlockmates), avgAvoidanceHeading, numPerceivedFlockmates,
                                           old(Surround(cast)))
    {
      acceleration := Zero;
      if target != null {
        acceleration := Add(acceleration, TargetTerm(maths, settings, velocity, position, target.position));
      }

      if numPerceivedFlockmates != 0 {
        centreOfFlockmates := DivBy(centreOfFlockmates, numPerceivedFlockmates as real);
        var offsetToFlockmatesCentre := Sub(centreOfFlockmates, position);
        var alignmentForce := Scale(settings.alignWeight, SteerTowards(maths, settings, velocity, avgFlockHeading));
        var cohesionForce := Scale(settings.cohesionWeight, SteerTowards(maths, settings, velocity, offsetToFlockmatesCentre));
        var seperationForce := Scale(settings.seperateWeight, SteerTowards(maths, settings, velocity, avgAvoidanceHeading));
        acceleration := Add(acceleration, alignmentForce);
        acceleration := Add(acceleration, cohesionForce);
        acceleration := Add(acceleration, seperationForce);
      }

      if HeadingForCollision(settings, cast, position, direction) && settings.useObstacles {
        var collisionAvoidDir := GetObstacleDirection(cast);
        var collisionAvoidForce := ObstacleForce(maths, settings, velocity, collisionAvoidDir);
        acceleration := Add(acceleration, collisionAvoidForce);
      }
    }

    /** The second half of UpdateBoid: integrate, clamp the speed, move the transform. */
    method Integrate(dt: real, acceleration: Vec3)
      requires cachedTransform != null
      modifies this`velocity, this`position, this`direction, cachedTransform`position
      ensures Stepped(maths, settings, Add(old(velocity), Scale(dt, acceleration)), velocity, direction)
      ensures cachedTransform.position == Add(old(cachedTransform.position), Scale(dt, velocity))
      ensures position == cachedTransform.position
    {
      velocity := Add(velocity, Scale(dt, acceleration));
      var speed := Magnitude(maths, velocity);
      var dir: Vec3;
      if speed != 0.0 {
        dir := DivBy(velocity, speed);
      } else {
        // Division by a zero speed: the game gets NaN components; the model leaves dir unspecified.
        dir :| true;
      }
      speed := Clamp(speed, settings.minSpeed, settings.maxSpeed);
      velocity := Scale(speed, dir);

      cachedTransform.position := Add(cachedTransform.position, Scale(dt, velocity));
      position := cachedTransform.position;
      direction := dir;

    }
  }

  /** FirstClear from 0 is the least clear index, when all indices before `i` are blocked. */
  lemma FirstClearIsLeast(s: BoidSettings, cast: CircleCast, rays: seq<Ray2D>, i: nat)
    requires i <= |rays|
    requires forall k :: 0 <= k < i ==> Blocked(s, cast, rays[k])
    requires i < |rays| ==> !Blocked(s, cast, rays[i])
    ensures FirstClear(s, cast, rays, 0) == i
  {
  }
}
