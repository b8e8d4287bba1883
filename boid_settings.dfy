/**
  BoidSettings: the tuning record that the flock and every boid read. In the
  game it is an asset object shared by reference; here it is an immutable value,
  and a change of settings is an explicit assignment (Flock.ChangeSettings).
 */
module Settings {
  import opened UnityMath

  /** Which Unity callback drives the simulation. */
  datatype UpdateMode = Update | FixedUpdate | LateUpdate

  datatype BoidSettings = BoidSettings(
    startingBoidCount: int,
    updateMode: UpdateMode,
    minSpeed: real,
    maxSpeed: real,
    perceptionRadius: real,
    avoidanceRadius: real,
    maxSteerForce: real,
    sqrDistanceRange: Vec2,
    alignWeight: real,
    cohesionWeight: real,
    seperateWeight: real,
    targetRadius: real,
    targetWeight: real,
    useObstacles: bool,
    obstacleMask: int,
    boundsRadius: real,
    avoidCollisionWeight: real,
    collisionAvoidDst: real)

  /** The field initialisers of the asset (enum, bool and mask fields take their zero values). */
  function DefaultSettings(): BoidSettings {
    BoidSettings(
      startingBoidCount := 5,
      updateMode := Update,
      minSpeed := 2.0,
      maxSpeed := 5.0,
      perceptionRadius := 2.5,
      avoidanceRadius := 1.0,
      maxSteerForce := 3.0,
      sqrDistanceRange := Vec2(1.0, 200.0),
      alignWeight := 1.0,
      cohesionWeight := 1.0,
      seperateWeight := 1.0,
      targetRadius := 0.0,
      targetWeight := 1.0,
      useObstacles := false,
      obstacleMask := 0,
      boundsRadius := 0.27,
      avoidCollisionWeight := 10.0,
      collisionAvoidDst := 5.0)
  }

  /** A speed band exists, avoidance happens inside perception, InverseLerp's range is not degenerate. */
  predicate ValidSettings(s: BoidSettings) {
    && 0 <= s.startingBoidCount
    && 0.0 <= s.minSpeed <= s.maxSpeed
    && 0.0 <= s.avoidanceRadius <= s.perceptionRadius
    && 0.0 <= s.maxSteerForce
    && 0.0 <= s.sqrDistanceRange.x < s.sqrDistanceRange.y
    && 0.0 <= s.alignWeight && 0.0 <= s.cohesionWeight && 0.0 <= s.seperateWeight
    && 0.0 <= s.targetRadius && 0.0 <= s.targetWeight
    && 0.0 <= s.boundsRadius && 0.0 <= s.avoidCollisionWeight && 0.0 <= s.collisionAvoidDst
  }

  /** The shipped defaults are a valid configuration. */
  lemma DefaultSettingsValid()
    ensures ValidSettings(DefaultSettings())
    ensures DefaultSettings().minSpeed <= DefaultSettings().maxSpeed
    ensures DefaultSettings().avoidanceRadius <= DefaultSettings().perceptionRadius
    ensures DefaultSettings().sqrDistanceRange.x < DefaultSettings().sqrDistanceRange.y
    ensures DefaultSettings().startingBoidCount == 5
  {
  }

  /** UpdateMode has exactly the three callbacks as values. */
  lemma UpdateModeHasThreeValues(u: UpdateMode)
    ensures u == Update || u == FixedUpdate || u == LateUpdate
    ensures Update != FixedUpdate && FixedUpdate != LateUpdate && Update != LateUpdate
  {
  }
}
