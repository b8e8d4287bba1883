# Boids flocking core, modelled in Dafny

This project models the core of a Unity boids simulation. There are three parts:

- **BoidSettings** is the tuning record.
- **Flock** owns the list of boids and runs one tick of the simulation.
- **Boid** is a single agent that steers, integrates its velocity and moves its transform.

On each tick, the flock does the following:

1. It snapshots the position and direction of every boid into an array of `BoidData`.
2. It runs `ProcessData`, an all-pairs pass. For each boid this counts the flockmates within the perception radius and sums their headings. It also adds a "centre" term for each flockmate and accumulates a repulsion from every boid within the avoidance radius.
3. It copies row i back into boid i and calls `UpdateBoid`.

A boid's update works like this:

1. It sums weighted steering forces:
   - towards the target, with a gain that goes from 3 near the target to `targetWeight` far away;
   - alignment, cohesion and separation, but only when it has flockmates;
   - an obstacle force along the first clear ray of an 11-ray fan, but only when the cast straight ahead is blocked.
2. It integrates over the frame time.
3. It clamps the speed into `[minSpeed, maxSpeed]`.
4. It moves its transform.

The project is split into four modules:

- `UnityMath` (`unity_math.dfy`) covers the vector arithmetic and the `Mathf` / `Vector3` helpers the core uses, over exact reals. Square root, cosine and sine are supplied as a `Numerics` value. The predicate `Lawful` states the laws they obey.
- `Settings` (`boid_settings.dfy`) holds `BoidSettings` as an immutable value with the asset's default values.
- `Boids` (`boid.dfy`) holds the steering, ray-fan and integration functions with their lemmas, and the `Boid` class.
- `Flocks` (`flock.dfy`) holds `ProcessData` (as functions, and as the in-place array method), the reference aggregates, the list helpers, and the `Flock` class.

Four things come in from outside the model as explicit parameters:

- `Physics2D.CircleCast` is the function parameter `cast`.
- `Time.deltaTime` is `dt`.
- `Random.Range` jitter is the sequence `jitter`.
- `GameObject.FindGameObjectWithTag("BoidTarget")` is `tagged`.

A Unity `Transform` is a small class. It holds the position and up vector the boid reads and writes, plus its `TransformVector` map.

Three details of the code shape what the model proves:

- **Fan order.** Boid.cs lines 43-46 raise the step at every odd index and negate the angle there, so the fan goes 0, -21, 21, -42, 42, ... degrees (`FanAngles`).
- **Centre sum.** Flock.cs line 115 adds the observer's own position `data[i].position` to `flockCentre` for each flockmate. `CentreIsOwnPosition` and `CentreOfRow` prove what follows from it: the centre a boid divides out is its own position, so the cohesion force steers towards a zero offset.
- **Destroyed boids stay.** A boid whose game object is destroyed asks its flock to remove it (Boid.cs lines 93-96), but Flock.cs line 184 tests `boid == null` with Unity's overloaded `==`, which holds for a destroyed object. `UnityNull` models that test, so the refusal is reproduced: a tick never changes the list or the counter.

## Model

| member | source | states |
|---|---|---|
| Settings.DefaultSettingsValid | Assets/Boids/Scripts/BoidSettings.cs:10-40 | The asset's defaults form a valid configuration: the speed band is non-empty, avoidance lies inside perception, the InverseLerp range is not degenerate, and the flock starts with 5 boids. |
| Settings.UpdateModeHasThreeValues | Assets/Boids/Scripts/BoidSettings.cs:13 | UpdateMode has exactly the three callbacks Update, FixedUpdate and LateUpdate, and they are distinct. |
| UnityMath.Magnitude | Assets/Boids/Scripts/Boid.cs:141 | The magnitude is non-negative and squares to the squared magnitude. |
| UnityMath.Normalized | Assets/Boids/Scripts/Boid.cs:111 | `normalized` is a unit vector above the epsilon, and the zero vector at or below it. |
| UnityMath.ClampMagnitude | Assets/Boids/Scripts/Boid.cs:157 | The result is never longer than maxLength. A vector within the bound is returned unchanged. A longer one is shortened to exactly maxLength. |
| UnityMath.Clamp | Assets/Boids/Scripts/Boid.cs:143 | The result lies in [min, max] whenever min <= max. A value already in range is kept. |
| UnityMath.InverseLerp | Assets/Boids/Scripts/Boid.cs:109 | The fraction lies in [0, 1]. It is 0 for a degenerate range or at or below the start, and 1 at or beyond the end. |
| UnityMath.LerpFacts | Assets/Boids/Scripts/Boid.cs:114 | Lerp stays between its end points and reaches them for t <= 0 and t >= 1. |
| Boids.FanAngles | Assets/Boids/Scripts/Boid.cs:38-48 | The 11 cached ray angles are 0, -21, 21, -42, 42, -63, 63, -84, 84, -105, 105 degrees. |
| Boids.FanAngleBounds | Assets/Boids/Scripts/Boid.cs:40-46 | Every ray angle is a multiple of 21 degrees in [-105, 105]. Odd indices are negative and even indices non-negative. |
| Boids.FanAnglesDistinct | Assets/Boids/Scripts/Boid.cs:38-48 | No two rays of the fan share an angle. |
| Boids.FanRayIsUnit | Assets/Boids/Scripts/Boid.cs:47-48 | Every fan ray is a unit vector with z = 0. |
| Boids.FanIsSymmetric | Assets/Boids/Scripts/Boid.cs:43-47 | Ray 0 points straight ahead. Rays 2k-1 and 2k are mirror images across that axis. |
| Boids.Boid.ObstacleRays | Assets/Boids/Scripts/Boid.cs:32-53 | The fan is built on first access only. Afterwards the cached array is returned; it has 11 entries, entry i being the fan ray i. |
| Boids.MakeRay | Assets/Boids/Scripts/Boid.cs:186 | A Ray2D drops z from its origin and direction. A direction longer than the epsilon becomes a unit vector. |
| Boids.FirstClear | Assets/Boids/Scripts/Boid.cs:189-198 | The result is the least index at or after k whose cast is clear: every ray before it is blocked, and the ray at it is clear unless the rays are exhausted. |
| Boids.FirstClearIsLeast | Assets/Boids/Scripts/Boid.cs:189-198 | If all rays before i are blocked and ray i is clear or past the end, the search from 0 stops exactly at i. |
| Boids.HeadingForCollision | Assets/Boids/Scripts/Boid.cs:169-178 | The boid is heading for a collision exactly when the circle cast from its position along its direction hits a collider. |
| Boids.ObstacleDirection | Assets/Boids/Scripts/Boid.cs:181-201 | The result is the current direction or the direction of a fan ray whose cast is clear. |
| Boids.ObstacleDirectionChoice | Assets/Boids/Scripts/Boid.cs:181-201 | The obstacle direction is the direction of the lowest-index clear ray. It falls back to the current direction only when every ray is blocked. |
| Boids.Boid.GetObstacleDirection | Assets/Boids/Scripts/Boid.cs:181-201 | Returns the obstacle direction computed from the boid's transform and current direction, and leaves the fan cache valid. |
| Boids.Boid.TransformRays | Assets/Boids/Scripts/Boid.cs:183-187 | Fills a fresh array with every fan ray taken to world space from the transform's position. |
| Boids.Boid.FirstClearDirection | Assets/Boids/Scripts/Boid.cs:189-200 | The cast loop returns the first clear ray's direction, or the current direction when every cast hits. |
| Boids.SteerTowards | Assets/Boids/Scripts/Boid.cs:154-158 | A steering force is never longer than maxSteerForce. A correction (full speed towards the vector, minus the velocity) within that bound is returned whole. |
| Boids.SteerTowardsZero | Assets/Boids/Scripts/Boid.cs:154-158 | Steering towards a null vector gives the capped reversal of the current velocity, which is a braking force. |
| Boids.TargetGainBounds | Assets/Boids/Scripts/Boid.cs:109-114 | The target gain lies between 3 and targetWeight. It is exactly 3 at or inside the near end of SqrDistanceRange and exactly targetWeight at or beyond the far end. |
| Boids.TargetGainAtZero | Assets/Boids/Scripts/Boid.cs:105-114 | For the zero offset, with a range that starts at or above zero, the gain is 3. |
| Boids.TargetDeadzoneBrakes | Assets/Boids/Scripts/Boid.cs:104-114 | Inside targetRadius the offset becomes zero, yet the target force is 3 times the capped reversal of the velocity: the boid brakes near its target. |
| Boids.AccumulatedIsGatedSum | Assets/Boids/Scripts/Boid.cs:99-138 | The staged `acceleration +=` sequence equals the sum of the target, flocking and obstacle parts, each part zero when its condition fails. |
| Boids.AccelerationIsGatedSum | Assets/Boids/Scripts/Boid.cs:99-138 | The acceleration is the sum of three parts. The target force needs a target. The flocking forces need a non-zero count and use the centre divided by that count. The obstacle force needs `useObstacles` and a hit ahead. |
| Boids.Boid.SteeringAcceleration | Assets/Boids/Scripts/Boid.cs:99-138 | The accumulated acceleration equals the gated sum for the boid's state and surroundings. `centreOfFlockmates` is divided by the count when the count is non-zero. |
| Boids.SpeedIsClamped | Assets/Boids/Scripts/Boid.cs:140-145 | For a non-zero velocity: the new direction is a unit vector and the new speed lies in [minSpeed, maxSpeed]. When maxSpeed is positive the new speed is positive and the velocity keeps its direction. A speed already in the band is untouched. |
| Boids.SteppedInBand | Assets/Boids/Scripts/Boid.cs:140-151 | After an integration step from a non-zero velocity, the direction is a unit vector and the speed is within the band. When maxSpeed is positive the speed is positive and the velocity points along the new direction. |
| Boids.Boid.Integrate | Assets/Boids/Scripts/Boid.cs:140-151 | Velocity, direction and position after integrating over dt and clamping the speed. The transform moves by dt times the new velocity, and the boid's position follows it. |
| Boids.Boid.Advance | Assets/Boids/Scripts/Boid.cs:99-151 | A live boid's whole step: it integrates the gated-sum acceleration of its pre-step state, and the centre is divided by the count. |
| Boids.Boid.UpdateBoid | Assets/Boids/Scripts/Boid.cs:91-152 | A boid whose transform is destroyed changes nothing and asks its flock to remove it. Otherwise it takes the Advance step; heading, avoidance, count, settings and target are kept. |
| Boids.StartSpeedInBand | Assets/Boids/Scripts/Boid.cs:87-88 | The start velocity, half-way between the speed limits along a unit up vector, lies within the speed band. |
| Boids.Boid.constructor | Assets/Boids/Scripts/Boid.cs:57-60 | Awake caches the transform. The kinematic and aggregate fields start at zero, target, owner and ray cache at null, and the settings at the defaults (the game leaves them unset until Init). |
| Boids.Boid.Init | Assets/Boids/Scripts/Boid.cs:78-89 | Joins the flock with the given settings and target, and takes its pose from the transform. The velocity is the mid-band speed along up. The aggregates and the ray cache are kept. |
| Boids.Boid.Remove | Assets/Boids/Scripts/Boid.cs:61-65 | A removal request goes to the flock exactly when the boid has one. |
| Boids.Boid.SetSettings | Assets/Boids/Scripts/Boid.cs:67-70 | The boid takes the new settings, and nothing else changes. |
| Boids.Boid.SetSettingsForced | Assets/Boids/Scripts/Boid.cs:71-76 | Both values of `force` end with the new settings. |
| Boids.Boid.ChangeTarget | Assets/Boids/Scripts/Boid.cs:160-163 | The boid takes the new target, and nothing else changes. |
| Flocks.Row | Assets/Boids/Scripts/Flock.cs:104-123 | A row keeps the observer's position and direction. |
| Flocks.Processed | Assets/Boids/Scripts/Flock.cs:100-125 | ProcessData keeps the array's length and every row's position and direction. |
| Flocks.ProcessData | Assets/Boids/Scripts/Flock.cs:100-125 | The in-place double loop leaves exactly the processed rows, computed against the positions of the input. |
| Flocks.ProcessRow | Assets/Boids/Scripts/Flock.cs:104-123 | The inner loop turns row i into its fully visited row and leaves every other row unchanged. |
| Flocks.Visit | Assets/Boids/Scripts/Flock.cs:106-121 | One visit keeps the observer's position and direction, and adds 1 to its count exactly when the other boid is not itself and lies within the perception radius. |
| Flocks.VisitSteps | Assets/Boids/Scripts/Flock.cs:106-121 | One visit of another boid has three outcomes: ignored beyond perception, counted within it, and counted and repelled within the avoidance radius. |
| Flocks.RowStep | Assets/Boids/Scripts/Flock.cs:106-121 | One visit, field by field. A flockmate adds 1 to the count, its direction to the heading and the observer's position to the centre. An avoided boid subtracts offset / sqrDist. |
| Flocks.RowIsAggregate | Assets/Boids/Scripts/Flock.cs:100-125 | A processed row is its start plus the reference aggregates: the flockmate count, the sum of their directions, n times the observer's own position, and minus the sum of the repulsions. |
| Flocks.RowCount | Assets/Boids/Scripts/Flock.cs:113 | The count field equals its start plus the number of flockmates, by induction over the inner loop. |
| Flocks.RowHeading | Assets/Boids/Scripts/Flock.cs:114 | The heading field equals its start plus the sum of the flockmates' directions. |
| Flocks.RowCentre | Assets/Boids/Scripts/Flock.cs:115 | The centre field equals its start plus n copies of the observer's own position. |
| Flocks.RowAvoidance | Assets/Boids/Scripts/Flock.cs:117-120 | The avoidance field equals its start minus the sum of offset / sqrDist over the avoided boids. |
| Flocks.ProcessedSnapshot | Assets/Boids/Scripts/Flock.cs:76-125 | On a snapshot row (zero aggregates) ProcessData leaves the reference aggregates. The count lies between 0 and n - 1, so a boid never counts itself. |
| Flocks.NeighbourCountBound | Assets/Boids/Scripts/Flock.cs:106-113 | Among boids 0 .. j-1 at most j are flockmates, one fewer once the observer is among them. |
| Flocks.CountsSymmetric | Assets/Boids/Scripts/Flock.cs:106-111 | Boid i counts boid j as a flockmate exactly when j counts i. |
| Flocks.AvoidsSymmetric | Assets/Boids/Scripts/Flock.cs:108-117 | Avoidance is symmetric. |
| Flocks.AvoidanceWithinPerception | Assets/Boids/Scripts/Flock.cs:111-117 | With avoidanceRadius <= perceptionRadius, nesting the avoidance test inside the perception test loses no boid inside the avoidance radius. |
| Flocks.CentreIsOwnPosition | Assets/Boids/Scripts/Flock.cs:115 | With flockmates, the centre divided by the count is the boid's own position, so the offset to the centre is zero. |
| Flocks.CentreOfRow | Assets/Boids/Scripts/Flock.cs:113-115 | The centre a boid ends the tick with is its snapshot position when it has flockmates and zero otherwise. |
| Flocks.CentresOfRows | Assets/Boids/Scripts/Flock.cs:100-125 | CentreOfRow holds for every row of a processed snapshot. |
| Flocks.AppliedIsAbsorbed | Assets/Boids/Scripts/Flock.cs:88-96 | A boid that has taken its row holds the row's count, heading and avoidance. A live boid's centre is its snapshot position or zero; a destroyed boid keeps the undivided centre sum. |
| Flocks.Snapshots | Assets/Boids/Scripts/Flock.cs:226-235 | Row i of the snapshot is a BoidData holding boid i's position and direction, with the four aggregate fields at their zero defaults, as `new BoidData()` leaves them. The list and the snapshot have the same length. |
| Flocks.Flock.TakeSnapshot | Assets/Boids/Scripts/Flock.cs:76-83 | The snapshot loop fills a fresh array with exactly the snapshot of the list. |
| Flocks.Flock.Aggregate | Assets/Boids/Scripts/Flock.cs:76-85 | Snapshot then ProcessData gives a fresh array holding the processed snapshot. It writes only that array, so the boids' poses and whether they are Untangled are as before. |
| Flocks.TickInBand | Assets/Boids/Scripts/Boid.cs:140-151 | A boid that has Ticked from a non-zero integrated velocity, with valid settings, heads along a unit vector at a speed within [minSpeed, maxSpeed]. |
| Flocks.TickedInBand | Assets/Boids/Scripts/Flock.cs:88-96 | After the apply loop, every boid that has Ticked is in its speed band (under lawful maths, valid settings and a non-zero integrated velocity). |
| Flocks.Flock.ApplyAndUpdate | Assets/Boids/Scripts/Flock.cs:90-95 | Every boid takes its row; a live boid divides the centre by the count, a destroyed one leaves it. A live boid has also Ticked: the velocity integrated from its pose before the call is clamped into its new velocity and direction, and its transform has moved by dt times the new velocity. A destroyed boid keeps its position, direction and velocity, and asks to be removed when it has an owner. Settings, target, transform and owner are kept, and every other boid is unchanged. |
| Flocks.Flock.ApplyOne | Assets/Boids/Scripts/Flock.cs:88-96 | Pass i of the apply loop over boid i. The removal a destroyed boid asks for is refused, so the list and the counter are unchanged. Every boid keeps its settings, target, transform and owner, and every destroyed boid keeps its position, direction and velocity. Progress advances from i to i + 1: boid i has taken row i and, for Untangled boids, if live it has Ticked from its pose in the captured poses, while the live boids after it still stand at theirs. |
| Flocks.Flock.ApplyAll | Assets/Boids/Scripts/Flock.cs:87-96 | The apply loop leaves the list and the counter unchanged and keeps every boid's settings, target, transform and owner, and every destroyed boid's position, direction and velocity. Progress holds for the whole list: for distinct boids every boid i holds row i, and when the boids are also Untangled (no two live boids share a transform, and no boid's target is a live boid's transform) every live boid i has Ticked with row i from its pose before the loop. |
| Flocks.Flock.Run | Assets/Boids/Scripts/Flock.cs:76-96 | Snapshot, ProcessData and the apply loop, stated against the boids' state when they begin. The list and counter are unchanged and every boid keeps its ties; a destroyed boid also keeps its position, direction and velocity. For distinct boids each boid holds the ProcessData row of the snapshot, a live one with its snapshot position (or zero) as centre. For Untangled boids each boid that was live has Ticked with its row from the pose it had then, and so, under lawful maths and valid settings, heads along a unit vector at a speed within [minSpeed, maxSpeed]. |
| Flocks.Flock.Simulate | Assets/Boids/Scripts/Flock.cs:71-97 | Does nothing without a list or while stopped: the boids and their transforms are unchanged. Otherwise the list, the counter, the flock's settings and target, and every boid's settings, target, transform and owner are kept: a destroyed boid's removal is refused, it stays listed, and its position, direction and velocity are kept, so its last position is what later snapshots read. For distinct boids each boid holds its processed row. For Untangled boids (destroyed ones included) each boid that was live has also taken UpdateBoid's step from the pose it had before the tick and moved its transform, and with lawful maths, valid settings and a non-zero integrated velocity its speed lies in [minSpeed, maxSpeed] along a unit direction. |
| Flocks.Flock.constructor | Assets/Boids/Scripts/Flock.cs:7-17 | The component starts with its settings and target, no list, a zero count and not simulating. |
| Flocks.Flock.Begin | Assets/Boids/Scripts/Flock.cs:19-45 | Falls back to the tagged target. Spawns startingBoidCount fresh, distinct boids around the spawn point (the origin if none), each initialised for this flock with a fresh transform of its own, so the new list is Untangled and the first Simulate states every boid's step. Sets the count and starts simulating. |
| Flocks.Flock.AddBoid | Assets/Boids/Scripts/Flock.cs:137-154 | Refuses a boid that is null under Unity's `==` (a null reference or a destroyed boid) and a flock without a list, changing nothing. Otherwise it runs Init for this flock and appends the boid, which counts when asked. The boid's pose comes from its transform, its velocity is the mid-band speed along up, and its four aggregates are kept. |
| Flocks.RemoveFirst | Assets/Boids/Scripts/Flock.cs:187 | List.Remove never lengthens the list. |
| Flocks.RemoveFirstCounts | Assets/Boids/Scripts/Flock.cs:187 | List.Remove takes exactly one copy of a present boid and leaves the list alone otherwise. |
| Flocks.RemoveFirstAppend | Assets/Boids/Scripts/Flock.cs:187 | Removing a boid absent from the front of a list only touches the back. |
| Flocks.Flock.Remove | Assets/Boids/Scripts/Flock.cs:182-190 | Refuses a boid that is null under Unity's `==` (a null reference or a destroyed boid) and a missing list, leaving the list as it was. Otherwise it drops the first occurrence and reports success, even when the boid was not listed. |
| Flocks.Flock.RemoveBoid | Assets/Boids/Scripts/Flock.cs:162-175 | Remove, then the counter drops by one exactly when Remove succeeded and counting was asked for. A destroyed boid is refused: the list and the counter stay as they were. |
| Flocks.Flock.CompleteRemove | Assets/Boids/Scripts/Flock.cs:192-196 | Remove, with the same refusals; the counter is untouched. |
| Flocks.Flock.StopSimulation | Assets/Boids/Scripts/Flock.cs:199-202 | The flock stops simulating. |
| Flocks.Flock.ResumeSimulation | Assets/Boids/Scripts/Flock.cs:203-206 | The flock simulates again. |
| Flocks.Flock.ChangeSettings | Assets/Boids/Scripts/Flock.cs:127-134 | The flock takes the new settings in every case. With a list, every boid in it takes them too, and the boids' poses, velocities, aggregates, targets, owners, transforms and ray caches are kept. Without a list (before Begin) the loop throws after the flock's own settings have changed. |
| Flocks.Flock.RemoveAll | Assets/Boids/Scripts/Flock.cs:216-222 | The loop as written leaves RemoveAllFrom(list, 0, destroyed boids): destroyed boids are refused and stay, the others are removed while the index runs on over the shrinking list. Without a list it throws and nothing changes. |
| Flocks.RemoveAllFromStep | Assets/Boids/Scripts/Flock.cs:216-222 | After step i on distinct live boids, the list holds the odd-indexed boids of the first 2i, followed by the untouched rest. |
| Flocks.RemoveAllKeepsOddIndexed | Assets/Boids/Scripts/Flock.cs:216-222 | On distinct live boids, RemoveAll keeps exactly the boids at odd indices. |
| Flocks.RemoveAllOfTwo | Assets/Boids/Scripts/Flock.cs:216-222 | On two distinct live boids [a, b], RemoveAll leaves [b]. |
| Flocks.Flock.RemoveAllFromEnd | Assets/Boids/Scripts/Flock.cs:216-222 | Removing from the back with the intended removal (RemoveListed) empties the list, whatever it holds, destroyed boids included; the counter is untouched. Without a list it throws, as RemoveAll does. |
| Flocks.Flock.RemoveListed | Assets/Boids/Scripts/Flock.cs:162-175 | RemoveBoid as intended: any listed reference leaves, destroyed or not. A boid of a distinct list is no longer listed afterwards, and the counter drops when asked. |
| Flocks.Destroyed | Assets/Boids/Scripts/Flock.cs:184 | The boids of a list that Remove refuses: exactly those that are null under Unity's `==`. |
| Flocks.DistinctOnce | Assets/Boids/Scripts/Flock.cs:187 | A boid of a distinct list occurs in it exactly once, so List.Remove takes it out entirely. |

## Left out

- Floating point: the model computes over exact reals. Rounding, infinities and NaN are not modelled. Where the game would divide by zero, the model either requires that it cannot happen or leaves the result unspecified.
- Boids.Boid.Integrate: the direction after integrating a zero velocity is unspecified (the game divides by a zero speed). Only the clamped speed along that direction is stated.
- Flocks.ProcessData: requires that two distinct boids within the avoidance radius do not share a position (`WellSeparated`), because the repulsion divides by their squared distance. Its `count` argument is unused, as in the source.
- Flocks.Flock.Simulate: the per-boid ensures (each boid holds its processed row) is stated only for distinct boids. When a boid is listed twice, the later row overwrites the earlier one, and the model does not state the result.
- Flocks.Flock.Simulate: the UpdateBoid step (Ticked) is stated only for Untangled boids. When two live boids share a transform, or a boid's target is a live boid's transform, one boid's move changes what a later boid reads, and the model does not state the resulting chain. Destroyed boids do not break Untangled: they move nothing, and the step is stated for every boid that was live.
- Flocks.Flock.Simulate: a destroyed boid's removal request goes to its owner in the game (Boid.cs lines 63-64) and to the simulating flock in the model. Both refuse it (Flock.cs line 184), so no list or counter changes either way.
- `Quaternion.LookRotation`: the transform's rotation is not modelled, so the boid's `direction` field is the only record of its heading.
- `Physics2D.CircleCast` and the obstacle layer mask are the function parameter `cast`. The model says nothing about how colliders are hit.
- `Time.deltaTime` is the parameter `dt`, and `Random.Range` jitter in Begin is the sequence `jitter`.
- Flocks.Flock.Begin: `GameObject.FindGameObjectWithTag` is the parameter `tagged`. The game dereferences its result and throws when no transform has the tag, hence the precondition that a target or a tagged transform exists.
- Flocks.Flock.Begin: `Instantiate`, the prefab, `boidContainer` and the destruction of its previous children are not modelled. A spawned boid gets a fresh transform with the prefab's up vector and `TransformVector`.
- Object destruction (`Destroy(boid)`, `Destroy(boid.gameObject)`) and `SetParent` are not modelled. Remove and CompleteRemove therefore have the same effect on the list; CompleteRemove discards Remove's result and destroys nothing further here. Neither touches the counter.
- Flocks.UnityNull: a boid counts as destroyed when its cached transform is null, which happens when its game object is destroyed. A Boid component destroyed on its own (by `Destroy(boid)` in Remove) while its game object lives is not tracked, so the model would not refuse it in a later AddBoid or Remove.
- `Show` (`SetActive` on each game object) is not modelled: it changes only rendering state.
- The `Update` / `FixedUpdate` / `LateUpdate` callbacks that pick which one calls Simulate are not modelled. `UpdateMode` is kept as a settings value.
- BoidSettings is an asset shared by reference in the game. Here it is a value copied into the flock and each boid, so changing the asset without ChangeSettings is not modelled.
- Before Init a boid's settings are unset in the game. The model starts them at the defaults.
- Boids.Boid.Remove: a boid cannot name the Flock class (its module comes first). It holds its owner as an object reference and reports a removal request. Flock answers that request with RemoveBoid at the same point of the apply loop, which refuses the destroyed boid.
- `Debug.Log`, `Debug.LogError` and `Debug.DrawRay` are left out (diagnostics only).

## Findings

| source | as written | input that shows it | evidently intended | confidence | as-written member | corrected member |
|---|---|---|---|---|---|---|
| Assets/Boids/Scripts/Boid.cs:93-96 | UpdateBoid of a boid whose game object was destroyed calls flock.RemoveBoid(this), but Remove tests `boid == null` with Unity's overloaded `==`, which holds for that destroyed boid, so the request is refused | a listed boid whose game object is destroyed between two ticks: RemoveBoid returns false, the boid stays in the list and the counter, and its last position enters every neighbour's ProcessData row on every later tick | a destroyed boid leaves the flock and is uncounted | not executed | Flocks.Flock.RemoveBoid | Flocks.Flock.RemoveListed |
| Assets/Boids/Scripts/Flock.cs:216-222 | RemoveAll calls CompleteRemove(boids[i]) while i counts up and each call shortens the list, so every other boid is skipped | two distinct boids [a, b]: the first pass removes a, then i = 1 is past the end, leaving [b] | remove every boid, leaving an empty list | not executed | Flocks.RemoveAllOfTwo | Flocks.Flock.RemoveAllFromEnd |

The tick (`Simulate`) keeps the code as written, so a destroyed boid stays listed there. The corrected removal `RemoveListed` is the one the corrected `RemoveAllFromEnd` uses.
