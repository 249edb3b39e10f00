# Catalyst particle engine in Dafny

This project models the physics core of *Catalyst*, a browser canvas game.
Coloured "chemical" particles fall under gravity, pull on the particles they
overlap, and change type by a small reaction table. The level is won when
every particle has become a catalyst.

The model has four modules, one per source file:

- `Vector2D` (`vector2d.dfy`): 2-D vectors as immutable values. Each in-place
  `scale` and `add` becomes a function that returns the changed copy.
- `GameObjects` (`game_objects.dfy`):
  - particles and the per-type property table of `makeParticle`;
  - the grid packing of `makeParticles`;
  - the overlap test `collidingWith`;
  - the reaction automaton `checkReaction`;
  - `addForce`, `addGravity`, `update`, `setPosition`, `invertX` and `invertY`.
- `GameContainers` (`game_containers.dfy`): the three-wall boxes built by
  `makeContainer`.
- `GameLoop` (`game_loop.dfy`):
  - the particle loop of `game.update`: step, collision sweep, reaction,
    gravity, boundary;
  - `checkSuccess`;
  - the seeding done by `game.reset`.

How the model represents the program:

- Numbers are exact `real`s. The engine only uses `+ − × ÷`.
- The world is a `seq<Particle>`.
- A collision list holds the indices of the partners. The source holds
  object references, but no particle is ever added, removed or reordered
  during a frame, so an index names the same particle.
- The sound hook of `checkReaction` is the `fired` flag of its result.
  `Tick` returns how many times the hook fired.

Where the code and its comments or documentation disagree, the model follows
the code:

- The collision force points TOWARDS the partner, because
  `vectorBetween(a, b)` is `b − a`. The comment says the particles push apart.
- Gravity is applied with `addForce`, not `addGravity`, so it carries no
  density factor (`GameLoop.GravityIgnoresDensity`).
- The boundary adds the force `−v` on the offending axis. It does not reverse
  or damp the velocity.
- Nothing tests particles against container walls.
- The properties a reaction writes differ from the `makeParticle` table in
  three places (`GameObjects.ReactionProfilesDifferFromFactory`).
- The overlap test compares the squared distance with the SUM OF SQUARED
  radii. This is stricter than real circle intersection, not more
  permissive: whatever it reports does intersect
  (`GameObjects.OverlapsIsStricterThanIntersection`), and two touching unit
  discs are not reported (`GameObjects.TouchingDiscsNotReported`).

## Model

| member | source | states |
|---|---|---|
| Vector2D.VectorBetween | js/vector2d.js:75-84 | the result added to `a` gives `b`, and it is the zero vector exactly when the two points coincide |
| Vector2D.Between | js/vector2d.js:55-64 | `between(x1, y1, x2, y2)` is `vectorBetween` of the points `(x1, y1)` and `(x2, y2)` |
| Vector2D.BetweenAntisymmetric | js/vector2d.js:75-84 | swapping the endpoints negates the vector and keeps its squared length |
| Vector2D.MagSqDefinite | js/vector2d.js:109-111 | the squared length is never negative, is 0 for the zero vector and positive for every other vector |
| Vector2D.Scale | js/vector2d.js:95-98 | scaling by 1 changes nothing and scaling by 0 gives the zero vector |
| Vector2D.ScaleCompose | js/vector2d.js:95-98 | scaling by `s` and then by `t` is scaling by `s * t` |
| Vector2D.AddZeroAndCommute | js/vector2d.js:154-157 | adding the zero vector changes nothing, and addition commutes |
| GameObjects.FactoryProfile | js/gameObjects.js:35-61 | every profile of the type switch has positive mass and radius |
| GameObjects.UnknownTypeGetsDemoProfile | js/gameObjects.js:54-60 | a type outside the table is built with the demo properties but keeps its own type string |
| GameObjects.NewParticle | js/gameObjects.js:71-95 | a new particle has the given type and position, zero velocity and acceleration, an empty collision list, the table's properties for its type, and positive mass and radius |
| GameObjects.MakeParticle | js/gameObjects.js:28-69 | exactly one particle is appended, the earlier ones are unchanged, and the appended particle is the one returned |
| GameObjects.GridSlotStep | js/gameObjects.js:118-126 | one loop turn moves the offsets from grid slot `i` to slot `i + 1`: one diameter right, or to `startX + r` and one diameter down when `i` closes a row under JavaScript's `%` |
| GameObjects.MakeParticles | js/gameObjects.js:106-129 | `max(amount, 0)` particles are appended after the unchanged list, and the `k`-th is a fresh particle of the type at grid slot `k`: the first row holds `rowLength + 1` particles and later rows start half a diameter in; a zero row length never wraps |
| GameObjects.OverlapsSymmetric | js/gameObjects.js:143-150 | the overlap test gives the same answer whichever particle asks |
| GameObjects.OverlapsIsStricterThanIntersection | js/gameObjects.js:143-150 | every pair the test reports is at most the sum of the radii apart |
| GameObjects.TouchingDiscsNotReported | js/gameObjects.js:143-150 | for two unit discs with centres two apart, which touch, the test reports no overlap |
| GameObjects.CollidingWith | js/gameObjects.js:140-158 | the result is true exactly when the squared distance is at most the sum of squared radii; on true only the partner is appended to the collision list, on false nothing changes |
| GameObjects.ScanPartners | js/gameObjects.js:172-187 | `shouldReact` is raised exactly when a partner type triggers the particle's own type, and `alternate` exactly when a catalyst2 has an oxygen partner |
| GameObjects.CheckReaction | js/gameObjects.js:169-234 | the hook fires exactly when a partner triggers the particle and exactly when its type changes; otherwise nothing changes; the four table rows give the stated properties, with oxygen taking precedence over demo for catalyst2; position, velocity, acceleration and collision list are kept; mass and radius stay positive |
| GameObjects.ReactionDependsOnTypeSet | js/gameObjects.js:176-187 | the outcome depends only on the set of partner types, not on their order or multiplicity |
| GameObjects.ReactionProfilesDifferFromFactory | js/gameObjects.js:197-228 | the reaction values for catalyst, catalyst2 and demo differ from the construction table, the oxygen ones agree, and all four are positive |
| GameObjects.AddForce | js/gameObjects.js:245-253 | mass times the change in acceleration is the force, and nothing but the acceleration changes |
| GameObjects.AddGravity | js/gameObjects.js:264-272 | mass times the change in acceleration is density times the force, and nothing but the acceleration changes |
| GameObjects.AddForceAccumulates | js/gameObjects.js:245-253 | two forces applied one after the other act as their sum |
| GameObjects.Update | js/gameObjects.js:283-293 | the position moves by half the old velocity, the velocity by the old acceleration, then acceleration and collision list are cleared; nothing else changes |
| GameObjects.UpdateTwice | js/gameObjects.js:283-293 | two steps with no force in between move by one old velocity plus half the old acceleration |
| GameObjects.SetPosition | js/gameObjects.js:304-307 | the position becomes `(x, y)` and nothing else changes |
| GameObjects.InvertX | js/gameObjects.js:332-335 | the x velocity becomes `-(damp · vx)`; nothing else changes |
| GameObjects.InvertY | js/gameObjects.js:318-321 | the y velocity becomes `-(damp · vy)`; nothing else changes |
| GameObjects.InvertTwice | js/gameObjects.js:318-335 | two undamped inversions cancel; two damped ones scale the component by the product of the factors |
| GameContainers.NewContainer | js/gameContainers.js:47-84 | the stored corner and size are the given ones; the walls are the left, right and bottom strips five units thick, flush with the box's sides; `blocks` lists them left, right, bottom; when the box is at least five units in each direction every wall lies inside it |
| GameContainers.SideWallsApart | js/gameContainers.js:63-76 | in a box at least two walls wide the side walls do not overlap and the bottom wall spans from the left one to the right one |
| GameContainers.MakeContainer | js/gameContainers.js:29-35 | exactly one container is appended, the earlier ones are unchanged, and the appended container is the one returned |
| GameLoop.PastRight | js/main.js:75-79 | past the right edge the particle is put on it and gains `−vx` as force on x only; otherwise nothing changes |
| GameLoop.PastLeft | js/main.js:80-84 | past the left edge the particle is put on it and gains `−vx` as force on x only; otherwise nothing changes |
| GameLoop.PastBottom | js/main.js:85-89 | past the bottom edge the particle is put on it and gains `−vy` as force on y only; otherwise nothing changes |
| GameLoop.PastTop | js/main.js:90-94 | past the top edge the particle is put on it and gains `−vy` as force on y only; otherwise nothing changes |
| GameLoop.Horizontal | js/main.js:75-84 | the y axis is untouched; an x inside its range is kept; with radius at most 320 the particle ends inside the x range, having gained `−vx` when it was moved |
| GameLoop.Vertical | js/main.js:85-94 | the x axis is untouched; a y inside its range is kept; with radius at most 240 the particle ends inside the y range, having gained `−vy` when it was moved |
| GameLoop.ConfineAxis | js/main.js:75-94 | on one axis a centre inside its range is kept; when the disc fits between the edges the centre ends in range, on the far edge if it was past it and on the near edge if it was short of it |
| GameLoop.Confine | js/main.js:75-94 | a centre inside the field is kept, and for a radius of at most 240 the clamped centre lies inside the field |
| GameLoop.Clamp | js/main.js:75-94 | velocity and properties are untouched; the centre ends where `Confine` puts it; a particle inside the field is unchanged; with radius at most 240 the particle ends inside the field; an axis inside its range keeps its position and acceleration |
| GameLoop.HorizontalPush | js/main.js:75-84 | for a disc that fits the field's width the horizontal tests amount to moving the centre to its confined x and adding the force `−vx` exactly when x was out of range |
| GameLoop.VerticalPush | js/main.js:85-94 | for a disc that fits the field's height the vertical tests amount to moving the centre to its confined y and adding the force `−vy` exactly when y was out of range |
| GameLoop.ClampPush | js/main.js:75-94 | for radius at most 240 the whole boundary block amounts to moving the centre to where `Confine` puts it and adding one force, `−v` on each axis whose range the centre had left |
| GameLoop.ClampVertical | js/main.js:85-94 | on the y axis the whole boundary block moves the particle onto the edge it crossed and adds the force `−vy` |
| GameLoop.ClampIdempotent | js/main.js:75-94 | a particle the boundary block has placed is not moved by it again |
| GameLoop.Settle | js/main.js:71-94 | gravity then the boundary: the centre ends where `Confine` puts it; a particle inside the field keeps its position and gains exactly the force `g`; with radius at most 240 the particle ends inside the field and its acceleration grows by `g / m` plus the boundary push over `m` |
| GameLoop.GravityIgnoresDensity | js/main.js:71 | two particles that differ only in density end with the same acceleration and position |
| GameLoop.Hits | js/main.js:54-66 | the result lists each index `j ≠ i` whose disc overlaps disc `i` exactly once, lists no other index, and is in descending order |
| GameLoop.CollideConserves | js/main.js:60-63 | a collision adds equal and opposite forces, so the net `m · a` of the world is unchanged |
| GameLoop.Visit | js/main.js:56-64 | one turn of the inner loop changes nothing when `j` is `i` or its disc does not overlap `i`'s; otherwise it appends `j` to `i`'s collision list and leaves both positions alone; either way the net `m · a` of the world is unchanged |
| GameLoop.VisitExtendsSweep | js/main.js:54-66 | one turn of the inner loop extends the sweep's record by index `j` |
| GameLoop.SweepCollisions | js/main.js:54-66 | after the inner loop, particle `i`'s collision list has grown by exactly the overlapping partners; its `m · a` has grown by the sum of the pulls towards them; every partner has been pulled once towards `i`; every other particle is untouched; the net force is conserved |
| GameLoop.Step | js/main.js:51 | particle `i` is replaced by its `update`, every other particle is unchanged, and all keep positive mass and radius |
| GameLoop.EndTurn | js/main.js:68-94 | after the sweep, particle `i` keeps its collision list and stepped velocity; the hook fires exactly when its partners' types trigger a reaction and exactly when its type changes; its type and properties are what `checkReaction` makes of it for those types; its centre ends where `Confine` puts the stepped position; with radius at most 240 it ends inside the field with acceleration pulls / old mass + gravity / new mass + boundary push / new mass, which is pulls / old mass + gravity / new mass when the stepped position fits |
| GameLoop.FinishTurn | js/main.js:68-94 | reaction then gravity and boundary keep the stepped velocity and collision list and give the reaction table's type and properties; the centre ends where `Confine` puts the stepped position; with radius at most 240 the particle ends inside the field with acceleration pulls / old mass + gravity / new mass + boundary push / new mass, and a stepped position that fits the field is kept with no push |
| GameLoop.ParticleTurn | js/main.js:49-94 | one pass of the outer loop: `i`'s collision list is what its sweep found with `i` just stepped; other particles change only in acceleration; `i`'s velocity is its old velocity plus its old acceleration; the hook fires exactly when the partners' types trigger a reaction and exactly when `i`'s type changes; `i` takes the type and properties `checkReaction` gives for those types, so oxygen wins over demo for a catalyst2; `i`'s centre ends where `Confine` puts its stepped position; with radius at most 240 it ends inside the field with acceleration pulls / old mass + gravity / new mass + boundary push / new mass, which is pulls / old mass + gravity / new mass when the stepped position fits |
| GameLoop.TypeChanges | js/main.js:68 | the count of changed types over the first `n` particles is at most `n`, and zero exactly when none changed |
| GameLoop.TickTurn | js/main.js:49-95 | one pass of the outer loop carries the frame's invariant from particles `0..i-1` to `0..i` and adds one to the sound count exactly when particle `i` changed type |
| GameLoop.Tick | js/main.js:49-95 | the frame keeps the number and order of the particles; each collision list is exactly what that particle's own sweep found, with earlier particles where the frame leaves them and later ones not yet stepped; each particle takes the type and properties `checkReaction` gives for the types its partners had at its turn; each particle's centre is where `Confine` puts its stepped position, so one whose stepped position fits the field ends there; the hook fires once per particle that changed type; every particle of radius at most 240 ends inside the field |
| GameLoop.CheckSuccess | js/main.js:103-112 | true exactly when every particle is a catalyst, so an empty world is won |
| GameLoop.Reset | js/main.js:172-184 | the demonstration state keeps the earlier particles and appends fifty demo particles of positive mass and radius: the first eleven one diameter apart from (320, 100), the twelfth and twenty-second starting the next rows at (325, 110) and (325, 120); any other state changes nothing |

## Left out

- Rendering (`game.draw`), images and text. They only read the state.
- The animation timer, `calculateDeltaTime` and the keyboard pause toggle at
  the head of `game.update`. `update`'s `dt` argument is never read.
- `requestAnimationFrame` and the DOM, mouse and initialisation glue.
- `game.playSoundEffect` is not part of this model. It is represented by the
  `fired` flag and the count `Tick` returns.
- `console.log` calls, including the unreachable default branch of
  `checkReaction`'s switch.
- `mag` and `normalize`. They need a square root and the engine never calls
  them.
- The `x`/`y` fields a `Particle` copies from its constructor arguments. They
  are never read after construction.
- `game.GRAVITY` is set during initialisation, which is not part of this
  model. The loop takes gravity as a parameter.
- `game.containers` is never initialised in the source. `MakeContainer`
  takes the list explicitly.
- The `game.update()` call that follows the seeding in `game.reset` is one
  more frame, i.e. `Tick`. `GameLoop.Reset` models only the seeding.
- IEEE-754 rounding, overflow and NaN: numbers are exact reals.
- GameObjects.AddForce: requires a non-zero mass. The source would divide by
  zero there. No particle can reach it with zero mass, since every profile
  has positive mass (`GameObjects.FactoryProfile`, `GameObjects.CheckReaction`).
- GameLoop.Clamp: its own contract states the position in full but the
  force only axis by axis. The whole force is stated by the lemma
  `GameLoop.ClampPush`, for radius at most 240.
- GameLoop.ParticleTurn: says that other particles change only in
  acceleration. It does not repeat which of them were pulled; that is stated
  by `GameLoop.SweepCollisions`.
- GameLoop.ParticleTurn: states the final acceleration only for a radius of
  at most 240, where one push per axis is known to suffice. Every profile
  has radius at most 10, so no particle the engine makes is excluded. The
  position is stated for every radius.
- GameLoop.EndTurn: states the final acceleration only for a radius of at
  most 240, for the same reason.
- GameLoop.FinishTurn: states the final acceleration only for a radius of at
  most 240, for the same reason.
- GameLoop.Settle: states the acceleration only for a radius of at most 240,
  for the same reason.
- GameLoop.Tick: does not state the final velocities. A particle's velocity
  is its old velocity plus the acceleration it has at its turn. That
  acceleration includes the pulls of earlier particles' sweeps, which the
  frame contract does not sum.
- GameLoop.Tick: does not state the final accelerations, so gravity appears in
  no clause of it. Later particles' sweeps still pull a particle after its
  turn, and the frame contract does not sum those pulls. `GameLoop.ParticleTurn`
  states the acceleration each particle has at the end of its own turn.
