# Chickie game scene state, in Dafny

This project models the discrete game state kept by `createScene` in
`src/scene.js`, a three.js game. In the game, a chicken walks over a grid of
square terrain plots that load on demand. It plants bombs, shoots enemies and
picks up ammo.

`ChickieGame.Scene` is one class whose fields are the closure variables of
`createScene`:

- the plot registry (`plots`, `plotsInProgress`, `lastCheckTime`);
- the player and its target;
- the game-over latch;
- score and ammo;
- the bomb, enemy, bullet and powerup arrays.

Each function that changes these variables is a method. So is each load or
timer callback that the browser would run later: a plot model arriving, a
plot finishing its rise, a bomb fuse, a powerup timeout, and an enemy or
player model arriving. The pending callbacks are explicit fields (`loading`,
`rising`, `fuses`, `powerupTimers`, `pendingSpawns` and the three
`...Loading` flags). The invariant `Valid` relates them to the visible state.

The pure parts live in their own modules:

- `PlotKeys`: the `"x,z"` key string.
- `Terrain`: tiles, the floor-division tile lookup and the edge test of
  `checkAndAddPlots`.
- `Geometry`: vectors, squared distances, `normalize` and JavaScript's
  truncating `%`.
- `Sweeps`: the array idioms `forEach` with `splice`, `splice(i, 1)` and
  `filter`.
- `Combat`: bombs, bullets, powerups and enemies, as functions on arrays.

Modelling conventions:

- Positions are `real`s.
- Each `distanceTo` test compares squared 3D distances, with each object at
  the height the scene gives it. These are the blast (1.5), the bullet hit
  (0.5), the enemy contact (0.8) and the powerup pickup (0.8).
- The arrival test (0.1) and the step directions of the player, the enemies
  and the bullets use the horizontal length. The code sets `direction.y` to
  zero before it measures or normalizes.
- Lengths that the code gets from a square root are parameters. `IsLength`
  pins each one to its vector.
- Random draws are parameters: the plot type, and the angle and distance of
  spawns.
- The clock `Date.now()` is a parameter `now`.
- The click handler receives the raycast results already resolved.

Several quirks of the code are kept faithfully, with lemmas that exhibit
them:

- **Truncating remainder.** JavaScript `%` truncates toward zero, so a
  player at a negative coordinate always requests the −1 neighbour and
  never the +1 neighbour (`EdgeRequestsNegative`, `NegativeEdgeExample`).
- **`forEach` with `splice`.** A removal makes `forEach` skip the next
  element. Two enemies standing together on a bomb: one survives
  (`BlastSparesNeighbour`, `SweepSkipsNeighbour`).
- **Repeated splice.** Every hit runs `bullets.splice(i, 1)` again, so a
  bullet that kills k enemies is spliced k times. That drops the k − 1
  bullets after it, even when it has not expired. An expired bullet that
  kills is spliced once more. A splice at i does nothing once no bullet
  sits at or after index i (`RemoveAt`, `DoubleSpliceDropsLiveBullet`).
- **`collectEgg` throws.** It assigns to the undeclared `movesLeft`, which
  throws after the bomb has been removed and the score raised
  (`CollectEgg`).

## Model

| member | source | states |
|---|---|---|
| PlotKeys.PlotKey | src/scene.js:719-721 | the key's single comma sits right after the rendering of x, and the key starts with `-` exactly when x < 0 |
| PlotKeys.PlotKeyInjective | src/scene.js:719-721 | two coordinate pairs have the same `"x,z"` key exactly when they are equal |
| PlotKeys.IntToStringInjective | src/scene.js:720 | the decimal rendering of integers in the key template is injective |
| Terrain.KeyInjective | src/scene.js:719-726 | two tiles share a key exactly when they are the same tile, so a tile-keyed map holds the same entries as the string-keyed `plots` |
| Terrain.TileOf | src/scene.js:790-791 | `Math.floor(x / plotSize)` on each axis gives a tile whose square holds the point |
| Terrain.TileOfUnique | src/scene.js:790-791 | no other tile's square holds the point, so the floor-division tile is the only one |
| Terrain.HasPlotByKey | src/scene.js:724-726 | `HasPlot`, the model of `hasPlot`, holds exactly when some stored tile has the string key of tile (x, z) |
| Terrain.KeyedMember | src/scene.js:724-726 | a tile is stored exactly when some stored tile has its string key |
| Terrain.TypeAt | src/scene.js:828-832 | for the tile whose square holds the point, the result is that tile's stored type, or None when it is not stored |
| Terrain.TypeAtReadsOwnTile | src/scene.js:828-832 | a point reads the entry of tile t exactly when it lies in t's square; it then gets t's stored type, or None when t is not loaded |
| Terrain.EdgeRequests | src/scene.js:781-809 | every tile requested from a position is adjacent to the tile under it (differs by one in exactly one axis) |
| Terrain.Edges | src/scene.js:797-808 | each of the four edge tests asks only for an adjacent tile |
| Terrain.EdgeRequestsNonNegative | src/scene.js:794-808 | at a non-negative x, an x neighbour is requested exactly when the offset in the tile is within spawnDistance of that edge; likewise for z and the z neighbours |
| Terrain.EdgeRequestsNegative | src/scene.js:794-808 | at a negative x, the −1 x neighbour is always requested and the +1 never; likewise at a negative z for the z neighbours |
| Terrain.NegativeEdgeExample | src/scene.js:790-802 | at x = −0.5 the player stands in tile −1, yet tile −2 is the one requested |
| Geometry.Within | src/scene.js:850-851 | `distanceTo(...) < r` holds exactly when the squared distance is below r², and then the ground distance is below r too |
| Geometry.RemPlotSize | src/scene.js:794-795 | `x % 4` lies strictly between −4 and 4; it is the in-tile offset for x ≥ 0 and never positive for x < 0 |
| Geometry.Normalize | src/scene.js:1032-1035 | `normalize` leaves the zero vector unchanged; otherwise it divides by the length and gives a unit vector |
| Geometry.StepToward | src/scene.js:700-701 | a step toward the target keeps the height, and does not move when the target is at zero distance |
| Geometry.StepTowardCloses | src/scene.js:698-711 | a step of `speed <= len` ends exactly `len - speed` from the target |
| Sweeps.Sweep | src/scene.js:608-621 | survivors plus removals account for every element, and no more elements are removed than satisfy the hit test |
| Sweeps.ForEachRemoving | src/scene.js:608-621 | the index loop of `forEach` that splices out hits computes exactly `Sweep`: survivors in order, and the number removed |
| Sweeps.SweepRemovesOnlyHits | src/scene.js:608-621 | anything the sweep removes satisfies the hit test |
| Sweeps.SweepKeepsMisses | src/scene.js:608-621 | the sweep never removes a miss and never adds an element |
| Sweeps.SweepSeparated | src/scene.js:608-621 | when no two hits are neighbours, every hit is removed, and none survives |
| Sweeps.SweepSkipsNeighbour | src/scene.js:608-621 | of two neighbouring hits (the first hit in the array), the second survives |
| Sweeps.RemoveAt | src/scene.js:989 | `c` splices at index i keep the prefix before i, then the elements after the removed block in order; the array shrinks by `c`, or by what remains from i |
| Sweeps.Without | src/scene.js:624 | `filter(e => e !== x)` removes every occurrence of x and nothing else (multiset) |
| Sweeps.WithoutRemovesOne | src/scene.js:624 | in a duplicate-free array, filtering out a member shortens it by exactly one |
| Sweeps.SweepKeepsDistinct | src/scene.js:1010-1019 | sweeping a duplicate-free array leaves it duplicate-free |
| Combat.BlastSparesNeighbour | src/scene.js:608-621 | two enemies at the same spot in a blast: one is killed, the other survives |
| Combat.Advance | src/scene.js:976-977 | a bullet's move changes only its position, keeps its height, and along a unit direction covers exactly bulletSpeed on the ground |
| Combat.BulletStep | src/scene.js:975-1002 | one loop pass leaves the bullets below index i untouched, and the enemies it removes are exactly the kills it counts |
| Combat.BulletsFrom | src/scene.js:974-1003 | the whole reverse loop never adds a bullet, and enemies lost equal kills counted |
| Combat.RemoveAtKeepsLive | src/scene.js:989 | splicing at i leaves at i and after it only bullets that were after i, so live ones stay live |
| Combat.BulletStepKeepsLive | src/scene.js:975-1002 | a pass at index k leaves no expired bullet from k on, given none after k: a bullet that hits is spliced out, one that misses stays only while younger than 3000 ms |
| Combat.LiveFrom | src/scene.js:974-1003 | with any enemies, when the bullets from i on are live, no bullet the loop over the indices below i leaves has expired |
| Combat.NoExpiredBulletSurvives | src/scene.js:999-1002 | after updateBullets, whatever the enemies, no remaining bullet satisfies `Expired`, the 3000 ms age test of line 999 |
| Combat.BulletsFromRemovesOnlyHit | src/scene.js:974-1003 | every enemy the loop removes was within 0.5 of some bullet after that bullet moved |
| Combat.BulletsWithoutEnemies | src/scene.js:973-1004 | with no enemies, updateBullets moves every bullet, removes exactly the expired ones in order, and kills nothing |
| Combat.BulletStepWithoutEnemies | src/scene.js:975-1002 | with no enemies, a pass replaces bullet i by its moved self, or removes it once if expired |
| Combat.DoubleSpliceDropsLiveBullet | src/scene.js:985-1002 | an expired bullet that kills is spliced twice, which also removes a live bullet that hit nothing |
| Combat.Chase | src/scene.js:839-845 | an enemy's step keeps its height, and an enemy already on the player's ground spot does not move |
| Combat.ChaseAll | src/scene.js:838-846 | the pass moves every enemy, one result per enemy, each at its own height |
| Combat.CaughtSnoc | src/scene.js:850-853 | `Caught`, the contact test of lines 850-851 over the enemies seen so far: after one more enemy's test, the game is lost exactly when it was already lost or that enemy is within 0.8 |
| Combat.ChaseCloses | src/scene.js:835-846 | an enemy more than one step away keeps its height and ends exactly enemySpeed closer to the player |
| ChickieGame.BombsOkWithout | src/scene.js:622-624 | removing a bomb keeps the inventory capped and duplicate-free with fuses pending, and removes exactly one entry when the bomb was there |
| ChickieGame.Scene.constructor | src/scene.js:12-27 | empty registry, no entities, score and ammo 0, game active, three model loads pending |
| ChickieGame.Scene.OriginLoaded | src/scene.js:197-208 | the origin load stores tile (0, 0) as forest |
| ChickieGame.Scene.ChickieLoaded | src/scene.js:214-225 | the player appears at (2, 0.7, 2) with a powerup at (3, 0.5, 3); the invariant is kept |
| ChickieGame.Scene.FirstEnemyLoaded | src/scene.js:858-871 | the first enemy is appended at (8, 0.7, 8) |
| ChickieGame.Scene.EnemyLoaded | src/scene.js:878-903 | a requested enemy is appended 8 units from the player; one pending spawn fewer |
| ChickieGame.Scene.AddPlot | src/scene.js:729-736 | no change when the tile is loaded or in progress; otherwise it is marked in progress and its load starts with the drawn type; the registry invariant is kept |
| ChickieGame.Scene.PlotLoaded | src/scene.js:737-751 | only the load callback stores a plot; the tile stays in progress while it rises |
| ChickieGame.Scene.RiseFinished | src/scene.js:765-770 | the in-progress mark is cleared only when the rise ends, and the plot is then loaded |
| ChickieGame.Scene.CheckAndAddPlots | src/scene.js:781-810 | no change without a player or within 100 ms of the last check; otherwise `lastCheckTime := now`, and exactly the requested tiles not yet loaded or in progress become in progress with their drawn types |
| ChickieGame.Scene.RequestEdges | src/scene.js:797-809 | the four edge tests leave the registry as addPlot run on each requested tile |
| ChickieGame.Scene.RequestIfNear | src/scene.js:797-799 | one edge test calls addPlot for its tile exactly when the player is near that edge |
| ChickieGame.Scene.CreateBomb | src/scene.js:583-596 | a new bomb at the player's ground spot, height 0.2, is appended to `eggs` with its fuse pending; the cap of 5 still holds |
| ChickieGame.Scene.UpdateChickiePosition | src/scene.js:684-716 | no change without player, without target or after game over; on arrival (within 0.1) the target is cleared and a bomb is planted only below the cap; otherwise a step toward the target, unless it lands on water, which clears the target and keeps the position |
| ChickieGame.Scene.ExplodeBomb | src/scene.js:599-631 | no change when the bomb has left `eggs`; otherwise the sweep over enemies, +10 and two spawns per kill, and the bomb leaves `eggs` |
| ChickieGame.Scene.DropEgg | src/scene.js:623-624 | the bomb leaves `eggs`, which shrinks by one when it was there |
| ChickieGame.Scene.Blast | src/scene.js:608-621 | enemies become the sweep's survivors; score +10 and two spawns per kill |
| ChickieGame.Scene.FuseExpired | src/scene.js:595 | the bomb's timer callback runs explodeBomb and retires its fuse |
| ChickieGame.Scene.CollectEgg | src/scene.js:524-530 | the bomb leaves `eggs`, score +1, then the ReferenceError is thrown |
| ChickieGame.Scene.GameOver | src/scene.js:651-658 | the game is over and no longer active |
| ChickieGame.Scene.UpdateEnemyPositions | src/scene.js:835-855 | no change without player or after game over; otherwise every enemy takes one step toward the player, and the game is over exactly when some enemy ends within 0.8 |
| ChickieGame.Scene.ShootBulletAt | src/scene.js:1023-1045 | no change without ammo or player; otherwise ammo −1 and one bullet is appended at the player, height 0.5, heading toward the enemy |
| ChickieGame.Scene.UpdateBullets | src/scene.js:973-1004 | bullets and enemies become the result of the reverse loop; +5 and two spawns per kill |
| ChickieGame.Scene.SettleBullets | src/scene.js:987-994 | the loop's lists are stored, and each kill scores and requests two enemies, keeping the invariant |
| ChickieGame.Scene.BulletLoop | src/scene.js:974-1003 | the index loop computes `BulletsFrom`; it does nothing when there are no bullets |
| ChickieGame.Scene.BulletPass | src/scene.js:975-1002 | one pass of the loop body computes `BulletStep` |
| ChickieGame.Scene.CheckPowerupCollection | src/scene.js:1007-1020 | no change without a player; otherwise the sweep over powerups, +5 ammo per pickup; ammo stays non-negative |
| ChickieGame.Scene.SpawnPowerup | src/scene.js:906-942 | with a player, a powerup 2 to 4 units away at height 0.5 is added with its timeout pending; without a player it throws and nothing changes |
| ChickieGame.Scene.PowerupExpired | src/scene.js:937-941 | the powerup leaves the scene if still there |
| ChickieGame.Scene.Click | src/scene.js:246-297 | inactive game: nothing; an enemy hit with ammo shoots; else a bomb older than 1 s is collected; else a ground point on a loaded non-water tile becomes the target when below the bomb cap; otherwise nothing |

The class invariant `Valid` states:

- score and ammo are never negative;
- `gameActive` is always `!isGameOver`;
- a tile is in progress exactly while its load is pending or it is rising,
  and a rising tile is already in `plots`;
- there are at most 5 bombs, each present once, each with its fuse pending;
- each powerup is present once;
- nothing that needs the player exists before the player model arrives.

Every `Scene` method above keeps `Valid`, with these exceptions:

- `AddPlot`, `RequestIfNear` and `RequestEdges` work inside
  `CheckAndAddPlots` and keep only the registry part, `Registry`.
- `BulletLoop` and `BulletPass` are static and touch no state.

Score only increases: each method's
`ensures` adds a non-negative amount (+1, +5 or +10 per kill).

## Left out

- The registry is keyed by `Tile`, not by the `"x,z"` string.
  `Terrain.KeyInjective` (through `PlotKeys.PlotKeyInjective`) shows the two
  keyings hold the same entries.
- `PlotKeys.IntToString` renders an integer in decimal. It does not render
  the exponent notation JavaScript uses for integers of 10^21 and above.
- Rendering, camera, lights, OrbitControls, resize handling, the HTML UI
  (`updateUI`, `showGameOver`), particles, blood effects and the explosion
  mesh with its 300 ms removal are presentation only.
- The y position of the plot rise interpolation and the powerup float and
  spin are also presentation only. A plot's rise is one `RiseFinished` event.
  A powerup stays at height 0.5, so pickup distances ignore its ±0.2 bob.
- `Math.random`, `Math.cos`/`Math.sin`, `Math.atan2` facing angles and
  square roots are not computed. They become parameters constrained by what
  the code guarantees (for example `ox² + oz² = 64` for a spawn).
- Raycasting is not modelled. `Click` receives the resolved enemy index,
  bomb and ground point.
- `loader.load`, `setTimeout`, `setInterval` and `requestAnimationFrame` are
  not modelled as scheduling. Each callback is a method, and the pending
  callbacks are fields. `animate()` is not a member: it calls, in order,
  `UpdateChickiePosition`, `UpdateEnemyPositions`, `UpdateBullets`,
  `CheckPowerupCollection` and `CheckAndAddPlots`, and each has its own
  contract.
- A failed model load is not modelled. Its tile would stay in progress for
  ever.
- Dead code: `createEgg`, `resetEnemyPosition`, `checkGameOver`,
  `shootBullet` and the first declarations of `updateUI`, `showGameOver`
  and `updateChickiePosition`, which the later declarations replace.
- `src/main.js` only wires the DOM and is not part of this model.
- ChickieGame.Scene.UpdateBullets: one `now` serves the whole loop, where
  the code reads `Date.now()` once per bullet.
- ChickieGame.Scene.UpdateBullets: the score and spawn requests of the kills
  are applied after the loop. Nothing inside the loop reads them, so the end
  state is the same.
- ChickieGame.Scene.CheckPowerupCollection: the sweep runs over the list of
  powerups, not over `scene.children`, where other objects sit between
  powerups. This assumes every powerup is immediately followed by the next
  one, so the model may skip a powerup after a pickup where the code would
  not.
- Bullets, bomb fuses and powerup pickups keep running after game over, so
  score and ammo can still change. The model keeps this behaviour.
- `collectEgg` always throws, and `spawnAmmoPowerup` throws before the
  player model has loaded. The model returns these as `Threw` completions.
- Callback timing is not constrained. `FuseExpired` may run at any time
  after planting, not exactly 3000 ms later, and `PowerupExpired` may run
  at any time, not exactly 10 s later.
