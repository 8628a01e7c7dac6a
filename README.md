# Rocket game session, modelled in Dafny

The game is a side-scrolling browser rocket game. The player steers a ship
with the arrow keys against gravity. Obstacles scroll in from the right and
cost a life when they hit the ship. Bonus stars score 100 when collected.
Touching the top of the screen costs a life. The score also grows by 20 for
every obstacle that scrolls off the left edge. The score raises the level.
A level-up speeds the game up, draws a new background field and pauses until
space is pressed. The game ends when no lives are left and is won at a
target score. After that, "r" restarts and Escape or "q" stops the loop.

This project models one frame of the main loop with rendering removed, the
`resetGame` function and the keyboard handlers. It covers two versions of
the game:

- `rocket_game/rocket_game.js`, the full version:
  - six levels;
  - a particle trail behind the ship;
  - a level-up pause;
  - a reset score of 5400.
- `rocket_game.js`, an earlier version:
  - three levels;
  - no trail and no pause;
  - a velocity scale reassigned at the end of every frame;
  - a level forced back to 1 once the game is over or won.

Both versions share the same ship physics, obstacles and bonus stars.

Modules:

- `Kinematics` (kinematics.dfy): the ship as a class updated in place. A
  pure `Step` function specifies one frame of its physics:
  - rotation, thrust, gravity and drag;
  - the speed clamp;
  - integration and the camera;
  - the wall and floor bounces.
- `Entities` (entities.dfy): obstacles, bonus stars, trail particles and
  background stars as records. It holds:
  - their per-frame moves and visibility;
  - the two collision tests;
  - the constructors that draw random sizes and positions;
  - the trail emission loop.
- `FramePasses` (framepasses.dfy): the filter passes over the obstacles,
  stars and particles. Each one is a specification function plus the loop
  method that runs it. The module also holds the in-place rewrite of the
  background-star array and the spawn clock.
- `Keyboard` (keyboard.dfy): the lower-casing used by the key tests.
- `RocketGame` (rocket_game.dfy): the full version's session. It is a
  `Game` class with a `Ship`, `seq` fields for the entities, an `array` for
  the background stars, and fields for score, lives, level, velocity scale,
  timers and flags.
- `EarlyRocketGame` (early_game.dfy): the early version's session in the
  same form.

Inputs stand in for what the frame reads from the host:

- Every `Math.random()` draw is a parameter in [0, 1).
- `Math.cos`/`Math.sin` of the ship's steered angle are parameters in
  [-1, 1], and so are those of each trail particle's jittered angle.
- The viewport is `w` x `h`. The resize handler keeps the canvas at the
  window's size, so `innerWidth`/`innerHeight` and `canvas.width`/`height`
  agree.
- JavaScript numbers are modelled as reals.

Two behaviours of the code are easy to miss:

- A frame can cost more than one life. The ceiling check takes one, and
  each obstacle hit takes another.
- After a wall bounce, `worldX` is rewritten without recomputing the camera.
  So `camX + shipScreenX` is the position before the bounce, not after it.

## Model

| member | source | states |
|---|---|---|
| Kinematics.InitialShip | rocket_game/rocket_game.js:18-31 | a new ship is at rest, not thrusting, centred in the viewport, with half-extents of 35 game-scale units |
| Kinematics.Ship.constructor | rocket_game/rocket_game.js:18-31 | the constructed ship's state is `InitialShip` |
| Kinematics.Clamp | rocket_game/rocket_game.js:67-69 | the clamped speed lies in [-m, m]; it is unchanged inside the range and saturates at the bound it crossed |
| Kinematics.Steer | rocket_game/rocket_game.js:50-52 | left alone turns by -0.1, right alone by +0.1, both or neither leave the angle |
| Kinematics.Accelerate | rocket_game/rocket_game.js:54-69 | after thrust, gravity, drag and the clamp, both velocity components lie within ±15 x velocity scale |
| Kinematics.Camera | rocket_game/rocket_game.js:74-75 | camX >= 0, camX + shipScreenX is the world X, shipScreenX <= w/2, and it is exactly w/2 once the camera has moved |
| Kinematics.BounceWalls | rocket_game/rocket_game.js:77-84 | a bounce never speeds the ship up; inside the walls nothing changes; past a wall world X snaps to camera + (w - halfW) or camera + halfW and vx is reversed at 40% of its size, whichever way it pointed; when both walls fire, vx becomes 0.16 x vx |
| Kinematics.BounceFloor | rocket_game/rocket_game.js:86-89 | afterwards screenY <= h - halfH; above the floor nothing changes; below it screenY snaps to h - halfH and vy is reversed at 30% of its size, whichever way it pointed |
| Kinematics.Step | rocket_game/rocket_game.js:49-90 | one frame keeps the half-extents, sets thrusting to ArrowUp, steers by the keys, bounds both speeds by 15 x scale, keeps screenY <= h - halfH, keeps camX >= 0, and places world X by the unbounced camera as the bounce rules say |
| Kinematics.Ship.Update | rocket_game/rocket_game.js:49-90 | the ship's new state is `Step` of the old one, and both speeds and the floor bound hold |
| Kinematics.Ship.Rotate | rocket_game/rocket_game.js:50-52 | the angle becomes `Steer` of the old angle |
| Kinematics.Ship.ApplyForces | rocket_game/rocket_game.js:54-69 | the velocity becomes `Accelerate` of the old velocity and thrusting equals ArrowUp |
| Kinematics.Ship.Integrate | rocket_game/rocket_game.js:71-75 | the position moves by the velocity and the camera is recomputed from the new world X |
| Kinematics.Ship.BounceOffWalls | rocket_game/rocket_game.js:77-84 | world X and vx become `BounceWalls` of the old ones, tested on the screen X before either bounce |
| Kinematics.Ship.BounceOffFloor | rocket_game/rocket_game.js:86-89 | screenY and vy become `BounceFloor` of the old ones |
| Entities.NewObstacle | rocket_game/rocket_game.js:167-175 | a new obstacle starts at the spawn X with width and height in [80, 160) game-scale units and fits vertically in the viewport |
| Entities.ObstacleSpawnX | rocket_game/rocket_game.js:342-344 | obstacles spawn 50 to 150 beyond the right edge of the viewport |
| Entities.ScrolledNPosition | rocket_game/rocket_game.js:177-181 | after n frames an obstacle has moved left by exactly n x speed, its screen X is world X - camX, and its width is unchanged |
| Entities.LeavesScreen | rocket_game/rocket_game.js:177-181 | after n >= 1 frames an obstacle is still kept exactly while n x speed is less than its right edge's initial distance from the left edge of the screen |
| Entities.ObstacleHitIsOverlap | rocket_game/rocket_game.js:191-198 | the obstacle test holds exactly when some point lies strictly inside both the ship's box and the obstacle |
| Entities.EdgeContactIsNoHit | rocket_game/rocket_game.js:191-198 | a ship whose left edge exactly touches an obstacle's right edge is not hit |
| Entities.ObstacleVisibleMeansOnScreen | rocket_game/rocket_game.js:177-181 | an obstacle is kept exactly when some point of its horizontal span lies right of the screen's left edge |
| Entities.StarScrolledNPosition | rocket_game/rocket_game.js:145-149 | after n frames a star has moved left by exactly n x speed, its screen X is world X - camX, and its speed, size and height are unchanged |
| Entities.StarLeavesScreen | rocket_game/rocket_game.js:145-149 | after n >= 1 frames a star is still kept exactly while n x speed is less than its right edge's initial distance from the screen's left edge, that is while some point of it is on screen |
| Entities.NewStar | rocket_game/rocket_game.js:135-143 | a new star starts at the spawn X with speed in [4.5, 6.5) x velocity scale, size in [4, 8) game-scale units, and a height on screen that fits |
| Entities.StarSpawnX | rocket_game/rocket_game.js:350-352 | stars spawn 100 to 400 beyond the right edge |
| Entities.StarHitIsDistance | rocket_game/rocket_game.js:159-163 | the star test holds exactly when the Euclidean distance to the star's centre is below the ship's half-width |
| Entities.StarHitIsNear | rocket_game/rocket_game.js:159-163 | a collected star's centre is within the half-width on both axes |
| Entities.ParticleLifetime | rocket_game/rocket_game.js:215-219 | after n updates a particle has moved by n times its velocity, its velocity and maximum life are unchanged, its life has fallen by n, and it is alive exactly while n is below its starting life |
| Entities.Emitted | rocket_game/rocket_game.js:328-336 | a trail particle starts at the emission point with each speed component in (-3, 3) and a life in [38, 63), fading from that life |
| Entities.Trail | rocket_game/rocket_game.js:325-337 | the emitted particles number at most one per attempt and all satisfy `Emitted`'s bounds |
| Entities.TrailCount | rocket_game/rocket_game.js:325-337 | exactly one particle is emitted per attempt whose gate draw is at most 0.35 |
| Entities.EmitTrail | rocket_game/rocket_game.js:323-337 | the emission loop makes 3 attempts while thrusting (chance 2.2) and 2 otherwise (1.1), and yields `Trail` of those attempts |
| Entities.Recycled | rocket_game/rocket_game.js:298-307 | a background star keeps its speed and ends at screen X >= -10; it just scrolls by its speed exactly when that leaves it at screen X >= -10, and otherwise it is moved 0 to 100 beyond the right edge at a height inside the viewport |
| Entities.FieldStar | rocket_game/rocket_game.js:396-400 | a freshly drawn background star lies within a viewport width of the field's origin at a height inside the viewport, with speed in [1, 3.5) x velocity scale |
| Entities.StarField | rocket_game/rocket_game.js:239-243 | a fresh field has one star per draw, each within a viewport width beyond the origin at a height inside the viewport, with speed in [1, 3.5) x velocity scale |
| FramePasses.SubsequenceElements | rocket_game/rocket_game.js:357-381 | a subsequence is no longer than its sequence and holds only its elements |
| FramePasses.ObstaclePass | rocket_game/rocket_game.js:357-369 | each obstacle ends up kept, passed or hit, so the three counts sum to the input length, and every kept obstacle is on screen and not touching the ship |
| FramePasses.ObstaclePassKeepsOrder | rocket_game/rocket_game.js:357-369 | the kept obstacles are a subsequence of the scrolled obstacles, in order |
| FramePasses.FilterObstacles | rocket_game/rocket_game.js:357-369 | the filter keeps what `ObstaclePass` keeps, adds 20 per passed obstacle, takes a life per hit, and sets game over once a hit leaves no lives |
| FramePasses.ObstaclePassCounts | rocket_game/rocket_game.js:357-369 | over the scrolled obstacles, `passed` is the number off the screen and `hits` the number on it that overlap the ship; every other one is kept, and only scrolled obstacles are kept |
| FramePasses.StarPass | rocket_game/rocket_game.js:371-381 | each star ends up kept, collected or passed, and every kept star is on screen and not touching the ship |
| FramePasses.StarPassKeepsOrder | rocket_game/rocket_game.js:371-381 | the kept stars are a subsequence of the scrolled stars, in order |
| FramePasses.StarPassCounts | rocket_game/rocket_game.js:371-381 | over the scrolled stars, `passed` is the number off the screen and `collected` the number on it that touch the ship; every other one is kept, and only scrolled stars are kept |
| FramePasses.FilterStars | rocket_game/rocket_game.js:371-381 | the filter keeps what `StarPass` keeps and adds 100 per collected star |
| FramePasses.ParticlePass | rocket_game/rocket_game.js:385-390 | at most the input's number of particles is kept, all with life left |
| FramePasses.ParticlePassIsFilter | rocket_game/rocket_game.js:385-390 | the kept particles are a subsequence of the aged ones and include every aged particle with life left |
| FramePasses.AgeParticles | rocket_game/rocket_game.js:385-390 | the particle loop computes `ParticlePass` |
| FramePasses.RecycledAll | rocket_game/rocket_game.js:298-307 | the whole field keeps its length and each star's speed, and every star ends at screen X >= -10; star by star, one that scrolling leaves at screen X >= -10 just scrolls, and any other is moved 0 to 100 beyond the right edge at a height inside the viewport |
| FramePasses.RecycleField | rocket_game/rocket_game.js:298-307 | the in-place rewrite of the array leaves it equal to `RecycledAll` of its old contents |
| FramePasses.NewField | rocket_game/rocket_game.js:239-243 | a fresh array holding `StarField` |
| FramePasses.SpawnClock | rocket_game/rocket_game.js:340-354 | the clock fires exactly when timer + increment exceeds the threshold, restarts from 0 when it fires, keeps timer + increment when it does not, and then stays within [0, threshold] |
| Keyboard.Lower | rocket_game/rocket_game.js:275-277 | lower-casing leaves no upper-case ASCII letter, maps each upper-case one into 'a'..'z' and leaves every other character as it is |
| Keyboard.LowerIsR | rocket_game/rocket_game.js:275 | a key lower-cases to "r" exactly when it is "r" or "R" |
| Keyboard.LowerIsQ | rocket_game/rocket_game.js:277 | a key lower-cases to "q" exactly when it is "q" or "Q" |
| RocketGame.TargetLevel | rocket_game/rocket_game.js:392 | the earned level is at most 6, at least 1 for a non-negative score, below 6 exactly when the score lies in [1200(l-1), 1200 l), and 6 exactly from 6000 points |
| RocketGame.TargetLevelMonotone | rocket_game/rocket_game.js:392 | a higher score never earns a lower level |
| RocketGame.VelocityScaleAt | rocket_game/rocket_game.js:395 | the scale of levels 1 to 6 lies in [0.41, 0.76] |
| RocketGame.ObstacleThreshold | rocket_game/rocket_game.js:341 | the threshold is at least 16, equals 42 - 3.7 x level up to level 7, and lies in [19.8, 38.3] for levels 1 to 6 |
| RocketGame.ObstacleSpeed | rocket_game/rocket_game.js:356 | at levels 1 to 6 obstacles move between 6.5 and 15 times the velocity scale per frame |
| RocketGame.ShipTrail | rocket_game/rocket_game.js:318-338 | at most 3 particles while thrusting and 2 otherwise, all starting 22 game-scale units behind the ship with a life in [38, 63) |
| RocketGame.Advanced | rocket_game/rocket_game.js:340-381 | after spawning and both passes, the kept, passed and hit obstacles number at most one more than before, likewise the stars; every kept entity is on screen and not touching the ship; each timer stays within [0, threshold] |
| RocketGame.Played | rocket_game/rocket_game.js:310-381 | a gameplay frame never lowers the score, costs at most the obstacle count plus two lives, and leaves both ship velocities within 15 x scale |
| RocketGame.ValidBounds | rocket_game/rocket_game.js:392-395 | in a valid session the level is 1 to 6 and earned by the score, and the scale lies in [0.41, 0.76] |
| RocketGame.OnKey | rocket_game/rocket_game.js:269-280 | a restart is asked for exactly when the game is over or won and the key is "r"/"R"; the over and won flags never change; running only stops, and only once the game is over or won; pause is only lifted, by space; in play any other key changes nothing |
| RocketGame.Game.constructor | rocket_game/rocket_game.js:229-255 | the initial globals followed by `resetGame` give a valid running session at score 5400 with one life and level 1 |
| RocketGame.Game.Reset | rocket_game/rocket_game.js:235-255 | a fresh ship and field (drawn with the scale in force before the reset), empty entity lists, score 5400, one life, level 1, scale 0.41, timers 0, running and not over, won or paused, held keys unchanged, and the session valid |
| RocketGame.Game.ResetCounters | rocket_game/rocket_game.js:245-254 | the counters, scale and flags take their reset values |
| RocketGame.Game.RebuildWorld | rocket_game/rocket_game.js:236-244 | a fresh ship, empty obstacle, star and particle lists, and a fresh field from the origin |
| RocketGame.Game.KeyDown | rocket_game/rocket_game.js:269-280 | the key is recorded as held; a restart gives a fresh initial ship, empty obstacle, star and particle lists, timers 0, a fresh `StarField` from the origin, score 5400, one life, level 1, scale 0.41 and only the running flag set; otherwise the flags follow `OnKey` and nothing else changes; the session stays valid |
| RocketGame.Game.KeyUp | rocket_game/rocket_game.js:281-283 | the key is recorded as released |
| RocketGame.Game.Tick | rocket_game/rocket_game.js:286-404 | see the frame contract below |
| RocketGame.Game.RunFrame | rocket_game/rocket_game.js:298-404 | the running frame keeps the session valid and sets the level to the score's; a level-up pauses and puts a fresh field beyond the right edge; without one the field is recycled; while over, won or paused nothing in play changes and the particles only age; otherwise the score, lives, obstacles, stars, timers and ship change as `Played` says and the particles are `ParticlePass` of the old ones plus the trail |
| RocketGame.Game.FinishFrame | rocket_game/rocket_game.js:385-404 | the particles are `ParticlePass` of the old ones; the level rises to the earned level if that is higher; win is set once the score reaches 9000 |
| RocketGame.Game.LevelUp | rocket_game/rocket_game.js:392-402 | on a level-up the level becomes the earned level, the scale is that level's, the game pauses and a fresh field starts beyond the right edge; otherwise the scale, pause and field are unchanged |
| RocketGame.Game.ScrollThenPlay | rocket_game/rocket_game.js:298-382 | the background field becomes `RecycledAll` of the old one; the gameplay block changes nothing while over, won or paused; otherwise score, lives, obstacles, stars, timers and ship follow the gameplay frame (`Played`) and the trail is appended to the particles |
| RocketGame.Game.Play | rocket_game/rocket_game.js:310-381 | the ship takes one `Step`; the obstacle and star lists are what the passes keep of the old lists plus at most one spawned each; the score grows by 20 per passed obstacle and 100 per collected star; lives fall by the hits plus one for the ceiling; game over exactly when no lives are left; both timers stay within [0, threshold]; the trail is appended to the particles |
| RocketGame.Game.Fly | rocket_game/rocket_game.js:310-338 | the ship takes one `Step`; the ceiling check fires exactly when the ship's top reaches the screen's top and then costs one life; the trail emitted behind the moved ship is appended to the particles |
| RocketGame.Game.Advance | rocket_game/rocket_game.js:340-381 | each spawn clock ticks and appends at most one entity beyond the right edge; the new obstacle and star lists are what the two passes keep of the old lists plus the spawned ones; the score and lives change by those passes' counts and both timers stay within [0, threshold] |
| RocketGame.Game.CheckCeiling | rocket_game/rocket_game.js:312-315 | the check fires exactly when screenY - halfH <= 0, costs one life, and ends the game on the last one |
| RocketGame.Game.LeaveTrail | rocket_game/rocket_game.js:318-338 | the particles emitted 22 game-scale units behind the ship are appended after the old ones |
| RocketGame.Game.RunPasses | rocket_game/rocket_game.js:356-381 | the obstacles and stars become the passes' kept lists; score, lives and game over follow their counts |
| RocketGame.Game.Spawn | rocket_game/rocket_game.js:340-354 | both spawn clocks tick as `ObstacleSpawn` and `StarSpawn` say, each appending at most one entity, and both timers end within [0, threshold] |
| RocketGame.Game.SpawnObstacle | rocket_game/rocket_game.js:340-346 | the obstacle clock is `SpawnClock` with increment 0.82 x scale and the level's threshold; when it fires exactly one new obstacle is appended |
| RocketGame.Game.SpawnStar | rocket_game/rocket_game.js:348-354 | the star clock is `SpawnClock` with increment 1.2 x scale and threshold 75; when it fires exactly one new star is appended |
| RocketGame.FirstFrameAfterReset | rocket_game/rocket_game.js:245-254 | after a reset the next frame ends at level 5 or more and paused, because 5400 points already earn level 5 |
| EarlyRocketGame.TargetLevel | rocket_game.js:336 | the earned level is at most 3, at least 1 for a non-negative score, below 3 exactly when the score lies in [1500(l-1), 1500 l), and 3 exactly from 3000 points |
| EarlyRocketGame.TargetLevelMonotone | rocket_game.js:336 | a higher score never earns a lower level |
| EarlyRocketGame.ObstacleThreshold | rocket_game.js:290 | the threshold is at least 15, equals 35 - 3.5 x level up to level 5, and lies in [24.5, 31.5] for levels 1 to 3 |
| EarlyRocketGame.StraySemicolonSkipsLevels | rocket_game.js:341-346 | as written, every frame ends at scale 0.71, unlike the intended 0.41 at level 1 and 0.55 at level 2 |
| EarlyRocketGame.VelocityScaleFor | rocket_game.js:341-346 | as intended, levels 1, 2 and 3 set 0.41, 0.55 and 0.71, and any other level leaves the scale |
| EarlyRocketGame.ScaleRisesWithLevel | rocket_game.js:341-346 | the intended scales are the game's three and grow strictly with the level |
| EarlyRocketGame.ShipProperty | rocket_game.js:5-131 | a name is undefined exactly when the ship has no such field or method; each numeric field reads as its number, `thrusting` as its boolean, and the point lists and methods as objects |
| EarlyRocketGame.Minus | rocket_game.js:283 | subtracting from `undefined`, a point list or a function gives NaN; a number or a boolean gives a number |
| EarlyRocketGame.MisspeltCheckNeverFires | rocket_game.js:283-286 | `ship.screenx` is undefined, so `screenx - halfH <= 0` compares NaN and never holds |
| EarlyRocketGame.ObstacleSpeed | rocket_game.js:307 | at levels 1 to 3 obstacles move between 7.3 and 10.9 times the velocity scale per frame |
| EarlyRocketGame.VelocityScaleAsWritten | rocket_game.js:341-346 | the three assignments as written leave the scale at 0.71, one of the game's scales |
| EarlyRocketGame.Advanced | rocket_game.js:289-333 | after spawning and both passes, the kept, passed and hit obstacles number at most one more than before, likewise the stars; every kept entity is on screen and not touching the ship; each timer stays within [0, threshold] |
| EarlyRocketGame.Played | rocket_game.js:276-333 | a gameplay frame never lowers the score, costs at most the obstacle count plus two lives, and leaves both ship velocities within 15 x scale |
| EarlyRocketGame.ValidBounds | rocket_game.js:336-377 | in a valid session the level is 1 to 3 and earned by the score, the scale is one of the game's, in [0.41, 0.71], and the level is 1 once the game is over or won |
| EarlyRocketGame.OnKey | rocket_game.js:238-245 | a restart is asked for exactly when the game is over or won and the key is "r"/"R"; running stops exactly when the game is over or won and the key is Escape, "q" or "Q"; in play no key changes a flag |
| EarlyRocketGame.Game.constructor | rocket_game.js:198-222 | the initial globals followed by `resetGame` give a valid running session at score 0 with one life, level 1 and scale 0.41 |
| EarlyRocketGame.Game.Reset | rocket_game.js:205-222 | a fresh ship and field, empty lists, score 0, one life, level 1, timers 0, running and neither over nor won, and the session valid; the velocity scale is left as it was |
| EarlyRocketGame.Game.ResetCounters | rocket_game.js:214-221 | the counters and flags take their reset values |
| EarlyRocketGame.Game.RebuildWorld | rocket_game.js:206-213 | a fresh ship, empty obstacle and star lists, and a fresh field drawn at the current scale |
| EarlyRocketGame.Game.KeyDown | rocket_game.js:238-245 | the key is recorded as held; a restart gives a fresh initial ship, empty obstacle and star lists, timers 0, a fresh `StarField` from the origin, score 0, one life, level 1 and only the running flag set, but keeps the scale; otherwise the flags follow `OnKey` and nothing else changes |
| EarlyRocketGame.Game.KeyUp | rocket_game.js:246-248 | the key is recorded as released |
| EarlyRocketGame.Game.Tick | rocket_game.js:252-384 | see the frame contract below |
| EarlyRocketGame.Game.RunFrame | rocket_game.js:263-377 | the running frame keeps the session valid, recycles the background field and ends at scale 0.71 whatever the level; in play the level is the score's; once over or won nothing in play changes; otherwise score, lives, obstacles, stars, timers and ship follow the gameplay frame |
| EarlyRocketGame.Game.FinishFrame | rocket_game.js:341-377 | the scale statements as written leave it at 0.71 at every level; then the level drops to 1 once the game is over or won |
| EarlyRocketGame.Game.ScrollThenPlay | rocket_game.js:263-340 | the background field becomes `RecycledAll` of the old one; the gameplay block changes nothing once over or won; otherwise the score, lives, timers, ship and level follow the gameplay frame |
| EarlyRocketGame.Game.Gameplay | rocket_game.js:276-339 | the gameplay frame as `Play` states it, after which the level is the one the score earns and win is set exactly from 4200 points |
| EarlyRocketGame.Game.Play | rocket_game.js:276-333 | the ship takes one `Step`; the obstacle and star lists are what the passes keep of the old lists plus at most one spawned each; the score grows by 20 per passed obstacle and 100 per collected star; lives fall by the hits plus one for the ceiling; timers stay within [0, threshold] |
| EarlyRocketGame.Game.Promote | rocket_game.js:336-339 | the level rises to the earned level if that is higher, and win is set once the score reaches 4200 |
| EarlyRocketGame.Game.Fly | rocket_game.js:276-286 | the ship takes one `Step`; only the ceiling check can cost a life |
| EarlyRocketGame.Game.CheckCeiling | rocket_game.js:279-282 | the check fires exactly when screenY - halfH <= 0, costs one life, and ends the game on the last one |
| EarlyRocketGame.Game.CheckMisspelt | rocket_game.js:283-286 | the second check, written with its life loss, never fires, so lives and the game-over flag are unchanged |
| EarlyRocketGame.Game.Advance | rocket_game.js:289-333 | each spawn clock ticks and appends at most one entity beyond the right edge; the new obstacle and star lists are what the two passes keep of the old lists plus the spawned ones; the score and lives change by those passes' counts and both timers stay within [0, threshold] |
| EarlyRocketGame.Game.RunPasses | rocket_game.js:307-333 | the obstacles (at speed (5.5 + 1.8 x level) x scale) and stars become the passes' kept lists; score, lives and game over follow their counts |
| EarlyRocketGame.Game.Spawn | rocket_game.js:289-304 | both spawn clocks tick as `ObstacleSpawn` and `StarSpawn` say, each appending at most one entity, and both timers end within [0, threshold] |
| EarlyRocketGame.Game.SpawnObstacle | rocket_game.js:289-295 | the obstacle clock is `SpawnClock` with increment 0.8 x scale and the level's threshold; when it fires exactly one new obstacle is appended |
| EarlyRocketGame.Game.SpawnStar | rocket_game.js:298-304 | the star clock is `SpawnClock` with increment 1 x scale and threshold 70; when it fires exactly one new star is appended |
| EarlyRocketGame.SettlesAfterGameOver | rocket_game.js:341-377 | one frame after the game is over or won, the level is 1 but the scale is 0.71 |

The frame contract of `RocketGame.Game.Tick`:

- The session invariant `Valid` is kept:
  - 1 <= level <= the score's level;
  - the scale is the level's;
  - both timers are >= 0 and the score is >= 0;
  - lives <= 1;
  - game over exactly when lives <= 0, and won exactly when the score is at least 9000.
- A stopped loop changes nothing.
- The level and the score never fall.
- After a running frame, the level is the score's level.
- A level-up pauses the game and puts every background star at or beyond
  the right edge.
- While over, won or paused:
  - the score, lives, obstacles, stars, timers and ship are unchanged.
- Without a level-up the background field is `RecycledAll` of the old one;
  with one it is a fresh `StarField` beyond the right edge.
- While over, won or paused, the particles only age (`ParticlePass`).
- Otherwise (the ghost `Report` names the frame's counts, tied to the
  state by `Played`):
  - the ship's new state is `Step` of its old one under the held keys;
  - the report's ceiling flag holds exactly when screenY - halfH <= 0;
  - the new obstacle and star lists are what `ObstaclePass` and `StarPass`
    keep of the old lists plus at most one spawned entity each, against the
    moved ship, and the report's tallies are those passes;
  - the score grows by exactly 20 per passed obstacle and 100 per collected
    star;
  - lives fall by exactly the hits, plus one for the ceiling;
  - the new particles are `ParticlePass` of the old ones plus the trail
    emitted behind the moved ship.

`EarlyRocketGame.Game.Tick` has the same shape, with these differences:

- The invariant also requires the level to be back at 1 once the game is
  over or won, and the scale to be 0.41, 0.55 or 0.71.
- Every running frame ends at scale 0.71, as the source's stray semicolon
  makes it (see "## Findings").
- The background field is always recycled; there is no level-up field.
- There are no particles.

## Left out

- Rendering is left out: every `draw` method, `getRotatedPoints`, the HUD
  text, the `LEVELS` palette, particle colour and size, and the pause and
  game-over overlays.
- Host scheduling is left out: canvas creation, `resize`,
  `requestAnimationFrame`, `lastTime` and `dt` (`dt` is computed but never
  used), and the event-listener wiring. The handlers' bodies are modelled.
- `Math.random` is not modelled as a generator. Each draw is a parameter in
  [0, 1).
  - The recycling pass takes one pair of draws per background star. The
    source consumes draws only for the stars it moves back, in order, so
    the two differ only in how draws are labelled.
  - The trail takes three attempts' draws and uses the first two or three.
- Trigonometry is supplied by the caller as parameters:
  - the cosine and sine of the steered angle;
  - those of each particle's jittered backward angle.

  The trail offset `cos(angle + pi) * 22 * GAME_SCALE` is written as
  `-cosA * 13.2`.
- IEEE-754 rounding is not modelled; numbers are reals. `Math.hypot(dx, dy) < halfW`
  is modelled as `dx² + dy² < halfW²` with `halfW > 0`, and
  `Entities.StarHitIsDistance` shows the two agree for any non-negative
  distance.
- `Keyboard.Lower` lower-cases ASCII letters only. No other character's
  `toLowerCase` is a single "r" or "q", so the key tests are unaffected.
- `e.preventDefault()` in the full version's keydown handler has no effect
  on the game state and is left out.
- The JavaScript `keys` object is a `map<string, bool>`. A key never pressed
  reads as not held.
- Entity objects updated in place (`obs.update`, `star.update`,
  `p.update`) are records replaced by their updated value. The lists hold
  distinct objects, so there is no aliasing to lose.
- `RocketGame.Game.Tick`, `EarlyRocketGame.Game.Tick` and the methods under
  them return a ghost `Report` of the frame's counts only to state the
  score and lives formulas. The source keeps no such record.
- Both versions' `loop` returns without asking for another frame once
  Escape or "q" has cleared `gameRunning` (rocket_game/rocket_game.js:287,
  rocket_game.js:253). A later "r" sets `gameRunning` again, but no frame
  is scheduled, so the game stays frozen. `Tick` models one call of `loop`,
  not the scheduling, so the model would go on running frames after such a
  restart.
- EarlyRocketGame.ShipProperty: names the ship inherits from
  `Object.prototype` (such as `toString`) are not modelled; they are read as
  undefined. None is used by the game.

## Findings

| source | as written | input that shows it | evidently intended | confidence | as-written member | corrected member |
|---|---|---|---|---|---|---|
| rocket_game.js:345 | `if (level == 3 );{ VELOCITY_SCALE = .71}`: the stray `;` gives the `if` an empty body, so the block after it runs every frame and the scale is 0.71 at every level | any frame at level 1: the scale ends at 0.71 instead of 0.41 | the block sets 0.71 only at level 3, so levels 1, 2 and 3 run at 0.41, 0.55 and 0.71 | high, not executed | EarlyRocketGame.StraySemicolonSkipsLevels | EarlyRocketGame.VelocityScaleFor |

The early session runs the assignment as written:
`EarlyRocketGame.Game.FinishFrame` computes `VelocityScaleAsWritten`, so every
running frame of `EarlyRocketGame.Game.Tick` ends at 0.71, and
`EarlyRocketGame.SettlesAfterGameOver` shows the 0.71 surviving a frame
after the game is over or won; `EarlyRocketGame.Game.Reset` keeps the scale
as it is, so a restart plays level 1 at 0.71. The intended per-level assignment is `VelocityScaleFor`, with
`ScaleRisesWithLevel` proved about it.
