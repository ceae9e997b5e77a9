# Lunar Lander game rules in Dafny

This project models the per-frame rules of a small 2D lunar-lander game. The
rendering and the platform layer are left out. A ship hangs under gravity.
Held Left/Right/Up keys fire thrusters that burn one unit of a 5000-unit
fuel tank each, and a fuel gauge shrinks with every unit burned. The ship
lands on a fixed field of 24 stone blocks. Touching block 8 (the goal,
under the landing indicator) shows the "passed" banner. Touching any other
block, or drifting past x = ±5.5, shows the "failed" banner. Either way the
running flag drops and the loop ends (`MainLoop.NextFrameOutcome`, for every
frame reached from initialisation).

Modules, following the program's structure:

- `Entities` (`entity.dfy`): the `Entity` record (movement, position, scale,
  rotation, velocity, acceleration, texture). It also holds `move_left`,
  `move_right`, `move_up` and the getters and setters. Coordinates are
  `Vec3` values with exact `real` components. A texture handle is
  identified by the image file it was loaded from (`Asset`).
- `Terrain` (`terrain.dfy`): the block layout that initialisation writes.
  The floor loop puts twenty blocks at (-4.5 + i, -3.25). Explicit writes
  then replace slots 10 to 19, with slot 15 written twice, and create slots
  20 to 23. The final layout is proved equal to a table.
- `GameState` (`game_state.dfy`): the `World` record. It holds the ship,
  the blocks, the banner text, the landing indicator, the flame, the fuel
  gauge, the fuel counter and the running flag. `Initialise` builds the
  starting world. `GaugeMatchesFuel` is the exact relation between gauge
  width and fuel.
- `Input` (`input.dfy`): `InputStep`, the key/fuel decision table of one
  frame.
- `Outcome` (`outcome.dfy`): `OutcomeStep`, the bounds check and the scan
  over the 24 collision results.
- `MainLoop` (`main_loop.dfy`): `Tick`, one pass of the loop body, and
  `Play`, the loop over a sequence of frames. It also holds the invariants
  that hold across frames.

Inputs of the model are the things the game gets from code that is not
part of this model:

- the held keys and the quit request (`Input.Keys`);
- the ship's position and velocity after `Entity::update` has integrated
  them (`MainLoop.Frame`);
- one `check_collision` result per block (`Outcome.Collisions`, a sequence of exactly 24 booleans);
- the field values of a newly constructed `Entity` (`blank`), because the
  constructor is not part of this model.

In three places the code does something other than what a reader of the
game's rules would expect. The model follows the code each time:

- The first colliding block does not decide the outcome. The block loop
  does not break, so the last colliding block sets the banner's scale. The
  victory texture, once set by block 8, is never reset
  (`Outcome.LaterHitOverridesScale`, `Outcome.EarlierHitDoesNotPreventLanding`).
- With no horizontal thrust the x acceleration is not reset. It stays as
  the last thrust set it; only y (and z) go back to gravity.
- The gauge is not decoupled from the fuel counter. Over exact reals the
  gauge width is always 1.5 - 0.0003 × (5000 - fuel), so it reaches zero
  exactly when the tank does (`MainLoop.FuelNeverNegative`). Only float
  rounding could make the two drift apart.

## Model

| member | source | states |
|---|---|---|
| Entities.Entity.MoveLeft | Entity.h:66 | the x acceleration becomes -0.75; y, z and every other field are kept |
| Entities.Entity.MoveRight | Entity.h:67 | the x acceleration becomes 0.75; y, z and every other field are kept |
| Entities.Entity.MoveUp | Entity.h:68 | the y acceleration becomes 0.5; x, z and every other field are kept |
| Entities.Entity.SetPosition | Entity.h:81 | the position getter returns the new value; all other fields are kept |
| Entities.Entity.SetScale | Entity.h:82 | the scale getter returns the new value; all other fields are kept |
| Entities.Entity.SetMovement | Entity.h:83 | the movement getter returns the new value; all other fields are kept |
| Entities.Entity.SetTexture | Entity.h:84 | the texture getter returns the new value; all other fields are kept |
| Entities.Entity.SetAcceleration | Entity.h:85 | the acceleration getter returns the new value; all other fields are kept |
| Entities.Entity.SetRotate | Entity.h:86 | the rotation getter returns the new value; all other fields are kept |
| Entities.SetterLastWriteWins | Entity.h:73-86 | a second write to a field hides the first; writing back a getter's value changes nothing |
| Entities.MovesAreAccelerationSetters | Entity.h:66-68 | each thrust helper equals setting one acceleration component; left and up thrust commute |
| Terrain.NoBlocks | main.cpp:29 | before initialisation all 24 block slots are empty |
| Terrain.StoneBlock | main.cpp:153-160 | a block is a new entity with the stone texture, unit scale and position (x, y, 0) |
| Terrain.FloorLoop | main.cpp:151-161 | each floor iteration creates a stone block (new entity plus stone texture) in its slot; the loop keeps the 24 slots |
| Terrain.FloorLoopClosedForm | main.cpp:157-161 | iteration k of the floor loop puts a stone block at x = start + k, y = -3.25; slots 20-23 are not touched |
| Terrain.Slots | main.cpp:151-236 | after initialisation every one of the 24 slots holds a block |
| Terrain.Blocks | main.cpp:151-236 | the level has exactly 24 blocks |
| Terrain.LayoutMatchesTable | main.cpp:157-236 | the write sequence, overwrites included, leaves exactly the final layout table |
| Terrain.AllBlocksAreUnitStone | main.cpp:150-236 | every block has unit scale, the stone texture and z = 0 |
| Terrain.FloorBlocksKept | main.cpp:157-161 | blocks 0 to 9 keep their floor position (-4.5 + i, -3.25) |
| Terrain.FloorBlocksOverwritten | main.cpp:163-216 | none of the floor positions of slots 10 to 19 survive; each block there stands higher |
| Terrain.Slot15SecondWriteKept | main.cpp:188-196 | slot 15 ends at (0.5, -2.25); its lost first position (4.5, -2.25) is held by block 20 alone |
| Terrain.Slots10And11Coincide | main.cpp:163-171 | slots 10 and 11 hold the same block at (-2.5, -2.25) |
| Terrain.GoalBlockOnFloor | main.cpp:157-161 | the goal block 8 lies at (3.5, -3.25) |
| GameState.Initialise | main.cpp:140-264 | the game starts running with a full tank, a full gauge, the ship at (-3.75, 3) under gravity and the terrain of the layout; the banner holds the failure picture at (0, 1); the flame is the fire picture at (0, 1), unit scale, unrotated; the indicator is its picture at (3.5, -2.25), unit scale; the frame invariant holds |
| GameState.GaugeEmptyIffTankEmpty | main.cpp:261-264 | while the gauge is in step with the fuel, it is empty exactly when the tank is, and it stays within [0, 1.5] |
| GameState.GoalUnderIndicator | main.cpp:240-243 | the landing indicator hangs one unit straight above the goal block |
| Input.Burn | main.cpp:312-317 | one fuel unit is used, the gauge loses 0.0003 of width, and the gauge relation is kept |
| Input.InputStep | main.cpp:271-380 | the full decision table (see the list after this table) |
| Input.LeftBeatsRight | main.cpp:297-322 | with both horizontal keys held and fuel left, Left fires (x acceleration -0.75, rotations 1.6) as if Right were not held |
| Input.EmptyTankIgnoresThrust | main.cpp:342-373 | at fuel 0 every key is ignored: fuel and gauge unchanged, x acceleration kept, y gravity, flame hidden |
| Input.LastUnitGoesToHorizontalThrust | main.cpp:297-369 | Left+Up at fuel 1 empties the tank through the Left branch; Up then finds it empty, so gravity stays on |
| Input.IdleFrame | main.cpp:342-373 | with no key held nothing is burned, the flame is hidden and only y/z acceleration are reset |
| Outcome.LastHitBelow | main.cpp:396-409 | the largest colliding block index below n, or -1 when none of them collided: that block collided and no later one below n did |
| Outcome.Scan | main.cpp:396-409 | after the first n loop iterations the flag is down iff some block among them collided; the banner scale follows the last one, the victory texture appears iff block 8 is among them |
| Outcome.OutcomeStep | main.cpp:391-409 | running continues iff in bounds and no collision; the scale is (10,2) when block 8 is the last hit, (9,2) for another last hit or a bounds exit, else unchanged; the texture is the victory one iff block 8 was hit; nothing else changes |
| Outcome.StoppedStaysStopped | main.cpp:391-409 | the rule step never raises the running flag and never touches the terrain |
| Outcome.StopsIffBoundsOrCollision | main.cpp:391-409 | a running game stops iff the ship is out of bounds or some block collided |
| Outcome.VictoryIffGoalIsLastHit | main.cpp:398-407 | starting from the failure banner, the full victory banner shows iff block 8 is the last block hit |
| Outcome.GoalAloneWins | main.cpp:399-403 | touching only block 8 stops the game with the victory banner |
| Outcome.LaterHitOverridesScale | main.cpp:396-409 | a block hit after block 8 in loop order shows the victory texture at the failure scale (9,2) |
| Outcome.EarlierHitDoesNotPreventLanding | main.cpp:396-409 | a block hit before block 8, with none after it, still gives the victory banner |
| Outcome.OutOfBoundsLoses | main.cpp:391-394 | leaving the field sideways without a collision shows the failure scale and stops the game |
| MainLoop.Integrate | main.cpp:389 | integration replaces the ship's position and velocity and nothing else |
| MainLoop.Tick | main.cpp:444-445 | one loop pass keeps the frame invariant, burns 0 to 2 fuel units, never raises the flag and never moves the terrain or the indicator; a pass after which the game still runs leaves the banner as it was, so the banner keeps the failure picture while the game runs |
| MainLoop.Play | main.cpp:442-448 | the loop over frames, in order, stopping at the first state whose flag is down; the indicator never moves and fuel never rises (its other properties are the Play lemmas below: StoppedGameIsFrozen, PlayKeepsInvariant, PlayFuelBounds, RunningOnlyLowers, PlayKeepsTerrain, PlayKeepsBannerReady) |
| MainLoop.PlayKeepsInvariant | main.cpp:442-448 | any number of frames keeps fuel in [0, 5000] and the gauge in step with it |
| MainLoop.PlayFuelBounds | main.cpp:442-448 | over n frames the fuel never rises and falls by at most 2n |
| MainLoop.StoppedGameIsFrozen | main.cpp:442 | once the running flag is down, further frames change nothing |
| MainLoop.RunningOnlyLowers | main.cpp:442-448 | a game running after some frames was running after every shorter prefix of them |
| MainLoop.PlayKeepsTerrain | main.cpp:442-448 | play never changes the terrain blocks |
| MainLoop.PlayKeepsBannerReady | main.cpp:396-409 | the banner's picture is replaced only by a landing, which also stops the game; so while the game runs, however many frames were played, it still holds the failure picture that initialisation (main.cpp line 248) loaded |
| MainLoop.ReachedStatesAreBannerReady | main.cpp:246-249 | every state reached from initialisation by any frames has the banner ready: failure picture while running |
| MainLoop.NextFrameOutcome | main.cpp:391-409 | in the next frame of a running game with the banner ready (every reached state, by ReachedStatesAreBannerReady), the victory banner (texture and size) shows iff block 8 is the last block hit; the game stops with the failure picture iff block 8 is not hit and a quit, a bounds exit or some collision happens, and a bounds exit or collision gives it the failure size |
| MainLoop.FuelNeverNegative | main.cpp:80-81 | from a full 5000-unit tank and full gauge, as `Initialise` leaves them, no frame sequence makes fuel or gauge negative, and the gauge is empty exactly when the tank is |

`Input.InputStep` states the following:

- Quitting lowers the running flag.
- Fuel stays non-negative from a non-negative tank.
- Fuel drops by 0 to 2 units. It drops by one for each thruster that fires
  and stays the same exactly when none fires.
- The gauge relation is kept.
- Left fires before Right. It sets x acceleration -0.75, rotation 1.6 and
  the flame 0.5 to the right of the ship. Right sets the mirror image.
- With no horizontal burn, rotations go to 0 and the x acceleration is
  kept.
- Up gives y acceleration 0.5 and puts the flame 0.5 below the ship when no
  horizontal flame shows. Without Up the y acceleration is gravity -0.2 and
  z is 0.
- The flame shows exactly while a thruster fires.
- The ship's movement is cleared. Its position, velocity, scale and texture
  are kept.
- Only the gauge's width changes. The terrain, banner and indicator are
  untouched.

## Left out

- Window and GL context creation, SDL event polling and the keyboard state are platform I/O. Held keys and the quit request (window close or `q`) are the `Input.Keys` input.
- The tick clock and delta time (main.cpp:384-387), the two-second pause and `shutdown` are clock and platform calls. The unused `collision_factor` is left out too.
- `load_texture`, the shaders, `render` and `draw_sprite_from_texture_atlas` are OpenGL/stb foreign calls. A texture handle is modelled as the asset it was loaded from.
- `Entity::update` (kinematic integration) is not part of this model. The ship's integrated position and velocity are a frame input. The `update` calls on the blocks, indicator, banner, flame and gauge are assumed to change no field modelled here.
- `Entity::check_collision` is not part of this model. Its 24 results per frame are an input sequence.
- The `Entity` constructor is not part of this model. The fields it initialises are the `blank` parameter.
- IEEE float rounding is not modelled: all coordinates are exact reals. With floats the 0.0003 gauge steps drift, so `GaugeMatchesFuel` is exact only in this model.
- The movement normalisation at main.cpp:376-379 is not modelled as a step. Movement is cleared at main.cpp:273, and `Input.InputStep` ensures it is zero, so the normalising branch can never fire.
- Input.InputStep: fuel is an unbounded integer, so the source's 32-bit wrap-around of `fuel_tank` is not modelled. It cannot occur from the initial tank, since fuel stays in [0, 5000] (`MainLoop.PlayKeepsInvariant`).
- The model matrix, the unused animation fields and constants of `Entity` (Entity.h:14-17, 35-56) and the leaked entities from re-creating blocks carry no game behaviour.
- The getters of Entity.h:73-78 are plain field reads without contracts of their own. Their behaviour after a setter is stated by the setters' contracts.
