# NASCAR arcade race: a verified model of the frame simulation

The repository holds two pygame racing games in which the player's car dodges
falling obstacle cars.

- `PY_NASCAR_EMAYLEO.py` is the circuit version. It has three difficulty
  levels, a road whose centre follows a curve, four lanes that move with the road,
  boosting, points and track distance per dodge, laps, a rival, a difficulty ratchet
  on the obstacle speed, and a finish marker that descends to a gate line.
- `PY_NASCAR_EMAYLEO_VER_SIMPLE.py` is the simple version: one endless road
  with fixed lanes, a fixed obstacle speed, one point per dodge or two while boosting,
  and a collision quits the game.

This project models what one frame of each game does to the game's state and
proves what the games promise about that state.

- `arcade.dfy` (module `Arcade`): pygame's `Rect` reduced to four integers, its
  `colliderect` overlap test, the keys a frame reads, and lane indices.
- `traffic.dfy` (module `Traffic`): the obstacle loop both games share. Every
  obstacle is lowered, tested against the player and removed once past the bottom
  line; a collision stops the loop. Its specification is the function `Sweep`.
  The reference definitions `Moved`, `Kept`, `Beyond` and `Hits` describe the
  same pass element by element. The method `MoveObstacles` is the loop, proved to
  compute `Sweep`.
- `track.dfy` (module `Track`): the circuit version's constants, the three
  level presets of `selection_screen`, `compute_lane_positions` and the guarded
  sideways steering.
- `circuit.dfy` (module `Circuit`): the race state as a value (`RaceState`).
  The frame of `main_loop` (lines 414-479 and the gate at 525-544) is a pure
  function `Step`, built from one function per stage. Its lemmas state the race
  invariant, monotone counters, exact rewards, lap wrap, marker and gate.
  `Run` plays a race frame by frame. The class `Race` keeps the game's globals in
  fields and updates them in place: `Reset`, `SelectLevel`, `StartRace`, `Spawn`
  and `Tick`. Each of these is proved to move the fields exactly as the value
  model says.
- `simple.dfy` (module `Simple`): the same for the simple version. It has the
  value model `FrameStep`/`Drive`, its lemmas, and the class `Highway`.

Both games remove dodged obstacles with `obstacles.remove(obs)` while walking a
copy of the list. That removes the first element equal to `obs`. Every element
before `obs` is already lowered and was kept, so it is not beyond the bottom
line, while `obs` is. The first equal element is therefore always `obs` itself,
and the removal is the order-preserving filter that `Sweep` builds.

Three properties the code does not have in the strict form one might expect:

- Steering is guarded by a test on the position before the step, so a frame
  can leave the car up to one step less a pixel past either margin of the road
  it steers on, not strictly inside them. `Track.SteerBounds` proves that bound
  against the road of that frame, and `Track.SteerKeepsBand` proves the band
  closed while the road does not move.
- In the circuit version the road centre follows the track distance, which
  every dodge changes, and nothing moves the car back when the road shifts
  under it. Over a race the car can therefore drift off the road as the curve
  moves; no band holds for a whole race. Only the simple version's fixed road
  gives one: `Simple.SteerKeepsBand` and `Simple.DriveBounds` keep the car in
  [199, 541] for a whole run.
- The lap wrap is a single `if`, so the distance stays below a lap only while
  one frame earns at most a lap's distance. `Circuit.WrapStaysInLap` states that
  condition.

## Model

| member | source | states |
|---|---|---|
| Arcade.Collide | PY_NASCAR_EMAYLEO.py:437 | `colliderect`: the boxes share interior area (strict comparisons on both axes); specified by CollideSymmetric, BelowNeverCollides and CollisionExamples |
| Arcade.Lowered | PY_NASCAR_EMAYLEO.py:434 | moving an obstacle down changes its y by exactly dy and keeps x, width and height |
| Arcade.CollideSymmetric | PY_NASCAR_EMAYLEO.py:437 | the overlap test gives the same answer whichever box asks |
| Arcade.BelowNeverCollides | PY_NASCAR_EMAYLEO.py:437 | a box lying wholly below another never collides with it |
| Arcade.CollisionExamples | PY_NASCAR_EMAYLEO.py:437 | a player box (100,100,60,100) overlaps an obstacle at (100,150) and misses one at (300,150) |
| Traffic.Sweep | PY_NASCAR_EMAYLEO.py:433-449 | the obstacle pass of either game: every obstacle ends up either in the new list or counted as removed; related to the reference definitions by SweepClear, SweepHitIff, FirstHit and SweepHitExtends, and computed by MoveObstacles |
| Traffic.MoveObstacles | PY_NASCAR_EMAYLEO.py:433-449 | the loop over the snapshot yields exactly the kept list, removal count and collision flag of the specification `Sweep` |
| Traffic.SweepClear | PY_NASCAR_EMAYLEO.py:433-442 | without a collision every obstacle moved down with x unchanged, those past the bottom line are removed and counted, and the survivors keep their order |
| Traffic.SweepHitIff | PY_NASCAR_EMAYLEO.py:437-440 | the pass reports a collision if and only if some lowered obstacle overlaps the player |
| Traffic.FirstHit | PY_NASCAR_EMAYLEO.py:433-440 | on a collision, the obstacles before the first hit are lowered and filtered, the hitting one is lowered and kept, and the rest are untouched |
| Traffic.SweepHitExtends | PY_NASCAR_EMAYLEO.py:437-440 | once the pass has hit, further obstacles are carried over unchanged and nothing more is counted |
| Traffic.KeptPlusBeyond | PY_NASCAR_EMAYLEO.py:441-442 | each obstacle is either kept or counted as removed, so the list shrinks by exactly the number of removals |
| Traffic.KeptMembers | PY_NASCAR_EMAYLEO.py:441-442 | an obstacle survives if and only if it is one of the lowered obstacles and not past the bottom line |
| Track.PresetOf | PY_NASCAR_EMAYLEO.py:213-263 | the literal parameters of keys 1, 2 and 3; specified by PresetsOrdered, RivalGainExact and EasyScenarios |
| Track.PresetsOrdered | PY_NASCAR_EMAYLEO.py:213-263 | every preset has a positive lap length and at least one lap; from Easy to Extreme obstacle speed, spawn rate, rival rate, score base and lap length strictly increase |
| Track.LanePositions | PY_NASCAR_EMAYLEO.py:124-128 | the road's left edge is centre minus half the road width; there are four lanes at offsets 40, 160, 280, 400 from it, in order, not overlapping and inside the road |
| Track.StepLeft | PY_NASCAR_EMAYLEO.py:427-428 | the car moves left if and only if the key is held and x exceeds left edge + 6, and then by exactly the current speed |
| Track.StepRight | PY_NASCAR_EMAYLEO.py:429-430 | the car moves right if and only if the key is held and x is below left edge + 520 - 60 - 6, and then by exactly the current speed |
| Track.Speed | PY_NASCAR_EMAYLEO.py:416-423 | the sideways speed, 13 with a shift key held and 7 otherwise; the step size in the contracts of StepLeft and StepRight |
| Track.Steer | PY_NASCAR_EMAYLEO.py:425-430 | the left step then the right step, the right guard seeing the position after the left step; specified by StepLeft, StepRight, SteerIdle, SteerBounds and SteerKeepsBand |
| Track.SteerIdle | PY_NASCAR_EMAYLEO.py:425-430 | with no arrow key held the car does not move sideways |
| Track.SteerBounds | PY_NASCAR_EMAYLEO.py:425-430 | steering never carries the car more than one step less a pixel past either margin |
| Track.SteerKeepsBand | PY_NASCAR_EMAYLEO.py:425-430 | on a fixed road the band from left edge - 6 to the right guard + 12 is never left once entered |
| Circuit.Cleared | PY_NASCAR_EMAYLEO.py:346-364 | reset_game's values: car at the start x, not boosting, no obstacles, all counters zero, marker parked at -10000 and both flags false |
| Circuit.Initial | PY_NASCAR_EMAYLEO.py:375 | a race starts from the reset values with the preset's obstacle speed, and satisfies the race invariant |
| Circuit.SpawnObstacle | PY_NASCAR_EMAYLEO.py:163-168 | a spawn appends exactly one car-sized obstacle at y = -100 in one of the current lanes; everything else is unchanged |
| Circuit.SpawnAll | PY_NASCAR_EMAYLEO.py:404-409 | the frame's queued spawn events in order, at the frame's track distance; specified by SpawnAllKeeps |
| Circuit.SpawnAllKeeps | PY_NASCAR_EMAYLEO.py:404-409 | the spawns queued in one frame change nothing but the obstacle list: the old obstacles stay in front, unchanged, followed by one new obstacle per spawn, in order, each in its lane of the road at the frame's distance |
| Circuit.DodgeScore | PY_NASCAR_EMAYLEO.py:444 | points per dodge, the score base plus half of it (rounded down) when boosting; its use is stated by StepRewards and EasyScenarios |
| Circuit.DodgeDistance | PY_NASCAR_EMAYLEO.py:448 | track distance per dodge, 40 plus 25 when boosting; its use is stated by StepRewards and EasyScenarios |
| Circuit.RivalGain | PY_NASCAR_EMAYLEO.py:454 | the rival's gain per frame in thousandths; specified by RivalGainExact |
| Circuit.Ratchet | PY_NASCAR_EMAYLEO.py:457-458 | the capped speed increase while progress is a positive multiple of 10; its cap is part of the invariant kept by StepKeepsRunning, and QuietStep applies it |
| Circuit.Steered | PY_NASCAR_EMAYLEO.py:414-430 | the boost and steering stage of a frame; specified by StepSteers and implemented by Race.SteerCar |
| Circuit.Dodge | PY_NASCAR_EMAYLEO.py:432-451 | the obstacle pass with the rewards of each dodge; specified by StepObstacles and StepRewards and implemented by Race.PassObstacles |
| Circuit.Pace | PY_NASCAR_EMAYLEO.py:453-458 | the rival advance and the ratchet; specified by StepMonotone, StepKeepsRunning and QuietStep and implemented by Race.Pacing |
| Circuit.WrapLap | PY_NASCAR_EMAYLEO.py:460-473 | the lap wrap; specified by StepRewards and WrapStaysInLap and implemented by Race.Lap |
| Circuit.ShowMarker | PY_NASCAR_EMAYLEO.py:475-479 | the finish marker's appearance; specified by StepMarker |
| Circuit.Gate | PY_NASCAR_EMAYLEO.py:525-544 | the marker's descent and the gate; specified by StepMarker, StepGate and GateWithin and implemented with ShowMarker by Race.FinishMarker |
| Circuit.Step | PY_NASCAR_EMAYLEO.py:414-544 | one frame after its events; specified by StepKeepsRunning, StepMonotone, StepObstacles, StepRewards, StepSteers, WrapStaysInLap, StepMarker, StepGate and QuietStep, and implemented by Race.Tick |
| Circuit.Run | PY_NASCAR_EMAYLEO.py:400-479 | main_loop frame by frame until the race ends or the inputs run out; specified by RunKeepsRunning, RunMonotone and GateWithin |
| Circuit.StepKeepsRunning | PY_NASCAR_EMAYLEO.py:414-479 | a frame keeps the race invariant (distance not negative, unfinished laps, speed within its cap, marker parked or above the gate), or ends in a state that fits its outcome |
| Circuit.StepMonotone | PY_NASCAR_EMAYLEO.py:441-479 | score, progress, rival progress and lap count never decrease in a frame, and a visible marker stays visible |
| Circuit.StepObstacles | PY_NASCAR_EMAYLEO.py:433-449 | the frame collides if and only if a lowered obstacle overlaps the player's box at its new x; otherwise the survivors are the kept lowered obstacles in order, progress grows by one per removal, and the list shrinks by that count |
| Circuit.StepRewards | PY_NASCAR_EMAYLEO.py:441-473 | exact rewards: d removals give d times the dodge score and distance; a wrap adds one lap, subtracts lapDistance and adds three times the score base; LapsComplete if and only if that was the last lap |
| Circuit.StepSteers | PY_NASCAR_EMAYLEO.py:414-430 | the new x is the guarded steering against the road at the frame's distance, and the boost flag is the shift key |
| Circuit.WrapStaysInLap | PY_NASCAR_EMAYLEO.py:460-463 | when one frame earns at most a lap's distance, the distance after the wrap lies in [0, lapDistance) |
| Circuit.StepMarker | PY_NASCAR_EMAYLEO.py:475-526 | a hidden marker becomes visible if and only if progress reaches lapDistance / 25 on the last lap, starting at -200 and already one step down; a visible one only falls, by 2 |
| Circuit.StepGate | PY_NASCAR_EMAYLEO.py:525-544 | with the marker on screen, the frame ends FinishGate if and only if no collision or completed race comes first and the marker's next step passes player_y - 200 |
| Circuit.QuietStep | PY_NASCAR_EMAYLEO.py:414-479 | a frame with no obstacles, no key, no wrap and no marker changes only the boost flag, rival progress and the ratcheted speed |
| Circuit.RivalGainExact | PY_NASCAR_EMAYLEO.py:453-454 | the rival's gain per frame (a tenth of the rate, times 1.2 when boosting) is exact in thousandths for every level |
| Circuit.RunKeepsRunning | PY_NASCAR_EMAYLEO.py:400-479 | over any number of frames the race invariant holds until the race ends, and the final state fits the outcome |
| Circuit.RunMonotone | PY_NASCAR_EMAYLEO.py:400-479 | over a whole race score, progress, rival progress and lap count never decrease, and a visible marker stays visible |
| Circuit.GateWithin | PY_NASCAR_EMAYLEO.py:525-544 | once the marker is on screen the race ends within (GATE_Y - finishLineY) / 2 + 1 frames, whatever the player does |
| Circuit.EasyScenarios | PY_NASCAR_EMAYLEO.py:441-465 | on Easy a dodge is worth 12 points and 40 distance, or 18 and 65 when boosting; at distance 1590 a dodge wraps the lap to 30 and adds the 36-point bonus |
| Circuit.Race.constructor | PY_NASCAR_EMAYLEO.py:63-105 | the starting globals are the reset values, in the menu phase; the preset held is a placeholder, Medium's, whose lap settings match the initial 3 laps of 2000 (lines 104-105), and SelectLevel replaces it before any race can start |
| Circuit.Race.Reset | PY_NASCAR_EMAYLEO.py:346-364 | at program start or from the game-over screen, every race field gets its reset value, the phase returns to the menu, and preset and obstacle speed are kept |
| Circuit.Race.ResetCar | PY_NASCAR_EMAYLEO.py:351-358 | the car is back at the start x, not boosting, and the obstacle list is empty; nothing else changes |
| Circuit.Race.ResetCounters | PY_NASCAR_EMAYLEO.py:355-364 | score, progress, rival progress, distance and lap count are zero; nothing else changes |
| Circuit.Race.ResetFinish | PY_NASCAR_EMAYLEO.py:359-361 | the marker is parked at -10000 with both flags false; nothing else changes |
| Circuit.Race.SelectLevel | PY_NASCAR_EMAYLEO.py:213-263 | after each reset, choosing a level installs its preset, moves to the ready phase and leaves the race state unchanged |
| Circuit.Race.StartRace | PY_NASCAR_EMAYLEO.py:374-375 | main_loop starts, only once a level is chosen, racing from the reset state with the preset's obstacle speed |
| Circuit.Race.Spawn | PY_NASCAR_EMAYLEO.py:407-409 | a spawn event changes the fields exactly as SpawnObstacle at the current distance's road centre |
| Circuit.Race.Tick | PY_NASCAR_EMAYLEO.py:414-544 | one frame changes the fields exactly as Step, keeps the invariants, and moves to the game-over phase if and only if the frame ends the race |
| Circuit.Race.SteerCar | PY_NASCAR_EMAYLEO.py:414-430 | the boost flag and sideways move update the fields as the steering stage says |
| Circuit.Race.PassObstacles | PY_NASCAR_EMAYLEO.py:432-451 | the obstacle loop and the per-dodge score, progress and distance update the fields as the dodge stage says |
| Circuit.Race.Pacing | PY_NASCAR_EMAYLEO.py:453-458 | rival progress and the capped speed ratchet update as the pace stage says |
| Circuit.Race.Lap | PY_NASCAR_EMAYLEO.py:460-473 | the lap wrap updates the fields, and reports LapsComplete, as the wrap stage says |
| Circuit.Race.FinishMarker | PY_NASCAR_EMAYLEO.py:475-544 | the marker's appearance and descent update the fields, and report FinishGate, as the marker and gate stages say |
| Simple.Start | PY_NASCAR_EMAYLEO_VER_SIMPLE.py:23-38 | the game starts with the car at x = 370, no obstacles and score 0 |
| Simple.Spawned | PY_NASCAR_EMAYLEO_VER_SIMPLE.py:58-60 | a spawn appends exactly one rect (lane, -100, 60, 100) with the lane one of 220, 320, 420, 520; everything else is unchanged |
| Simple.Speed | PY_NASCAR_EMAYLEO_VER_SIMPLE.py:63 | the speed is 12 if and only if shift is held, otherwise 7 |
| Simple.Points | PY_NASCAR_EMAYLEO_VER_SIMPLE.py:87 | a dodge is worth 2 points when boosting and 1 otherwise |
| Simple.StepLeft | PY_NASCAR_EMAYLEO_VER_SIMPLE.py:64-65 | the car moves left if and only if the key is held and x > 210, and then by exactly the speed |
| Simple.StepRight | PY_NASCAR_EMAYLEO_VER_SIMPLE.py:66-67 | the car moves right if and only if the key is held and x < 530, and then by exactly the speed |
| Simple.Steer | PY_NASCAR_EMAYLEO_VER_SIMPLE.py:62-67 | the left step then the right step; specified by StepLeft, StepRight, SteerKeepsBand and DriveBounds |
| Simple.SpawnAll | PY_NASCAR_EMAYLEO_VER_SIMPLE.py:54-60 | the frame's spawn events in order; specified by SpawnAllKeeps |
| Simple.FrameStep | PY_NASCAR_EMAYLEO_VER_SIMPLE.py:62-87 | one frame after its events; specified by FrameObstacles, FrameKeepsOnScreen and DodgeExamples, and implemented by Highway.Frame |
| Simple.Drive | PY_NASCAR_EMAYLEO_VER_SIMPLE.py:48-87 | the top-level loop frame by frame until a crash or until the inputs run out; specified by DriveBounds |
| Simple.SteerKeepsBand | PY_NASCAR_EMAYLEO_VER_SIMPLE.py:62-67 | steering keeps the car in [199, 541] once it is there |
| Simple.FrameObstacles | PY_NASCAR_EMAYLEO_VER_SIMPLE.py:73-87 | the game ends if and only if an obstacle lowered by 10 overlaps the player; otherwise survivors are exactly the lowered obstacles with y <= 600, in order, and the score grows by the points of each removal |
| Simple.FrameKeepsOnScreen | PY_NASCAR_EMAYLEO_VER_SIMPLE.py:85-86 | from any state, after a frame without a crash no kept obstacle lies below the screen |
| Simple.DriveBounds | PY_NASCAR_EMAYLEO_VER_SIMPLE.py:48-87 | over any number of frames the score never decreases and the car never leaves [199, 541] |
| Simple.SpawnAllKeeps | PY_NASCAR_EMAYLEO_VER_SIMPLE.py:54-60 | a frame's spawn events only append to the obstacle list: the old obstacles stay in front, followed by one new obstacle per event, in order, each in its lane |
| Simple.DodgeExamples | PY_NASCAR_EMAYLEO_VER_SIMPLE.py:73-87 | an obstacle at y = 595 leaves the screen this frame and scores 1, or 2 while boosting |
| Simple.Highway.constructor | PY_NASCAR_EMAYLEO_VER_SIMPLE.py:23-38 | the globals start as Start |
| Simple.Highway.Spawn | PY_NASCAR_EMAYLEO_VER_SIMPLE.py:58-60 | the SPAWN event changes the globals exactly as Spawned |
| Simple.Highway.Frame | PY_NASCAR_EMAYLEO_VER_SIMPLE.py:62-87 | steering and the obstacle loop change the globals exactly as FrameStep, and report the crash it computes |

## Left out

- Rendering, the HUD, sound, trees and lamps, the wheel animation, the visibility overlay and the celebration animation are left out: they are presentation and do not touch the race state.
- pygame's event queue, timers, clock and key polling are left out. The model takes the spawn events of a frame, their random lanes and the keys held as inputs.
- Quitting (window close, key 0, `sys.exit`) is not represented: a `Run` or `Drive` whose inputs run out simply ends with the race still going (`Continue`, or no crash).
- The road centre is left out: `get_road_center_x` is a floating-point sine curve. `Step` takes the centre as an integer, and `Run` and `Race.Tick` take the centre as a function of the track distance.
- The ratchet amount `0.004 * dt` is a float. It is an abstract integer increment per frame, so the obstacle speed and obstacle positions stay integers; the cap at the preset's speed + 6 is exact.
- Rival progress is kept in thousandths instead of as a float (exact for all three levels, see `Circuit.RivalGainExact`). The win/lose text of the game-over screen, which compares it with progress, is left out.
- The random praise text and its timer are left out: they are display only.
- The presets' `visibility` is carried but only the road overlay uses it (line 506); main_loop also reads it into `visibility_max` (line 377), which is never used; and `rival_multiplier` is read at line 379 and never used. main_loop's `finish_threshold` is computed at line 395 and never read, so it is not modelled.
- `Circuit.Race.Tick` applies a frame's dodge rewards as count × gain after the pass. The gain cannot change within the pass (the boost flag is fixed before it), and a collision still keeps the rewards of the obstacles removed before it.
- The game-over screen's wait for space is modelled only by its effect, `Circuit.Race.Reset`. After a race the program calls `show_game_over` and `reset_game` once more from the top level (lines 589-594), and both calls are idempotent on the state. It then calls `selection_screen` before every race, which the phase order Menu, Ready, Racing, Over models.
- The `Rect` coordinates are plain integers. pygame's own coercion of fractional coordinates is not modelled.
- The simple version's state after a crash is not used: the program waits two seconds and exits.
