/** The race of the circuit version (PY_NASCAR_EMAYLEO.py): the state main_loop
    updates every frame, the frame itself as a function of that state (Step),
    its properties, and the class Race that holds the state in fields and
    updates them the way the program's globals are updated. */
module Circuit {
  import opened Arcade
  import opened Traffic
  import opened Track

  /** An obstacle whose y passes this line has been dodged and is removed. */
  const OFF_SCREEN := HEIGHT + 50
  /** Track distance gained per dodge, and the extra gained while boosting. */
  const DODGE_DISTANCE := 40
  const BOOST_DISTANCE := 25
  /** A lap is worth this many dodges' base score. */
  const LAP_BONUS := 3
  /** The obstacle speed never rises more than this above the preset's. */
  const SPEED_CAP := 6
  /** The obstacle speed ratchets while the progress is a positive multiple of this. */
  const RATCHET_EVERY := 10
  /** The finish marker's y: parked off screen, where it appears, how fast it
      falls, and the line at which reaching it ends the race. */
  const FINISH_HIDDEN_Y := -10000
  const FINISH_START_Y := -200
  const FINISH_STEP := 2
  const GATE_Y := PLAYER_Y - 200
  /** The marker appears once the progress reaches lapDistance / MARKER_DIVISOR. */
  const MARKER_DIVISOR := 25

  /** How a frame ends: the race goes on, or one of the three ways it stops. */
  datatype Outcome = Continue | Collision | LapsComplete | FinishGate

  /** Where the program is: reset and waiting for a level choice, a level
      chosen, racing in main_loop, or on the game-over screen after a race that
      ended with the given outcome. */
  datatype Phase = Menu | Ready | Racing | Over(outcome: Outcome)

  /** The globals main_loop reads and writes, plus its local obstacle_speed.
      Progress is a whole number of dodges; rival is the rival's progress in
      thousandths. */
  datatype RaceState = RaceState(
    playerX: int,
    boosting: bool,
    obstacles: seq<Rect>,
    score: nat,
    progress: nat,
    rival: nat,
    trackDistance: int,
    lapCount: nat,
    obstacleSpeed: int,
    finishLineY: int,
    finishVisible: bool,
    finishTraveled: bool)

  /** A frame's result: the new state and how the frame ended. */
  datatype Stepped = Stepped(state: RaceState, outcome: Outcome)

  /** What one frame brings in: the obstacle spawns the timer queued (each with
      its lane), the keys held, and this frame's obstacle-speed increment. */
  datatype Input = Input(spawns: seq<LaneIndex>, keys: Keys, ratchet: nat)

  function PlayerBox(x: int): Rect
  {
    Rect(x, PLAYER_Y, CAR_W, CAR_H)
  }

  /** Points per dodge: the base, plus half of it (rounded down) while boosting. */
  function DodgeScore(p: Preset, boosting: bool): nat
  {
    p.scoreBase + if boosting then p.scoreBase / 2 else 0
  }

  function DodgeDistance(boosting: bool): nat
  {
    DODGE_DISTANCE + if boosting then BOOST_DISTANCE else 0
  }

  /** Rival progress per frame in thousandths: a tenth of the base rate, 1.2 times
      that while the player boosts. */
  function RivalGain(p: Preset, boosting: bool): nat
  {
    p.rivalBase * (if boosting then 12 else 10) / 100
  }

  /** The difficulty ratchet: while the progress is a positive multiple of ten
      the speed grows by the frame's increment, but never past base + SPEED_CAP. */
  function Ratchet(speed: int, progress: nat, base: int, inc: nat): int
  {
    if progress != 0 && progress % RATCHET_EVERY == 0 then Min(speed + inc, base + SPEED_CAP) else speed
  }

  /** reset_game's values; the obstacle speed is main_loop's starting value. */
  predicate IsReset(s: RaceState)
  {
    s.playerX == PLAYER_START_X && !s.boosting && s.obstacles == [] &&
    s.score == 0 && s.progress == 0 && s.rival == 0 &&
    s.trackDistance == 0 && s.lapCount == 0 &&
    s.finishLineY == FINISH_HIDDEN_Y && !s.finishVisible && !s.finishTraveled
  }

  /** reset_game's values, with the given obstacle speed: every race counter
      back to zero, no obstacles, the finish marker parked. */
  function Cleared(speed: int): (r: RaceState)
    ensures IsReset(r) && r.obstacleSpeed == speed
  {
    RaceState(PLAYER_START_X, false, [], 0, 0, 0, 0, 0, speed, FINISH_HIDDEN_Y, false, false)
  }

  /** The state main_loop starts from after reset_game: the obstacle speed is the preset's. */
  function Initial(p: Preset): (s: RaceState)
    ensures IsReset(s) && s.obstacleSpeed == p.obstacleSpeed
    ensures WellFormed(p) ==> Running(s, p)
  {
    Cleared(p.obstacleSpeed)
  }

  /** What holds of the state between frames while a race is on: the distance
      is never negative, the last lap is not yet done, the obstacle speed lies
      between the preset's and its cap, and the finish marker is either parked
      or on screen above the gate line, the latter only on the last lap and
      after enough progress. */
  predicate Running(s: RaceState, p: Preset)
  {
    0 <= s.trackDistance && s.lapCount < p.lapsTotal &&
    p.obstacleSpeed <= s.obstacleSpeed <= p.obstacleSpeed + SPEED_CAP &&
    !s.finishTraveled &&
    if s.finishVisible then
      FINISH_START_Y < s.finishLineY <= GATE_Y &&
      s.lapCount + 1 >= p.lapsTotal && s.progress >= p.lapDistance / MARKER_DIVISOR
    else
      s.finishLineY == FINISH_HIDDEN_Y
  }

  /** What holds when a race has ended with outcome o. */
  predicate Ended(s: RaceState, p: Preset, o: Outcome)
  {
    o != Continue &&
    0 <= s.trackDistance && s.lapCount <= p.lapsTotal &&
    p.obstacleSpeed <= s.obstacleSpeed <= p.obstacleSpeed + SPEED_CAP &&
    (o == Collision ==> !s.finishTraveled) &&
    (o == LapsComplete ==> s.lapCount == p.lapsTotal && s.finishVisible && s.finishTraveled) &&
    (o == FinishGate ==>
       s.lapCount + 1 == p.lapsTotal && s.finishVisible && s.finishTraveled && s.finishLineY > GATE_Y)
  }

  /** The invariant of each phase: the reset state before a race, the race
      invariant while racing, and a state that fits the outcome afterwards. */
  predicate Fits(s: RaceState, p: Preset, phase: Phase)
  {
    match phase
    case Menu => IsReset(s)
    case Ready => IsReset(s)
    case Racing => Running(s, p)
    case Over(o) => Ended(s, p, o)
  }

  /** spawn_obstacle_using_current_lanes: one car-sized obstacle just above the
      screen, in one of the lanes of the road around `center`; nothing else changes. */
  function SpawnObstacle(s: RaceState, center: int, lane: LaneIndex): (r: RaceState)
    ensures |r.obstacles| == |s.obstacles| + 1 && r.obstacles[..|s.obstacles|] == s.obstacles
    ensures var o := r.obstacles[|s.obstacles|];
      o.x in LanePositions(center).lanes && o.y == -CAR_H && o.w == CAR_W && o.h == CAR_H
    ensures r.(obstacles := s.obstacles) == s
  {
    s.(obstacles := s.obstacles + [NewObstacle(center, lane)])
  }

  /** The obstacle a spawn creates: car-sized, just above the screen, in the lane. */
  function NewObstacle(center: int, lane: LaneIndex): Rect
  {
    Rect(LanePositions(center).lanes[lane], -CAR_H, CAR_W, CAR_H)
  }

  /** All spawns queued for one frame, in order; they all see the same track distance. */
  function SpawnAll(s: RaceState, center: int, lanes: seq<LaneIndex>): RaceState
    decreases |lanes|
  {
    if lanes == [] then s else SpawnAll(SpawnObstacle(s, center, lanes[0]), center, lanes[1..])
  }

  /** Boost and steering against the road around `center`. */
  function Steered(s: RaceState, keys: Keys, center: int): RaceState
  {
    s.(playerX := Steer(s.playerX, keys, LanePositions(center).left), boosting := keys.boost)
  }

  /** The obstacle pass with the points, progress and distance each dodge earns.
      A collision ends the frame. */
  function Dodge(s: RaceState, p: Preset): Stepped
  {
    var pass := Sweep(s.obstacles, s.obstacleSpeed, PlayerBox(s.playerX), OFF_SCREEN);
    var d := pass.dodged;
    Stepped(
      s.(obstacles := pass.kept,
         score := s.score + d * DodgeScore(p, s.boosting),
         progress := s.progress + d,
         trackDistance := s.trackDistance + d * DodgeDistance(s.boosting)),
      if pass.hit then Collision else Continue)
  }

  /** The rival's advance and the difficulty ratchet. */
  function Pace(s: RaceState, p: Preset, inc: nat): RaceState
  {
    s.(rival := s.rival + RivalGain(p, s.boosting),
       obstacleSpeed := Ratchet(s.obstacleSpeed, s.progress, p.obstacleSpeed, inc))
  }

  /** Lap bookkeeping: at most one wrap per frame; finishing the last lap ends the race. */
  function WrapLap(s: RaceState, p: Preset): Stepped
  {
    if s.trackDistance >= p.lapDistance then
      var w := s.(lapCount := s.lapCount + 1,
                  trackDistance := s.trackDistance - p.lapDistance,
                  score := s.score + p.scoreBase * LAP_BONUS);
      if w.lapCount >= p.lapsTotal then
        Stepped(w.(finishVisible := true, finishTraveled := true), LapsComplete)
      else Stepped(w, Continue)
    else Stepped(s, Continue)
  }

  /** The finish marker appears, once, on the last lap after enough progress. */
  function ShowMarker(s: RaceState, p: Preset): RaceState
  {
    if s.progress >= p.lapDistance / MARKER_DIVISOR && !s.finishVisible && s.lapCount >= p.lapsTotal - 1
    then s.(finishLineY := FINISH_START_Y, finishVisible := true)
    else s
  }

  /** A visible marker falls by FINISH_STEP; passing the gate line ends the race. */
  function Gate(s: RaceState): Stepped
  {
    if s.finishVisible && !s.finishTraveled then
      var g := s.(finishLineY := s.finishLineY + FINISH_STEP);
      if g.finishLineY > GATE_Y then Stepped(g.(finishTraveled := true), FinishGate)
      else Stepped(g, Continue)
    else Stepped(s, Continue)
  }

  /** One frame of main_loop after its event handling; `center` is the road
      centre at the frame's starting track distance and `inc` the ratchet increment. */
  function Step(s: RaceState, p: Preset, keys: Keys, center: int, inc: nat): Stepped
  {
    var a := Dodge(Steered(s, keys, center), p);
    if a.outcome != Continue then a
    else
      var w := WrapLap(Pace(a.state, p, inc), p);
      if w.outcome != Continue then w
      else Gate(ShowMarker(w.state, p))
  }

  /** A race frame by frame, from state s, until it ends or the inputs run out;
      `road` is the road centre as a function of the track distance. */
  function Run(s: RaceState, p: Preset, road: int -> int, frames: seq<Input>): Stepped
    decreases |frames|
  {
    if frames == [] then Stepped(s, Continue)
    else
      var f := frames[0];
      var t := Step(SpawnAll(s, road(s.trackDistance), f.spawns), p, f.keys, road(s.trackDistance), f.ratchet);
      if t.outcome != Continue then t else Run(t.state, p, road, frames[1..])
  }

  // ---------------------------------------------------------------------------
  // Properties of one frame

  /** A frame keeps the race invariant, or ends the race in a state that fits
      its outcome: at most lapsTotal laps, a non-negative distance, and the
      obstacle speed within its cap. */
  lemma StepKeepsRunning(s: RaceState, p: Preset, keys: Keys, center: int, inc: nat)
    requires WellFormed(p) && Running(s, p)
    ensures var t := Step(s, p, keys, center, inc);
      if t.outcome == Continue then Running(t.state, p) else Ended(t.state, p, t.outcome)
  {
  }

  /** Score, progress, rival progress and the lap count never go down, and a
      visible finish marker stays visible. */
  lemma StepMonotone(s: RaceState, p: Preset, keys: Keys, center: int, inc: nat)
    ensures Grows(s, Step(s, p, keys, center, inc).state)
  {
    var a := Dodge(Steered(s, keys, center), p);
    assert Grows(s, a.state);
    if a.outcome == Continue {
      var w := WrapLap(Pace(a.state, p, inc), p);
      assert Grows(a.state, w.state);
      if w.outcome == Continue {
        assert Grows(w.state, Gate(ShowMarker(w.state, p)).state);
      }
    }
  }

  /** Score, progress, rival progress and the lap count are no smaller in t than
      in s, and a finish marker visible in s is visible in t. */
  predicate Grows(s: RaceState, t: RaceState)
  {
    t.score >= s.score && t.progress >= s.progress && t.rival >= s.rival &&
    t.lapCount >= s.lapCount && (s.finishVisible ==> t.finishVisible)
  }

  /** The obstacle step: the frame ends in a collision exactly when some obstacle,
      lowered by the obstacle speed, overlaps the player's box at its new x.
      Otherwise every obstacle has moved down by exactly the obstacle speed with
      its x unchanged, those past the bottom line are gone, the rest keep their
      order, and the progress grows by one per removed obstacle. */
  lemma StepObstacles(s: RaceState, p: Preset, keys: Keys, center: int, inc: nat)
    ensures var t := Step(s, p, keys, center, inc);
      var ms := Moved(s.obstacles, s.obstacleSpeed);
      (t.outcome == Collision <==> Hits(ms, PlayerBox(t.state.playerX))) &&
      (t.outcome != Collision ==>
         t.state.obstacles == Kept(ms, OFF_SCREEN) &&
         t.state.progress == s.progress + Beyond(ms, OFF_SCREEN) &&
         |t.state.obstacles| + Beyond(ms, OFF_SCREEN) == |s.obstacles|)
  {
    var x := Steer(s.playerX, keys, LanePositions(center).left);
    var ms := Moved(s.obstacles, s.obstacleSpeed);
    var a := Dodge(Steered(s, keys, center), p);
    SweepHitIff(s.obstacles, s.obstacleSpeed, PlayerBox(x), OFF_SCREEN);
    if a.outcome == Continue {
      var w := WrapLap(Pace(a.state, p, inc), p);
      assert w.state.obstacles == a.state.obstacles;
      if w.outcome == Continue {
        assert Gate(ShowMarker(w.state, p)).state.obstacles == a.state.obstacles;
      }
      SweepClear(s.obstacles, s.obstacleSpeed, PlayerBox(x), OFF_SCREEN);
    }
  }

  /** The exact rewards of a frame. With d dodges, each is worth DodgeScore points
      and DodgeDistance of track; if the frame does not collide and the distance
      then reaches a lap, exactly one lap is completed: the lap count grows by
      one, the distance drops by exactly lapDistance and the score gets the lap
      bonus; the race ends LapsComplete exactly when that was the last lap. */
  lemma StepRewards(s: RaceState, p: Preset, keys: Keys, center: int, inc: nat)
    ensures var t := Step(s, p, keys, center, inc);
      var d := Sweep(s.obstacles, s.obstacleSpeed, PlayerBox(t.state.playerX), OFF_SCREEN).dodged;
      var reached := s.trackDistance + d * DodgeDistance(keys.boost);
      var wrapped := t.outcome != Collision && reached >= p.lapDistance;
      t.state.progress == s.progress + d &&
      t.state.score == s.score + d * DodgeScore(p, keys.boost) + (if wrapped then p.scoreBase * LAP_BONUS else 0) &&
      t.state.lapCount == s.lapCount + (if wrapped then 1 else 0) &&
      t.state.trackDistance == reached - (if wrapped then p.lapDistance else 0) &&
      (t.outcome == LapsComplete <==> wrapped && s.lapCount + 1 >= p.lapsTotal)
  {
    var a := Dodge(Steered(s, keys, center), p);
    if a.outcome == Continue {
      var w := WrapLap(Pace(a.state, p, inc), p);
      if w.outcome == Continue {
        assert SameRewards(w.state, Gate(ShowMarker(w.state, p)).state);
      }
    }
  }

  /** Score, progress, lap count and distance are the same in s and t, and so is
      the car's x, against which the rewards of a frame are stated. */
  predicate SameRewards(s: RaceState, t: RaceState)
  {
    t.score == s.score && t.progress == s.progress && t.lapCount == s.lapCount &&
    t.trackDistance == s.trackDistance && t.playerX == s.playerX
  }

  /** Steering: the player moves sideways as Steer says, by the current speed,
      within the guards of the road around `center`. */
  lemma StepSteers(s: RaceState, p: Preset, keys: Keys, center: int, inc: nat)
    ensures var x := Step(s, p, keys, center, inc).state.playerX;
      x == Steer(s.playerX, keys, LanePositions(center).left) &&
      Step(s, p, keys, center, inc).state.boosting == keys.boost
  {
  }

  /** The lap wrap keeps the distance inside the lap as long as one frame earns
      no more than a lap's distance: the source wraps with a single `if`. */
  lemma WrapStaysInLap(s: RaceState, p: Preset, keys: Keys, center: int, inc: nat)
    requires WellFormed(p) && Running(s, p) && s.trackDistance < p.lapDistance
    requires var x := Steer(s.playerX, keys, LanePositions(center).left);
      Sweep(s.obstacles, s.obstacleSpeed, PlayerBox(x), OFF_SCREEN).dodged * DodgeDistance(keys.boost) <= p.lapDistance
    ensures var t := Step(s, p, keys, center, inc);
      t.outcome != Collision ==> 0 <= t.state.trackDistance < p.lapDistance
  {
  }

  /** The finish marker appears at most once: when it was hidden and the race
      goes on, it is visible afterwards exactly when the progress has reached
      lapDistance / 25 on the last lap, and then it has already fallen one step
      from where it appears; when it was visible, it only falls, by FINISH_STEP. */
  lemma StepMarker(s: RaceState, p: Preset, keys: Keys, center: int, inc: nat)
    requires WellFormed(p) && Running(s, p)
    ensures var t := Step(s, p, keys, center, inc);
      t.outcome == Continue && !s.finishVisible ==>
        (t.state.finishVisible <==>
           t.state.progress >= p.lapDistance / MARKER_DIVISOR && t.state.lapCount >= p.lapsTotal - 1) &&
        (t.state.finishVisible ==> t.state.finishLineY == FINISH_START_Y + FINISH_STEP)
    ensures var t := Step(s, p, keys, center, inc);
      t.outcome == Continue && s.finishVisible ==>
        t.state.finishVisible && t.state.finishLineY == s.finishLineY + FINISH_STEP
  {
  }

  /** The gate: with the marker on screen, the frame ends FinishGate exactly when
      nothing else ends it first and the marker's next step passes the gate line. */
  lemma StepGate(s: RaceState, p: Preset, keys: Keys, center: int, inc: nat)
    requires WellFormed(p) && Running(s, p) && s.finishVisible
    ensures var t := Step(s, p, keys, center, inc);
      t.outcome == FinishGate <==>
        t.outcome != Collision && t.outcome != LapsComplete && s.finishLineY + FINISH_STEP > GATE_Y
  {
  }

  /** On a frame with no obstacles, no key held, the distance inside the lap and
      the marker neither shown nor due, only the rival's progress and the
      obstacle-speed ratchet change. */
  lemma QuietStep(s: RaceState, p: Preset, center: int, inc: nat)
    requires s.obstacles == [] && s.trackDistance < p.lapDistance && !s.finishVisible
    requires !(s.progress >= p.lapDistance / MARKER_DIVISOR && s.lapCount >= p.lapsTotal - 1)
    ensures Step(s, p, Keys(false, false, false), center, inc)
         == Stepped(s.(boosting := false, rival := s.rival + RivalGain(p, false),
                       obstacleSpeed := Ratchet(s.obstacleSpeed, s.progress, p.obstacleSpeed, inc)),
                    Continue)
  {
  }

  /** Spawning changes only the obstacle list: the obstacles already there stay
      as they are, in front, followed by one new obstacle per queued spawn, in
      the order of the spawns. */
  lemma {:induction false} SpawnAllKeeps(s: RaceState, center: int, lanes: seq<LaneIndex>)
    ensures SpawnAll(s, center, lanes).(obstacles := s.obstacles) == s
    ensures |SpawnAll(s, center, lanes).obstacles| == |s.obstacles| + |lanes|
    ensures SpawnAll(s, center, lanes).obstacles[..|s.obstacles|] == s.obstacles
    ensures forall j :: 0 <= j < |lanes| ==>
      SpawnAll(s, center, lanes).obstacles[|s.obstacles| + j] == NewObstacle(center, lanes[j])
    decreases |lanes|
  {
    if lanes != [] {
      var s1 := SpawnObstacle(s, center, lanes[0]);
      SpawnAllKeeps(s1, center, lanes[1..]);
      var t := SpawnAll(s1, center, lanes[1..]);
      assert t.obstacles[..|s.obstacles|] == t.obstacles[..|s1.obstacles|][..|s.obstacles|];
      forall j | 0 <= j < |lanes|
        ensures t.obstacles[|s.obstacles| + j] == NewObstacle(center, lanes[j])
      {
        if j == 0 {
          assert t.obstacles[|s.obstacles|] == t.obstacles[..|s1.obstacles|][|s.obstacles|];
        } else {
          assert lanes[1..][j - 1] == lanes[j];
        }
      }
    }
  }

  /** The rival's gain per frame is exact in thousandths for every level: a tenth
      of the rate, times 1.2 while boosting, loses nothing to rounding. */
  lemma RivalGainExact(level: Level, boosting: bool)
    ensures RivalGain(PresetOf(level), boosting) * 100 == PresetOf(level).rivalBase * (if boosting then 12 else 10)
  {
  }

  // ---------------------------------------------------------------------------
  // Properties of a whole race

  /** Over any number of frames the race invariant holds until the race ends, and
      then the final state fits the outcome. */
  lemma {:induction false} RunKeepsRunning(s: RaceState, p: Preset, road: int -> int, frames: seq<Input>)
    requires WellFormed(p) && Running(s, p)
    ensures var t := Run(s, p, road, frames);
      if t.outcome == Continue then Running(t.state, p) else Ended(t.state, p, t.outcome)
    decreases |frames|
  {
    if frames != [] {
      var f := frames[0];
      var c := road(s.trackDistance);
      var s1 := SpawnAll(s, c, f.spawns);
      SpawnAllKeeps(s, c, f.spawns);
      StepKeepsRunning(s1, p, f.keys, c, f.ratchet);
      var t := Step(s1, p, f.keys, c, f.ratchet);
      if t.outcome == Continue {
        RunKeepsRunning(t.state, p, road, frames[1..]);
      }
    }
  }

  /** Over a whole race score, progress, rival progress and lap count never
      decrease, and a visible finish marker stays visible. */
  lemma {:induction false} RunMonotone(s: RaceState, p: Preset, road: int -> int, frames: seq<Input>)
    ensures Grows(s, Run(s, p, road, frames).state)
    decreases |frames|
  {
    if frames != [] {
      var f := frames[0];
      var c := road(s.trackDistance);
      var s1 := SpawnAll(s, c, f.spawns);
      SpawnAllKeeps(s, c, f.spawns);
      StepMonotone(s1, p, f.keys, c, f.ratchet);
      var t := Step(s1, p, f.keys, c, f.ratchet);
      if t.outcome == Continue {
        RunMonotone(t.state, p, road, frames[1..]);
      }
    }
  }

  /** Once the finish marker is on screen the race is over within
      (GATE_Y - finishLineY) / 2 + 1 frames, whatever the player does: each frame
      that does not end the race brings the marker one step closer to the gate. */
  lemma {:induction false} GateWithin(s: RaceState, p: Preset, road: int -> int, frames: seq<Input>)
    requires WellFormed(p) && Running(s, p) && s.finishVisible
    requires |frames| > (GATE_Y - s.finishLineY) / FINISH_STEP
    ensures Run(s, p, road, frames).outcome != Continue
    decreases |frames|
  {
    var f := frames[0];
    var c := road(s.trackDistance);
    var s1 := SpawnAll(s, c, f.spawns);
    SpawnAllKeeps(s, c, f.spawns);
    StepKeepsRunning(s1, p, f.keys, c, f.ratchet);
    StepMarker(s1, p, f.keys, c, f.ratchet);
    var t := Step(s1, p, f.keys, c, f.ratchet);
    if t.outcome == Continue {
      GateWithin(t.state, p, road, frames[1..]);
    }
  }

  // ---------------------------------------------------------------------------
  // Worked cases on the Easy level (score base 12, lap distance 1600)

  /** A frame on a fresh Easy race whose one obstacle, in the first lane, is about
      to leave the screen. */
  function EasyWithObstacle(trackDistance: int): RaceState
  {
    Initial(PresetOf(Easy)).(obstacles := [Rect(230, 645, CAR_W, CAR_H)], trackDistance := trackDistance)
  }

  /** One dodge without boost earns 12 points, 1 progress and 40 distance; with
      boost 18 points and 65 distance; at distance 1590 the dodge completes a
      lap: the distance wraps to 30, the lap count becomes 1 and the lap bonus
      adds 36. */
  lemma EasyScenarios()
    ensures var t := Step(EasyWithObstacle(0), PresetOf(Easy), Keys(false, false, false), WIDTH / 2, 0);
      t.outcome == Continue && t.state.score == 12 && t.state.progress == 1 &&
      t.state.trackDistance == 40 && t.state.obstacles == []
    ensures var t := Step(EasyWithObstacle(0), PresetOf(Easy), Keys(false, false, true), WIDTH / 2, 0);
      t.outcome == Continue && t.state.score == 18 && t.state.progress == 1 && t.state.trackDistance == 65
    ensures var t := Step(EasyWithObstacle(1590), PresetOf(Easy), Keys(false, false, false), WIDTH / 2, 0);
      t.outcome == Continue && t.state.lapCount == 1 && t.state.trackDistance == 30 &&
      t.state.score == 12 + 36
  {
    var o := Rect(230, 645, CAR_W, CAR_H);
    assert [o][..0] == [];
    assert Sweep([o], 8, PlayerBox(PLAYER_START_X), OFF_SCREEN) == Pass([], 1, false);
  }

  // ---------------------------------------------------------------------------
  // The state as the program holds it

  /** The game's globals. Each race runs Menu -> Ready -> Racing -> Over(outcome)
      -> Menu: selection_screen after reset_game, main_loop's start, a frame at a
      time, and back to reset_game from the game-over screen. */
  class Race {
    var preset: Preset
    var phase: Phase
    var playerX: int
    var isBoosting: bool
    var obstacles: seq<Rect>
    var score: nat
    var playerProgress: nat
    var rivalProgress: nat
    var trackDistance: int
    var lapCount: nat
    var obstacleSpeed: int
    var finishLineY: int
    var finishVisible: bool
    var finishTraveled: bool

    function State(): RaceState
      reads this
    {
      RaceState(playerX, isBoosting, obstacles, score, playerProgress, rivalProgress,
                trackDistance, lapCount, obstacleSpeed, finishLineY, finishVisible, finishTraveled)
    }

    ghost predicate Valid()
      reads this
    {
      WellFormed(preset) && Fits(State(), preset, phase)
    }

    /** The program's starting globals: the values reset_game also sets. The
        level parameters start empty; the preset held here is a placeholder,
        Medium's, whose lap settings match the initial 3 laps of 2000, and
        SelectLevel replaces it before any race can start. */
    constructor ()
      ensures Valid() && phase == Menu && preset == PresetOf(Medium)
      ensures State() == Initial(PresetOf(Medium))
    {
      preset := PresetOf(Medium);
      phase := Menu;
      playerX := PLAYER_START_X;
      isBoosting := false;
      obstacles := [];
      score, playerProgress, rivalProgress := 0, 0, 0;
      trackDistance, lapCount := 0, 0;
      obstacleSpeed := PresetOf(Medium).obstacleSpeed;
      finishLineY, finishVisible, finishTraveled := FINISH_HIDDEN_Y, false, false;
    }

    /** reset_game, from the game-over screen (or before the first race): every
        race counter back to zero, no obstacles, the finish marker parked. */
    method Reset()
      requires Valid() && (phase == Menu || phase.Over?)
      modifies this
      ensures Valid() && phase == Menu && preset == old(preset)
      ensures State() == Cleared(old(obstacleSpeed))
    {
      ResetCar();
      ResetCounters();
      ResetFinish();
      phase := Menu;
    }

    method ResetCar()
      modifies this
      ensures State() == old(State()).(playerX := PLAYER_START_X, boosting := false, obstacles := [])
      ensures preset == old(preset) && phase == old(phase)
    {
      playerX := PLAYER_START_X;
      obstacles := [];
      isBoosting := false;
    }

    method ResetCounters()
      modifies this
      ensures State() == old(State()).(progress := 0, rival := 0, score := 0, trackDistance := 0, lapCount := 0)
      ensures preset == old(preset) && phase == old(phase)
    {
      playerProgress, rivalProgress, score := 0, 0, 0;
      trackDistance, lapCount := 0, 0;
    }

    method ResetFinish()
      modifies this
      ensures State() == old(State()).(finishLineY := FINISH_HIDDEN_Y, finishVisible := false, finishTraveled := false)
      ensures preset == old(preset) && phase == old(phase)
    {
      finishLineY, finishVisible, finishTraveled := FINISH_HIDDEN_Y, false, false;
    }

    /** selection_screen, after every reset: the chosen level's preset,
        including its lap count and length. */
    method SelectLevel(level: Level)
      requires Valid() && phase == Menu
      modifies this
      ensures Valid() && phase == Ready && preset == PresetOf(level)
      ensures State() == old(State())
    {
      preset := PresetOf(level);
      phase := Ready;
    }

    /** main_loop's start, once a level is chosen: the obstacle speed begins at the preset's. */
    method StartRace()
      requires Valid() && phase == Ready
      modifies this
      ensures Valid() && phase == Racing && preset == old(preset)
      ensures State() == Initial(preset)
    {
      obstacleSpeed := preset.obstacleSpeed;
      phase := Racing;
    }

    /** A spawn timer event: one obstacle in the chosen lane of the road at the
        current track distance. */
    method Spawn(road: int -> int, lane: LaneIndex)
      requires Valid() && phase == Racing
      modifies this
      ensures Valid() && phase == Racing && preset == old(preset)
      ensures State() == SpawnObstacle(old(State()), road(old(trackDistance)), lane)
    {
      obstacles := obstacles + [NewObstacle(road(trackDistance), lane)];
    }

    /** One frame of main_loop after its events: the new state is Step of the old
        one, and a frame that ends the race moves to the game-over phase. */
    method Tick(keys: Keys, road: int -> int, ratchet: nat) returns (outcome: Outcome)
      requires Valid() && phase == Racing
      modifies this
      ensures Valid() && preset == old(preset)
      ensures Step(old(State()), preset, keys, road(old(trackDistance)), ratchet) == Stepped(State(), outcome)
      ensures phase == if outcome == Continue then Racing else Over(outcome)
    {
      var center := road(trackDistance);
      StepKeepsRunning(State(), preset, keys, center, ratchet);
      SteerCar(keys, center);
      outcome := PassObstacles();
      if outcome == Continue {
        Pacing(ratchet);
        outcome := Lap();
        if outcome == Continue {
          outcome := FinishMarker();
        }
      }
      if outcome != Continue {
        phase := Over(outcome);
      }
    }

    /** Boost, and the sideways movement limited by the road at the current distance. */
    method SteerCar(keys: Keys, center: int)
      modifies this
      ensures State() == Steered(old(State()), keys, center)
      ensures preset == old(preset) && phase == old(phase)
    {
      var speed := if keys.boost then BOOST_SPEED else PLAYER_SPEED;
      isBoosting := keys.boost;
      var layout := LanePositions(center);
      if keys.left && playerX > layout.left + MARGIN {
        playerX := playerX - speed;
      }
      if keys.right && playerX < layout.left + ROAD_WIDTH - CAR_W - MARGIN {
        playerX := playerX + speed;
      }
    }

    /** The obstacle loop and the rewards of each dodge. */
    method PassObstacles() returns (outcome: Outcome)
      modifies this
      ensures Dodge(old(State()), preset) == Stepped(State(), outcome)
      ensures preset == old(preset) && phase == old(phase)
    {
      var kept, dodged, hit := MoveObstacles(obstacles, obstacleSpeed, PlayerBox(playerX), OFF_SCREEN);
      obstacles := kept;
      score := score + dodged * DodgeScore(preset, isBoosting);
      playerProgress := playerProgress + dodged;
      trackDistance := trackDistance + dodged * DodgeDistance(isBoosting);
      outcome := if hit then Collision else Continue;
    }

    /** The rival's advance and the difficulty ratchet. */
    method Pacing(ratchet: nat)
      modifies this
      ensures State() == Pace(old(State()), preset, ratchet)
      ensures preset == old(preset) && phase == old(phase)
    {
      rivalProgress := rivalProgress + RivalGain(preset, isBoosting);
      if playerProgress != 0 && playerProgress % RATCHET_EVERY == 0 {
        obstacleSpeed := Min(obstacleSpeed + ratchet, preset.obstacleSpeed + SPEED_CAP);
      }
    }

    /** The lap wrap. */
    method Lap() returns (outcome: Outcome)
      modifies this
      ensures WrapLap(old(State()), preset) == Stepped(State(), outcome)
      ensures preset == old(preset) && phase == old(phase)
    {
      outcome := Continue;
      if trackDistance >= preset.lapDistance {
        lapCount := lapCount + 1;
        trackDistance := trackDistance - preset.lapDistance;
        score := score + preset.scoreBase * LAP_BONUS;
        if lapCount >= preset.lapsTotal {
          finishVisible, finishTraveled := true, true;
          outcome := LapsComplete;
        }
      }
    }

    /** The finish marker's appearance and its descent to the gate. */
    method FinishMarker() returns (outcome: Outcome)
      modifies this
      ensures Gate(ShowMarker(old(State()), preset)) == Stepped(State(), outcome)
      ensures preset == old(preset) && phase == old(phase)
    {
      if playerProgress >= preset.lapDistance / MARKER_DIVISOR && !finishVisible && lapCount >= preset.lapsTotal - 1 {
        finishLineY, finishVisible := FINISH_START_Y, true;
      }
      outcome := Continue;
      if finishVisible && !finishTraveled {
        finishLineY := finishLineY + FINISH_STEP;
        if finishLineY > GATE_Y {
          finishTraveled := true;
          outcome := FinishGate;
        }
      }
    }
  }
}
