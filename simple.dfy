/** The simple version (PY_NASCAR_EMAYLEO_VER_SIMPLE.py): one endless race on a
    fixed road with four fixed lanes. Each frame spawns the queued obstacles,
    steers the car, and runs the same obstacle pass as the circuit version with
    a fixed fall speed; a collision ends the program. */
module Simple {
  import opened Arcade
  import opened Traffic

  const WIDTH := 800
  const HEIGHT := 600
  const CAR_W := 60
  const CAR_H := 100
  const START_X := WIDTH / 2 - CAR_W / 2
  const PLAYER_Y := HEIGHT - CAR_H - 20
  const PLAYER_SPEED := 7
  const BOOST_SPEED := 12
  const OBSTACLE_SPEED := 10
  /** The x-positions of the four lanes. */
  const LANES: seq<int> := [220, 320, 420, 520]
  /** A left step needs x beyond LEFT_GUARD, a right step x below RIGHT_GUARD. */
  const LEFT_GUARD := 210
  const RIGHT_GUARD := WIDTH - CAR_W - 210

  /** The program's globals: the car's x, the obstacle list and the score. */
  datatype Road = Road(playerX: int, obstacles: seq<Rect>, score: nat)

  /** What one frame brings in: the spawn events of the frame (each with its
      random lane) and the keys held. */
  datatype Input = Input(spawns: seq<LaneIndex>, keys: Keys)

  /** A frame's result: the new globals and whether the car crashed. */
  datatype Framed = Framed(road: Road, crashed: bool)

  /** The state before the first frame. */
  function Start(): (r: Road)
    ensures r.obstacles == [] && r.score == 0 && r.playerX == 370
  {
    Road(START_X, [], 0)
  }

  function PlayerBox(x: int): Rect
  {
    Rect(x, PLAYER_Y, CAR_W, CAR_H)
  }

  /** A spawn event: one obstacle just above the screen in the chosen lane; nothing else changes. */
  function Spawned(s: Road, lane: LaneIndex): (r: Road)
    ensures |r.obstacles| == |s.obstacles| + 1 && r.obstacles[..|s.obstacles|] == s.obstacles
    ensures r.obstacles[|s.obstacles|] == Rect(LANES[lane], -100, 60, 100)
    ensures r.obstacles[|s.obstacles|].x in {220, 320, 420, 520}
    ensures r.(obstacles := s.obstacles) == s
  {
    s.(obstacles := s.obstacles + [NewObstacle(lane)])
  }

  /** The obstacle a spawn creates: car-sized, just above the screen, in the lane. */
  function NewObstacle(lane: LaneIndex): Rect
  {
    Rect(LANES[lane], -CAR_H, CAR_W, CAR_H)
  }

  /** The sideways speed: 12 exactly while a shift key is held, 7 otherwise. */
  function Speed(boost: bool): (r: int)
    ensures r == BOOST_SPEED <==> boost
    ensures r == 12 || r == 7
  {
    if boost then BOOST_SPEED else PLAYER_SPEED
  }

  /** Points per dodge: two when the frame's speed is the boost speed, one otherwise. */
  function Points(boost: bool): (r: nat)
    ensures r == (if boost then 2 else 1)
  {
    if Speed(boost) == BOOST_SPEED then 2 else 1
  }

  /** A step left: taken exactly when the key is held and x > 210, and then by exactly the speed. */
  function StepLeft(x: int, held: bool, boost: bool): (r: int)
    ensures r == x || r == x - Speed(boost)
    ensures r < x <==> held && x > LEFT_GUARD
  {
    if held && x > LEFT_GUARD then x - Speed(boost) else x
  }

  /** A step right: taken exactly when the key is held and x < 530, and then by exactly the speed. */
  function StepRight(x: int, held: bool, boost: bool): (r: int)
    ensures r == x || r == x + Speed(boost)
    ensures r > x <==> held && x < RIGHT_GUARD
  {
    if held && x < RIGHT_GUARD then x + Speed(boost) else x
  }

  /** Both arrow keys in turn, left first. */
  function Steer(x: int, keys: Keys): int
  {
    StepRight(StepLeft(x, keys.left, keys.boost), keys.right, keys.boost)
  }

  /** One frame after its events: steer, then the obstacle pass with the
      player's box at its new x; each obstacle beyond the bottom of the screen
      is removed and scored. */
  function FrameStep(s: Road, keys: Keys): Framed
  {
    var x := Steer(s.playerX, keys);
    var pass := Sweep(s.obstacles, OBSTACLE_SPEED, PlayerBox(x), HEIGHT);
    Framed(Road(x, pass.kept, s.score + pass.dodged * Points(keys.boost)), pass.hit)
  }

  /** The program frame by frame until a crash or until the inputs run out. */
  function Drive(s: Road, frames: seq<Input>): Framed
    decreases |frames|
  {
    if frames == [] then Framed(s, false)
    else
      var t := FrameStep(SpawnAll(s, frames[0].spawns), frames[0].keys);
      if t.crashed then t else Drive(t.road, frames[1..])
  }

  /** All spawn events of one frame, in order. */
  function SpawnAll(s: Road, lanes: seq<LaneIndex>): Road
    decreases |lanes|
  {
    if lanes == [] then s else SpawnAll(Spawned(s, lanes[0]), lanes[1..])
  }

  // ---------------------------------------------------------------------------
  // Properties

  /** The car stays in the band [199, 541]: the guards are tested before the
      step, so it can pass 210 or 530 by up to one step less a pixel, and no more. */
  lemma SteerKeepsBand(x: int, keys: Keys)
    requires LEFT_GUARD - BOOST_SPEED + 1 <= x <= RIGHT_GUARD + BOOST_SPEED - 1
    ensures 199 <= Steer(x, keys) <= 541
  {
  }

  /** The frame crashes exactly when some obstacle, lowered by 10, overlaps the
      player's box at its new x; otherwise the obstacles are exactly the lowered
      ones not beyond the bottom of the screen, in their old order, and the
      score grows by the points of each one removed. */
  lemma FrameObstacles(s: Road, keys: Keys)
    ensures var t := FrameStep(s, keys);
      var ms := Moved(s.obstacles, OBSTACLE_SPEED);
      (t.crashed <==> Hits(ms, PlayerBox(t.road.playerX))) &&
      (!t.crashed ==>
         t.road.obstacles == Kept(ms, HEIGHT) &&
         t.road.score == s.score + Beyond(ms, HEIGHT) * Points(keys.boost) &&
         (forall r :: r in t.road.obstacles <==> r in ms && r.y <= HEIGHT))
  {
    var x := Steer(s.playerX, keys);
    var ms := Moved(s.obstacles, OBSTACLE_SPEED);
    SweepHitIff(s.obstacles, OBSTACLE_SPEED, PlayerBox(x), HEIGHT);
    if !Hits(ms, PlayerBox(x)) {
      SweepClear(s.obstacles, OBSTACLE_SPEED, PlayerBox(x), HEIGHT);
      forall r ensures r in Kept(ms, HEIGHT) <==> r in ms && r.y <= HEIGHT {
        KeptMembers(ms, HEIGHT, r);
      }
    }
  }

  /** Every frame that does not crash leaves every kept obstacle on screen or above it. */
  lemma FrameKeepsOnScreen(s: Road, keys: Keys)
    ensures var t := FrameStep(s, keys);
      !t.crashed ==> forall i :: 0 <= i < |t.road.obstacles| ==> t.road.obstacles[i].y <= HEIGHT
  {
    FrameObstacles(s, keys);
  }

  /** Over a whole drive the score never decreases and the car never leaves the
      band [199, 541], starting from anywhere inside it. */
  lemma {:induction false} DriveBounds(s: Road, frames: seq<Input>)
    requires 199 <= s.playerX <= 541
    ensures var t := Drive(s, frames);
      t.road.score >= s.score && 199 <= t.road.playerX <= 541
    decreases |frames|
  {
    if frames != [] {
      var s1 := SpawnAll(s, frames[0].spawns);
      SpawnAllKeeps(s, frames[0].spawns);
      SteerKeepsBand(s1.playerX, frames[0].keys);
      var t := FrameStep(s1, frames[0].keys);
      if !t.crashed {
        DriveBounds(t.road, frames[1..]);
      }
    }
  }

  /** Spawning only appends to the obstacle list: the obstacles already there
      stay in front, followed by one new obstacle per spawn event, in order. */
  lemma {:induction false} SpawnAllKeeps(s: Road, lanes: seq<LaneIndex>)
    ensures SpawnAll(s, lanes).(obstacles := s.obstacles) == s
    ensures |SpawnAll(s, lanes).obstacles| == |s.obstacles| + |lanes|
    ensures SpawnAll(s, lanes).obstacles[..|s.obstacles|] == s.obstacles
    ensures forall j :: 0 <= j < |lanes| ==>
      SpawnAll(s, lanes).obstacles[|s.obstacles| + j] == NewObstacle(lanes[j])
    decreases |lanes|
  {
    if lanes != [] {
      var s1 := Spawned(s, lanes[0]);
      SpawnAllKeeps(s1, lanes[1..]);
      var t := SpawnAll(s1, lanes[1..]);
      assert t.obstacles[..|s.obstacles|] == t.obstacles[..|s1.obstacles|][..|s.obstacles|];
      forall j | 0 <= j < |lanes|
        ensures t.obstacles[|s.obstacles| + j] == NewObstacle(lanes[j])
      {
        if j == 0 {
          assert t.obstacles[|s.obstacles|] == t.obstacles[..|s1.obstacles|][|s.obstacles|];
        } else {
          assert lanes[1..][j - 1] == lanes[j];
        }
      }
    }
  }

  /** A dodge with and without boost: an obstacle at y = 595 in the first lane
      leaves the screen this frame and is worth 1 point, or 2 while boosting. */
  lemma DodgeExamples()
    ensures FrameStep(Road(START_X, [Rect(220, 595, 60, 100)], 0), Keys(false, false, false))
         == Framed(Road(START_X, [], 1), false)
    ensures FrameStep(Road(START_X, [Rect(220, 595, 60, 100)], 0), Keys(false, false, true))
         == Framed(Road(START_X, [], 2), false)
  {
    var o := Rect(220, 595, 60, 100);
    assert [o][..0] == [];
  }

  // ---------------------------------------------------------------------------
  // The program's globals

  class Highway {
    var playerX: int
    var obstacles: seq<Rect>
    var score: nat

    function State(): Road
      reads this
    {
      Road(playerX, obstacles, score)
    }

    /** The globals before the first frame. */
    constructor ()
      ensures State() == Start()
    {
      playerX, obstacles, score := START_X, [], 0;
    }

    /** The SPAWN timer event with its random lane. */
    method Spawn(lane: LaneIndex)
      modifies this
      ensures State() == Spawned(old(State()), lane)
    {
      obstacles := obstacles + [NewObstacle(lane)];
    }

    /** The rest of a frame: steering, then the obstacle loop; `crashed` is the
        collision that makes the program quit. */
    method Frame(keys: Keys) returns (crashed: bool)
      modifies this
      ensures Framed(State(), crashed) == FrameStep(old(State()), keys)
    {
      var speed := if keys.boost then BOOST_SPEED else PLAYER_SPEED;
      var x := playerX;
      if keys.left && x > LEFT_GUARD {
        x := x - speed;
      }
      if keys.right && x < RIGHT_GUARD {
        x := x + speed;
      }
      var kept, dodged, hit := MoveObstacles(obstacles, OBSTACLE_SPEED, PlayerBox(x), HEIGHT);
      playerX, obstacles := x, kept;
      score := score + dodged * (if speed == BOOST_SPEED then 2 else 1);
      crashed := hit;
    }
  }
}
