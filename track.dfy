/** The fixed rules of the circuit version (PY_NASCAR_EMAYLEO.py): its screen and
    car constants, the three level presets, the lane geometry for a given road
    centre, and the bounded sideways steering. */
module Track {
  import opened Arcade

  const WIDTH := 900
  const HEIGHT := 600
  const ROAD_WIDTH := 520
  /** Offsets of the four lanes from the road's left edge. */
  const LANE_OFFSETS: seq<int> := [40, 160, 280, 400]
  const CAR_W := 60
  const CAR_H := 100
  /** How close to either road edge the steering guard lets the car come. */
  const MARGIN := 6

  const PLAYER_START_X := WIDTH / 2 - CAR_W / 2
  const PLAYER_Y := HEIGHT - CAR_H - 20
  const PLAYER_SPEED := 7
  const BOOST_SPEED := 13

  datatype Level = Easy | Medium | Extreme

  /** One level's parameters. The source's fractional values are kept exactly in
      fixed point: rivalBase in thousandths, rivalMultiplier in hundredths. */
  datatype Preset = Preset(
    spawnMs: nat,
    obstacleSpeed: nat,
    rivalBase: nat,
    visibility: nat,
    scoreBase: nat,
    rivalMultiplier: nat,
    curveAmp: nat,
    lapDistance: nat,
    lapsTotal: nat)

  /** The preset chosen by key 1, 2 or 3 on the selection screen. */
  function PresetOf(level: Level): Preset
  {
    match level
    case Easy => Preset(1400, 8, 250, 30, 12, 80, 100, 1600, 3)
    case Medium => Preset(1000, 10, 400, 60, 15, 100, 160, 2000, 3)
    case Extreme => Preset(700, 13, 600, 110, 18, 125, 220, 2400, 4)
  }

  /** What the race simulation relies on in a preset: a positive lap length and at
      least one lap. */
  predicate WellFormed(p: Preset)
  {
    p.lapDistance > 0 && p.lapsTotal >= 1
  }

  /** Every preset is well formed, and the levels get strictly harder: faster
      obstacles spawned more often, a faster rival, more points per dodge and
      longer laps. */
  lemma PresetsOrdered()
    ensures forall l :: WellFormed(PresetOf(l))
    ensures PresetOf(Easy).obstacleSpeed < PresetOf(Medium).obstacleSpeed < PresetOf(Extreme).obstacleSpeed
    ensures PresetOf(Easy).spawnMs > PresetOf(Medium).spawnMs > PresetOf(Extreme).spawnMs
    ensures PresetOf(Easy).rivalBase < PresetOf(Medium).rivalBase < PresetOf(Extreme).rivalBase
    ensures PresetOf(Easy).scoreBase < PresetOf(Medium).scoreBase < PresetOf(Extreme).scoreBase
    ensures PresetOf(Easy).lapDistance < PresetOf(Medium).lapDistance < PresetOf(Extreme).lapDistance
  {
  }

  /** The road around a given centre: the x-position of each lane, the road's left
      edge and its centre. */
  datatype Layout = Layout(lanes: seq<int>, left: int, center: int)

  /** compute_lane_positions, given the road centre that get_road_center_x yields
      for the current track distance. */
  function LanePositions(center: int): (r: Layout)
    ensures r.center == center && r.left == center - ROAD_WIDTH / 2
    ensures |r.lanes| == |LANE_OFFSETS| == 4
    ensures forall i :: 0 <= i < 4 ==> r.lanes[i] - r.left == LANE_OFFSETS[i]
    ensures forall i, j :: 0 <= i < j < 4 ==> r.lanes[i] + CAR_W < r.lanes[j]
    ensures forall i :: 0 <= i < 4 ==> r.left < r.lanes[i] && r.lanes[i] + CAR_W < r.left + ROAD_WIDTH
  {
    var left := center - ROAD_WIDTH / 2;
    Layout(seq(|LANE_OFFSETS|, i requires 0 <= i < |LANE_OFFSETS| => left + LANE_OFFSETS[i]), left, center)
  }

  /** The sideways speed this frame: boost_speed while a shift key is held. */
  function Speed(boost: bool): int
  {
    if boost then BOOST_SPEED else PLAYER_SPEED
  }

  /** The leftmost x from which the guard still allows a step to the left is
      left + MARGIN + 1; the rightmost for a step to the right is RightLimit(left) - 1. */
  function RightLimit(left: int): int
  {
    left + ROAD_WIDTH - CAR_W - MARGIN
  }

  /** A step left: taken exactly when the key is held and the car is right of the
      margin, and then exactly the current speed. */
  function StepLeft(x: int, held: bool, left: int, boost: bool): (r: int)
    ensures r == x || r == x - Speed(boost)
    ensures r < x <==> held && x > left + MARGIN
  {
    if held && x > left + MARGIN then x - Speed(boost) else x
  }

  /** A step right: taken exactly when the key is held and the car is left of the
      right margin, and then exactly the current speed. */
  function StepRight(x: int, held: bool, left: int, boost: bool): (r: int)
    ensures r == x || r == x + Speed(boost)
    ensures r > x <==> held && x < RightLimit(left)
  {
    if held && x < RightLimit(left) then x + Speed(boost) else x
  }

  /** Both arrow keys are tested in turn, left first; the right step sees the
      position after the left one. */
  function Steer(x: int, keys: Keys, left: int): int
  {
    StepRight(StepLeft(x, keys.left, left, keys.boost), keys.right, left, keys.boost)
  }

  /** With no arrow key held the car does not move sideways. */
  lemma SteerIdle(x: int, left: int, boost: bool)
    ensures Steer(x, Keys(false, false, boost), left) == x
  {
  }

  /** Steering never carries the car more than one step beyond the margins of the
      road it is on: the guards are tested before the step, so the car can end up
      to Speed - 1 pixels past a margin, and never further. */
  lemma SteerBounds(x: int, keys: Keys, left: int)
    ensures Steer(x, keys, left) >= Min(x, left + MARGIN + 1 - Speed(keys.boost))
    ensures Steer(x, keys, left) <= Max(x, RightLimit(left) - 1 + Speed(keys.boost))
  {
  }

  /** On a road that does not move, the band [left - 6, RightLimit(left) + 12] is closed
      under steering: once inside it, the car stays inside it. */
  lemma SteerKeepsBand(x: int, keys: Keys, left: int)
    requires left - MARGIN <= x <= RightLimit(left) + BOOST_SPEED - 1
    ensures left - MARGIN <= Steer(x, keys, left) <= RightLimit(left) + BOOST_SPEED - 1
  {
    SteerBounds(x, keys, left);
  }

  function Min(a: int, b: int): int { if a <= b then a else b }

  function Max(a: int, b: int): int { if a <= b then b else a }
}
