/** Player translation and rotation gated by validity, and the greedy four-direction
    steering of enemies. Headings come in as unit vectors (cos, sin): the model does
    not compute trigonometry. */
module Movement {
  import opened Entities
  import opened Geometry

  datatype MoveDir = Forward | Backward
  datatype TurnDir = Left | Right

  /** The displacement of one move key press along the heading `h` = (cos, sin). */
  function MoveDelta(h: Vec, d: MoveDir): Vec
  {
    match d
    case Forward => Vec(h.x * MoveStep, h.y * MoveStep)
    case Backward => Vec(-h.x * MoveStep, -h.y * MoveStep)
  }

  /** Where the player ends up after trying the displacement `delta` from `p`: the x
      step is committed if the position with the new x and the old y is valid, and
      then the y step is committed if the position with the current x and the new y
      is valid. */
  function MoveTarget(trees: seq<Tree>, p: Vec, delta: Vec): (r: Vec)
    ensures r.x == p.x || r.x == p.x + delta.x
    ensures r.y == p.y || r.y == p.y + delta.y
    ensures PositionValidForPlayer(trees, Vec(p.x + delta.x, p.y)) ==> r.x == p.x + delta.x
    ensures !PositionValidForPlayer(trees, Vec(p.x + delta.x, p.y)) ==> r.x == p.x
    ensures PositionValidForPlayer(trees, Vec(r.x, p.y + delta.y)) ==> r.y == p.y + delta.y
    ensures !PositionValidForPlayer(trees, Vec(r.x, p.y + delta.y)) ==> r.y == p.y
    ensures PositionValidForPlayer(trees, p) ==> PositionValidForPlayer(trees, r)
  {
    var x := if PositionValidForPlayer(trees, Vec(p.x + delta.x, p.y)) then p.x + delta.x else p.x;
    var y := if PositionValidForPlayer(trees, Vec(x, p.y + delta.y)) then p.y + delta.y else p.y;
    Vec(x, y)
  }

  /** The heading in degrees after one rotation key press. */
  function TurnedAngle(angle: real, d: TurnDir): real
  {
    match d
    case Left => angle + TurnStep
    case Right => angle - TurnStep
  }

  /** The gun tip for a player at `p` aiming along the unit vector `h`. */
  function GunTip(p: Vec, h: Vec): Vec
  {
    Vec(p.x + h.x * GunLength, p.y + h.y * GunLength)
  }

  // ---------------------------------------------------------------- enemy steering

  /** The four candidate directions for a unit vector `n` towards the player, in
      priority order: approach, left perpendicular, right perpendicular, retreat. */
  function Candidates(n: Vec): seq<Vec>
  {
    [n, Vec(-n.y, n.x), Vec(n.y, -n.x), Vec(-n.x, -n.y)]
  }

  function Destination(p: Vec, dir: Vec, speed: real): Vec
  {
    Vec(p.x + dir.x * speed, p.y + dir.y * speed)
  }

  /** The index of the first direction whose destination is a valid enemy position,
      or |dirs| when there is none. */
  function FirstOpen(trees: seq<Tree>, p: Vec, dirs: seq<Vec>, speed: real, radius: real): (k: nat)
    ensures k <= |dirs|
    ensures k < |dirs| ==> PositionValidForEnemy(trees, Destination(p, dirs[k], speed), radius)
    ensures forall j :: 0 <= j < k ==> !PositionValidForEnemy(trees, Destination(p, dirs[j], speed), radius)
  {
    if dirs == [] then 0
    else if PositionValidForEnemy(trees, Destination(p, dirs[0], speed), radius) then 0
    else 1 + FirstOpen(trees, p, dirs[1..], speed, radius)
  }

  /** One steering step of an enemy at `p` with body radius `radius`: it stays in
      place when no candidate is valid and otherwise moves to the first valid one. */
  function Steer(trees: seq<Tree>, p: Vec, n: Vec, speed: real, radius: real): (r: Vec)
    ensures (r == p && forall j :: 0 <= j < 4 ==>
               !PositionValidForEnemy(trees, Destination(p, Candidates(n)[j], speed), radius))
         || (exists k :: 0 <= k < 4 && r == Destination(p, Candidates(n)[k], speed) &&
               PositionValidForEnemy(trees, r, radius) &&
               forall j :: 0 <= j < k ==>
                 !PositionValidForEnemy(trees, Destination(p, Candidates(n)[j], speed), radius))
  {
    var k := FirstOpen(trees, p, Candidates(n), speed, radius);
    if k < 4 then Destination(p, Candidates(n)[k], speed) else p
  }
}
