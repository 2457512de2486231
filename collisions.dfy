/** The push-apart of overlapping bodies: first the player against each enemy in
    list order, then every pair of enemies in index order. The distance between two
    centres is supplied by `hypot`, which stands for math.hypot. */
module Collisions {
  import opened Entities
  import opened Geometry

  /** Each body of an overlapping pair moves by 0.51 of the overlap. */
  const PushFactor: real := 0.51

  datatype Pair = Pair(a: Vec, b: Vec)

  /** The push of body `a` away from body `b` when their distance `d` is positive and
      below `minDist`: both move along the line of centres, by the same amount in
      opposite directions. */
  function Separate(a: Vec, b: Vec, minDist: real, d: real): (r: Pair)
    ensures r.a.x + r.b.x == a.x + b.x && r.a.y + r.b.y == a.y + b.y
    ensures !(0.0 < d < minDist) ==> r == Pair(a, b)
  {
    if 0.0 < d < minDist then
      // the unit vector (a - b) / d scaled by the push, with one division
      var f := (minDist - d) * PushFactor / d;
      var shift := Vec((a.x - b.x) * f, (a.y - b.y) * f);
      Pair(Vec(a.x + shift.x, a.y + shift.y), Vec(b.x - shift.x, b.y - shift.y))
    else Pair(a, b)
  }

  /** When `d` is the true distance, a push leaves the two bodies strictly farther
      apart than `minDist`: the combined move is 1.02 times the overlap. */
  lemma SeparateClears(a: Vec, b: Vec, minDist: real, d: real)
    requires 0.0 < d < minDist && d * d == DistSq(a, b)
    ensures DistSq(Separate(a, b, minDist, d).a, Separate(a, b, minDist, d).b) > minDist * minDist
  {
    var r := Separate(a, b, minDist, d);
    var push := (minDist - d) * PushFactor;
    var f := push / d;
    var k := 1.0 + 2.0 * f;
    var dx := a.x - b.x;
    var dy := a.y - b.y;
    assert r.a.x - r.b.x == dx * k;
    assert r.a.y - r.b.y == dy * k;
    ScaledSquares(dx, dy, k);
    assert DistSq(r.a, r.b) == k * k * (dx * dx + dy * dy);
    assert k * d == d + 2.0 * push by { StretchTimes(d, push); }
    assert k * k * (d * d) == (k * d) * (k * d);
    PositiveSquareGrows(k * d, minDist);
  }

  lemma StretchTimes(d: real, push: real)
    requires d > 0.0
    ensures (1.0 + 2.0 * (push / d)) * d == d + 2.0 * push
  {
  }

  lemma ScaledSquares(x: real, y: real, k: real)
    ensures (x * k) * (x * k) + (y * k) * (y * k) == k * k * (x * x + y * y)
  {
  }

  lemma PositiveSquareGrows(x: real, y: real)
    requires 0.0 < y < x
    ensures x * x > y * y
  {
  }

  /** Sum of the enemy centres: pushes move mass around but conserve it. */
  function SumPos(es: seq<Enemy>): Vec
  {
    if es == [] then Vec(0.0, 0.0)
    else
      var s := SumPos(es[..|es| - 1]);
      Vec(s.x + es[|es| - 1].pos.x, s.y + es[|es| - 1].pos.y)
  }

  lemma {:induction false} SumPosMove(es: seq<Enemy>, k: nat, v: Vec)
    requires k < |es|
    ensures SumPos(es[k := es[k].(pos := v)]).x == SumPos(es).x - es[k].pos.x + v.x
    ensures SumPos(es[k := es[k].(pos := v)]).y == SumPos(es).y - es[k].pos.y + v.y
  {
    var es' := es[k := es[k].(pos := v)];
    var n := |es| - 1;
    assert es'[..n] == if k < n then es[..n][k := es[k].(pos := v)] else es[..n];
    if k < n {
      SumPosMove(es[..n], k, v);
    }
  }

  /** Two enemies differ at most in position. */
  predicate MovedOnly(es: seq<Enemy>, es': seq<Enemy>)
  {
    |es'| == |es| && forall k :: 0 <= k < |es| ==> es'[k] == es[k].(pos := es'[k].pos)
  }

  lemma MovedOnlyTrans(es: seq<Enemy>, es1: seq<Enemy>, es2: seq<Enemy>)
    requires MovedOnly(es, es1) && MovedOnly(es1, es2)
    ensures MovedOnly(es, es2)
  {
  }

  lemma MovedOnlyOne(es: seq<Enemy>, k: nat, v: Vec)
    requires k < |es|
    ensures MovedOnly(es, es[k := es[k].(pos := v)])
  {
  }

  /** The player against the enemies from index `i` on. */
  function PlayerPushes(player: Vec, es: seq<Enemy>, i: nat, hypot: (real, real) -> real): (Vec, seq<Enemy>)
    decreases |es| - i
  {
    if i >= |es| then (player, es)
    else
      var e := es[i];
      var d := hypot(player.x - e.pos.x, player.y - e.pos.y);
      var r := Separate(player, e.pos, PlayerRadius + Stats(e.kind).radius, d);
      PlayerPushes(r.a, es[i := e.(pos := r.b)], i + 1, hypot)
  }

  /** The pairs (i, j), (i, j + 1), ..., then all pairs of later first index. */
  function PairPushes(es: seq<Enemy>, i: nat, j: nat, hypot: (real, real) -> real): seq<Enemy>
    requires i < j <= |es| + 1
    decreases |es| + 1 - i, |es| + 1 - j
  {
    if i >= |es| then es
    else if j >= |es| then PairPushes(es, i + 1, i + 2, hypot)
    else
      PairPushes(PushPair(es, i, j, hypot), i, j + 1, hypot)
  }

  /** The push of the pair (i, j): the two enemies take the positions `Separate` gives them
      for their summed radii, every other enemy is untouched, and the position sum stays. */
  function PushPair(es: seq<Enemy>, i: nat, j: nat, hypot: (real, real) -> real): (r: seq<Enemy>)
    requires i < j < |es|
    ensures |r| == |es|
    ensures var p := Separate(es[i].pos, es[j].pos, Stats(es[i].kind).radius + Stats(es[j].kind).radius,
                              hypot(es[i].pos.x - es[j].pos.x, es[i].pos.y - es[j].pos.y));
      r[i] == es[i].(pos := p.a) && r[j] == es[j].(pos := p.b)
    ensures forall k :: 0 <= k < |es| && k != i && k != j ==> r[k] == es[k]
    ensures MovedOnly(es, r) && SumPos(r) == SumPos(es)
  {
    var e1 := es[i];
    var e2 := es[j];
    var d := hypot(e1.pos.x - e2.pos.x, e1.pos.y - e2.pos.y);
    var p := Separate(e1.pos, e2.pos, Stats(e1.kind).radius + Stats(e2.kind).radius, d);
    SwapConserves(es, i, j, p.a, p.b);
    es[i := e1.(pos := p.a)][j := e2.(pos := p.b)]
  }

  /** The player pass changes only positions and conserves the sum of all centres,
      the player's included. */
  lemma {:induction false} PlayerPushesConserve(player: Vec, es: seq<Enemy>, i: nat, hypot: (real, real) -> real)
    ensures MovedOnly(es, PlayerPushes(player, es, i, hypot).1)
    ensures PlayerPushes(player, es, i, hypot).0.x + SumPos(PlayerPushes(player, es, i, hypot).1).x == player.x + SumPos(es).x
    ensures PlayerPushes(player, es, i, hypot).0.y + SumPos(PlayerPushes(player, es, i, hypot).1).y == player.y + SumPos(es).y
    decreases |es| - i
  {
    if i < |es| {
      var e := es[i];
      var d := hypot(player.x - e.pos.x, player.y - e.pos.y);
      var r := Separate(player, e.pos, PlayerRadius + Stats(e.kind).radius, d);
      var es1 := es[i := e.(pos := r.b)];
      assert PlayerPushes(player, es, i, hypot) == PlayerPushes(r.a, es1, i + 1, hypot);
      SumPosMove(es, i, r.b);
      MovedOnlyOne(es, i, r.b);
      PlayerPushesConserve(r.a, es1, i + 1, hypot);
      MovedOnlyTrans(es, es1, PlayerPushes(r.a, es1, i + 1, hypot).1);
    }
  }

  /** The pair pass changes only positions. */
  lemma {:induction false} PairPushesMoveOnly(es: seq<Enemy>, i: nat, j: nat, hypot: (real, real) -> real)
    requires i < j <= |es| + 1
    ensures MovedOnly(es, PairPushes(es, i, j, hypot))
    decreases |es| + 1 - i, |es| + 1 - j
  {
    if i >= |es| {
    } else if j >= |es| {
      PairPushesMoveOnly(es, i + 1, i + 2, hypot);
    } else {
      var es1 := PushPair(es, i, j, hypot);
      PairPushesMoveOnly(es1, i, j + 1, hypot);
      MovedOnlyTrans(es, es1, PairPushes(es1, i, j + 1, hypot));
    }
  }

  /** Moving two enemies so that their centres keep their sum keeps the total. */
  lemma SwapConserves(es: seq<Enemy>, i: nat, j: nat, a: Vec, b: Vec)
    requires i < j < |es|
    requires a.x + b.x == es[i].pos.x + es[j].pos.x && a.y + b.y == es[i].pos.y + es[j].pos.y
    ensures SumPos(es[i := es[i].(pos := a)][j := es[j].(pos := b)]) == SumPos(es)
  {
    var es1 := es[i := es[i].(pos := a)];
    SumPosMove(es, i, a);
    assert es1[j] == es[j];
    SumPosMove(es1, j, b);
  }

  /** The pair pass conserves the sum of the centres. */
  lemma {:induction false} PairPushesConserve(es: seq<Enemy>, i: nat, j: nat, hypot: (real, real) -> real)
    requires i < j <= |es| + 1
    ensures SumPos(PairPushes(es, i, j, hypot)) == SumPos(es)
    decreases |es| + 1 - i, |es| + 1 - j
  {
    if i >= |es| {
    } else if j >= |es| {
      PairPushesConserve(es, i + 1, i + 2, hypot);
    } else {
      PairPushesConserve(PushPair(es, i, j, hypot), i, j + 1, hypot);
    }
  }

  /** The player pass as a loop over the enemy list. */
  method SeparatePlayer(player: Vec, enemies: seq<Enemy>, hypot: (real, real) -> real) returns (p: Vec, es: seq<Enemy>)
    ensures (p, es) == PlayerPushes(player, enemies, 0, hypot)
  {
    p, es := player, enemies;
    var i := 0;
    while i < |es|
      invariant 0 <= i <= |es|
      invariant PlayerPushes(p, es, i, hypot) == PlayerPushes(player, enemies, 0, hypot)
      decreases |es| - i
    {
      var e := es[i];
      var d := hypot(p.x - e.pos.x, p.y - e.pos.y);
      var r := Separate(p, e.pos, PlayerRadius + Stats(e.kind).radius, d);
      p := r.a;
      es := es[i := e.(pos := r.b)];
      i := i + 1;
    }
  }

  /** The pair pass as the nested loops over i < j. */
  method SeparatePairs(enemies: seq<Enemy>, hypot: (real, real) -> real) returns (es: seq<Enemy>)
    ensures es == PairPushes(enemies, 0, 1, hypot)
  {
    es := enemies;
    var i := 0;
    while i < |es|
      invariant |es| == |enemies| && 0 <= i <= |es|
      invariant PairPushes(es, i, i + 1, hypot) == PairPushes(enemies, 0, 1, hypot)
    {
      var j := i + 1;
      while j < |es|
        invariant |es| == |enemies| && i + 1 <= j <= |es|
        invariant PairPushes(es, i, j, hypot) == PairPushes(enemies, 0, 1, hypot)
      {
        es := PushPair(es, i, j, hypot);
        j := j + 1;
      }
      i := i + 1;
    }
  }
}
