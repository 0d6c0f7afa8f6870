/** The state of one `OscBall` as a value, and what each of its methods
    does to that state. The class `Sketch.OscBall` is proved against these
    functions; the lemmas here state what the sketch relies on: the offset
    `r` stays in [-distB, distA], `sgn` stays in {1, -1}, a burst moves `r`
    from `rStart` towards `rTarget`, and the position is always the anchor
    plus the direction scaled by `r`. */
module BallSpec {
  import opened Numeric

  /** Step of the steady oscillation, in canvas units per tick. */
  const SPEED: real := 2.5

  datatype Option<T> = None | Some(value: T)

  datatype Point = Point(x: real, y: real)

  /** The draws behind one roll of a ball's motion: the direction
      `(cos a, sin a)` of a random angle `a`, and the unit draws behind
      `random(0.10, 0.30)`, `random(1.0, 1.3)`, `random(0.8, 1.1)`,
      `random(-distB, distA)` and the coin `random() < 0.5`. */
  datatype Seed = Seed(dirX: real, dirY: real, baseU: real, outU: real, inU: real, rU: real, coinU: real)

  /** The draws behind one new ball: the unit draw behind its diameter,
      then those behind its motion. */
  datatype Spawn = Spawn(dU: real, seed: Seed)

  predicate SeedOk(s: Seed)
  {
    Norm2(s.dirX, s.dirY) == 1.0 &&
    IsUnit(s.baseU) && IsUnit(s.outU) && IsUnit(s.inU) && IsUnit(s.rU) && IsUnit(s.coinU)
  }

  predicate SpawnOk(sp: Spawn)
  {
    IsUnit(sp.dU) && SeedOk(sp.seed)
  }

  /** The fields of an `OscBall`. `parent` is the index of the parent in
      the list of big balls; `rStart` and `rTarget` are the burst snapshot. */
  datatype BallState = BallState(
    isBig: bool, parent: Option<nat>, d: real,
    dirX: real, dirY: real, distA: real, distB: real,
    r: real, sgn: int, speed: real, x: real, y: real,
    rStart: real, rTarget: real)

  predicate InRange(s: BallState)
  {
    -s.distB <= s.r <= s.distA
  }

  /** What every ball satisfies at all times. */
  predicate WellFormed(s: BallState)
  {
    s.d > 0.0 && s.distA > 0.0 && s.distB > 0.0 && InRange(s) &&
    (s.sgn == 1 || s.sgn == -1) && s.speed == SPEED &&
    Norm2(s.dirX, s.dirY) == 1.0
  }

  /** What every ball satisfies between `startBurst` and `finishBurst`. */
  predicate Bursting(s: BallState)
  {
    s.rTarget == s.distA && -s.distB <= s.rStart <= s.distA
  }

  predicate PlacedAt(s: BallState, a: Point)
  {
    s.x == a.x + Scale(s.dirX, s.r) && s.y == a.y + Scale(s.dirY, s.r)
  }

  /** `updatePos`, once the anchor (the canvas centre for a big ball, the
      parent's position for a small one) is known. */
  function Positioned(s: BallState, a: Point): (p: BallState)
    ensures PlacedAt(p, a)
    ensures p.(x := s.x, y := s.y) == s
  {
    s.(x := a.x + Scale(s.dirX, s.r), y := a.y + Scale(s.dirY, s.r))
  }

  /** The part shared by the constructor and `reseed`: a new direction,
      range, offset and sign. */
  function Rolled(s: BallState, seed: Seed, minSide: real): BallState
  {
    var base := Scale(minSide, Uniform(seed.baseU, 0.10, 0.30));
    var distA := Scale(base, Uniform(seed.outU, 1.0, 1.3));
    var distB := Scale(base, Uniform(seed.inU, 0.8, 1.1));
    s.(dirX := seed.dirX, dirY := seed.dirY, distA := distA, distB := distB,
       r := Uniform(seed.rU, -distB, distA),
       sgn := if seed.coinU < 0.5 then 1 else -1)
  }

  /** The diameter the constructor draws: a share of the shorter canvas
      side for a big ball, a share of the parent's diameter for a small one. */
  function Diameter(isBig: bool, parentD: real, minSide: real, dU: real): real
  {
    if isBig then Scale(minSide, Uniform(dU, 0.15, 0.22))
    else Scale(parentD, Uniform(dU, 1.0 / 2.0, 3.0 / 4.0))
  }

  /** `new OscBall(isBig, parent)`. The burst snapshot is undefined until
      `startBurst`; it starts at 0 here. */
  function NewBall(isBig: bool, parent: Option<nat>, parentD: real, minSide: real, sp: Spawn, a: Point): BallState
  {
    var blank := BallState(isBig, parent, Diameter(isBig, parentD, minSide, sp.dU),
                           0.0, 0.0, 0.0, 0.0, 0.0, 1, SPEED, 0.0, 0.0, 0.0, 0.0);
    Positioned(Rolled(blank, sp.seed, minSide), a)
  }

  /** `reseed()`. */
  function Reseeded(s: BallState, seed: Seed, minSide: real, a: Point): BallState
  {
    Positioned(Rolled(s, seed, minSide), a)
  }

  /** `startBurst()`. */
  function Started(s: BallState): BallState
  {
    s.(rStart := s.r, rTarget := s.distA)
  }

  /** `updateBurst(t)`. */
  function BurstStep(s: BallState, t: real, a: Point): BallState
  {
    Positioned(s.(r := Lerp(s.rStart, s.rTarget, EaseOutCubic(t))), a)
  }

  /** `finishBurst()`. */
  function Finished(s: BallState, a: Point): BallState
  {
    Positioned(s.(r := s.distA, sgn := -1), a)
  }

  /** The unclamped step of `updateOsc`: `r + sgn * speed`. */
  function Next(s: BallState): real
  {
    s.r + Scale(s.sgn as real, s.speed)
  }

  /** The step `updateOsc` proposes, clamped to the range, and the sign
      that goes with it. */
  function Proposal(s: BallState): (real, int)
  {
    var next := Next(s);
    if next > s.distA then (s.distA, -1)
    else if next < -s.distB then (-s.distB, 1)
    else (next, s.sgn)
  }

  /** `updateOsc()`: ease a quarter of the way towards the proposal. */
  function OscStep(s: BallState, a: Point): BallState
  {
    var p := Proposal(s);
    Positioned(s.(r := Lerp(s.r, p.0, 0.25), sgn := p.1), a)
  }

  /** The per-ball passes of `draw` and `mousePressed`. */
  datatype Move = Osc | Burst(t: real) | Finish | Start

  function Moved(s: BallState, m: Move, a: Point): (p: BallState)
    ensures p.isBig == s.isBig && p.parent == s.parent && p.d == s.d
  {
    match m
    case Osc => OscStep(s, a)
    case Burst(t) => BurstStep(s, t, a)
    case Finish => Finished(s, a)
    case Start => Started(s)
  }

  /** A move the sketch can make on `s`: a burst step only between
      `startBurst` and `finishBurst`, and only with `t` in [0, 1]. */
  predicate MoveOk(s: BallState, m: Move)
  {
    m.Burst? ==> Bursting(s) && 0.0 <= m.t <= 1.0
  }

  // ---------------------------------------------------------------------
  // Properties

  /** A roll from in-range draws gives a well-formed ball and touches only
      the direction, the range, the offset and the sign. */
  lemma RolledWellFormed(s: BallState, seed: Seed, minSide: real)
    requires SeedOk(seed) && minSide > 0.0 && s.d > 0.0 && s.speed == SPEED
    ensures WellFormed(Rolled(s, seed, minSide))
    ensures var p := Rolled(s, seed, minSide);
      p.isBig == s.isBig && p.parent == s.parent && p.d == s.d && p.speed == s.speed &&
      p.rStart == s.rStart && p.rTarget == s.rTarget && p.x == s.x && p.y == s.y
  {
    UniformInRange(seed.baseU, 0.10, 0.30);
    UniformInRange(seed.outU, 1.0, 1.3);
    UniformInRange(seed.inU, 0.8, 1.1);
    var base := Scale(minSide, Uniform(seed.baseU, 0.10, 0.30));
    ScalePos(minSide, Uniform(seed.baseU, 0.10, 0.30));
    var distA := Scale(base, Uniform(seed.outU, 1.0, 1.3));
    var distB := Scale(base, Uniform(seed.inU, 0.8, 1.1));
    ScalePos(base, Uniform(seed.outU, 1.0, 1.3));
    ScalePos(base, Uniform(seed.inU, 0.8, 1.1));
    UniformInRange(seed.rU, -distB, distA);
  }

  /** `reseed` keeps a ball well-formed, places it at its anchor, and leaves
      the diameter, kind, parent, speed and burst snapshot untouched. */
  lemma ReseedKeepsIdentity(s: BallState, seed: Seed, minSide: real, a: Point)
    requires WellFormed(s) && SeedOk(seed) && minSide > 0.0
    ensures var p := Reseeded(s, seed, minSide, a);
      WellFormed(p) && PlacedAt(p, a) &&
      p.d == s.d && p.isBig == s.isBig && p.parent == s.parent && p.speed == s.speed &&
      p.rStart == s.rStart && p.rTarget == s.rTarget &&
      p.dirX == seed.dirX && p.dirY == seed.dirY
  {
    RolledWellFormed(s, seed, minSide);
  }

  /** A new ball from in-range draws is well-formed and sits at its anchor;
      a big one is a share of the shorter side wide, a small one between half
      and three quarters of its parent. */
  lemma NewBallWellFormed(isBig: bool, parent: Option<nat>, parentD: real, minSide: real, sp: Spawn, a: Point)
    requires SpawnOk(sp) && minSide > 0.0 && (!isBig ==> parentD > 0.0)
    ensures var p := NewBall(isBig, parent, parentD, minSide, sp, a);
      WellFormed(p) && PlacedAt(p, a) && p.isBig == isBig && p.parent == parent &&
      (isBig ==> minSide * 0.15 <= p.d < minSide * 0.22) &&
      (!isBig ==> parentD * 0.5 <= p.d < parentD * 0.75)
  {
    var dd := Diameter(isBig, parentD, minSide, sp.dU);
    DiameterBounds(isBig, parentD, minSide, sp.dU);
    var blank := BallState(isBig, parent, dd, 0.0, 0.0, 0.0, 0.0, 0.0, 1, SPEED, 0.0, 0.0, 0.0, 0.0);
    RolledWellFormed(blank, sp.seed, minSide);
  }

  lemma DiameterBounds(isBig: bool, parentD: real, minSide: real, u: real)
    requires IsUnit(u) && minSide > 0.0 && (!isBig ==> parentD > 0.0)
    ensures var d := Diameter(isBig, parentD, minSide, u);
      (isBig ==> minSide * 0.15 <= d < minSide * 0.22) &&
      (!isBig ==> parentD * 0.5 <= d < parentD * 0.75)
  {
    if isBig {
      UniformInRange(u, 0.15, 0.22);
      ScaleWithin(minSide, 0.15, Uniform(u, 0.15, 0.22), 0.22);
    } else {
      UniformInRange(u, 1.0 / 2.0, 3.0 / 4.0);
      ScaleWithin(parentD, 1.0 / 2.0, Uniform(u, 1.0 / 2.0, 3.0 / 4.0), 3.0 / 4.0);
    }
  }

  /** The clamped proposal of `updateOsc` never leaves the range. */
  lemma ProposalInRange(s: BallState)
    requires WellFormed(s)
    ensures -s.distB <= Proposal(s).0 <= s.distA
    ensures Proposal(s).1 == 1 || Proposal(s).1 == -1
  {
  }

  /** `updateOsc` keeps the offset in [-distB, distA] and the sign in
      {1, -1}, and places the ball at its anchor. */
  lemma OscKeepsRange(s: BallState, a: Point)
    requires WellFormed(s)
    ensures WellFormed(OscStep(s, a)) && PlacedAt(OscStep(s, a), a)
  {
    ProposalInRange(s);
  }

  /** The sign rule of `updateOsc`: it becomes -1 when the step would pass
      `distA`, 1 when it would pass `-distB`, and otherwise stays; so it
      flips exactly when the step would leave the range. */
  lemma OscSignRule(s: BallState, a: Point)
    requires WellFormed(s)
    ensures var next := Next(s);
      var q := OscStep(s, a);
      (next > s.distA ==> q.sgn == -1) &&
      (next < -s.distB ==> q.sgn == 1) &&
      (-s.distB <= next <= s.distA ==> q.sgn == s.sgn) &&
      (q.sgn != s.sgn <==> (next > s.distA || next < -s.distB))
  {
  }

  /** `updateOsc` moves the offset a quarter of the way to the clamped step,
      so it moves in the direction of travel and never past the limit. */
  lemma OscMovesTowardProposal(s: BallState, a: Point)
    requires WellFormed(s)
    ensures var q := OscStep(s, a); var next := Proposal(s).0;
      q.r - s.r == (next - s.r) / 4.0 &&
      (s.r <= next ==> s.r <= q.r <= next) &&
      (next <= s.r ==> next <= q.r <= s.r)
  {
  }

  /** `updateBurst(t)` for `t` in [0, 1] puts the offset between `rStart` and
      `rTarget` (= `distA`), keeps the ball well-formed and in its burst,
      and reaches the target at `t = 1`. */
  lemma BurstStepBetween(s: BallState, t: real, a: Point)
    requires WellFormed(s) && Bursting(s) && 0.0 <= t <= 1.0
    ensures var q := BurstStep(s, t, a);
      s.rStart <= q.r <= s.rTarget && (t == 1.0 ==> q.r == s.rTarget) &&
      WellFormed(q) && Bursting(q) && PlacedAt(q, a)
  {
    EasedBetween(s.rStart, s.rTarget, t);
    EasedArrives(s.rStart, s.rTarget);
  }

  /** Later burst ticks never pull a ball back: the offset is non-decreasing
      in `t`. */
  lemma BurstStepMonotone(s: BallState, t1: real, t2: real, a: Point)
    requires WellFormed(s) && Bursting(s) && 0.0 <= t1 <= t2 <= 1.0
    ensures BurstStep(s, t1, a).r <= BurstStep(s, t2, a).r
  {
    EaseOutCubicMonotone(t1, t2);
    EaseOutCubicBounded(t1);
    EaseOutCubicBounded(t2);
    ScaleMonotone(EaseOutCubic(t1), EaseOutCubic(t2), s.rTarget - s.rStart);
  }

  /** `finishBurst` snaps the offset to `distA` and turns the ball inward. */
  lemma FinishedAtLimit(s: BallState, a: Point)
    requires WellFormed(s)
    ensures var q := Finished(s, a);
      q.r == s.distA && q.sgn == -1 && WellFormed(q) && PlacedAt(q, a)
  {
  }

  /** `startBurst` targets the current `distA` from the current offset. */
  lemma StartedBursting(s: BallState)
    requires WellFormed(s)
    ensures var q := Started(s);
      Bursting(q) && q.rStart == s.r && q.rTarget == s.distA && WellFormed(q) &&
      q.(rStart := s.rStart, rTarget := s.rTarget) == s
  {
  }

  /** Every pass keeps a ball well-formed; all but `startBurst` place it at
      the anchor, and `startBurst` leaves it where it was; the burst
      snapshot survives a burst step and is created by `startBurst`. */
  lemma MovedOk(s: BallState, m: Move, a: Point)
    requires WellFormed(s) && MoveOk(s, m)
    ensures var q := Moved(s, m, a);
      WellFormed(q) &&
      (m != Start ==> PlacedAt(q, a)) &&
      (m == Start ==> q.x == s.x && q.y == s.y && q.r == s.r && q.dirX == s.dirX && q.dirY == s.dirY) &&
      (m.Burst? || m == Start ==> Bursting(q))
  {
    match m
    case Osc => OscKeepsRange(s, a);
    case Burst(t) => BurstStepBetween(s, t, a);
    case Finish => FinishedAtLimit(s, a);
    case Start => StartedBursting(s);
  }

  /** A ball placed at its anchor is `|r|` away from it: the direction is a
      unit vector. */
  lemma DistanceFromAnchor(s: BallState, a: Point)
    requires WellFormed(s) && PlacedAt(s, a)
    ensures Norm2(s.x - a.x, s.y - a.y) == Scale(s.r, s.r)
  {
    Norm2Scaled(s.dirX, s.dirY, s.r);
    assert s.x - a.x == Scale(s.dirX, s.r) && s.y - a.y == Scale(s.dirY, s.r);
  }
}
