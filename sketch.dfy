/** The sketch as the program runs it: `OscBall` objects whose methods
    update their fields in place, and the sketch's globals (`bigBalls`,
    `smallBalls`, `isBurst`, `burstFrame`, the canvas size and centre) as the
    fields of one `Sketch` object whose methods are `setup`, `windowResized`,
    `draw`, `mousePressed` and `rebuildBalls`. Every method is proved to do
    to the abstract state (`Snapshot`, `Abs`) what the functions of
    `BallSpec` and `WorldSpec` say. */
module MySketch {
  import opened Numeric
  import opened BallSpec
  import opened WorldSpec

  class OscBall {
    var isBig: bool
    /** Index of the parent in `bigBalls`; `None` for a big ball. */
    var parent: Option<nat>
    var d: real
    var dirX: real
    var dirY: real
    /** Outer limit of the offset. */
    var distA: real
    /** Inner limit of the offset (the offset goes down to `-distB`). */
    var distB: real
    /** Signed offset from the anchor along `(dirX, dirY)`. */
    var r: real
    var sgn: int
    var speed: real
    var x: real
    var y: real
    var rStart: real
    var rTarget: real

    function Snapshot(): BallState
      reads this
    {
      BallState(isBig, parent, d, dirX, dirY, distA, distB, r, sgn, speed, x, y, rStart, rTarget)
    }

    /** `new OscBall(isBig, parent)`: `parentD` is the parent's diameter,
        `minSide` the shorter canvas side, `anchor` the position `updatePos`
        starts from. */
    constructor (isBig: bool, parent: Option<nat>, parentD: real, minSide: real, sp: Spawn, anchor: Point)
      ensures Snapshot() == NewBall(isBig, parent, parentD, minSide, sp, anchor)
    {
      this.isBig := isBig;
      this.parent := parent;
      if isBig {
        d := Scale(minSide, Uniform(sp.dU, 0.15, 0.22));
      } else {
        d := Scale(parentD, Uniform(sp.dU, 1.0 / 2.0, 3.0 / 4.0));
      }
      var seed := sp.seed;
      dirX := seed.dirX;
      dirY := seed.dirY;
      var base := Scale(minSide, Uniform(seed.baseU, 0.10, 0.30));
      var a := Scale(base, Uniform(seed.outU, 1.0, 1.3));
      var b := Scale(base, Uniform(seed.inU, 0.8, 1.1));
      distA := a;
      distB := b;
      r := Uniform(seed.rU, -b, a);
      sgn := if seed.coinU < 0.5 then 1 else -1;
      speed := SPEED;
      rStart, rTarget := 0.0, 0.0;
      x, y := 0.0, 0.0;
      new;
      UpdatePos(anchor);
    }

    method StartBurst()
      modifies this
      ensures Snapshot() == Started(old(Snapshot()))
    {
      rStart := r;
      rTarget := distA;
    }

    method UpdateBurst(t: real, anchor: Point)
      modifies this
      ensures Snapshot() == BurstStep(old(Snapshot()), t, anchor)
    {
      var e := EaseOutCubic(t);
      r := Lerp(rStart, rTarget, e);
      UpdatePos(anchor);
    }

    method FinishBurst(anchor: Point)
      modifies this
      ensures Snapshot() == Finished(old(Snapshot()), anchor)
    {
      r := distA;
      sgn := -1;
      UpdatePos(anchor);
    }

    method UpdateOsc(anchor: Point)
      modifies this
      ensures Snapshot() == OscStep(old(Snapshot()), anchor)
    {
      var next := r + Scale(sgn as real, speed);
      if next > distA {
        next := distA;
        sgn := -1;
      } else if next < -distB {
        next := -distB;
        sgn := 1;
      }
      r := Lerp(r, next, 0.25);
      UpdatePos(anchor);
    }

    method UpdatePos(anchor: Point)
      modifies this
      ensures Snapshot() == Positioned(old(Snapshot()), anchor)
    {
      x := anchor.x + Scale(dirX, r);
      y := anchor.y + Scale(dirY, r);
    }

    method Reseed(seed: Seed, minSide: real, anchor: Point)
      modifies this
      ensures Snapshot() == Reseeded(old(Snapshot()), seed, minSide, anchor)
    {
      dirX := seed.dirX;
      dirY := seed.dirY;
      var base := Scale(minSide, Uniform(seed.baseU, 0.10, 0.30));
      var a := Scale(base, Uniform(seed.outU, 1.0, 1.3));
      var b := Scale(base, Uniform(seed.inU, 0.8, 1.1));
      distA := a;
      distB := b;
      r := Uniform(seed.rU, -b, a);
      sgn := if seed.coinU < 0.5 then 1 else -1;
      UpdatePos(anchor);
    }

    /** The call one pass of `draw` or `mousePressed` makes on each ball. */
    method Apply(m: Move, anchor: Point)
      modifies this
      ensures Snapshot() == Moved(old(Snapshot()), m, anchor)
    {
      match m
      case Osc => UpdateOsc(anchor);
      case Burst(t) => UpdateBurst(t, anchor);
      case Finish => FinishBurst(anchor);
      case Start => StartBurst();
    }
  }

  function States(balls: seq<OscBall>): seq<BallState>
    reads balls
  {
    seq(|balls|, i requires 0 <= i < |balls| reads balls => balls[i].Snapshot())
  }

  /** No object appears twice in the two lists together. */
  predicate Separate(big: seq<OscBall>, small: seq<OscBall>)
  {
    (forall i, j :: 0 <= i < j < |big| ==> big[i] != big[j]) &&
    (forall i, j :: 0 <= i < j < |small| ==> small[i] != small[j]) &&
    (forall i, j :: 0 <= i < |big| && 0 <= j < |small| ==> big[i] != small[j])
  }

  class Sketch {
    var bigBalls: seq<OscBall>
    var smallBalls: seq<OscBall>
    var isBurst: bool
    var burstFrame: int
    var width: real
    var height: real
    var centerX: real
    var centerY: real

    function Abs(): World
      reads this, bigBalls, smallBalls
    {
      World(States(bigBalls), States(smallBalls), isBurst, burstFrame, width, height, centerX, centerY)
    }

    ghost predicate Valid()
      reads this, bigBalls, smallBalls
    {
      Separate(bigBalls, smallBalls) && WorldValid(Abs())
    }

    /** `setup` on a `width` by `height` canvas: `rebuildBalls` with the
        draws `seeds1`, then `NUM_BIG` more big balls with `seeds2`. */
    constructor (width: real, height: real, seeds1: seq<Spawn>, seeds2: seq<Spawn>)
      requires width > 0.0 && height > 0.0
      requires |seeds1| == NUM_BIG && |seeds2| == NUM_BIG && AllSpawnOk(seeds1) && AllSpawnOk(seeds2)
      ensures Valid() && Abs() == Setup(width, height, seeds1, seeds2)
    {
      this.width := width;
      this.height := height;
      centerX := width / 2.0;
      centerY := height / 2.0;
      bigBalls, smallBalls := [], [];
      isBurst, burstFrame := false, 0;
      new;
      RebuildBalls(seeds1);
      AddBigBalls(seeds2);
      SetupValid(width, height, seeds1, seeds2);
    }

    /** `windowResized` to a `width` by `height` canvas. */
    method WindowResized(width: real, height: real, seeds: seq<Spawn>)
      requires width > 0.0 && height > 0.0 && |seeds| == NUM_BIG && AllSpawnOk(seeds)
      modifies this
      ensures Valid() && Abs() == Resized(old(Abs()), width, height, seeds)
    {
      this.width := width;
      this.height := height;
      centerX := width / 2.0;
      centerY := height / 2.0;
      RebuildBalls(seeds);
    }

    /** `rebuildBalls`. */
    method RebuildBalls(seeds: seq<Spawn>)
      requires CanvasOk(Abs()) && |seeds| == NUM_BIG && AllSpawnOk(seeds)
      modifies this
      ensures Valid() && Abs() == Rebuild(old(Abs()), seeds)
    {
      ghost var w := Abs();
      bigBalls := [];
      smallBalls := [];
      AddBigBalls(seeds);
      isBurst := false;
      burstFrame := 0;
      RebuildValid(w, seeds);
    }

    /** The loop that pushes one new big ball per draw in `seeds`. */
    method AddBigBalls(seeds: seq<Spawn>)
      requires Separate(bigBalls, smallBalls)
      modifies this
      ensures Separate(bigBalls, smallBalls) && smallBalls == old(smallBalls)
      ensures Abs() == old(Abs()).(big := old(Abs()).big + NewBigs(seeds, MinSide(old(Abs())), Center(old(Abs()))))
    {
      ghost var w := Abs();
      var minSide := Min(width, height);
      var c := Point(centerX, centerY);
      var i := 0;
      while i < |seeds|
        invariant 0 <= i <= |seeds|
        invariant Separate(bigBalls, smallBalls) && smallBalls == old(smallBalls)
        invariant isBurst == w.isBurst && burstFrame == w.burstFrame
        invariant width == w.width && height == w.height && centerX == w.centerX && centerY == w.centerY
        invariant |bigBalls| == |w.big| + i && States(smallBalls) == w.small
        invariant forall j :: 0 <= j < |w.big| ==> bigBalls[j].Snapshot() == w.big[j]
        invariant forall j :: 0 <= j < i ==>
          bigBalls[|w.big| + j].Snapshot() == NewBall(true, None, 0.0, minSide, seeds[j], c)
      {
        var b := new OscBall(true, None, 0.0, minSide, seeds[i], c);
        bigBalls := bigBalls + [b];
        i := i + 1;
      }
      assert States(bigBalls) == w.big + NewBigs(seeds, minSide, c);
    }

    /** The anchor `updatePos` uses for `b`: the canvas centre for a big
        ball, the parent's current position for a small one. */
    function AnchorOf(b: OscBall): (a: Point)
      reads this, b, bigBalls
      requires b.isBig || (b.parent.Some? && b.parent.value < |bigBalls|)
      ensures a == Anchor(b.Snapshot(), States(bigBalls), Point(centerX, centerY))
    {
      if b.isBig then Point(centerX, centerY)
      else Point(bigBalls[b.parent.value].x, bigBalls[b.parent.value].y)
    }

    /** A loop over `bigBalls` then a loop over `smallBalls`, applying `m`. */
    method MoveAll(m: Move)
      requires Separate(bigBalls, smallBalls) && Linked(Abs())
      modifies bigBalls, smallBalls
      ensures Abs() == MovePass(old(Abs()), m)
    {
      ghost var w := Abs();
      MoveBig(m);
      assert forall j :: 0 <= j < |smallBalls| ==> smallBalls[j].Snapshot() == w.small[j];
      MoveSmall(m);
      assert Abs() == w.(big := Abs().big, small := Abs().small);
    }

    method MoveBig(m: Move)
      requires Separate(bigBalls, smallBalls) && Linked(Abs())
      modifies bigBalls
      ensures States(bigBalls) == MoveBalls(old(States(bigBalls)), m, old(States(bigBalls)), Point(centerX, centerY))
      ensures States(smallBalls) == old(States(smallBalls))
    {
      ghost var w := Abs();
      var i := 0;
      while i < |bigBalls|
        invariant 0 <= i <= |bigBalls|
        invariant forall j :: 0 <= j < i ==>
          bigBalls[j].Snapshot() == Moved(w.big[j], m, Anchor(w.big[j], w.big, Center(w)))
        invariant forall j :: i <= j < |bigBalls| ==> bigBalls[j].Snapshot() == w.big[j]
        invariant forall j :: 0 <= j < |smallBalls| ==> smallBalls[j].Snapshot() == w.small[j]
      {
        var b := bigBalls[i];
        b.Apply(m, AnchorOf(b));
        i := i + 1;
      }
      assert States(bigBalls) == MoveBalls(w.big, m, w.big, Center(w));
    }

    method MoveSmall(m: Move)
      requires Separate(bigBalls, smallBalls)
      requires forall j :: 0 <= j < |smallBalls| ==> Anchored(smallBalls[j].Snapshot(), |bigBalls|)
      modifies smallBalls
      ensures States(smallBalls) == MoveBalls(old(States(smallBalls)), m, States(bigBalls), Point(centerX, centerY))
      ensures States(bigBalls) == old(States(bigBalls))
    {
      ghost var w := Abs();
      var i := 0;
      while i < |smallBalls|
        invariant 0 <= i <= |smallBalls|
        invariant States(bigBalls) == w.big
        invariant forall j :: 0 <= j < i ==>
          smallBalls[j].Snapshot() == Moved(w.small[j], m, Anchor(w.small[j], w.big, Center(w)))
        invariant forall j :: i <= j < |smallBalls| ==> smallBalls[j].Snapshot() == w.small[j]
      {
        var b := smallBalls[i];
        b.Apply(m, AnchorOf(b));
        i := i + 1;
      }
      assert States(smallBalls) == MoveBalls(w.small, m, w.big, Center(w));
    }

    /** The two `reseed` loops of `mousePressed`. */
    method ReseedAll(bigSeeds: seq<Seed>, smallSeeds: seq<Seed>)
      requires Separate(bigBalls, smallBalls) && Linked(Abs())
      requires |bigSeeds| == |bigBalls| && |smallSeeds| == |smallBalls|
      modifies bigBalls, smallBalls
      ensures Abs() == ReseedPass(old(Abs()), bigSeeds, smallSeeds)
    {
      ghost var w := Abs();
      var minSide := Min(width, height);
      ReseedBig(bigSeeds, minSide);
      assert forall j :: 0 <= j < |smallBalls| ==> smallBalls[j].Snapshot() == w.small[j];
      ReseedSmall(smallSeeds, minSide);
      assert Abs() == w.(big := Abs().big, small := Abs().small);
    }

    method ReseedBig(seeds: seq<Seed>, minSide: real)
      requires Separate(bigBalls, smallBalls) && Linked(Abs()) && |seeds| == |bigBalls|
      modifies bigBalls
      ensures States(bigBalls) == ReseedBalls(old(States(bigBalls)), seeds, old(States(bigBalls)), Point(centerX, centerY), minSide)
      ensures States(smallBalls) == old(States(smallBalls))
    {
      ghost var w := Abs();
      var i := 0;
      while i < |bigBalls|
        invariant 0 <= i <= |bigBalls|
        invariant forall j :: 0 <= j < i ==>
          bigBalls[j].Snapshot() == Reseeded(w.big[j], seeds[j], minSide, Anchor(w.big[j], w.big, Center(w)))
        invariant forall j :: i <= j < |bigBalls| ==> bigBalls[j].Snapshot() == w.big[j]
        invariant forall j :: 0 <= j < |smallBalls| ==> smallBalls[j].Snapshot() == w.small[j]
      {
        var b := bigBalls[i];
        b.Reseed(seeds[i], minSide, AnchorOf(b));
        i := i + 1;
      }
      assert States(bigBalls) == ReseedBalls(w.big, seeds, w.big, Center(w), minSide);
    }

    method ReseedSmall(seeds: seq<Seed>, minSide: real)
      requires Separate(bigBalls, smallBalls) && |seeds| == |smallBalls|
      requires forall j :: 0 <= j < |smallBalls| ==> Anchored(smallBalls[j].Snapshot(), |bigBalls|)
      modifies smallBalls
      ensures States(smallBalls) == ReseedBalls(old(States(smallBalls)), seeds, States(bigBalls), Point(centerX, centerY), minSide)
      ensures States(bigBalls) == old(States(bigBalls))
    {
      ghost var w := Abs();
      var i := 0;
      while i < |smallBalls|
        invariant 0 <= i <= |smallBalls|
        invariant States(bigBalls) == w.big
        invariant forall j :: 0 <= j < i ==>
          smallBalls[j].Snapshot() == Reseeded(w.small[j], seeds[j], minSide, Anchor(w.small[j], w.big, Center(w)))
        invariant forall j :: i <= j < |smallBalls| ==> smallBalls[j].Snapshot() == w.small[j]
      {
        var b := smallBalls[i];
        b.Reseed(seeds[i], minSide, AnchorOf(b));
        i := i + 1;
      }
      assert States(smallBalls) == ReseedBalls(w.small, seeds, w.big, Center(w), minSide);
    }

    /** `maybeEmit` of the big ball at index `i`. */
    method MaybeEmit(i: nat, e: EmitDraw)
      requires i < |bigBalls| && Separate(bigBalls, smallBalls) && Linked(Abs())
      modifies this
      ensures Separate(bigBalls, smallBalls) && bigBalls == old(bigBalls)
      ensures Abs() == EmitStep(old(Abs()), i, e)
    {
      var b := bigBalls[i];
      if !b.isBig {
        return;
      }
      if |smallBalls| >= MAX_SMALL {
        return;
      }
      if e.p < EMIT_PROB {
        ghost var w := Abs();
        var child := new OscBall(false, Some(i), b.d, Min(width, height), e.spawn, Point(b.x, b.y));
        smallBalls := smallBalls + [child];
        assert States(smallBalls) == w.small + [child.Snapshot()];
      }
    }

    /** The emission loop of `draw`: every big ball in order may emit. */
    method EmitAll(es: seq<EmitDraw>)
      requires Separate(bigBalls, smallBalls) && Linked(Abs()) && |es| == |bigBalls|
      modifies this
      ensures Separate(bigBalls, smallBalls) && bigBalls == old(bigBalls)
      ensures Abs() == EmitFrom(old(Abs()), es, 0)
    {
      var i := 0;
      while i < |bigBalls|
        invariant 0 <= i <= |bigBalls| && bigBalls == old(bigBalls)
        invariant Separate(bigBalls, smallBalls) && Linked(Abs()) && |es| == |Abs().big|
        invariant EmitFrom(Abs(), es, i) == EmitFrom(old(Abs()), es, 0)
      {
        MaybeEmit(i, es[i]);
        i := i + 1;
      }
    }

    /** Step 1 of `draw`: a burst tick or a steady oscillation tick. */
    method UpdateBalls()
      requires Separate(bigBalls, smallBalls) && Linked(Abs())
      modifies this, bigBalls, smallBalls
      ensures Separate(bigBalls, smallBalls) && bigBalls == old(bigBalls) && smallBalls == old(smallBalls)
      ensures Abs() == Advance(old(Abs()))
    {
      if isBurst {
        burstFrame := burstFrame + 1;
        var t := burstFrame as real / ANIM_FRAMES as real;
        MoveAll(Burst(t));
        if burstFrame >= ANIM_FRAMES {
          isBurst := false;
          MoveAll(Finish);
        }
      } else {
        MoveAll(Osc);
      }
    }

    /** One call of `draw`: the update and emission steps, then the packing
        of the shader's uniform arrays. `es[i]` holds big ball `i`'s draws. */
    method Draw(es: seq<EmitDraw>) returns (n: nat, pos: seq<real>, rad: seq<real>)
      requires Valid() && |es| == |bigBalls| && AllEmitOk(es)
      modifies this, bigBalls, smallBalls
      ensures Valid() && Abs() == Tick(old(Abs()), es)
      ensures Packed(States(bigBalls) + States(smallBalls), width, height, n, pos, rad)
    {
      Step(es);
      n, pos, rad := PackUniforms();
    }

    /** Steps 1 and 2 of `draw`: move every ball, then, unless a burst is
        still running, let every big ball try to emit. */
    method Step(es: seq<EmitDraw>)
      requires Valid() && |es| == |bigBalls| && AllEmitOk(es)
      modifies this, bigBalls, smallBalls
      ensures Valid() && Abs() == Tick(old(Abs()), es)
    {
      ghost var w := Abs();
      BallsOkLinked(w);
      UpdateBalls();
      assert Abs() == Advance(w);
      if !isBurst {
        EmitAll(es);
      }
      TickValid(w, es);
    }

    /** `mousePressed`: reseed every ball, start the burst at frame 0, and
        snapshot every ball's burst. */
    method MousePressed(bigSeeds: seq<Seed>, smallSeeds: seq<Seed>)
      requires Valid() && |bigSeeds| == |bigBalls| && |smallSeeds| == |smallBalls|
      requires AllSeedOk(bigSeeds) && AllSeedOk(smallSeeds)
      modifies this, bigBalls, smallBalls
      ensures Valid() && Abs() == Press(old(Abs()), bigSeeds, smallSeeds)
    {
      ghost var w := Abs();
      BallsOkLinked(w);
      ReseedAll(bigSeeds, smallSeeds);
      isBurst := true;
      burstFrame := 0;
      MoveAll(Start);
      PressStartsBurst(w, bigSeeds, smallSeeds);
    }

    /** The tail of `draw`: the first `min(count, 64)` balls, big balls
        first, as UV positions and radii normalised by the width. */
    method PackUniforms() returns (n: nat, pos: seq<real>, rad: seq<real>)
      requires width > 0.0 && height > 0.0
      ensures Packed(States(bigBalls) + States(smallBalls), width, height, n, pos, rad)
    {
      var allBalls := bigBalls + smallBalls;
      n := if |allBalls| < MAX_BALLS then |allBalls| else MAX_BALLS;
      pos := [];
      rad := [];
      var i := 0;
      while i < n
        invariant 0 <= i <= n && |pos| == 2 * i && |rad| == i
        invariant forall j :: 0 <= j < i ==>
          pos[2 * j] == allBalls[j].x / width && pos[2 * j + 1] == 1.0 - allBalls[j].y / height &&
          rad[j] == allBalls[j].d * 0.5 / width
      {
        var ball := allBalls[i];
        var u := ball.x / width;
        var v := 1.0 - ball.y / height;
        pos := pos + [u, v];
        rad := rad + [ball.d * 0.5 / width];
        i := i + 1;
      }
      assert forall j :: 0 <= j < |allBalls| ==> (States(bigBalls) + States(smallBalls))[j] == allBalls[j].Snapshot();
    }
  }
}
