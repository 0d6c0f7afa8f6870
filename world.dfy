/** The sketch's global state as a value: the big and small balls, the
    burst flag and frame counter, and the canvas. `Tick` is what `draw` does
    to it before drawing, `Press` is `mousePressed`, `Rebuild` is
    `rebuildBalls`, `Setup` and `Resized` are `setup` and `windowResized`.
    The class `Sketch.Sketch` is proved against these functions; the lemmas
    here state the invariants they keep and how a burst runs. */
module WorldSpec {
  import opened Numeric
  import opened BallSpec

  const NUM_BIG: nat := 5
  const EMIT_PROB: real := 0.2
  const MAX_SMALL: nat := 10
  const ANIM_FRAMES: nat := 30
  /** Capacity of the shader's uniform arrays. */
  const MAX_BALLS: nat := 64

  datatype World = World(
    big: seq<BallState>, small: seq<BallState>,
    isBurst: bool, burstFrame: int,
    width: real, height: real, centerX: real, centerY: real)

  /** The draws a big ball makes when asked to emit: the `random()` compared
      with `EMIT_PROB`, then those of the child's constructor. */
  datatype EmitDraw = EmitDraw(p: real, spawn: Spawn)

  predicate EmitOk(e: EmitDraw)
  {
    IsUnit(e.p) && SpawnOk(e.spawn)
  }

  predicate AllEmitOk(es: seq<EmitDraw>)
  {
    forall i :: 0 <= i < |es| ==> EmitOk(es[i])
  }

  predicate AllSeedOk(ss: seq<Seed>)
  {
    forall i :: 0 <= i < |ss| ==> SeedOk(ss[i])
  }

  predicate AllSpawnOk(ss: seq<Spawn>)
  {
    forall i :: 0 <= i < |ss| ==> SpawnOk(ss[i])
  }

  function MinSide(w: World): real
  {
    Min(w.width, w.height)
  }

  function Center(w: World): Point
  {
    Point(w.centerX, w.centerY)
  }

  function Pos(b: BallState): Point
  {
    Point(b.x, b.y)
  }

  // ---------------------------------------------------------------------
  // Anchors and invariants

  /** The anchor of `b` can be resolved against `n` big balls. */
  predicate Anchored(b: BallState, n: nat)
  {
    b.isBig || (b.parent.Some? && b.parent.value < n)
  }

  /** The branch of `updatePos`: the canvas centre for a big ball, the
      parent's current position for a small one. */
  function Anchor(b: BallState, big: seq<BallState>, c: Point): Point
    requires Anchored(b, |big|)
  {
    if b.isBig then c else Pos(big[b.parent.value])
  }

  /** What `Tick` and `Press` need to be defined: the big list holds big
      balls and every small ball's parent index is in range. */
  predicate Linked(w: World)
  {
    (forall i :: 0 <= i < |w.big| ==> w.big[i].isBig) &&
    (forall i :: 0 <= i < |w.small| ==> Anchored(w.small[i], |w.big|))
  }

  predicate BigOk(b: BallState, c: Point)
  {
    b.isBig && b.parent.None? && WellFormed(b) && PlacedAt(b, c)
  }

  predicate SmallOk(b: BallState, big: seq<BallState>)
  {
    !b.isBig && b.parent.Some? && b.parent.value < |big| && WellFormed(b) &&
    PlacedAt(b, Pos(big[b.parent.value]))
  }

  /** Every ball is well-formed and sits at its anchor. */
  predicate BallsOk(w: World)
  {
    (forall i :: 0 <= i < |w.big| ==> BigOk(w.big[i], Center(w))) &&
    (forall i :: 0 <= i < |w.small| ==> SmallOk(w.small[i], w.big))
  }

  predicate AllBursting(w: World)
  {
    (forall i :: 0 <= i < |w.big| ==> Bursting(w.big[i])) &&
    (forall i :: 0 <= i < |w.small| ==> Bursting(w.small[i]))
  }

  predicate CanvasOk(w: World)
  {
    w.width > 0.0 && w.height > 0.0 && w.centerX == w.width / 2.0 && w.centerY == w.height / 2.0
  }

  /** The invariant of the sketch between two events. */
  predicate WorldValid(w: World)
  {
    CanvasOk(w) && |w.big| <= 2 * NUM_BIG && |w.small| <= MAX_SMALL &&
    0 <= w.burstFrame <= ANIM_FRAMES && (w.isBurst ==> w.burstFrame < ANIM_FRAMES) &&
    BallsOk(w) && (w.isBurst ==> AllBursting(w))
  }

  // ---------------------------------------------------------------------
  // Operations

  /** One `for` loop of `draw` or `mousePressed`: the same move on every
      ball of a list, each at its own anchor. */
  function MoveBalls(balls: seq<BallState>, m: Move, big: seq<BallState>, c: Point): seq<BallState>
    requires forall i :: 0 <= i < |balls| ==> Anchored(balls[i], |big|)
  {
    seq(|balls|, i requires 0 <= i < |balls| => Moved(balls[i], m, Anchor(balls[i], big, c)))
  }

  /** A pair of loops: the big balls first, then the small balls, which
      therefore see their parents' new positions. */
  function MovePass(w: World, m: Move): (r: World)
    requires Linked(w)
    ensures Linked(r) && |r.big| == |w.big| && |r.small| == |w.small|
    ensures r.(big := w.big, small := w.small) == w
  {
    var big1 := MoveBalls(w.big, m, w.big, Center(w));
    w.(big := big1, small := MoveBalls(w.small, m, big1, Center(w)))
  }

  /** Step 1 of `draw`: a burst tick (with the frame counter incremented
      first, and the burst finished once it reaches `ANIM_FRAMES`) or a
      steady oscillation tick. */
  function Advance(w: World): (r: World)
    requires Linked(w)
    ensures Linked(r) && |r.big| == |w.big| && |r.small| == |w.small|
    ensures r.width == w.width && r.height == w.height && r.centerX == w.centerX && r.centerY == w.centerY
  {
    if w.isBurst then
      var f := w.burstFrame + 1;
      var v := MovePass(w.(burstFrame := f), Burst(f as real / ANIM_FRAMES as real));
      if f >= ANIM_FRAMES then MovePass(v.(isBurst := false), Finish) else v
    else
      MovePass(w, Osc)
  }

  /** `maybeEmit` of big ball `i`. */
  function EmitStep(w: World, i: nat, e: EmitDraw): (r: World)
    requires Linked(w) && i < |w.big|
    ensures Linked(r) && r.big == w.big
  {
    if !w.big[i].isBig then w
    else if |w.small| >= MAX_SMALL then w
    else if e.p < EMIT_PROB then
      var b := w.big[i];
      w.(small := w.small + [NewBall(false, Some(i), b.d, MinSide(w), e.spawn, Pos(b))])
    else w
  }

  /** The emission loop from big ball `i` on. */
  function EmitFrom(w: World, es: seq<EmitDraw>, i: nat): (r: World)
    requires Linked(w) && |es| == |w.big| && i <= |w.big|
    ensures Linked(r) && r.big == w.big
    decreases |w.big| - i
  {
    if i == |w.big| then w else EmitFrom(EmitStep(w, i, es[i]), es, i + 1)
  }

  /** Steps 1 and 2 of `draw`; `es[i]` holds big ball `i`'s draws. */
  function Tick(w: World, es: seq<EmitDraw>): (r: World)
    requires Linked(w) && |es| == |w.big|
    ensures Linked(r) && |r.big| == |w.big|
  {
    var v := Advance(w);
    if v.isBurst then v else EmitFrom(v, es, 0)
  }

  /** `k` calls of `draw`, the `j`-th with the draws `ds[j]`. */
  function TickN(w: World, ds: seq<seq<EmitDraw>>, k: nat): (r: World)
    requires Linked(w) && k <= |ds| && forall j :: 0 <= j < |ds| ==> |ds[j]| == |w.big|
    ensures Linked(r) && |r.big| == |w.big|
  {
    if k == 0 then w else Tick(TickN(w, ds, k - 1), ds[k - 1])
  }

  /** A `reseed` loop of `mousePressed`. */
  function ReseedBalls(balls: seq<BallState>, seeds: seq<Seed>, big: seq<BallState>, c: Point, minSide: real): seq<BallState>
    requires |seeds| == |balls|
    requires forall i :: 0 <= i < |balls| ==> Anchored(balls[i], |big|)
  {
    seq(|balls|, i requires 0 <= i < |balls| => Reseeded(balls[i], seeds[i], minSide, Anchor(balls[i], big, c)))
  }

  /** The two `reseed` loops of `mousePressed`. */
  function ReseedPass(w: World, bigSeeds: seq<Seed>, smallSeeds: seq<Seed>): (r: World)
    requires Linked(w) && |bigSeeds| == |w.big| && |smallSeeds| == |w.small|
    ensures Linked(r) && |r.big| == |w.big| && |r.small| == |w.small|
    ensures r.(big := w.big, small := w.small) == w
  {
    var big1 := ReseedBalls(w.big, bigSeeds, w.big, Center(w), MinSide(w));
    w.(big := big1, small := ReseedBalls(w.small, smallSeeds, big1, Center(w), MinSide(w)))
  }

  /** `mousePressed`: reseed every ball, start the burst at frame 0, and
      snapshot every ball's burst. */
  function Press(w: World, bigSeeds: seq<Seed>, smallSeeds: seq<Seed>): (r: World)
    requires Linked(w) && |bigSeeds| == |w.big| && |smallSeeds| == |w.small|
    ensures Linked(r) && |r.big| == |w.big| && |r.small| == |w.small|
  {
    var v := ReseedPass(w, bigSeeds, smallSeeds);
    MovePass(v.(isBurst := true, burstFrame := 0), Start)
  }

  function NewBigs(seeds: seq<Spawn>, minSide: real, c: Point): seq<BallState>
  {
    seq(|seeds|, i requires 0 <= i < |seeds| => NewBall(true, None, 0.0, minSide, seeds[i], c))
  }

  /** `rebuildBalls`: `NUM_BIG` new big balls, no small balls, no burst. */
  function Rebuild(w: World, seeds: seq<Spawn>): World
  {
    w.(big := NewBigs(seeds, MinSide(w), Center(w)), small := [], isBurst := false, burstFrame := 0)
  }

  /** The globals before `setup` runs, on a canvas of the given size. */
  function Canvas(width: real, height: real): World
  {
    World([], [], false, 0, width, height, width / 2.0, height / 2.0)
  }

  /** `setup`: `rebuildBalls`, then its own loop adding `NUM_BIG` more big
      balls. */
  function Setup(width: real, height: real, seeds1: seq<Spawn>, seeds2: seq<Spawn>): World
  {
    var w := Rebuild(Canvas(width, height), seeds1);
    w.(big := w.big + NewBigs(seeds2, MinSide(w), Center(w)))
  }

  /** `windowResized`: a new canvas and its centre, then `rebuildBalls`. */
  function Resized(w: World, width: real, height: real, seeds: seq<Spawn>): World
  {
    Rebuild(w.(width := width, height := height, centerX := width / 2.0, centerY := height / 2.0), seeds)
  }

  /** The uniform arrays `draw` hands to the shader for the balls `all`
      (big balls first): `n` entries, the i-th holding ball i's position
      in UV coordinates and its radius as a share of the width. */
  predicate Packed(all: seq<BallState>, width: real, height: real, n: nat, pos: seq<real>, rad: seq<real>)
    requires width > 0.0 && height > 0.0
  {
    n == (if |all| < MAX_BALLS then |all| else MAX_BALLS) &&
    |pos| == 2 * n && |rad| == n &&
    forall i :: 0 <= i < n ==>
      pos[2 * i] == all[i].x / width && pos[2 * i + 1] == 1.0 - all[i].y / height &&
      rad[i] == all[i].d * 0.5 / width
  }

  // ---------------------------------------------------------------------
  // Properties

  lemma BallsOkLinked(w: World)
    requires BallsOk(w)
    ensures Linked(w)
  {
    forall i | 0 <= i < |w.small| ensures Anchored(w.small[i], |w.big|) {
      assert SmallOk(w.small[i], w.big);
    }
  }

  /** A pass of one move keeps every ball well-formed and at its anchor;
      a burst step keeps, and `startBurst` creates, every ball's burst
      snapshot. */
  lemma {:induction false} MovePassOk(w: World, m: Move)
    requires CanvasOk(w) && BallsOk(w)
    requires m.Burst? ==> AllBursting(w) && 0.0 <= m.t <= 1.0
    ensures Linked(w) && BallsOk(MovePass(w, m))
    ensures m.Burst? || m == Start ==> AllBursting(MovePass(w, m))
  {
    BallsOkLinked(w);
    var c := Center(w);
    var big1 := MoveBalls(w.big, m, w.big, c);
    var r := MovePass(w, m);
    assert r.big == big1;
    forall i | 0 <= i < |w.big|
      ensures BigOk(big1[i], c) && (m.Burst? || m == Start ==> Bursting(big1[i]))
    {
      var b := w.big[i];
      assert BigOk(b, c);
      assert MoveOk(b, m);
      MovedOk(b, m, c);
    }
    forall i | 0 <= i < |w.small|
      ensures SmallOk(r.small[i], big1) && (m.Burst? || m == Start ==> Bursting(r.small[i]))
    {
      var b := w.small[i];
      assert SmallOk(b, w.big);
      var p := b.parent.value;
      assert MoveOk(b, m);
      MovedOk(b, m, Pos(big1[p]));
      if m == Start {
        MovedOk(w.big[p], m, c);
      }
    }
  }

  /** `maybeEmit` keeps every ball in place and the small population within
      `MAX_SMALL`; it adds at most one ball, a small one whose parent is
      the emitting big ball, and keeps the balls already there. */
  lemma EmitStepOk(w: World, i: nat, e: EmitDraw)
    requires CanvasOk(w) && BallsOk(w) && |w.small| <= MAX_SMALL && i < |w.big| && EmitOk(e)
    ensures Linked(w)
    ensures var r := EmitStep(w, i, e);
      BallsOk(r) && |r.small| <= MAX_SMALL && r.big == w.big &&
      |w.small| <= |r.small| <= |w.small| + 1 && r.small[..|w.small|] == w.small &&
      (|r.small| > |w.small| ==> r.small[|w.small|].parent == Some(i)) &&
      r.(small := w.small) == w
  {
    BallsOkLinked(w);
    var r := EmitStep(w, i, e);
    if |r.small| > |w.small| {
      var b := w.big[i];
      assert BigOk(b, Center(w));
      NewBallWellFormed(false, Some(i), b.d, MinSide(w), e.spawn, Pos(b));
      assert r.small == w.small + [r.small[|w.small|]];
      forall j | 0 <= j < |r.small| ensures SmallOk(r.small[j], r.big) {
        if j < |w.small| {
          assert r.small[j] == w.small[j];
        }
      }
    }
  }

  /** The emission loop keeps the invariant of the balls, never lets the
      small population pass `MAX_SMALL`, adds at most one ball per big ball,
      and only ever appends. */
  lemma {:induction false} EmitFromOk(w: World, es: seq<EmitDraw>, i: nat)
    requires CanvasOk(w) && BallsOk(w) && |w.small| <= MAX_SMALL
    requires |es| == |w.big| && i <= |w.big| && AllEmitOk(es)
    ensures Linked(w)
    ensures var r := EmitFrom(w, es, i);
      BallsOk(r) && |r.small| <= MAX_SMALL && r.big == w.big &&
      |w.small| <= |r.small| <= |w.small| + (|w.big| - i) &&
      r.small[..|w.small|] == w.small && r.(small := w.small) == w
    decreases |w.big| - i
  {
    BallsOkLinked(w);
    if i < |w.big| {
      var v := EmitStep(w, i, es[i]);
      EmitStepOk(w, i, es[i]);
      EmitFromOk(v, es, i + 1);
      var r := EmitFrom(v, es, i + 1);
      assert r.small[..|w.small|] == r.small[..|v.small|][..|w.small|];
    }
  }

  /** `draw` keeps the invariant of the sketch: offsets in range, signs in
      {1, -1}, every ball at its anchor (small balls at their parents'
      current positions), the small population within `MAX_SMALL`, and the
      burst frame in range. */
  lemma TickValid(w: World, es: seq<EmitDraw>)
    requires WorldValid(w) && |es| == |w.big| && AllEmitOk(es)
    ensures Linked(w) && WorldValid(Tick(w, es))
  {
    BallsOkLinked(w);
    var a := AdvanceOk(w);
    var v := Advance(w);
    if !v.isBurst {
      EmitFromOk(v, es, 0);
    }
  }

  /** Step 1 of `draw` keeps the invariant and changes no list's length. */
  lemma AdvanceOk(w: World) returns (v: World)
    requires WorldValid(w)
    ensures Linked(w) && v == Advance(w) && WorldValid(v)
    ensures |v.big| == |w.big| && |v.small| == |w.small|
    ensures w.isBurst ==> v.burstFrame == w.burstFrame + 1 && (v.isBurst <==> v.burstFrame < ANIM_FRAMES)
    ensures !w.isBurst ==> !v.isBurst && v.burstFrame == w.burstFrame
  {
    BallsOkLinked(w);
    v := Advance(w);
    if w.isBurst {
      var f := w.burstFrame + 1;
      var w1 := w.(burstFrame := f);
      var t := f as real / ANIM_FRAMES as real;
      MovePassOk(w1, Burst(t));
      if f >= ANIM_FRAMES {
        var v1 := MovePass(w1, Burst(t));
        MovePassOk(v1.(isBurst := false), Finish);
      }
    } else {
      MovePassOk(w, Osc);
    }
  }

  /** No ball is emitted on a tick that leaves the burst running. */
  lemma NoEmissionWhileBursting(w: World, es: seq<EmitDraw>)
    requires WorldValid(w) && |es| == |w.big|
    requires Linked(w) && Advance(w).isBurst
    ensures Tick(w, es).small == Advance(w).small && |Tick(w, es).small| == |w.small|
  {
  }

  /** The last tick of a burst: every ball there before it ends the tick at
      its outer limit, heading inward, and the burst is over. */
  lemma FinishingTick(w: World, es: seq<EmitDraw>)
    requires WorldValid(w) && w.isBurst && w.burstFrame == ANIM_FRAMES - 1
    requires |es| == |w.big| && AllEmitOk(es)
    ensures Linked(w)
    ensures var r := Tick(w, es);
      !r.isBurst && r.burstFrame == ANIM_FRAMES && |r.small| >= |w.small| &&
      (forall i :: 0 <= i < |r.big| ==> r.big[i].r == r.big[i].distA && r.big[i].sgn == -1) &&
      (forall i :: 0 <= i < |w.small| ==> r.small[i].r == r.small[i].distA && r.small[i].sgn == -1)
  {
    BallsOkLinked(w);
    var v := AdvanceOk(w);
    var f := w.burstFrame + 1;
    var t := f as real / ANIM_FRAMES as real;
    var w1 := w.(burstFrame := f);
    var v1 := MovePass(w1, Burst(t));
    MovePassOk(w1, Burst(t));
    var v2 := v1.(isBurst := false);
    assert v == MovePass(v2, Finish);
    forall i | 0 <= i < |v.big| ensures v.big[i].r == v.big[i].distA && v.big[i].sgn == -1 {
      assert BigOk(v2.big[i], Center(v2));
      FinishedAtLimit(v2.big[i], Center(v2));
    }
    forall i | 0 <= i < |v.small| ensures v.small[i].r == v.small[i].distA && v.small[i].sgn == -1 {
      assert SmallOk(v2.small[i], v2.big);
      FinishedAtLimit(v2.small[i], Anchor(v2.small[i], v.big, Center(v2)));
    }
    EmitFromOk(v, es, 0);
    var r := Tick(w, es);
    forall i | 0 <= i < |w.small| ensures r.small[i] == v.small[i] {
      assert r.small[..|v.small|][i] == v.small[i];
    }
  }

  /** While a burst runs, `k` ticks after its start the frame counter is
      `k` and no ball has been emitted. */
  lemma {:induction false} BurstPrefix(w: World, ds: seq<seq<EmitDraw>>, k: nat)
    requires WorldValid(w) && w.isBurst && w.burstFrame == 0
    requires k < ANIM_FRAMES && k <= |ds| && forall j :: 0 <= j < |ds| ==> |ds[j]| == |w.big|
    ensures Linked(w)
    ensures var v := TickN(w, ds, k);
      WorldValid(v) && v.isBurst && v.burstFrame == k && |v.small| == |w.small|
  {
    BallsOkLinked(w);
    if k > 0 {
      BurstPrefix(w, ds, k - 1);
      var u := TickN(w, ds, k - 1);
      var v := AdvanceOk(u);
    }
  }

  /** A burst started at frame 0 runs for exactly `ANIM_FRAMES` ticks: the
      frame counter reads 1, 2, ... on the ticks in between and the burst
      is still on; after the last tick it is over, and every big ball and
      every small ball that existed when it began sits at its outer limit
      heading inward. Balls emitted on the last tick are not included:
      emission runs after the burst flag is cleared. */
  lemma BurstLastsAnimFrames(w: World, ds: seq<seq<EmitDraw>>)
    requires WorldValid(w) && w.isBurst && w.burstFrame == 0
    requires |ds| == ANIM_FRAMES && forall j :: 0 <= j < |ds| ==> |ds[j]| == |w.big| && AllEmitOk(ds[j])
    ensures Linked(w)
    ensures forall k :: 0 <= k < ANIM_FRAMES ==> TickN(w, ds, k).isBurst && TickN(w, ds, k).burstFrame == k
    ensures var r := TickN(w, ds, ANIM_FRAMES);
      WorldValid(r) && !r.isBurst && r.burstFrame == ANIM_FRAMES && |r.small| >= |w.small| &&
      (forall i :: 0 <= i < |r.big| ==> r.big[i].r == r.big[i].distA && r.big[i].sgn == -1) &&
      (forall i :: 0 <= i < |w.small| ==> r.small[i].r == r.small[i].distA && r.small[i].sgn == -1)
  {
    BallsOkLinked(w);
    forall k | 0 <= k < ANIM_FRAMES
      ensures TickN(w, ds, k).isBurst && TickN(w, ds, k).burstFrame == k
    {
      BurstPrefix(w, ds, k);
    }
    BurstPrefix(w, ds, ANIM_FRAMES - 1);
    var u := TickN(w, ds, ANIM_FRAMES - 1);
    FinishingTick(u, ds[ANIM_FRAMES - 1]);
    TickValid(u, ds[ANIM_FRAMES - 1]);
  }

  /** `mousePressed` keeps the invariant, starts the burst at frame 0, and
      aims every ball at its newly drawn `distA` from its reseeded offset;
      the diameter, kind and parent of every ball are unchanged. */
  lemma PressStartsBurst(w: World, bigSeeds: seq<Seed>, smallSeeds: seq<Seed>)
    requires WorldValid(w) && |bigSeeds| == |w.big| && |smallSeeds| == |w.small|
    requires AllSeedOk(bigSeeds) && AllSeedOk(smallSeeds)
    ensures Linked(w)
    ensures var r := Press(w, bigSeeds, smallSeeds);
      WorldValid(r) && r.isBurst && r.burstFrame == 0 &&
      (forall i :: 0 <= i < |r.big| ==>
        r.big[i].rTarget == r.big[i].distA &&
        r.big[i].distA == Rolled(w.big[i], bigSeeds[i], MinSide(w)).distA &&
        r.big[i].rStart == r.big[i].r && r.big[i].d == w.big[i].d && r.big[i].parent == w.big[i].parent) &&
      (forall i :: 0 <= i < |r.small| ==>
        r.small[i].rTarget == r.small[i].distA &&
        r.small[i].distA == Rolled(w.small[i], smallSeeds[i], MinSide(w)).distA &&
        r.small[i].rStart == r.small[i].r && r.small[i].d == w.small[i].d &&
        r.small[i].isBig == w.small[i].isBig && r.small[i].parent == w.small[i].parent)
  {
    BallsOkLinked(w);
    var c := Center(w);
    var ms := MinSide(w);
    var v := ReseedPass(w, bigSeeds, smallSeeds);
    forall i | 0 <= i < |w.big| ensures BigOk(v.big[i], c) {
      assert BigOk(w.big[i], c);
      ReseedKeepsIdentity(w.big[i], bigSeeds[i], ms, c);
    }
    forall i | 0 <= i < |w.small| ensures SmallOk(v.small[i], v.big) {
      assert SmallOk(w.small[i], w.big);
      ReseedKeepsIdentity(w.small[i], smallSeeds[i], ms, Pos(v.big[w.small[i].parent.value]));
    }
    var v1 := v.(isBurst := true, burstFrame := 0);
    MovePassOk(v1, Start);
  }

  /** `rebuildBalls` leaves exactly `NUM_BIG` big balls, no small balls and
      no burst, and the invariant holds. */
  lemma RebuildValid(w: World, seeds: seq<Spawn>)
    requires CanvasOk(w) && |seeds| == NUM_BIG && AllSpawnOk(seeds)
    ensures var r := Rebuild(w, seeds);
      WorldValid(r) && |r.big| == NUM_BIG && r.small == [] && !r.isBurst && r.burstFrame == 0
  {
    NewBigsOk(seeds, MinSide(w), Center(w));
  }

  lemma NewBigsOk(seeds: seq<Spawn>, minSide: real, c: Point)
    requires AllSpawnOk(seeds) && minSide > 0.0
    ensures forall i :: 0 <= i < |seeds| ==> BigOk(NewBigs(seeds, minSide, c)[i], c)
  {
    forall i | 0 <= i < |seeds| ensures BigOk(NewBigs(seeds, minSide, c)[i], c) {
      NewBallWellFormed(true, None, 0.0, minSide, seeds[i], c);
    }
  }

  /** `setup` starts with `2 * NUM_BIG` big balls (its own loop runs after
      `rebuildBalls`), no small balls and no burst. */
  lemma SetupValid(width: real, height: real, seeds1: seq<Spawn>, seeds2: seq<Spawn>)
    requires width > 0.0 && height > 0.0
    requires |seeds1| == NUM_BIG && |seeds2| == NUM_BIG && AllSpawnOk(seeds1) && AllSpawnOk(seeds2)
    ensures var r := Setup(width, height, seeds1, seeds2);
      WorldValid(r) && |r.big| == 2 * NUM_BIG && r.small == [] && !r.isBurst && r.burstFrame == 0
  {
    var w := Rebuild(Canvas(width, height), seeds1);
    RebuildValid(Canvas(width, height), seeds1);
    NewBigsOk(seeds2, MinSide(w), Center(w));
    var r := Setup(width, height, seeds1, seeds2);
    forall i | 0 <= i < |r.big| ensures BigOk(r.big[i], Center(r)) {
      if i < NUM_BIG {
        assert r.big[i] == w.big[i];
      } else {
        assert r.big[i] == NewBigs(seeds2, MinSide(w), Center(w))[i - NUM_BIG];
      }
    }
  }

  /** `windowResized` recentres on the new canvas and rebuilds: `NUM_BIG` big
      balls, no small balls, no burst. */
  lemma ResizedValid(w: World, width: real, height: real, seeds: seq<Spawn>)
    requires width > 0.0 && height > 0.0 && |seeds| == NUM_BIG && AllSpawnOk(seeds)
    ensures var r := Resized(w, width, height, seeds);
      WorldValid(r) && |r.big| == NUM_BIG && r.small == [] && !r.isBurst && r.burstFrame == 0 &&
      r.centerX == width / 2.0 && r.centerY == height / 2.0
  {
    RebuildValid(w.(width := width, height := height, centerX := width / 2.0, centerY := height / 2.0), seeds);
  }

  /** The sketch never has more balls than the shader's arrays hold, so
      packing never truncates. */
  lemma NeverTruncates(w: World)
    requires WorldValid(w)
    ensures |w.big| + |w.small| < MAX_BALLS
  {
  }

  /** The packed arrays give back each ball's position and diameter. */
  lemma UnpackRoundTrip(all: seq<BallState>, width: real, height: real, n: nat, pos: seq<real>, rad: seq<real>)
    requires width > 0.0 && height > 0.0 && Packed(all, width, height, n, pos, rad)
    ensures n <= |all| && n <= MAX_BALLS
    ensures forall i :: 0 <= i < n ==>
      pos[2 * i] * width == all[i].x && (1.0 - pos[2 * i + 1]) * height == all[i].y &&
      rad[i] * 2.0 * width == all[i].d
  {
    forall i | 0 <= i < n
      ensures pos[2 * i] * width == all[i].x && (1.0 - pos[2 * i + 1]) * height == all[i].y &&
              rad[i] * 2.0 * width == all[i].d
    {
      assert pos[2 * i] == all[i].x / width;
      assert 1.0 - pos[2 * i + 1] == all[i].y / height;
      assert rad[i] == all[i].d * 0.5 / width;
    }
  }
}
