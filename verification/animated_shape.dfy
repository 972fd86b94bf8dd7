/**
 * The bouncing shape of the animation panel: its state, the one-tick
 * physics step (advance, then bounce and clamp per axis), the randomised
 * factory driven by injected draws, and the vertex lists of the triangle
 * and the star.
 */
module AnimatedShapes {

  /** The four silhouettes, in declaration order. */
  datatype ShapeType = Circle | Square | Triangle | Star

  /** An opaque RGB colour (every colour the program builds has alpha 255). */
  datatype Color = Rgb(r: int, g: int, b: int)

  /**
   * The value held by a shape's fields. The program declares the numeric
   * fields as floats but only ever stores whole numbers in them.
   */
  datatype ShapeState = ShapeState(
    x: int, y: int,        // top-left corner of the bounding square
    vx: int, vy: int,      // displacement per tick
    size: int,             // side of the bounding square
    primary: Color, secondary: Color,
    kind: ShapeType)

  function Abs(n: int): (r: nat) { if n < 0 then -n else n }

  function Max(a: int, b: int): (r: int) { if a >= b then a else b }

  /** A reference clamp into `[lo, hi]`, independent of the bounce code. */
  function Clamp(p: int, lo: int, hi: int): (r: int)
    requires lo <= hi
    ensures lo <= r <= hi
    ensures lo <= p <= hi ==> r == p
  {
    if p < lo then lo else if p > hi then hi else p
  }

  // ---------------------------------------------------------------------
  // Motion
  // ---------------------------------------------------------------------

  /** One axis after a step: the new coordinate and the new velocity. */
  datatype Axis = Axis(pos: int, vel: int)

  /**
   * One axis of `Move`: add the velocity; if the updated coordinate is at
   * or beyond an edge (`<= 0` or `>= limit`, where `limit` is the container
   * side minus the shape's size), negate the velocity, then raise a negative
   * coordinate to 0 and after that lower one above `limit` to `limit`.
   */
  function Bounce(pos: int, vel: int, limit: int): (r: Axis)
    ensures r.vel == vel || r.vel == -vel
    ensures limit >= 0 ==> 0 <= r.pos <= limit
    ensures limit < 0 ==> r.pos == limit
  {
    var p := pos + vel;
    if p <= 0 || p >= limit then
      var raised := if p < 0 then 0 else p;
      Axis(if raised > limit then limit else raised, -vel)
    else
      Axis(p, vel)
  }

  /** The state after one `Move` within a container of the given size. */
  function Moved(s: ShapeState, containerWidth: int, containerHeight: int): (r: ShapeState)
    ensures r.size == s.size && r.kind == s.kind
    ensures r.primary == s.primary && r.secondary == s.secondary
    ensures Abs(r.vx) == Abs(s.vx) && Abs(r.vy) == Abs(s.vy)
  {
    var ax := Bounce(s.x, s.vx, containerWidth - s.size);
    var ay := Bounce(s.y, s.vy, containerHeight - s.size);
    s.(x := ax.pos, vx := ax.vel, y := ay.pos, vy := ay.vel)
  }

  /** The bounding square lies inside the container. */
  predicate Inside(s: ShapeState, containerWidth: int, containerHeight: int)
  {
    0 <= s.x <= containerWidth - s.size && 0 <= s.y <= containerHeight - s.size
  }

  /** `n` consecutive ticks in a container of fixed size. */
  function Run(s: ShapeState, containerWidth: int, containerHeight: int, n: nat): (r: ShapeState)
  {
    if n == 0 then s else Moved(Run(s, containerWidth, containerHeight, n - 1), containerWidth, containerHeight)
  }

  /** When the container is at least as large as the shape, one step ends inside, at the clamped advanced coordinate. */
  lemma BounceInside(pos: int, vel: int, limit: int)
    requires limit >= 0
    ensures 0 <= Bounce(pos, vel, limit).pos <= limit
    ensures Bounce(pos, vel, limit).pos == Clamp(pos + vel, 0, limit)
  {
  }

  /** When the container is smaller than the shape, the clamp leaves the (negative) limit. */
  lemma BounceDegenerate(pos: int, vel: int, limit: int)
    requires limit < 0
    ensures Bounce(pos, vel, limit) == Axis(limit, -vel)
  {
  }

  /** The velocity is negated exactly when the advanced coordinate is at or past an edge, and is otherwise kept. */
  lemma BounceFlips(pos: int, vel: int, limit: int)
    requires vel != 0
    ensures Bounce(pos, vel, limit).vel == -vel <==> (pos + vel <= 0 || pos + vel >= limit)
    ensures Bounce(pos, vel, limit).vel == vel <==> 0 < pos + vel < limit
  {
  }

  /** A step leaves both axes inside any container at least as large as the shape, from any start. */
  lemma MoveInside(s: ShapeState, containerWidth: int, containerHeight: int)
    requires s.size <= containerWidth && s.size <= containerHeight
    ensures Inside(Moved(s, containerWidth, containerHeight), containerWidth, containerHeight)
  {
    BounceInside(s.x, s.vx, containerWidth - s.size);
    BounceInside(s.y, s.vy, containerHeight - s.size);
  }

  /**
   * The axes are independent: the new x and x-velocity depend only on x,
   * the x-velocity, the size and the width, and the same holds for y.
   */
  lemma MoveAxesIndependent(s: ShapeState, t: ShapeState, w1: int, h1: int, w2: int, h2: int)
    requires s.size == t.size
    ensures s.x == t.x && s.vx == t.vx && w1 == w2 ==>
      Moved(s, w1, h1).x == Moved(t, w2, h2).x && Moved(s, w1, h1).vx == Moved(t, w2, h2).vx
    ensures s.y == t.y && s.vy == t.vy && h1 == h2 ==>
      Moved(s, w1, h1).y == Moved(t, w2, h2).y && Moved(s, w1, h1).vy == Moved(t, w2, h2).vy
  {
  }

  /**
   * A shape in the top-left corner moving up-left bounces on both axes in the
   * same tick, in any container; when the container is at least as large as
   * the shape, it also stays in the corner.
   */
  lemma CornerDoubleBounce(s: ShapeState, containerWidth: int, containerHeight: int)
    requires s.x == 0 && s.y == 0 && s.vx == -1 && s.vy == -1
    ensures Moved(s, containerWidth, containerHeight).vx == 1 && Moved(s, containerWidth, containerHeight).vy == 1
    ensures s.size <= containerWidth && s.size <= containerHeight ==>
      Moved(s, containerWidth, containerHeight) == s.(vx := 1, vy := 1)
  {
  }

  // ---------------------------------------------------------------------
  // The randomised factory
  // ---------------------------------------------------------------------

  /**
   * The raw values one factory call takes from the random source, in the
   * order the code draws them.
   */
  datatype Draws = Draws(
    color: nat, size: nat, x: nat, y: nat,
    speedX: nat, signX: nat, speedY: nat, signY: nat,
    kind: nat)

  /** A draw of `Random.Next(lo, hi)`: a value in `[lo, hi)`. */
  function NextInRange(raw: nat, lo: int, hi: int): (r: int)
    requires lo < hi
    ensures lo <= r < hi
  {
    lo + raw % (hi - lo)
  }

  /** The six gradient colour pairs, in the order the factory indexes them. */
  const ColorPairs: seq<(Color, Color)> := [
    (Rgb(255, 99, 71), Rgb(255, 165, 0)),
    (Rgb(0, 191, 255), Rgb(30, 144, 255)),
    (Rgb(50, 205, 50), Rgb(34, 139, 34)),
    (Rgb(255, 20, 147), Rgb(199, 21, 133)),
    (Rgb(138, 43, 226), Rgb(75, 0, 130)),
    (Rgb(255, 215, 0), Rgb(255, 140, 0))
  ]

  /** The enumeration's values in declaration order. */
  const ShapeTypes: seq<ShapeType> := [Circle, Square, Triangle, Star]

  /** The velocity components the factory can produce: never zero. */
  const Speeds: set<int> := {-3, -2, -1, 1, 2, 3}

  /** The exclusive upper bound of a random start coordinate. */
  function StartBound(maxSide: int, size: int): (bound: int)
  {
    Max(11, maxSide - size - 10)
  }

  /** Exactly the shapes the factory can return for a container of the given size. */
  predicate FactoryRange(s: ShapeState, maxWidth: int, maxHeight: int)
  {
    && 25 <= s.size < 55
    && 10 <= s.x < StartBound(maxWidth, s.size)
    && 10 <= s.y < StartBound(maxHeight, s.size)
    && s.vx in Speeds && s.vy in Speeds
    && (s.primary, s.secondary) in ColorPairs
  }

  function Signed(magnitude: int, coin: int): (v: int)
  {
    magnitude * (if coin == 0 then 1 else -1)
  }

  /** `CreateRandom` on injected draws. */
  function RandomShape(maxWidth: int, maxHeight: int, d: Draws): (s: ShapeState)
    ensures FactoryRange(s, maxWidth, maxHeight)
  {
    var pair := ColorPairs[NextInRange(d.color, 0, |ColorPairs|)];
    var size := NextInRange(d.size, 25, 55);
    var x := NextInRange(d.x, 10, StartBound(maxWidth, size));
    var y := NextInRange(d.y, 10, StartBound(maxHeight, size));
    var vx := Signed(NextInRange(d.speedX, 1, 4), NextInRange(d.signX, 0, 2));
    var vy := Signed(NextInRange(d.speedY, 1, 4), NextInRange(d.signY, 0, 2));
    var kind := ShapeTypes[NextInRange(d.kind, 0, |ShapeTypes|)];
    ShapeState(x, y, vx, vy, size, pair.0, pair.1, kind)
  }

  /** The raw draw that makes `NextInRange` yield a chosen value. */
  lemma NextInRangeHits(v: int, lo: int, hi: int)
    requires lo <= v < hi
    ensures NextInRange(v - lo, lo, hi) == v
  {
  }

  /** The raw speed and coin draws that yield a chosen velocity component. */
  function SpeedDraws(v: int): (raw: (nat, nat))
    requires v in Speeds
  {
    (Abs(v) - 1, if v > 0 then 0 else 1)
  }

  lemma SpeedDrawsHit(v: int)
    requires v in Speeds
    ensures Signed(NextInRange(SpeedDraws(v).0, 1, 4), NextInRange(SpeedDraws(v).1, 0, 2)) == v
  {
    if v > 0 {
      assert NextInRange(SpeedDraws(v).0, 1, 4) == v;
      assert NextInRange(SpeedDraws(v).1, 0, 2) == 0;
    } else {
      assert NextInRange(SpeedDraws(v).0, 1, 4) == -v;
      assert NextInRange(SpeedDraws(v).1, 0, 2) == 1;
    }
  }

  /** The raw draw that selects a given shape type. */
  function KindDraw(k: ShapeType): (i: nat)
    ensures i < |ShapeTypes| && ShapeTypes[i] == k
  {
    match k
    case Circle => 0
    case Square => 1
    case Triangle => 2
    case Star => 3
  }

  /** Every shape of `FactoryRange` is produced by some draws: the range is exact. */
  lemma RandomShapeCovers(s: ShapeState, maxWidth: int, maxHeight: int)
    requires FactoryRange(s, maxWidth, maxHeight)
    ensures exists d :: RandomShape(maxWidth, maxHeight, d) == s
  {
    var c :| 0 <= c < |ColorPairs| && ColorPairs[c] == (s.primary, s.secondary);
    var d := Draws(c, s.size - 25, s.x - 10, s.y - 10,
                   SpeedDraws(s.vx).0, SpeedDraws(s.vx).1,
                   SpeedDraws(s.vy).0, SpeedDraws(s.vy).1, KindDraw(s.kind));
    NextInRangeHits(c, 0, |ColorPairs|);
    NextInRangeHits(s.size, 25, 55);
    NextInRangeHits(s.x, 10, StartBound(maxWidth, s.size));
    NextInRangeHits(s.y, 10, StartBound(maxHeight, s.size));
    NextInRangeHits(KindDraw(s.kind), 0, |ShapeTypes|);
    SpeedDrawsHit(s.vx);
    SpeedDrawsHit(s.vy);
    var r := RandomShape(maxWidth, maxHeight, d);
    assert r.size == s.size && r.x == s.x && r.y == s.y;
    assert r.vx == s.vx && r.vy == s.vy && r.kind == s.kind;
    assert r == s;
  }

  /** In a container at least 75 wide, a new shape starts inside with a 10-unit margin on both sides. */
  lemma RandomShapeFits(maxWidth: int, maxHeight: int, d: Draws)
    requires maxWidth >= 75 && maxHeight >= 75
    ensures var s := RandomShape(maxWidth, maxHeight, d);
      10 <= s.x && s.x + s.size + 10 < maxWidth && 10 <= s.y && s.y + s.size + 10 < maxHeight
  {
  }

  /** The invariant every shape in the scene keeps: a factory size and factory speeds. */
  predicate WellFormed(s: ShapeState)
  {
    25 <= s.size < 55 && s.vx in Speeds && s.vy in Speeds
  }

  /** A step keeps a shape well formed: sizes and speeds never change. */
  lemma MoveKeepsWellFormed(s: ShapeState, containerWidth: int, containerHeight: int)
    requires WellFormed(s)
    ensures WellFormed(Moved(s, containerWidth, containerHeight))
  {
  }

  /** Any number of ticks keeps a shape well formed, and after at least one it is inside a large enough container. */
  lemma {:induction false} RunKeepsInvariant(s: ShapeState, containerWidth: int, containerHeight: int, n: nat)
    requires WellFormed(s)
    ensures WellFormed(Run(s, containerWidth, containerHeight, n))
    ensures n >= 1 && 55 <= containerWidth && 55 <= containerHeight ==>
      Inside(Run(s, containerWidth, containerHeight, n), containerWidth, containerHeight)
  {
    if n > 0 {
      var before := Run(s, containerWidth, containerHeight, n - 1);
      RunKeepsInvariant(s, containerWidth, containerHeight, n - 1);
      MoveKeepsWellFormed(before, containerWidth, containerHeight);
      if 55 <= containerWidth && 55 <= containerHeight {
        MoveInside(before, containerWidth, containerHeight);
      }
    }
  }

  // ---------------------------------------------------------------------
  // Vertex geometry
  // ---------------------------------------------------------------------

  datatype Point = Point(x: real, y: real)

  /** The point lies in the shape's bounding square. */
  predicate InSquare(p: Point, s: ShapeState)
  {
    s.x as real <= p.x <= (s.x + s.size) as real && s.y as real <= p.y <= (s.y + s.size) as real
  }

  /** The triangle: apex at the top centre, then the bottom-left and bottom-right corners. */
  function TrianglePoints(s: ShapeState): (pts: seq<Point>)
    ensures |pts| == 3
    ensures s.size >= 0 ==> forall p :: p in pts ==> InSquare(p, s)
  {
    var x, y, size := s.x as real, s.y as real, s.size as real;
    [Point(x + size / 2.0, y), Point(x, y + size), Point(x + size, y + size)]
  }

  /** The triangle is isosceles with its apex on the top edge and its base spanning the bottom edge. */
  lemma TriangleShape(s: ShapeState)
    ensures var pts := TrianglePoints(s);
      && pts[0].y == s.y as real
      && pts[1].y == pts[2].y == (s.y + s.size) as real
      && pts[2].x - pts[1].x == s.size as real
      && pts[0].x - pts[1].x == pts[2].x - pts[0].x
  {
  }

  /**
   * A star vertex as polar coordinates: at `radius` from `centre`, in the
   * direction 90 degrees plus `step` times 36 degrees (the Cartesian
   * coordinates are the cosine and sine of that angle, not modelled).
   */
  datatype StarVertex = StarVertex(centre: Point, radius: real, step: nat)

  function StarCentre(s: ShapeState): (c: Point)
  {
    Point(s.x as real + s.size as real / 2.0, s.y as real + s.size as real / 2.0)
  }

  /** The ten star vertices, alternating outer radius `size/2` and inner radius `size/4`. */
  function StarVertices(s: ShapeState): (vs: seq<StarVertex>)
    ensures |vs| == 10
  {
    seq(10, i requires 0 <= i < 10 =>
      StarVertex(StarCentre(s), if i % 2 == 0 then s.size as real / 2.0 else s.size as real / 4.0, i))
  }

  /**
   * The star is centred in the bounding square, its outer points are twice as
   * far out as its inner ones, and no vertex is further from the centre than
   * half the side, so the star lies within the square's inscribed circle.
   */
  lemma StarShape(s: ShapeState, i: nat)
    requires i < 10
    ensures var v := StarVertices(s)[i];
      && v.centre == StarCentre(s) && v.step == i
      && (i % 2 == 0 ==> v.radius == s.size as real / 2.0)
      && (i % 2 == 1 ==> v.radius * 2.0 == s.size as real / 2.0)
      && (s.size >= 0 ==> 0.0 <= v.radius <= s.size as real / 2.0)
  {
  }

  // ---------------------------------------------------------------------
  // The mutable shape
  // ---------------------------------------------------------------------

  class AnimatedShape {
    var posX: int
    var posY: int
    var velocityX: int
    var velocityY: int
    var size: int
    var primaryColor: Color
    var secondaryColor: Color
    var shapeType: ShapeType

    /** The value of all fields. */
    function State(): ShapeState
      reads this
    {
      ShapeState(posX, posY, velocityX, velocityY, size, primaryColor, secondaryColor, shapeType)
    }

    constructor (x: int, y: int, size: int, velocityX: int, velocityY: int,
                 primary: Color, secondary: Color, shape: ShapeType)
      ensures State() == ShapeState(x, y, velocityX, velocityY, size, primary, secondary, shape)
    {
      this.posX := x;
      this.posY := y;
      this.size := size;
      this.velocityX := velocityX;
      this.velocityY := velocityY;
      this.primaryColor := primary;
      this.secondaryColor := secondary;
      this.shapeType := shape;
    }

    /** A new shape with the state `RandomShape` gives for these draws. */
    static method CreateRandom(maxWidth: int, maxHeight: int, d: Draws) returns (shape: AnimatedShape)
      ensures fresh(shape)
      ensures shape.State() == RandomShape(maxWidth, maxHeight, d)
    {
      var s := RandomShape(maxWidth, maxHeight, d);
      shape := new AnimatedShape(s.x, s.y, s.size, s.vx, s.vy, s.primary, s.secondary, s.kind);
    }

    /** One tick: advance both coordinates, then bounce and clamp each axis on its own. */
    method Move(containerWidth: int, containerHeight: int)
      modifies this
      ensures State() == Moved(old(State()), containerWidth, containerHeight)
    {
      posX := posX + velocityX;
      posY := posY + velocityY;

      if posX <= 0 || posX >= containerWidth - size {
        velocityX := -velocityX;
        if posX < 0 { posX := 0; }
        if posX > containerWidth - size { posX := containerWidth - size; }
      }

      if posY <= 0 || posY >= containerHeight - size {
        velocityY := -velocityY;
        if posY < 0 { posY := 0; }
        if posY > containerHeight - size { posY := containerHeight - size; }
      }
    }

    /** The star's ten vertices, filled into a new array one index at a time. */
    method StarPoints() returns (points: array<StarVertex>)
      ensures points.Length == 10
      ensures points[..] == StarVertices(State())
    {
      var centre := Point(posX as real + size as real / 2.0, posY as real + size as real / 2.0);
      var outerRadius := size as real / 2.0;
      var innerRadius := size as real / 4.0;
      points := new StarVertex[10](_ => StarVertex(centre, 0.0, 0));
      for i := 0 to 10
        invariant forall j :: 0 <= j < i ==> points[j] == StarVertices(State())[j]
      {
        var radius := if i % 2 == 0 then outerRadius else innerRadius;
        points[i] := StarVertex(centre, radius, i);
      }
    }
  }
}
