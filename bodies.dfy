/**
  The value a ball of the game carries: position and radius (`posData`),
  velocity (`movData`), mass, id, the movable and visible flags and the
  observers registered with it.  Ids: 0 is the cue ball, 1-7 the solids,
  8 the eight-ball, 9-15 the stripes, 999 a table collider.

  The ball's own class (physics, texture, notification) is not part of this
  model; only the fields the level and the table read and write are kept.
*/
module Bodies {

  /** The two observers a ball can be registered with. */
  datatype Observer = Collision | Audio

  datatype PosData = PosData(x: real, y: real, radius: real)
  datatype MovData = MovData(vx: real, vy: real)

  datatype Ball = Ball(
    pos: PosData,
    mov: MovData,
    mass: real,
    id: int,
    movable: bool,
    visible: bool,
    observers: seq<Observer>)

  /** An integer screen point, such as a pocket sensor. */
  datatype Point = Point(x: int, y: int)

  function Sq(a: real): real { a * a }

  /**
    The ball's position is closer to (x, y) than two of its radii:
    `hypot(b.x - x, b.y - y) < 2 * b.radius`, compared on squares.
  */
  predicate Overlaps(b: Ball, x: real, y: real)
  {
    Sq(b.pos.x - x) + Sq(b.pos.y - y) < Sq(2.0 * b.pos.radius)
  }

  /**
    The point p lies within the ball's radius of its position:
    `hypot(b.x - p.x, b.y - p.y) <= b.radius`, compared on squares.
  */
  predicate Covers(b: Ball, p: Point)
  {
    Sq(b.pos.x - p.x as real) + Sq(b.pos.y - p.y as real) <= Sq(b.pos.radius)
  }

  /** Squares of non-negative reals keep their order. */
  lemma SqMonotone(a: real, c: real)
    requires 0.0 <= c <= a
    ensures Sq(c) <= Sq(a)
  {
    assert a * a - c * c == (a - c) * (a + c);
    assert (a - c) * (a + c) >= 0.0;
  }

  /**
    An overlap can only happen to the right of `x - 2r`: a candidate at or
    left of that line is clear of the ball.
  */
  lemma OverlapBound(b: Ball, x: real, y: real)
    requires b.pos.radius > 0.0
    requires Overlaps(b, x, y)
    ensures x > b.pos.x - 2.0 * b.pos.radius
  {
    if x <= b.pos.x - 2.0 * b.pos.radius {
      SqMonotone(b.pos.x - x, 2.0 * b.pos.radius);
      assert false;
    }
  }

  /** An overlap lies within two radii of the ball along either axis. */
  lemma OverlapsNear(b: Ball, x: real, y: real)
    requires Overlaps(b, x, y) && b.pos.radius >= 0.0
    ensures -2.0 * b.pos.radius < b.pos.x - x < 2.0 * b.pos.radius
    ensures -2.0 * b.pos.radius < b.pos.y - y < 2.0 * b.pos.radius
  {
    var d := 2.0 * b.pos.radius;
    NearAxis(b.pos.x - x, b.pos.y - y, d);
    NearAxis(b.pos.y - y, b.pos.x - x, d);
  }

  /** A covered point lies within one radius of the ball along either axis. */
  lemma CoversNear(b: Ball, p: Point)
    requires Covers(b, p) && b.pos.radius >= 0.0
    ensures -b.pos.radius <= b.pos.x - p.x as real <= b.pos.radius
    ensures -b.pos.radius <= b.pos.y - p.y as real <= b.pos.radius
  {
    var dx := b.pos.x - p.x as real;
    var dy := b.pos.y - p.y as real;
    NearAxisClosed(dx, dy, b.pos.radius);
    NearAxisClosed(dy, dx, b.pos.radius);
  }

  /** Squares of non-negative reals keep their strict order. */
  lemma SqStrict(a: real, c: real)
    requires 0.0 <= c < a
    ensures Sq(c) < Sq(a)
  {
    var e := a - c;
    assert a * a == c * c + (2.0 * c + e) * e;
    assert (2.0 * c + e) * e > 0.0;
  }

  /** One coordinate of a point strictly inside a circle of radius d lies strictly within d. */
  lemma NearAxis(u: real, v: real, d: real)
    requires d >= 0.0 && Sq(u) + Sq(v) < Sq(d)
    ensures -d < u < d
  {
    var m := if u >= 0.0 then u else -u;
    assert Sq(m) == Sq(u) && Sq(v) >= 0.0;
    if m >= d {
      SqMonotone(m, d);
      assert false;
    }
  }

  /** One coordinate of a point in a closed circle of radius r lies within r. */
  lemma NearAxisClosed(u: real, v: real, r: real)
    requires r >= 0.0 && Sq(u) + Sq(v) <= Sq(r)
    ensures -r <= u <= r
  {
    var m := if u >= 0.0 then u else -u;
    assert Sq(m) == Sq(u) && Sq(v) >= 0.0;
    if m > r {
      SqStrict(m, r);
      assert false;
    }
  }

  /** The list with every registration of `o` removed (`removeObserver`). */
  function Without(obs: seq<Observer>, o: Observer): (r: seq<Observer>)
    ensures o !in r
    ensures forall p :: p != o ==> (p in r <==> p in obs)
    ensures |r| <= |obs|
  {
    if obs == [] then []
    else if obs[0] == o then Without(obs[1..], o)
    else [obs[0]] + Without(obs[1..], o)
  }

  /**
    What `check_pocket` does to a ball that fell into a pocket: it stops
    taking part in collisions (the collision observer is removed) and is no
    longer movable nor drawn.  Everything else is kept.
  */
  function Pocketed(b: Ball): (r: Ball)
    ensures !r.visible && !r.movable
    ensures Collision !in r.observers
    ensures Audio in r.observers <==> Audio in b.observers
    ensures r.pos == b.pos && r.mov == b.mov && r.id == b.id && r.mass == b.mass
  {
    b.(movable := false, visible := false, observers := Without(b.observers, Collision))
  }
}
