/**
  The pool table (src/table.cpp): its image is centred in the window, and
  six rail colliders plus twelve ball-shaped pocket colliders are placed at
  hand-tuned offsets from the table's origin and image size.  The rails and
  the pocket colliders all report to the collision observer handed to the
  constructor.
*/
module Tables {
  import opened Bodies

  /** The table's bounds as the level reads them: origin and image size. */
  datatype Area = Area(x: int, y: int, w: nat, h: nat)

  /** A rectangular rail collider: its shape and its observers. */
  datatype Rail = Rail(x: int, y: int, w: int, h: int, observers: seq<Observer>)

  /** The id every table collider carries. */
  const ColliderId := 999

  /** `std::numeric_limits<long>::max()` on a 64-bit `long`. */
  const LongMax: real := 9223372036854775807.0

  /**
    The origin that centres an image in a window: the difference halved by
    C++ integer division, which truncates toward zero.  Both margins differ
    by at most one pixel.
  */
  function Centre(window: int, image: nat): (p: int)
    ensures window >= image ==> 0 <= p && 2 * p <= window - image <= 2 * p + 1
    ensures window < image ==> p <= 0 && 2 * p - 1 <= window - image <= 2 * p
  {
    var d := window - image;
    if d >= 0 then d / 2 else -((-d) / 2)
  }

  /** A rail collider after `setShape` and `addObserver(c)`. */
  function Shaped(x: int, y: int, w: int, h: int, c: Observer): Rail
  {
    Rail(x, y, w, h, [c])
  }

  /**
    The six rails: left and right, then the two top and the two bottom
    halves.  Side rails are 40 wide, top and bottom rails 40 tall.
  */
  function RailLayout(x: int, y: int, w: nat, h: nat, c: Observer): (r: seq<Rail>)
    ensures |r| == 6
    ensures forall k :: 0 <= k < 6 ==> r[k].observers == [c]
    ensures r[0].w == r[1].w == 40
    ensures r[2].h == r[3].h == r[4].h == r[5].h == 40
    ensures r[0].x == x - 3 && r[1].x + r[1].w == x + w + 3
    ensures r[2].y == r[4].y && r[3].y == r[5].y && r[2].x == r[3].x + 2 && r[4].x == r[5].x
  {
    [ Shaped(x - 3, y + 60, 40, 252, c),
      Shaped(x + w - 37, y + 62, 40, 249, c),
      Shaped(x + 61, y - 5, 268, 40, c),
      Shaped(x + 59, y + h - 37, 268, 40, c),
      Shaped(x + 371, y - 5, 269, 40, c),
      Shaped(x + 371, y + h - 37, 269, 40, c) ]
  }

  /** A ball collider after the set-up loop: immovable, infinite mass, id 999, observed by c. */
  function Collider(blank: Ball, c: Observer): (r: Ball)
    ensures r.id == ColliderId && !r.movable && r.mass == LongMax
    ensures r.observers == blank.observers + [c]
  {
    blank.(mass := LongMax, movable := false, id := ColliderId, observers := blank.observers + [c])
  }

  /** `setPos`: only the centre moves. */
  function At(b: Ball, x: int, y: int): (r: Ball)
  {
    b.(pos := b.pos.(x := x as real, y := y as real))
  }

  /**
    The twelve pocket colliders, two at each pocket: top left, top middle,
    top right, then the bottom row in the same order.  The left pairs are
    mirror images of each other across the table's horizontal centre line.
  */
  function ColliderLayout(x: int, y: int, w: nat, h: nat, c: Observer, blank: Ball): (r: seq<Ball>)
    ensures |r| == 12
    ensures forall k :: 0 <= k < 12 ==>
      r[k].id == ColliderId && !r[k].movable && r[k].mass == LongMax && r[k].observers == blank.observers + [c]
    ensures r[0].pos.x == r[6].pos.x == (x + 27) as real
    ensures r[0].pos.y - y as real == (y + h) as real - r[6].pos.y == 58.0
    ensures r[1].pos.x == r[7].pos.x == (x + 58) as real
    ensures r[1].pos.y - y as real == (y + h) as real - r[7].pos.y == 25.0
  {
    var b := Collider(blank, c);
    TopColliders(x, y, w, b) + BottomColliders(x, y, w, h, b)
  }

  /** The six colliders at the top pockets, left to right. */
  function TopColliders(x: int, y: int, w: nat, b: Ball): (r: seq<Ball>)
    ensures |r| == 6
  {
    [ At(b, x + 27, y + 58), At(b, x + 58, y + 25),
      At(b, x + 325, y + 25), At(b, x + 375, y + 25),
      At(b, x + w - 58, y + 24), At(b, x + w - 27, y + 57) ]
  }

  /** The six colliders at the bottom pockets, left to right. */
  function BottomColliders(x: int, y: int, w: nat, h: nat, b: Ball): (r: seq<Ball>)
    ensures |r| == 6
  {
    [ At(b, x + 27, y + h - 58), At(b, x + 58, y + h - 25),
      At(b, x + 325, y + h - 26), At(b, x + 375, y + h - 26),
      At(b, x + w - 58, y + h - 25), At(b, x + w - 26, y + h - 58) ]
  }

  /**
    Every collider keeps its place relative to the table: moving the origin
    moves every rail and every pocket collider by the same amount.
  */
  lemma LayoutFollowsOrigin(x: int, y: int, w: nat, h: nat, dx: int, dy: int, c: Observer, blank: Ball, k: nat)
    requires k < 12
    ensures k < 6 ==>
      var moved := RailLayout(x + dx, y + dy, w, h, c)[k];
      var rail := RailLayout(x, y, w, h, c)[k];
      moved == rail.(x := rail.x + dx, y := rail.y + dy)
    ensures ColliderLayout(x + dx, y + dy, w, h, c, blank)[k].pos.x
      == ColliderLayout(x, y, w, h, c, blank)[k].pos.x + dx as real
    ensures ColliderLayout(x + dx, y + dy, w, h, c, blank)[k].pos.y
      == ColliderLayout(x, y, w, h, c, blank)[k].pos.y + dy as real
  {
  }

  /** The rail half of the constructor: `setShape`, then `addObserver(c)`, rail by rail. */
  method SetUpRails(rails: array<Rail>, x: int, y: int, w: nat, h: nat, c: Observer)
    requires rails.Length == 6
    requires forall k :: 0 <= k < 6 ==> rails[k].observers == []
    modifies rails
    ensures rails[..] == RailLayout(x, y, w, h, c)
  {
    rails[0] := rails[0].(x := x - 3, y := y + 60, w := 40, h := 252);
    rails[1] := rails[1].(x := x + w - 37, y := y + 62, w := 40, h := 249);
    rails[0] := rails[0].(observers := rails[0].observers + [c]);
    rails[1] := rails[1].(observers := rails[1].observers + [c]);
    rails[2] := rails[2].(x := x + 61, y := y - 5, w := 268, h := 40);
    rails[3] := rails[3].(x := x + 59, y := y + h - 37, w := 268, h := 40);
    rails[2] := rails[2].(observers := rails[2].observers + [c]);
    rails[3] := rails[3].(observers := rails[3].observers + [c]);
    rails[4] := rails[4].(x := x + 371, y := y - 5, w := 269, h := 40);
    rails[5] := rails[5].(x := x + 371, y := y + h - 37, w := 269, h := 40);
    rails[4] := rails[4].(observers := rails[4].observers + [c]);
    rails[5] := rails[5].(observers := rails[5].observers + [c]);
    assert rails[0] == Shaped(x - 3, y + 60, 40, 252, c);
    assert rails[1] == Shaped(x + w - 37, y + 62, 40, 249, c);
    assert rails[2] == Shaped(x + 61, y - 5, 268, 40, c);
    assert rails[..] == [rails[0], rails[1], rails[2], rails[3], rails[4], rails[5]];
  }

  /** The set-up loop: every collider becomes immovable, of infinite mass, id 999 and observed by c. */
  method ReadyColliders(balls: array<Ball>, c: Observer)
    modifies balls
    ensures forall j :: 0 <= j < balls.Length ==> balls[j] == Collider(old(balls[j]), c)
  {
    for k := 0 to balls.Length
      invariant forall j :: 0 <= j < k ==> balls[j] == Collider(old(balls[j]), c)
      invariant forall j :: k <= j < balls.Length ==> balls[j] == old(balls[j])
    {
      balls[k] := balls[k].(mass := LongMax, movable := false, id := ColliderId);
      balls[k] := balls[k].(observers := balls[k].observers + [c]);
    }
  }

  /** The collider half of the constructor: the set-up loop, then one `setPos` per collider. */
  method SetUpColliders(balls: array<Ball>, x: int, y: int, w: nat, h: nat, c: Observer, blank: Ball)
    requires balls.Length == 12
    requires forall k :: 0 <= k < 12 ==> balls[k] == blank
    modifies balls
    ensures balls[..] == ColliderLayout(x, y, w, h, c, blank)
  {
    ReadyColliders(balls, c);
    PlaceTop(balls, x, y, w, Collider(blank, c));
    PlaceBottom(balls, x, y, w, h, Collider(blank, c));
    assert balls[..] == balls[..6] + balls[6..];
  }

  /** The `setPos` calls for the top pockets. */
  method PlaceTop(balls: array<Ball>, x: int, y: int, w: nat, ghost ready: Ball)
    requires balls.Length == 12 && forall k :: 0 <= k < 6 ==> balls[k] == ready
    modifies balls
    ensures balls[..6] == TopColliders(x, y, w, ready)
    ensures balls[6..] == old(balls[6..])
  {
    balls[0] := At(balls[0], x + 27, y + 58);
    balls[1] := At(balls[1], x + 58, y + 25);
    balls[2] := At(balls[2], x + 325, y + 25);
    balls[3] := At(balls[3], x + 375, y + 25);
    balls[4] := At(balls[4], x + w - 58, y + 24);
    balls[5] := At(balls[5], x + w - 27, y + 57);
    assert balls[..6] == [balls[0], balls[1], balls[2], balls[3], balls[4], balls[5]];
  }

  /** The `setPos` calls for the bottom pockets. */
  method PlaceBottom(balls: array<Ball>, x: int, y: int, w: nat, h: nat, ghost ready: Ball)
    requires balls.Length == 12 && forall k :: 6 <= k < 12 ==> balls[k] == ready
    modifies balls
    ensures balls[6..] == BottomColliders(x, y, w, h, ready)
    ensures balls[..6] == old(balls[..6])
  {
    balls[6] := At(balls[6], x + 27, y + h - 58);
    balls[7] := At(balls[7], x + 58, y + h - 25);
    balls[8] := At(balls[8], x + 325, y + h - 26);
    balls[9] := At(balls[9], x + 375, y + h - 26);
    balls[10] := At(balls[10], x + w - 58, y + h - 25);
    balls[11] := At(balls[11], x + w - 26, y + h - 58);
    assert balls[6..] == [balls[6], balls[7], balls[8], balls[9], balls[10], balls[11]];
  }

  class Table {
    var posX: int
    var posY: int
    /** The size of the table image. */
    var width: nat
    var height: nat
    const r: array<Rail>
    const b: array<Ball>

    /** The bounds the level works with (`getX`, `getY`, `getWidth`, `getHeight`). */
    function Bounds(): (a: Area)
      reads this
      ensures a.x == posX && a.y == posY && a.w == width && a.h == height
    {
      Area(posX, posY, width, height)
    }

    /**
      Centres an image of size imageW x imageH in a window of size
      windowW x windowH and places the colliders around it.  `blank` is what
      a default-constructed ball holds once its texture is set.
    */
    constructor (windowW: int, windowH: int, imageW: nat, imageH: nat, c: Observer, blank: Ball)
      ensures fresh(r) && fresh(b)
      ensures width == imageW && height == imageH
      ensures posX == Centre(windowW, imageW) && posY == Centre(windowH, imageH)
      ensures r[..] == RailLayout(posX, posY, width, height, c)
      ensures b[..] == ColliderLayout(posX, posY, width, height, c, blank)
    {
      var x := Centre(windowW, imageW);
      var y := Centre(windowH, imageH);
      var rails := new Rail[6](_ => Rail(0, 0, 0, 0, []));
      SetUpRails(rails, x, y, imageW, imageH, c);
      var balls := new Ball[12](_ => blank);
      SetUpColliders(balls, x, y, imageW, imageH, c, blank);
      posX, posY := x, y;
      width, height := imageW, imageH;
      r, b := rails, balls;
    }
  }
}
