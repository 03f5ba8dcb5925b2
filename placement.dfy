/**
  Where the level puts things (src/level.cpp): the pocket sensors, the rack
  slots of the fifteen object balls, the off-table test, and the search for
  a free spot on which a ball re-enters the table.
*/
module Placement {
  import opened Bodies
  import opened Tables

  predicate PositiveRadii(s: seq<Ball>)
  {
    forall k :: 0 <= k < |s| ==> s[k].pos.radius > 0.0
  }

  // ---------------------------------------------------------------------
  // Off the table

  /** `ball_off_table`: the position lies outside the closed table rectangle. */
  predicate OffTable(b: Ball, a: Area)
  {
    b.pos.x < a.x as real || b.pos.x > (a.x + a.w) as real ||
    b.pos.y < a.y as real || b.pos.y > (a.y + a.h) as real
  }

  predicate AnyOffTable(s: seq<Ball>, a: Area, n: nat)
    requires n <= |s|
  {
    exists k :: 0 <= k < n && OffTable(s[k], a)
  }

  // ---------------------------------------------------------------------
  // The free-spot search (`get_safe_pos`)

  /** The search starts at x = 600 ... */
  const SafeStartX: real := 600.0

  /** ... on the row 2.5 above the table's middle (the height halved as an integer). */
  function SafeY(a: Area): real
  {
    a.y as real + (a.h / 2) as real - 2.5
  }

  function Min(a: real, b: real): real { if a <= b then a else b }

  /** A line left of which no ball (nor the cue ball) can overlap a candidate. */
  function Reach(s: seq<Ball>, cue: Ball): (l: real)
    ensures l <= cue.pos.x - 2.0 * cue.pos.radius
    ensures forall k :: 0 <= k < |s| ==> l <= s[k].pos.x - 2.0 * s[k].pos.radius
  {
    if s == [] then cue.pos.x - 2.0 * cue.pos.radius
    else Min(s[0].pos.x - 2.0 * s[0].pos.radius, Reach(s[1..], cue))
  }

  /** The smallest radius of all the balls and the cue ball: every shift is at least this long. */
  function MinRadius(s: seq<Ball>, cue: Ball): (m: real)
    ensures m <= cue.pos.radius
    ensures forall k :: 0 <= k < |s| ==> m <= s[k].pos.radius
    ensures PositiveRadii(s) && cue.pos.radius > 0.0 ==> m > 0.0
  {
    if s == [] then cue.pos.radius
    else Min(s[0].pos.radius, MinRadius(s[1..], cue))
  }

  /** How many shifts of at least m fit between x and the line l, plus one. */
  function Measure(l: real, m: real, x: real): (r: real)
    requires m > 0.0
    ensures r >= 0.0
  {
    if x <= l then 0.0
    else
      assert (x - l) / m * m == x - l;
      (x - l) / m + 1.0
  }

  lemma MeasureDecreases(l: real, m: real, x: real, x': real)
    requires m > 0.0 && x > l && x' <= x - m
    ensures 0.0 <= Measure(l, m, x') <= Measure(l, m, x) - 1.0
  {
    var q := (x - l) / m;
    assert q * m == x - l;
    assert q > 0.0;
    if x' > l {
      var q' := (x' - l) / m;
      assert q' * m == x' - l;
      assert (q - q') * m == q * m - q' * m == x - x';
      assert (q - q' - 1.0) * m >= 0.0;
      assert q - q' >= 1.0;
    }
  }

  /** How many more shifts the search can make from x, at most. */
  function Steps(s: seq<Ball>, cue: Ball, x: real): (r: real)
    requires PositiveRadii(s) && cue.pos.radius > 0.0
    ensures r >= 0.0
  {
    Measure(Reach(s, cue), MinRadius(s, cue), x)
  }

  /** A visible ball closer to the candidate than two of its radii. */
  predicate Blocks(b: Ball, x: real, y: real)
  {
    b.visible && Overlaps(b, x, y)
  }

  /** The index of the first ball blocking (x, y), or |s| when none does. */
  function FirstBlocker(s: seq<Ball>, x: real, y: real): (i: nat)
    ensures i <= |s|
    ensures i < |s| ==> Blocks(s[i], x, y)
    ensures forall k :: 0 <= k < i ==> !Blocks(s[k], x, y)
  {
    if s == [] then 0
    else if Blocks(s[0], x, y) then 0
    else 1 + FirstBlocker(s[1..], x, y)
  }

  /** The index of the first blocker is the one a left-to-right scan stops at. */
  lemma {:induction false} FirstBlockerIs(s: seq<Ball>, x: real, y: real, i: nat)
    requires i <= |s|
    requires forall k :: 0 <= k < i ==> !Blocks(s[k], x, y)
    requires i < |s| ==> Blocks(s[i], x, y)
    ensures FirstBlocker(s, x, y) == i
    decreases i
  {
    if s != [] && i > 0 {
      FirstBlockerIs(s[1..], x, y, i - 1);
    }
  }

  /**
    The x the search settles on from candidate x: shift left by the
    diameter of the first visible ball in the way, then by the cue ball's
    radius if the cue ball is in the way, and look again until neither
    moved the candidate.  The cue ball is avoided whether or not it is
    visible.  The search ends, always, left of where it started and clear
    of every visible ball and of the cue ball.
  */
  function SafeX(s: seq<Ball>, cue: Ball, x: real, y: real): (r: real)
    requires PositiveRadii(s) && cue.pos.radius > 0.0
    ensures r <= x
    ensures forall k :: 0 <= k < |s| ==> !Blocks(s[k], r, y)
    ensures !Overlaps(cue, r, y)
    decreases Steps(s, cue, x)
  {
    var i := FirstBlocker(s, x, y);
    var x1 := if i < |s| then x - 2.0 * s[i].pos.radius else x;
    var cueInWay := Overlaps(cue, x1, y);
    var x2 := if cueInWay then x1 - cue.pos.radius else x1;
    if i == |s| && !cueInWay then x
    else
      ShiftShortens(s, cue, x, y, i, x2);
      SafeX(s, cue, x2, y)
  }

  /** A shift happens only right of `Reach` and moves the candidate by a radius at least. */
  lemma ShiftShortens(s: seq<Ball>, cue: Ball, x: real, y: real, i: nat, x2: real)
    requires PositiveRadii(s) && cue.pos.radius > 0.0
    requires i == FirstBlocker(s, x, y)
    requires x2 == (if Overlaps(cue, if i < |s| then x - 2.0 * s[i].pos.radius else x, y)
                    then (if i < |s| then x - 2.0 * s[i].pos.radius else x) - cue.pos.radius
                    else (if i < |s| then x - 2.0 * s[i].pos.radius else x))
    requires i < |s| || Overlaps(cue, x, y)
    ensures 0.0 <= Steps(s, cue, x2) <= Steps(s, cue, x) - 1.0
  {
    if i < |s| {
      OverlapBound(s[i], x, y);
    } else {
      OverlapBound(cue, x, y);
    }
    MeasureDecreases(Reach(s, cue), MinRadius(s, cue), x, x2);
  }

  /**
    A ball put back on the table by the off-table check: at (x, y) and at
    rest.
  */
  function Place(b: Ball, x: real, y: real): (r: Ball)
    ensures r.pos.x == x && r.pos.y == y && r.mov == MovData(0.0, 0.0)
    ensures r.pos.radius == b.pos.radius && r.id == b.id && r.visible == b.visible
  {
    b.(pos := b.pos.(x := x, y := y), mov := MovData(0.0, 0.0))
  }

  /**
    One pass of the off-table loop: ball i, if outside the table, moves to
    the spot the search finds among the balls as they lie and stops;
    nothing else changes.
  */
  function Returned(s: seq<Ball>, cue: Ball, a: Area, i: nat): (r: seq<Ball>)
    requires i < |s| && PositiveRadii(s) && cue.pos.radius > 0.0
    ensures |r| == |s| && PositiveRadii(r)
    ensures forall k :: 0 <= k < |s| && k != i ==> r[k] == s[k]
    ensures r[i].id == s[i].id && r[i].visible == s[i].visible && r[i].pos.radius == s[i].pos.radius
    ensures !OffTable(s[i], a) ==> r[i] == s[i]
    ensures OffTable(s[i], a) ==>
      r[i].pos.y == SafeY(a) && r[i].pos.x <= SafeStartX && r[i].mov == MovData(0.0, 0.0)
    ensures OffTable(s[i], a) ==> r[i].pos.x == SafeX(s, cue, SafeStartX, SafeY(a))
    ensures OffTable(s[i], a) ==> !Overlaps(cue, r[i].pos.x, r[i].pos.y)
    ensures OffTable(s[i], a) ==> forall k :: 0 <= k < |r| && k != i ==> !Blocks(r[k], r[i].pos.x, r[i].pos.y)
  {
    if OffTable(s[i], a) then
      var y := SafeY(a);
      s[i := Place(s[i], SafeX(s, cue, SafeStartX, y), y)]
    else s
  }

  /**
    The off-table loop from ball i on: every ball outside the table, in
    order, moves to the spot the search finds among the balls as they lie
    by then (earlier ones already moved) and stops.  Balls on the table and
    balls before i are untouched.
  */
  function Respawned(s: seq<Ball>, cue: Ball, a: Area, i: nat): (r: seq<Ball>)
    requires i <= |s| && PositiveRadii(s) && cue.pos.radius > 0.0
    ensures |r| == |s| && PositiveRadii(r)
    ensures forall k :: 0 <= k < |s| ==>
      r[k].id == s[k].id && r[k].visible == s[k].visible && r[k].pos.radius == s[k].pos.radius
    ensures forall k :: 0 <= k < |s| && (k < i || !OffTable(s[k], a)) ==> r[k] == s[k]
    ensures forall k :: i <= k < |s| && OffTable(s[k], a) ==>
      r[k].pos.y == SafeY(a) && r[k].pos.x <= SafeStartX && r[k].mov == MovData(0.0, 0.0)
    ensures forall k :: i <= k < |s| && OffTable(s[k], a) ==>
      !Overlaps(cue, r[k].pos.x, r[k].pos.y) && ClearOfSettled(r, s, a, k)
    decreases |s| - i
  {
    if i == |s| then s
    else
      var t := Returned(s, cue, a, i);
      var r := Respawned(t, cue, a, i + 1);
      forall k | i + 1 <= k < |s| && OffTable(s[k], a)
        ensures ClearOfSettled(r, s, a, k)
      {
        assert ClearOfSettled(r, t, a, k);
      }
      r
  }

  /**
    Ball k of r, put back by the off-table loop, is clear of every visible
    ball that precedes it and of every ball that never left the table.
  */
  predicate ClearOfSettled(r: seq<Ball>, s: seq<Ball>, a: Area, k: nat)
    requires k < |r| == |s|
  {
    forall j :: 0 <= j < |r| && j != k && (j < k || !OffTable(s[j], a)) ==> !Blocks(r[j], r[k].pos.x, r[k].pos.y)
  }

  /** With every ball on the table the off-table loop changes nothing. */
  lemma {:induction false} RespawnedNothing(s: seq<Ball>, cue: Ball, a: Area, i: nat)
    requires i <= |s| && PositiveRadii(s) && cue.pos.radius > 0.0
    requires forall k :: i <= k < |s| ==> !OffTable(s[k], a)
    ensures Respawned(s, cue, a, i) == s
    decreases |s| - i
  {
    if i < |s| {
      RespawnedNothing(s, cue, a, i + 1);
    }
  }

  /** The off-table loop's invariant survives one iteration. */
  lemma ReturnStep(s: seq<Ball>, u: seq<Ball>, t: seq<Ball>, cue: Ball, a: Area, i: nat)
    requires i < |s| == |u| && PositiveRadii(s) && PositiveRadii(u) && cue.pos.radius > 0.0
    requires Respawned(s, cue, a, 0) == Respawned(u, cue, a, i)
    requires forall k :: i <= k < |s| ==> u[k] == s[k]
    requires t == Returned(u, cue, a, i)
    ensures PositiveRadii(t) && Respawned(s, cue, a, 0) == Respawned(t, cue, a, i + 1)
    ensures forall k :: i + 1 <= k < |s| ==> t[k] == s[k]
    ensures AnyOffTable(s, a, i + 1) <==> AnyOffTable(s, a, i) || OffTable(u[i], a)
  {
    assert AnyOffTable(s, a, i + 1) <==> AnyOffTable(s, a, i) || OffTable(s[i], a);
  }

  /** The search row lies on any table at least 6 tall. */
  lemma SearchRowOnTable(a: Area)
    requires a.h >= 6
    ensures a.y as real <= SafeY(a) <= (a.y + a.h) as real
  {
    assert 3 <= a.h / 2 <= a.h;
  }

  /**
    A ball put back on the search row is on the table exactly when the
    search stopped between the table's left and right edges.
  */
  lemma ReturnedOnTable(b: Ball, a: Area, x: real)
    requires a.h >= 6
    ensures !OffTable(Place(b, x, SafeY(a)), a) <==> a.x as real <= x <= (a.x + a.w) as real
  {
    SearchRowOnTable(a);
  }

  // ---------------------------------------------------------------------
  // Pocket sensors (`create_sensors`)

  /**
    The six sensors: top left, bottom left, top right, bottom right, top
    middle, bottom middle.  On a table at least 70 wide and tall every
    sensor lies on the table.
  */
  function SensorLayout(a: Area): (p: seq<Point>)
    ensures |p| == 6
    ensures p[0].y == p[2].y && p[4].x == p[5].x == a.x + a.w / 2
    ensures a.w >= 70 && a.h >= 70 ==> forall k :: 0 <= k < 6 ==>
      a.x <= p[k].x <= a.x + a.w && a.y <= p[k].y <= a.y + a.h
  {
    [ Point(a.x + 35, a.y + 35),
      Point(a.x + 33, a.y - 33 + a.h),
      Point(a.x - 35 + a.w, a.y + 35),
      Point(a.x - 35 + a.w, a.y - 35 + a.h),
      Point(a.x + a.w / 2, a.y + 25),
      Point(a.x + a.w / 2, a.y - 23 + a.h) ]
  }

  /** Some sensor lies within the ball's radius: the ball is in a pocket. */
  predicate InPocket(b: Ball, sensors: seq<Point>)
  {
    exists j :: 0 <= j < |sensors| && Covers(b, sensors[j])
  }

  /** A ball in a pocket has some sensor within one radius of its centre along both axes. */
  lemma InPocketNear(b: Ball, sensors: seq<Point>)
    requires InPocket(b, sensors) && b.pos.radius >= 0.0
    ensures exists j :: 0 <= j < |sensors| &&
                        -b.pos.radius <= b.pos.x - sensors[j].x as real <= b.pos.radius &&
                        -b.pos.radius <= b.pos.y - sensors[j].y as real <= b.pos.radius
  {
    var j :| 0 <= j < |sensors| && Covers(b, sensors[j]);
    CoversNear(b, sensors[j]);
  }

  // ---------------------------------------------------------------------
  // The rack (`create_balls`)

  /** The first slot of rack column c; the columns hold 5, 4, 3, 2 and 1 balls. */
  function ColumnStart(c: nat): nat
    requires c <= 5
  {
    if c == 0 then 0 else ColumnStart(c - 1) + (6 - c)
  }

  /** The rack column and row of slot k, slots being filled column by column. */
  function Slot(k: nat): (cr: (nat, nat))
    requires k < 15
    ensures cr.0 < 5 && cr.1 < 5 - cr.0
    ensures k == ColumnStart(cr.0) + cr.1
  {
    var c := if k < 5 then 0 else if k < 9 then 1 else if k < 12 then 2 else if k < 14 then 3 else 4;
    (c, k - ColumnStart(c))
  }

  /** The two swaps: the eight-ball to slot 10, ball 5 and ball 9 exchanged. */
  function RackSwap(k: nat): (s: nat)
    ensures k < 15 ==> s < 15
    ensures s == k <==> k != 4 && k != 7 && k != 8 && k != 10
  {
    if k == 7 then 10 else if k == 10 then 7
    else if k == 4 then 8 else if k == 8 then 4
    else k
  }

  /** The swaps are two exchanges, 7 with 10 and 4 with 8: doing them twice undoes them. */
  lemma RackSwapExchanges(k: nat)
    ensures RackSwap(7) == 10 && RackSwap(4) == 8
    ensures RackSwap(RackSwap(k)) == k
  {
  }

  /**
    The slot of the ball at index k (id k + 1) once racked.  The eight-ball
    sits in the middle of the middle column, the centre of the triangle; the
    two corners of the first column hold a solid and a stripe; no two balls
    share a slot.
  */
  function RackSlot(k: nat): (cr: (nat, nat))
    requires k < 15
    ensures cr.0 < 5 && cr.1 < 5 - cr.0
    ensures k == 7 <==> cr == (2, 1)
    ensures cr == (0, 0) <==> k == 0
    ensures cr == (0, 4) <==> k == 8
    ensures cr == (4, 0) <==> k == 14
  {
    Slot(RackSwap(k))
  }

  lemma RackSlotsDistinct(j: nat, k: nat)
    requires j < 15 && k < 15 && j != k
    ensures RackSlot(j) != RackSlot(k)
  {
  }

  /** Filling column c row by row visits the slots ColumnStart(c), ColumnStart(c) + 1, ... */
  lemma {:induction false} SlotOfColumn(c: nat, j: nat)
    requires c < 5 && j < 5 - c
    ensures ColumnStart(c) + j < 15 && Slot(ColumnStart(c) + j) == (c, j)
  {
    var k := ColumnStart(c) + j;
    if c == 0 {
      assert k == j && Slot(k).0 == 0;
    } else if c == 1 {
      assert ColumnStart(1) == 5 && k == 5 + j && Slot(k).0 == 1;
    } else if c == 2 {
      assert ColumnStart(2) == 9 && k == 9 + j && Slot(k).0 == 2;
    } else if c == 3 {
      assert ColumnStart(3) == 12 && k == 12 + j && Slot(k).0 == 3;
    } else {
      assert ColumnStart(4) == 14 && k == 14 + j && Slot(k).0 == 4;
    }
  }

  lemma NonZeroSquare(t: int)
    requires t != 0
    ensures t * t >= 1
  {
    if t > 0 {
      assert t * t >= t;
    } else {
      assert t * t == (-t) * (-t) >= -t;
    }
  }

  /** Two different slots differ by a column or a row: 3m² + (m + 2n)² is then at least 4. */
  lemma SlotGap(m: int, n: int)
    requires m != 0 || n != 0
    ensures 3 * (m * m) + (m + 2 * n) * (m + 2 * n) >= 4
  {
    var t := m + 2 * n;
    if m == 0 {
      NonZeroSquare(n);
      assert t * t == 4 * (n * n);
    } else if m == 1 || m == -1 {
      assert t != 0;
      NonZeroSquare(t);
      assert m * m == 1;
    } else {
      assert m >= 2 || m <= -2;
      if m >= 2 {
        assert m * m >= 2 * m;
      } else {
        assert m * m == (-m) * (-m) >= 2 * (-m);
      }
      assert t * t >= 0;
    }
  }

  /**
    With an exact square root of 3, the spots of two different slots are at
    least two spacings apart: neighbours in a column touch, neighbours in
    adjacent columns touch, the rest are further away.
  */
  lemma SlotsApart(a: Area, radius: real, sqrt3: real, p: (nat, nat), q: (nat, nat))
    requires radius > 0.0 && sqrt3 * sqrt3 == 3.0 && p != q
    ensures var sp := SlotSpot(a, radius, sqrt3, p);
            var sq := SlotSpot(a, radius, sqrt3, q);
            Sq(sp.0 - sq.0) + Sq(sp.1 - sq.1) >= Sq(2.0 * radius)
  {
    var m := p.0 as int - q.0 as int;
    var t := m + 2 * (p.1 as int - q.1 as int);
    var sp := SlotSpot(a, radius, sqrt3, p);
    var sq := SlotSpot(a, radius, sqrt3, q);
    SpotDifference(a, radius, sqrt3, p, q);
    assert sp.0 - sq.0 == m as real * (radius * sqrt3);
    assert sp.1 - sq.1 == t as real * radius;
    SlotGap(m, p.1 as int - q.1 as int);
    GapApart(m, t, radius, sqrt3);
  }

  lemma SpotDifference(a: Area, radius: real, sqrt3: real, p: (nat, nat), q: (nat, nat))
    ensures var sp := SlotSpot(a, radius, sqrt3, p);
            var sq := SlotSpot(a, radius, sqrt3, q);
            var m := p.0 as int - q.0 as int;
            sp.0 - sq.0 == m as real * (radius * sqrt3) &&
            sp.1 - sq.1 == (m + 2 * (p.1 as int - q.1 as int)) as real * radius
  {
  }

  lemma GapApart(m: int, t: int, radius: real, sqrt3: real)
    requires sqrt3 * sqrt3 == 3.0 && 3 * (m * m) + t * t >= 4
    ensures Sq(m as real * (radius * sqrt3)) + Sq(t as real * radius) >= Sq(2.0 * radius)
  {
    var rr := radius * radius;
    ScaledSquare(m, radius * sqrt3);
    assert (radius * sqrt3) * (radius * sqrt3) == rr * (sqrt3 * sqrt3);
    ScaledSquare(t, radius);
    GapBound(3 * (m * m) + t * t, rr);
  }

  lemma ScaledSquare(m: int, d: real)
    ensures Sq(m as real * d) == (m * m) as real * (d * d)
  {
  }

  lemma GapBound(g: int, rr: real)
    requires g >= 4 && rr >= 0.0
    ensures g as real * rr >= 4.0 * rr
  {
  }

  /**
    Where `create_balls` puts the ball of slot (c, j): each column one
    radius·√3 right of the previous one starting at x = 200, each column one
    radius lower, each row one diameter lower, the first row 5 radii above
    the table's middle.  `radius` is the ball radius plus half a pixel and
    `sqrt3` what the square root of 3 evaluates to.
  */
  function SlotSpot(a: Area, radius: real, sqrt3: real, cr: (nat, nat)): (p: (real, real))
  {
    (200.0 + cr.0 as real * (radius * 2.0 * sqrt3 / 2.0),
     (a.y + a.h / 2) as real - 5.0 * radius + cr.0 as real * radius + radius * cr.1 as real * 2.0)
  }

  /** The first slot's spot: x = 200, five radii above the table's middle. */
  lemma SpotOfFirstSlot(a: Area, radius: real, sqrt3: real)
    ensures SlotSpot(a, radius, sqrt3, (0, 0)) == (200.0, (a.y + a.h / 2) as real - 5.0 * radius)
  {
    var p := SlotSpot(a, radius, sqrt3, (0, 0));
    assert p.0 == 200.0 + 0.0 * (radius * 2.0 * sqrt3 / 2.0) == 200.0;
    assert p.1 == (a.y + a.h / 2) as real - 5.0 * radius + 0.0 * radius + radius * 0.0 * 2.0;
  }

  /** Down a column each spot is one diameter below the previous one, at the same x. */
  lemma SpotDownColumn(a: Area, radius: real, sqrt3: real, c: nat, j: nat)
    ensures SlotSpot(a, radius, sqrt3, (c, j)) ==
            (SlotSpot(a, radius, sqrt3, (c, 0)).0, SlotSpot(a, radius, sqrt3, (c, 0)).1 + radius * j as real * 2.0)
  {
    var top := SlotSpot(a, radius, sqrt3, (c, 0));
    var p := SlotSpot(a, radius, sqrt3, (c, j));
    assert top.1 == (a.y + a.h / 2) as real - 5.0 * radius + c as real * radius + radius * 0.0 * 2.0;
    assert p.1 == (a.y + a.h / 2) as real - 5.0 * radius + c as real * radius + radius * j as real * 2.0;
    assert radius * 0.0 * 2.0 == 0.0;
    assert p.0 == top.0;
  }

  /** Each column starts radius·√3 further right and one radius lower than the previous one. */
  lemma SpotNextColumn(a: Area, radius: real, sqrt3: real, c: nat)
    ensures SlotSpot(a, radius, sqrt3, (c + 1, 0)) ==
            (SlotSpot(a, radius, sqrt3, (c, 0)).0 + radius * 2.0 * sqrt3 / 2.0, SlotSpot(a, radius, sqrt3, (c, 0)).1 + radius)
  {
    var step := radius * 2.0 * sqrt3 / 2.0;
    var p := SlotSpot(a, radius, sqrt3, (c, 0));
    var q := SlotSpot(a, radius, sqrt3, (c + 1, 0));
    assert (c + 1) as real * step == c as real * step + step;
    assert (c + 1) as real * radius == c as real * radius + radius;
    assert p.1 == (a.y + a.h / 2) as real - 5.0 * radius + c as real * radius + radius * 0.0 * 2.0;
    assert q.1 == (a.y + a.h / 2) as real - 5.0 * radius + (c + 1) as real * radius + radius * 0.0 * 2.0;
    assert radius * 0.0 * 2.0 == 0.0;
    assert q.0 == p.0 + step;
    assert q.1 == p.1 + radius;
  }

  /**
    The rack is symmetric about the row one radius above the table's
    middle: in every column the j-th ball from the top and the j-th from the
    bottom lie equally far from it, and all the balls of a column share x.
  */
  lemma RackSymmetric(a: Area, radius: real, sqrt3: real, c: nat, j: nat)
    requires c < 5 && j < 5 - c
    ensures var top := SlotSpot(a, radius, sqrt3, (c, j));
            var bottom := SlotSpot(a, radius, sqrt3, (c, 4 - c - j));
            top.0 == bottom.0 &&
            top.1 + bottom.1 == 2.0 * ((a.y + a.h / 2) as real - radius)
  {
    var mid := (a.y + a.h / 2) as real;
    assert radius * j as real * 2.0 + radius * (4 - c - j) as real * 2.0 == radius * (8 - 2 * c) as real;
  }
}
