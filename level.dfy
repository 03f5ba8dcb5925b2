/**
  The level (src/level.cpp, include/level.h): fifteen object balls, the cue
  ball, six pocket sensors, the balls potted during the current shot, and
  the turn state.  Each frame `Logic` moves the balls that are moving,
  pockets those that reach a sensor, and once everything is still after a
  shot resolves it with `ChangeState`; `HandleEvents` takes a shot only
  while nothing moves.

  Every method is proved against a function of the level's state as a
  value (`Snapshot`): `Resolve` for `change_state`, `Tick` for `logic`,
  `Handled` for `handle_events`.
*/
module Levels {
  import opened Bodies
  import opened Tables
  import opened Rules
  import opened Placement

  /** What the collision observer reports as first hit after `reset_first_hit`. */
  const NoHit := -1

  /** The mass of the cue ball. */
  const CueMass := 13.0

  /** Where one frame of `Ball::move` left a moving ball: its new position and velocity. */
  datatype Step = Step(x: real, y: real, mov: MovData)

  /** The input events the level tells apart. */
  datatype Event = QuitEvent | KeyDown | MouseButtonDown | MouseMotion(x: int, y: int) | OtherEvent

  /** A key press or a mouse click strikes the cue ball. */
  predicate IsStrike(e: Event)
  {
    e.KeyDown? || e.MouseButtonDown?
  }

  /** The level's state as a value. */
  datatype Snapshot = Snapshot(
    balls: seq<Ball>,
    cue: Ball,
    pockets: seq<int>,
    moving: bool,
    player1Turn: bool,
    moveWasMade: bool,
    team: int,
    firstHit: int,
    next: GameResult)

  /** Fifteen object balls with ids 1..15 in order, the cue ball with id 0, radii positive, a known team colour. */
  predicate Sound(s: Snapshot)
  {
    |s.balls| == 15 && PositiveRadii(s.balls) && s.cue.pos.radius > 0.0 && s.cue.id == CueId &&
    ValidTeam(s.team) &&
    forall k :: 0 <= k < 15 ==> s.balls[k].id == k + 1
  }

  // ---------------------------------------------------------------------
  // Creating the balls

  /** Object ball k after the first loop of `create_balls`: id k + 1, both observers. */
  function Labelled(blank: Ball, k: nat): (b: Ball)
    ensures b.id == k + 1 && b.pos == blank.pos && b.visible == blank.visible
    ensures b.observers == blank.observers + [Collision, Audio]
  {
    blank.(id := k + 1, observers := blank.observers + [Collision, Audio])
  }

  /**
    Object ball k once racked: labelled, then at the spot of its rack slot,
    the spacing being its radius plus half a pixel.
  */
  function Racked(blank: Ball, a: Area, sqrt3: real, k: nat): (b: Ball)
    requires k < 15
    ensures b.id == k + 1 && b.pos.radius == blank.pos.radius && b.visible == blank.visible
    ensures b.observers == blank.observers + [Collision, Audio]
    ensures var spot := SlotSpot(a, blank.pos.radius + 0.5, sqrt3, RackSlot(k));
            b.pos.x == spot.0 && b.pos.y == spot.1
  {
    var spot := SlotSpot(a, blank.pos.radius + 0.5, sqrt3, RackSlot(k));
    Labelled(blank, k).(pos := blank.pos.(x := spot.0, y := spot.1))
  }

  /** Ball k at rack slot k before the swaps, `radius` being the spacing. */
  function Placed(blank: Ball, a: Area, radius: real, sqrt3: real, k: nat): (b: Ball)
    requires k < 15
  {
    var spot := SlotSpot(a, radius, sqrt3, Slot(k));
    Labelled(blank, k).(pos := blank.pos.(x := spot.0, y := spot.1))
  }

  /**
    With an exact square root of 3 no two racked balls overlap: the rack's
    spacing is half a pixel more than the balls' radius.
  */
  lemma RackedApart(blank: Ball, a: Area, sqrt3: real, j: nat, k: nat)
    requires blank.pos.radius > 0.0 && sqrt3 * sqrt3 == 3.0
    requires j < 15 && k < 15 && j != k
    ensures var bj := Racked(blank, a, sqrt3, j);
            var bk := Racked(blank, a, sqrt3, k);
            !Overlaps(bj, bk.pos.x, bk.pos.y)
  {
    var r := blank.pos.radius;
    RackSlotsDistinct(j, k);
    SlotsApart(a, r + 0.5, sqrt3, RackSlot(j), RackSlot(k));
    assert Sq(2.0 * (r + 0.5)) - Sq(2.0 * r) == 4.0 * r + 1.0;
  }

  /** The cue ball of `create_cue_ball` before it is placed: id 0, mass 13, both observers. */
  function CueTemplate(blank: Ball): (c: Ball)
    ensures c.id == CueId && c.mass == CueMass && c.pos == blank.pos && c.visible == blank.visible
    ensures c.observers == blank.observers + [Collision, Audio]
  {
    blank.(id := CueId, mass := CueMass, observers := blank.observers + [Collision, Audio])
  }

  /**
    The cue ball `create_cue_ball` makes among the balls s: a fresh ball
    placed by the free-spot search, which also avoids the fresh ball's own
    unplaced position.  It lands on the search row, no further right than
    600, and clear of every visible ball.
  */
  function NewCueBall(s: seq<Ball>, blank: Ball, a: Area): (c: Ball)
    requires PositiveRadii(s) && blank.pos.radius > 0.0
    ensures c.id == CueId && c.mass == CueMass && c.pos.radius == blank.pos.radius
    ensures c.visible == blank.visible && c.mov == blank.mov
    ensures c.observers == blank.observers + [Collision, Audio]
    ensures c.pos.y == SafeY(a) && c.pos.x <= SafeStartX
    ensures forall k :: 0 <= k < |s| ==> !Blocks(s[k], c.pos.x, c.pos.y)
  {
    var t := CueTemplate(blank);
    var y := SafeY(a);
    t.(pos := t.pos.(x := SafeX(s, t, SafeStartX, y), y := y))
  }

  // ---------------------------------------------------------------------
  // Resolving a shot (`change_state`)

  /**
    The level after `change_state`: the rules of `Judge` decide turn, team
    colour and result; a scratch recreates the cue ball; every object ball
    off the table is put back on the search row, in order; a cue ball off
    the table is recreated.  Each ball off the table passes the turn.
    The shot's potted list is emptied and the shot is over.
  */
  function Resolve(s: Snapshot, a: Area, blank: Ball): (r: Snapshot)
    requires Sound(s) && blank.pos.radius > 0.0
    ensures Sound(r)
    ensures r.pockets == [] && !r.moveWasMade && r.moving == s.moving && r.firstHit == s.firstHit
    ensures var v := Judge(s.player1Turn, s.team, s.pockets, s.firstHit, s.balls);
            r.team == v.team && r.next == (if v.result == None then s.next else v.result)
  {
    CueBack(BallsBack(Ruled(s, a, blank), a, s.player1Turn), a, blank, s.player1Turn)
  }

  /**
    The turn stays with the shooter exactly when the rules let it stay and
    no ball, object or cue, was off the table; otherwise it passes to the
    other player.
  */
  lemma ResolveTurn(s: Snapshot, a: Area, blank: Ball)
    requires Sound(s) && blank.pos.radius > 0.0
    ensures var r := Resolve(s, a, blank);
            var v := Judge(s.player1Turn, s.team, s.pockets, s.firstHit, s.balls);
            (r.player1Turn == s.player1Turn <==> !v.pass && !AnyOffTable(s.balls, a, 15) && !OffTable(s.cue, a)) &&
            (r.player1Turn != s.player1Turn ==> r.player1Turn == !s.player1Turn)
  {
    var v := Judge(s.player1Turn, s.team, s.pockets, s.firstHit, s.balls);
    assert !v.pass ==> !v.scratch;
  }

  /**
    Object balls on the table stay where they are; every one off the table
    comes back on the search row, no further right than 600, at rest, clear
    of every visible ball put back before it and of every ball that stayed
    on the table, and clear of the cue ball when that one is kept.
  */
  lemma ResolveBalls(s: Snapshot, a: Area, blank: Ball)
    requires Sound(s) && blank.pos.radius > 0.0
    ensures var r := Resolve(s, a, blank);
            (forall k :: 0 <= k < 15 && !OffTable(s.balls[k], a) ==> r.balls[k] == s.balls[k]) &&
            (forall k :: 0 <= k < 15 && OffTable(s.balls[k], a) ==>
               r.balls[k].pos.y == SafeY(a) && r.balls[k].pos.x <= SafeStartX && r.balls[k].mov == MovData(0.0, 0.0) &&
               ClearOfSettled(r.balls, s.balls, a, k)) &&
            (CueId !in s.pockets && !OffTable(s.cue, a) ==>
               forall k :: 0 <= k < 15 && OffTable(s.balls[k], a) ==> !Overlaps(r.cue, r.balls[k].pos.x, r.balls[k].pos.y))
  {
  }

  /**
    The cue ball is kept unless it was potted or left the table; then a new
    one with id 0 and mass 13 is made on the search row, no further right
    than 600, clear of every visible object ball that stayed on the table,
    and, when it left the table unpotted, clear of every visible object ball.
  */
  lemma ResolveCue(s: Snapshot, a: Area, blank: Ball)
    requires Sound(s) && blank.pos.radius > 0.0
    ensures var r := Resolve(s, a, blank);
            (CueId !in s.pockets && !OffTable(s.cue, a) ==> r.cue == s.cue) &&
            (CueId in s.pockets || OffTable(s.cue, a) ==>
               r.cue.id == CueId && r.cue.mass == CueMass && r.cue.pos.y == SafeY(a) && r.cue.pos.x <= SafeStartX &&
               forall k :: 0 <= k < 15 && !OffTable(s.balls[k], a) ==> !Blocks(r.balls[k], r.cue.pos.x, r.cue.pos.y)) &&
            (CueId !in s.pockets && OffTable(s.cue, a) ==>
               forall k :: 0 <= k < 15 ==> !Blocks(r.balls[k], r.cue.pos.x, r.cue.pos.y))
  {
    var r1 := Ruled(s, a, blank);
    var r2 := BallsBack(r1, a, s.player1Turn);
    var r := CueBack(r2, a, blank, s.player1Turn);
    assert r1.cue == if CueId in s.pockets then NewCueBall(s.balls, blank, a) else s.cue;
    assert forall k :: 0 <= k < 15 && !OffTable(s.balls[k], a) ==> r.balls[k] == s.balls[k];
  }

  /** The rules half of `change_state`: `Judge` decides turn, team and result, a scratch recreates the cue ball. */
  function Ruled(s: Snapshot, a: Area, blank: Ball): (r: Snapshot)
    requires Sound(s) && blank.pos.radius > 0.0
    ensures Sound(r) && r.balls == s.balls && r.pockets == []
    ensures r.moving == s.moving && r.firstHit == s.firstHit && r.moveWasMade == s.moveWasMade
    ensures var v := Judge(s.player1Turn, s.team, s.pockets, s.firstHit, s.balls);
            r.team == v.team && r.next == (if v.result == None then s.next else v.result)
  {
    var v := Judge(s.player1Turn, s.team, s.pockets, s.firstHit, s.balls);
    s.(cue := if v.scratch then NewCueBall(s.balls, blank, a) else s.cue, pockets := [],
       player1Turn := if v.pass then !s.player1Turn else s.player1Turn,
       team := v.team, next := if v.result == None then s.next else v.result)
  }

  /** The object-ball half of the off-table checks: each ball off the table gives the turn away from `cur`. */
  function BallsBack(s: Snapshot, a: Area, cur: bool): (r: Snapshot)
    requires Sound(s)
    ensures Sound(r) && r.cue == s.cue
    ensures r.pockets == s.pockets && r.moving == s.moving && r.firstHit == s.firstHit &&
            r.moveWasMade == s.moveWasMade && r.team == s.team && r.next == s.next
  {
    s.(balls := Respawned(s.balls, s.cue, a, 0),
       player1Turn := if AnyOffTable(s.balls, a, 15) then !cur else s.player1Turn)
  }

  /** The cue-ball half of the off-table checks, and the end of the shot. */
  function CueBack(s: Snapshot, a: Area, blank: Ball, cur: bool): (r: Snapshot)
    requires Sound(s) && blank.pos.radius > 0.0
    ensures Sound(r) && r.balls == s.balls && !r.moveWasMade
    ensures r.pockets == s.pockets && r.moving == s.moving && r.firstHit == s.firstHit &&
            r.team == s.team && r.next == s.next
    ensures !OffTable(s.cue, a) ==> r.cue == s.cue && r.player1Turn == s.player1Turn
    ensures OffTable(s.cue, a) ==> r.player1Turn == !cur
    ensures OffTable(s.cue, a) ==>
      r.cue.id == CueId && r.cue.mass == CueMass && r.cue.pos.y == SafeY(a) && r.cue.pos.x <= SafeStartX
    ensures OffTable(s.cue, a) ==> forall k :: 0 <= k < |r.balls| ==> !Blocks(r.balls[k], r.cue.pos.x, r.cue.pos.y)
  {
    s.(cue := if OffTable(s.cue, a) then NewCueBall(s.balls, blank, a) else s.cue,
       player1Turn := if OffTable(s.cue, a) then !cur else s.player1Turn,
       moveWasMade := false)
  }

  /** The object-ball half, field by field. */
  lemma BallsBackIs(s: Snapshot, a: Area, cur: bool, t: Snapshot)
    requires Sound(s)
    requires t == s.(balls := Respawned(s.balls, s.cue, a, 0),
                     player1Turn := if AnyOffTable(s.balls, a, 15) then !cur else s.player1Turn)
    ensures t == BallsBack(s, a, cur) && Sound(t)
  {
  }

  /** The rules half, field by field. */
  lemma RuledIs(s: Snapshot, a: Area, blank: Ball, v: Verdict, t: Snapshot)
    requires Sound(s) && blank.pos.radius > 0.0
    requires v == Judge(s.player1Turn, s.team, s.pockets, s.firstHit, s.balls)
    requires t == s.(cue := if v.scratch then NewCueBall(s.balls, blank, a) else s.cue, pockets := [],
                     player1Turn := if v.pass then !s.player1Turn else s.player1Turn,
                     team := v.team, next := if v.result == None then s.next else v.result)
    ensures t == Ruled(s, a, blank)
  {
  }

  // ---------------------------------------------------------------------
  // One frame (`logic`)

  /** `Ball::move`: the ball takes the position and velocity of its step. */
  function Moved(b: Ball, st: Step): (r: Ball)
    ensures r.id == b.id && r.pos.radius == b.pos.radius && r.visible == b.visible
    ensures r.pos.x == st.x && r.pos.y == st.y && r.mov == st.mov
  {
    b.(pos := b.pos.(x := st.x, y := st.y), mov := st.mov)
  }

  /** A ball that moved this frame and now covers a sensor is potted. */
  predicate Potted(b: Ball, moving: bool, st: Step, sensors: seq<Point>)
  {
    moving && InPocket(Moved(b, st), sensors)
  }

  /** One ball over one frame: a still ball is left alone, a moving one moves and may be potted. */
  function Advance(b: Ball, moving: bool, st: Step, sensors: seq<Point>): (r: Ball)
    ensures r.id == b.id && r.pos.radius == b.pos.radius
    ensures !moving ==> r == b
    ensures Potted(b, moving, st, sensors) ==> !r.visible && !r.movable && Collision !in r.observers
    ensures moving && !Potted(b, moving, st, sensors) ==> r == Moved(b, st)
  {
    if !moving then b
    else
      var m := Moved(b, st);
      if InPocket(m, sensors) then Pocketed(m) else m
  }

  /** The ids the first n balls push onto the potted list during one frame, in order. */
  function PottedIds(s: seq<Ball>, moving: seq<bool>, steps: seq<Step>, sensors: seq<Point>, n: nat): (r: seq<int>)
    requires n <= |s| && n <= |moving| && n <= |steps|
    ensures |r| <= n
    ensures forall id :: id in r <==>
      exists k :: 0 <= k < n && Potted(s[k], moving[k], steps[k], sensors) && s[k].id == id
  {
    if n == 0 then []
    else
      var prev := PottedIds(s, moving, steps, sensors, n - 1);
      var last := if Potted(s[n - 1], moving[n - 1], steps[n - 1], sensors) then [s[n - 1].id] else [];
      assert forall id :: id in prev + last <==> id in prev || id in last;
      prev + last
  }

  /** The indices among the first n of the balls potted this frame. */
  ghost function PottedSet(s: seq<Ball>, moving: seq<bool>, steps: seq<Step>, sensors: seq<Point>, n: nat): set<nat>
    requires n <= |s| && n <= |moving| && n <= |steps|
  {
    set k: nat | k < n && Potted(s[k], moving[k], steps[k], sensors)
  }

  /** The potted set grows by ball n - 1 exactly when that ball is potted. */
  lemma PottedSetStep(s: seq<Ball>, moving: seq<bool>, steps: seq<Step>, sensors: seq<Point>, n: nat)
    requires 0 < n <= |s| && n <= |moving| && n <= |steps|
    ensures n - 1 !in PottedSet(s, moving, steps, sensors, n - 1)
    ensures PottedSet(s, moving, steps, sensors, n) ==
      PottedSet(s, moving, steps, sensors, n - 1) +
      (if Potted(s[n - 1], moving[n - 1], steps[n - 1], sensors) then {n - 1} else {})
  {
  }

  /** Each potted ball pushes its id exactly once: the list is as long as the set of potted balls. */
  lemma {:induction false} PottedIdsCount(s: seq<Ball>, moving: seq<bool>, steps: seq<Step>, sensors: seq<Point>, n: nat)
    requires n <= |s| && n <= |moving| && n <= |steps|
    ensures |PottedIds(s, moving, steps, sensors, n)| == |PottedSet(s, moving, steps, sensors, n)|
  {
    if n == 0 {
      assert PottedSet(s, moving, steps, sensors, n) == {};
    } else {
      PottedIdsCount(s, moving, steps, sensors, n - 1);
      PottedSetStep(s, moving, steps, sensors, n);
      var potted := Potted(s[n - 1], moving[n - 1], steps[n - 1], sensors);
      assert PottedIds(s, moving, steps, sensors, n) ==
        PottedIds(s, moving, steps, sensors, n - 1) + (if potted then [s[n - 1].id] else []);
    }
  }

  /** Balls that did not move push nothing onto the potted list. */
  lemma {:induction false} NothingPottedWhenStill(s: seq<Ball>, moving: seq<bool>, steps: seq<Step>, sensors: seq<Point>, n: nat)
    requires n <= |s| && n <= |moving| && n <= |steps|
    requires forall k :: 0 <= k < n ==> !moving[k]
    ensures PottedIds(s, moving, steps, sensors, n) == []
  {
    if n > 0 {
      NothingPottedWhenStill(s, moving, steps, sensors, n - 1);
    }
  }

  /**
    The moves of one frame.  `moving[k]` says whether object ball k (k < 15)
    or the cue ball (k = 15) is moving and `steps[k]` where its move takes
    it; `hit` is what the collision observer reports as first hit once the
    frame's moves are done.  Only balls, cue ball, potted list, moving flag
    and first hit change, and a frame in which nothing moves, having no
    collisions, changes nothing else.
  */
  function Moves(s: Snapshot, moving: seq<bool>, steps: seq<Step>, sensors: seq<Point>, hit: int): (r: Snapshot)
    requires Sound(s) && |moving| == 16 && |steps| == 16
    ensures Sound(r)
    ensures r.moving <==> exists k :: 0 <= k < 16 && moving[k]
    ensures r.player1Turn == s.player1Turn && r.team == s.team && r.next == s.next &&
            r.moveWasMade == s.moveWasMade
    ensures r.firstHit == if r.moving then hit else s.firstHit
    ensures r.pockets == s.pockets + PottedIds(s.balls, moving, steps, sensors, 15) +
                         (if Potted(s.cue, moving[15], steps[15], sensors) then [CueId] else [])
    ensures !r.moving ==> r == s.(moving := false)
  {
    var balls1 := seq(15, k requires 0 <= k < 15 => Advance(s.balls[k], moving[k], steps[k], sensors));
    var cue1 := Advance(s.cue, moving[15], steps[15], sensors);
    var pushed := if Potted(s.cue, moving[15], steps[15], sensors) then [s.cue.id] else [];
    var anyMoving := exists k :: 0 <= k < 16 && moving[k];
    assert !anyMoving ==> balls1 == s.balls && PottedIds(s.balls, moving, steps, sensors, 15) == [] by {
      if !anyMoving {
        assert forall k :: 0 <= k < 15 ==> balls1[k] == s.balls[k];
        NothingPottedWhenStill(s.balls, moving, steps, sensors, 15);
      }
    }
    s.(balls := balls1, cue := cue1, moving := anyMoving,
       pockets := s.pockets + PottedIds(s.balls, moving, steps, sensors, 15) + pushed,
       firstHit := if anyMoving then hit else s.firstHit)
  }

  /** The moves of a frame, field by field. */
  lemma MovesIs(s: Snapshot, moving: seq<bool>, steps: seq<Step>, sensors: seq<Point>, hit: int, s1: Snapshot)
    requires Sound(s) && |moving| == 16 && |steps| == 16
    requires s1 == s.(balls := seq(15, k requires 0 <= k < 15 => Advance(s.balls[k], moving[k], steps[k], sensors)),
                      cue := Advance(s.cue, moving[15], steps[15], sensors),
                      moving := exists k :: 0 <= k < 16 && moving[k],
                      pockets := s.pockets + PottedIds(s.balls, moving, steps, sensors, 15) +
                                 (if Potted(s.cue, moving[15], steps[15], sensors) then [s.cue.id] else []),
                      firstHit := if exists k :: 0 <= k < 16 && moving[k] then hit else s.firstHit)
    ensures s1 == Moves(s, moving, steps, sensors, hit)
  {
  }

  /**
    The level after one frame: the moves, then, when nothing moves and a
    shot was made, the shot's resolution.  While balls move turn, team,
    result and the shot flag stay and the first hit is the observer's; a
    still frame with no shot pending changes nothing.
  */
  function Tick(s: Snapshot, moving: seq<bool>, steps: seq<Step>, sensors: seq<Point>, hit: int, a: Area, blank: Ball): (r: Snapshot)
    requires Sound(s) && |moving| == 16 && |steps| == 16 && blank.pos.radius > 0.0
    ensures Sound(r)
    ensures r.moving <==> exists k :: 0 <= k < 16 && moving[k]
    ensures r.firstHit == if r.moving then hit else s.firstHit
    ensures r.moving || !s.moveWasMade ==>
      r.player1Turn == s.player1Turn && r.team == s.team && r.next == s.next &&
      r.moveWasMade == s.moveWasMade
    ensures r.moving ==>
      r.pockets == s.pockets + PottedIds(s.balls, moving, steps, sensors, 15) +
                   (if Potted(s.cue, moving[15], steps[15], sensors) then [CueId] else [])
    ensures !r.moving && !s.moveWasMade ==> r == s.(moving := false)
    ensures !r.moving && s.moveWasMade ==> r.pockets == [] && !r.moveWasMade
  {
    var s1 := Moves(s, moving, steps, sensors, hit);
    if !s1.moving && s.moveWasMade then Resolve(s1, a, blank) else s1
  }

  /**
    A foul is judged on the first hit the observer recorded while the balls
    moved: when a shot's balls roll with a first hit outside the shooter's
    group, the first still frame after it passes the turn and ends the shot.
  */
  lemma FoulAfterShot(s: Snapshot, moving: seq<bool>, steps: seq<Step>, still: seq<bool>, rest: seq<Step>,
                      sensors: seq<Point>, hit: int, hit': int, a: Area, blank: Ball)
    requires Sound(s) && blank.pos.radius > 0.0 && s.moveWasMade
    requires |moving| == 16 && |steps| == 16 && exists k :: 0 <= k < 16 && moving[k]
    requires |still| == 16 && |rest| == 16 && forall k :: 0 <= k < 16 ==> !still[k]
    requires IsFoul(ShooterGroup(s.player1Turn, s.team), hit)
    ensures var s1 := Tick(s, moving, steps, sensors, hit, a, blank);
            var s2 := Tick(s1, still, rest, sensors, hit', a, blank);
            s1.firstHit == hit && s2.player1Turn == !s.player1Turn && !s2.moveWasMade && !s2.moving
  {
    var s1 := Tick(s, moving, steps, sensors, hit, a, blank);
    var m := Moves(s1, still, rest, sensors, hit');
    assert m == s1.(moving := false);
    ResolveTurn(m, a, blank);
  }

  // ---------------------------------------------------------------------
  // Input (`handle_events`, `handle_when_still`)

  /**
    One event: quitting is always heard; while balls move nothing else is;
    a strike resets the first hit, gives the cue ball the velocity `shot`
    the cue's angle makes, and marks the shot as made.
  */
  function Heard(s: Snapshot, e: Event, shot: MovData): (r: Snapshot)
    ensures e.QuitEvent? ==> r == s.(next := Quit)
    ensures !e.QuitEvent? && (s.moving || !IsStrike(e)) ==> r == s
    ensures !e.QuitEvent? && !s.moving && IsStrike(e) ==>
      r == s.(firstHit := NoHit, cue := s.cue.(mov := shot), moveWasMade := true)
  {
    if e.QuitEvent? then s.(next := Quit)
    else if s.moving then s
    else if IsStrike(e) then s.(firstHit := NoHit, cue := s.cue.(mov := shot), moveWasMade := true)
    else s
  }

  /**
    The level after a frame's events, `shots[k]` being the velocity a strike
    at event k would give.  Only the result, the first hit, the shot flag
    and the cue ball's velocity can change; while balls move only quitting
    is heard.
  */
  function Handled(s: Snapshot, events: seq<Event>, shots: seq<MovData>): (r: Snapshot)
    requires |events| == |shots|
    ensures r.balls == s.balls && r.pockets == s.pockets && r.moving == s.moving
    ensures r.player1Turn == s.player1Turn && r.team == s.team
    ensures r.cue == s.cue.(mov := r.cue.mov)
    ensures r.next == (if QuitEvent in events then Quit else s.next)
    ensures s.moving ==> r == s.(next := r.next)
    ensures !s.moving ==>
      (r.moveWasMade <==> s.moveWasMade || exists k :: 0 <= k < |events| && IsStrike(events[k]))
    ensures !s.moving && (exists k :: 0 <= k < |events| && IsStrike(events[k])) ==> r.firstHit == NoHit
    ensures !s.moving && !(exists k :: 0 <= k < |events| && IsStrike(events[k])) ==>
      r.firstHit == s.firstHit && r.cue == s.cue
  {
    if |events| == 0 then s
    else
      var n := |events| - 1;
      var prev := Handled(s, events[..n], shots[..n]);
      assert events == events[..n] + [events[n]];
      assert forall k :: 0 <= k < n ==> events[..n][k] == events[k];
      Heard(prev, events[n], shots[n])
  }

  // ---------------------------------------------------------------------
  // The level

  class Level {
    const tab: Table
    /** A ball as `Ball{}` and `setTex` leave it (the ball's own class is not part of this model). */
    const blank: Ball
    const balls: array<Ball>
    var cueball: Ball
    const pocketSensors: array<Point>

    var pockets: seq<int>
    var movingState: bool
    var player1Turn: bool
    var moveWasMade: bool
    var teamColor: int
    /** The first ball the cue ball hit during the shot, as the collision observer keeps it. */
    var firstHit: int
    /** `GameState::next_state`. */
    var nextState: GameResult

    ghost predicate Valid()
      reads this, balls
    {
      balls.Length == 15 && pocketSensors.Length == 6 && blank.pos.radius > 0.0 && Sound(State())
    }

    ghost function State(): Snapshot
      reads this, balls
    {
      Snapshot(balls[..], cueball, pockets, movingState, player1Turn, moveWasMade, teamColor, firstHit, nextState)
    }

    /**
      A new level on a table centred in the window: player 1 to shoot, no
      group chosen, the object balls racked, the cue ball placed by the
      free-spot search and the six sensors at the pockets.  `sqrt3` is what
      the square root of 3 evaluates to.
    */
    constructor (windowW: int, windowH: int, imageW: nat, imageH: nat, b: Ball, sqrt3: real)
      requires b.pos.radius > 0.0
      ensures Valid() && fresh(balls) && fresh(pocketSensors) && fresh(tab)
      ensures blank == b
      ensures tab.Bounds() == Area(Centre(windowW, imageW), Centre(windowH, imageH), imageW, imageH)
      ensures player1Turn && teamColor == 0 && !moveWasMade && !movingState && pockets == []
      ensures nextState == None && firstHit == NoHit
      ensures forall k :: 0 <= k < 15 ==> balls[k] == Racked(b, tab.Bounds(), sqrt3, k)
      ensures cueball == NewCueBall(balls[..], b, tab.Bounds())
      ensures pocketSensors[..] == SensorLayout(tab.Bounds())
    {
      tab := new Table(windowW, windowH, imageW, imageH, Collision, b);
      blank := b;
      balls := new Ball[15](_ => b);
      cueball := b;
      pocketSensors := new Point[6](_ => Point(0, 0));
      pockets := [];
      movingState := false;
      player1Turn := true;
      moveWasMade := false;
      teamColor := 0;
      firstHit := NoHit;
      nextState := None;
      new;
      CreateBalls(sqrt3);
      CreateCueBall();
      CreateSensors();
    }

    /** `create_balls`: label the fifteen balls, fill the rack column by column, then swap two pairs. */
    method CreateBalls(sqrt3: real)
      requires balls.Length == 15
      requires forall k :: 0 <= k < 15 ==> balls[k] == blank
      modifies balls
      ensures forall k :: 0 <= k < 15 ==> balls[k] == Racked(blank, tab.Bounds(), sqrt3, k)
    {
      for i := 1 to 16
        invariant forall k :: 0 <= k < i - 1 ==> balls[k] == Labelled(blank, k)
        invariant forall k :: i - 1 <= k < 15 ==> balls[k] == blank
      {
        balls[i - 1] := balls[i - 1].(id := i);
        balls[i - 1] := balls[i - 1].(observers := balls[i - 1].observers + [Collision]);
        balls[i - 1] := balls[i - 1].(observers := balls[i - 1].observers + [Audio]);
      }

      var radius := balls[0].pos.radius + 0.5;
      FillRack(radius, sqrt3);

      // The eight-ball to the centre of the triangle, then a solid and a stripe at the corners.
      balls[7], balls[10] := balls[7].(pos := balls[10].pos), balls[10].(pos := balls[7].pos);
      balls[4], balls[8] := balls[4].(pos := balls[8].pos), balls[8].(pos := balls[4].pos);
    }

    /** The placing loops of `create_balls`: five columns of 5, 4, 3, 2 and 1 balls, left to right. */
    method FillRack(radius: real, sqrt3: real)
      requires balls.Length == 15
      requires forall k :: 0 <= k < 15 ==> balls[k] == Labelled(blank, k)
      modifies balls
      ensures forall k :: 0 <= k < 15 ==> balls[k] == Placed(blank, tab.Bounds(), radius, sqrt3, k)
    {
      ghost var a := tab.Bounds();
      var cur := 0;
      var px := 200.0;
      var py := (tab.posY + tab.height / 2) as real - 5.0 * radius;
      SpotOfFirstSlot(a, radius, sqrt3);
      var i := 5;
      while i > 0
        invariant 0 <= i <= 5
        invariant cur == ColumnStart(5 - i) && cur <= 15
        invariant (px, py) == SlotSpot(a, radius, sqrt3, (5 - i, 0))
        invariant forall k :: 0 <= k < cur ==> balls[k] == Placed(blank, a, radius, sqrt3, k)
        invariant forall k :: cur <= k < 15 ==> balls[k] == Labelled(blank, k)
      {
        ghost var c: nat := 5 - i;
        var j := 0;
        while j < i
          invariant 0 <= j <= i
          invariant cur == ColumnStart(c) + j && cur <= 15
          invariant forall k :: 0 <= k < cur ==> balls[k] == Placed(blank, a, radius, sqrt3, k)
          invariant forall k :: cur <= k < 15 ==> balls[k] == Labelled(blank, k)
        {
          SlotOfColumn(c, j);
          SpotDownColumn(a, radius, sqrt3, c, j);
          balls[cur] := balls[cur].(pos := balls[cur].pos.(x := px, y := py + radius * j as real * 2.0));
          assert balls[cur] == Placed(blank, a, radius, sqrt3, cur);
          cur := cur + 1;
          j := j + 1;
        }
        SpotNextColumn(a, radius, sqrt3, c);
        px := px + radius * 2.0 * sqrt3 / 2.0;
        py := py + radius;
        i := i - 1;
      }
    }

    /** `create_cue_ball`: a fresh cue ball placed by the free-spot search. */
    method CreateCueBall()
      requires balls.Length == 15 && PositiveRadii(balls[..]) && blank.pos.radius > 0.0
      modifies this`cueball
      ensures cueball == NewCueBall(balls[..], blank, tab.Bounds())
    {
      cueball := blank;
      cueball := cueball.(id := CueId);
      cueball := cueball.(mass := CueMass);
      cueball := cueball.(observers := cueball.observers + [Collision]);
      cueball := cueball.(observers := cueball.observers + [Audio]);
      assert cueball == CueTemplate(blank);
      var x, y := GetSafePos();
      cueball := cueball.(pos := cueball.pos.(x := x, y := y));
    }

    /** `create_sensors`: the six pocket sensors at their offsets from the table. */
    method CreateSensors()
      requires pocketSensors.Length == 6
      modifies pocketSensors
      ensures pocketSensors[..] == SensorLayout(tab.Bounds())
    {
      pocketSensors[0] := pocketSensors[0].(x := tab.posX + 35);
      pocketSensors[0] := pocketSensors[0].(y := tab.posY + 35);
      pocketSensors[1] := pocketSensors[1].(x := tab.posX + 33);
      pocketSensors[1] := pocketSensors[1].(y := tab.posY - 33 + tab.height);
      pocketSensors[2] := pocketSensors[2].(x := tab.posX - 35 + tab.width);
      pocketSensors[2] := pocketSensors[2].(y := tab.posY + 35);
      pocketSensors[3] := pocketSensors[3].(x := tab.posX - 35 + tab.width);
      pocketSensors[3] := pocketSensors[3].(y := tab.posY - 35 + tab.height);
      pocketSensors[4] := pocketSensors[4].(x := tab.posX + tab.width / 2);
      pocketSensors[4] := pocketSensors[4].(y := tab.posY + 25);
      pocketSensors[5] := pocketSensors[5].(x := tab.posX + tab.width / 2);
      pocketSensors[5] := pocketSensors[5].(y := tab.posY - 23 + tab.height);
      assert pocketSensors[..] == [pocketSensors[0], pocketSensors[1], pocketSensors[2],
                                   pocketSensors[3], pocketSensors[4], pocketSensors[5]];
    }

    /**
      `get_safe_pos`: from x = 600 on the search row, shift left past the
      first visible ball in the way, then past the cue ball if it is in the
      way, until a pass shifts nothing.
    */
    method GetSafePos() returns (x: real, y: real)
      requires balls.Length == 15 && PositiveRadii(balls[..]) && cueball.pos.radius > 0.0
      ensures y == SafeY(tab.Bounds())
      ensures x == SafeX(balls[..], cueball, SafeStartX, y)
      ensures x <= SafeStartX
      ensures forall k :: 0 <= k < 15 && balls[k].visible ==> !Overlaps(balls[k], x, y)
      ensures !Overlaps(cueball, x, y)
    {
      x := SafeStartX;
      y := tab.posY as real + (tab.height / 2) as real - 2.5;
      ghost var s := balls[..];
      var shifted := true;
      while shifted
        invariant shifted ==> SafeX(s, cueball, x, y) == SafeX(s, cueball, SafeStartX, y)
        invariant !shifted ==> x == SafeX(s, cueball, SafeStartX, y)
        decreases if shifted then Steps(s, cueball, x) + 1.0 else 0.0
      {
        ghost var x0 := x;
        ghost var d0 := Steps(s, cueball, x) + 1.0;
        var i := FirstInWay(x, y);
        shifted := i < 15;
        if shifted {
          x := x - balls[i].pos.radius * 2.0;
        }
        if Overlaps(cueball, x, y) {
          x := x - cueball.pos.radius;
          shifted := true;
        }
        Shift(s, x0, y, i, x, shifted);
        assert (if shifted then Steps(s, cueball, x) + 1.0 else 0.0) <= d0 - 1.0;
      }
    }

    /** The inner loop of `get_safe_pos`: the first visible ball in the way of (x, y), 15 if none. */
    method FirstInWay(x: real, y: real) returns (i: nat)
      requires balls.Length == 15
      ensures i == FirstBlocker(balls[..], x, y)
    {
      i := 0;
      while i < 15
        invariant 0 <= i <= 15
        invariant forall k :: 0 <= k < i ==> !Blocks(balls[k], x, y)
      {
        if balls[i].visible {
          if Overlaps(balls[i], x, y) {
            break;
          }
        }
        i := i + 1;
      }
      FirstBlockerIs(balls[..], x, y, i);
    }

    /** One pass of the search: the result of the search is unchanged, and it ends exactly when nothing shifted. */
    lemma Shift(s: seq<Ball>, x0: real, y: real, i: nat, x: real, shifted: bool)
      requires PositiveRadii(s) && cueball.pos.radius > 0.0
      requires i == FirstBlocker(s, x0, y)
      requires var x1 := if i < |s| then x0 - 2.0 * s[i].pos.radius else x0;
               x == (if Overlaps(cueball, x1, y) then x1 - cueball.pos.radius else x1) &&
               shifted == (i < |s| || Overlaps(cueball, x1, y))
      ensures shifted ==> SafeX(s, cueball, x, y) == SafeX(s, cueball, x0, y)
      ensures shifted ==> 0.0 <= Steps(s, cueball, x) <= Steps(s, cueball, x0) - 1.0
      ensures !shifted ==> x == x0 == SafeX(s, cueball, x0, y)
    {
      if shifted {
        ShiftShortens(s, cueball, x0, y, i, x);
      }
    }

    /**
      `check_pocket`: if some sensor lies within the ball's radius, the ball
      stops colliding, is neither movable nor drawn, and its id joins the
      potted list.
    */
    method CheckPocket(b: Ball) returns (hit: bool, nb: Ball)
      requires pocketSensors.Length == 6
      modifies this`pockets
      ensures hit == InPocket(b, pocketSensors[..])
      ensures nb == (if hit then Pocketed(b) else b)
      ensures pockets == old(pockets) + (if hit then [b.id] else [])
    {
      nb := b;
      for j := 0 to 6
        invariant forall i :: 0 <= i < j ==> !Covers(b, pocketSensors[i])
        invariant pockets == old(pockets) && nb == b
      {
        if Covers(b, pocketSensors[j]) {
          nb := nb.(observers := Without(nb.observers, Collision));
          nb := nb.(movable := false);
          nb := nb.(visible := false);
          pockets := pockets + [b.id];
          return true, nb;
        }
      }
      hit := false;
    }

    /** `ball_off_table`: the ball lies left of, right of, above or below the table, tested in that order. */
    method BallOffTable(b: Ball) returns (off: bool)
      ensures off == OffTable(b, tab.Bounds())
    {
      if b.pos.x < tab.posX as real {
        off := true;
      } else if b.pos.x > (tab.posX + tab.width) as real {
        off := true;
      } else if b.pos.y < tab.posY as real {
        off := true;
      } else if b.pos.y > (tab.posY + tab.height) as real {
        off := true;
      } else {
        off := false;
      }
    }

    /** The flag loop of `change_state`: some visible ball has an id strictly between lo and hi. */
    method AnyVisibleBetween(lo: int, hi: int) returns (flag: bool)
      requires balls.Length == 15
      ensures flag <==> exists k :: 0 <= k < 15 && balls[k].visible && lo < balls[k].id < hi
    {
      flag := false;
      for k := 0 to 15
        invariant flag <==> exists j :: 0 <= j < k && balls[j].visible && lo < balls[j].id < hi
      {
        if balls[k].visible && balls[k].id < hi && balls[k].id > lo {
          flag := true;
        }
      }
    }

    /**
      `change_state`: the rules of the shot, then the off-table checks for
      the object balls and the cue ball.
    */
    method ChangeState()
      requires Valid()
      modifies this, balls
      ensures Valid()
      ensures State() == Resolve(old(State()), tab.Bounds(), blank)
    {
      ghost var s := State();
      ghost var a := tab.Bounds();
      var curTurn := player1Turn;
      ShotRules(curTurn);

      // Balls off the table.
      ghost var s1 := State();
      ReturnBalls(curTurn);
      BallsBackIs(s1, a, curTurn, State());

      ghost var s2 := State();
      ReturnCue(curTurn);
      assert State() == CueBack(s2, a, blank, curTurn);
    }

    /** The cue ball off the table, and the end of the shot. */
    method ReturnCue(curTurn: bool)
      requires Valid()
      modifies this`cueball, this`player1Turn, this`moveWasMade
      ensures Valid() && State() == CueBack(old(State()), tab.Bounds(), blank, curTurn)
    {
      var off := BallOffTable(cueball);
      if off {
        CreateCueBall();
        player1Turn := !curTurn;
      }
      moveWasMade := false;
    }

    /**
      The rules half of `change_state`, in the order the source checks
      them: a foul on the first hit, then the potted balls, then the groups.
      It agrees with `Judge`.
    */
    method ShotRules(curTurn: bool)
      requires Valid() && curTurn == player1Turn
      modifies this`player1Turn, this`teamColor, this`nextState, this`cueball, this`pockets
      ensures var v := Judge(curTurn, old(teamColor), old(pockets), firstHit, balls[..]);
              player1Turn == (if v.pass then !curTurn else curTurn) &&
              teamColor == v.team &&
              nextState == (if v.result == None then old(nextState) else v.result) &&
              cueball == (if v.scratch then NewCueBall(balls[..], blank, tab.Bounds()) else old(cueball)) &&
              pockets == []
    ensures Valid() && State() == Ruled(old(State()), tab.Bounds(), blank)
    {
      ghost var v := Judge(curTurn, teamColor, pockets, firstHit, balls[..]);
      FoulCheck(curTurn);
      if |pockets| == 0 {
        player1Turn := !curTurn;
      } else {
        PottedRules(curTurn);
        ClaimGroup(curTurn);
        pockets := [];
      }
      assert v.team == teamColor;
      RuledIs(old(State()), tab.Bounds(), blank, v, State());
    }

    /** Own ball not hit first: a first hit outside the shooter's group passes the turn. */
    method FoulCheck(curTurn: bool)
      requires ValidTeam(teamColor) && curTurn == player1Turn
      modifies this`player1Turn
      ensures player1Turn == if IsFoul(ShooterGroup(curTurn, teamColor), firstHit) then !curTurn else curTurn
    {
      var f := firstHit;
      if curTurn {
        if teamColor == 1 && f >= 8 && f < 16 {
          player1Turn := !curTurn;
        } else if teamColor == 2 && f > 0 && f <= 8 {
          player1Turn := !curTurn;
        }
      } else {
        if teamColor == 2 && f >= 8 && f < 16 {
          player1Turn := !curTurn;
        } else if teamColor == 1 && f > 0 && f <= 8 {
          player1Turn := !curTurn;
        }
      }
    }

    /** Groups: while none is set, a shot of only solids or only stripes gives the shooter that group. */
    method ClaimGroup(curTurn: bool)
      requires ValidTeam(teamColor) && |pockets| > 0
      modifies this`teamColor
      ensures teamColor == if old(teamColor) == 0 && Claimed(pockets) != Undecided
                           then TeamFor(curTurn, Claimed(pockets)) else old(teamColor)
    {
      if teamColor == 0 {
        if forall k :: 0 <= k < |pockets| ==> pockets[k] < 8 && pockets[k] > 0 {
          teamColor := if curTurn then 1 else 2;
        } else if forall k :: 0 <= k < |pockets| ==> pockets[k] < 16 && pockets[k] > 8 {
          teamColor := if curTurn then 2 else 1;
        }
      }
    }

    /** The off-table loop of `change_state`: each object ball off the table goes back, in order, and passes the turn. */
    method ReturnBalls(curTurn: bool)
      requires balls.Length == 15 && PositiveRadii(balls[..]) && cueball.pos.radius > 0.0
      modifies balls, this`player1Turn
      ensures balls[..] == Respawned(old(balls[..]), cueball, tab.Bounds(), 0)
      ensures player1Turn == if AnyOffTable(old(balls[..]), tab.Bounds(), 15) then !curTurn else old(player1Turn)
    {
      ghost var s := balls[..];
      ghost var a := tab.Bounds();
      for i := 0 to 15
        invariant PositiveRadii(balls[..])
        invariant Respawned(s, cueball, a, 0) == Respawned(balls[..], cueball, a, i)
        invariant forall k :: i <= k < 15 ==> balls[k] == s[k]
        invariant player1Turn == if AnyOffTable(s, a, i) then !curTurn else old(player1Turn)
      {
        ghost var pre := balls[..];
        ReturnBall(i, curTurn);
        ReturnStep(s, pre, balls[..], cueball, a, i);
      }
    }

    /** One iteration of the off-table loop: ball i, if off the table, goes back at rest and passes the turn. */
    method ReturnBall(i: nat, curTurn: bool)
      requires balls.Length == 15 && i < 15 && PositiveRadii(balls[..]) && cueball.pos.radius > 0.0
      modifies balls, this`player1Turn
      ensures balls[..] == Returned(old(balls[..]), cueball, tab.Bounds(), i)
      ensures player1Turn == if OffTable(old(balls[i]), tab.Bounds()) then !curTurn else old(player1Turn)
    {
      ghost var before := balls[..];
      ghost var a := tab.Bounds();
      var off := BallOffTable(balls[i]);
      if off {
        var x, y := GetSafePos();
        balls[i] := balls[i].(pos := balls[i].pos.(x := x, y := y));
        balls[i] := balls[i].(mov := balls[i].mov.(vx := 0.0, vy := 0.0));
        player1Turn := !curTurn;
        assert balls[..] == before[i := Place(before[i], SafeX(before, cueball, SafeStartX, SafeY(a)), SafeY(a))];
      }
    }

    /**
      The branch of `change_state` for a shot that potted something: a
      scratch recreates the cue ball; otherwise a shooter with a group who
      potted none of it loses the turn, and else the eight-ball decides the
      game.
    */
    method PottedRules(curTurn: bool)
      requires Valid() && |pockets| > 0
      modifies this`cueball, this`player1Turn, this`nextState
      ensures var v := Judge(curTurn, teamColor, pockets, firstHit, balls[..]);
              cueball == (if v.scratch then NewCueBall(balls[..], blank, tab.Bounds()) else old(cueball)) &&
              nextState == (if v.result == None then old(nextState) else v.result) &&
              player1Turn == (if v.scratch || (teamColor != 0 && !SomePotted(pockets, ShooterGroup(curTurn, teamColor)))
                              then !curTurn else old(player1Turn))
    {
      if CueId in pockets {
        CreateCueBall();
        player1Turn := !curTurn;
      } else if curTurn {
        // Own ball not in the pocket.
        if teamColor == 1 && !(exists k :: 0 <= k < |pockets| && pockets[k] > 0 && pockets[k] < 8) {
          player1Turn := !curTurn;
        } else if teamColor == 2 && !(exists k :: 0 <= k < |pockets| && pockets[k] > 8 && pockets[k] < 16) {
          player1Turn := !curTurn;
        } else if EightId in pockets {
          if teamColor == 0 {
            nextState := Lost;
          } else if teamColor == 1 {
            var flag := AnyVisibleBetween(0, 8);
            nextState := if flag then Lost else Won;
          } else if teamColor == 2 {
            var flag := AnyVisibleBetween(8, 16);
            nextState := if flag then Lost else Won;
          }
        }
      } else {
        if teamColor == 2 && !(exists k :: 0 <= k < |pockets| && pockets[k] > 0 && pockets[k] < 8) {
          player1Turn := !curTurn;
        } else if teamColor == 1 && !(exists k :: 0 <= k < |pockets| && pockets[k] > 8 && pockets[k] < 16) {
          player1Turn := !curTurn;
        } else if EightId in pockets {
          if teamColor == 0 {
            nextState := Lost;
          } else if teamColor == 2 {
            var flag := AnyVisibleBetween(0, 8);
            nextState := if flag then Lost else Won;
          } else if teamColor == 1 {
            var flag := AnyVisibleBetween(8, 16);
            nextState := if flag then Lost else Won;
          }
        }
      }
    }

    /**
      `logic`: every moving ball moves and may fall into a pocket, the cue
      ball last; when nothing moved and a shot was made, the shot is
      resolved.  `moving` and `steps` stand for `is_moving` and `move`.
    */
    method Logic(moving: seq<bool>, steps: seq<Step>, hit: int)
      requires Valid() && |moving| == 16 && |steps| == 16
      modifies this, balls
      ensures Valid()
      ensures State() == Tick(old(State()), moving, steps, pocketSensors[..], hit, tab.Bounds(), blank)
    {
      MoveAll(moving, steps, hit);
      if !movingState {
        if moveWasMade {
          ChangeState();
        }
      }
    }

    /**
      The moving part of `logic`: every moving ball, object balls first,
      then the cue ball; when something moved, the collision observer holds
      the first hit `hit`.
    */
    method MoveAll(moving: seq<bool>, steps: seq<Step>, hit: int)
      requires Valid() && |moving| == 16 && |steps| == 16
      modifies balls, this`pockets, this`movingState, this`cueball, this`firstHit
      ensures Valid() && State() == Moves(old(State()), moving, steps, pocketSensors[..], hit)
    {
      ghost var s := State();
      ghost var sensors := pocketSensors[..];
      movingState := false;
      MoveBalls(moving, steps);
      cueball := MoveBall(cueball, moving[15], steps[15]);
      if movingState {
        firstHit := hit;
      }

      ghost var balls1 := seq(15, k requires 0 <= k < 15 => Advance(s.balls[k], moving[k], steps[k], sensors));
      assert balls[..] == balls1;
      assert movingState <==> exists k :: 0 <= k < 16 && moving[k];
      MovesIs(s, moving, steps, sensors, hit, State());
    }

    /** The object-ball loop of `logic`. */
    method MoveBalls(moving: seq<bool>, steps: seq<Step>)
      requires balls.Length == 15 && pocketSensors.Length == 6 && |moving| >= 15 && |steps| >= 15
      requires !movingState
      modifies balls, this`pockets, this`movingState
      ensures forall k :: 0 <= k < 15 ==> balls[k] == Advance(old(balls[k]), moving[k], steps[k], pocketSensors[..])
      ensures pockets == old(pockets) + PottedIds(old(balls[..]), moving, steps, pocketSensors[..], 15)
      ensures movingState <==> exists k :: 0 <= k < 15 && moving[k]
    {
      ghost var s := balls[..];
      ghost var sensors := pocketSensors[..];
      for i := 0 to 15
        invariant forall k :: 0 <= k < i ==> balls[k] == Advance(s[k], moving[k], steps[k], sensors)
        invariant forall k :: i <= k < 15 ==> balls[k] == s[k]
        invariant pockets == old(pockets) + PottedIds(s, moving, steps, sensors, i)
        invariant movingState <==> exists k :: 0 <= k < i && moving[k]
      {
        var b := MoveBall(balls[i], moving[i], steps[i]);
        balls[i] := b;
      }
    }

    /** One ball in `logic`: a moving ball sets the moving flag, moves, and is checked against the pockets. */
    method MoveBall(b: Ball, moving: bool, st: Step) returns (nb: Ball)
      requires pocketSensors.Length == 6
      modifies this`pockets, this`movingState
      ensures nb == Advance(b, moving, st, pocketSensors[..])
      ensures pockets == old(pockets) + (if Potted(b, moving, st, pocketSensors[..]) then [b.id] else [])
      ensures movingState == (old(movingState) || moving)
    {
      nb := b;
      if moving {
        movingState := true;
        nb := Moved(nb, st);
        var potted;
        potted, nb := CheckPocket(nb);
      }
    }

    /** `handle_events`: quitting is always heard, anything else only while nothing moves. */
    method HandleEvents(events: seq<Event>, shots: seq<MovData>)
      requires Valid() && |events| == |shots|
      modifies this`nextState, this`firstHit, this`cueball, this`moveWasMade
      ensures Valid() && State() == Handled(old(State()), events, shots)
    {
      for k := 0 to |events|
        invariant State() == Handled(old(State()), events[..k], shots[..k])
      {
        assert events[..k + 1][..k] == events[..k] && shots[..k + 1][..k] == shots[..k];
        var e := events[k];
        if e.QuitEvent? {
          nextState := Quit;
        } else if !movingState {
          HandleWhenStill(e, shots[k]);
        }
      }
      assert events[..|events|] == events && shots[..|shots|] == shots;
    }

    /**
      `handle_when_still`: a key press or a click resets the first hit,
      gives the cue ball the velocity `shot` of the cue's angle and marks
      the shot as made; mouse motion only turns the cue.
    */
    method HandleWhenStill(e: Event, shot: MovData)
      modifies this`firstHit, this`cueball, this`moveWasMade
      ensures IsStrike(e) ==> firstHit == NoHit && cueball == old(cueball).(mov := shot) && moveWasMade
      ensures !IsStrike(e) ==>
        firstHit == old(firstHit) && cueball == old(cueball) && moveWasMade == old(moveWasMade)
    {
      if e.KeyDown? || e.MouseButtonDown? {
        firstHit := NoHit;
        cueball := cueball.(mov := cueball.mov.(vy := shot.vy));
        cueball := cueball.(mov := cueball.mov.(vx := shot.vx));
        moveWasMade := true;
      }
    }
  }
}
